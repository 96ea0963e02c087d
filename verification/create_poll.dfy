/**
 * The party-creation form (the `CreatePoll` page): its schema, the logo
 * file field, and a simulated request whose progress rises by 10 per timer
 * tick and which settles, at random, once progress reaches 100.
 */
module CreatePoll {
  import opened Common
  import opened Forms

  /** A file chosen in the file input; its contents are not modelled. */
  datatype File = File(name: string, size: nat)

  datatype PartyForm = PartyForm(partyName: string, state: string, partyLogo: Option<File>)

  const DefaultPartyForm := PartyForm("", "", None)

  /**
   * The schema: the party name needs two characters; the state is a bare
   * `z.string()` that the always-present form value satisfies; the logo is
   * optional.
   */
  function ValidatePartyForm(f: PartyForm): (issues: seq<Issue>)
    ensures Flags(issues, "partyName") <==> |f.partyName| < 2
    ensures !Flags(issues, "state") && !Flags(issues, "partyLogo")
    ensures issues == [] <==> |f.partyName| >= 2
  {
    MinLength("partyName", f.partyName, 2, "Party name must be at least 2 characters.")
  }

  /** `handleLogoChange`: the first chosen file becomes the logo; no file changes nothing. */
  function HandleLogoChange(f: PartyForm, files: seq<File>): (r: PartyForm)
    ensures files == [] ==> r == f
    ensures files != [] ==> r.partyLogo == Some(files[0])
    ensures r.partyName == f.partyName && r.state == f.state
  {
    if files == [] then f else f.(partyLogo := Some(files[0]))
  }

  /** Choosing a logo never changes whether the form can be submitted. */
  lemma LogoKeepsVerdict(f: PartyForm, files: seq<File>)
    ensures ValidatePartyForm(HandleLogoChange(f, files)) == ValidatePartyForm(f)
  {
  }

  const ProgressStep := 10
  const ProgressDone := 100

  /**
   * `ticker` is the counter of the running interval while a request is
   * simulated; `progress` is what the bar shows.
   */
  datatype Page = Page(
    form: PartyForm,
    submitting: bool,
    progress: nat,
    ticker: Option<nat>,
    showSuccess: bool,
    showError: bool)

  const InitialPage := Page(DefaultPartyForm, false, 0, None, false, false)

  predicate Consistent(p: Page)
  {
    (p.submitting <==> p.ticker.Some?)
    && (p.ticker.Some? ==> p.ticker.value == p.progress && p.progress < ProgressDone)
    && (!p.submitting ==> p.progress == 0)
  }

  /** The submit button is disabled while submitting. */
  predicate SubmitDisabled(p: Page)
  {
    p.submitting
  }

  /** Pressing submit: ignored while submitting or when the schema fails; otherwise the interval starts at 0. */
  function BeginCreate(p: Page): (r: Page)
    ensures !p.submitting && ValidatePartyForm(p.form) == [] ==> r.submitting && r.ticker == Some(0)
    ensures p.submitting || ValidatePartyForm(p.form) != [] ==> r == p
    ensures Consistent(p) ==> Consistent(r)
  {
    if p.submitting || ValidatePartyForm(p.form) != [] then p
    else p.(submitting := true, ticker := Some(0))
  }

  /**
   * One interval tick: the counter grows by 10 and the bar shows it. When
   * it reaches 100 the interval is cleared and the request settles;
   * `success` stands for `Math.random() > 0.5`. Settling opens one modal,
   * clears `submitting` and returns the bar to 0.
   */
  function Tick(p: Page, success: bool): (r: Page)
    ensures p.ticker.None? ==> r == p
    ensures p.ticker.Some? && p.ticker.value + ProgressStep < ProgressDone ==>
      && r.ticker == Some(p.ticker.value + ProgressStep) && r.progress == p.ticker.value + ProgressStep
      && r.submitting == p.submitting && r.showSuccess == p.showSuccess && r.showError == p.showError
    ensures p.ticker.Some? && p.ticker.value + ProgressStep >= ProgressDone ==>
      && r.ticker.None? && !r.submitting && r.progress == 0
      && r.showSuccess == (success || p.showSuccess) && r.showError == (!success || p.showError)
    ensures Consistent(p) ==> Consistent(r)
    ensures r.form == p.form
  {
    match p.ticker
    case None => p
    case Some(pv) =>
      var v := pv + ProgressStep;
      if v >= ProgressDone then
        if success then p.(ticker := None, submitting := false, progress := 0, showSuccess := true)
        else p.(ticker := None, submitting := false, progress := 0, showError := true)
      else p.(ticker := Some(v), progress := v)
  }

  /** `n` ticks with the same eventual outcome. */
  function Ticks(p: Page, n: nat, success: bool): Page
    decreases n
  {
    if n == 0 then p else Ticks(Tick(p, success), n - 1, success)
  }

  /** Before the tenth tick the request is still pending, with the bar at 10 per tick so far. */
  lemma {:induction false} TicksBeforeDone(p: Page, n: nat, success: bool)
    requires p.ticker.Some? && p.submitting && p.ticker.value == p.progress
    requires p.progress + ProgressStep * n < ProgressDone
    ensures var r := Ticks(p, n, success);
      r.submitting && r.progress == p.progress + ProgressStep * n && r.ticker == Some(r.progress)
      && r.showSuccess == p.showSuccess && r.showError == p.showError
    decreases n
  {
    if n > 0 {
      TicksBeforeDone(Tick(p, success), n - 1, success);
    }
  }

  /**
   * A submit of a valid form settles after exactly ten ticks: after nine the
   * bar reads 90 and the button is still disabled; the tenth opens exactly
   * one of the two modals (from a page with both closed), re-enables the
   * button and returns the bar to 0.
   */
  lemma TenTicksSettle(p: Page, success: bool)
    requires Consistent(p) && !p.submitting && !p.showSuccess && !p.showError
    requires ValidatePartyForm(p.form) == []
    ensures var started := BeginCreate(p);
      var nine := Ticks(started, 9, success);
      var ten := Ticks(started, 10, success);
      && SubmitDisabled(nine) && nine.progress == 90
      && !SubmitDisabled(ten) && ten.progress == 0
      && ten.showSuccess == success && ten.showError == !success
  {
    var started := BeginCreate(p);
    TicksBeforeDone(started, 9, success);
    var nine := Ticks(started, 9, success);
    assert Ticks(started, 10, success) == Ticks(Tick(started, success), 9, success);
    TicksShift(started, 9, success);
  }

  /** The last tick can be taken last: `n + 1` ticks are `n` ticks and one more. */
  lemma {:induction false} TicksShift(p: Page, n: nat, success: bool)
    ensures Ticks(p, n + 1, success) == Tick(Ticks(p, n, success), success)
    decreases n
  {
    if n > 0 {
      TicksShift(Tick(p, success), n - 1, success);
    }
  }

  /** A freshly mounted page is consistent, with submit enabled, and its empty form cannot start a request. */
  lemma InitialPageIdle()
    ensures Consistent(InitialPage) && !SubmitDisabled(InitialPage)
    ensures BeginCreate(InitialPage) == InitialPage
  {
  }

  function CloseSuccess(p: Page): (r: Page)
    ensures !r.showSuccess && r.showError == p.showError && r.submitting == p.submitting
    ensures r.form == p.form && r.progress == p.progress && r.ticker == p.ticker
  {
    p.(showSuccess := false)
  }

  function CloseError(p: Page): (r: Page)
    ensures !r.showError && r.showSuccess == p.showSuccess && r.submitting == p.submitting
    ensures r.form == p.form && r.progress == p.progress && r.ticker == p.ticker
  {
    p.(showError := false)
  }
}
