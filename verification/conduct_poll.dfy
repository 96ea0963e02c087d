/**
 * The conduct-poll page: its schema, the parties offered for the selected
 * state, the party checkbox list, and the load/submit/modal state.
 */
module ConductPoll {
  import opened Common
  import opened JsText
  import opened Forms

  datatype Party = Party(
    id: SafeInt,
    name: string,
    abbreviation: string,
    logo: Option<string>,
    stateId: SafeInt,
    stateName: string)

  datatype State = State(id: SafeInt, name: string)

  datatype PollForm = PollForm(
    name: string,
    description: string,
    startDate: string,
    endDate: string,
    stateId: string,
    partyList: seq<SafeInt>)

  const DefaultPollForm := PollForm("", "", "", "", "", [])

  // ---------------------------------------------------------------------------
  // Schema
  // ---------------------------------------------------------------------------

  /** `/^\d{4}-\d{2}-\d{2}$/`: four digits, '-', two digits, '-', two digits, and nothing else. */
  predicate IsDateText(s: string)
  {
    && |s| == 10
    && AllDigits(s[..4]) && s[4] == '-'
    && AllDigits(s[5..7]) && s[7] == '-'
    && AllDigits(s[8..])
  }

  /** `n` written with exactly `width` digits, zero-padded (the low `width` digits of `n`). */
  function Padded(n: nat, width: nat): (s: string)
    ensures |s| == width && AllDigits(s)
  {
    if width == 0 then "" else Padded(n / 10, width - 1) + [DigitChar(n % 10)]
  }

  function Pow10(k: nat): (p: nat)
    ensures p >= 1
  {
    if k == 0 then 1 else 10 * Pow10(k - 1)
  }

  lemma {:induction false} PaddedValue(n: nat, width: nat)
    requires n < Pow10(width)
    ensures DecimalValue(Padded(n, width)) == n
  {
    if width > 0 {
      var s := Padded(n, width);
      assert s[..|s| - 1] == Padded(n / 10, width - 1);
      PaddedValue(n / 10, width - 1);
    }
  }

  /** A calendar-style date text built from its three numbers. */
  function DateText(year: nat, month: nat, day: nat): string
  {
    Padded(year, 4) + "-" + Padded(month, 2) + "-" + Padded(day, 2)
  }

  /** The three numbers a date text stands for. */
  function DateParts(s: string): (nat, nat, nat)
    requires IsDateText(s)
  {
    (DecimalValue(s[..4]), DecimalValue(s[5..7]), DecimalValue(s[8..]))
  }

  /**
   * Any year below 10000 and any month and day below 100 give an accepted
   * text that reads back as the same numbers. The pattern checks the shape
   * only: month 13 or day 45 pass, and no date is compared with another.
   */
  lemma DateTextRoundTrip(year: nat, month: nat, day: nat)
    requires year < 10000 && month < 100 && day < 100
    ensures IsDateText(DateText(year, month, day))
    ensures DateParts(DateText(year, month, day)) == (year, month, day)
  {
    var s := DateText(year, month, day);
    assert s[..4] == Padded(year, 4);
    assert s[5..7] == Padded(month, 2);
    assert s[8..] == Padded(day, 2);
    assert Pow10(4) == 10000 && Pow10(2) == 100;
    PaddedValue(year, 4);
    PaddedValue(month, 2);
    PaddedValue(day, 2);
  }

  /** Every accepted text is the date text of its own parts: the pattern admits nothing else. */
  lemma DateTextComplete(s: string)
    requires IsDateText(s)
    ensures DateParts(s).0 < 10000 && DateParts(s).1 < 100 && DateParts(s).2 < 100
    ensures DateText(DateParts(s).0, DateParts(s).1, DateParts(s).2) == s
  {
    DigitsRoundTrip(s[..4]);
    DigitsRoundTrip(s[5..7]);
    DigitsRoundTrip(s[8..]);
    assert s == s[..4] + "-" + s[5..7] + "-" + s[8..];
  }

  /** A digit string of width `w` is its value padded to `w`. */
  lemma {:induction false} DigitsRoundTrip(d: string)
    requires AllDigits(d)
    ensures DecimalValue(d) < Pow10(|d|)
    ensures Padded(DecimalValue(d), |d|) == d
  {
    if d != [] {
      var p := d[..|d| - 1];
      DigitsRoundTrip(p);
      var v := DecimalValue(d);
      assert v == 10 * DecimalValue(p) + DigitValue(d[|d| - 1]);
      assert v / 10 == DecimalValue(p) && v % 10 == DigitValue(d[|d| - 1]);
      assert d == p + [d[|d| - 1]];
    }
  }

  /** The issues of the conduct-poll schema, field by field in declaration order. */
  function PollIssues(f: PollForm): seq<Issue>
  {
    MinLength("name", f.name, 2, "Poll name must be at least 2 characters.")
    + MinLength("description", f.description, 2, "Poll description must be at least 2 characters.")
    + Check("start_date", IsDateText(f.startDate), "Start date must be in YYYY-MM-DD format")
    + Check("end_date", IsDateText(f.endDate), "End date must be in YYYY-MM-DD format")
    + Check("party_list", f.partyList != [], "Select at least 1 party")
  }

  /** Which field `PollIssues` flags: each rule speaks only of its own field. */
  lemma PollIssuesFlags(f: PollForm, g: string)
    ensures Flags(PollIssues(f), g) <==>
      || (g == "name" && |f.name| < 2)
      || (g == "description" && |f.description| < 2)
      || (g == "start_date" && !IsDateText(f.startDate))
      || (g == "end_date" && !IsDateText(f.endDate))
      || (g == "party_list" && f.partyList == [])
  {
    var a := MinLength("name", f.name, 2, "Poll name must be at least 2 characters.");
    var b := MinLength("description", f.description, 2, "Poll description must be at least 2 characters.");
    var c := Check("start_date", IsDateText(f.startDate), "Start date must be in YYYY-MM-DD format");
    var d := Check("end_date", IsDateText(f.endDate), "End date must be in YYYY-MM-DD format");
    var e := Check("party_list", f.partyList != [], "Select at least 1 party");
    FlagsOfFive(a, b, c, d, e, g);
    FlagsUniform(a, "name", g);
    FlagsUniform(b, "description", g);
    FlagsUniform(c, "start_date", g);
    FlagsUniform(d, "end_date", g);
    FlagsUniform(e, "party_list", g);
  }

  /** The conduct-poll schema. */
  function ValidatePollForm(f: PollForm): (issues: seq<Issue>)
    ensures Flags(issues, "name") <==> |f.name| < 2
    ensures Flags(issues, "description") <==> |f.description| < 2
    ensures Flags(issues, "start_date") <==> !IsDateText(f.startDate)
    ensures Flags(issues, "end_date") <==> !IsDateText(f.endDate)
    ensures !Flags(issues, "state_id")
    ensures Flags(issues, "party_list") <==> f.partyList == []
    ensures issues == [] <==> PollFormValid(f)
  {
    PollIssuesFlags(f, "name");
    PollIssuesFlags(f, "description");
    PollIssuesFlags(f, "start_date");
    PollIssuesFlags(f, "end_date");
    PollIssuesFlags(f, "state_id");
    PollIssuesFlags(f, "party_list");
    PollIssues(f)
  }

  /** What the schema accepts, stated field by field. */
  predicate PollFormValid(f: PollForm)
  {
    |f.name| >= 2 && |f.description| >= 2 && IsDateText(f.startDate) && IsDateText(f.endDate) && f.partyList != []
  }

  lemma FlagsOfFive(a: seq<Issue>, b: seq<Issue>, c: seq<Issue>, d: seq<Issue>, e: seq<Issue>, field: string)
    ensures Flags(a + b + c + d + e, field)
      <==> Flags(a, field) || Flags(b, field) || Flags(c, field) || Flags(d, field) || Flags(e, field)
  {
    FlagsAppend(a, b, field);
    FlagsAppend(a + b, c, field);
    FlagsAppend(a + b + c, d, field);
    FlagsAppend(a + b + c + d, e, field);
  }

  /** Swapping the two dates never changes the verdict: an end before the start is accepted. */
  lemma DatesNotOrdered(f: PollForm)
    ensures ValidatePollForm(f) == [] <==> ValidatePollForm(f.(startDate := f.endDate, endDate := f.startDate)) == []
  {
  }

  // ---------------------------------------------------------------------------
  // Parties of the selected state
  // ---------------------------------------------------------------------------

  /** The test the filter applies: `party.state_id?.toString() === stateId`. */
  function OfState(stateId: string): Party -> bool
  {
    (p: Party) => IntToDecimal(p.stateId) == stateId
  }

  /** Parties whose state id text equals `stateId`, in their original order. */
  function Matching(parties: seq<Party>, stateId: string): (r: seq<Party>)
    ensures |r| <= |parties|
  {
    Filter(parties, OfState(stateId))
  }

  /** The parties offered as checkboxes: none until a state is chosen (an empty id is falsy). */
  function PartiesOfState(parties: seq<Party>, stateId: string): (r: seq<Party>)
    ensures stateId == "" ==> r == []
    ensures stateId != "" ==> r == Matching(parties, stateId)
    ensures |r| <= |parties|
  {
    if stateId == "" then [] else Matching(parties, stateId)
  }

  lemma MatchingMembers(parties: seq<Party>, stateId: string, p: Party)
    ensures p in Matching(parties, stateId) <==> p in parties && IntToDecimal(p.stateId) == stateId
  {
    FilterMembers(parties, OfState(stateId), p);
  }

  /** Filtering a list cut in two is filtering each part: the original order is kept. */
  lemma MatchingAppend(xs: seq<Party>, ys: seq<Party>, stateId: string)
    ensures Matching(xs + ys, stateId) == Matching(xs, stateId) + Matching(ys, stateId)
  {
    FilterAppend(xs, ys, OfState(stateId));
  }

  /**
   * When the selected value is the text of a state id, the offered parties
   * are exactly the parties of that state: comparing texts compares ids.
   */
  lemma PartiesOfSelectedState(parties: seq<Party>, state: SafeInt, p: Party)
    ensures p in PartiesOfState(parties, IntToDecimal(state)) <==> p in parties && p.stateId == state
  {
    MatchingMembers(parties, IntToDecimal(state), p);
    IntToDecimalInjective(p.stateId, state);
  }

  // ---------------------------------------------------------------------------
  // Party checkboxes
  // ---------------------------------------------------------------------------

  /** `current.filter(v => v !== id)`. */
  function RemoveId(list: seq<SafeInt>, id: SafeInt): (r: seq<SafeInt>)
    ensures forall x :: x in r <==> x in list && x != id
    ensures |r| <= |list|
    decreases |list|
  {
    if list == [] then []
    else (if list[0] == id then [] else [list[0]]) + RemoveId(list[1..], id)
  }

  lemma {:induction false} RemoveIdAppend(xs: seq<SafeInt>, ys: seq<SafeInt>, id: SafeInt)
    ensures RemoveId(xs + ys, id) == RemoveId(xs, id) + RemoveId(ys, id)
    decreases |xs|
  {
    if xs == [] {
      assert xs + ys == ys;
    } else {
      assert (xs + ys)[1..] == xs[1..] + ys;
      RemoveIdAppend(xs[1..], ys, id);
    }
  }

  lemma {:induction false} RemoveAbsentId(list: seq<SafeInt>, id: SafeInt)
    requires id !in list
    ensures RemoveId(list, id) == list
    decreases |list|
  {
    if list != [] {
      RemoveAbsentId(list[1..], id);
      assert list == [list[0]] + list[1..];
    }
  }

  /** `onCheckedChange(checked)` for the checkbox of party `id`. */
  function CheckedChange(list: seq<SafeInt>, id: SafeInt, checked: bool): (r: seq<SafeInt>)
    ensures checked ==> r == list + [id]
    ensures !checked ==> id !in r && forall x :: x != id ==> (x in r <==> x in list)
  {
    if checked then list + [id] else RemoveId(list, id)
  }

  /** Checking a party that was not listed and then unchecking it gives the list back. */
  lemma CheckThenUncheck(list: seq<SafeInt>, id: SafeInt)
    requires id !in list
    ensures CheckedChange(CheckedChange(list, id, true), id, false) == list
  {
    RemoveIdAppend(list, [id], id);
    RemoveAbsentId(list, id);
    assert RemoveId([id], id) == [];
  }

  /** Unchecking keeps every other id in its place: it commutes with cutting the list. */
  lemma UncheckKeepsOrder(xs: seq<SafeInt>, ys: seq<SafeInt>, id: SafeInt)
    ensures CheckedChange(xs + ys, id, false) == CheckedChange(xs, id, false) + CheckedChange(ys, id, false)
  {
    RemoveIdAppend(xs, ys, id);
  }

  predicate NoDuplicates(list: seq<SafeInt>)
  {
    forall i, j :: 0 <= i < j < |list| ==> list[i] != list[j]
  }

  /** A click on a checkbox: it shows checked when the id is listed, and a click flips that. */
  function ClickParty(list: seq<SafeInt>, id: SafeInt): seq<SafeInt>
  {
    CheckedChange(list, id, id !in list)
  }

  lemma {:induction false} RemoveIdKeepsNoDuplicates(list: seq<SafeInt>, id: SafeInt)
    requires NoDuplicates(list)
    ensures NoDuplicates(RemoveId(list, id))
    decreases |list|
  {
    if list != [] {
      assert NoDuplicates(list[1..]) by {
        forall i, j | 0 <= i < j < |list[1..]| ensures list[1..][i] != list[1..][j] {
          assert list[1..][i] == list[i + 1] && list[1..][j] == list[j + 1];
        }
      }
      RemoveIdKeepsNoDuplicates(list[1..], id);
      assert list[0] !in list[1..] by {
        forall k | 0 <= k < |list[1..]| ensures list[1..][k] != list[0] {
          assert list[1..][k] == list[k + 1];
        }
      }
    }
  }

  /** Clicking through the checkboxes never lists a party twice. */
  lemma ClickKeepsNoDuplicates(list: seq<SafeInt>, id: SafeInt)
    ensures NoDuplicates(list) ==> NoDuplicates(ClickParty(list, id))
  {
    if id in list && NoDuplicates(list) {
      RemoveIdKeepsNoDuplicates(list, id);
    }
  }

  // ---------------------------------------------------------------------------
  // Page state
  // ---------------------------------------------------------------------------

  datatype Page = Page(
    parties: seq<Party>,
    states: seq<State>,
    form: PollForm,
    issues: seq<Issue>,
    loading: bool,
    showSuccess: bool,
    showError: bool,
    errorMessage: string)

  const InitialPage := Page([], [], DefaultPollForm, [], false, false, false, "")

  const FetchFailedMessage := "Failed to fetch data. Please try again."
  const ConductFailedMessage := "Failed to conduct poll"

  /** The parties the page lists, recomputed whenever the state or the party list changes. */
  function FilteredParties(p: Page): seq<Party>
  {
    PartiesOfState(p.parties, p.form.stateId)
  }

  /** The submit button is disabled while loading. */
  predicate SubmitDisabled(p: Page)
  {
    p.loading
  }

  /** The mount-time fetch begins. */
  function StartLoad(p: Page): (r: Page)
    ensures r.loading && SubmitDisabled(r)
    ensures r.form == p.form && r.parties == p.parties && r.states == p.states
  {
    p.(loading := true)
  }

  /**
   * The fetch of parties and states settles: a response without a list
   * counts as an empty list; a failure keeps the lists and shows the fetch
   * error. Loading ends either way.
   */
  function FinishLoad(p: Page, outcome: Result<(Option<seq<Party>>, Option<seq<State>>), string>): (r: Page)
    ensures !r.loading
    ensures outcome.Ok? ==> r.parties == (match outcome.value.0 case Some(ps) => ps case None => [])
    ensures outcome.Ok? ==> r.states == (match outcome.value.1 case Some(ss) => ss case None => [])
    ensures outcome.Err? ==> r.parties == p.parties && r.showError && r.errorMessage == FetchFailedMessage
    ensures outcome.Err? ==> r.states == p.states
    ensures r.form == p.form
  {
    match outcome
    case Ok((ps, ss)) =>
      p.(parties := (match ps case Some(x) => x case None => []),
         states := (match ss case Some(x) => x case None => []),
         loading := false)
    case Err(_) => p.(errorMessage := FetchFailedMessage, showError := true, loading := false)
  }

  /**
   * The mount load round trip: submit is disabled while the lists load and
   * enabled again whatever the outcome, the form is kept, and a response's
   * parties are what the checkbox list filters for the chosen state.
   */
  lemma LoadRoundTrip(p: Page, outcome: Result<(Option<seq<Party>>, Option<seq<State>>), string>)
    ensures SubmitDisabled(StartLoad(p))
    ensures var r := FinishLoad(StartLoad(p), outcome);
      && !SubmitDisabled(r) && r.form == p.form
      && (outcome.Ok? && outcome.value.0.Some? ==> FilteredParties(r) == PartiesOfState(outcome.value.0.value, p.form.stateId))
      && (outcome.Err? ==> FilteredParties(r) == FilteredParties(p) && r.states == p.states)
  {
  }

  /** The text of the error modal after a failed submit: the backend's message when it has one. */
  function ConductErrorText(message: Option<string>): (t: string)
    ensures t != ""
    ensures message.Some? && message.value != "" ==> t == message.value
    ensures message.None? || message.value == "" ==> t == ConductFailedMessage
  {
    match message
    case Some(m) => if m != "" then m else ConductFailedMessage
    case None => ConductFailedMessage
  }

  datatype Begun = Begun(page: Page, request: Option<PollForm>)

  /**
   * Pressing submit: nothing while loading; the schema's issues when the
   * form is invalid; otherwise loading starts and the form goes to the backend.
   */
  function BeginConduct(p: Page): (b: Begun)
    ensures b.request.Some? <==> !p.loading && PollFormValid(p.form)
    ensures b.request.Some? ==> b.request.value == p.form && b.page.loading
    ensures b.page.form == p.form
    ensures !p.loading && !PollFormValid(p.form) ==> b.page.issues == ValidatePollForm(p.form) && b.page.issues != [] && !b.page.loading
  {
    if p.loading then Begun(p, None)
    else
      var issues := ValidatePollForm(p.form);
      if issues != [] then Begun(p.(issues := issues), None)
      else Begun(p.(issues := [], loading := true), Some(p.form))
  }

  /**
   * The backend answers. Success opens the success modal and resets the
   * form to its defaults; failure shows the backend's message (or the
   * default one) and keeps the form. Loading ends either way.
   */
  function FinishConduct(p: Page, outcome: Result<(), Option<string>>): (r: Page)
    ensures !r.loading
    ensures outcome.Ok? ==> r.showSuccess && r.form == DefaultPollForm && FilteredParties(r) == []
    ensures outcome.Err? ==> r.showError && r.form == p.form && r.errorMessage == ConductErrorText(outcome.error)
    ensures r.parties == p.parties
  {
    match outcome
    case Ok(_) => p.(showSuccess := true, form := DefaultPollForm, loading := false)
    case Err(m) => p.(errorMessage := ConductErrorText(m), showError := true, loading := false)
  }

  /** Closing the success modal resets the form once more. */
  function CloseSuccess(p: Page): (r: Page)
    ensures !r.showSuccess && r.form == DefaultPollForm && r.showError == p.showError
  {
    p.(showSuccess := false, form := DefaultPollForm)
  }

  function CloseError(p: Page): (r: Page)
    ensures !r.showError && r.form == p.form && r.showSuccess == p.showSuccess
  {
    p.(showError := false)
  }

  /** Choosing a state in the select. */
  function SelectState(p: Page, stateId: string): (r: Page)
    ensures r.form.stateId == stateId && r.form.partyList == p.form.partyList
  {
    p.(form := p.form.(stateId := stateId))
  }

  /** Clicking the checkbox of party `id`. */
  function TogglePartyBox(p: Page, id: SafeInt): (r: Page)
    ensures (id in r.form.partyList) <==> (id !in p.form.partyList)
    ensures NoDuplicates(p.form.partyList) ==> NoDuplicates(r.form.partyList)
  {
    ClickKeepsNoDuplicates(p.form.partyList, id);
    p.(form := p.form.(partyList := ClickParty(p.form.partyList, id)))
  }

  /** A freshly mounted page offers no parties, has submit enabled, and its default form is refused. */
  lemma InitialPageRefusesDefaults()
    ensures !SubmitDisabled(InitialPage) && FilteredParties(InitialPage) == []
    ensures !PollFormValid(DefaultPollForm)
    ensures BeginConduct(InitialPage).request.None?
  {
  }

  /** A submit round trip: a valid form goes out once, and afterwards loading is off whatever the answer. */
  lemma SubmitRoundTrip(p: Page, outcome: Result<(), Option<string>>)
    requires !p.loading && PollFormValid(p.form)
    ensures var b := BeginConduct(p);
      b.request == Some(p.form) && SubmitDisabled(b.page)
      && !SubmitDisabled(FinishConduct(b.page, outcome))
  {
  }
}
