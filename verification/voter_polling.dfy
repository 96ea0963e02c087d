/**
 * The ballot page: a fixed list of four parties, a single selection, and a
 * simulated submission that after a delay opens either the success or the
 * error modal. The random outcome is an explicit choice.
 */
module VoterPolling {

  /** The ids of the four party cards, in display order. */
  const PartyIds: seq<string> := ["party1", "party2", "party3", "party4"]

  /**
   * `pending` counts the submissions whose timer has not fired yet; the
   * button is not disabled while one is pending, so several can queue.
   */
  datatype Page = Page(selected: string, showSuccess: bool, showError: bool, pending: nat)

  const InitialPage := Page("", false, false, 0)

  /** The selection is empty or one of the four card ids. */
  predicate SelectionOk(p: Page)
  {
    p.selected == "" || p.selected in PartyIds
  }

  /** The submit button is disabled exactly when nothing is selected. */
  predicate SubmitDisabled(p: Page)
  {
    p.selected == ""
  }

  /** A freshly mounted page has no selection, so submit is disabled and pressing it does nothing. */
  lemma InitialPageIdle()
    ensures SelectionOk(InitialPage) && SubmitDisabled(InitialPage)
    ensures Submit(InitialPage) == InitialPage
  {
  }

  /** Clicking card `card` (or its radio item) selects that party; there is no other card. */
  function SelectCard(p: Page, card: nat): (r: Page)
    ensures card < |PartyIds| ==> r.selected == PartyIds[card] && !SubmitDisabled(r)
    ensures card >= |PartyIds| ==> r == p
    ensures SelectionOk(p) ==> SelectionOk(r)
    ensures r.showSuccess == p.showSuccess && r.showError == p.showError && r.pending == p.pending
  {
    if card < |PartyIds| then p.(selected := PartyIds[card]) else p
  }

  /** `handleSubmit`: with a selection, a timer is started; without one, nothing happens. */
  function Submit(p: Page): (r: Page)
    ensures p.selected == "" ==> r == p
    ensures p.selected != "" ==> r.pending == p.pending + 1
    ensures r.selected == p.selected && r.showSuccess == p.showSuccess && r.showError == p.showError
  {
    if p.selected != "" then p.(pending := p.pending + 1) else p
  }

  /** A pending timer fires; `success` stands for the outcome of `Math.random() < 0.8`. */
  function Fire(p: Page, success: bool): (r: Page)
    ensures p.pending == 0 ==> r == p
    ensures p.pending > 0 ==> r.pending == p.pending - 1
    ensures p.pending > 0 ==> (success ==> r.showSuccess && r.showError == p.showError)
    ensures p.pending > 0 ==> (!success ==> r.showError && r.showSuccess == p.showSuccess)
    ensures r.selected == p.selected
  {
    if p.pending == 0 then p
    else if success then p.(pending := p.pending - 1, showSuccess := true)
    else p.(pending := p.pending - 1, showError := true)
  }

  function CloseSuccess(p: Page): (r: Page)
    ensures !r.showSuccess && r.showError == p.showError && r.selected == p.selected && r.pending == p.pending
  {
    p.(showSuccess := false)
  }

  function CloseError(p: Page): (r: Page)
    ensures !r.showError && r.showSuccess == p.showSuccess && r.selected == p.selected && r.pending == p.pending
  {
    p.(showError := false)
  }

  /**
   * From a page with both modals closed and nothing pending, a submit with a
   * selection followed by its timer opens exactly one modal, whichever the
   * outcome; without a selection the timer never exists and nothing opens.
   */
  lemma ExactlyOneModal(p: Page, success: bool)
    requires !p.showSuccess && !p.showError && p.pending == 0
    ensures var r := Fire(Submit(p), success);
      (p.selected != "" ==> (r.showSuccess != r.showError) && r.showSuccess == success)
      && (p.selected == "" ==> !r.showSuccess && !r.showError)
  {
  }

  datatype Event = Click(card: nat) | SubmitPressed | TimerFired(success: bool) | CloseSuccessModal | CloseErrorModal

  function Step(p: Page, e: Event): Page
  {
    match e
    case Click(c) => SelectCard(p, c)
    case SubmitPressed => Submit(p)
    case TimerFired(ok) => Fire(p, ok)
    case CloseSuccessModal => CloseSuccess(p)
    case CloseErrorModal => CloseError(p)
  }

  function Run(p: Page, events: seq<Event>): Page
    decreases |events|
  {
    if events == [] then p else Run(Step(p, events[0]), events[1..])
  }

  /** Whatever the user does, the selection stays empty or one of the four ids. */
  lemma {:induction false} RunKeepsSelection(p: Page, events: seq<Event>)
    requires SelectionOk(p)
    ensures SelectionOk(Run(p, events))
    decreases |events|
  {
    if events != [] {
      RunKeepsSelection(Step(p, events[0]), events[1..]);
    }
  }

  /**
   * A modal opens only after a timer fires, and a timer exists only after a
   * submit with a selection: without submits, no modal ever opens.
   */
  lemma {:induction false} NoModalWithoutSubmit(p: Page, events: seq<Event>)
    requires !p.showSuccess && !p.showError && p.pending == 0
    requires forall i :: 0 <= i < |events| ==> !events[i].SubmitPressed?
    ensures var r := Run(p, events); !r.showSuccess && !r.showError && r.pending == 0
    decreases |events|
  {
    if events != [] {
      NoModalWithoutSubmit(Step(p, events[0]), events[1..]);
    }
  }
}
