/**
 * The OTP verification page: six one-character inputs, the per-slot change
 * handler, and the submit handler that joins the slots, calls the backend
 * and stores what it returns.
 */
module OtpVerification {
  import opened Common
  import opened JsText
  import opened Session

  const OtpLength := 6

  /** The buffer a freshly mounted page starts with: six empty slots. */
  const EmptyOtp: seq<string> := seq(OtpLength, _ => "")

  /**
   * `handleChange(element, index)`: a value whose `Number()` is NaN is
   * ignored; otherwise slot `index` takes the value and every other slot is
   * copied unchanged.
   */
  function HandleChange(otp: seq<string>, value: string, index: int): (r: seq<string>)
    ensures |r| == |otp|
    ensures NumberIsNaN(value) ==> r == otp
    ensures forall i :: 0 <= i < |otp| && i != index ==> r[i] == otp[i]
    ensures !NumberIsNaN(value) && 0 <= index < |otp| ==> r[index] == value
  {
    if NumberIsNaN(value) then otp
    else seq(|otp|, i requires 0 <= i < |otp| => if i == index then value else otp[i])
  }

  /** `otp.join('')`. */
  function Join(slots: seq<string>): string
    decreases |slots|
  {
    if slots == [] then "" else slots[0] + Join(slots[1..])
  }

  lemma {:induction false} JoinAppend(a: seq<string>, b: seq<string>)
    ensures Join(a + b) == Join(a) + Join(b)
    decreases |a|
  {
    if a == [] {
      assert a + b == b;
    } else {
      assert (a + b)[1..] == a[1..] + b;
      JoinAppend(a[1..], b);
    }
  }

  /** Joining one-character slots gives one character per slot, in slot order. */
  lemma {:induction false} JoinSingles(slots: seq<string>)
    requires forall i :: 0 <= i < |slots| ==> |slots[i]| == 1
    ensures |Join(slots)| == |slots|
    ensures forall k :: 0 <= k < |slots| ==> Join(slots)[k] == slots[k][0]
    decreases |slots|
  {
    if slots != [] {
      JoinSingles(slots[1..]);
    }
  }

  /**
   * What a slot can hold when the browser's `maxLength={1}` limits what is
   * typed: at most one character, and one that `Number()` accepts.
   */
  predicate SlotOk(s: string)
  {
    |s| <= 1 && !NumberIsNaN(s)
  }

  predicate BufferOk(otp: seq<string>)
  {
    |otp| == OtpLength && forall i :: 0 <= i < |otp| ==> SlotOk(otp[i])
  }

  lemma EmptyOtpOk()
    ensures BufferOk(EmptyOtp)
  {
    forall i | 0 <= i < |EmptyOtp|
      ensures SlotOk(EmptyOtp[i])
    {
      assert EmptyOtp[i] == "";
      EmptyIsNumber();
    }
  }

  /** Typing keeps the buffer at six slots, each empty or one accepted character. */
  lemma HandleChangeKeepsBuffer(otp: seq<string>, value: string, index: int)
    requires BufferOk(otp) && |value| <= 1
    ensures BufferOk(HandleChange(otp, value, index))
  {
  }

  /** A one-character slot that `Number()` accepts is a digit or JavaScript whitespace. */
  lemma FilledSlot(s: string)
    requires SlotOk(s) && s != ""
    ensures IsDigit(s[0]) || IsJsSpace(s[0])
  {
    assert s == [s[0]];
    SingleCharNumber(s[0]);
  }

  /**
   * The code a filled buffer submits has exactly six characters, slot by
   * slot, each a digit or whitespace: whitespace is not rejected.
   */
  lemma SubmittedCode(otp: seq<string>)
    requires BufferOk(otp) && AllFilled(otp)
    ensures |Join(otp)| == OtpLength
    ensures forall k :: 0 <= k < OtpLength ==> Join(otp)[k] == otp[k][0]
    ensures forall k :: 0 <= k < OtpLength ==> IsDigit(Join(otp)[k]) || IsJsSpace(Join(otp)[k])
  {
    JoinSingles(otp);
    forall k | 0 <= k < OtpLength
      ensures IsDigit(Join(otp)[k]) || IsJsSpace(Join(otp)[k])
    {
      FilledSlot(otp[k]);
    }
  }

  // ---------------------------------------------------------------------------
  // Submit
  // ---------------------------------------------------------------------------

  datatype Page = Page(otp: seq<string>, loading: bool, error: string, navigatedTo: Option<string>)

  const InitialPage := Page(EmptyOtp, false, "", None)

  const VerifyFailedMessage := "OTP verification failed. Please try again."
  const PollingRoute := "/voter-polling"

  datatype VerifyRequest = VerifyRequest(phoneNo: Option<string>, otp: string)
  datatype VerifyResponse = VerifyResponse(voter: Voter, blockchainInfo: BlockchainInfo)

  /** The six inputs carry `required`: the browser submits the form only when none is empty. */
  predicate AllFilled(otp: seq<string>)
  {
    forall i :: 0 <= i < |otp| ==> otp[i] != ""
  }

  /** The submit button is disabled while a verification is in flight. */
  predicate SubmitDisabled(p: Page)
  {
    p.loading
  }

  /** A freshly mounted page holds a valid empty buffer, has submit enabled, and sends nothing until the slots are filled. */
  lemma InitialPageWaits(storage: Storage)
    ensures BufferOk(InitialPage.otp) && !SubmitDisabled(InitialPage)
    ensures BeginVerify(InitialPage, storage).request.None?
  {
    EmptyOtpOk();
    assert InitialPage.otp[0] == "";
  }

  /**
   * `phone_no` of the stored voter record, read as
   * `JSON.parse(localStorage.getItem('voter') || '{}').phone_no`.
   */
  function StoredPhone(storage: Storage): (r: Option<string>)
    ensures r.Some? <==> VoterKey in storage && storage[VoterKey].VoterJson?
    ensures r.Some? ==> r.value == storage[VoterKey].voter.phoneNo
  {
    if VoterKey in storage && storage[VoterKey].VoterJson? then Some(storage[VoterKey].voter.phoneNo) else None
  }

  datatype Begun = Begun(page: Page, request: Option<VerifyRequest>)

  function BeginVerify(p: Page, storage: Storage): (b: Begun)
    ensures b.request.Some? <==> !p.loading && AllFilled(p.otp)
    ensures b.request.Some? ==> b.request.value == VerifyRequest(StoredPhone(storage), Join(p.otp))
    ensures b.request.Some? ==> b.page.loading && b.page.error == "" && b.page.otp == p.otp
    ensures b.request.None? ==> b.page == p
  {
    if p.loading || !AllFilled(p.otp) then Begun(p, None)
    else Begun(p.(loading := true, error := ""), Some(VerifyRequest(StoredPhone(storage), Join(p.otp))))
  }

  datatype Finished = Finished(page: Page, storage: Storage)

  /**
   * The backend answers. On success the returned voter and blockchain info
   * overwrite their storage entries and the page navigates to the ballot;
   * loading is not cleared there. On failure storage is untouched, the
   * error's message (or the default one) is shown and loading ends.
   */
  function FinishVerify(p: Page, storage: Storage, outcome: Result<VerifyResponse, string>): (f: Finished)
    ensures outcome.Ok? ==>
      && f.storage == storage[VoterKey := VoterJson(outcome.value.voter)][BlockchainKey := ChainJson(outcome.value.blockchainInfo)]
      && f.page.navigatedTo == Some(PollingRoute) && f.page.loading == p.loading
    ensures outcome.Err? ==>
      && f.storage == storage && !f.page.loading && f.page.navigatedTo == p.navigatedTo
      && f.page.error == (if outcome.error != "" then outcome.error else VerifyFailedMessage)
    ensures SameOutside(storage, f.storage, {VoterKey, BlockchainKey})
    ensures f.page.otp == p.otp
  {
    match outcome
    case Ok(resp) =>
      Finished(p.(navigatedTo := Some(PollingRoute)),
        storage[VoterKey := VoterJson(resp.voter)][BlockchainKey := ChainJson(resp.blockchainInfo)])
    case Err(m) =>
      Finished(p.(error := if m != "" then m else VerifyFailedMessage, loading := false), storage)
  }

  /**
   * A verification round trip: the stored phone number and the joined code
   * go out, and a successful answer is what a later submit reads back as
   * the voter's phone number.
   */
  lemma VerifyStoresVoter(p: Page, storage: Storage, resp: VerifyResponse)
    requires !p.loading && AllFilled(p.otp)
    ensures var b := BeginVerify(p, storage);
      var f := FinishVerify(b.page, storage, Ok(resp));
      && StoredPhone(f.storage) == Some(resp.voter.phoneNo)
      && f.storage[BlockchainKey] == ChainJson(resp.blockchainInfo)
      && SubmitDisabled(f.page)
  {
  }

  /** A failed verification leaves the page ready for another attempt with the same code. */
  lemma FailureAllowsRetry(p: Page, storage: Storage, message: string)
    requires !p.loading && AllFilled(p.otp)
    ensures var b := BeginVerify(p, storage);
      var f := FinishVerify(b.page, storage, Err(message));
      && f.storage == storage && !SubmitDisabled(f.page) && f.page.error != ""
      && BeginVerify(f.page, f.storage).request == b.request
  {
  }
}
