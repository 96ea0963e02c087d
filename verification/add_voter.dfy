/**
 * The add-voter page: the Aadhaar number formatter applied on every
 * keystroke, the digit-only phone field, the form schema, the multipart
 * payload, and the submit/progress state of `onSubmit`.
 */
module AddVoter {
  import opened Common
  import opened JsText
  import opened Forms

  // ---------------------------------------------------------------------------
  // Aadhaar number formatting
  // ---------------------------------------------------------------------------

  const AadhaarDigits := 12

  /** The characters of `s` that are ASCII digits, in order: `s.replace(/\D/g, '')`. */
  function DigitsOf(s: string): (d: string)
    ensures AllDigits(d) && |d| <= |s|
  {
    if s == [] then [] else (if IsDigit(s[0]) then [s[0]] else []) + DigitsOf(s[1..])
  }

  lemma {:induction false} DigitsOfAppend(a: string, b: string)
    ensures DigitsOf(a + b) == DigitsOf(a) + DigitsOf(b)
  {
    if a == [] {
      assert a + b == b;
    } else {
      assert (a + b)[1..] == a[1..] + b;
      DigitsOfAppend(a[1..], b);
    }
  }

  lemma {:induction false} DigitsOfDigits(d: string)
    requires AllDigits(d)
    ensures DigitsOf(d) == d
  {
    if d != [] {
      DigitsOfDigits(d[1..]);
    }
  }

  /**
   * Up to twelve digits laid out as the input shows them: a space before the
   * fifth and before the ninth digit, when those digits exist.
   */
  function Group(ds: string): string
    requires |ds| <= AadhaarDigits
  {
    if |ds| <= 4 then ds
    else if |ds| <= 8 then ds[..4] + " " + ds[4..]
    else ds[..4] + " " + ds[4..8] + " " + ds[8..]
  }

  /** What `formatAadhaarNumber(value)` returns: the first twelve digits, grouped. */
  function FormatAadhaar(value: string): string
  {
    var d := DigitsOf(value);
    Group(d[..Min(AadhaarDigits, |d|)])
  }

  /** The separator the loop writes before digit number `i` (counting from 0). */
  function SeparatorBefore(i: nat): string
  {
    if i > 0 && i % 4 == 0 then " " else ""
  }

  /** Appending one digit to the grouped text is what one loop iteration does. */
  lemma GroupSnoc(p: string, c: char)
    requires |p| < AadhaarDigits
    ensures Group(p + [c]) == Group(p) + SeparatorBefore(|p|) + [c]
  {
    var q := p + [c];
    if |p| < 4 {
    } else if |p| == 4 {
      assert q[..4] == p && q[4..] == [c];
    } else if |p| < 8 {
      assert q[..4] == p[..4] && q[4..] == p[4..] + [c];
    } else if |p| == 8 {
      assert q[..4] == p[..4] && q[4..8] == p[4..] && q[8..] == [c];
    } else {
      assert q[..4] == p[..4] && q[4..8] == p[4..8] && q[8..] == p[8..] + [c];
    }
  }

  /** Iteration `i` of the loop, stated for each of its two branches. */
  lemma GroupStep(digits: string, i: nat)
    requires i < |digits| && i < AadhaarDigits
    ensures i > 0 && i % 4 == 0 ==> Group(digits[..i + 1]) == Group(digits[..i]) + " " + [digits[i]]
    ensures !(i > 0 && i % 4 == 0) ==> Group(digits[..i + 1]) == Group(digits[..i]) + [digits[i]]
  {
    var p := digits[..i];
    assert digits[..i + 1] == p + [digits[i]];
    GroupSnoc(p, digits[i]);
    if !(i > 0 && i % 4 == 0) {
      assert Group(p) + SeparatorBefore(i) == Group(p);
    }
  }

  /** The formatter as the source writes it: strip non-digits, then a loop over at most twelve digits. */
  method FormatAadhaarNumber(value: string) returns (formatted: string)
    ensures formatted == FormatAadhaar(value)
  {
    var digits := DigitsOf(value);
    formatted := "";
    var i := 0;
    while i < |digits| && i < AadhaarDigits
      invariant 0 <= i <= |digits| && i <= AadhaarDigits
      invariant formatted == Group(digits[..i])
    {
      GroupStep(digits, i);
      if i > 0 && i % 4 == 0 {
        formatted := formatted + " ";
      }
      formatted := formatted + [digits[i]];
      i := i + 1;
    }
    assert i == Min(AadhaarDigits, |digits|);
  }

  /** The layout of grouped digits: digits everywhere except single spaces at positions 4 and 9. */
  lemma GroupShape(ds: string)
    requires |ds| <= AadhaarDigits && AllDigits(ds)
    ensures var r := Group(ds);
      && |r| == |ds| + (if |ds| > 4 then 1 else 0) + (if |ds| > 8 then 1 else 0)
      && (forall k :: 0 <= k < |r| ==> (r[k] == ' ' <==> k == 4 || k == 9))
      && (forall k :: 0 <= k < |r| && k != 4 && k != 9 ==> IsDigit(r[k]))
  {
  }

  /** Removing non-digits drops a space between two runs of digits. */
  lemma DigitsAcrossSpace(a: string, b: string)
    requires AllDigits(a) && AllDigits(b)
    ensures DigitsOf(a + " " + b) == a + b
  {
    DigitsOfDigits(a);
    DigitsOfDigits(b);
    DigitsOfAppend(a, " ");
    assert DigitsOf(" ") == "";
    assert DigitsOf(a + " ") == a;
    DigitsOfAppend(a + " ", b);
  }

  lemma GroupDigits(ds: string)
    requires |ds| <= AadhaarDigits && AllDigits(ds)
    ensures DigitsOf(Group(ds)) == ds
  {
    if |ds| <= 4 {
      DigitsOfDigits(ds);
    } else if |ds| <= 8 {
      DigitsAcrossSpace(ds[..4], ds[4..]);
      assert ds[..4] + ds[4..] == ds;
    } else {
      var a, b, c := ds[..4], ds[4..8], ds[8..];
      DigitsAcrossSpace(b, c);
      assert a + " " + b + " " + c == a + " " + (b + " " + c);
      DigitsOfAppend(a + " ", b + " " + c);
      DigitsOfAppend(a, " ");
      DigitsOfDigits(a);
      assert DigitsOf(" ") == "";
      assert DigitsOf(a + " ") == a;
      assert a + (b + c) == ds;
    }
  }

  /**
   * The formatted value holds only digits and spaces, is at most 14
   * characters (the input's `maxLength`), has a space exactly at positions 4
   * and 9 when it is long enough to reach them, and never starts or ends
   * with a space.
   */
  lemma FormatAadhaarShape(value: string)
    ensures var r := FormatAadhaar(value);
      && |r| <= 14
      && (forall k :: 0 <= k < |r| ==> IsDigit(r[k]) || r[k] == ' ')
      && (forall k :: 0 <= k < |r| ==> (r[k] == ' ' <==> k == 4 || k == 9))
      && (|r| > 0 ==> r[0] != ' ' && r[|r| - 1] != ' ')
  {
    var d := DigitsOf(value);
    var ds := d[..Min(AadhaarDigits, |d|)];
    GroupShape(ds);
  }

  /** The digits of the formatted value are the first twelve digits of the input, in order. */
  lemma FormatAadhaarDigits(value: string)
    ensures DigitsOf(FormatAadhaar(value)) == DigitsOf(value)[..Min(AadhaarDigits, |DigitsOf(value)|)]
  {
    var d := DigitsOf(value);
    GroupDigits(d[..Min(AadhaarDigits, |d|)]);
  }

  /** Re-formatting a formatted value changes nothing, so formatting on every keystroke is stable. */
  lemma FormatAadhaarIdempotent(value: string)
    ensures FormatAadhaar(FormatAadhaar(value)) == FormatAadhaar(value)
  {
    var d := DigitsOf(value);
    var ds := d[..Min(AadhaarDigits, |d|)];
    FormatAadhaarDigits(value);
    assert DigitsOf(FormatAadhaar(value)) == ds;
    assert ds[..Min(AadhaarDigits, |ds|)] == ds;
  }

  // ---------------------------------------------------------------------------
  // Phone number field
  // ---------------------------------------------------------------------------

  const PhoneMaxLength := 10

  /** `/[0-9]/.test(e.key)`: the key's name contains a digit somewhere. */
  predicate PhoneKeyAllowed(key: string)
  {
    exists i :: 0 <= i < |key| && IsDigit(key[i])
  }

  /**
   * One key press in the phone field, typed at the end of the value. A key
   * without a digit is cancelled by `preventDefault`; a key whose name is
   * longer than one character inserts no text; `maxLength` stops insertion at
   * ten characters.
   */
  function PhoneKeyPress(value: string, key: string): (r: string)
    ensures r == value || (r == value + key && |key| == 1 && IsDigit(key[0]) && |value| < PhoneMaxLength)
    ensures |value| <= PhoneMaxLength ==> |r| <= PhoneMaxLength
    ensures AllDigits(value) ==> AllDigits(r)
  {
    if !PhoneKeyAllowed(key) then value
    else if |key| != 1 then value
    else if |value| >= PhoneMaxLength then value
    else value + key
  }

  /** For a printable key, the filter accepts exactly the digits 0-9. */
  lemma PhoneKeyAllowedChar(c: char)
    ensures PhoneKeyAllowed([c]) <==> IsDigit(c)
  {
    if IsDigit(c) {
      assert [c][0] == c;
    }
  }

  /** The field after a sequence of key presses. */
  function TypePhone(value: string, keys: seq<string>): string
    decreases |keys|
  {
    if keys == [] then value else TypePhone(PhoneKeyPress(value, keys[0]), keys[1..])
  }

  /** The text a key inserts when it is a single digit, and nothing otherwise. */
  function KeyDigit(key: string): (d: string)
    ensures AllDigits(d) && |d| <= 1
  {
    if |key| == 1 && IsDigit(key[0]) then key else ""
  }

  /** The single-digit keys of `keys`, concatenated in order. */
  function DigitKeys(keys: seq<string>): (d: string)
    ensures AllDigits(d)
    decreases |keys|
  {
    if keys == [] then "" else KeyDigit(keys[0]) + DigitKeys(keys[1..])
  }

  /** One key press, seen through the cut at ten characters. */
  lemma PressThenCut(value: string, key: string, tail: string)
    requires AllDigits(value) && |value| <= PhoneMaxLength
    ensures var v' := PhoneKeyPress(value, key);
      var d := KeyDigit(key);
      (v' + tail)[..Min(PhoneMaxLength, |v'| + |tail|)]
        == (value + (d + tail))[..Min(PhoneMaxLength, |value| + |d + tail|)]
  {
    var v' := PhoneKeyPress(value, key);
    var d := KeyDigit(key);
    assert value + (d + tail) == value + d + tail;
    if d == "" {
      if |key| == 1 {
        PhoneKeyAllowedChar(key[0]);
        assert key == [key[0]];
      }
      assert v' == value;
      assert value + d + tail == value + tail;
    } else {
      PhoneKeyAllowedChar(key[0]);
      assert key == [key[0]];
      if |value| < PhoneMaxLength {
        assert v' == value + d;
      } else {
        assert v' == value;
        assert (value + tail)[..PhoneMaxLength] == value;
        assert (value + d + tail)[..PhoneMaxLength] == value;
      }
    }
  }

  /**
   * Typing any keys into a digits-only value of at most ten characters gives
   * the value followed by the digit keys typed, cut at ten characters.
   */
  lemma {:induction false} TypePhoneDigits(value: string, keys: seq<string>)
    requires AllDigits(value) && |value| <= PhoneMaxLength
    ensures TypePhone(value, keys)
      == (value + DigitKeys(keys))[..Min(PhoneMaxLength, |value| + |DigitKeys(keys)|)]
    decreases |keys|
  {
    if keys == [] {
      assert value + "" == value;
    } else {
      var v' := PhoneKeyPress(value, keys[0]);
      var d := KeyDigit(keys[0]);
      var tail := DigitKeys(keys[1..]);
      calc {
        TypePhone(value, keys);
        TypePhone(v', keys[1..]);
        { TypePhoneDigits(v', keys[1..]); }
        (v' + tail)[..Min(PhoneMaxLength, |v'| + |tail|)];
        { PressThenCut(value, keys[0], tail); }
        (value + (d + tail))[..Min(PhoneMaxLength, |value| + |d + tail|)];
        (value + DigitKeys(keys))[..Min(PhoneMaxLength, |value| + |DigitKeys(keys)|)];
      }
    }
  }

  // ---------------------------------------------------------------------------
  // Schema and payload
  // ---------------------------------------------------------------------------

  datatype VoterForm = VoterForm(voterName: string, aadhaarNumber: string, phoneNumber: string, state: string)

  const DefaultVoterForm := VoterForm("", "", "", "")

  /**
   * The add-voter schema. The state field is a bare `z.string()`: its
   * required message is only for a missing value, and the form always holds
   * a string (initially ''), so it never fails.
   */
  function ValidateVoterForm(f: VoterForm): (issues: seq<Issue>)
    ensures Flags(issues, "voterName") <==> |f.voterName| < 2
    ensures Flags(issues, "aadhaarNumber") <==> |f.aadhaarNumber| < 1
    ensures Flags(issues, "phoneNumber") <==> |f.phoneNumber| < 1
    ensures !Flags(issues, "state")
    ensures issues == [] <==> |f.voterName| >= 2 && |f.aadhaarNumber| >= 1 && |f.phoneNumber| >= 1
  {
    var a := MinLength("voterName", f.voterName, 2, "Voter name must be at least 2 characters.");
    var b := MinLength("aadhaarNumber", f.aadhaarNumber, 1, "aadhaarNumber is required.");
    var c := MinLength("phoneNumber", f.phoneNumber, 1, "phoneNumber is required.");
    FlagsAppend(a, b, "voterName");
    FlagsAppend(a + b, c, "voterName");
    FlagsAppend(a, b, "aadhaarNumber");
    FlagsAppend(a + b, c, "aadhaarNumber");
    FlagsAppend(a, b, "phoneNumber");
    FlagsAppend(a + b, c, "phoneNumber");
    FlagsAppend(a, b, "state");
    FlagsAppend(a + b, c, "state");
    a + b + c
  }

  /** A `FormData` body: field names and values in append order. */
  type FormData = seq<(string, string)>

  /** `FormData.get`: the first value appended under `key`. */
  function FormDataGet(fd: FormData, key: string): (r: Option<string>)
    ensures r.None? <==> forall i :: 0 <= i < |fd| ==> fd[i].0 != key
  {
    if fd == [] then None else if fd[0].0 == key then Some(fd[0].1) else FormDataGet(fd[1..], key)
  }

  const PayloadKeys: set<string> := {"name", "aadhar", "phone_no", "state_id"}

  /** The body `onSubmit` builds for the backend's add-voter call. */
  function VoterPayload(f: VoterForm): (fd: FormData)
    ensures forall i :: 0 <= i < |fd| ==> fd[i].0 in PayloadKeys
    ensures forall i, j :: 0 <= i < j < |fd| ==> fd[i].0 != fd[j].0
  {
    [("name", f.voterName), ("aadhar", f.aadhaarNumber), ("phone_no", f.phoneNumber), ("state_id", f.state)]
  }

  /** The form a backend reading the four fields would reconstruct. */
  function VoterFormOf(fd: FormData): Option<VoterForm>
  {
    match (FormDataGet(fd, "name"), FormDataGet(fd, "aadhar"), FormDataGet(fd, "phone_no"), FormDataGet(fd, "state_id"))
    case (Some(n), Some(a), Some(p), Some(s)) => Some(VoterForm(n, a, p, s))
    case _ => None
  }

  /** Every form field reaches the body under its backend name, and nothing else does. */
  lemma VoterPayloadRoundTrip(f: VoterForm)
    ensures VoterFormOf(VoterPayload(f)) == Some(f)
  {
    var fd := VoterPayload(f);
    assert FormDataGet(fd, "name") == Some(f.voterName);
    assert FormDataGet(fd[1..], "aadhar") == Some(f.aadhaarNumber);
    assert FormDataGet(fd[2..], "phone_no") == Some(f.phoneNumber);
    assert FormDataGet(fd[3..], "state_id") == Some(f.state);
    assert FormDataGet(fd[2..], "state_id") == Some(f.state);
    assert FormDataGet(fd[1..], "phone_no") == Some(f.phoneNumber);
    assert FormDataGet(fd[1..], "state_id") == Some(f.state);
  }

  // ---------------------------------------------------------------------------
  // Submission and progress
  // ---------------------------------------------------------------------------

  /** Progress shown while the request is pending never passes this value. */
  const ProgressCap := 90
  const ProgressStep := 10

  /**
   * Page state around `onSubmit`. `current` is the counter of the interval
   * started by the pending request; `leaked` holds the counters of intervals
   * that were never cleared and still fire.
   */
  datatype SubmitState = SubmitState(
    submitting: bool,
    progress: nat,
    current: Option<nat>,
    leaked: seq<nat>,
    showSuccess: bool,
    showError: bool)

  const Initial := SubmitState(false, 0, None, [], false, false)

  /** A request is in flight exactly when `submitting` is set. */
  predicate Consistent(s: SubmitState)
  {
    s.submitting <==> s.current.Some?
  }

  datatype Begun = Begun(state: SubmitState, request: Option<FormData>)

  /**
   * Pressing submit. The button is disabled while submitting; the schema
   * blocks an invalid form; otherwise the request for `f` starts with a new
   * interval at 0.
   */
  function BeginSubmit(s: SubmitState, f: VoterForm): (b: Begun)
    ensures b.request.Some? <==> !s.submitting && ValidateVoterForm(f) == []
    ensures b.request.Some? ==> b.request.value == VoterPayload(f) && b.state.submitting
    ensures b.request.None? ==> b.state == s
    ensures Consistent(s) ==> Consistent(b.state)
    ensures b.state.progress == s.progress
  {
    if s.submitting || ValidateVoterForm(f) != [] then Begun(s, None)
    else Begun(s.(submitting := true, current := Some(0)), Some(VoterPayload(f)))
  }

  /** The pending request's interval fires: its counter grows by 10 and the bar shows it, capped at 90. */
  function TickRequest(s: SubmitState): (r: SubmitState)
    ensures r.progress <= ProgressCap || r == s
    ensures r.submitting == s.submitting && r.current.Some? == s.current.Some?
    ensures s.current.Some? ==> r.progress == Min(s.current.value + ProgressStep, ProgressCap)
    ensures s.current.Some? ==> r.current == Some(s.current.value + ProgressStep)
    ensures s.current.None? ==> r == s
    ensures r.leaked == s.leaked && r.showSuccess == s.showSuccess && r.showError == s.showError
  {
    match s.current
    case None => s
    case Some(pv) => s.(current := Some(pv + ProgressStep), progress := Min(pv + ProgressStep, ProgressCap))
  }

  /** A leaked interval fires: it writes its own capped counter into the bar. */
  function TickLeaked(s: SubmitState, i: nat): (r: SubmitState)
    ensures r.progress <= ProgressCap || r == s
    ensures r.submitting == s.submitting && r.current == s.current
    ensures i < |s.leaked| ==> r.progress == Min(s.leaked[i] + ProgressStep, ProgressCap)
    ensures i < |s.leaked| ==> r.leaked == s.leaked[i := s.leaked[i] + ProgressStep]
    ensures i >= |s.leaked| ==> r == s
    ensures r.showSuccess == s.showSuccess && r.showError == s.showError
  {
    if i < |s.leaked| then
      s.(leaked := s.leaked[i := s.leaked[i] + ProgressStep], progress := Min(s.leaked[i] + ProgressStep, ProgressCap))
    else s
  }

  /**
   * The request settles, as written: on success the bar is set to 100 and
   * the interval cleared; on failure the interval is not cleared. Either way
   * `finally` clears `submitting` and sets the bar to 0. (The 100 and the 0
   * are written in one batch; the model keeps the final value.)
   */
  function SettleAsWritten(s: SubmitState, ok: bool): (r: SubmitState)
    ensures s.current.None? ==> r == s
    ensures s.current.Some? ==> !r.submitting && r.progress == 0 && r.current.None?
    ensures s.current.Some? ==> r.showSuccess == (ok || s.showSuccess) && r.showError == (!ok || s.showError)
    ensures s.current.Some? ==> r.leaked == if ok then s.leaked else s.leaked + [s.current.value]
  {
    match s.current
    case None => s
    case Some(pv) =>
      if ok then s.(submitting := false, current := None, progress := 0, showSuccess := true)
      else s.(submitting := false, current := None, leaked := s.leaked + [pv], progress := 0, showError := true)
  }

  /**
   * After a failed request the page is idle with an empty bar, yet the
   * uncleared interval fires again and the bar is non-zero while nothing is
   * submitting: the reset to 0 does not last.
   */
  lemma FailedSubmitKeepsTicking(f: VoterForm)
    requires ValidateVoterForm(f) == []
    ensures var failed := SettleAsWritten(BeginSubmit(Initial, f).state, false);
      var later := TickLeaked(failed, 0);
      !failed.submitting && failed.progress == 0 && !later.submitting && later.progress == 10
  {
  }

  /** The request settles with the interval cleared on both paths. */
  function Settle(s: SubmitState, ok: bool): (r: SubmitState)
    ensures s.current.None? ==> r == s
    ensures s.current.Some? ==> !r.submitting && r.progress == 0 && r.current.None? && r.leaked == s.leaked
    ensures s.current.Some? ==> r.showSuccess == (ok || s.showSuccess) && r.showError == (!ok || s.showError)
  {
    match s.current
    case None => s
    case Some(_) =>
      if ok then s.(submitting := false, current := None, progress := 0, showSuccess := true)
      else s.(submitting := false, current := None, progress := 0, showError := true)
  }

  /** Closing a modal clears its own flag and touches nothing else. */
  function CloseSuccess(s: SubmitState): (r: SubmitState)
    ensures !r.showSuccess && r.showError == s.showError
    ensures r.submitting == s.submitting && r.progress == s.progress && r.current == s.current && r.leaked == s.leaked
  {
    s.(showSuccess := false)
  }

  function CloseError(s: SubmitState): (r: SubmitState)
    ensures !r.showError && r.showSuccess == s.showSuccess
    ensures r.submitting == s.submitting && r.progress == s.progress && r.current == s.current && r.leaked == s.leaked
  {
    s.(showError := false)
  }

  /**
   * The page keeps its promise: no interval outlives its request, the bar is
   * at most 90 while a request is pending, and it reads 0 whenever nothing is
   * submitting.
   */
  predicate Settled(s: SubmitState)
  {
    && Consistent(s)
    && s.leaked == []
    && s.progress <= ProgressCap
    && (!s.submitting ==> s.progress == 0)
  }

  datatype Event =
    | Submit(form: VoterForm)
    | RequestTick
    | LeakedTick(index: nat)
    | Response(ok: bool)
    | CloseSuccessModal
    | CloseErrorModal

  /** One event of the page, with the interval cleared on both outcomes. */
  function Step(s: SubmitState, e: Event): SubmitState
  {
    match e
    case Submit(f) => BeginSubmit(s, f).state
    case RequestTick => TickRequest(s)
    case LeakedTick(i) => TickLeaked(s, i)
    case Response(ok) => Settle(s, ok)
    case CloseSuccessModal => CloseSuccess(s)
    case CloseErrorModal => CloseError(s)
  }

  function Run(s: SubmitState, events: seq<Event>): SubmitState
    decreases |events|
  {
    if events == [] then s else Run(Step(s, events[0]), events[1..])
  }

  /** One event of the page as written: a failed response leaves its interval running. */
  function StepAsWritten(s: SubmitState, e: Event): SubmitState
  {
    match e
    case Response(ok) => SettleAsWritten(s, ok)
    case _ => Step(s, e)
  }

  function RunAsWritten(s: SubmitState, events: seq<Event>): SubmitState
    decreases |events|
  {
    if events == [] then s else RunAsWritten(StepAsWritten(s, events[0]), events[1..])
  }

  /**
   * The page as written differs from the corrected one only in the intervals
   * it leaves running: every other part of the state is the same after any
   * event, and only a failed response of a pending request differs at all.
   */
  lemma StepAsWrittenAgrees(s: SubmitState, e: Event)
    ensures StepAsWritten(s, e).(leaked := Step(s, e).leaked) == Step(s, e)
    ensures !(e.Response? && !e.ok && s.current.Some?) ==> StepAsWritten(s, e) == Step(s, e)
  {
  }

  /** What the page as written still keeps: one pending request at a time, and a bar of at most 90. */
  predicate Capped(s: SubmitState)
  {
    Consistent(s) && s.progress <= ProgressCap
  }

  lemma StepAsWrittenCapped(s: SubmitState, e: Event)
    requires Capped(s)
    ensures Capped(StepAsWritten(s, e))
  {
  }

  /** Over any run of the page as written, the bar never passes 90, even with leaked intervals. */
  lemma {:induction false} RunAsWrittenCapped(s: SubmitState, events: seq<Event>)
    requires Capped(s)
    ensures Capped(RunAsWritten(s, events))
    decreases |events|
  {
    if events != [] {
      StepAsWrittenCapped(s, events[0]);
      RunAsWrittenCapped(StepAsWritten(s, events[0]), events[1..]);
    }
  }

  /** A freshly mounted page keeps the promise, and its empty form cannot be submitted. */
  lemma InitialSettled()
    ensures Settled(Initial) && Capped(Initial)
    ensures ValidateVoterForm(DefaultVoterForm) != []
    ensures BeginSubmit(Initial, DefaultVoterForm).request.None?
  {
  }

  lemma StepSettled(s: SubmitState, e: Event)
    requires Settled(s)
    ensures Settled(Step(s, e))
  {
  }

  /** From the initial page, every run of events keeps the progress promise. */
  lemma {:induction false} RunSettled(s: SubmitState, events: seq<Event>)
    requires Settled(s)
    ensures Settled(Run(s, events))
    decreases |events|
  {
    if events != [] {
      StepSettled(s, events[0]);
      RunSettled(Step(s, events[0]), events[1..]);
    }
  }
}
