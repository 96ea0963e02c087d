/**
 * The JavaScript string and number semantics the pages depend on: the ASCII
 * digit class of `\d` and `/[0-9]/`, the whitespace `Number()` skips, whether
 * `Number(s)` is `NaN`, and `toString` of an integer id.
 *
 * Strings are `seq<char>`, sequences of Unicode scalar values. A JavaScript
 * string is a sequence of UTF-16 code units; the two agree on every
 * character of the Basic Multilingual Plane outside the surrogate range.
 */
module JsText {

  /** `\d` and `[0-9]` without the `u` flag match exactly the ASCII digits. */
  predicate IsDigit(c: char)
  {
    '0' <= c <= '9'
  }

  predicate AllDigits(s: string)
  {
    forall i :: 0 <= i < |s| ==> IsDigit(s[i])
  }

  /** ECMAScript WhiteSpace and LineTerminator code points, the ones `Number()` trims. */
  predicate IsJsSpace(c: char)
  {
    var n := c as int;
    n == 0x09 || n == 0x0A || n == 0x0B || n == 0x0C || n == 0x0D || n == 0x20
    || n == 0xA0 || n == 0x1680 || (0x2000 <= n <= 0x200A) || n == 0x2028
    || n == 0x2029 || n == 0x202F || n == 0x205F || n == 0x3000 || n == 0xFEFF
  }

  // ---------------------------------------------------------------------------
  // Number(s) is NaN
  // ---------------------------------------------------------------------------

  /** `s` with its leading JavaScript whitespace removed. */
  function TrimStart(s: string): string
    decreases |s|
  {
    if |s| > 0 && IsJsSpace(s[0]) then TrimStart(s[1..]) else s
  }

  /** `s` with its trailing JavaScript whitespace removed. */
  function TrimEnd(s: string): string
    decreases |s|
  {
    if |s| > 0 && IsJsSpace(s[|s| - 1]) then TrimEnd(s[..|s| - 1]) else s
  }

  /** Trimming the start drops a whitespace prefix and stops at the first other character. */
  lemma {:induction false} TrimStartShape(s: string)
    ensures var r := TrimStart(s);
      && |r| <= |s| && r == s[|s| - |r|..]
      && (r == [] || !IsJsSpace(r[0]))
      && (forall i :: 0 <= i < |s| - |r| ==> IsJsSpace(s[i]))
    decreases |s|
  {
    if |s| > 0 && IsJsSpace(s[0]) {
      TrimStartShape(s[1..]);
      var r := TrimStart(s);
      assert r == TrimStart(s[1..]);
      forall i | 0 <= i < |s| - |r|
        ensures IsJsSpace(s[i])
      {
        if i > 0 {
          assert s[i] == s[1..][i - 1];
        }
      }
    }
  }

  /** Trimming the end drops a whitespace suffix and stops at the last other character. */
  lemma {:induction false} TrimEndShape(s: string)
    ensures var r := TrimEnd(s);
      && |r| <= |s| && r == s[..|r|]
      && (r == [] || !IsJsSpace(r[|r| - 1]))
      && (forall i :: |r| <= i < |s| ==> IsJsSpace(s[i]))
    decreases |s|
  {
    if |s| > 0 && IsJsSpace(s[|s| - 1]) {
      TrimEndShape(s[..|s| - 1]);
      var r := TrimEnd(s);
      assert r == TrimEnd(s[..|s| - 1]);
      forall i | |r| <= i < |s|
        ensures IsJsSpace(s[i])
      {
        if i < |s| - 1 {
          assert s[i] == s[..|s| - 1][i];
        }
      }
    }
  }

  function Trim(s: string): string
  {
    TrimEnd(TrimStart(s))
  }

  /** What `Number()` parses starts and ends with a character other than whitespace. */
  lemma TrimEdges(s: string)
    ensures var t := Trim(s); |t| <= |s| && (t == [] || (!IsJsSpace(t[0]) && !IsJsSpace(t[|t| - 1])))
  {
    var r := TrimStart(s);
    TrimStartShape(s);
    TrimEndShape(r);
  }

  /** Text made only of whitespace trims to nothing, so `Number()` reads it as 0 rather than NaN. */
  lemma BlankIsNumber(s: string)
    requires forall i :: 0 <= i < |s| ==> IsJsSpace(s[i])
    ensures Trim(s) == [] && !NumberIsNaN(s)
  {
    var r := TrimStart(s);
    TrimStartShape(s);
  }

  /** Length of the longest prefix of `s` made of ASCII digits. */
  function LeadingDigits(s: string): (k: nat)
    ensures k <= |s|
    ensures forall i :: 0 <= i < k ==> IsDigit(s[i])
    ensures k < |s| ==> !IsDigit(s[k])
  {
    if |s| > 0 && IsDigit(s[0]) then 1 + LeadingDigits(s[1..]) else 0
  }

  /** DecimalDigits of the StringNumericLiteral grammar: one or more ASCII digits. */
  predicate IsDecimalDigits(s: string)
  {
    |s| > 0 && AllDigits(s)
  }

  /** ExponentPart: `e` or `E`, an optional sign, then DecimalDigits. */
  predicate IsExponentPart(s: string)
  {
    |s| >= 2 && (s[0] == 'e' || s[0] == 'E')
    && (IsDecimalDigits(s[1..]) || ((s[1] == '+' || s[1] == '-') && IsDecimalDigits(s[2..])))
  }

  predicate IsOptionalExponent(s: string)
  {
    s == [] || IsExponentPart(s)
  }

  /**
   * StrUnsignedDecimalLiteral: `Infinity`, or `1`, `1.`, `1.5`, `.5`, each with
   * an optional exponent. The digit runs are read greedily, which is exact
   * here because what may follow a digit run never starts with a digit.
   */
  predicate IsUnsignedDecimal(s: string)
  {
    if s == "Infinity" then true
    else
      var k := LeadingDigits(s);
      if k > 0 then
        var rest := s[k..];
        IsOptionalExponent(rest)
        || (|rest| > 0 && rest[0] == '.' && IsOptionalExponent(rest[1..][LeadingDigits(rest[1..])..]))
      else
        |s| >= 2 && s[0] == '.' && LeadingDigits(s[1..]) > 0
        && IsOptionalExponent(s[1..][LeadingDigits(s[1..])..])
  }

  /** StrDecimalLiteral: an optional `+` or `-` before an unsigned literal. */
  predicate IsSignedDecimal(s: string)
  {
    IsUnsignedDecimal(s) || (|s| > 0 && (s[0] == '+' || s[0] == '-') && IsUnsignedDecimal(s[1..]))
  }

  predicate IsBinaryDigit(c: char) { c == '0' || c == '1' }
  predicate IsOctalDigit(c: char) { '0' <= c <= '7' }
  predicate IsHexDigit(c: char) { IsDigit(c) || 'a' <= c <= 'f' || 'A' <= c <= 'F' }

  /** NonDecimalIntegerLiteral: `0b…`, `0o…` or `0x…` (either case), no sign. */
  predicate IsNonDecimalInteger(s: string)
  {
    |s| >= 3 && s[0] == '0'
    && (((s[1] == 'b' || s[1] == 'B') && forall i :: 2 <= i < |s| ==> IsBinaryDigit(s[i]))
        || ((s[1] == 'o' || s[1] == 'O') && forall i :: 2 <= i < |s| ==> IsOctalDigit(s[i]))
        || ((s[1] == 'x' || s[1] == 'X') && forall i :: 2 <= i < |s| ==> IsHexDigit(s[i])))
  }

  /**
   * `isNaN(Number(s))`: after trimming whitespace the text is neither empty
   * (which converts to 0) nor a StrNumericLiteral.
   */
  predicate NumberIsNaN(s: string)
  {
    !IsNumericText(Trim(s))
  }

  /** Trimmed text that `Number()` converts to a number rather than `NaN`. */
  predicate IsNumericText(t: string)
  {
    t == [] || IsSignedDecimal(t) || IsNonDecimalInteger(t)
  }

  /** A trimmed-away character leaves nothing behind. */
  lemma TrimSingleSpace(c: char)
    requires IsJsSpace(c)
    ensures Trim([c]) == []
  {
    assert TrimStart([c]) == TrimStart([c][1..]);
  }

  /** A non-space character survives trimming unchanged. */
  lemma TrimSingleNonSpace(c: char)
    requires !IsJsSpace(c)
    ensures Trim([c]) == [c]
  {
  }

  /** A one-character text is numeric exactly when it is a digit. */
  lemma SingleCharText(c: char)
    ensures IsNumericText([c]) <==> IsDigit(c)
  {
    var s := [c];
    assert s[1..] == [];
    if IsDigit(c) {
      assert LeadingDigits(s) == 1;
      assert IsUnsignedDecimal(s);
    } else {
      assert LeadingDigits(s) == 0;
      assert s != "Infinity";
      assert !IsUnsignedDecimal(s);
    }
  }

  /**
   * For one character, `Number(c)` is a number exactly when `c` is an ASCII
   * digit or JavaScript whitespace (which converts to 0).
   */
  lemma SingleCharNumber(c: char)
    ensures !NumberIsNaN([c]) <==> IsDigit(c) || IsJsSpace(c)
  {
    if IsJsSpace(c) {
      TrimSingleSpace(c);
    } else {
      TrimSingleNonSpace(c);
      SingleCharText(c);
    }
  }

  /** The empty string converts to 0, so it is never NaN. */
  lemma EmptyIsNumber()
    ensures !NumberIsNaN("")
  {
  }

  // ---------------------------------------------------------------------------
  // Integer ids and their decimal text
  // ---------------------------------------------------------------------------

  /**
   * The ids the backend sends are JavaScript numbers holding integers; they
   * are modelled in the safe-integer range, where `toString` is plain
   * decimal (exponent notation starts only at 10^21).
   */
  type SafeInt = n: int | -0x1F_FFFF_FFFF_FFFF <= n <= 0x1F_FFFF_FFFF_FFFF

  function DigitChar(d: nat): (c: char)
    requires d < 10
    ensures IsDigit(c)
  {
    (48 + d) as char
  }

  function DigitValue(c: char): (d: nat)
    requires IsDigit(c)
    ensures d < 10 && DigitChar(d) == c
  {
    (c as int) - 48
  }

  /** Decimal text of a natural number, no leading zeros. */
  function NatToDecimal(n: nat): (s: string)
    ensures |s| > 0 && AllDigits(s)
    ensures n >= 10 ==> |s| >= 2
  {
    if n < 10 then [DigitChar(n)] else NatToDecimal(n / 10) + [DigitChar(n % 10)]
  }

  /** Value of a string of decimal digits (the reading back of `NatToDecimal`). */
  function DecimalValue(s: string): nat
    requires AllDigits(s)
  {
    if s == [] then 0 else 10 * DecimalValue(s[..|s| - 1]) + DigitValue(s[|s| - 1])
  }

  lemma {:induction false} NatDecimalRoundTrip(n: nat)
    ensures DecimalValue(NatToDecimal(n)) == n
  {
    var s := NatToDecimal(n);
    if n < 10 {
      assert s[..|s| - 1] == [];
    } else {
      assert s[..|s| - 1] == NatToDecimal(n / 10);
      NatDecimalRoundTrip(n / 10);
    }
  }

  /** `String(n)` / `n.toString()` of an integer-valued number. */
  function IntToDecimal(n: SafeInt): (s: string)
    ensures |s| > 0
    ensures (s[0] == '-') <==> n < 0
  {
    if n < 0 then "-" + NatToDecimal(-n) else NatToDecimal(n)
  }

  lemma NatToDecimalInjective(a: nat, b: nat)
    requires NatToDecimal(a) == NatToDecimal(b)
    ensures a == b
  {
    NatDecimalRoundTrip(a);
    NatDecimalRoundTrip(b);
  }

  /** Different ids have different decimal text, so comparing the text compares the ids. */
  lemma IntToDecimalInjective(a: SafeInt, b: SafeInt)
    ensures IntToDecimal(a) == IntToDecimal(b) <==> a == b
  {
    var sa, sb := IntToDecimal(a), IntToDecimal(b);
    if sa == sb {
      if a < 0 {
        assert b < 0;
        assert sa[1..] == NatToDecimal(-a);
        assert sb[1..] == NatToDecimal(-b);
        NatToDecimalInjective(-a, -b);
      } else {
        assert b >= 0;
        NatToDecimalInjective(a, b);
      }
    }
  }
}
