/**
 * Python's `int(str)` in base 10 and its sign-aware zero-padded formatting
 * `f"{n:0Nd}"`, over the string operations of `Text`.
 */
module Integers {
  import opened Wrappers
  import opened Text

  /**
   * The digits of a base-10 literal as `int()` takes them: ASCII digits, where
   * a single underscore may stand between two digits.
   */
  predicate DigitGroups(s: string)
    decreases |s|
  {
    |s| > 0 && IsDigit(s[0]) &&
    (|s| == 1 || (IsDigit(s[1]) && DigitGroups(s[1..])) || (s[1] == '_' && DigitGroups(s[2..])))
  }

  /**
   * Python's `int(s)`: surrounding whitespace is ignored, an optional `+` or
   * `-` comes first, then digit groups; anything else is a `ValueError` here.
   */
  function PyInt(s: string): (r: Option<int>) {
    var t := Strip(s);
    if |t| > 0 && (t[0] == '+' || t[0] == '-') then
      if DigitGroups(t[1..]) then
        var n: int := DigitsValue(DigitsOf(t[1..]));
        Some(if t[0] == '-' then -n else n)
      else None
    else if DigitGroups(t) then Some(DigitsValue(DigitsOf(t)))
    else None
  }

  /** Python's `f"{n:0{width}d}"`: the sign counts toward the width and the zeros go after it. */
  function FormatInt(n: int, width: nat): string {
    if n < 0 then "-" + PadZeros(DecimalString(-n), if width == 0 then 0 else width - 1)
    else FormatNat(n, width)
  }

  /** A formatted integer is an optional minus sign followed by digits. */
  lemma FormatIntShape(n: int, width: nat)
    ensures var r := FormatInt(n, width);
      |r| > 0 && IsDigit(r[|r| - 1]) && (r[0] == '-' <==> n < 0) &&
      forall i :: 0 <= i < |r| ==> IsDigit(r[i]) || r[i] == '-'
  {
    if n < 0 {
      PadZerosValue(DecimalString(-n), if width == 0 then 0 else width - 1);
    } else {
      PadZerosValue(DecimalString(n), width);
    }
  }

  /** `int()` does not see the whitespace around the number. */
  lemma PyIntIgnoresSpace(s: string)
    ensures PyInt(Strip(s)) == PyInt(s)
  {
    StripIdempotent(s);
  }

  /** Plain ASCII digits are one digit group, and keeping their digits keeps them all. */
  lemma {:induction false} DigitsAreGroups(s: string)
    requires AllDigits(s)
    ensures DigitGroups(s) && DigitsOf(s) == s
    decreases |s|
  {
    DigitsOfDigits(s);
    if |s| > 1 {
      assert IsDigit(s[1]) && AllDigits(s[1..]) by {
        forall i | 0 <= i < |s[1..]| ensures IsDigit(s[1..][i]) {
          assert s[1..][i] == s[i + 1];
        }
      }
      DigitsAreGroups(s[1..]);
    }
  }

  /** On plain ASCII digits `int()` agrees with `ParseNat`. */
  lemma PyIntDigits(s: string)
    requires AllDigits(s)
    ensures PyInt(s) == ParseNat(s)
  {
    StripStripped(s);
    DigitsAreGroups(s);
  }

  /** `strip()` leaves a minus sign followed by digits alone. */
  lemma StripSigned(digits: string)
    requires AllDigits(digits)
    ensures Strip("-" + digits) == "-" + digits
  {
    var r := "-" + digits;
    assert r[0] == '-' && r[|r| - 1] == digits[|digits| - 1];
    StripStripped(r);
  }

  /** A minus sign before plain digits negates their value. */
  lemma PyIntNegative(digits: string)
    requires AllDigits(digits)
    ensures PyInt("-" + digits) == Some(-(DigitsValue(digits) as int))
  {
    StripSigned(digits);
    var r := "-" + digits;
    assert r[1..] == digits;
    DigitsAreGroups(digits);
  }

  /** `int(f"{n:0{width}d}") == n` for every integer, negative ones included. */
  lemma FormatIntRoundTrip(n: int, width: nat)
    ensures PyInt(FormatInt(n, width)) == Some(n)
  {
    if n < 0 {
      NegativeRoundTrip(n, width);
    } else {
      NonNegativeRoundTrip(n, width);
    }
  }

  lemma NegativeRoundTrip(n: int, width: nat)
    requires n < 0
    ensures PyInt(FormatInt(n, width)) == Some(n)
  {
    var digits := NegativeDigits(n, width);
    PyIntNegative(digits);
  }

  /** A negative number is formatted as a minus sign before digits worth its magnitude. */
  lemma NegativeDigits(n: int, width: nat) returns (digits: string)
    requires n < 0
    ensures AllDigits(digits) && DigitsValue(digits) == -n && FormatInt(n, width) == "-" + digits
  {
    var w := if width == 0 then 0 else width - 1;
    digits := PadZeros(DecimalString(-n), w);
    PadZerosValue(DecimalString(-n), w);
    DecimalStringValue(-n);
  }

  lemma NonNegativeRoundTrip(n: int, width: nat)
    requires n >= 0
    ensures PyInt(FormatInt(n, width)) == Some(n)
  {
    var s := FormatInt(n, width);
    assert s == FormatNat(n, width);
    FormatNatRoundTrip(n, width);
    PadZerosValue(DecimalString(n), width);
    PyIntDigits(s);
  }

  /** A plus sign before plain digits changes nothing. */
  lemma PyIntPlus(digits: string)
    requires AllDigits(digits)
    ensures PyInt("+" + digits) == ParseNat(digits)
  {
    var r := "+" + digits;
    assert r[0] == '+' && r[|r| - 1] == digits[|digits| - 1];
    StripStripped(r);
    assert r[1..] == digits;
    DigitsAreGroups(digits);
  }

  /** Two runs of digits joined by one underscore are digit groups. */
  lemma {:induction false} JoinedGroups(a: string, b: string)
    requires AllDigits(a) && AllDigits(b)
    ensures DigitGroups(a + "_" + b)
    decreases |a|
  {
    var r := a + "_" + b;
    assert r[0] == a[0];
    DigitsAreGroups(b);
    if |a| == 1 {
      assert r[1] == '_' && r[2..] == b;
    } else {
      assert r[1] == a[1] && r[1..] == a[1..] + "_" + b;
      assert AllDigits(a[1..]) by {
        forall i | 0 <= i < |a[1..]| ensures IsDigit(a[1..][i]) {
          assert a[1..][i] == a[i + 1];
        }
      }
      JoinedGroups(a[1..], b);
    }
  }

  /** Keeping the digits of two runs joined by an underscore gives the two runs. */
  lemma JoinedDigits(a: string, b: string)
    requires AllDigits(a) && AllDigits(b)
    ensures DigitsOf(a + "_" + b) == a + b
  {
    DigitsOfAppend(a + "_", b);
    DigitsOfAppend(a, "_");
    DigitsOfDigits(a);
    DigitsOfDigits(b);
    assert DigitsOf("_") == [] by {
      assert "_"[1..] == [];
    }
  }

  /** One underscore between two runs of digits is dropped: `int("1_000") == 1000`. */
  lemma PyIntUnderscore(a: string, b: string)
    requires AllDigits(a) && AllDigits(b)
    ensures PyInt(a + "_" + b) == ParseNat(a + b)
  {
    var r := a + "_" + b;
    assert r[0] == a[0] && r[|r| - 1] == b[|b| - 1];
    StripStripped(r);
    JoinedGroups(a, b);
    JoinedDigits(a, b);
    assert !(r[0] == '+' || r[0] == '-');
    assert AllDigits(a + b) by {
      forall i | 0 <= i < |a + b| ensures IsDigit((a + b)[i]) {
        if i < |a| { assert (a + b)[i] == a[i]; } else { assert (a + b)[i] == b[i - |a|]; }
      }
    }
  }
}
