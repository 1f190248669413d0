/**
 * Decimal rendering of integers, as C# string interpolation does it for `int`
 * (`{n}`) and with the custom format "00" (`{n:00}`), the parsers that undo
 * them, and a character search. Shared by the two UI text formatters.
 */
module Text {
  import opened Options

  predicate IsDigit(c: char) {
    '0' <= c <= '9'
  }

  predicate AllDigits(s: string) {
    forall i :: 0 <= i < |s| ==> IsDigit(s[i])
  }

  function DigitChar(d: nat): (c: char)
    requires d < 10
    ensures IsDigit(c) && c as int - '0' as int == d
  {
    ['0', '1', '2', '3', '4', '5', '6', '7', '8', '9'][d]
  }

  function DigitValue(c: char): nat
    requires IsDigit(c)
  {
    c as int - '0' as int
  }

  /** The shortest decimal text of `n`: no sign, no leading zero. */
  function NatText(n: nat): (s: string)
    ensures |s| >= 1 && AllDigits(s)
    ensures n < 10 ==> s == [DigitChar(n)]
    ensures s[0] == '0' ==> n == 0
  {
    if n < 10 then [DigitChar(n)] else NatText(n / 10) + [DigitChar(n % 10)]
  }

  /** The value of a string of decimal digits, most significant first; leading zeros are allowed. */
  function DigitsValue(s: string): nat
    requires AllDigits(s)
  {
    if s == [] then 0 else DigitsValue(s[..|s| - 1]) * 10 + DigitValue(s[|s| - 1])
  }

  lemma {:induction false} NatTextRoundTrip(n: nat)
    ensures DigitsValue(NatText(n)) == n
  {
    if n >= 10 {
      var s := NatText(n);
      assert s[..|s| - 1] == NatText(n / 10);
      NatTextRoundTrip(n / 10);
    }
  }

  /** C#'s `int.ToString()`: a minus sign for negative values, then the digits of the magnitude. */
  function IntText(i: int): (s: string)
    ensures |s| >= 1
    ensures i >= 0 ==> AllDigits(s)
    ensures i < 0 ==> |s| >= 2 && s[0] == '-' && AllDigits(s[1..])
    ensures 0 <= i < 10 ==> s == [DigitChar(i)]
    ensures s[0] == '0' ==> i == 0
    ensures i < 0 ==> s[1] != '0'
  {
    if i < 0 then "-" + NatText(-i) else NatText(i)
  }

  /** C#'s custom format "00" on a non-negative value: at least two digits, zero-padded on the left. */
  function PadTwo(n: nat): (s: string)
    ensures |s| >= 2 && AllDigits(s)
    ensures n < 100 ==> s == [DigitChar(n / 10), DigitChar(n % 10)]
    ensures s[0] == '0' ==> n < 10
  {
    if n < 10 then "0" + NatText(n) else NatText(n)
  }

  /** C#'s custom format "00" on any `int`: a minus sign for negative values, then the padded magnitude. */
  function PadTwoInt(i: int): (s: string)
    ensures |s| >= 2
    ensures i >= 0 ==> AllDigits(s)
    ensures i < 0 ==> |s| >= 3 && s[0] == '-' && AllDigits(s[1..])
    ensures i >= 0 && s[0] == '0' ==> i < 10
    ensures i < 0 && s[1] == '0' ==> i > -10
  {
    if i < 0 then "-" + PadTwo(-i) else PadTwo(i)
  }

  /** Between -100 and 100 the "00" format gives exactly two digits, behind a minus sign for negative values. */
  lemma PadTwoIntBelowHundred(i: int)
    requires -100 < i < 100
    ensures 0 <= i ==> PadTwoInt(i) == [DigitChar(i / 10), DigitChar(i % 10)]
    ensures i < 0 ==> PadTwoInt(i) == ['-', DigitChar(-i / 10), DigitChar(-i % 10)]
  {
  }

  /** Reads an optionally signed decimal integer; anything else is rejected. */
  function ParseInt(s: string): (r: Option<int>)
    ensures r.Some? ==> |s| >= 1
  {
    if |s| >= 2 && s[0] == '-' && AllDigits(s[1..]) then Some(0 - DigitsValue(s[1..]))
    else if |s| >= 1 && AllDigits(s) then Some(DigitsValue(s))
    else None
  }

  lemma PadTwoValue(n: nat)
    ensures DigitsValue(PadTwo(n)) == n
  {
    if n < 10 {
      var s := PadTwo(n);
      assert s == ['0', DigitChar(n)];
      assert s[..1] == ['0'] && ['0'][..0] == [];
      assert DigitsValue(['0']) == 0;
    } else {
      NatTextRoundTrip(n);
    }
  }

  /** A digit string of value n reads back as n, and as -n behind a minus sign. */
  lemma ParseDigits(n: nat, t: string)
    requires |t| >= 1 && AllDigits(t) && DigitsValue(t) == n
    ensures ParseInt(t) == Some(n) && ParseInt("-" + t) == Some(0 - n)
  {
    assert ("-" + t)[1..] == t;
  }

  lemma PadTwoIntRoundTrip(i: int)
    ensures ParseInt(PadTwoInt(i)) == Some(i)
  {
    if i < 0 {
      PadTwoValue(-i);
      ParseDigits(-i, PadTwo(-i));
      assert PadTwoInt(i) == "-" + PadTwo(-i);
    } else {
      PadTwoValue(i);
      ParseDigits(i, PadTwo(i));
    }
  }

  lemma IntTextRoundTrip(i: int)
    ensures ParseInt(IntText(i)) == Some(i)
  {
    if i < 0 {
      NatTextRoundTrip(-i);
      ParseDigits(-i, NatText(-i));
      assert IntText(i) == "-" + NatText(-i);
    } else {
      NatTextRoundTrip(i);
      ParseDigits(i, NatText(i));
    }
  }

  /** The position of the first occurrence of `c` in `s`, if any. */
  function IndexOf(s: string, c: char): (r: Option<nat>)
    ensures r.Some? ==> r.value < |s| && s[r.value] == c
    ensures r.Some? ==> forall j :: 0 <= j < r.value ==> s[j] != c
    ensures r.None? ==> forall j :: 0 <= j < |s| ==> s[j] != c
  {
    if s == [] then None
    else if s[0] == c then Some(0)
    else match IndexOf(s[1..], c)
      case None => None
      case Some(k) => Some(k + 1)
  }

  /** Searching a string made of `a`, then `c`, then `b` finds the `c` right after `a` when `a` has none. */
  lemma IndexOfJoin(a: string, c: char, b: string)
    requires forall j :: 0 <= j < |a| ==> a[j] != c
    ensures IndexOf(a + [c] + b, c) == Some(|a|)
  {
    var s := a + [c] + b;
    assert s[|a|] == c;
    assert forall j :: 0 <= j < |a| ==> s[j] == a[j];
  }
}
