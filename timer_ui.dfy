/**
 * TimerUI.UpdateUI: the remaining seconds of the countdown rendered as
 * minutes and seconds, each with the C# custom format "00".
 */
module TimerUi {
  import opened Options
  import opened Text

  /** C#'s `/` on `int`: the quotient truncated toward zero. */
  function TruncDiv(a: int, b: int): (q: int)
    requires b > 0
    ensures a >= 0 ==> 0 <= a - q * b < b
    ensures a < 0 ==> -b < a - q * b <= 0
  {
    if a >= 0 then a / b else -((-a) / b)
  }

  /** C#'s `%` on `int`: the remainder takes the sign of the dividend. */
  function TruncMod(a: int, b: int): (m: int)
    requires b > 0
    ensures a >= 0 ==> 0 <= m < b
    ensures a < 0 ==> -b < m <= 0
    ensures a >= 0 ==> m == a % b
    ensures a < 0 ==> m == -((-a) % b)
  {
    a - b * TruncDiv(a, b)
  }

  /** The `minutes` and `seconds` locals of UpdateUI. */
  function Fields(t: int): (f: (int, int))
    ensures f.0 * 60 + f.1 == t
    ensures -60 < f.1 < 60
    ensures t >= 0 ==> f.0 >= 0 && 0 <= f.1 < 60
    ensures t < 0 ==> f.0 <= 0 && f.1 <= 0
  {
    (TruncDiv(t, 60), TruncMod(t, 60))
  }

  /** The text UpdateUI assigns for `remainingTime == t`. */
  function TimerText(t: int): (s: string)
    ensures |s| >= 5
  {
    var f := Fields(t);
    PadTwoInt(f.0) + ":" + PadTwoInt(f.1)
  }

  /** Reads the text back: the minutes field up to the colon, the seconds field after it. */
  function ParseTimerText(s: string): Option<int>
  {
    match IndexOf(s, ':')
    case None => None
    case Some(k) =>
      match (ParseInt(s[..k]), ParseInt(s[k + 1..]))
      case (Some(minutes), Some(seconds)) => Some(minutes * 60 + seconds)
      case _ => None
  }

  lemma NoColonInPadded(i: int)
    ensures forall j :: 0 <= j < |PadTwoInt(i)| ==> PadTwoInt(i)[j] != ':'
  {
    var s := PadTwoInt(i);
    if i < 0 {
      assert forall j :: 1 <= j < |s| ==> s[j] == s[1..][j - 1];
    }
  }

  /** A minutes field without a colon, a colon, and a seconds field read back as minutes * 60 + seconds. */
  lemma ParseJoined(a: string, b: string, s: string, minutes: int, seconds: int)
    requires forall j :: 0 <= j < |a| ==> a[j] != ':'
    requires ParseInt(a) == Some(minutes) && ParseInt(b) == Some(seconds) && s == a + ":" + b
    ensures ParseTimerText(s) == Some(minutes * 60 + seconds)
  {
    IndexOfJoin(a, ':', b);
    assert s[..|a|] == a && s[|a| + 1..] == b;
  }

  /** The two padded fields joined by a colon read back as minutes * 60 + seconds. */
  lemma FieldsRoundTrip(minutes: int, seconds: int, t: int, a: string, b: string, s: string)
    requires a == PadTwoInt(minutes) && b == PadTwoInt(seconds) && s == a + ":" + b
    requires minutes * 60 + seconds == t
    ensures ParseTimerText(s) == Some(t)
  {
    PadTwoIntRoundTrip(minutes);
    PadTwoIntRoundTrip(seconds);
    NoColonInPadded(minutes);
    ParseJoined(a, b, s, minutes, seconds);
  }

  /** Every remaining time, negative ones included, is recovered from its text. */
  lemma TimerTextRoundTrip(t: int)
    ensures ParseTimerText(TimerText(t)) == Some(t)
  {
    var f := Fields(t);
    FieldsRoundTrip(f.0, f.1, t, PadTwoInt(f.0), PadTwoInt(f.1), TimerText(t));
  }

  /** For a non-negative time the seconds field is exactly two digits after the last colon,
      and the minutes field before it is the minutes padded to at least two digits. */
  lemma TimerTextNonNegative(t: int)
    requires t >= 0
    ensures var s := TimerText(t);
      |s| >= 5 && s[..|s| - 3] == PadTwo(t / 60)
      && s[|s| - 3..] == [':', DigitChar(t % 60 / 10), DigitChar(t % 60 % 10)]
  {
    var m, sec := t / 60, t % 60;
    assert Fields(t) == (m, sec);
    var a, b := PadTwo(m), [DigitChar(sec / 10), DigitChar(sec % 10)];
    assert PadTwoInt(m) == a && PadTwoInt(sec) == b;
    var s := a + ":" + b;
    assert TimerText(t) == s;
    assert s[..|s| - 3] == a;
    assert s[|s| - 3..] == [':'] + b;
  }

  /** Below 100 minutes the text is exactly "MM:SS". */
  lemma TimerTextFiveChars(t: int)
    requires 0 <= t < 6000
    ensures TimerText(t) == [DigitChar(t / 600), DigitChar(t / 60 % 10), ':', DigitChar(t % 60 / 10), DigitChar(t % 10)]
  {
    var m, sec := t / 60, t % 60;
    assert Fields(t) == (m, sec);
    assert m < 100 && m / 10 == t / 600 && sec % 10 == t % 10;
    assert PadTwoInt(m) == [DigitChar(m / 10), DigitChar(m % 10)];
    assert PadTwoInt(sec) == [DigitChar(sec / 10), DigitChar(sec % 10)];
  }

  /** The minutes field grows past two digits from 100 minutes on. */
  lemma TimerTextHundredMinutes()
    ensures TimerText(6000) == "100:00"
    ensures TimerText(125) == "02:05"
  {
  }
}
