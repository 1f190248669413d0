/**
 * CollectorUI.UpdateCollectedCountUI: the pickup counter rendered as
 * "Collected Cubes: <collected> / <total>". The text is a function of the two
 * arguments alone; the component's reference to its Collector is never read.
 */
module CollectorUi {
  import opened Options
  import opened Text

  const Prefix: string := "Collected Cubes: "
  const Separator: string := " / "

  /** The text UpdateCollectedCountUI assigns; it always starts with the fixed prefix. */
  function CollectedCountText(collected: int, total: int): (s: string)
    ensures |s| > |Prefix| + |Separator| && s[..|Prefix|] == Prefix
  {
    Prefix + IntText(collected) + Separator + IntText(total)
  }

  /** Reads the text back: strip the prefix, then read the two counts. */
  function ParseCollectedCountText(s: string): Option<(int, int)>
  {
    if |s| < |Prefix| || s[..|Prefix|] != Prefix then None
    else ParseCounts(s[|Prefix|..])
  }

  /** Splits at the first blank, which must start " / ", and reads a count on each side. */
  function ParseCounts(rest: string): Option<(int, int)>
  {
    match IndexOf(rest, ' ')
    case None => None
    case Some(k) =>
      if |rest| < k + |Separator| || rest[k..k + |Separator|] != Separator then None
      else
        match (ParseInt(rest[..k]), ParseInt(rest[k + |Separator|..]))
        case (Some(collected), Some(total)) => Some((collected, total))
        case _ => None
  }

  lemma NoBlankInIntText(i: int)
    ensures forall j :: 0 <= j < |IntText(i)| ==> IntText(i)[j] != ' '
  {
    var s := IntText(i);
    if i < 0 {
      assert forall j :: 1 <= j < |s| ==> s[j] == s[1..][j - 1];
    }
  }

  /** A count text without blanks, the separator and a second count text read back as the two counts. */
  lemma CountsJoined(a: string, b: string, rest: string, collected: int, total: int)
    requires forall j :: 0 <= j < |a| ==> a[j] != ' '
    requires ParseInt(a) == Some(collected) && ParseInt(b) == Some(total) && rest == a + Separator + b
    ensures ParseCounts(rest) == Some((collected, total))
  {
    assert rest == a + [' '] + ("/ " + b);
    IndexOfJoin(a, ' ', "/ " + b);
    assert rest[..|a|] == a;
    assert rest[|a|..|a| + |Separator|] == Separator;
    assert rest[|a| + |Separator|..] == b;
  }

  /** The prefix followed by the two count texts and the separator reads back as the two counts. */
  lemma JoinedRoundTrip(collected: int, total: int, a: string, b: string, s: string)
    requires a == IntText(collected) && b == IntText(total) && s == Prefix + (a + Separator + b)
    ensures ParseCollectedCountText(s) == Some((collected, total))
  {
    assert s[..|Prefix|] == Prefix && s[|Prefix|..] == a + Separator + b;
    NoBlankInIntText(collected);
    IntTextRoundTrip(collected);
    IntTextRoundTrip(total);
    CountsJoined(a, b, a + Separator + b, collected, total);
  }

  /** Both counts are recovered from the text. */
  lemma CollectedCountTextRoundTrip(collected: int, total: int)
    ensures ParseCollectedCountText(CollectedCountText(collected, total)) == Some((collected, total))
  {
    var a, b := IntText(collected), IntText(total);
    assert CollectedCountText(collected, total) == Prefix + (a + Separator + b);
    JoinedRoundTrip(collected, total, a, b, CollectedCountText(collected, total));
  }

  /** Different counts never render to the same text. */
  lemma CollectedCountTextInjective(c1: int, t1: int, c2: int, t2: int)
    requires CollectedCountText(c1, t1) == CollectedCountText(c2, t2)
    ensures c1 == c2 && t1 == t2
  {
    CollectedCountTextRoundTrip(c1, t1);
    CollectedCountTextRoundTrip(c2, t2);
  }

  lemma CollectedCountTextExample()
    ensures CollectedCountText(3, 10) == "Collected Cubes: 3 / 10"
    ensures CollectedCountText(0, 10) == "Collected Cubes: 0 / 10"
  {
  }
}
