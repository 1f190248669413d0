/**
 * Collector: counts pickups of objects carrying the collectible tag against a
 * fixed number of available cubes. Listeners of OnCollectedCountChanged and
 * OnCollectAllCubes are an event log.
 */
module Collecting {

  datatype Event = CountChanged(collected: int, total: int) | AllCollected

  /** One trigger: the new count and the events emitted, in order. */
  function Trigger(count: int, total: int, collectibleTag: string, tag: string): (r: (int, seq<Event>))
    ensures r.1 == [] <==> r.0 == count
    ensures r.1 != [] ==> r.0 == count + 1 && r.1[0] == CountChanged(r.0, total)
    ensures AllCollected in r.1 <==> r.1 != [] && r.0 >= total
    ensures r.1 != [] ==> r.1[1..] == (if r.0 >= total then [AllCollected] else [])
  {
    if tag != collectibleTag then (count, [])
    else
      var count' := count + 1;
      (count', [CountChanged(count', total)] + (if count' >= total then [AllCollected] else []))
  }

  /** A sequence of triggers, one tag each. */
  function Replay(count: int, total: int, collectibleTag: string, tags: seq<string>): (int, seq<Event>)
    decreases tags
  {
    if tags == [] then (count, [])
    else
      var (mid, first) := Trigger(count, total, collectibleTag, tags[0]);
      var (last, rest) := Replay(mid, total, collectibleTag, tags[1..]);
      (last, first + rest)
  }

  /** How many of `tags` are the collectible tag. */
  function Matches(tags: seq<string>, collectibleTag: string): nat
    decreases tags
  {
    if tags == [] then 0 else (if tags[0] == collectibleTag then 1 else 0) + Matches(tags[1..], collectibleTag)
  }

  function AllCollectedCount(evs: seq<Event>): nat
  {
    if evs == [] then 0 else (if evs[0] == AllCollected then 1 else 0) + AllCollectedCount(evs[1..])
  }

  /** Of the counts count+1, ..., count+m reached by m pickups, how many are at least `total`. */
  function CountsAtLeast(count: int, m: nat, total: int): nat
  {
    if count + m < total then 0
    else if count + 1 >= total then m
    else count + m - total + 1
  }

  /** A trigger from anything else changes nothing; a pickup adds exactly one, reports the new count
      with the configured total first, and then reports all collected exactly when the count reached it. */
  lemma TriggerEffect(count: int, total: int, collectibleTag: string, tag: string)
    ensures tag != collectibleTag ==> Trigger(count, total, collectibleTag, tag) == (count, [])
    ensures tag == collectibleTag ==>
      var (count', evs) := Trigger(count, total, collectibleTag, tag);
      count' == count + 1 && |evs| >= 1 && evs[0] == CountChanged(count + 1, total)
      && (AllCollected in evs <==> count + 1 >= total) && evs[1..] == (if count + 1 >= total then [AllCollected] else [])
  {
  }

  lemma {:induction false} AllCollectedCountAppend(a: seq<Event>, b: seq<Event>)
    ensures AllCollectedCount(a + b) == AllCollectedCount(a) + AllCollectedCount(b)
    decreases a
  {
    if a != [] {
      assert (a + b)[1..] == a[1..] + b;
      AllCollectedCountAppend(a[1..], b);
    } else {
      assert a + b == b;
    }
  }

  /** After any triggers the count has grown by exactly the number of collectible ones (so it never
      decreases), every count report carries the configured total, and all collected has fired once per
      pickup that reached the total, not just once. */
  lemma {:induction false} ReplayCounts(count: int, total: int, collectibleTag: string, tags: seq<string>)
    ensures Replay(count, total, collectibleTag, tags).0 == count + Matches(tags, collectibleTag)
    ensures forall e :: e in Replay(count, total, collectibleTag, tags).1 && e.CountChanged? ==> e.total == total
    ensures AllCollectedCount(Replay(count, total, collectibleTag, tags).1)
      == CountsAtLeast(count, Matches(tags, collectibleTag), total)
    decreases tags
  {
    if tags != [] {
      var (mid, first) := Trigger(count, total, collectibleTag, tags[0]);
      ReplayCounts(mid, total, collectibleTag, tags[1..]);
      AllCollectedCountAppend(first, Replay(mid, total, collectibleTag, tags[1..]).1);
      if tags[0] == collectibleTag {
        if count + 1 >= total {
          assert first == [CountChanged(count + 1, total), AllCollected];
          assert AllCollectedCount(first) == 1 by {
            assert first[1..] == [AllCollected] && first[1..][1..] == [];
          }
        } else {
          assert first == [CountChanged(count + 1, total)];
          assert AllCollectedCount(first) == 0 by {
            assert first[1..] == [];
          }
        }
      }
    }
  }

  /** The scene object a trigger comes from. */
  class Collidable {
    const tag: string
    var active: bool

    constructor (tag: string)
      ensures this.tag == tag && active
    {
      this.tag := tag;
      active := true;
    }
  }

  class Collector {
    const collectibleTag: string
    const numberOfAvailableCubes: int
    var collectedCount: int
    var events: seq<Event>
    /** The tags of every trigger seen so far. */
    ghost var triggers: seq<string>

    ghost predicate Valid()
      reads this
    {
      && collectedCount == Matches(triggers, collectibleTag)
      && forall e :: e in events && e.CountChanged? ==> e.total == numberOfAvailableCubes
    }

    constructor (collectibleTag: string, numberOfAvailableCubes: int)
      ensures Valid() && collectedCount == 0 && events == [] && triggers == []
      ensures this.collectibleTag == collectibleTag && this.numberOfAvailableCubes == numberOfAvailableCubes
    {
      this.collectibleTag := collectibleTag;
      this.numberOfAvailableCubes := numberOfAvailableCubes;
      collectedCount := 0;
      events := [];
      triggers := [];
    }

    /** The engine's Start callback: report the current count against the total. */
    method Start()
      requires Valid()
      modifies this
      ensures Valid() && collectedCount == old(collectedCount) && triggers == old(triggers)
      ensures events == old(events) + [CountChanged(collectedCount, numberOfAvailableCubes)]
    {
      events := events + [CountChanged(collectedCount, numberOfAvailableCubes)];
    }

    method OnTriggerEnter(other: Collidable)
      requires Valid()
      modifies this, other
      ensures Valid() && triggers == old(triggers) + [other.tag]
      ensures collectedCount == Trigger(old(collectedCount), numberOfAvailableCubes, collectibleTag, other.tag).0
      ensures events == old(events) + Trigger(old(collectedCount), numberOfAvailableCubes, collectibleTag, other.tag).1
      ensures other.tag == collectibleTag ==> !other.active
      ensures other.tag != collectibleTag ==> other.active == old(other.active) && collectedCount == old(collectedCount)
    {
      MatchesSnoc(triggers, other.tag, collectibleTag);
      triggers := triggers + [other.tag];
      if other.tag == collectibleTag {
        collectedCount := collectedCount + 1;
        events := events + [CountChanged(collectedCount, numberOfAvailableCubes)];
        other.active := false;
        if collectedCount >= numberOfAvailableCubes {
          events := events + [AllCollected];
          assert events == old(events) + ([CountChanged(collectedCount, numberOfAvailableCubes)] + [AllCollected]);
        } else {
          assert events == old(events) + ([CountChanged(collectedCount, numberOfAvailableCubes)] + []);
        }
      } else {
        assert events == old(events) + [];
      }
    }
  }

  lemma {:induction false} MatchesSnoc(tags: seq<string>, tag: string, collectibleTag: string)
    ensures Matches(tags + [tag], collectibleTag) == Matches(tags, collectibleTag) + (if tag == collectibleTag then 1 else 0)
    decreases tags
  {
    if tags == [] {
      assert [] + [tag] == [tag] && [tag][1..] == [];
    } else {
      assert (tags + [tag])[1..] == tags[1..] + [tag];
      MatchesSnoc(tags[1..], tag, collectibleTag);
    }
  }
}
