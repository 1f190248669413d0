/**
 * FreeFallDetector: a one-bit edge detector over the per-frame ground query.
 * Losing the ground after having it ends the game through the GameManager.
 */
module FreeFall {
  import opened Game

  const FreeFallMessage: string := "Game Over! Free Fall"

  /** One CheckGround: whether it asks for game over, given the stored flag and the query result. */
  predicate Triggers(wasNearGround: bool, isGrounded: bool): (r: bool)
    ensures r <==> FallingEdges([wasNearGround, isGrounded]) == 1
  {
    wasNearGround && !isGrounded
  }

  /** The flag stored after the queries `qs`; false before any, as the field starts. */
  function NearGround(qs: seq<bool>): bool
  {
    if qs == [] then false else qs[|qs| - 1]
  }

  /** How many game-over calls CheckGround makes over the queries `qs`, frame by frame. */
  function GameOverCalls(qs: seq<bool>): nat
  {
    if qs == [] then 0
    else
      var before := qs[..|qs| - 1];
      GameOverCalls(before) + (if Triggers(NearGround(before), qs[|qs| - 1]) then 1 else 0)
  }

  /** The number of adjacent true-then-false pairs in `s`. */
  function FallingEdges(s: seq<bool>): nat
  {
    if |s| < 2 then 0 else (if s[0] && !s[1] then 1 else 0) + FallingEdges(s[1..])
  }

  lemma {:induction false} FallingEdgesSnoc(s: seq<bool>, q: bool)
    requires s != []
    ensures FallingEdges(s + [q]) == FallingEdges(s) + (if s[|s| - 1] && !q then 1 else 0)
  {
    if |s| >= 2 {
      assert (s + [q])[1..] == s[1..] + [q];
      FallingEdgesSnoc(s[1..], q);
    }
  }

  /** The game-over calls are exactly the true-to-false steps of the query history, with the initial
      false flag in front: the first query never triggers, nor does staying ungrounded or regaining ground. */
  lemma {:induction false} GameOverCallsAreFallingEdges(qs: seq<bool>)
    ensures GameOverCalls(qs) == FallingEdges([false] + qs)
  {
    if qs != [] {
      var before := qs[..|qs| - 1];
      GameOverCallsAreFallingEdges(before);
      assert [false] + qs == ([false] + before) + [qs[|qs| - 1]];
      FallingEdgesSnoc([false] + before, qs[|qs| - 1]);
    }
  }

  class FreeFallDetector {
    var isNearGround: bool
    const manager: GameManager
    /** The ground query results seen so far, and the game-over calls made. */
    ghost var queries: seq<bool>
    ghost var calls: nat

    ghost predicate Valid()
      reads this
    {
      isNearGround == NearGround(queries) && calls == GameOverCalls(queries)
    }

    constructor (manager: GameManager)
      ensures Valid() && !isNearGround && queries == [] && this.manager == manager
    {
      this.manager := manager;
      isNearGround := false;
      queries, calls := [], 0;
    }

    /** One frame, with the engine's sphere query result passed in. */
    method CheckGround(isGrounded: bool)
      requires Valid()
      modifies this, manager
      ensures Valid() && queries == old(queries) + [isGrounded]
      ensures isNearGround == isGrounded
      ensures Triggers(old(isNearGround), isGrounded) ==>
        calls == old(calls) + 1 && manager.Model() == Apply(old(manager.Model()), GameOver(FreeFallMessage))
      ensures !Triggers(old(isNearGround), isGrounded) ==>
        calls == old(calls) && manager.Model() == old(manager.Model())
    {
      if !isGrounded && isNearGround {
        manager.GameOver(FreeFallMessage);
        calls := calls + 1;
      }
      isNearGround := isGrounded;
      queries := queries + [isGrounded];
      assert queries[..|queries| - 1] == old(queries);
    }
  }
}
