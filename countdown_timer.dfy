/**
 * CountdownTimer: remaining seconds, a paused flag and whether the countdown
 * coroutine is alive. One resumption of the coroutine, from the yield it was
 * suspended at to the next yield or to its end, is one atomic Tick; listeners
 * of OnTimerUpdated and OnTimerCompleted are an event log.
 */
module Countdown {

  datatype Event = Updated(seconds: int) | Completed

  /** `running` stands for `_countdownCoroutine != null`. */
  datatype State = State(remaining: int, paused: bool, running: bool)

  datatype Op = StartTimer(seconds: int) | StopTimer | Tick

  /** A fresh component: nothing started, nothing paused. */
  const Initial := State(0, false, false)

  /** Time is left exactly while the coroutine is alive: it exits as soon as none is left, and
      everything that ends it resets the time to zero. */
  predicate Live(st: State)
  {
    st.running <==> st.remaining > 0
  }

  /**
   * One operation: the new state and the events it emits, in order. StartTimer runs the new
   * coroutine up to its first yield, which emits nothing. A Tick resumes a coroutine suspended at
   * `WaitForSeconds(1)` (unpaused: one second off and announced) or at `yield return null`
   * (paused), and then runs the loop test, leaving through the exit when no time is left: the time
   * is reset, the coroutine is gone, and zero and the completion are announced.
   */
  function Step(st: State, op: Op): (r: (State, seq<Event>))
    ensures Completed in r.1 ==> r.0 == State(0, st.paused, false) && |r.1| >= 2 && r.1[|r.1| - 2..] == [Updated(0), Completed]
    ensures op.Tick? ==> (Completed in r.1 <==> st.running && !r.0.running)
    ensures Live(st) ==> Live(r.0)
  {
    match op
    case StartTimer(seconds) =>
      if seconds <= 0 then (st, [])
      else (State(seconds, false, true), [])
    case StopTimer =>
      (State(0, st.paused, false), [Updated(0)])
    case Tick =>
      if !st.running then (st, [])
      else if st.paused then
        if st.remaining > 0 then (st, []) else (State(0, st.paused, false), [Updated(0), Completed])
      else
        var left := st.remaining - 1;
        if left > 0 then (st.(remaining := left), [Updated(left)])
        else (State(0, st.paused, false), [Updated(left), Updated(0), Completed])
  }

  /** A sequence of operations: the final state and every event, in order. */
  function Run(st: State, ops: seq<Op>): (State, seq<Event>)
    decreases ops
  {
    if ops == [] then (st, [])
    else
      var (mid, first) := Step(st, ops[0]);
      var (last, rest) := Run(mid, ops[1..]);
      (last, first + rest)
  }

  function Ticks(k: nat): (ops: seq<Op>)
    ensures |ops| == k && forall i :: 0 <= i < k ==> ops[i] == Tick
  {
    seq(k, _ => Tick)
  }

  /** Updates n-1, n-2, ..., 0. */
  function Descending(n: nat): (evs: seq<Event>)
    ensures |evs| == n && forall i :: 0 <= i < n ==> evs[i] == Updated(n - 1 - i)
  {
    if n == 0 then [] else [Updated(n - 1)] + Descending(n - 1)
  }

  function CompletionCount(evs: seq<Event>): nat
  {
    if evs == [] then 0 else (if evs[0] == Completed then 1 else 0) + CompletionCount(evs[1..])
  }

  /** The argument of the last successful StartTimer, after `op`. */
  function LastStart(limit: int, op: Op): int
  {
    if op.StartTimer? && op.seconds > 0 then op.seconds else limit
  }

  function LastStartAll(limit: int, ops: seq<Op>): int
    decreases ops
  {
    if ops == [] then limit else LastStartAll(LastStart(limit, ops[0]), ops[1..])
  }

  /** StartTimer with a non-positive duration changes nothing; otherwise it replaces whatever
      countdown was in progress, whatever the old state, and emits nothing yet. */
  lemma StartTimerEffect(st: State, seconds: int)
    ensures seconds <= 0 ==> Step(st, StartTimer(seconds)) == (st, [])
    ensures seconds > 0 ==> Step(st, StartTimer(seconds)) == (State(seconds, false, true), [])
  {
  }

  /** StopTimer always ends with a stopped timer at zero and exactly one update of zero, never a completion. */
  lemma StopTimerEffect(st: State)
    ensures Step(st, StopTimer).0.remaining == 0 && !Step(st, StopTimer).0.running
    ensures Step(st, StopTimer).1 == [Updated(0)] && CompletionCount(Step(st, StopTimer).1) == 0
  {
  }

  /** An unpaused tick of a live countdown takes one second off and announces it; the tick that reaches
      zero also ends the countdown in the same resumption, announcing zero again and the completion.
      A paused tick of a live countdown, or a tick with no coroutine, does nothing. */
  lemma TickEffect(st: State)
    requires Live(st)
    ensures st.running && !st.paused && st.remaining > 1 ==>
      Step(st, Tick) == (st.(remaining := st.remaining - 1), [Updated(st.remaining - 1)])
    ensures st.running && !st.paused && st.remaining == 1 ==>
      Step(st, Tick) == (State(0, false, false), [Updated(0), Updated(0), Completed])
    ensures (st.running && st.paused) || !st.running ==> Step(st, Tick) == (st, [])
  {
  }

  /** A running, unpaused countdown from `r` ends after exactly r ticks with updates r-1, ..., 0,
      then 0 again and a completion. */
  lemma {:induction false} CountdownFrom(r: nat)
    requires r > 0
    ensures Run(State(r, false, true), Ticks(r)) == (State(0, false, false), Descending(r) + [Updated(0), Completed])
  {
    var ops := Ticks(r);
    assert ops[0] == Tick && ops[1..] == Ticks(r - 1);
    if r == 1 {
      var st' := State(0, false, false);
      assert ops[1..] == [];
      assert Step(State(1, false, true), Tick) == (st', [Updated(0), Updated(0), Completed]);
      assert Run(st', []) == (st', []);
      assert Descending(1) + [Updated(0), Completed] == [Updated(0), Updated(0), Completed] + [];
    } else {
      CountdownFrom(r - 1);
      assert Step(State(r, false, true), Tick) == (State(r - 1, false, true), [Updated(r - 1)]);
      assert Descending(r) + [Updated(0), Completed] == [Updated(r - 1)] + (Descending(r - 1) + [Updated(0), Completed]);
    }
  }

  /** Once the countdown has stopped, further ticks do nothing. */
  lemma {:induction false} StoppedTicksQuiet(st: State, k: nat)
    requires !st.running
    ensures Run(st, Ticks(k)) == (st, [])
    decreases k
  {
    if k > 0 {
      assert Ticks(k)[0] == Tick && Ticks(k)[1..] == Ticks(k - 1);
      StoppedTicksQuiet(st, k - 1);
      assert Step(st, Tick) == (st, []);
      assert [] + Run(st, Ticks(k - 1)).1 == [];
    } else {
      assert Ticks(k) == [];
    }
  }

  lemma {:induction false} CompletionCountAppend(a: seq<Event>, b: seq<Event>)
    ensures CompletionCount(a + b) == CompletionCount(a) + CompletionCount(b)
    decreases a
  {
    if a != [] {
      assert (a + b)[1..] == a[1..] + b;
      CompletionCountAppend(a[1..], b);
    } else {
      assert a + b == b;
    }
  }

  /** StartTimer(n) from any state, followed by n ticks: updates n-1, ..., 1, 0, then 0 again and
      exactly one completion; any number of further ticks adds nothing. */
  lemma {:induction false} StartTimerRunsToCompletion(st: State, n: int, extra: nat)
    requires n > 0
    ensures Run(st, [StartTimer(n)] + Ticks(n + extra)) == (State(0, false, false), Descending(n) + [Updated(0), Completed])
    ensures CompletionCount(Descending(n) + [Updated(0), Completed]) == 1
  {
    var ops := [StartTimer(n)] + Ticks(n + extra);
    assert ops[0] == StartTimer(n) && ops[1..] == Ticks(n) + Ticks(extra);
    RunAppend(State(n, false, true), Ticks(n), Ticks(extra));
    CountdownFrom(n);
    StoppedTicksQuiet(State(0, false, false), extra);
    var evs := Descending(n) + [Updated(0), Completed];
    assert Run(State(n, false, true), ops[1..]) == (State(0, false, false), evs + []);
    assert evs + [] == evs && [] + evs == evs;
    assert Step(st, ops[0]) == (State(n, false, true), []);
    CompletionCountAppend(Descending(n), [Updated(0), Completed]);
    NoCompletionInDescending(n);
  }

  /** The completion is announced by the tick that reaches zero, so a StopTimer right after it
      cannot suppress it: the stop only adds its own update of zero. */
  lemma StopAfterLastTick()
    ensures Run(Initial, [StartTimer(1), Tick, StopTimer, Tick])
      == (State(0, false, false), [Updated(0), Updated(0), Completed, Updated(0)])
  {
    var ops := [StartTimer(1), Tick, StopTimer, Tick];
    var done := State(0, false, false);
    var finished := [Updated(0), Updated(0), Completed];
    assert ops[1..] == [Tick, StopTimer, Tick] && ops[1..][1..] == [StopTimer, Tick] && ops[1..][1..][1..] == [Tick];
    assert [Tick][1..] == [] && Run(done, []) == (done, []);
    assert Step(done, Tick) == (done, []) && [] + [] == Step(done, Tick).1;
    assert Run(done, [Tick]) == (done, []);
    assert [Updated(0)] + [] == [Updated(0)];
    assert Run(done, [StopTimer, Tick]) == (done, [Updated(0)]);
    assert finished + [Updated(0)] == [Updated(0), Updated(0), Completed, Updated(0)];
    assert Run(State(1, false, true), [Tick, StopTimer, Tick]) == (done, finished + [Updated(0)]);
    assert [] + (finished + [Updated(0)]) == finished + [Updated(0)];
  }

  lemma {:induction false} NoCompletionInDescending(n: nat)
    ensures CompletionCount(Descending(n)) == 0
  {
    if n > 0 {
      assert Descending(n)[1..] == Descending(n - 1);
      NoCompletionInDescending(n - 1);
    }
  }

  /** Running two sequences back to back is running their concatenation. */
  lemma {:induction false} RunAppend(st: State, a: seq<Op>, b: seq<Op>)
    ensures Run(st, a + b) == (Run(Run(st, a).0, b).0, Run(st, a).1 + Run(Run(st, a).0, b).1)
    decreases a
  {
    if a == [] {
      assert a + b == b;
      assert [] + Run(st, b).1 == Run(st, b).1;
    } else {
      var (mid, e0) := Step(st, a[0]);
      assert (a + b)[0] == a[0] && (a + b)[1..] == a[1..] + b;
      assert Run(st, a + b) == (Run(mid, a[1..] + b).0, e0 + Run(mid, a[1..] + b).1);
      assert Run(st, a) == (Run(mid, a[1..]).0, e0 + Run(mid, a[1..]).1);
      RunAppend(mid, a[1..], b);
      var ea := Run(mid, a[1..]).1;
      var eb := Run(Run(mid, a[1..]).0, b).1;
      assert e0 + (ea + eb) == (e0 + ea) + eb;
    }
  }

  /** Nothing ever sets the paused flag: from an unpaused state it stays cleared forever. */
  lemma {:induction false} NeverPaused(st: State, ops: seq<Op>)
    requires !st.paused
    ensures !Run(st, ops).0.paused
    decreases ops
  {
    if ops != [] {
      NeverPaused(Step(st, ops[0]).0, ops[1..]);
    }
  }

  /** Every operation keeps 0 <= remaining <= the argument of the last successful StartTimer,
      keeps a live coroutine's time positive, and only emits updates within that range. */
  lemma StepKeepsBound(st: State, limit: int, op: Op)
    requires 0 <= st.remaining <= limit && Live(st)
    ensures 0 <= Step(st, op).0.remaining <= LastStart(limit, op) && Live(Step(st, op).0)
    ensures forall e :: e in Step(st, op).1 && e.Updated? ==> 0 <= e.seconds <= LastStart(limit, op)
  {
  }

  /** The bound holds along any sequence of operations from a state that satisfies it. */
  lemma {:induction false} RunKeepsBound(st: State, limit: int, ops: seq<Op>)
    requires 0 <= st.remaining <= limit && Live(st)
    ensures 0 <= Run(st, ops).0.remaining <= LastStartAll(limit, ops) && Live(Run(st, ops).0)
    ensures forall e :: e in Run(st, ops).1 && e.Updated? ==> e.seconds >= 0
    decreases ops
  {
    if ops != [] {
      StepKeepsBound(st, limit, ops[0]);
      RunKeepsBound(Step(st, ops[0]).0, LastStart(limit, ops[0]), ops[1..]);
    }
  }

  /** The component: its fields and the event log its listeners have seen. */
  class CountdownTimer {
    const initialTime: int
    var remainingTime: int
    var isPaused: bool
    var running: bool
    var events: seq<Event>
    /** The argument of the last successful StartTimer (0 before any). */
    ghost var limit: int

    ghost predicate Valid()
      reads this
    {
      0 <= remainingTime <= limit && !isPaused && (running <==> remainingTime > 0)
    }

    function Model(): State
      reads this
    {
      State(remainingTime, isPaused, running)
    }

    constructor (initialTime: int)
      ensures Valid() && Model() == Initial && events == [] && this.initialTime == initialTime
    {
      this.initialTime := initialTime;
      remainingTime, isPaused, running := 0, false, false;
      events := [];
      limit := 0;
    }

    /** True exactly when the next tick would make a listener hear something. */
    function IsRunning(): (r: bool)
      reads this
      requires Valid()
      ensures r <==> Step(Model(), Op.Tick).1 != []
    {
      running
    }

    /** Nothing in the component ever pauses it. */
    function IsPaused(): (r: bool)
      reads this
      requires Valid()
      ensures !r
    {
      isPaused
    }

    function RemainingTime(): (r: int)
      reads this
      requires Valid()
      ensures 0 <= r <= limit
    {
      remainingTime
    }

    /** The engine's Start callback: StartTimer with the configured initial time. */
    method Start()
      requires Valid()
      modifies this
      ensures Valid() && limit == LastStart(old(limit), Op.StartTimer(initialTime))
      ensures Model() == Step(old(Model()), Op.StartTimer(initialTime)).0
      ensures events == old(events) + Step(old(Model()), Op.StartTimer(initialTime)).1
    {
      StartTimer(initialTime);
    }

    method StartTimer(seconds: int)
      requires Valid()
      modifies this
      ensures Valid() && limit == LastStart(old(limit), Op.StartTimer(seconds))
      ensures seconds <= 0 ==> Model() == old(Model())
      ensures seconds > 0 ==> remainingTime == seconds && !isPaused && running
      ensures Model() == Step(old(Model()), Op.StartTimer(seconds)).0
      ensures events == old(events) + Step(old(Model()), Op.StartTimer(seconds)).1
    {
      if seconds <= 0 {
        return;
      }
      remainingTime := seconds;
      isPaused := false;
      limit := seconds;
      // Stopping the old coroutine and starting a new one leaves exactly one running.
      running := true;
    }

    method StopTimer()
      requires Valid()
      modifies this
      ensures Valid() && limit == old(limit)
      ensures !running && remainingTime == 0 && isPaused == old(isPaused)
      ensures events == old(events) + [Updated(0)]
      ensures Model() == Step(old(Model()), Op.StopTimer).0
    {
      if running {
        running := false;
      }
      remainingTime := 0;
      events := events + [Updated(0)];
    }

    /** One resumption of TimerCoroutine: the rest of the loop pass it was suspended in, the loop
        test, and either the next yield or the exit once no time is left. */
    method Tick()
      requires Valid()
      modifies this
      ensures Valid() && limit == old(limit)
      ensures Model() == Step(old(Model()), Op.Tick).0
      ensures events == old(events) + Step(old(Model()), Op.Tick).1
      ensures old(remainingTime) == 1 ==> !running && events[|events| - 1] == Completed
    {
      if !running {
        return;
      }
      if !isPaused {
        remainingTime := remainingTime - 1;
        events := events + [Updated(remainingTime)];
      }
      if remainingTime > 0 {
        return;
      }
      remainingTime := 0;
      running := false;
      events := events + [Updated(0)];
      events := events + [Completed];
    }
  }
}
