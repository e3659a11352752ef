/** The worker's counters: the class that keeps them, and every interleaving of the atomic operations on them. */
module Metrics {
  import opened Deploy

  datatype Counters = Counters(
    started: nat, succeeded: nat, failed: nat, active: int, durationCount: nat, durationNanos: nat)

  const ZERO := Counters(0, 0, 0, 0, 0, 0)

  function AtLeastZero(d: int): nat { if d < 0 then 0 else d }

  /** What one decrement of active amounts to. */
  function Decremented(active: int): int { if active <= 0 then active else active - 1 }

  function AfterStart(c: Counters): Counters { c.(started := c.started + 1, active := c.active + 1) }

  function CountOutcome(c: Counters, status: Status): Counters {
    if status == Succeeded then c.(succeeded := c.succeeded + 1) else c.(failed := c.failed + 1)
  }

  function AfterFinish(c: Counters, status: Status, duration: int): Counters {
    var c := CountOutcome(c, status);
    c.(active := Decremented(c.active), durationCount := c.durationCount + 1,
       durationNanos := c.durationNanos + AtLeastZero(duration))
  }

  /** Collector, used by one goroutine at a time; the interleavings are the subject of the next module. */
  class Collector {
    var started: nat
    var succeeded: nat
    var failed: nat
    var active: int
    var durationCount: nat
    var durationNanos: nat

    ghost function Value(): Counters
      reads this
    {
      Counters(started, succeeded, failed, active, durationCount, durationNanos)
    }

    constructor ()
      ensures Value() == ZERO
    {
      started, succeeded, failed, active, durationCount, durationNanos := 0, 0, 0, 0, 0, 0;
    }

    method JobStarted()
      modifies this
      ensures Value() == AfterStart(old(Value()))
    {
      started := started + 1;
      active := active + 1;
    }

    method JobFinished(status: Status, duration: int)
      modifies this
      ensures Value() == AfterFinish(old(Value()), status, duration)
    {
      if status == Succeeded {
        succeeded := succeeded + 1;
      } else {
        failed := failed + 1;
      }
      DecrementActive();
      var d := if duration < 0 then 0 else duration;
      durationCount := durationCount + 1;
      durationNanos := durationNanos + d;
    }

    method CompareAndSwap(expected: int, replacement: int) returns (swapped: bool)
      modifies this`active
      ensures swapped <==> old(active) == expected
      ensures active == if swapped then replacement else old(active)
    {
      swapped := active == expected;
      if swapped {
        active := replacement;
      }
    }

    /** The retry loop. Nobody else writes here, so the first exchange succeeds. */
    method DecrementActive()
      modifies this`active
      ensures active == Decremented(old(active))
    {
      var done := false;
      while !done
        invariant active == if done then Decremented(old(active)) else old(active)
        decreases !done
      {
        var current := active;
        if current <= 0 {
          return;
        }
        done := CompareAndSwap(current, current - 1);
      }
    }
  }
}

/** Any number of threads, interleaved at the level of single atomic operations. */
module Interleaving {
  import opened Deploy
  import opened Metrics

  datatype Call = Start | Finish(status: Status, duration: int)

  /**
   * Where a thread is inside its current call, which is the first of its todo list:
   * before it, or just before the named atomic operation.
   */
  datatype Pc = Before | AddActive | LoadActive | SwapActive(current: int) | AddCount | AddNanos

  datatype Thread = Thread(pc: Pc, todo: seq<Call>) {
    predicate Done() { todo == [] }

    predicate Valid() {
      && (todo == [] ==> pc == Before)
      && (pc == AddActive ==> todo != [] && todo[0].Start?)
      && (pc.LoadActive? || pc.SwapActive? || pc.AddCount? || pc.AddNanos? ==> todo != [] && todo[0].Finish?)
      && (pc.SwapActive? ==> pc.current > 0)
    }
  }

  datatype System = System(counters: Counters, threads: seq<Thread>)

  /** One atomic operation of one thread. */
  function ThreadStep(c: Counters, t: Thread): (Counters, Thread)
    requires t.Valid() && !t.Done()
  {
    match t.pc
    case Before =>
      if t.todo[0].Start? then (c.(started := c.started + 1), t.(pc := AddActive))
      else (CountOutcome(c, t.todo[0].status), t.(pc := LoadActive))
    case AddActive => (c.(active := c.active + 1), Thread(Before, t.todo[1..]))
    case LoadActive => (c, t.(pc := if c.active <= 0 then AddCount else SwapActive(c.active)))
    case SwapActive(current) =>
      if c.active == current then (c.(active := current - 1), t.(pc := AddCount)) else (c, t.(pc := LoadActive))
    case AddCount => (c.(durationCount := c.durationCount + 1), t.(pc := AddNanos))
    case AddNanos =>
      (c.(durationNanos := c.durationNanos + AtLeastZero(t.todo[0].duration)), Thread(Before, t.todo[1..]))
  }

  predicate Enabled(s: System, i: int) { 0 <= i < |s.threads| && s.threads[i].Valid() && !s.threads[i].Done() }

  function Step(s: System, i: nat): System
    requires Enabled(s, i)
  {
    var (c, t) := ThreadStep(s.counters, s.threads[i]);
    System(c, s.threads[i := t])
  }

  /** A schedule names the thread that runs at each step; it must be able to. */
  predicate Runs(s: System, schedule: seq<nat>)
    decreases |schedule|
  {
    schedule == [] || (Enabled(s, schedule[0]) && Runs(Step(s, schedule[0]), schedule[1..]))
  }

  function Run(s: System, schedule: seq<nat>): System
    requires Runs(s, schedule)
    decreases |schedule|
  {
    if schedule == [] then s else Run(Step(s, schedule[0]), schedule[1..])
  }

  predicate ValidThreads(s: System) { forall i :: 0 <= i < |s.threads| ==> s.threads[i].Valid() }

  predicate Quiescent(s: System) { forall i :: 0 <= i < |s.threads| ==> s.threads[i].Done() }

  predicate Initial(s: System) { s.counters == ZERO && forall i :: 0 <= i < |s.threads| ==> s.threads[i].pc == Before }

  /* ---------- sums over all threads ---------- */

  function Sum(f: Thread -> int, threads: seq<Thread>): int {
    if threads == [] then 0 else f(threads[0]) + Sum(f, threads[1..])
  }

  lemma {:induction false} SumUpdate(f: Thread -> int, threads: seq<Thread>, i: nat, t: Thread)
    requires i < |threads|
    ensures Sum(f, threads[i := t]) == Sum(f, threads) - f(threads[i]) + f(t)
  {
    if i > 0 {
      SumUpdate(f, threads[1..], i - 1, t);
      assert threads[i := t][1..] == threads[1..][i - 1 := t];
    } else {
      assert threads[i := t][1..] == threads[1..];
    }
  }

  lemma {:induction false} SumBounds(f: Thread -> int, threads: seq<Thread>, low: int)
    requires forall i :: 0 <= i < |threads| ==> f(threads[i]) >= low
    ensures Sum(f, threads) >= low * |threads|
    ensures low >= 0 ==> forall i :: 0 <= i < |threads| ==> f(threads[i]) <= Sum(f, threads)
  {
    if threads != [] {
      SumBounds(f, threads[1..], low);
      assert forall i :: 1 <= i < |threads| ==> threads[i] == threads[1..][i - 1];
    }
  }

  lemma {:induction false} SumZero(f: Thread -> int, threads: seq<Thread>)
    requires forall i :: 0 <= i < |threads| ==> f(threads[i]) == 0
    ensures Sum(f, threads) == 0
  {
    if threads != [] {
      SumZero(f, threads[1..]);
    }
  }

  /* ---------- active never goes below zero, and each decrement is one atomic step ---------- */

  lemma StepKeepsValid(s: System, i: nat)
    requires ValidThreads(s) && s.counters.active >= 0 && Enabled(s, i)
    ensures ValidThreads(Step(s, i)) && Step(s, i).counters.active >= 0
  {
  }

  /** In the simple system a decrement is a single operation. */
  datatype SimplePc = SBefore | SAddActive | SDecrement | SAddCount | SAddNanos

  datatype SimpleThread = SimpleThread(pc: SimplePc, todo: seq<Call>) {
    predicate Ready() {
      && todo != []
      && (pc == SAddActive ==> todo[0].Start?)
      && (pc == SDecrement || pc == SAddCount || pc == SAddNanos ==> todo[0].Finish?)
    }
  }

  datatype SimpleSystem = SimpleSystem(counters: Counters, threads: seq<SimpleThread>)

  function SimpleThreadStep(c: Counters, t: SimpleThread): (Counters, SimpleThread)
    requires t.Ready()
  {
    match t.pc
    case SBefore =>
      if t.todo[0].Start? then (c.(started := c.started + 1), t.(pc := SAddActive))
      else (CountOutcome(c, t.todo[0].status), t.(pc := SDecrement))
    case SAddActive => (c.(active := c.active + 1), SimpleThread(SBefore, t.todo[1..]))
    case SDecrement => (c.(active := Decremented(c.active)), t.(pc := SAddCount))
    case SAddCount => (c.(durationCount := c.durationCount + 1), t.(pc := SAddNanos))
    case SAddNanos =>
      (c.(durationNanos := c.durationNanos + AtLeastZero(t.todo[0].duration)), SimpleThread(SBefore, t.todo[1..]))
  }

  predicate SimpleEnabled(s: SimpleSystem, i: int) { 0 <= i < |s.threads| && s.threads[i].Ready() }

  function SimpleStep(s: SimpleSystem, i: nat): SimpleSystem
    requires SimpleEnabled(s, i)
  {
    var (c, t) := SimpleThreadStep(s.counters, s.threads[i]);
    SimpleSystem(c, s.threads[i := t])
  }

  predicate SimpleRuns(s: SimpleSystem, schedule: seq<nat>)
    decreases |schedule|
  {
    schedule == [] || (SimpleEnabled(s, schedule[0]) && SimpleRuns(SimpleStep(s, schedule[0]), schedule[1..]))
  }

  function SimpleRun(s: SimpleSystem, schedule: seq<nat>): SimpleSystem
    requires SimpleRuns(s, schedule)
    decreases |schedule|
  {
    if schedule == [] then s else SimpleRun(SimpleStep(s, schedule[0]), schedule[1..])
  }

  lemma SimpleRunFrom(s: SimpleSystem, i: nat, rest: seq<nat>)
    requires SimpleEnabled(s, i) && SimpleRuns(SimpleStep(s, i), rest)
    ensures SimpleRuns(s, [i] + rest) && SimpleRun(s, [i] + rest) == SimpleRun(SimpleStep(s, i), rest)
  {
    assert ([i] + rest)[1..] == rest;
  }

  function Simple(t: Thread): SimpleThread {
    SimpleThread(
      match t.pc
      case Before => SBefore
      case AddActive => SAddActive
      case LoadActive => SDecrement
      case SwapActive(_) => SDecrement
      case AddCount => SAddCount
      case AddNanos => SAddNanos,
      t.todo)
  }

  function SimpleOf(s: System): SimpleSystem {
    SimpleSystem(s.counters, seq(|s.threads|, i requires 0 <= i < |s.threads| => Simple(s.threads[i])))
  }

  /** The operations that do not show: loading a positive value, and an exchange that fails. */
  predicate Silent(c: Counters, t: Thread) {
    (t.pc.LoadActive? && c.active > 0) || (t.pc.SwapActive? && c.active != t.pc.current)
  }

  /** Every atomic operation is silent or is the simple step of the same thread. */
  lemma StepSimulates(s: System, i: nat)
    requires ValidThreads(s) && s.counters.active >= 0 && Enabled(s, i)
    ensures if Silent(s.counters, s.threads[i]) then SimpleOf(Step(s, i)) == SimpleOf(s)
            else SimpleEnabled(SimpleOf(s), i) && SimpleStep(SimpleOf(s), i) == SimpleOf(Step(s, i))
  {
    var (c, t) := ThreadStep(s.counters, s.threads[i]);
    var simple, after := SimpleOf(s), SimpleOf(Step(s, i));
    assert after.threads == simple.threads[i := Simple(t)];
    if Silent(s.counters, s.threads[i]) {
      assert simple.threads[i := Simple(t)] == simple.threads;
    }
  }

  /** The schedule of the simple system: the same, without the silent operations. */
  function Visible(s: System, schedule: seq<nat>): seq<nat>
    requires Runs(s, schedule)
    decreases |schedule|
  {
    if schedule == [] then []
    else
      var i := schedule[0];
      (if Silent(s.counters, s.threads[i]) then [] else [i]) + Visible(Step(s, i), schedule[1..])
  }

  /**
   * Linearizability: every run has the effect of a run in which each decrement is one atomic step
   * that takes active to max(active - 1, 0), and active is never negative.
   */
  lemma {:induction false} Linearizable(s: System, schedule: seq<nat>)
    requires ValidThreads(s) && s.counters.active >= 0 && Runs(s, schedule)
    ensures var end := Run(s, schedule);
      && ValidThreads(end) && end.counters.active >= 0
      && SimpleRuns(SimpleOf(s), Visible(s, schedule))
      && SimpleRun(SimpleOf(s), Visible(s, schedule)) == SimpleOf(end)
    decreases |schedule|
  {
    if schedule != [] {
      var i, next := schedule[0], Step(s, schedule[0]);
      StepKeepsValid(s, i);
      StepSimulates(s, i);
      Linearizable(next, schedule[1..]);
      if Silent(s.counters, s.threads[i]) {
        assert [] + Visible(next, schedule[1..]) == Visible(next, schedule[1..]);
      } else {
        SimpleRunFrom(SimpleOf(s), i, Visible(next, schedule[1..]));
      }
    }
  }

  lemma RunFrom(s: System, i: nat, rest: seq<nat>)
    requires Enabled(s, i) && Runs(Step(s, i), rest)
    ensures Runs(s, [i] + rest) && Run(s, [i] + rest) == Run(Step(s, i), rest)
  {
    assert ([i] + rest)[1..] == rest;
  }

  /** The two atomic operations of one start run alone add up to what the sequential collector does. */
  lemma StartAlone(c: Counters)
    ensures var s := System(c, [Thread(Before, [Start])]);
      Runs(s, [0, 0]) && Run(s, [0, 0]) == System(AfterStart(c), [Thread(Before, [])])
  {
    var s := System(c, [Thread(Before, [Start])]);
    var s' := Step(s, 0);
    assert [Start][1..] == [];
    RunFrom(s', 0, []);
    RunFrom(s, 0, [0]);
    assert [0] + [] == [0] && [0] + [0] == [0, 0];
  }

  /** Four atomic operations when active is not positive, and one more, the exchange, when it is. */
  function AloneSchedule(active: int): seq<nat> { if active <= 0 then [0, 0, 0, 0] else [0, 0, 0, 0, 0] }

  /** The atomic operations of one finish run alone, the exchange included, add up to the sequential effect. */
  lemma FinishAlone(c: Counters, status: Status, duration: int)
    ensures var s := System(c, [Thread(Before, [Finish(status, duration)])]);
      && Runs(s, AloneSchedule(c.active))
      && Run(s, AloneSchedule(c.active)) == System(AfterFinish(c, status, duration), [Thread(Before, [])])
  {
    var s0 := System(c, [Thread(Before, [Finish(status, duration)])]);
    var s1 := Step(s0, 0);
    var s2 := Step(s1, 0);
    var s3 := if c.active <= 0 then s2 else Step(s2, 0);
    LastTwoAlone(s3.counters, status, duration);
    if c.active > 0 {
      RunFrom(s2, 0, [0, 0]);
      RunFrom(s1, 0, [0, 0, 0]);
      RunFrom(s0, 0, [0, 0, 0, 0]);
      assert [0] + [0, 0] == [0, 0, 0] && [0] + [0, 0, 0] == [0, 0, 0, 0] && [0] + [0, 0, 0, 0] == [0, 0, 0, 0, 0];
    } else {
      RunFrom(s1, 0, [0, 0]);
      RunFrom(s0, 0, [0, 0, 0]);
      assert [0] + [0, 0] == [0, 0, 0] && [0] + [0, 0, 0] == [0, 0, 0, 0];
    }
  }

  lemma LastTwoAlone(c: Counters, status: Status, duration: int)
    ensures var s := System(c, [Thread(AddCount, [Finish(status, duration)])]);
      && Runs(s, [0, 0])
      && Run(s, [0, 0]) == System(
           c.(durationCount := c.durationCount + 1, durationNanos := c.durationNanos + AtLeastZero(duration)),
           [Thread(Before, [])])
  {
    var s := System(c, [Thread(AddCount, [Finish(status, duration)])]);
    var s' := Step(s, 0);
    assert [Finish(status, duration)][1..] == [];
    RunFrom(s', 0, []);
    RunFrom(s, 0, [0]);
    assert [0] + [] == [0] && [0] + [0] == [0, 0];
  }

  /* ---------- when each finish follows its own start ---------- */

  /** Starts and finishes alternate; inside says that the next call must be a finish. */
  predicate Alternates(todo: seq<Call>, inside: bool) {
    todo == [] || (todo[0].Finish? == inside && Alternates(todo[1..], !inside))
  }

  /** The thread has raised active and not yet lowered it. */
  predicate Holding(t: Thread) {
    (t.pc == Before && t.todo != [] && t.todo[0].Finish?) || t.pc.LoadActive? || t.pc.SwapActive?
  }

  predicate Bracketed(t: Thread) { t.Valid() && (t.todo != [] ==> Alternates(t.todo, t.todo[0].Finish?)) }

  function Held(t: Thread): int { if Holding(t) then 1 else 0 }

  /** Started but its outcome not yet counted. */
  function Open(t: Thread): int { if t.pc == AddActive || (t.pc == Before && Holding(t)) then 1 else 0 }

  /** Its outcome counted but its duration not yet. */
  function Timing(t: Thread): int { if t.pc.LoadActive? || t.pc.SwapActive? || t.pc.AddCount? then 1 else 0 }

  /** The durations yet to be counted, those that are not positive counting nothing. */
  function NanosLeft(t: Thread): int { TodoNanos(t.todo) }

  function TodoNanos(todo: seq<Call>): int {
    if todo == [] then 0
    else (if todo[0].Finish? && todo[0].duration > 0 then todo[0].duration else 0) + TodoNanos(todo[1..])
  }

  /** Successes that the thread has yet to count. */
  function SuccessesLeft(t: Thread): int {
    Successes(t.todo) - if t.todo != [] && IsSuccess(t.todo[0]) && t.pc != Before then 1 else 0
  }

  predicate IsSuccess(call: Call) { call.Finish? && call.status == Succeeded }

  function Successes(todo: seq<Call>): int {
    if todo == [] then 0 else (if IsSuccess(todo[0]) then 1 else 0) + Successes(todo[1..])
  }

  /** Every thread ends with a finish, so none stops while it is holding. */
  predicate Balanced(s: System) {
    && (forall i :: 0 <= i < |s.threads| ==> Bracketed(s.threads[i]) && EndsOutside(s.threads[i].todo))
    && var c := s.counters;
       && c.active == Sum(Held, s.threads)
       && c.started == c.succeeded + c.failed + Sum(Open, s.threads)
       && c.succeeded + c.failed == c.durationCount + Sum(Timing, s.threads)
  }

  predicate EndsOutside(todo: seq<Call>) { todo != [] ==> todo[|todo| - 1].Finish? }

  lemma AllValid(s: System)
    requires Balanced(s)
    ensures ValidThreads(s) && s.counters.active >= 0
  {
    forall i | 0 <= i < |s.threads| ensures s.threads[i].Valid() {
      assert Bracketed(s.threads[i]);
    }
    SumBounds(Held, s.threads, 0);
  }

  /** A thread that is about to load active finds it positive: the branch that leaves it alone is never taken. */
  lemma FloorIsUnreachable(s: System, i: nat)
    requires Balanced(s) && i < |s.threads| && s.threads[i].pc.LoadActive?
    ensures s.counters.active >= 1
  {
    SumBounds(Held, s.threads, 0);
    assert Held(s.threads[i]) == 1;
  }

  lemma ThreadStepBalance(c: Counters, t: Thread)
    requires Bracketed(t) && EndsOutside(t.todo) && !t.Done() && (t.pc.LoadActive? ==> c.active >= 1)
    ensures var (c', t') := ThreadStep(c, t);
      && Bracketed(t') && EndsOutside(t'.todo)
      && c'.active - c.active == Held(t') - Held(t)
      && (c'.started - c'.succeeded - c'.failed) - (c.started - c.succeeded - c.failed) == Open(t') - Open(t)
      && (c'.succeeded + c'.failed - c'.durationCount) - (c.succeeded + c.failed - c.durationCount)
           == Timing(t') - Timing(t)
      && c'.durationNanos + NanosLeft(t') == c.durationNanos + NanosLeft(t)
      && c'.succeeded + SuccessesLeft(t') == c.succeeded + SuccessesLeft(t)
  {
    if t.pc == AddActive || t.pc == AddNanos {
      var rest := t.todo[1..];
      assert Alternates(rest, !t.todo[0].Finish?);
      if rest != [] {
        assert rest[|rest| - 1] == t.todo[|t.todo| - 1];
      }
    }
  }

  function TotalNanos(s: System): int { s.counters.durationNanos + Sum(NanosLeft, s.threads) }

  function TotalSuccesses(s: System): int { s.counters.succeeded + Sum(SuccessesLeft, s.threads) }

  lemma StepKeepsBalance(s: System, i: nat)
    requires Balanced(s) && Enabled(s, i)
    ensures Balanced(Step(s, i))
    ensures TotalNanos(Step(s, i)) == TotalNanos(s) && TotalSuccesses(Step(s, i)) == TotalSuccesses(s)
  {
    if s.threads[i].pc.LoadActive? {
      FloorIsUnreachable(s, i);
    }
    ThreadStepBalance(s.counters, s.threads[i]);
    var t := ThreadStep(s.counters, s.threads[i]).1;
    SumUpdate(Held, s.threads, i, t);
    SumUpdate(Open, s.threads, i, t);
    SumUpdate(Timing, s.threads, i, t);
    SumUpdate(NanosLeft, s.threads, i, t);
    SumUpdate(SuccessesLeft, s.threads, i, t);
  }

  lemma {:induction false} RunKeepsBalance(s: System, schedule: seq<nat>)
    requires Balanced(s) && Runs(s, schedule)
    ensures var end := Run(s, schedule);
      Balanced(end) && TotalNanos(end) == TotalNanos(s) && TotalSuccesses(end) == TotalSuccesses(s)
    decreases |schedule|
  {
    if schedule != [] {
      StepKeepsBalance(s, schedule[0]);
      RunKeepsBalance(Step(s, schedule[0]), schedule[1..]);
    }
  }

  /**
   * From zero, with every finish after its own start: active always equals the number of threads between raising
   * and lowering it, and when all are done nothing is active, every start is a success or a failure with one
   * duration, the successes are the calls that reported one, and the total time is the sum of all the durations.
   */
  lemma QuiescentTotals(s: System, schedule: seq<nat>)
    requires Initial(s) && Runs(s, schedule)
    requires forall i :: 0 <= i < |s.threads| ==> Alternates(s.threads[i].todo, false) && EndsOutside(s.threads[i].todo)
    ensures var end := Run(s, schedule);
      var c := end.counters;
      && c.active == Sum(Held, end.threads)
      && (Quiescent(end) ==>
            && c.active == 0 && c.started == c.succeeded + c.failed == c.durationCount
            && c.succeeded == Sum(SuccessesLeft, s.threads)
            && c.durationNanos == Sum(NanosLeft, s.threads))
  {
    SumZero(Held, s.threads);
    SumZero(Open, s.threads);
    SumZero(Timing, s.threads);
    RunKeepsBalance(s, schedule);
    var end := Run(s, schedule);
    if Quiescent(end) {
      AllValid(end);
      SumZero(Held, end.threads);
      SumZero(Open, end.threads);
      SumZero(Timing, end.threads);
      SumZero(NanosLeft, end.threads);
      SumZero(SuccessesLeft, end.threads);
    }
  }

  /* ---------- every interleaving ends ---------- */

  /** The changes of active that the thread has yet to make. */
  function ChangesLeft(t: Thread): nat {
    if t.pc == AddCount || t.pc == AddNanos then |t.todo| - (if t.todo == [] then 0 else 1) else |t.todo|
  }

  /** The operations that calls still to come take when no exchange fails. */
  function CallCost(todo: seq<Call>): nat {
    if todo == [] then 0 else (if todo[0].Start? then 2 else 5) + CallCost(todo[1..])
  }

  /** The operations left when no exchange fails; a stale value costs the failing exchange and a new load. */
  function Rank(active: int, t: Thread): nat {
    if t.todo == [] then 0
    else
      CallCost(t.todo[1..]) +
      match t.pc
      case Before => (if t.todo[0].Start? then 2 else 5)
      case AddActive => 1
      case LoadActive => 4
      case SwapActive(current) => (if current == active then 3 else 5)
      case AddCount => 2
      case AddNanos => 1
  }

  function RankAt(active: int): Thread -> int { (t: Thread) => Rank(active, t) }

  function ChangesOf(): Thread -> int { (t: Thread) => ChangesLeft(t) }

  /** Every change of active can make all other threads stale, which costs each of them two operations. */
  function Measure(s: System): int {
    2 * |s.threads| * Sum(ChangesOf(), s.threads) + Sum(RankAt(s.counters.active), s.threads)
  }

  lemma {:induction false} StaleCost(a: int, b: int, threads: seq<Thread>)
    ensures Sum(RankAt(b), threads) <= Sum(RankAt(a), threads) + 2 * |threads|
  {
    if threads != [] {
      StaleCost(a, b, threads[1..]);
    }
  }

  lemma ThreadStepRank(c: Counters, t: Thread)
    requires t.Valid() && !t.Done()
    ensures var (c', t') := ThreadStep(c, t);
      && Rank(c'.active, t') < Rank(c.active, t)
      && ChangesLeft(t') <= ChangesLeft(t)
      && (c'.active != c.active ==> ChangesLeft(t') < ChangesLeft(t) && !t'.pc.SwapActive?)
  {
  }

  /** Each operation lowers the measure; a failed exchange is paid for by the change that made the value stale. */
  lemma StepLowersMeasure(s: System, i: nat)
    requires Enabled(s, i)
    ensures Measure(Step(s, i)) < Measure(s)
  {
    var (c, t) := ThreadStep(s.counters, s.threads[i]);
    var a, b := s.counters.active, c.active;
    ThreadStepRank(s.counters, s.threads[i]);
    SumUpdate(ChangesOf(), s.threads, i, t);
    if a == b {
      SumUpdate(RankAt(a), s.threads, i, t);
    } else {
      OthersStale(s.threads, i, t, a, b);
    }
    Drops(2 * |s.threads|, Sum(ChangesOf(), s.threads), Sum(ChangesOf(), s.threads[i := t]),
      Sum(RankAt(a), s.threads), Sum(RankAt(b), s.threads[i := t]));
  }

  lemma Drops(k: nat, x: int, x': int, r: int, r': int)
    requires (x' <= x && r' < r) || (x' + 1 <= x && r' < r + k)
    ensures k * x' + r' < k * x + r
  {
    if x' + 1 <= x {
      assert k * x == k * x' + k * (x - x');
      Product(k, x - x');
    }
  }

  lemma Product(k: nat, d: int)
    requires d >= 1
    ensures k * d >= k
  {
  }

  /** When active changes, the running thread gets closer and every other one loses at most two operations. */
  lemma OthersStale(threads: seq<Thread>, i: nat, t: Thread, a: int, b: int)
    requires i < |threads| && Rank(b, t) < Rank(a, threads[i]) && !t.pc.SwapActive?
    ensures Sum(RankAt(b), threads[i := t]) < Sum(RankAt(a), threads) + 2 * |threads|
  {
    SumUpdate(RankAt(a), threads, i, t);
    StaleCost(a, b, threads[i := t]);
    assert Rank(a, t) == Rank(b, t);
  }

  lemma NonNegativeProduct(k: nat, x: nat)
    ensures k * x >= 0
  {
  }

  /** A system of threads with finitely many calls can make at most this many operations, in every interleaving. */
  lemma {:induction false} RunsAreBounded(s: System, schedule: seq<nat>)
    requires Runs(s, schedule)
    ensures |schedule| <= Measure(s)
    decreases |schedule|
  {
    if schedule != [] {
      StepLowersMeasure(s, schedule[0]);
      RunsAreBounded(Step(s, schedule[0]), schedule[1..]);
    } else {
      SumBounds(ChangesOf(), s.threads, 0);
      SumBounds(RankAt(s.counters.active), s.threads, 0);
      NonNegativeProduct(2 * |s.threads|, Sum(ChangesOf(), s.threads));
    }
  }

  /* ---------- who pays for a failed exchange ---------- */

  function StaleAt(active: int): Thread -> int {
    (t: Thread) => if t.pc.SwapActive? && t.pc.current != active then 1 else 0
  }

  predicate FailsSwap(s: System, i: int) {
    0 <= i < |s.threads| && s.threads[i].pc.SwapActive? && s.threads[i].pc.current != s.counters.active
  }

  function FailedSwaps(s: System, schedule: seq<nat>): nat
    requires Runs(s, schedule)
    decreases |schedule|
  {
    if schedule == [] then 0
    else (if FailsSwap(s, schedule[0]) then 1 else 0) + FailedSwaps(Step(s, schedule[0]), schedule[1..])
  }

  function Changes(s: System, schedule: seq<nat>): nat
    requires Runs(s, schedule)
    decreases |schedule|
  {
    if schedule == [] then 0
    else
      (if Step(s, schedule[0]).counters.active != s.counters.active then 1 else 0)
      + Changes(Step(s, schedule[0]), schedule[1..])
  }

  lemma {:induction false} StaleBound(active: int, threads: seq<Thread>)
    ensures 0 <= Sum(StaleAt(active), threads) <= |threads|
  {
    if threads != [] {
      StaleBound(active, threads[1..]);
    }
  }

  lemma StepStale(s: System, i: nat)
    requires Enabled(s, i)
    ensures var s' := Step(s, i);
      (if FailsSwap(s, i) then 1 else 0) + Sum(StaleAt(s'.counters.active), s'.threads)
        <= Sum(StaleAt(s.counters.active), s.threads)
           + if s'.counters.active != s.counters.active then |s.threads| - 1 else 0
  {
    var (c, t) := ThreadStep(s.counters, s.threads[i]);
    SumUpdate(StaleAt(c.active), s.threads, i, t);
    if c.active != s.counters.active {
      NotAllStale(c.active, s.threads[i := t], i);
      StaleBound(s.counters.active, s.threads);
    }
  }

  lemma NotAllStale(active: int, threads: seq<Thread>, i: nat)
    requires i < |threads| && !threads[i].pc.SwapActive?
    ensures Sum(StaleAt(active), threads) <= |threads| - 1
  {
    var marked := threads[i := Thread(SwapActive(active + 1), [])];
    SumUpdate(StaleAt(active), threads, i, marked[i]);
    StaleBound(active, marked);
  }

  lemma OneMoreTimes(k: nat, n: nat)
    ensures (1 + k) * n == n + k * n && (0 + k) * n == k * n
  {
  }

  /**
   * In every run the failed exchanges are at most n - 1 for each change of active that some other exchange
   * or start made.
   */
  lemma {:induction false} FailuresAreCharged(s: System, schedule: seq<nat>)
    requires Runs(s, schedule)
    ensures FailedSwaps(s, schedule)
      <= Sum(StaleAt(s.counters.active), s.threads) + Changes(s, schedule) * (|s.threads| - 1)
    decreases |schedule|
  {
    if schedule == [] {
      StaleBound(s.counters.active, s.threads);
    } else {
      var s' := Step(s, schedule[0]);
      StepStale(s, schedule[0]);
      FailuresAreCharged(s', schedule[1..]);
      assert Changes(s, schedule)
        == (if s'.counters.active != s.counters.active then 1 else 0) + Changes(s', schedule[1..]);
      OneMoreTimes(Changes(s', schedule[1..]), |s.threads| - 1);
    }
  }
}
