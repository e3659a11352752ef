/** The main theorems: what holds after every run of the store with any number of workers and outsiders. */
module Runs {
  import opened Prelude
  import opened Collections
  import opened Deploy
  import opened Selection
  import opened Wire
  import opened Signing
  import opened ComponentIndex
  import opened StoreSpec
  import opened RunnerSpec
  import opened Protocol
  import opened Queueing
  import opened Claiming
  import opened Execution
  import opened Logs

  ghost predicate Inv(cfg: Config, s: SystemState) {
    QueueFacts(s) && ClaimFacts(s) && ExecutionFacts(cfg, s) && LogFacts(s) && RetireFacts(s)
  }

  lemma InvAtStart(cfg: Config)
    ensures Inv(cfg, Init(cfg))
  {
  }

  lemma StepKeepsInv(cfg: Config, s: SystemState, a: Action)
    requires Inv(cfg, s) && Enabled(cfg, s, a)
    ensures Inv(cfg, Apply(cfg, s, a))
  {
    StepKeepsQueueFacts(cfg, s, a);
    StepKeepsClaimFacts(cfg, s, a);
    StepKeepsExecutionFacts(cfg, s, a);
    StepKeepsLogFacts(cfg, s, a);
    StepKeepsRetireFacts(cfg, s, a);
  }

  lemma {:induction false} RunKeepsInv(cfg: Config, s: SystemState, actions: seq<Action>)
    requires Inv(cfg, s) && IsRun(cfg, s, actions)
    ensures Inv(cfg, After(cfg, s, actions))
    decreases |actions|
  {
    if actions != [] {
      StepKeepsInv(cfg, s, actions[0]);
      RunKeepsInv(cfg, Apply(cfg, s, actions[0]), actions[1..]);
    }
  }

  function End(cfg: Config, actions: seq<Action>): SystemState
    requires IsRun(cfg, Init(cfg), actions)
  {
    After(cfg, Init(cfg), actions)
  }

  lemma EveryRun(cfg: Config, actions: seq<Action>)
    requires IsRun(cfg, Init(cfg), actions)
    ensures Inv(cfg, End(cfg, actions))
  {
    InvAtStart(cfg);
    RunKeepsInv(cfg, Init(cfg), actions);
  }

  /* ---------- deliveries ---------- */

  /** Action n of the run brought the result at place i of the log, while the store's claims were those of t. */
  predicate DeliveredAt(
    cfg: Config, actions: seq<Action>, n: nat, i: nat, t: SystemState, r: WorkResult, origin: Option<Job>)
  {
    && n < |actions| && IsRun(cfg, Init(cfg), actions[..n]) && t == End(cfg, actions[..n])
    && |t.store.completed| == i
    && Brought(t, actions[n]).Some? && r == Brought(t, actions[n]).value.Clone()
    && origin == ClaimedJob(t.store, r.jobId)
  }

  lemma OneOriginPerResult(cfg: Config, actions: seq<Action>)
    requires IsRun(cfg, Init(cfg), actions)
    ensures |End(cfg, actions).origins| == |End(cfg, actions).store.completed|
  {
    EveryRun(cfg, actions);
  }

  lemma {:induction false} OriginOf(cfg: Config, actions: seq<Action>, i: nat) returns (n: nat, t: SystemState)
    requires IsRun(cfg, Init(cfg), actions) && i < |End(cfg, actions).origins|
    ensures var s := End(cfg, actions);
      i < |s.store.completed| && DeliveredAt(cfg, actions, n, i, t, s.store.completed[i], s.origins[i])
    decreases |actions|
  {
    OneOriginPerResult(cfg, actions);
    if actions != [] {
      var last := |actions| - 1;
      var front := actions[..last];
      assert actions == front + [actions[last]];
      RunSplit(cfg, Init(cfg), front, actions[last]);
      OneOriginPerResult(cfg, front);
      StepExtendsLogs(cfg, End(cfg, front), actions[last]);
      if i < |End(cfg, front).origins| {
        n, t := OriginOf(cfg, front, i);
        assert front[..n] == actions[..n];
      } else {
        n, t := last, End(cfg, front);
      }
    }
  }

  lemma {:induction false} OriginsOnlyGrow(cfg: Config, s: SystemState, actions: seq<Action>)
    requires IsRun(cfg, s, actions)
    ensures s.origins <= After(cfg, s, actions).origins
    decreases |actions|
  {
    if actions != [] {
      StepExtendsLogs(cfg, s, actions[0]);
      OriginsOnlyGrow(cfg, Apply(cfg, s, actions[0]), actions[1..]);
    }
  }

  /** What was claimed at a delivery is the origin kept for it. */
  lemma DeliveredOrigin(
    cfg: Config, actions: seq<Action>, n: nat, i: nat, t: SystemState, r: WorkResult, origin: Option<Job>)
    requires IsRun(cfg, Init(cfg), actions) && DeliveredAt(cfg, actions, n, i, t, r, origin)
    ensures i < |End(cfg, actions).origins| && End(cfg, actions).origins[i] == origin
  {
    var front, back := actions[..n + 1], actions[n + 1..];
    assert actions == front + back && front == actions[..n] + [actions[n]];
    RunCompose(cfg, Init(cfg), front, back);
    RunSplit(cfg, Init(cfg), actions[..n], actions[n]);
    OneOriginPerResult(cfg, actions[..n]);
    StepExtendsLogs(cfg, t, actions[n]);
    OriginsOnlyGrow(cfg, End(cfg, front), back);
  }

  /** At some moment of the run a result under this id came in while a job was claimed under it. */
  ghost predicate WasFinished(cfg: Config, actions: seq<Action>, id: string)
    requires IsRun(cfg, Init(cfg), actions)
  {
    exists n: nat, i: nat, t, job ::
      i < |End(cfg, actions).store.completed| && End(cfg, actions).store.completed[i].jobId == id
      && DeliveredAt(cfg, actions, n, i, t, End(cfg, actions).store.completed[i], Some(job))
  }

  lemma WasFinishedIff(cfg: Config, actions: seq<Action>, id: string)
    requires IsRun(cfg, Init(cfg), actions)
    ensures var s := End(cfg, actions);
      WasFinished(cfg, actions, id) <==> FinishedUnder(s.store.completed, s.origins, id)
  {
    var s := End(cfg, actions);
    if FinishedUnder(s.store.completed, s.origins, id) {
      var i :| 0 <= i < |s.origins| && i < |s.store.completed|
        && s.origins[i].Some? && s.store.completed[i].jobId == id;
      var n, t := OriginOf(cfg, actions, i);
      assert DeliveredAt(cfg, actions, n, i, t, s.store.completed[i], Some(s.origins[i].value));
    }
    if WasFinished(cfg, actions, id) {
      var n: nat, i: nat, t, job :| i < |s.store.completed| && s.store.completed[i].jobId == id
        && DeliveredAt(cfg, actions, n, i, t, s.store.completed[i], Some(job));
      DeliveredOrigin(cfg, actions, n, i, t, s.store.completed[i], Some(job));
    }
  }

  lemma RetiredIff(cfg: Config, actions: seq<Action>, slot: nat)
    requires IsRun(cfg, Init(cfg), actions)
    requires slot < |End(cfg, actions).enqueued| && DistinctJobIds(End(cfg, actions).enqueued)
    ensures slot in End(cfg, actions).retired <==> WasFinished(cfg, actions, End(cfg, actions).enqueued[slot].job.id)
  {
    EveryRun(cfg, actions);
    WasFinishedIff(cfg, actions, End(cfg, actions).enqueued[slot].job.id);
  }

  /* ---------- jobs ---------- */

  /** The jobs enqueued are the jobs pending and the jobs handed out, counted with repetitions, whatever their ids. */
  lemma JobsAreConserved(cfg: Config, actions: seq<Action>)
    requires IsRun(cfg, Init(cfg), actions)
    ensures var s := End(cfg, actions);
      && SlotsExist(|s.enqueued|, s.handouts)
      && multiset(s.enqueued) == multiset(s.store.pending) + multiset(HandedJobs(s.enqueued, s.handouts))
      && forall i, j :: 0 <= i < j < |s.handouts| ==> s.handouts[i].slot != s.handouts[j].slot
  {
    EveryRun(cfg, actions);
  }

  /**
   * With distinct ids every job is in exactly one of pending, claimed and retired. It is claimed under its own id, and
   * retired exactly when a result under its id came in while it was claimed.
   */
  lemma DistinctJobsHaveOnePlace(cfg: Config, actions: seq<Action>, slot: nat)
    requires IsRun(cfg, Init(cfg), actions)
    requires slot < |End(cfg, actions).enqueued| && DistinctJobIds(End(cfg, actions).enqueued)
    ensures var s, job := End(cfg, actions), End(cfg, actions).enqueued[slot].job;
      && (slot in s.queue <==> s.enqueued[slot] in s.store.pending)
      && (IsClaimed(s, slot) <==> job.id in s.store.claimed)
      && (job.id in s.store.claimed ==> s.store.claimed[job.id] == job.Clone())
      && (if slot in s.queue then !IsClaimed(s, slot) && slot !in s.retired
          else IsClaimed(s, slot) != (slot in s.retired))
      && (slot in s.retired <==> WasFinished(cfg, actions, job.id))
  {
    EveryRun(cfg, actions);
    RetiredIff(cfg, actions, slot);
    var s := End(cfg, actions);
    var id := s.enqueued[slot].job.id;
    JobsArePartitioned(s, slot);
    if s.enqueued[slot] in s.store.pending {
      var i :| 0 <= i < |s.store.pending| && s.store.pending[i] == s.enqueued[slot];
      assert s.enqueued[s.queue[i]].job.id == id;
    }
    if slot in s.queue {
      var i :| 0 <= i < |s.queue| && s.queue[i] == slot;
      assert s.store.pending[i] == s.enqueued[slot];
    }
    if id in s.claimedSlot {
      assert GoodClaim(s.enqueued, s.handouts, s.retired, id, s.claimedSlot[id], s.store.claimed[id]);
    }
  }

  /** The jobs of any two enqueuings under one id, both claimed by one outsider. */
  function TwoClaims(x: SignedJob, y: SignedJob, info: Info): seq<Action> {
    [Enqueue(x), Enqueue(y), ClaimByOther(info), ClaimByOther(info)]
  }

  /** With equal ids the claim of the second job overwrites that of the first, which nothing stands for any more. */
  lemma NamesakeIsLost(cfg: Config, x: SignedJob, y: SignedJob, info: Info)
    requires x.job.id == y.job.id && Matches(info, x.job.Clone().selector) && Matches(info, y.job.Clone().selector)
    ensures IsRun(cfg, Init(cfg), TwoClaims(x, y, info))
    ensures var s := End(cfg, TwoClaims(x, y, info));
      Lost(s, 0) && IsClaimed(s, 1) && s.store.claimed == map[x.job.id := y.Clone().job.Clone()]
  {
    var s0 := Init(cfg);
    var s1 := Apply(cfg, s0, Enqueue(x));
    var s2 := Apply(cfg, s1, Enqueue(y));
    TwoEnqueued(cfg, x, y);
    ClaimFirst(cfg, s2, info);
    OneClaimed(s2, x, y);
    var s3 := HandOut(s2, 0, None);
    ClaimFirst(cfg, s3, info);
    TwoClaimed(s3, x, y);
    FourSteps(cfg, s0, Enqueue(x), Enqueue(y), ClaimByOther(info), ClaimByOther(info));
  }

  /** The two jobs wait, and nothing else has happened. */
  predicate BothWait(s: SystemState, x: SignedJob, y: SignedJob) {
    && s.enqueued == s.store.pending == [x.Clone(), y.Clone()] && s.queue == [0, 1]
    && s.store.claimed == map[] && s.claimedSlot == map[] && s.retired == {} && s.handouts == []
  }

  lemma TwoEnqueued(cfg: Config, x: SignedJob, y: SignedJob)
    ensures BothWait(Apply(cfg, Apply(cfg, Init(cfg), Enqueue(x)), Enqueue(y)), x, y)
  {
  }

  /** The first is claimed, the second waits. */
  predicate OneWaits(s: SystemState, x: SignedJob, y: SignedJob) {
    && s.enqueued == [x.Clone(), y.Clone()] && s.store.pending == [y.Clone()] && s.queue == [1]
    && s.store.claimed == map[x.job.id := x.Clone().job.Clone()] && s.claimedSlot == map[x.job.id := 0]
    && s.retired == {} && s.handouts == [Handout(0, None)]
  }

  lemma OneClaimed(s: SystemState, x: SignedJob, y: SignedJob)
    requires BothWait(s, x, y)
    ensures OneWaits(HandOut(s, 0, None), x, y)
  {
  }

  lemma TwoClaimed(s: SystemState, x: SignedJob, y: SignedJob)
    requires OneWaits(s, x, y) && x.job.id == y.job.id
    ensures var t := HandOut(s, 0, None);
      Lost(t, 0) && IsClaimed(t, 1) && t.store.claimed == map[x.job.id := y.Clone().job.Clone()]
  {
    assert HandOut(s, 0, None).handouts[0].slot == 0;
  }

  lemma ClaimFirst(cfg: Config, s: SystemState, info: Info)
    requires s.store.pending != [] && Matches(info, s.store.pending[0].job.selector)
    ensures Enabled(cfg, s, ClaimByOther(info)) && Apply(cfg, s, ClaimByOther(info)) == HandOut(s, 0, None)
  {
    assert FirstMatch(s.store.pending, info) == Some(0);
  }

  lemma FourSteps(cfg: Config, s: SystemState, a: Action, b: Action, c: Action, d: Action)
    requires Enabled(cfg, s, a) && Enabled(cfg, Apply(cfg, s, a), b)
    requires Enabled(cfg, Apply(cfg, Apply(cfg, s, a), b), c)
    requires Enabled(cfg, Apply(cfg, Apply(cfg, Apply(cfg, s, a), b), c), d)
    ensures IsRun(cfg, s, [a, b, c, d])
    ensures After(cfg, s, [a, b, c, d]) == Apply(cfg, Apply(cfg, Apply(cfg, Apply(cfg, s, a), b), c), d)
  {
    var s1 := Apply(cfg, s, a);
    var s2 := Apply(cfg, s1, b);
    var s3 := Apply(cfg, s2, c);
    var s4 := Apply(cfg, s3, d);
    assert [d][1..] == [] && [c, d][1..] == [d] && [b, c, d][1..] == [c, d] && [a, b, c, d][1..] == [b, c, d];
    assert IsRun(cfg, s4, []) && After(cfg, s4, []) == s4;
    assert IsRun(cfg, s3, [d]) && After(cfg, s3, [d]) == s4;
    assert IsRun(cfg, s2, [c, d]) && After(cfg, s2, [c, d]) == s4;
    assert IsRun(cfg, s1, [b, c, d]) && After(cfg, s1, [b, c, d]) == s4;
  }

  /** Over a whole run, a job that asks for no more than a later one is handed out before it. */
  lemma EarlierJobsGoFirst(cfg: Config, actions: seq<Action>, a: nat, b: nat)
    requires IsRun(cfg, Init(cfg), actions)
    requires var s := End(cfg, actions);
      a < b < |s.enqueued| && AsksNoMore(s.enqueued[a].job.selector, s.enqueued[b].job.selector) && b !in s.queue
    ensures var s := End(cfg, actions);
      exists i, j :: 0 <= i < j < |s.handouts| && s.handouts[i].slot == a && s.handouts[j].slot == b
  {
    EveryRun(cfg, actions);
    var s := End(cfg, actions);
    assert Handed(s.handouts, b);
    var j :| 0 <= j < |s.handouts| && s.handouts[j].slot == b;
    assert HandedBefore(s.handouts, j, a);
  }

  /* ---------- executor calls ---------- */

  /** Action n of the run called the executor of step j of the job in slot, with success, and r is what came back. */
  predicate StepTaken(cfg: Config, actions: seq<Action>, n: nat, w: nat, slot: nat, j: nat, r: StepResult) {
    && n < |actions| && IsRun(cfg, Init(cfg), actions[..n]) && w < |cfg.workers|
    && actions[n].RunStep? && actions[n].w == w
    && SucceedsWith(cfg.workers[w].registered, End(cfg, actions[..n]), actions[n], slot, j, r)
  }

  predicate SucceedsWith(registered: set<string>, t: SystemState, a: Action, slot: nat, j: nat, r: StepResult)
    requires a.RunStep?
  {
    && IsBusy(t, a.w) && t.workers[a.w].slot == slot
    && HasStep(t.workers[a.w].phase) && t.workers[a.w].phase.next == j
    && CurrentStep(t.workers[a.w].phase).executor in registered
    && a.outcome.err.None? && (a.outcome.result.status == Succeeded || a.outcome.result.status == Unset)
    && r == Normalized(CurrentStep(t.workers[a.w].phase), a.outcome, a.startedAt, a.clock)
  }

  function ResultsOf(b: WorkerState): seq<StepResult>
    requires b.Busy?
  {
    b.phase.result.steps.Elems()
  }

  predicate IsExecuting(s: SystemState, w: nat) { IsBusy(s, w) && s.workers[w].phase.Executing? }

  /** How a worker can have come to be executing: it was so before, has just verified, or has just taken a step. */
  lemma ExecutingBefore(cfg: Config, s: SystemState, a: Action, w: nat)
    requires Enabled(cfg, s, a) && IsExecuting(Apply(cfg, s, a), w)
    ensures w < |s.workers|
    ensures var b, c := s.workers[w], Apply(cfg, s, a).workers[w];
      || b == c
      || (a.VerifyClaimed? && a.w == w && b.Busy? && b.phase.Verifying? && ResultsOf(c) == ResultsOf(b))
      || (a.RunStep? && a.w == w && TakesStep(cfg, s, a, c))
  {
    if a.RunStep? && a.w == w {
      StepThatSucceeds(cfg, s, a);
    }
  }

  predicate TakesStep(cfg: Config, s: SystemState, a: Action, c: WorkerState)
    requires a.RunStep?
  {
    && a.w < |cfg.workers| && IsBusy(s, a.w) && HasStep(s.workers[a.w].phase) && c.Busy?
    && c.slot == s.workers[a.w].slot
    && |ResultsOf(c)| == |ResultsOf(s.workers[a.w])| + 1 && ResultsOf(s.workers[a.w]) <= ResultsOf(c)
    && SucceedsWith(cfg.workers[a.w].registered, s, a, c.slot, s.workers[a.w].phase.next,
       ResultsOf(c)[|ResultsOf(c)| - 1])
  }

  lemma StepThatSucceeds(cfg: Config, s: SystemState, a: Action)
    requires a.RunStep? && Enabled(cfg, s, a) && IsExecuting(Apply(cfg, s, a), a.w)
    ensures TakesStep(cfg, s, a, Apply(cfg, s, a).workers[a.w])
  {
  }

  /** As many results as steps taken, and none before verification. */
  lemma ResultsCount(cfg: Config, actions: seq<Action>, w: nat)
    requires IsRun(cfg, Init(cfg), actions) && IsBusy(End(cfg, actions), w)
    ensures var b := End(cfg, actions).workers[w];
      && (b.phase.Verifying? ==> ResultsOf(b) == [])
      && (b.phase.Executing? ==> |ResultsOf(b)| == b.phase.next)
  {
    EveryRun(cfg, actions);
    var s := End(cfg, actions);
    assert GoodWorker(cfg, s.enqueued, s.handouts, s.calls, w, s.workers[w]);
  }

  /** Every result that an executing worker has collected came from its own successful call of the executor. */
  lemma {:induction false} ResultStems(cfg: Config, actions: seq<Action>, w: nat, j: nat) returns (n: nat)
    requires IsRun(cfg, Init(cfg), actions) && IsExecuting(End(cfg, actions), w)
    requires j < |ResultsOf(End(cfg, actions).workers[w])|
    ensures var b := End(cfg, actions).workers[w]; StepTaken(cfg, actions, n, w, b.slot, j, ResultsOf(b)[j])
    decreases |actions|
  {
    if actions != [] {
      var last := |actions| - 1;
      var front, a := actions[..last], actions[last];
      assert actions == front + [a];
      RunSplit(cfg, Init(cfg), front, a);
      var s := End(cfg, front);
      ExecutingBefore(cfg, s, a, w);
      if s.workers[w].Busy? {
        ResultsCount(cfg, front, w);
        if j < |ResultsOf(s.workers[w])| {
          n := ResultStems(cfg, front, w, j);
          assert front[..n] == actions[..n];
        } else {
          n := last;
        }
      }
    }
  }

  lemma NewCall(cfg: Config, s: SystemState, a: Action)
    requires Enabled(cfg, s, a)
    ensures var t := Apply(cfg, s, a);
      t.calls == s.calls || (a.RunStep? && IsExecuting(s, a.w) && HasStep(s.workers[a.w].phase)
                             && t.calls == s.calls + [CallOf(a.w, s.workers[a.w])])
  {
    if a.RunStep? {
      var r := RunStepTakesStep(cfg, s, a.w, a.outcome, a.startedAt, a.clock);
    }
  }

  lemma StillTaken(cfg: Config, front: seq<Action>, a: Action, n: nat, c: ExecutorCall, j: nat)
    requires j < |c.earlier| && StepTaken(cfg, front, n, c.worker, c.slot, j, c.earlier[j])
    ensures StepTaken(cfg, front + [a], n, c.worker, c.slot, j, c.earlier[j])
  {
    assert (front + [a])[..n] == front[..n];
  }

  /** So did every earlier result an executor call was made with. */
  lemma {:induction false} EarlierStems(cfg: Config, actions: seq<Action>, i: nat, j: nat) returns (n: nat)
    requires IsRun(cfg, Init(cfg), actions) && i < |End(cfg, actions).calls|
    requires j < |End(cfg, actions).calls[i].earlier|
    ensures var c := End(cfg, actions).calls[i]; StepTaken(cfg, actions, n, c.worker, c.slot, j, c.earlier[j])
    decreases |actions|
  {
    if actions != [] {
      var last := |actions| - 1;
      var front, a := actions[..last], actions[last];
      assert actions == front + [a];
      RunSplit(cfg, Init(cfg), front, a);
      var s := End(cfg, front);
      NewCall(cfg, s, a);
      if i < |s.calls| {
        n := EarlierStems(cfg, front, i, j);
        StillTaken(cfg, front, a, n, s.calls[i], j);
      } else {
        n := ResultStems(cfg, front, a.w, j);
        StillTaken(cfg, front, a, n, CallOf(a.w, s.workers[a.w]), j);
      }
    }
  }

  /** Each of the earlier results is what a successful executor call of the same cycle returned. */
  ghost predicate EarlierReturned(cfg: Config, actions: seq<Action>, c: ExecutorCall) {
    forall j: nat :: j < |c.earlier| ==> Returned(cfg, actions, c, j)
  }

  ghost predicate Returned(cfg: Config, actions: seq<Action>, c: ExecutorCall, j: nat)
    requires j < |c.earlier|
  {
    exists n: nat :: StepTaken(cfg, actions, n, c.worker, c.slot, j, c.earlier[j])
  }

  lemma AllEarlierReturned(cfg: Config, actions: seq<Action>, i: nat)
    requires IsRun(cfg, Init(cfg), actions) && i < |End(cfg, actions).calls|
    ensures EarlierReturned(cfg, actions, End(cfg, actions).calls[i])
  {
    var c := End(cfg, actions).calls[i];
    forall j: nat | j < |c.earlier| ensures Returned(cfg, actions, c, j) {
      var n := EarlierStems(cfg, actions, i, j);
    }
  }

  /**
   * Every executor call in every run: the job was handed to the calling worker and to nobody else, that worker had
   * verified it (MAC, well formed, gates, not expired) and matches its selector, the executor is registered, and every
   * earlier step of the plan was called for by the same worker, whose executor returned success with that result.
   */
  lemma ExecutorCallsAreSafe(cfg: Config, actions: seq<Action>, i: nat)
    requires IsRun(cfg, Init(cfg), actions) && i < |End(cfg, actions).calls|
    ensures var s, c := End(cfg, actions), End(cfg, actions).calls[i];
      && HoldsJob(cfg, s.enqueued, s.handouts, c.worker, c.slot, c.received)
      && (forall h :: h in s.handouts && h.slot == c.slot ==> h.taker == Some(c.worker))
      && Vouched(cfg.crypto, cfg.workers[c.worker].verifier, c.received, c.job, c.verifiedAt)
      && Matches(cfg.workers[c.worker].info, c.job.selector)
      && c.index < |c.job.plan.steps.Elems()|
      && c.job.plan.steps.Elems()[c.index].executor in cfg.workers[c.worker].registered
      && |c.earlier| == c.index && AllSucceeded(c.earlier)
      && (forall j :: 0 <= j < c.index ==> Logged(s.calls, i, c.worker, c.slot, c.earlier[..j]))
      && EarlierReturned(cfg, actions, c)
  {
    EveryRun(cfg, actions);
    var s, c := End(cfg, actions), End(cfg, actions).calls[i];
    assert GoodCall(cfg, s.enqueued, s.handouts, c);
    assert StepsLogged(s.calls, i, c.worker, c.slot, c.earlier);
    AllEarlierReturned(cfg, actions, i);
  }

  /** With distinct ids no two calls are for the same step of the same job. */
  lemma StepsRunAtMostOnce(cfg: Config, actions: seq<Action>, i: nat, j: nat)
    requires IsRun(cfg, Init(cfg), actions) && i < j < |End(cfg, actions).calls|
    requires DistinctJobIds(End(cfg, actions).enqueued)
    ensures var calls := End(cfg, actions).calls;
      calls[i].job.id != calls[j].job.id || calls[i].index != calls[j].index
  {
    EveryRun(cfg, actions);
    var s := End(cfg, actions);
    CallOfEnqueued(cfg, s, i);
    CallOfEnqueued(cfg, s, j);
  }

  lemma CallOfEnqueued(cfg: Config, s: SystemState, i: nat)
    requires ExecutionFacts(cfg, s) && i < |s.calls|
    ensures var c := s.calls[i]; c.slot < |s.enqueued| && s.enqueued[c.slot].job.id == c.job.id
  {
    var c := s.calls[i];
    assert GoodCall(cfg, s.enqueued, s.handouts, c);
    assert Canon(s.enqueued[c.slot].job) == Canon(c.received.job);
  }

  /**
   * In every run, a job that Sign accepted under the worker's key and that is verified in time is executed as
   * it was signed.
   */
  lemma HonestJobsAreExecuted(
    cfg: Config, actions: seq<Action>, w: nat, now: Time, clock: Time, job: Job, keyId: string)
    requires IsRun(cfg, Init(cfg), actions) && Enabled(cfg, End(cfg, actions), VerifyClaimed(w, now, clock))
    requires HonestlyHolds(cfg, End(cfg, actions), w, job, keyId) && !job.Expired(now)
    ensures ExecutesAsSigned(Apply(cfg, End(cfg, actions), VerifyClaimed(w, now, clock)), w, job)
  {
    EveryRun(cfg, actions);
    HonestJobIsExecuted(cfg, End(cfg, actions), w, now, clock, job, keyId);
  }

  /* ---------- results ---------- */

  /**
   * Every evidence bundle tells of the result at the same place in the other log, and of the job claimed under that
   * result's id in the state t in which action n of the run delivered it, or blanks when none was claimed then.
   */
  lemma EvidenceMirrorsResults(cfg: Config, actions: seq<Action>, i: nat) returns (n: nat, t: SystemState)
    requires IsRun(cfg, Init(cfg), actions) && i < |End(cfg, actions).store.evidence|
    ensures var s := End(cfg, actions);
      && |s.store.evidence| == |s.store.completed|
      && var r := s.store.completed[i];
      var origin := ClaimedJob(t.store, r.jobId);
      && DeliveredAt(cfg, actions, n, i, t, r, origin)
      && Describes(s.store.evidence[i], origin, r)
      && GoodOrigin(s.enqueued, s.handouts, origin, r.jobId)
  {
    EveryRun(cfg, actions);
    n, t := OriginOf(cfg, actions, i);
  }

  /** What the two bundles must share: everything but the errors, up to nil and empty collections. */
  function SharedPart(b: Bundle): Bundle {
    b.(artifacts := CanonSlice(CanonArtifact, b.artifacts), steps := SliceOf(b.steps.Elems()),
       labels := CanonDict(b.labels), errors := NilSlice)
  }

  /**
   * In every run, when a worker's result reaches the store while the job in its hands is the one claimed under the
   * result's id, the store's evidence and the bundle the worker recorded agree in all but the error.
   */
  lemma WorkerAndStoreAgree(cfg: Config, actions: seq<Action>, w: nat)
    requires IsRun(cfg, Init(cfg), actions) && Enabled(cfg, End(cfg, actions), Complete(w, true))
    requires var s, b := End(cfg, actions), End(cfg, actions).workers[w];
      b.phase.result.jobId in s.claimedSlot && s.claimedSlot[b.phase.result.jobId] == b.slot
    ensures var s := End(cfg, actions);
      var t := Apply(cfg, s, Complete(w, true));
      && |t.store.evidence| == |s.store.evidence| + 1
      && SharedPart(t.store.evidence[|s.store.evidence|]) == SharedPart(BundleOf(s.workers[w].phase))
  {
    EveryRun(cfg, actions);
    var s := End(cfg, actions);
    var b, id := s.workers[w], s.workers[w].phase.result.jobId;
    assert GoodWorker(cfg, s.enqueued, s.handouts, s.calls, w, b);
    assert GoodClaim(s.enqueued, s.handouts, s.retired, id, b.slot, s.store.claimed[id]);
    CanonOfClone(s.enqueued[b.slot].job);
    BundlesOfOneJob(b.phase, s.store.claimed[id]);
  }

  lemma BundlesOfOneJob(p: Phase, claimed: Job)
    requires p.Recording? && Canon(p.job) == Canon(claimed)
    ensures SharedPart(EvidenceFor(Some(claimed), p.result.Clone().Clone())) == SharedPart(BundleOf(p))
  {
    assert CanonPlan(p.job.plan) == CanonPlan(claimed.plan);
  }

  /** The index holds under k exactly the last listing of k that no later inventory has swept. */
  lemma IndexIsItsHistory(cfg: Config, actions: seq<Action>, k: string)
    requires IsRun(cfg, Init(cfg), actions)
    ensures var s := End(cfg, actions);
      && Keyed(s.store.components)
      && (k in s.store.components <==> exists i :: Survives(s.observed, i, k))
      && forall i :: Survives(s.observed, i, k) ==>
           k in s.store.components && s.store.components[k] == LastListed(s.observed[i].components, k).value
  {
    EveryRun(cfg, actions);
    IndexOfHistory(End(cfg, actions).observed, k);
    ObserveAllKeepsKeyed(map[], End(cfg, actions).observed);
  }

  function ObservedSince(s: SystemState, t: SystemState): seq<Observation> {
    if |s.observed| <= |t.observed| then t.observed[|s.observed|..] else []
  }

  /**
   * In any continuation of a run, a component that nothing lists again stays in the index as it is, if its runtime is
   * not "kubernetes", or if no inventory of its environment comes in.
   */
  lemma OtherComponentsStay(cfg: Config, actions: seq<Action>, more: seq<Action>, k: string)
    requires IsRun(cfg, Init(cfg), actions) && IsRun(cfg, End(cfg, actions), more)
    requires var s, t := End(cfg, actions), After(cfg, End(cfg, actions), more);
      k in s.store.components && LeftAlone(s.store.components[k], ObservedSince(s, t))
    ensures var s, t := End(cfg, actions), After(cfg, End(cfg, actions), more);
      k in t.store.components && t.store.components[k] == s.store.components[k]
  {
    IndexIsItsHistory(cfg, actions, k);
    var s := End(cfg, actions);
    var os := IndexChanges(cfg, s, more);
    assert ObservedSince(s, After(cfg, s, more)) == os;
    LeftAloneStays(s.store.components, os, k);
  }

  /** Whatever a worker is about to record and complete is a final result. */
  lemma WorkersReportFinalResults(cfg: Config, actions: seq<Action>, w: nat)
    requires IsRun(cfg, Init(cfg), actions) && IsBusy(End(cfg, actions), w)
    ensures var b := End(cfg, actions).workers[w];
      b.phase.Recording? ==> FinalResult(b.phase.job, b.phase.result, b.phase.failure)
  {
    EveryRun(cfg, actions);
    var s := End(cfg, actions);
    assert GoodWorker(cfg, s.enqueued, s.handouts, s.calls, w, s.workers[w]);
  }
}
