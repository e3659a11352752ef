/** What an executor may rely on, in every run: who called it, for which job, and after which steps. */
module Execution {
  import opened Prelude
  import opened Text
  import opened Deploy
  import opened Selection
  import opened Wire
  import opened Signing
  import opened StoreSpec
  import opened RunnerSpec
  import opened Protocol
  import opened Queueing

  /** An earlier call of the same worker cycle, with exactly these results before it. */
  predicate Logged(calls: seq<ExecutorCall>, n: nat, w: nat, slot: nat, earlier: seq<StepResult>) {
    exists m ::
      0 <= m < n && m < |calls| && calls[m].worker == w && calls[m].slot == slot && calls[m].earlier == earlier
  }

  /** The plan is run in order: before these results came in, a call was made for each of them. */
  predicate StepsLogged(calls: seq<ExecutorCall>, n: nat, w: nat, slot: nat, results: seq<StepResult>) {
    forall j :: 0 <= j < |results| ==> Logged(calls, n, w, slot, results[..j])
  }

  /** The job in hand was handed to this worker, which matches it, and arrived up to nil and empty collections. */
  predicate HoldsJob(
    cfg: Config, enqueued: seq<SignedJob>, handouts: seq<Handout>, w: nat, slot: nat, received: SignedJob)
  {
    && w < |cfg.workers|
    && TakenBy(handouts, slot, w)
    && slot < |enqueued| && SameOnWire(enqueued[slot], received)
    && Matches(cfg.workers[w].info, enqueued[slot].job.selector)
  }

  predicate Trusts(cfg: Config, w: nat, received: SignedJob, verifiedAt: Time, job: Job) {
    && w < |cfg.workers|
    && Vouched(cfg.crypto, cfg.workers[w].verifier, received, job, verifiedAt)
    && Matches(cfg.workers[w].info, job.selector)
  }

  predicate GoodWorker(
    cfg: Config, enqueued: seq<SignedJob>, handouts: seq<Handout>, calls: seq<ExecutorCall>, w: nat, b: WorkerState)
  {
    b.Busy? ==>
      && HoldsJob(cfg, enqueued, handouts, w, b.slot, b.received)
      && GoodPhase(b.phase)
      && (b.phase.Verifying? ==> b.phase.signed == b.received)
      && (b.phase.Executing? ==>
            && Trusts(cfg, w, b.received, b.verifiedAt, b.phase.job)
            && StepsLogged(calls, |calls|, w, b.slot, b.phase.result.steps.Elems()))
      && (b.phase.Recording? ==> Canon(b.phase.job) == Canon(b.received.job))
  }

  /** The claim about a single call. */
  predicate GoodCall(cfg: Config, enqueued: seq<SignedJob>, handouts: seq<Handout>, c: ExecutorCall) {
    && HoldsJob(cfg, enqueued, handouts, c.worker, c.slot, c.received)
    && Trusts(cfg, c.worker, c.received, c.verifiedAt, c.job)
    && c.index < |c.job.plan.steps.Elems()|
    && c.job.plan.steps.Elems()[c.index].executor in cfg.workers[c.worker].registered
    && |c.earlier| == c.index && AllSucceeded(c.earlier)
  }

  /** A busy worker is past this call of its own job. */
  predicate IsPast(b: WorkerState, c: ExecutorCall) {
    b.Busy? && b.slot == c.slot ==> b.phase.Recording? || (b.phase.Executing? && c.index < b.phase.next)
  }

  predicate WorkersInv(cfg: Config, s: SystemState) {
    forall w :: 0 <= w < |s.workers| ==> GoodWorker(cfg, s.enqueued, s.handouts, s.calls, w, s.workers[w])
  }

  predicate CallsInv(cfg: Config, s: SystemState) {
    && (forall i :: 0 <= i < |s.calls| ==> GoodCall(cfg, s.enqueued, s.handouts, s.calls[i]))
    && (forall i :: 0 <= i < |s.calls| ==>
          StepsLogged(s.calls, i, s.calls[i].worker, s.calls[i].slot, s.calls[i].earlier))
  }

  /** No step of a plan is passed to an executor twice. */
  predicate OncePerStep(calls: seq<ExecutorCall>) {
    forall i, j :: 0 <= i < j < |calls| ==> calls[i].slot != calls[j].slot || calls[i].index != calls[j].index
  }

  predicate PastInv(s: SystemState) {
    forall w, i :: 0 <= w < |s.workers| && 0 <= i < |s.calls| ==> IsPast(s.workers[w], s.calls[i])
  }

  predicate ExecutionFacts(cfg: Config, s: SystemState) {
    WorkersInv(cfg, s) && CallsInv(cfg, s) && OncePerStep(s.calls) && PastInv(s)
  }

  /* ---------- facts that only grow ---------- */

  predicate Grows(s: SystemState, t: SystemState) {
    s.enqueued <= t.enqueued && s.handouts <= t.handouts && s.calls <= t.calls && |s.workers| == |t.workers|
  }

  lemma HoldsJobGrows(cfg: Config, s: SystemState, t: SystemState, w: nat, slot: nat, received: SignedJob)
    requires Grows(s, t) && HoldsJob(cfg, s.enqueued, s.handouts, w, slot, received)
    ensures HoldsJob(cfg, t.enqueued, t.handouts, w, slot, received)
  {
    assert Handout(slot, Some(w)) in s.handouts ==> Handout(slot, Some(w)) in t.handouts;
    assert s.enqueued[slot] == t.enqueued[slot];
  }

  lemma LoggedGrows(
    a: seq<ExecutorCall>, b: seq<ExecutorCall>, n: nat, m: nat, w: nat, slot: nat, earlier: seq<StepResult>)
    requires a <= b && n <= m && Logged(a, n, w, slot, earlier)
    ensures Logged(b, m, w, slot, earlier)
  {
    var k :| 0 <= k < n && k < |a| && a[k].worker == w && a[k].slot == slot && a[k].earlier == earlier;
    assert b[k] == a[k];
  }

  lemma StepsLoggedGrows(
    a: seq<ExecutorCall>, b: seq<ExecutorCall>, n: nat, m: nat, w: nat, slot: nat, results: seq<StepResult>)
    requires a <= b && n <= m && StepsLogged(a, n, w, slot, results)
    ensures StepsLogged(b, m, w, slot, results)
  {
    forall j | 0 <= j < |results| ensures Logged(b, m, w, slot, results[..j]) {
      LoggedGrows(a, b, n, m, w, slot, results[..j]);
    }
  }

  lemma GoodWorkerGrows(cfg: Config, s: SystemState, t: SystemState, w: nat, b: WorkerState)
    requires Grows(s, t) && GoodWorker(cfg, s.enqueued, s.handouts, s.calls, w, b)
    ensures GoodWorker(cfg, t.enqueued, t.handouts, t.calls, w, b)
  {
    if b.Busy? {
      HoldsJobGrows(cfg, s, t, w, b.slot, b.received);
      if b.phase.Executing? {
        StepsLoggedGrows(s.calls, t.calls, |s.calls|, |t.calls|, w, b.slot, b.phase.result.steps.Elems());
      }
    }
  }

  lemma OldCallsStayGood(cfg: Config, s: SystemState, t: SystemState, i: nat)
    requires Grows(s, t) && CallsInv(cfg, s) && i < |s.calls|
    ensures t.calls[i] == s.calls[i] && GoodCall(cfg, t.enqueued, t.handouts, t.calls[i])
    ensures StepsLogged(t.calls, i, t.calls[i].worker, t.calls[i].slot, t.calls[i].earlier)
  {
    var c := s.calls[i];
    assert t.calls[i] == c;
    assert GoodCall(cfg, s.enqueued, s.handouts, c);
    HoldsJobGrows(cfg, s, t, c.worker, c.slot, c.received);
    StepsLoggedGrows(s.calls, t.calls, i, i, c.worker, c.slot, c.earlier);
  }

  /** Everything that is to be known of one worker. */
  predicate GoodIn(cfg: Config, s: SystemState, w: nat, b: WorkerState) {
    GoodWorker(cfg, s.enqueued, s.handouts, s.calls, w, b) && forall i :: 0 <= i < |s.calls| ==> IsPast(b, s.calls[i])
  }

  lemma IdleIsGood(cfg: Config, s: SystemState, w: nat)
    ensures GoodIn(cfg, s, w, Idle)
  {
  }

  /** t is s but for worker w, and no executor was called; w may be nobody. */
  predicate TouchesOnly(s: SystemState, t: SystemState, w: nat) {
    Grows(s, t) && t.calls == s.calls && forall v :: 0 <= v < |s.workers| && v != w ==> t.workers[v] == s.workers[v]
  }

  /** Such a step keeps everything if the one worker it touches stays good. */
  lemma QuietStep(cfg: Config, s: SystemState, t: SystemState, w: nat)
    requires ExecutionFacts(cfg, s) && TouchesOnly(s, t, w)
    requires w < |t.workers| ==> GoodIn(cfg, t, w, t.workers[w])
    ensures ExecutionFacts(cfg, t)
  {
    forall v | 0 <= v < |t.workers| ensures GoodWorker(cfg, t.enqueued, t.handouts, t.calls, v, t.workers[v]) {
      if v != w {
        assert GoodWorker(cfg, s.enqueued, s.handouts, s.calls, v, s.workers[v]);
        GoodWorkerGrows(cfg, s, t, v, s.workers[v]);
      }
    }
    forall i | 0 <= i < |t.calls|
      ensures GoodCall(cfg, t.enqueued, t.handouts, t.calls[i])
      ensures StepsLogged(t.calls, i, t.calls[i].worker, t.calls[i].slot, t.calls[i].earlier)
    {
      OldCallsStayGood(cfg, s, t, i);
    }
    forall v, i | 0 <= v < |t.workers| && 0 <= i < |t.calls| ensures IsPast(t.workers[v], t.calls[i]) {
      assert IsPast(s.workers[v], s.calls[i]);
    }
  }

  /* ---------- the steps of a worker ---------- */

  lemma ClaimGivesJob(cfg: Config, s: SystemState, w: nat, received: SignedJob, clock: Time)
    requires QueueFacts(s) && Enabled(cfg, s, Claim(w, received, clock))
    ensures var t := Apply(cfg, s, Claim(w, received, clock));
      HoldsJob(cfg, t.enqueued, t.handouts, w, t.workers[w].slot, received)
  {
    var t := Apply(cfg, s, Claim(w, received, clock));
    var i := FirstMatch(s.store.pending, cfg.workers[w].info).value;
    assert t.handouts[|s.handouts|] == Handout(s.queue[i], Some(w));
    assert s.store.pending[i] == s.enqueued[s.queue[i]];
    CloneSameOnWire(s.enqueued[s.queue[i]]);
  }

  lemma FreshSlotHasNoCalls(cfg: Config, s: SystemState, i: nat, k: nat)
    requires QueueFacts(s) && CallsInv(cfg, s) && i < |s.queue| && k < |s.calls|
    ensures s.calls[k].slot != s.queue[i]
  {
    var c := s.calls[k];
    assert GoodCall(cfg, s.enqueued, s.handouts, c);
    var m :| 0 <= m < |s.handouts| && s.handouts[m] == Handout(c.slot, Some(c.worker));
    assert Handed(s.handouts, c.slot);
  }

  lemma ClaimKeepsFacts(cfg: Config, s: SystemState, w: nat, received: SignedJob, clock: Time)
    requires QueueFacts(s) && ExecutionFacts(cfg, s) && Enabled(cfg, s, Claim(w, received, clock))
    ensures ExecutionFacts(cfg, Apply(cfg, s, Claim(w, received, clock)))
  {
    var t := Apply(cfg, s, Claim(w, received, clock));
    var i := FirstMatch(s.store.pending, cfg.workers[w].info).value;
    ClaimGivesJob(cfg, s, w, received, clock);
    forall k | 0 <= k < |t.calls| ensures IsPast(t.workers[w], t.calls[k]) {
      FreshSlotHasNoCalls(cfg, s, i, k);
    }
    QuietStep(cfg, s, t, w);
  }

  lemma VerifiedWorker(cfg: Config, s: SystemState, w: nat, b: WorkerState, now: Time, clock: Time)
    requires GoodIn(cfg, s, w, b) && b.Busy? && b.phase.Verifying? && w < |cfg.workers|
    ensures var c := cfg.workers[w];
      var verdict := WorkerVerify(cfg.crypto, c.verifier, b.received, now);
      GoodIn(cfg, s, w, b.(verifiedAt := now, phase := AfterVerify(c.info, b.phase, Verdict(verdict), clock)))
  {
    var c := cfg.workers[w];
    var verdict := WorkerVerify(cfg.crypto, c.verifier, b.received, now);
    VerifyKeepsGoodPhase(c.info, b.phase, Verdict(verdict), clock);
    CanonOfClone(b.received.job);
    if verdict.Ok? {
      VerifiedIsVouched(cfg.crypto, c.verifier, b.received, now);
    }
  }

  lemma VerifyKeepsFacts(cfg: Config, s: SystemState, w: nat, now: Time, clock: Time)
    requires ExecutionFacts(cfg, s) && Enabled(cfg, s, VerifyClaimed(w, now, clock))
    ensures ExecutionFacts(cfg, Apply(cfg, s, VerifyClaimed(w, now, clock)))
  {
    var t := Apply(cfg, s, VerifyClaimed(w, now, clock));
    KnownWorker(cfg, s, w);
    VerifiedWorker(cfg, s, w, s.workers[w], now, clock);
    SameGood(cfg, s, t, w);
    QuietStep(cfg, s, t, w);
  }

  lemma KnownWorker(cfg: Config, s: SystemState, w: nat)
    requires ExecutionFacts(cfg, s) && w < |s.workers|
    ensures GoodIn(cfg, s, w, s.workers[w])
  {
  }

  lemma SameGood(cfg: Config, s: SystemState, t: SystemState, w: nat)
    requires t.enqueued == s.enqueued && t.handouts == s.handouts && t.calls == s.calls
    ensures forall b :: GoodIn(cfg, t, w, b) <==> GoodIn(cfg, s, w, b)
  {
  }

  lemma FinishedWorker(cfg: Config, s: SystemState, w: nat, b: WorkerState, clock: Time)
    requires GoodIn(cfg, s, w, b) && b.Busy? && b.phase.Executing? && !HasStep(b.phase)
    ensures GoodIn(cfg, s, w, b.(phase := AfterLastStep(b.phase, clock)))
  {
    LastStepKeepsGoodPhase(b.phase, clock);
    CanonOfClone(b.received.job);
  }

  lemma FinishKeepsFacts(cfg: Config, s: SystemState, w: nat, clock: Time)
    requires ExecutionFacts(cfg, s) && Enabled(cfg, s, FinishSteps(w, clock))
    ensures ExecutionFacts(cfg, Apply(cfg, s, FinishSteps(w, clock)))
  {
    var t := Apply(cfg, s, FinishSteps(w, clock));
    KnownWorker(cfg, s, w);
    FinishedWorker(cfg, s, w, s.workers[w], clock);
    SameGood(cfg, s, t, w);
    QuietStep(cfg, s, t, w);
  }

  /* ---------- a step of a plan ---------- */

  function CallOf(w: nat, b: WorkerState): ExecutorCall
    requires b.Busy? && HasStep(b.phase)
  {
    ExecutorCall(w, b.slot, b.phase.next, b.phase.job, b.received, b.verifiedAt, b.phase.result.steps.Elems())
  }

  /** t is s after worker w has taken the step in hand with result r, which can succeed only by a call. */
  predicate TookStep(s: SystemState, t: SystemState, w: nat, r: StepResult, registered: set<string>) {
    && t.enqueued == s.enqueued && t.handouts == s.handouts
    && w < |s.workers| && s.workers[w].Busy? && HasStep(s.workers[w].phase)
    && var b := s.workers[w];
    && t.workers == s.workers[w := b.(phase := AfterStep(b.phase, r))]
    && if CurrentStep(b.phase).executor in registered then t.calls == s.calls + [CallOf(w, b)]
       else t.calls == s.calls && r.status == Failed
  }

  lemma RunStepTakesStep(cfg: Config, s: SystemState, w: nat, o: Outcome, startedAt: Time, clock: Time)
    returns (r: StepResult)
    requires Enabled(cfg, s, RunStep(w, o, startedAt, clock))
    ensures TookStep(s, Apply(cfg, s, RunStep(w, o, startedAt, clock)), w, r, cfg.workers[w].registered)
  {
    r := StepOutcome(cfg.workers[w], s.workers[w].phase, o, startedAt, clock);
  }

  /** After a step that did not succeed the worker holds a final result for the same job. */
  lemma StoppedWorker(cfg: Config, s: SystemState, t: SystemState, w: nat, r: StepResult)
    requires w < |cfg.workers| && TookStep(s, t, w, r, cfg.workers[w].registered) && r.status != Succeeded
    requires GoodWorker(cfg, s.enqueued, s.handouts, s.calls, w, s.workers[w])
    ensures GoodWorker(cfg, t.enqueued, t.handouts, t.calls, w, t.workers[w])
  {
    StepKeepsGoodPhase(s.workers[w].phase, r);
    CanonOfClone(s.workers[w].received.job);
  }

  /** After a step that succeeded it is ready for the next, with one more call in the log. */
  lemma ContinuingWorker(cfg: Config, s: SystemState, t: SystemState, w: nat, r: StepResult)
    requires w < |cfg.workers| && TookStep(s, t, w, r, cfg.workers[w].registered) && r.status == Succeeded
    requires GoodWorker(cfg, s.enqueued, s.handouts, s.calls, w, s.workers[w])
    ensures GoodWorker(cfg, t.enqueued, t.handouts, t.calls, w, t.workers[w])
  {
    var b := s.workers[w];
    StepKeepsGoodPhase(b.phase, r);
    NextStepLogged(s.calls, CallOf(w, b), b.phase.result.steps.Elems(), r);
  }

  lemma NextStepLogged(calls: seq<ExecutorCall>, c: ExecutorCall, results: seq<StepResult>, r: StepResult)
    requires StepsLogged(calls, |calls|, c.worker, c.slot, results) && c.earlier == results
    ensures StepsLogged(calls + [c], |calls| + 1, c.worker, c.slot, results + [r])
  {
    var next := calls + [c];
    forall j | 0 <= j < |results + [r]| ensures Logged(next, |next|, c.worker, c.slot, (results + [r])[..j]) {
      if j < |results| {
        assert (results + [r])[..j] == results[..j];
        LoggedGrows(calls, next, |calls|, |next|, c.worker, c.slot, results[..j]);
      } else {
        assert (results + [r])[..j] == results && next[|calls|] == c;
      }
    }
  }

  lemma NewCallIsGood(cfg: Config, s: SystemState, w: nat)
    requires w < |cfg.workers| && IsBusy(s, w) && HasStep(s.workers[w].phase)
    requires GoodWorker(cfg, s.enqueued, s.handouts, s.calls, w, s.workers[w])
    requires CurrentStep(s.workers[w].phase).executor in cfg.workers[w].registered
    ensures var c := CallOf(w, s.workers[w]);
      GoodCall(cfg, s.enqueued, s.handouts, c) && StepsLogged(s.calls, |s.calls|, w, c.slot, c.earlier)
  {
  }

  lemma StepKeepsCalls(cfg: Config, s: SystemState, t: SystemState, w: nat, r: StepResult)
    requires w < |cfg.workers| && TookStep(s, t, w, r, cfg.workers[w].registered)
    requires CallsInv(cfg, s) && GoodWorker(cfg, s.enqueued, s.handouts, s.calls, w, s.workers[w])
    ensures CallsInv(cfg, t)
  {
    forall i | 0 <= i < |t.calls|
      ensures GoodCall(cfg, t.enqueued, t.handouts, t.calls[i])
      ensures StepsLogged(t.calls, i, t.calls[i].worker, t.calls[i].slot, t.calls[i].earlier)
    {
      if i < |s.calls| {
        OldCallsStayGood(cfg, s, t, i);
      } else {
        var c := CallOf(w, s.workers[w]);
        NewCallIsGood(cfg, s, w);
        StepsLoggedGrows(s.calls, t.calls, i, i, w, c.slot, c.earlier);
      }
    }
  }

  /** Two workers never hold the same job. */
  lemma OthersHoldOtherJobs(cfg: Config, s: SystemState, v: nat, w: nat)
    requires QueueFacts(s) && WorkersInv(cfg, s) && v < |s.workers| && w < |s.workers| && v != w
    ensures s.workers[v].Busy? && s.workers[w].Busy? ==> s.workers[v].slot != s.workers[w].slot
  {
    assert GoodWorker(cfg, s.enqueued, s.handouts, s.calls, v, s.workers[v]);
    assert GoodWorker(cfg, s.enqueued, s.handouts, s.calls, w, s.workers[w]);
  }

  lemma StepKeepsPast(s: SystemState, t: SystemState, w: nat, r: StepResult, registered: set<string>)
    requires PastInv(s) && TookStep(s, t, w, r, registered)
    requires forall v :: 0 <= v < |s.workers| && v != w && s.workers[v].Busy? ==> s.workers[v].slot != s.workers[w].slot
    ensures PastInv(t)
  {
    forall v, i | 0 <= v < |t.workers| && 0 <= i < |t.calls| ensures IsPast(t.workers[v], t.calls[i]) {
      if i < |s.calls| {
        assert IsPast(s.workers[v], s.calls[i]);
      }
    }
  }

  lemma StepKeepsOncePerStep(s: SystemState, t: SystemState, w: nat, r: StepResult, registered: set<string>)
    requires OncePerStep(s.calls) && PastInv(s) && TookStep(s, t, w, r, registered)
    ensures OncePerStep(t.calls)
  {
    forall i | 0 <= i < |s.calls| ensures IsPast(s.workers[w], t.calls[i]) && t.calls[i] == s.calls[i] {
      assert IsPast(s.workers[w], s.calls[i]);
    }
  }

  lemma RunStepKeepsFacts(cfg: Config, s: SystemState, w: nat, o: Outcome, startedAt: Time, clock: Time)
    requires QueueFacts(s) && ExecutionFacts(cfg, s) && Enabled(cfg, s, RunStep(w, o, startedAt, clock))
    ensures ExecutionFacts(cfg, Apply(cfg, s, RunStep(w, o, startedAt, clock)))
  {
    var t := Apply(cfg, s, RunStep(w, o, startedAt, clock));
    var r := RunStepTakesStep(cfg, s, w, o, startedAt, clock);
    forall v | 0 <= v < |s.workers| && v != w && s.workers[v].Busy? ensures s.workers[v].slot != s.workers[w].slot {
      OthersHoldOtherJobs(cfg, s, v, w);
    }
    StepKeepsPast(s, t, w, r, cfg.workers[w].registered);
    StepKeepsOncePerStep(s, t, w, r, cfg.workers[w].registered);
    assert GoodWorker(cfg, s.enqueued, s.handouts, s.calls, w, s.workers[w]);
    StepKeepsCalls(cfg, s, t, w, r);
    if r.status == Succeeded {
      ContinuingWorker(cfg, s, t, w, r);
    } else {
      StoppedWorker(cfg, s, t, w, r);
    }
    forall v | 0 <= v < |t.workers| ensures GoodWorker(cfg, t.enqueued, t.handouts, t.calls, v, t.workers[v]) {
      if v != w {
        GoodWorkerGrows(cfg, s, t, v, s.workers[v]);
      }
    }
  }

  /** A step that gives no worker a job, and takes none further. */
  predicate OnlyReleases(a: Action) { !a.Claim? && !a.VerifyClaimed? && !a.RunStep? && !a.FinishSteps? }

  function Released(s: SystemState, a: Action): nat { if a.RecordFails? || a.Complete? then a.w else |s.workers| }

  lemma ReleaseTouchesOnly(cfg: Config, s: SystemState, a: Action)
    requires Enabled(cfg, s, a) && OnlyReleases(a)
    ensures var t, w := Apply(cfg, s, a), Released(s, a);
      TouchesOnly(s, t, w) && (w < |t.workers| ==> t.workers[w] == Idle)
  {
  }

  lemma OtherStepKeepsFacts(cfg: Config, s: SystemState, a: Action)
    requires ExecutionFacts(cfg, s) && Enabled(cfg, s, a) && OnlyReleases(a)
    ensures ExecutionFacts(cfg, Apply(cfg, s, a))
  {
    var t := Apply(cfg, s, a);
    ReleaseTouchesOnly(cfg, s, a);
    IdleIsGood(cfg, t, Released(s, a));
    QuietStep(cfg, s, t, Released(s, a));
  }

  lemma StepKeepsExecutionFacts(cfg: Config, s: SystemState, a: Action)
    requires QueueFacts(s) && ExecutionFacts(cfg, s) && Enabled(cfg, s, a)
    ensures ExecutionFacts(cfg, Apply(cfg, s, a))
  {
    match a {
      case Claim(w, received, clock) => ClaimKeepsFacts(cfg, s, w, received, clock);
      case VerifyClaimed(w, now, clock) => VerifyKeepsFacts(cfg, s, w, now, clock);
      case RunStep(w, o, startedAt, clock) => RunStepKeepsFacts(cfg, s, w, o, startedAt, clock);
      case FinishSteps(w, clock) => FinishKeepsFacts(cfg, s, w, clock);
      case _ => OtherStepKeepsFacts(cfg, s, a);
    }
  }

  /* ---------- honest jobs ---------- */

  /** A job signed under the worker's key, claimed in time by that worker, goes on to execution as it was signed. */
  lemma HonestJobIsExecuted(cfg: Config, s: SystemState, w: nat, now: Time, clock: Time, job: Job, keyId: string)
    requires ExecutionFacts(cfg, s) && Enabled(cfg, s, VerifyClaimed(w, now, clock))
    requires HonestlyHolds(cfg, s, w, job, keyId) && !job.Expired(now)
    ensures ExecutesAsSigned(Apply(cfg, s, VerifyClaimed(w, now, clock)), w, job)
  {
    assert GoodWorker(cfg, s.enqueued, s.handouts, s.calls, w, s.workers[w]);
    HonestClaimIsExecuted(
      cfg.crypto, job, keyId, cfg.workers[w].verifier, cfg.workers[w].info, s.workers[w].received, now);
  }

  predicate ExecutesAsSigned(s: SystemState, w: nat, job: Job) {
    IsBusy(s, w) && s.workers[w].phase.Executing? && Canon(s.workers[w].phase.job) == Canon(job)
  }

  /** What the worker holds was enqueued as Sign returned it for this job under the worker's own key. */
  predicate HonestlyHolds(cfg: Config, s: SystemState, w: nat, job: Job, keyId: string) {
    && w < |cfg.workers| && IsBusy(s, w)
    && var v, slot := cfg.workers[w].verifier, s.workers[w].slot;
    && v.keyId == TrimSpace(keyId) && slot < |s.enqueued|
    && var signed := Sign(cfg.crypto, job, keyId, v.secret);
    && signed.Ok? && s.enqueued[slot] == signed.value.Clone()
  }
}
