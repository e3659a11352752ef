/**
 * One worker cycle: claim, verify, check the selector, run the steps, record, complete. The cycle is cut into
 * phases so that the same functions describe a worker running alone and a worker interleaved with others.
 */
module RunnerSpec {
  import opened Prelude
  import opened Collections
  import opened Deploy
  import opened Selection

  /** What an executor returns: any result, and perhaps an error. */
  datatype Outcome = Outcome(result: StepResult, err: Option<string>)

  datatype Phase =
    | Verifying(signed: SignedJob, result: WorkResult)
    | Executing(job: Job, next: nat, result: WorkResult)
    | Recording(job: Job, result: WorkResult, failure: Option<string>)

  const MISMATCH := "worker does not match job selector"

  function ClaimedJobId(signed: SignedJob): string {
    if signed.job.id != "" then signed.job.id
    else if |signed.signature| >= 12 then "unverified-" + signed.signature[..12]
    else "unverified"
  }

  function AfterClaim(signed: SignedJob, now: Time): Phase {
    Verifying(signed, WorkResult(ClaimedJobId(signed), "", Running, "", now, 0, NilSlice))
  }

  function Deny(result: WorkResult, reason: string, now: Time): WorkResult {
    result.(status := Denied, message := reason, finishedAt := now)
  }

  function AfterVerify(info: Info, p: Phase, verdict: Result<Job, string>, now: Time): (q: Phase)
    requires p.Verifying?
    ensures !q.Verifying?
  {
    match verdict
    case Err(reason) => Recording(p.signed.job, Deny(p.result, reason, now), Some(reason))
    case Ok(job) =>
      var result := p.result.(jobId := job.id, planId := job.plan.id);
      if !Matches(info, job.selector) then Recording(job, Deny(result, MISMATCH, now), Some(MISMATCH))
      else Executing(job, 0, result)
  }

  predicate HasStep(p: Phase) { p.Executing? && p.next < |p.job.plan.steps.Elems()| }

  function CurrentStep(p: Phase): Step
    requires HasStep(p)
  {
    p.job.plan.steps.Elems()[p.next]
  }

  /** The blanks an executor leaves are filled in; an error always means failed, no status means succeeded. */
  function Normalized(step: Step, o: Outcome, startedAt: Time, now: Time): StepResult {
    var r := o.result;
    var message := if o.err.Some? && r.message == "" then o.err.value else r.message;
    var status := if o.err.Some? then Failed else if r.status == Unset then Succeeded else r.status;
    StepResult(if r.stepId == "" then step.id else r.stepId, status, message,
      if r.startedAt == 0 then startedAt else r.startedAt,
      if r.finishedAt == 0 then now else r.finishedAt,
      r.outputs)
  }

  function NotRegistered(step: Step, startedAt: Time, now: Time): StepResult {
    StepResult(step.id, Failed, "executor \"" + step.executor + "\" is not registered", startedAt, now, NilDict)
  }

  /** The step result is appended; anything but succeeded ends the execution with its status. */
  function AfterStep(p: Phase, r: StepResult): (q: Phase)
    requires HasStep(p)
    ensures q.Executing? ==> q.next == p.next + 1 && q.job == p.job
  {
    var result := p.result.(steps := SliceOf(p.result.steps.Elems() + [r]));
    if r.status != Succeeded then
      Recording(p.job, result.(status := r.status, message := r.message, finishedAt := r.finishedAt), None)
    else Executing(p.job, p.next + 1, result)
  }

  function AfterLastStep(p: Phase, now: Time): Phase
    requires p.Executing?
  {
    Recording(p.job, p.result.(status := Succeeded, finishedAt := now), None)
  }

  /** The evidence of a cycle that has reached its result. */
  function BundleOf(p: Phase): Bundle
    requires p.Recording?
  {
    var plan, r := p.job.plan, p.result;
    Bundle(r.jobId, r.jobId, r.planId, plan.application.id, plan.environment.id, r.status, r.startedAt, r.finishedAt,
      plan.artifacts, r.steps, plan.labels, if p.failure.Some? then SliceOf([p.failure.value]) else NilSlice)
  }

  /* ---------- what every phase keeps ---------- */

  /** While executing, exactly the steps before the next one have run, and all of them succeeded. */
  predicate AllSucceeded(rs: seq<StepResult>) { forall i :: 0 <= i < |rs| ==> rs[i].status == Succeeded }

  predicate GoodPhase(p: Phase) {
    match p
    case Verifying(_, r) => r.steps.Elems() == [] && r.status == Running && r.message == ""
    case Executing(job, next, r) =>
      && next <= |job.plan.steps.Elems()| && |r.steps.Elems()| == next
      && AllSucceeded(r.steps.Elems()) && r.status == Running && r.message == ""
      && r.jobId == job.id && r.planId == job.plan.id
    case Recording(job, r, failure) => FinalResult(job, r, failure)
  }

  /**
   * The final result: denied before any step, or an execution with at most one result per plan step, all but the
   * last succeeded, whose status is succeeded exactly when every step ran and succeeded, and else that of the last,
   * together with its message and the time it finished.
   */
  predicate FinalResult(job: Job, r: WorkResult, failure: Option<string>) {
    var steps, plan := r.steps.Elems(), job.plan.steps.Elems();
    if failure.Some? then steps == [] && r.status == Denied && r.message == failure.value
    else
      && |steps| <= |plan|
      && AllSucceeded(if steps == [] then [] else steps[..|steps| - 1])
      && (r.status == Succeeded <==> |steps| == |plan| && AllSucceeded(steps))
      && r.jobId == job.id && r.planId == job.plan.id
      && if r.status == Succeeded then r.message == "" else steps != [] && EndsLike(r, steps[|steps| - 1])
  }

  predicate EndsLike(r: WorkResult, last: StepResult) {
    r.status == last.status && r.message == last.message && r.finishedAt == last.finishedAt
  }

  lemma StepKeepsGoodPhase(p: Phase, r: StepResult)
    requires GoodPhase(p) && HasStep(p)
    ensures GoodPhase(AfterStep(p, r))
  {
    var before := p.result.steps.Elems();
    assert (before + [r])[..|before|] == before;
    if r.status != Succeeded {
      assert (before + [r])[|before|] == r;
    }
  }

  lemma LastStepKeepsGoodPhase(p: Phase, now: Time)
    requires GoodPhase(p) && p.Executing? && !HasStep(p)
    ensures GoodPhase(AfterLastStep(p, now))
  {
    var steps := p.result.steps.Elems();
    if steps != [] {
      assert forall i :: 0 <= i < |steps| - 1 ==> steps[..|steps| - 1][i] == steps[i];
    }
  }

  lemma VerifyKeepsGoodPhase(info: Info, p: Phase, verdict: Result<Job, string>, now: Time)
    requires GoodPhase(p) && p.Verifying?
    ensures GoodPhase(AfterVerify(info, p, verdict, now))
  {
  }

  /* ---------- the phases of one worker running alone ---------- */

  /** Everything the cycle cannot know: its clock, its executors, and whether its calls get through. */
  datatype World = World(clock: nat -> Time, execute: nat -> Outcome, recordError: Option<string>, delivery: Delivery)

  /** How the call that completes a job may go. */
  datatype Delivery = Delivered | RequestLost(reason: string) | ResponseLost(reason: string)

  /** Run one step, reading the clock from position t on; the position after it comes back too. */
  function RunStep(w: World, registered: set<string>, p: Phase, t: nat): (StepResult, nat)
    requires HasStep(p)
  {
    var step, o := CurrentStep(p), w.execute(p.next);
    if step.executor !in registered then (NotRegistered(step, w.clock(t), w.clock(t + 1)), t + 2)
    else (Normalized(step, o, w.clock(t), w.clock(t + 1)), if o.result.finishedAt == 0 then t + 2 else t + 1)
  }

  function ExecuteAll(w: World, registered: set<string>, p: Phase, t: nat): (r: (Phase, nat))
    requires p.Executing? && p.next <= |p.job.plan.steps.Elems()|
    ensures r.0.Recording? && r.0.job == p.job
    decreases |p.job.plan.steps.Elems()| - p.next
  {
    if !HasStep(p) then (AfterLastStep(p, w.clock(t)), t + 1)
    else
      var (r, t') := RunStep(w, registered, p, t);
      var q := AfterStep(p, r);
      if q.Executing? then ExecuteAll(w, registered, q, t') else (q, t')
  }

  /** From the claimed job to the result that is recorded; the claim itself read the clock at t. */
  function Process(
    w: World, info: Info, registered: set<string>, signed: SignedJob, verdict: Result<Job, string>, t: nat)
    : (r: (Phase, nat))
    ensures r.0.Recording?
  {
    var p := AfterClaim(signed, w.clock(t));
    var q := AfterVerify(info, p, verdict, w.clock(t + 1));
    if q.Executing? then ExecuteAll(w, registered, q, t + 1) else (q, t + 2)
  }

  lemma {:induction false} ExecuteAllIsGood(w: World, registered: set<string>, p: Phase, t: nat)
    requires GoodPhase(p) && p.Executing?
    ensures GoodPhase(ExecuteAll(w, registered, p, t).0)
    decreases |p.job.plan.steps.Elems()| - p.next
  {
    if HasStep(p) {
      var (r, t') := RunStep(w, registered, p, t);
      StepKeepsGoodPhase(p, r);
      if AfterStep(p, r).Executing? {
        ExecuteAllIsGood(w, registered, AfterStep(p, r), t');
      }
    } else {
      LastStepKeepsGoodPhase(p, w.clock(t));
    }
  }

  /** Every cycle that claims a job ends in a final result of that shape. */
  lemma ProcessIsGood(
    w: World, info: Info, registered: set<string>, signed: SignedJob, verdict: Result<Job, string>, t: nat)
    ensures var p := Process(w, info, registered, signed, verdict, t).0;
      FinalResult(p.job, p.result, p.failure)
  {
    var q := AfterVerify(info, AfterClaim(signed, w.clock(t)), verdict, w.clock(t + 1));
    VerifyKeepsGoodPhase(info, AfterClaim(signed, w.clock(t)), verdict, w.clock(t + 1));
    if q.Executing? {
      ExecuteAllIsGood(w, registered, q, t + 1);
    }
  }

  /* ---------- what comes of each step and of the whole, in plain words ---------- */

  /** What a step result says when its executor, if there is one, left the outcome o. */
  predicate StepTells(step: Step, registered: set<string>, o: Outcome, started: Time, now: Time, r: StepResult) {
    if step.executor !in registered then
      && r.stepId == step.id && r.status == Failed && r.outputs.Entries() == map[]
      && r.message == "executor \"" + step.executor + "\" is not registered"
      && r.startedAt == started && r.finishedAt == now
    else
      && (o.err.Some? ==> r.status == Failed)
      && (o.err.Some? && o.result.message == "" ==> r.message == o.err.value)
      && (o.err.None? || o.result.message != "" ==> r.message == o.result.message)
      && (o.err.None? && o.result.status == Unset ==> r.status == Succeeded)
      && (o.err.None? && o.result.status != Unset ==> r.status == o.result.status)
      && r.stepId == (if o.result.stepId != "" then o.result.stepId else step.id)
      && r.startedAt == (if o.result.startedAt != 0 then o.result.startedAt else started)
      && r.finishedAt == (if o.result.finishedAt != 0 then o.result.finishedAt else now)
      && r.outputs == o.result.outputs
  }

  lemma RunStepTells(w: World, registered: set<string>, p: Phase, t: nat)
    requires HasStep(p)
    ensures var r := RunStep(w, registered, p, t).0;
      StepTells(CurrentStep(p), registered, w.execute(p.next), w.clock(t), w.clock(t + 1), r)
  {
  }

  /** r is what came of step k, begun at some reading of the clock. */
  ghost predicate CameOf(w: World, registered: set<string>, step: Step, k: nat, r: StepResult) {
    exists t: nat :: StepTells(step, registered, w.execute(k), w.clock(t), w.clock(t + 1), r)
  }

  ghost predicate AllCameOf(w: World, registered: set<string>, job: Job, rs: seq<StepResult>) {
    && |rs| <= |job.plan.steps.Elems()|
    && forall k :: 0 <= k < |rs| ==> CameOf(w, registered, job.plan.steps.Elems()[k], k, rs[k])
  }

  lemma NextCameOf(w: World, registered: set<string>, p: Phase, t: nat)
    requires HasStep(p) && AllCameOf(w, registered, p.job, p.result.steps.Elems()) && |p.result.steps.Elems()| == p.next
    ensures var r := RunStep(w, registered, p, t).0;
      AllCameOf(w, registered, p.job, p.result.steps.Elems() + [r])
  {
    RunStepTells(w, registered, p, t);
    assert CameOf(w, registered, CurrentStep(p), p.next, RunStep(w, registered, p, t).0);
  }

  lemma {:induction false} ExecutionTells(w: World, registered: set<string>, p: Phase, t: nat)
    requires p.Executing? && |p.result.steps.Elems()| == p.next
    requires AllCameOf(w, registered, p.job, p.result.steps.Elems())
    ensures AllCameOf(w, registered, p.job, ExecuteAll(w, registered, p, t).0.result.steps.Elems())
    decreases |p.job.plan.steps.Elems()| - p.next
  {
    if HasStep(p) {
      var (r, t') := RunStep(w, registered, p, t);
      NextCameOf(w, registered, p, t);
      if AfterStep(p, r).Executing? {
        ExecutionTells(w, registered, AfterStep(p, r), t');
      }
    }
  }

  /** Nothing but the steps decides the times of the job, and an execution that succeeds reads the clock last of all. */
  lemma {:induction false} ExecutionTimes(w: World, registered: set<string>, p: Phase, t: nat)
    requires p.Executing? && p.next <= |p.job.plan.steps.Elems()|
    ensures var (q, t') := ExecuteAll(w, registered, p, t);
      && q.failure.None? && t < t' && q.result.startedAt == p.result.startedAt
      && (q.result.status == Succeeded ==> q.result.finishedAt == w.clock(t' - 1))
    decreases |p.job.plan.steps.Elems()| - p.next
  {
    if HasStep(p) {
      var (r, t') := RunStep(w, registered, p, t);
      if AfterStep(p, r).Executing? {
        ExecutionTimes(w, registered, AfterStep(p, r), t');
      }
    }
  }

  /** A job that is not executed: denied, with the reason, and with nothing run. */
  predicate IsDenied(p: Phase, job: Job, jobId: string, planId: string, reason: string, started: Time, now: Time) {
    && p.Recording? && p.job == job && p.failure == Some(reason)
    && p.result == WorkResult(jobId, planId, Denied, reason, started, now, NilSlice)
  }

  /** The id under which an unverified job is reported. */
  function ReportedId(signed: SignedJob): string {
    if signed.job.id == "" && |signed.signature| < 12 then "unverified"
    else if signed.job.id == "" then "unverified-" + signed.signature[..12]
    else signed.job.id
  }

  lemma ReportedIdIs(signed: SignedJob)
    ensures ClaimedJobId(signed) == ReportedId(signed)
  {
  }

  /** The whole cycle: denied by the verifier, denied by the selector, or executed step by step. */
  lemma ProcessTells(
    w: World, info: Info, registered: set<string>, signed: SignedJob, verdict: Result<Job, string>, t: nat)
    ensures var (p, t') := Process(w, info, registered, signed, verdict, t);
      match verdict
      case Err(reason) => IsDenied(p, signed.job, ReportedId(signed), "", reason, w.clock(t), w.clock(t + 1))
      case Ok(job) =>
        if !Matches(info, job.selector) then
          IsDenied(p, job, job.id, job.plan.id, "worker does not match job selector", w.clock(t), w.clock(t + 1))
        else IsExecuted(w, registered, job, p, w.clock(t), t')
  {
    ReportedIdIs(signed);
    if verdict.Ok? && Matches(info, verdict.value.selector) {
      AcceptedProcessTells(w, info, registered, signed, verdict.value, t);
    }
  }

  /** An execution of this job begun at that time, after which the clock stands at t'. */
  ghost predicate IsExecuted(w: World, registered: set<string>, job: Job, p: Phase, started: Time, t': nat) {
    && p.Recording? && p.job == job && p.failure.None? && p.result.startedAt == started && 0 < t'
    && FinalResult(job, p.result, None) && AllCameOf(w, registered, job, p.result.steps.Elems())
    && (p.result.status == Succeeded ==> p.result.finishedAt == w.clock(t' - 1))
  }

  lemma AcceptedProcessTells(w: World, info: Info, registered: set<string>, signed: SignedJob, job: Job, t: nat)
    requires Matches(info, job.selector)
    ensures var (p, t') := Process(w, info, registered, signed, Ok(job), t);
      IsExecuted(w, registered, job, p, w.clock(t), t')
  {
    var q := AfterVerify(info, AfterClaim(signed, w.clock(t)), Ok(job), w.clock(t + 1));
    ExecutionTells(w, registered, q, t + 1);
    ExecutionTimes(w, registered, q, t + 1);
    ProcessIsGood(w, info, registered, signed, Ok(job), t);
  }

  /** What is handed to the recorder at the end of a cycle. */
  lemma BundleTells(p: Phase)
    requires p.Recording?
    ensures var b, r := BundleOf(p), p.result;
      && b.id == b.jobId == r.jobId && b.planId == r.planId && b.status == r.status
      && b.startedAt == r.startedAt && b.finishedAt == r.finishedAt && b.steps == r.steps
      && b.applicationId == p.job.plan.application.id && b.environmentId == p.job.plan.environment.id
      && b.artifacts == p.job.plan.artifacts && b.labels == p.job.plan.labels
      && b.errors.Elems() == match p.failure { case None => [] case Some(reason) => [reason] }
  {
  }

  /** A step succeeds exactly when its executor is there, returns no error, and reports success or nothing. */
  lemma StepSucceedsIff(w: World, registered: set<string>, p: Phase, t: nat)
    requires HasStep(p)
    ensures var r, o := RunStep(w, registered, p, t).0, w.execute(p.next);
      && (r.status == Succeeded <==>
            && CurrentStep(p).executor in registered && o.err.None?
            && (o.result.status == Succeeded || o.result.status == Unset))
      && (r.outputs != NilDict ==> r.outputs == o.result.outputs)
  {
  }

  ghost predicate LeavesIdsBlank(w: World) { forall k: nat :: w.execute(k).result.stepId == "" }

  /** The results so far carry the ids of the first steps of the plan, in order. */
  predicate FollowsPlan(job: Job, rs: seq<StepResult>) {
    |rs| <= |job.plan.steps.Elems()| && forall i :: 0 <= i < |rs| ==> rs[i].stepId == job.plan.steps.Elems()[i].id
  }

  lemma {:induction false} ExecutionFollowsPlan(w: World, registered: set<string>, p: Phase, t: nat)
    requires LeavesIdsBlank(w) && GoodPhase(p) && p.Executing? && FollowsPlan(p.job, p.result.steps.Elems())
    ensures FollowsPlan(p.job, ExecuteAll(w, registered, p, t).0.result.steps.Elems())
    decreases |p.job.plan.steps.Elems()| - p.next
  {
    if HasStep(p) {
      var (r, t') := RunStep(w, registered, p, t);
      StepKeepsGoodPhase(p, r);
      if AfterStep(p, r).Executing? {
        ExecutionFollowsPlan(w, registered, AfterStep(p, r), t');
      }
    }
  }

  /** When executors leave ids to the worker, the results carry the ids of the plan's first steps, in order. */
  lemma ResultsFollowPlan(
    w: World, info: Info, registered: set<string>, signed: SignedJob, verdict: Result<Job, string>, t: nat)
    requires LeavesIdsBlank(w)
    ensures var p := Process(w, info, registered, signed, verdict, t).0;
      FollowsPlan(p.job, p.result.steps.Elems())
  {
    var q := AfterVerify(info, AfterClaim(signed, w.clock(t)), verdict, w.clock(t + 1));
    VerifyKeepsGoodPhase(info, AfterClaim(signed, w.clock(t)), verdict, w.clock(t + 1));
    if q.Executing? {
      ExecutionFollowsPlan(w, registered, q, t + 1);
    }
  }

  /* ---------- time ---------- */

  ghost predicate MonotoneClock(w: World) { forall i: nat, j: nat :: i <= j ==> 0 < w.clock(i) <= w.clock(j) }

  ghost predicate LeavesTimesBlank(w: World) {
    forall k: nat :: w.execute(k).result.startedAt == 0 && w.execute(k).result.finishedAt == 0
  }

  /** The intervals lie one after the other between from and to. */
  predicate Ordered(rs: seq<StepResult>, from: Time, to: Time) {
    && from <= to
    && (forall i :: 0 <= i < |rs| ==> from <= rs[i].startedAt <= rs[i].finishedAt <= to)
    && (forall i, j :: 0 <= i < j < |rs| ==> rs[i].finishedAt <= rs[j].startedAt)
  }

  lemma OrderedNext(rs: seq<StepResult>, from: Time, to: Time, r: StepResult)
    requires Ordered(rs, from, to) && to <= r.startedAt <= r.finishedAt
    ensures Ordered(rs + [r], from, r.finishedAt)
  {
  }

  lemma {:induction false} ExecutionIntervals(w: World, registered: set<string>, p: Phase, t: nat)
    requires MonotoneClock(w) && LeavesTimesBlank(w)
    requires p.Executing? && p.next <= |p.job.plan.steps.Elems()|
    requires Ordered(p.result.steps.Elems(), p.result.startedAt, w.clock(t))
    ensures var (q, t') := ExecuteAll(w, registered, p, t);
      && t < t' && q.result.startedAt == p.result.startedAt
      && Ordered(q.result.steps.Elems(), q.result.startedAt, q.result.finishedAt)
      && q.result.finishedAt <= w.clock(t')
    decreases |p.job.plan.steps.Elems()| - p.next
  {
    if HasStep(p) {
      var (r, t') := RunStep(w, registered, p, t);
      assert w.clock(t) <= w.clock(t + 1) <= w.clock(t');
      OrderedNext(p.result.steps.Elems(), p.result.startedAt, w.clock(t), r);
      var q := AfterStep(p, r);
      if q.Executing? {
        assert Ordered(q.result.steps.Elems(), q.result.startedAt, w.clock(t')) by {
          assert q.result.steps.Elems() == p.result.steps.Elems() + [r];
        }
        ExecutionIntervals(w, registered, q, t');
      }
    } else {
      assert w.clock(t) <= w.clock(t + 1);
    }
  }

  /** With a running clock and executors that leave times to the worker, step intervals never overlap. */
  lemma StepIntervalsAreOrdered(
    w: World, info: Info, registered: set<string>, signed: SignedJob, verdict: Result<Job, string>, t: nat)
    requires MonotoneClock(w) && LeavesTimesBlank(w)
    ensures var r := Process(w, info, registered, signed, verdict, t).0.result;
      Ordered(r.steps.Elems(), r.startedAt, r.finishedAt) && r.startedAt == w.clock(t)
  {
    var q := AfterVerify(info, AfterClaim(signed, w.clock(t)), verdict, w.clock(t + 1));
    assert w.clock(t) <= w.clock(t + 1);
    if q.Executing? {
      ExecutionIntervals(w, registered, q, t + 1);
    }
  }
}

/** The Runner itself, driving a store and a collector through one cycle. */
module Worker {
  import opened Prelude
  import opened Collections
  import opened Deploy
  import opened Selection
  import opened StoreSpec
  import opened ControlPlane
  import opened Metrics
  import opened RunnerSpec

  datatype Failure = WorkerIdRequired | NoDeploymentJob | RecordFailed(reason: string) | CompleteFailed(reason: string)

  class Runner {
    const info: Info
    const registered: set<string>
    const verify: SignedJob -> Result<Job, string>
    const hasRecorder: bool
    const world: World
    var clockReads: nat
    var attempted: seq<Bundle>   // the bundles handed to the recorder

    constructor (
      info: Info, registered: set<string>, verify: SignedJob -> Result<Job, string>, hasRecorder: bool, world: World)
      ensures this.info == info && this.registered == registered && this.verify == verify
      ensures this.hasRecorder == hasRecorder && this.world == world
      ensures clockReads == 0 && attempted == []
    {
      this.info, this.registered, this.verify := info, registered, verify;
      this.hasRecorder, this.world := hasRecorder, world;
      clockReads, attempted := 0, [];
    }

    method Now() returns (now: Time)
      modifies this`clockReads
      ensures now == world.clock(old(clockReads)) && clockReads == old(clockReads) + 1
    {
      now := world.clock(clockReads);
      clockReads := clockReads + 1;
    }

    method ExecuteStep(step: Step, k: nat) returns (r: StepResult)
      modifies this`clockReads
      ensures forall p :: HasStep(p) && CurrentStep(p) == step && p.next == k ==>
        (r, clockReads) == RunStep(world, registered, p, old(clockReads))
    {
      var startedAt := Now();
      if step.executor !in registered {
        var now := Now();
        return NotRegistered(step, startedAt, now);
      }
      var o := world.execute(k);
      r := o.result;
      if r.stepId == "" {
        r := r.(stepId := step.id);
      }
      if r.startedAt == 0 {
        r := r.(startedAt := startedAt);
      }
      if r.finishedAt == 0 {
        var now := Now();
        r := r.(finishedAt := now);
      }
      if o.err.Some? {
        r := r.(status := Failed);
        if r.message == "" {
          r := r.(message := o.err.value);
        }
      }
      if r.status == Unset {
        r := r.(status := Succeeded);
      }
    }

    /** The loop over the plan's steps, leaving at the first that does not succeed. */
    method Execute(job: Job, initial: WorkResult) returns (result: WorkResult)
      modifies this`clockReads
      ensures var (p, t) := ExecuteAll(world, registered, Executing(job, 0, initial), old(clockReads));
        result == p.result && clockReads == t && p.failure.None?
    {
      result := initial;
      var steps := job.plan.steps.Elems();
      ghost var end := ExecuteAll(world, registered, Executing(job, 0, initial), clockReads);
      for k := 0 to |steps|
        invariant ExecuteAll(world, registered, Executing(job, k, result), clockReads) == end
      {
        var r := ExecuteStep(steps[k], k);
        result := result.(steps := SliceOf(result.steps.Elems() + [r]));
        if r.status != Succeeded {
          result := result.(status := r.status, message := r.message, finishedAt := r.finishedAt);
          return;
        }
      }
      var now := Now();
      result := result.(status := Succeeded, finishedAt := now);
    }

    method Record(job: Job, result: WorkResult, failure: Option<string>) returns (err: Option<Failure>)
      modifies this`attempted
      ensures attempted == old(attempted) + if hasRecorder then [BundleOf(Recording(job, result, failure))] else []
      ensures err ==
        if hasRecorder && world.recordError.Some? then Some(RecordFailed(world.recordError.value)) else None
    {
      if !hasRecorder {
        return None;
      }
      attempted := attempted + [BundleOf(Recording(job, result, failure))];
      return match world.recordError case None => None case Some(reason) => Some(RecordFailed(reason));
    }

    /** The final phase of the cycle for this claimed job, which read the clock first at position t. */
    ghost function Final(signed: SignedJob, t: nat): Phase
      ensures Final(signed, t).Recording?
    {
      Process(world, info, registered, signed, verify(signed), t).0
    }

    /**
     * One cycle. Nothing is counted unless a job is claimed; a claimed job is counted once as started and once as
     * finished, and the recorded bundle, the completed result, the returned result and the metric all show the
     * status of the one final result. A failed recording keeps the result from being completed.
     */
    method RunOnce(source: Store, metrics: Collector)
      returns (r: Result<WorkResult, Failure>, claimedResult: Option<WorkResult>)
      modifies this`clockReads, this`attempted, source, metrics
      ensures info.id == "" || FirstMatch(old(source.pending), info).None? ==>
        && r.Err? && claimedResult.None?
        && source.State() == old(source.State()) && metrics.Value() == old(metrics.Value())
        && attempted == old(attempted)
      ensures info.id != "" && FirstMatch(old(source.pending), info).Some? ==>
        var i := FirstMatch(old(source.pending), info).value;
        var p := Final(old(source.pending)[i].Clone(), old(clockReads));
        var recordFailed := hasRecorder && world.recordError.Some?;
        && claimedResult == Some(p.result)
        && attempted == old(attempted) + (if hasRecorder then [BundleOf(p)] else [])
        && source.State() == (if recordFailed || world.delivery.RequestLost? then ClaimAt(old(source.State()), i)
                              else CompleteIn(source.decode, ClaimAt(old(source.State()), i), p.result.Clone()))
        && (r.Ok? <==> !recordFailed && world.delivery.Delivered?) && (r.Ok? ==> r.value == p.result)
        && exists duration ::
             && (p.result.finishedAt != 0 ==> duration == p.result.finishedAt - p.result.startedAt)
             && metrics.Value() == AfterFinish(AfterStart(old(metrics.Value())), p.result.status, duration)
    {
      if info.id == "" {
        return Err(WorkerIdRequired), None;
      }
      var now := Now();
      var claim := source.Claim(info);
      if claim.Err? {
        return Err(NoDeploymentJob), None;
      }
      metrics.JobStarted();
      var result, err := RunClaimed(claim.value, now, source);
      claimedResult := Some(result);
      var finishedAt := result.finishedAt;
      if finishedAt == 0 {
        finishedAt := Now();
      }
      metrics.JobFinished(result.status, finishedAt - result.startedAt);
      r := if err.Some? then Err(err.value) else Ok(result);
    }

    method RunClaimed(signed: SignedJob, now: Time, source: Store) returns (result: WorkResult, err: Option<Failure>)
      requires clockReads > 0 && now == world.clock(clockReads - 1)
      modifies this`clockReads, this`attempted, source
      ensures var p := Final(signed, old(clockReads) - 1);
        var recordFailed := hasRecorder && world.recordError.Some?;
        && result == p.result
        && attempted == old(attempted) + (if hasRecorder then [BundleOf(p)] else [])
        && source.State() == (if recordFailed || world.delivery.RequestLost? then old(source.State())
                              else CompleteIn(source.decode, old(source.State()), p.result.Clone()))
        && (err.None? <==> !recordFailed && world.delivery.Delivered?)
    {
      result := WorkResult(ClaimedJobId(signed), "", Running, "", now, 0, NilSlice);
      var verdict := verify(signed);
      var job, failure := signed.job, None;
      if verdict.Err? {
        var finishedAt := Now();
        result := result.(status := Denied, message := verdict.error, finishedAt := finishedAt);
        failure := Some(verdict.error);
      } else {
        job := verdict.value;
        result := result.(jobId := job.id, planId := job.plan.id);
        var matches := CheckMatches(info, job.selector);
        if !matches {
          var finishedAt := Now();
          result := result.(status := Denied, message := MISMATCH, finishedAt := finishedAt);
          failure := Some(MISMATCH);
        } else {
          result := Execute(job, result);
        }
      }
      err := Record(job, result, failure);
      if err.Some? {
        return;
      }
      if !world.delivery.RequestLost? {
        source.Complete(result.Clone());
      }
      err := if world.delivery.Delivered? then None else Some(CompleteFailed(world.delivery.reason));
    }
  }
}
