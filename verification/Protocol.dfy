/**
 * The whole deployment system as a transition system: one store, any number of workers, and anybody else who can
 * reach the store. Store methods are single steps because they hold one mutex; a worker cycle is cut at every point
 * where others can come in between. Executor results, clocks and lost messages are chosen freely at each step.
 */
module Protocol {
  import opened Prelude
  import opened Deploy
  import opened Wire
  import opened Signing
  import opened ComponentIndex
  import opened StoreSpec
  import opened RunnerSpec

  datatype WorkerConfig = WorkerConfig(info: Info, verifier: VerifierConfig, registered: set<string>)

  datatype Config = Config(crypto: Crypto, decode: Decoder, workers: seq<WorkerConfig>)

  /** slot is the position of the job in hand among all jobs ever enqueued. */
  datatype WorkerState = Idle | Busy(slot: nat, received: SignedJob, verifiedAt: Time, phase: Phase)

  /** taker is None when the claim came from outside or its response was lost. */
  datatype Handout = Handout(slot: nat, taker: Option<nat>)

  datatype ExecutorCall = ExecutorCall(
    worker: nat, slot: nat, index: nat, job: Job, received: SignedJob, verifiedAt: Time, earlier: seq<StepResult>)

  /** The store and the workers, and behind them what has happened so far. */
  datatype SystemState = SystemState(
    store: StoreState,
    workers: seq<WorkerState>,
    enqueued: seq<SignedJob>,
    queue: seq<nat>,
    handouts: seq<Handout>,
    claimedSlot: map<string, nat>,
    retired: set<nat>,
    calls: seq<ExecutorCall>,
    origins: seq<Option<Job>>,
    observed: seq<Observation>)

  datatype Action =
    | Enqueue(signed: SignedJob)
    | Claim(w: nat, received: SignedJob, clock: Time)
    | ClaimByOther(info: Info)
    | VerifyClaimed(w: nat, now: Time, clock: Time)
    | RunStep(w: nat, outcome: Outcome, startedAt: Time, clock: Time)
    | FinishSteps(w: nat, clock: Time)
    | RecordFails(w: nat)
    | Complete(w: nat, delivered: bool)
    | CompleteByOther(result: WorkResult)
    | UpsertByOther(components: seq<ComponentState>)

  function Init(cfg: Config): SystemState {
    SystemState(EMPTY, seq(|cfg.workers|, _ => Idle), [], [], [], map[], {}, [], [], [])
  }

  function Describe(r: Refusal): string {
    match r
    case InvalidJob => "invalid job"
    case BadKeyId => "keyId"
    case WeakSecret => "resolved secret must be at least 32 bytes"
    case MarshalFailed => "marshal signed payload"
    case UnsupportedAlgorithm => "unsupported signing algorithm"
    case SignatureRequired => "signature is required"
    case NoKeyResolver => "key resolver is required"
    case JobExpired => "job has expired"
    case KeyNotFound(reason) => reason
    case InvalidSignature => "invalid job signature"
    case UnexpectedKeyId => "unexpected key id"
  }

  function Verdict(r: Result<Job, Refusal>): Result<Job, string> {
    match r case Ok(job) => Ok(job) case Err(e) => Err(Describe(e))
  }

  predicate IsBusy(s: SystemState, w: nat) { w < |s.workers| && s.workers[w].Busy? }

  predicate Enabled(cfg: Config, s: SystemState, a: Action) {
    match a
    case Enqueue(_) => true
    case Claim(w, received, _) =>
      && w < |cfg.workers| && w < |s.workers| && s.workers[w].Idle? && cfg.workers[w].info.id != ""
      && var i := FirstMatch(s.store.pending, cfg.workers[w].info);
         i.Some? && SameOnWire(s.store.pending[i.value].Clone(), received)
    case ClaimByOther(info) => FirstMatch(s.store.pending, info).Some?
    case VerifyClaimed(w, _, _) => w < |cfg.workers| && IsBusy(s, w) && s.workers[w].phase.Verifying?
    case RunStep(w, _, _, _) => w < |cfg.workers| && IsBusy(s, w) && HasStep(s.workers[w].phase)
    case FinishSteps(w, _) => IsBusy(s, w) && s.workers[w].phase.Executing? && !HasStep(s.workers[w].phase)
    case RecordFails(w) => IsBusy(s, w) && s.workers[w].phase.Recording?
    case Complete(w, _) => IsBusy(s, w) && s.workers[w].phase.Recording?
    case CompleteByOther(_) => true
    case UpsertByOther(_) => true
  }

  function SlotAt(s: SystemState, i: nat): nat { if i < |s.queue| then s.queue[i] else 0 }

  function Without<T>(q: seq<T>, i: nat): seq<T> { if i < |q| then q[..i] + q[i + 1..] else q }

  function HandOut(s: SystemState, i: nat, taker: Option<nat>): SystemState
    requires i < |s.store.pending|
  {
    s.(store := ClaimAt(s.store, i),
       queue := Without(s.queue, i),
       handouts := s.handouts + [Handout(SlotAt(s, i), taker)],
       claimedSlot := s.claimedSlot[s.store.pending[i].job.id := SlotAt(s, i)])
  }

  function Deliver(cfg: Config, s: SystemState, result: WorkResult): SystemState {
    var id := result.jobId;
    var origin := ClaimedJob(s.store, id);
    s.(store := CompleteIn(cfg.decode, s.store, result),
       claimedSlot := s.claimedSlot - {id},
       retired := s.retired + (if id in s.claimedSlot then {s.claimedSlot[id]} else {}),
       origins := s.origins + [origin],
       observed := s.observed + Observations(cfg.decode, origin, result.Clone().steps.Elems()))
  }

  function SetWorker(s: SystemState, w: nat, state: WorkerState): SystemState
    requires w < |s.workers|
  {
    s.(workers := s.workers[w := state])
  }

  /** The result of the current step, and whether an executor was called for it. */
  function StepOutcome(cfg: WorkerConfig, p: Phase, o: Outcome, startedAt: Time, clock: Time): StepResult
    requires HasStep(p)
  {
    var step := CurrentStep(p);
    if step.executor in cfg.registered then Normalized(step, o, startedAt, clock)
    else NotRegistered(step, startedAt, clock)
  }

  function Apply(cfg: Config, s: SystemState, a: Action): SystemState
    requires Enabled(cfg, s, a)
  {
    match a
    case Enqueue(signed) =>
      s.(store := EnqueueIn(s.store, signed), enqueued := s.enqueued + [signed.Clone()],
         queue := s.queue + [|s.enqueued|])
    case Claim(w, received, clock) =>
      var i := FirstMatch(s.store.pending, cfg.workers[w].info).value;
      SetWorker(HandOut(s, i, Some(w)), w, Busy(SlotAt(s, i), received, 0, AfterClaim(received, clock)))
    case ClaimByOther(info) => HandOut(s, FirstMatch(s.store.pending, info).value, None)
    case VerifyClaimed(w, now, clock) =>
      var b, c := s.workers[w], cfg.workers[w];
      var verdict := Verdict(WorkerVerify(cfg.crypto, c.verifier, b.received, now));
      SetWorker(s, w, b.(verifiedAt := now, phase := AfterVerify(c.info, b.phase, verdict, clock)))
    case RunStep(w, o, startedAt, clock) =>
      var b, c := s.workers[w], cfg.workers[w];
      var p := b.phase;
      var called := CurrentStep(p).executor in c.registered;
      var call := ExecutorCall(w, b.slot, p.next, p.job, b.received, b.verifiedAt, p.result.steps.Elems());
      SetWorker(s.(calls := s.calls + if called then [call] else []), w,
        b.(phase := AfterStep(p, StepOutcome(c, p, o, startedAt, clock))))
    case FinishSteps(w, clock) => SetWorker(s, w, s.workers[w].(phase := AfterLastStep(s.workers[w].phase, clock)))
    case RecordFails(w) => SetWorker(s, w, Idle)
    case Complete(w, delivered) =>
      var result := s.workers[w].phase.result.Clone();
      SetWorker(if delivered then Deliver(cfg, s, result) else s, w, Idle)
    case CompleteByOther(result) => Deliver(cfg, s, result)
    case UpsertByOther(cs) => s.(store := UpsertIn(s.store, cs), observed := s.observed + [Listing(cs)])
  }

  /* ---------- runs ---------- */

  predicate IsRun(cfg: Config, s: SystemState, actions: seq<Action>)
    decreases |actions|
  {
    actions == [] || (Enabled(cfg, s, actions[0]) && IsRun(cfg, Apply(cfg, s, actions[0]), actions[1..]))
  }

  function After(cfg: Config, s: SystemState, actions: seq<Action>): SystemState
    requires IsRun(cfg, s, actions)
    decreases |actions|
  {
    if actions == [] then s else After(cfg, Apply(cfg, s, actions[0]), actions[1..])
  }

  /** A run in two parts. */
  lemma {:induction false} RunCompose(cfg: Config, s: SystemState, a: seq<Action>, b: seq<Action>)
    requires IsRun(cfg, s, a + b)
    ensures IsRun(cfg, s, a) && IsRun(cfg, After(cfg, s, a), b)
    ensures After(cfg, s, a + b) == After(cfg, After(cfg, s, a), b)
    decreases |a|
  {
    if a == [] {
      assert a + b == b;
    } else {
      assert (a + b)[1..] == a[1..] + b;
      RunCompose(cfg, Apply(cfg, s, a[0]), a[1..], b);
    }
  }

  /** Taking the last action off a run. */
  lemma RunSplit(cfg: Config, s: SystemState, actions: seq<Action>, a: Action)
    requires IsRun(cfg, s, actions + [a])
    ensures IsRun(cfg, s, actions) && Enabled(cfg, After(cfg, s, actions), a)
    ensures After(cfg, s, actions + [a]) == Apply(cfg, After(cfg, s, actions), a)
  {
    RunCompose(cfg, s, actions, [a]);
    assert [a][1..] == [];
  }

  /** One run after another. */
  lemma {:induction false} RunAppend(cfg: Config, s: SystemState, a: seq<Action>, b: seq<Action>)
    requires IsRun(cfg, s, a) && IsRun(cfg, After(cfg, s, a), b)
    ensures IsRun(cfg, s, a + b) && After(cfg, s, a + b) == After(cfg, After(cfg, s, a), b)
    decreases |a|
  {
    if a == [] {
      assert a + b == b;
    } else {
      assert (a + b)[1..] == a[1..] + b;
      RunAppend(cfg, Apply(cfg, s, a[0]), a[1..], b);
    }
  }

  /** The result that an action brings to the store. */
  function Brought(s: SystemState, a: Action): Option<WorkResult> {
    match a
    case Complete(w, delivered) => if delivered && IsBusy(s, w) then Some(s.workers[w].phase.result.Clone()) else None
    case CompleteByOther(result) => Some(result)
    case _ => None
  }

  /* ---------- shared vocabulary ---------- */

  predicate Handed(handouts: seq<Handout>, slot: nat) { exists i :: 0 <= i < |handouts| && handouts[i].slot == slot }

  predicate TakenBy(handouts: seq<Handout>, slot: nat, w: nat) { Handout(slot, Some(w)) in handouts }
}
