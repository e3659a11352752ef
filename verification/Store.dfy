/**
 * The in-memory control-plane store: what each operation does to its state, and the class that does it in place.
 */
module StoreSpec {
  import opened Prelude
  import opened Text
  import opened Collections
  import opened Deploy
  import opened Selection
  import opened Validation
  import opened ComponentIndex

  datatype StoreState = StoreState(
    pending: seq<SignedJob>,
    claimed: map<string, Job>,
    completed: seq<WorkResult>,
    evidence: seq<Bundle>,
    components: Index)

  const EMPTY := StoreState([], map[], [], [], map[])

  function EnqueueIn(st: StoreState, signed: SignedJob): StoreState {
    st.(pending := st.pending + [signed.Clone()])
  }

  /** The position of the first pending job this worker may take. */
  function FirstMatch(pending: seq<SignedJob>, info: Info): (r: Option<nat>)
    ensures r.Some? ==> r.value < |pending| && Matches(info, pending[r.value].job.selector)
    ensures r.Some? ==> forall k :: 0 <= k < r.value ==> !Matches(info, pending[k].job.selector)
    ensures r.None? ==> forall k :: 0 <= k < |pending| ==> !Matches(info, pending[k].job.selector)
  {
    if pending == [] then None
    else if Matches(info, pending[0].job.selector) then Some(0)
    else
      match FirstMatch(pending[1..], info)
      case None => None
      case Some(i) => Some(i + 1)
  }

  function ClaimAt(st: StoreState, i: nat): StoreState
    requires i < |st.pending|
  {
    var signed := st.pending[i];
    st.(pending := st.pending[..i] + st.pending[i + 1..], claimed := st.claimed[signed.job.id := signed.job.Clone()])
  }

  function EvidenceFromResult(result: WorkResult): Bundle {
    Bundle(result.jobId, result.jobId, result.planId, "", "", result.status, result.startedAt, result.finishedAt,
      NilSlice, result.steps, NilDict, NilSlice)
  }

  function EvidenceFromClaimedJob(claimed: Job, result: WorkResult): Bundle {
    EvidenceFromResult(result).(
      applicationId := claimed.plan.application.id,
      environmentId := claimed.plan.environment.id,
      artifacts := claimed.plan.artifacts,
      labels := claimed.plan.labels)
  }

  /** The job claimed under this id at this moment. */
  function ClaimedJob(st: StoreState, id: string): Option<Job> {
    if id in st.claimed then Some(st.claimed[id]) else None
  }

  function EvidenceFor(claimed: Option<Job>, result: WorkResult): Bundle {
    match claimed
    case Some(job) => EvidenceFromClaimedJob(job, result)
    case None => EvidenceFromResult(result)
  }

  function CompleteIn(decode: Decoder, st: StoreState, result: WorkResult): StoreState {
    var done := result.Clone();
    var job := ClaimedJob(st, done.jobId);
    StoreState(st.pending, st.claimed - {done.jobId}, st.completed + [done], st.evidence + [EvidenceFor(job, done)],
      ObserveAll(st.components, Observations(decode, job, done.steps.Elems())))
  }

  function RecordIn(st: StoreState, bundle: Bundle): StoreState { st.(evidence := st.evidence + [bundle]) }

  function UpsertIn(st: StoreState, cs: seq<ComponentState>): StoreState {
    st.(components := Observe(st.components, Listing(cs)))
  }

  /* ---------- completing, in plain words ---------- */

  /** The same result, nil and empty steps apart. */
  predicate SameResult(a: WorkResult, b: WorkResult) {
    && a.jobId == b.jobId && a.planId == b.planId && a.status == b.status && a.message == b.message
    && a.startedAt == b.startedAt && a.finishedAt == b.finishedAt && a.steps.Elems() == b.steps.Elems()
  }

  /** One entry is added to the completed log, and it is the result that was delivered. */
  lemma CompletedAsDelivered(decode: Decoder, st: StoreState, result: WorkResult)
    ensures var completed := CompleteIn(decode, st, result).completed;
      |completed| == |st.completed| + 1 && completed[..|st.completed|] == st.completed
      && SameResult(result, completed[|st.completed|])
  {
  }

  /** The claimed job belongs to the inventory application, and its first step of this id has the inventory executor. */
  predicate AnswersInventory(st: StoreState, jobId: string, stepId: string) {
    && jobId in st.claimed
    && st.claimed[jobId].plan.application.id == "pk-deploy-inventory"
    && var steps := st.claimed[jobId].plan.steps.Elems();
    && exists i ::
         0 <= i < |steps| && steps[i].id == stepId && steps[i].executor == "kubernetes.inventory"
         && forall j :: 0 <= j < i ==> steps[j].id != stepId
  }

  /** The environment an inventory covers: that of the plan, or else that of the first component; "" when unknown. */
  function Covered(st: StoreState, jobId: string, cs: seq<ComponentState>): string
    requires jobId in st.claimed
  {
    if st.claimed[jobId].plan.environment.id != "" then st.claimed[jobId].plan.environment.id
    else if cs == [] then "" else cs[0].environmentId
  }

  lemma AnswersInventoryIff(st: StoreState, jobId: string, stepId: string)
    ensures IsInventory(ClaimedJob(st, jobId), stepId) <==> AnswersInventory(st, jobId, stepId)
  {
    if jobId in st.claimed {
      var steps := st.claimed[jobId].plan.steps.Elems();
      var i := FirstStepAt(steps, stepId);
    }
  }

  /**
   * Completing with a result of one step that reports components. An unlisted component of the index goes if and only
   * if the step answers an inventory, its environment is the one covered, and it runs on kubernetes; otherwise it stays
   * as it was. The last component listed under an id is there afterwards, but for inventories of an unknown
   * environment.
   */
  lemma CompleteWithReport(
    decode: Decoder, st: StoreState, result: WorkResult, step: StepResult, cs: seq<ComponentState>, k: string)
    requires result.steps.Elems() == [step]
    requires step.outputs.Get("components") != "" && decode(step.outputs.Get("components")) == Some(cs)
    ensures var before, after := st.components, CompleteIn(decode, st, result).components;
      var inventory := AnswersInventory(st, result.jobId, step.stepId);
      var e := if inventory then Covered(st, result.jobId, cs) else "";
      && (Unlisted(cs, k) ==>
            && (k in after <==>
                  k in before && !(e != "" && before[k].environmentId == e && before[k].runtime == "kubernetes"))
            && (k in after ==> after[k] == before[k]))
      && (forall n :: ListedLastAt(cs, n, k) ==>
            if inventory && e == "" then Lookup(after, k) == Lookup(before, k) else k in after && after[k] == cs[n])
  {
    var inventory := AnswersInventory(st, result.jobId, step.stepId);
    AnswersInventoryIff(st, result.jobId, step.stepId);
    OneStepObservations(decode, ClaimedJob(st, result.jobId), step);
    if inventory && Covered(st, result.jobId, cs) == "" {
      assert CompleteIn(decode, st, result).components == st.components;
    } else {
      var o := if inventory then Inventory(Covered(st, result.jobId, cs), cs) else Listing(cs);
      ObserveAllOne(st.components, o);
      assert CompleteIn(decode, st, result).components == Observe(st.components, o);
      ObservedOneWay(st.components, o, k);
    }
  }

  /** A result in which no step has a "components" output that can be read leaves the index alone. */
  lemma CompleteWithoutReport(decode: Decoder, st: StoreState, result: WorkResult)
    requires forall i :: 0 <= i < |result.steps.Elems()| ==>
      var raw := result.steps.Elems()[i].outputs.Get("components"); raw == "" || decode(raw) == None
    ensures CompleteIn(decode, st, result).components == st.components
  {
    forall i ensures !Reports(decode, result.steps.Elems(), i) {
    }
    QuietSteps(decode, ClaimedJob(st, result.jobId), result.steps.Elems());
  }

  lemma ObservedOneWay(idx: Index, o: Observation, k: string)
    ensures forall n :: ListedLastAt(o.components, n, k) ==>
      k in Observe(idx, o) && Observe(idx, o)[k] == o.components[n]
    ensures Unlisted(o.components, k) ==>
      Lookup(Observe(idx, o), k) ==
        if k in idx && o.Inventory? && idx[k].environmentId == o.environmentId && idx[k].runtime == "kubernetes"
        then None
        else Lookup(idx, k)
  {
    forall n | ListedLastAt(o.components, n, k)
      ensures k in Observe(idx, o) && Observe(idx, o)[k] == o.components[n]
    {
      ObservedListed(idx, o, n, k);
    }
    if Unlisted(o.components, k) {
      match o {
        case Inventory(e, cs) => InventoryOfUnlisted(idx, e, cs, k);
        case Listing(cs) => ListingOfUnlisted(idx, cs, k);
      }
    }
  }

  /* ---------- completing the same job again at once ---------- */

  /** What completing with this result makes of its steps. */
  function ObservationsOf(decode: Decoder, st: StoreState, result: WorkResult): seq<Observation> {
    Observations(decode, ClaimedJob(st, result.jobId), result.steps.Elems())
  }

  /**
   * It leaves the index alone if and only if no inventory in the result sweeps what the result itself listed last,
   * which depends on the decoder, the claimed job and the steps, but not on the index.
   */
  lemma RepeatedComplete(decode: Decoder, st: StoreState, result: WorkResult)
    requires Named(ClaimedJob(st, result.jobId))
    ensures var once := CompleteIn(decode, st, result);
      CompleteIn(decode, once, result).components == once.components
      <==> NothingListedIsSwept(ObservationsOf(decode, st, result))
  {
    SecondDeliveryIff(decode, ClaimedJob(st, result.jobId), result.steps.Elems(), st.components);
  }

  /** In particular when at most one of its steps reports components. */
  lemma RepeatedCompleteOfOneReport(decode: Decoder, st: StoreState, result: WorkResult)
    requires Named(ClaimedJob(st, result.jobId))
    requires var steps := result.steps.Elems();
      forall i, j :: Reports(decode, steps, i) && Reports(decode, steps, j) ==> i == j
    ensures var once := CompleteIn(decode, st, result);
      CompleteIn(decode, once, result).components == once.components
  {
    SecondDelivery(decode, ClaimedJob(st, result.jobId), result.steps.Elems(), st.components);
  }

  /** A job whose first step lists components and whose second is an inventory of its environment. */
  function SweepingJob(id: string, environmentId: string): Job {
    Job(id,
      Plan(id, Application(INVENTORY_APPLICATION, "", NilSlice, NilDict),
        Environment(environmentId, "", NilSlice, NilDict),
        NilSlice, NilSlice, NilSlice,
        SliceOf([Step("a", "a", "a", NilDict, 0), Step("b", INVENTORY_EXECUTOR, "b", NilDict, 0)]),
        None, NilDict, 1),
      WorkerSelector(NilSlice, NilDict), 1, 2, id)
  }

  lemma LetterIsToken(c: char)
    requires 'a' <= c <= 'z'
    ensures IsToken([c]) && TrimSpace([c]) == [c]
  {
    PlainToken([c]);
    TrimSpaceOfTrimmed([c]);
  }

  lemma InventoryApplicationIsToken()
    ensures IsToken(INVENTORY_APPLICATION)
  {
    PlainToken(INVENTORY_APPLICATION);
  }

  lemma InventoryExecutorIsToken()
    ensures IsToken(INVENTORY_EXECUTOR)
  {
    PlainToken(INVENTORY_EXECUTOR);
  }

  lemma TwoGoodSteps(a: Step, b: Step)
    requires GoodStep(a) && GoodStep(b) && TrimSpace(a.id) != TrimSpace(b.id)
    ensures GoodSteps([a, b])
  {
    assert Map(TrimSpace, StepIds([a, b])) == [TrimSpace(a.id), TrimSpace(b.id)];
  }

  /** Any two tokens make it a job that can be signed. */
  lemma SweepingJobIsWellFormed(id: string, environmentId: string)
    requires IsToken(id) && IsToken(environmentId)
    ensures WellFormedJob(SweepingJob(id, environmentId))
  {
    SweepingSteps();
    InventoryApplicationIsToken();
    BareParts(INVENTORY_APPLICATION, "");
    BareParts(environmentId, "");
    NoArtifacts();
  }

  lemma NoArtifacts()
    ensures GoodArtifacts(NilSlice)
  {
  }

  lemma SweepingSteps()
    ensures GoodSteps([Step("a", "a", "a", NilDict, 0), Step("b", INVENTORY_EXECUTOR, "b", NilDict, 0)])
  {
    LetterIsToken('a');
    LetterIsToken('b');
    InventoryExecutorIsToken();
    assert "a"[0] != "b"[0];
    TwoGoodSteps(Step("a", "a", "a", NilDict, 0), Step("b", INVENTORY_EXECUTOR, "b", NilDict, 0));
  }

  /** The first step lists one component, the second lists none. */
  function SweepingResult(id: string): WorkResult {
    WorkResult(id, id, Succeeded, "", 1, 2, SliceOf([
      StepResult("a", Succeeded, "", 1, 1, DictOf(map["components" := "one"])),
      StepResult("b", Succeeded, "", 2, 2, DictOf(map["components" := "none"]))]))
  }

  function OneOrNone(x: ComponentState): Decoder {
    (raw: string) => if raw == "one" then Some([x]) else if raw == "none" then Some([]) else None
  }

  lemma SweepingPlan(id: string, environmentId: string)
    ensures !IsInventory(Some(SweepingJob(id, environmentId)), "a")
    ensures IsInventory(Some(SweepingJob(id, environmentId)), "b")
  {
    var steps := SweepingJob(id, environmentId).plan.steps.Elems();
    assert steps[0].id == "a" && steps[1..][0].id == "b" && steps[0].executor[0] == 'a' && "a"[0] != "b"[0];
    assert FirstStep(steps, "b") == FirstStep(steps[1..], "b");
  }

  lemma SweepingReports(id: string, x: ComponentState)
    ensures var steps := SweepingResult(id).steps.Elems();
      Reported(OneOrNone(x), steps[0]) == Some([x]) && Reported(OneOrNone(x), steps[1]) == Some([])
  {
    assert |"one"| == 3 && |"none"| == 4;
  }

  lemma SweepingObservations(id: string, environmentId: string, x: ComponentState)
    requires environmentId != ""
    ensures Observations(OneOrNone(x), Some(SweepingJob(id, environmentId)), SweepingResult(id).steps.Elems())
      == [Listing([x]), Inventory(environmentId, [])]
  {
    var steps := SweepingResult(id).steps.Elems();
    SweepingPlan(id, environmentId);
    SweepingReports(id, x);
    TwoStepObservations(OneOrNone(x), Some(SweepingJob(id, environmentId)), steps[0], steps[1]);
  }

  /** Completed once, the component its first step lists is swept by its second; completed again, it is back. */
  lemma SweptComesBack(st: StoreState, id: string, x: ComponentState)
    requires id in st.claimed && st.claimed[id] == SweepingJob(id, x.environmentId)
    requires x.id != "" && x.environmentId != "" && x.runtime == KUBERNETES
    ensures var decode := OneOrNone(x);
      var once := CompleteIn(decode, st, SweepingResult(id));
      var twice := CompleteIn(decode, once, SweepingResult(id));
      x.id !in once.components && x.id in twice.components && twice.components[x.id] == x
  {
    var decode, result := OneOrNone(x), SweepingResult(id);
    var os := [Listing([x]), Inventory(x.environmentId, [])];
    SweepingObservations(id, x.environmentId, x);
    UnclaimedObservations(decode, Some(st.claimed[id]), result.steps.Elems());
    assert LastListed([x], x.id) == Some(x);
    assert Sweeps(os[1], x) && LastAt(os, 0, x.id);
    LookupOfListed(st.components, os, 0, x.id);
    ListedAgain(CompleteIn(decode, st, result).components, os, 0, x.id);
  }

  /**
   * Only a job enqueued without validation, so never one that Sign accepted, can leave its environment unnamed. Its
   * inventory of
   * components without environment is dropped the first time and listed the second.
   */
  lemma UnnamedInventoryIsListedLater(
    decode: Decoder, st: StoreState, result: WorkResult, step: StepResult, x: ComponentState)
    requires result.jobId in st.claimed && result.steps == SliceOf([step])
    requires var job := st.claimed[result.jobId]; !Named(Some(job)) && IsInventory(Some(job), step.stepId)
    requires Reported(decode, step) == Some([x]) && x.environmentId == "" && x.id != ""
    ensures var once := CompleteIn(decode, st, result);
      var twice := CompleteIn(decode, once, result);
      && once.components == st.components && twice.components == st.components[x.id := x]
      && (twice.components == once.components <==> Lookup(st.components, x.id) == Some(x))
  {
    var claimed := ClaimedJob(st, result.jobId);
    OneStepObservations(decode, claimed, step);
    OneStepObservations(decode, None, step);
    ObserveAllOne(st.components, Listing([x]));
    ListOne(st.components, x);
  }

  /* ---------- claiming until nothing is left ---------- */

  /** One worker claiming again and again: the jobs it gets, in order, and the queue it leaves. */
  function Drain(pending: seq<SignedJob>, info: Info): (seq<SignedJob>, seq<SignedJob>)
    decreases |pending|
  {
    match FirstMatch(pending, info)
    case None => ([], pending)
    case Some(i) =>
      var (later, left) := Drain(pending[..i] + pending[i + 1..], info);
      ([pending[i]] + later, left)
  }

  function MayBeTakenBy(info: Info): SignedJob -> bool { (s: SignedJob) => Matches(info, s.job.selector) }

  /** The worker gets exactly the jobs it may take, in enqueue order, and leaves the others in order. */
  lemma {:induction false} DrainSplitsTheQueue(pending: seq<SignedJob>, info: Info)
    ensures Drain(pending, info) == (Filter(MayBeTakenBy(info), pending), FilterOut(MayBeTakenBy(info), pending))
    decreases |pending|
  {
    var mine := MayBeTakenBy(info);
    match FirstMatch(pending, info) {
      case None =>
        FilterNone(mine, pending);
      case Some(i) =>
        DrainSplitsTheQueue(pending[..i] + pending[i + 1..], info);
        FilterFirst(mine, pending, i);
    }
  }
}

/** The order in which a snapshot lists components. */
module SnapshotOrder {
  import opened Text
  import opened Deploy
  import opened ComponentIndex
  import opened Sorting

  function CompareComponents(a: ComponentState, b: ComponentState): int {
    if a.environmentId != b.environmentId then CompareStrings(a.environmentId, b.environmentId)
    else CompareStrings(a.id, b.id)
  }

  /** By environment, and within an environment by id. */
  predicate StrictlyIncreasing(cs: seq<ComponentState>) {
    forall i, j :: 0 <= i < j < |cs| ==> ComesBefore(cs[i], cs[j])
  }

  predicate ComesBefore(a: ComponentState, b: ComponentState) {
    Less(a.environmentId, b.environmentId) || (a.environmentId == b.environmentId && Less(a.id, b.id))
  }

  lemma ComesBeforeIff(a: ComponentState, b: ComponentState)
    ensures CompareComponents(a, b) < 0 <==> ComesBefore(a, b)
  {
    LessIrreflexive(a.environmentId);
  }

  lemma ComesBeforeOneWay(a: ComponentState, b: ComponentState)
    ensures !(ComesBefore(a, b) && ComesBefore(b, a))
  {
    LessTrichotomy(a.environmentId, b.environmentId);
    LessTrichotomy(a.id, b.id);
  }

  lemma CompareComponentsOrder(a: ComponentState, b: ComponentState, c: ComponentState)
    ensures CompareComponents(a, b) < 0 <==> CompareComponents(b, a) > 0
    ensures CompareComponents(a, b) == 0 <==> a.environmentId == b.environmentId && a.id == b.id
    ensures CompareComponents(a, b) <= 0 && CompareComponents(b, c) <= 0 ==> CompareComponents(a, c) <= 0
  {
    CompareStringsOrder(a.environmentId, b.environmentId, c.environmentId);
    CompareStringsOrder(a.id, b.id, c.id);
    CompareStringsOrder(b.environmentId, c.environmentId, a.environmentId);
    CompareStringsOrder(b.id, c.id, a.id);
  }

  lemma CompareComponentsPreorder()
    ensures Preorder(CompareComponents)
  {
    forall a, b ensures CompareComponents(a, b) < 0 <==> CompareComponents(b, a) > 0 {
      CompareComponentsOrder(a, b, a);
    }
    forall a, b, c | CompareComponents(a, b) <= 0 && CompareComponents(b, c) <= 0 ensures CompareComponents(a, c) <= 0 {
      CompareComponentsOrder(a, b, c);
    }
  }

  ghost function Elements(cs: seq<ComponentState>): set<ComponentState> { set c | c in cs }

  ghost function Values(idx: Index): set<ComponentState> { set k | k in idx :: idx[k] }

  /** A set of components has only one strictly increasing listing, so the order of a map iteration cannot show. */
  lemma {:induction false} ListingIsUnique(a: seq<ComponentState>, b: seq<ComponentState>)
    requires StrictlyIncreasing(a) && StrictlyIncreasing(b) && Elements(a) == Elements(b)
    ensures a == b
  {
    NoElements(a);
    NoElements(b);
    if a != [] && b != [] {
      SameFirst(a, b);
      SameRest(a, b);
      ListingIsUnique(a[1..], b[1..]);
      assert a == [a[0]] + a[1..] && b == [b[0]] + b[1..];
    }
  }

  lemma NoElements(a: seq<ComponentState>)
    ensures Elements(a) == {} <==> a == []
  {
    if a != [] {
      assert a[0] in Elements(a);
    }
  }

  lemma SameFirst(a: seq<ComponentState>, b: seq<ComponentState>)
    requires StrictlyIncreasing(a) && StrictlyIncreasing(b) && Elements(a) == Elements(b)
    requires a != [] && b != []
    ensures a[0] == b[0]
  {
    assert a[0] in Elements(b) && b[0] in Elements(a);
    var i :| 0 <= i < |b| && b[i] == a[0];
    var j :| 0 <= j < |a| && a[j] == b[0];
    ComesBeforeOneWay(a[0], b[0]);
  }

  lemma SameRest(a: seq<ComponentState>, b: seq<ComponentState>)
    requires StrictlyIncreasing(a) && StrictlyIncreasing(b) && Elements(a) == Elements(b)
    requires a != [] && b != [] && a[0] == b[0]
    ensures Elements(a[1..]) == Elements(b[1..])
  {
    RestIsLarger(a);
    RestIsLarger(b);
    forall c ensures c in Elements(a[1..]) <==> c in Elements(b[1..]) {
      assert c in Elements(a) <==> c in Elements(b);
    }
  }

  lemma RestIsLarger(a: seq<ComponentState>)
    requires StrictlyIncreasing(a) && a != []
    ensures Elements(a[1..]) == Elements(a) - {a[0]}
  {
    ComesBeforeOneWay(a[0], a[0]);
    assert a == [a[0]] + a[1..];
    forall c | c in a[1..] ensures c != a[0] {
      var i :| 0 <= i < |a[1..]| && a[1..][i] == c;
      assert a[i + 1] == c;
    }
  }

  lemma RepeatedElement<T>(s: seq<T>, i: nat, j: nat)
    requires i < j < |s| && s[i] == s[j]
    ensures multiset(s)[s[i]] >= 2
  {
    assert s == s[..j] + [s[j]] + s[j + 1..];
    assert s[..j][i] == s[i];
  }

  /** Sorting a listing of the index without repetition makes it strictly increasing. */
  lemma SortedListing(idx: Index, unsorted: seq<ComponentState>, sorted: seq<ComponentState>)
    requires Keyed(idx) && multiset(sorted) == multiset(unsorted) && SortedBy(sorted, CompareComponents)
    requires forall c :: c in unsorted ==> c.id in idx && idx[c.id] == c
    requires forall c :: multiset(unsorted)[c] <= 1
    ensures StrictlyIncreasing(sorted)
    ensures Elements(sorted) == Elements(unsorted)
  {
    forall c ensures c in sorted <==> c in unsorted {
      assert c in multiset(sorted) <==> c in multiset(unsorted);
    }
    forall i, j | 0 <= i < j < |sorted| ensures ComesBefore(sorted[i], sorted[j]) {
      ComesBeforeIff(sorted[i], sorted[j]);
      CompareComponentsOrder(sorted[i], sorted[j], sorted[i]);
      if CompareComponents(sorted[i], sorted[j]) == 0 {
        assert sorted[i] in sorted && sorted[j] in sorted;
        RepeatedElement(sorted, i, j);
      }
    }
  }
}

module ControlPlane {
  import opened Prelude
  import opened Collections
  import opened Deploy
  import opened Selection
  import opened ComponentIndex
  import opened StoreSpec
  import opened SnapshotOrder
  import opened Sorting

  datatype JobSummary = JobSummary(
    id: string, planId: string, applicationId: string, environmentId: string, executorCount: nat, expiresAt: Time)

  datatype Snapshot = Snapshot(
    startedAt: Time, components: seq<ComponentState>, readyComponents: nat, staleComponents: nat,
    pending: seq<JobSummary>, completed: seq<WorkResult>, evidence: seq<Bundle>)

  function Summary(signed: SignedJob): JobSummary {
    var plan := signed.job.plan;
    JobSummary(signed.job.id, plan.id, plan.application.id, plan.environment.id, |plan.steps.Elems()|,
      signed.job.expiresAt)
  }

  /** The six fields that stand for a pending job. */
  predicate Summarizes(summary: JobSummary, signed: SignedJob) {
    && summary.id == signed.job.id
    && summary.planId == signed.job.plan.id
    && summary.applicationId == signed.job.plan.application.id
    && summary.environmentId == signed.job.plan.environment.id
    && summary.executorCount == |signed.job.plan.steps.Elems()|
    && summary.expiresAt == signed.job.expiresAt
  }

  function Ready(idx: Index): set<string> { set k | k in idx && idx[k].status == Succeeded }

  function Stale(idx: Index): set<string> { set k | k in idx && idx[k].updateAvailable }

  /** worker.ErrNoJob */
  datatype NoJob = NoJob

  /** Store: every method runs under one mutex, so each is one step of the whole system. */
  class Store {
    const decode: Decoder
    const startedAt: Time
    var pending: seq<SignedJob>
    var claimed: map<string, Job>
    var completed: seq<WorkResult>
    var evidence: seq<Bundle>
    var components: Index

    ghost function State(): StoreState
      reads this
    {
      StoreState(pending, claimed, completed, evidence, components)
    }

    ghost predicate Valid()
      reads this
    {
      Keyed(components)
    }

    constructor (now: Time, decode: Decoder)
      ensures State() == EMPTY && Valid() && startedAt == now && this.decode == decode
    {
      this.decode := decode;
      startedAt := now;
      pending, claimed, completed, evidence, components := [], map[], [], [], map[];
    }

    method Enqueue(signed: SignedJob)
      modifies this
      ensures State() == EnqueueIn(old(State()), signed)
      ensures pending == old(pending) + [signed.Clone()] && components == old(components)
      ensures claimed == old(claimed) && completed == old(completed) && evidence == old(evidence)
    {
      pending := pending + [signed.Clone()];
    }

    /** The first pending job matching the worker leaves the queue and becomes claimed. */
    method Claim(info: Info) returns (r: Result<SignedJob, NoJob>)
      modifies this
      ensures match FirstMatch(old(pending), info)
        case Some(i) => r == Ok(old(pending)[i].Clone()) && State() == ClaimAt(old(State()), i)
        case None => r == Err(NoJob) && State() == old(State())
    {
      for i := 0 to |pending|
        invariant State() == old(State())
        invariant forall k :: 0 <= k < i ==> !Matches(info, pending[k].job.selector)
      {
        var signed := pending[i];
        var matches := CheckMatches(info, signed.job.selector);
        if !matches {
          continue;
        }
        pending := pending[..i] + pending[i + 1..];
        claimed := claimed[signed.job.id := signed.job.Clone()];
        return Ok(signed.Clone());
      }
      return Err(NoJob);
    }

    method Complete(result: WorkResult)
      modifies this
      ensures State() == CompleteIn(decode, old(State()), result)
    {
      var done := result.Clone();
      completed := completed + [done];
      if done.jobId in claimed {
        var job := claimed[done.jobId];
        claimed := claimed - {done.jobId};
        evidence := evidence + [EvidenceFromClaimedJob(job, done)];
        IngestComponentState(Some(job), done);
        return;
      }
      evidence := evidence + [EvidenceFromResult(done)];
      IngestComponentState(None, done);
    }

    method Record(bundle: Bundle)
      modifies this
      ensures State() == RecordIn(old(State()), bundle)
      ensures evidence == old(evidence) + [bundle] && components == old(components)
      ensures pending == old(pending) && claimed == old(claimed) && completed == old(completed)
    {
      evidence := evidence + [bundle];
    }

    method UpsertComponents(cs: seq<ComponentState>)
      modifies this
      ensures State() == UpsertIn(old(State()), cs)
      ensures components == Observe(old(components), Listing(cs)) && pending == old(pending)
      ensures claimed == old(claimed) && completed == old(completed) && evidence == old(evidence)
    {
      UpsertComponentsLocked(cs);
    }

    method Component(id: string) returns (r: Option<ComponentState>)
      ensures r == Lookup(components, id)
    {
      if id in components {
        return Some(components[id]);
      }
      return None;
    }

    method IngestComponentState(claimedJob: Option<Job>, result: WorkResult)
      modifies this`components
      ensures components == ObserveAll(old(components), Observations(decode, claimedJob, result.steps.Elems()))
    {
      var steps := result.steps.Elems();
      ghost var before := components;
      for i := 0 to |steps|
        invariant components == Ingested(decode, before, claimedJob, steps, i)
      {
        IngestNext(decode, before, claimedJob, steps, i);
        IngestStep(claimedJob, steps[i]);
      }
      assert steps[..|steps|] == steps;
    }

    /** The body of that loop; a step without readable components is skipped. */
    method IngestStep(claimedJob: Option<Job>, step: StepResult)
      modifies this`components
      ensures var os := StepObservation(decode, claimedJob, step);
        components == if os == [] then old(components) else Observe(old(components), os[0])
    {
      var raw := step.outputs.Get("components");
      if raw == "" {
        return;
      }
      var decoded := decode(raw);
      if decoded.None? {
        return;
      }
      var inventory := IsKubernetesInventory(claimedJob, step);
      if inventory {
        ReplaceKubernetesInventoryLocked(claimedJob.value.plan.environment.id, decoded.value);
        return;
      }
      UpsertComponentsLocked(decoded.value);
    }

    method IsKubernetesInventory(claimedJob: Option<Job>, step: StepResult) returns (r: bool)
      ensures r <==> IsInventory(claimedJob, step.stepId)
    {
      if claimedJob.None? || claimedJob.value.plan.application.id != INVENTORY_APPLICATION {
        return false;
      }
      var planSteps := claimedJob.value.plan.steps.Elems();
      for i := 0 to |planSteps|
        invariant FirstStep(planSteps, step.stepId) == FirstStep(planSteps[i..], step.stepId)
      {
        if planSteps[i].id == step.stepId {
          return planSteps[i].executor == INVENTORY_EXECUTOR;
        }
      }
      return false;
    }

    /** Takes out the covered components in whatever order the map is walked, then lists the new ones. */
    method ReplaceKubernetesInventoryLocked(environmentId: string, cs: seq<ComponentState>)
      modifies this`components
      ensures var e := ResolveEnvironment(environmentId, cs);
        components == if e == "" then old(components) else Observe(old(components), Inventory(e, cs))
    {
      var e := environmentId;
      if |cs| > 0 && e == "" {
        e := cs[0].environmentId;
      }
      if e == "" {
        return;
      }
      var todo := components.Keys;
      while todo != {}
        invariant todo <= components.Keys
        invariant forall k :: k in components <==> k in old(components) && (k in todo || !Covers(e, old(components)[k]))
        invariant forall k :: k in components ==> components[k] == old(components)[k]
        decreases |todo|
      {
        var id :| id in todo;
        if Covers(e, components[id]) {
          components := components - {id};
        }
        todo := todo - {id};
      }
      assert components == Sweep(old(components), e);
      UpsertComponentsLocked(cs);
    }

    method UpsertComponentsLocked(cs: seq<ComponentState>)
      modifies this`components
      ensures components == Observe(old(components), Listing(cs))
    {
      for i := 0 to |cs|
        invariant components == Upsert(old(components), cs[..i])
      {
        assert cs[..i + 1][..i] == cs[..i];
        if cs[i].id == "" {
          continue;
        }
        components := components[cs[i].id := cs[i]];
      }
      assert cs[..|cs|] == cs;
    }

    /** Summaries, copies, and the components as the one strictly increasing list of what the index holds. */
    method TakeSnapshot() returns (s: Snapshot)
      requires Valid()
      ensures StrictlyIncreasing(s.components) && Elements(s.components) == Values(components)
      ensures s.readyComponents == |set k | k in components && components[k].status == Succeeded|
      ensures s.staleComponents == |set k | k in components && components[k].updateAvailable|
      ensures |s.pending| == |pending| && forall i :: 0 <= i < |pending| ==> Summarizes(s.pending[i], pending[i])
      ensures |s.completed| == |completed|
      ensures forall i :: 0 <= i < |completed| ==> SameResult(completed[i], s.completed[i])
      ensures s.evidence == evidence && s.startedAt == startedAt
    {
      var summaries := [];
      for i := 0 to |pending|
        invariant summaries == Map(Summary, pending[..i])
      {
        summaries := summaries + [Summary(pending[i])];
      }
      assert pending[..|pending|] == pending;
      var results := [];
      for i := 0 to |completed|
        invariant |results| == i && forall k :: 0 <= k < i ==> results[k] == completed[k].Clone()
      {
        results := results + [completed[i].Clone()];
      }
      var list, ready, stale, keys := ListComponents();
      ListedOnce(components, keys, list);
      ListedAll(components, keys, list);
      CompareComponentsPreorder();
      var sorted := SortFunc(list, CompareComponents);
      SortedListing(components, list, sorted);
      s := Snapshot(startedAt, sorted, ready, stale, summaries, results, evidence);
    }

    method ListComponents() returns (list: seq<ComponentState>, ready: nat, stale: nat, ghost keys: seq<string>)
      ensures Lists(components, keys, list) && KeySet(keys) == components.Keys
      ensures ready == CountReady(list) && stale == CountStale(list)
    {
      var order := IterationOrder(components.Keys);
      keys := order;
      list, ready, stale := ListInOrder(components, order);
    }
  }

  /** The loop over the components, in the order the map is walked. */
  method ListInOrder(idx: Index, order: seq<string>) returns (list: seq<ComponentState>, ready: nat, stale: nat)
    requires forall i :: 0 <= i < |order| ==> order[i] in idx
    ensures |list| == |order| && forall i :: 0 <= i < |order| ==> list[i] == idx[order[i]]
    ensures ready == CountReady(list) && stale == CountStale(list)
  {
    list, ready, stale := [], 0, 0;
    for i := 0 to |order|
      invariant |list| == i && forall k :: 0 <= k < i ==> list[k] == idx[order[k]]
      invariant ready == CountReady(list) && stale == CountStale(list)
    {
      var component := idx[order[i]];
      if component.status == Succeeded {
        ready := ready + 1;
      }
      if component.updateAvailable {
        stale := stale + 1;
      }
      CountsNext(list, component);
      list := list + [component];
    }
  }

  /** A walk over a map visits every key once, in an order nothing is known about. */
  method IterationOrder(all: set<string>) returns (keys: seq<string>)
    ensures KeySet(keys) == all && forall i :: 0 <= i < |keys| ==> keys[i] in all
    ensures forall i, j :: 0 <= i < j < |keys| ==> keys[i] != keys[j]
  {
    keys := [];
    var todo := all;
    while todo != {}
      invariant todo !! KeySet(keys) && todo + KeySet(keys) == all && forall i :: 0 <= i < |keys| ==> keys[i] in all
      invariant forall i, j :: 0 <= i < j < |keys| ==> keys[i] != keys[j]
      decreases todo
    {
      var k :| k in todo;
      assert k !in KeySet(keys);
      todo, keys := todo - {k}, keys + [k];
    }
  }

  function CountReady(list: seq<ComponentState>): nat {
    if list == [] then 0 else CountReady(list[..|list| - 1]) + if list[|list| - 1].status == Succeeded then 1 else 0
  }

  function CountStale(list: seq<ComponentState>): nat {
    if list == [] then 0 else CountStale(list[..|list| - 1]) + if list[|list| - 1].updateAvailable then 1 else 0
  }

  lemma CountsNext(list: seq<ComponentState>, c: ComponentState)
    ensures CountReady(list + [c]) == CountReady(list) + if c.status == Succeeded then 1 else 0
    ensures CountStale(list + [c]) == CountStale(list) + if c.updateAvailable then 1 else 0
  {
    assert (list + [c])[..|list|] == list;
  }

  ghost function KeySet(keys: seq<string>): set<string> { set k | k in keys }

  /** The list holds the components of these keys, each key once. */
  ghost predicate Lists(idx: Index, keys: seq<string>, list: seq<ComponentState>) {
    && |list| == |keys|
    && (forall i :: 0 <= i < |keys| ==> keys[i] in idx && list[i] == idx[keys[i]])
    && (forall i, j :: 0 <= i < j < |keys| ==> keys[i] != keys[j])
  }

  lemma {:induction false} AtMostOnce(idx: Index, keys: seq<string>, list: seq<ComponentState>, c: ComponentState)
    requires Keyed(idx) && Lists(idx, keys, list)
    ensures multiset(list)[c] <= 1
    ensures c in multiset(list) ==> c.id in keys
  {
    if keys != [] {
      var n := |keys| - 1;
      AtMostOnce(idx, keys[..n], list[..n], c);
      assert list == list[..n] + [list[n]];
      assert list[n].id == keys[n] && keys[n] !in keys[..n];
    }
  }

  lemma {:induction false} CountsOfList(idx: Index, keys: seq<string>, list: seq<ComponentState>)
    requires Lists(idx, keys, list)
    ensures CountReady(list) == |Ready(idx) * KeySet(keys)| && CountStale(list) == |Stale(idx) * KeySet(keys)|
  {
    if keys != [] {
      var n := |keys| - 1;
      CountsOfList(idx, keys[..n], list[..n]);
      KeySetNext(keys, Ready(idx));
      KeySetNext(keys, Stale(idx));
    }
  }

  lemma KeySetNext(keys: seq<string>, all: set<string>)
    requires keys != [] && forall i, j :: 0 <= i < j < |keys| ==> keys[i] != keys[j]
    ensures var n := |keys| - 1;
      |all * KeySet(keys)| == |all * KeySet(keys[..n])| + if keys[n] in all then 1 else 0
  {
    var n := |keys| - 1;
    assert keys == keys[..n] + [keys[n]];
    assert all * KeySet(keys) == all * KeySet(keys[..n]) + if keys[n] in all then {keys[n]} else {};
  }

  lemma ListedOnce(idx: Index, keys: seq<string>, list: seq<ComponentState>)
    requires Keyed(idx) && Lists(idx, keys, list) && KeySet(keys) == idx.Keys
    ensures forall c :: c in list ==> c.id in idx && idx[c.id] == c
    ensures forall c :: multiset(list)[c] <= 1
    ensures CountReady(list) == |Ready(idx)| && CountStale(list) == |Stale(idx)|
  {
    CountsOfList(idx, keys, list);
    assert Ready(idx) * idx.Keys == Ready(idx) && Stale(idx) * idx.Keys == Stale(idx);
    forall c ensures multiset(list)[c] <= 1 {
      AtMostOnce(idx, keys, list, c);
    }
  }

  lemma ListedAll(idx: Index, keys: seq<string>, list: seq<ComponentState>)
    requires Lists(idx, keys, list) && KeySet(keys) == idx.Keys
    ensures Elements(list) == Values(idx)
  {
    forall k | k in idx ensures idx[k] in list {
      assert k in KeySet(keys);
      var i :| 0 <= i < |keys| && keys[i] == k;
      assert list[i] == idx[k];
    }
  }

  /** The index after the first n steps of a result. */
  function Ingested(decode: Decoder, idx: Index, claimed: Option<Job>, steps: seq<StepResult>, n: nat): Index
    requires n <= |steps|
  {
    ObserveAll(idx, Observations(decode, claimed, steps[..n]))
  }

  lemma IngestNext(decode: Decoder, idx: Index, claimed: Option<Job>, steps: seq<StepResult>, n: nat)
    requires n < |steps|
    ensures var os := StepObservation(decode, claimed, steps[n]);
      var before := Ingested(decode, idx, claimed, steps, n);
      Ingested(decode, idx, claimed, steps, n + 1) == if os == [] then before else Observe(before, os[0])
  {
    assert steps[..n + 1][..n] == steps[..n];
    ObserveAllNext(idx, Observations(decode, claimed, steps[..n]), StepObservation(decode, claimed, steps[n]));
  }

  lemma ObserveAllNext(idx: Index, before: seq<Observation>, now: seq<Observation>)
    requires |now| <= 1
    ensures ObserveAll(idx, before + now) == if now == [] then ObserveAll(idx, before)
      else Observe(ObserveAll(idx, before), now[0])
  {
    if now == [] {
      assert before + now == before;
    } else {
      assert (before + now)[..|before|] == before;
    }
  }

  /** Every operation keeps the index keyed by component id. */
  lemma CompleteKeepsKeyed(decode: Decoder, st: StoreState, result: WorkResult)
    requires Keyed(st.components)
    ensures Keyed(CompleteIn(decode, st, result).components)
  {
    ObserveAllKeepsKeyed(
      st.components, Observations(decode, ClaimedJob(st, result.jobId), result.Clone().steps.Elems()));
  }
}
