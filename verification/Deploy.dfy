/** Go slices and maps that can be nil; nil and empty differ, but every reader treats them alike. */
module Collections {

  datatype Slice<+T> = NilSlice | SliceOf(elems: seq<T>) {
    function Elems(): seq<T> { if NilSlice? then [] else elems }
  }

  datatype Dict = NilDict | DictOf(entries: map<string, string>) {
    function Entries(): map<string, string> { if NilDict? then map[] else entries }

    /** m[key]: a missing key reads as "". */
    function Get(key: string): string { if key in Entries() then Entries()[key] else "" }
  }

  /** append of all elements of s to a nil slice: an empty slice becomes nil. */
  function AppendToNil<T>(s: Slice<T>): Slice<T> { if s.Elems() == [] then NilSlice else s }

  /** Copying element by element into a made slice: nil becomes an empty slice. */
  function MakeAndCopy<T>(s: Slice<T>): Slice<T> { SliceOf(s.Elems()) }

  function Map<T, U>(f: T -> U, s: seq<T>): (r: seq<U>)
    ensures |r| == |s| && forall i :: 0 <= i < |s| ==> r[i] == f(s[i])
  {
    seq(|s|, i requires 0 <= i < |s| => f(s[i]))
  }

  /** The elements with p, in order. */
  function Filter<T>(p: T -> bool, s: seq<T>): seq<T> {
    if s == [] then [] else (if p(s[0]) then [s[0]] else []) + Filter(p, s[1..])
  }

  /** The elements without p, in order. */
  function FilterOut<T>(p: T -> bool, s: seq<T>): seq<T> {
    if s == [] then [] else (if p(s[0]) then [] else [s[0]]) + FilterOut(p, s[1..])
  }

  lemma {:induction false} FilterNone<T>(p: T -> bool, a: seq<T>)
    requires forall i :: 0 <= i < |a| ==> !p(a[i])
    ensures Filter(p, a) == [] && FilterOut(p, a) == a
  {
    if a != [] {
      FilterNone(p, a[1..]);
    }
  }

  /** Taking out the first element with p. */
  lemma {:induction false} FilterFirst<T>(p: T -> bool, s: seq<T>, i: nat)
    requires i < |s| && p(s[i]) && forall k :: 0 <= k < i ==> !p(s[k])
    ensures Filter(p, s) == [s[i]] + Filter(p, s[..i] + s[i + 1..])
    ensures FilterOut(p, s) == FilterOut(p, s[..i] + s[i + 1..])
  {
    if i == 0 {
      assert s[..i] + s[i + 1..] == s[1..];
    } else {
      FilterFirst(p, s[1..], i - 1);
      assert (s[..i] + s[i + 1..])[1..] == s[1..][..i - 1] + s[1..][i..];
    }
  }
}

/** The records of pkg/deploy, pkg/job, pkg/worker and pkg/evidence. */
module Deploy {
  import opened Prelude
  import opened Collections

  /** An instant; 0 is Go's zero time. */
  type Time = int

  /** A status text: the empty one, the six known ones, or any other text an executor may report. */
  datatype Status = Unset | Pending | Running | Succeeded | Failed | Skipped | Denied | Unknown(text: string)

  predicate IsKnownStatus(s: Status) { !s.Unset? && !s.Unknown? }

  datatype Component = Component(id: string, runtime: string, labels: Dict)

  datatype Application = Application(id: string, name: string, components: Slice<Component>, labels: Dict)

  datatype Target = Target(id: string, kind: string, labels: Dict)

  datatype Environment = Environment(id: string, name: string, targets: Slice<Target>, labels: Dict)

  datatype Artifact = Artifact(id: string, kind: string, ref: string, digest: string,
                               sbomRef: string, provenanceRef: string, labels: Dict)

  datatype Gate = Gate(id: string, kind: string, required: bool, status: Status, reason: string, labels: Dict)

  datatype Check = Check(id: string, kind: string, required: bool, status: Status, inputs: Dict)

  datatype Step = Step(id: string, executor: string, action: string, inputs: Dict, timeoutSeconds: int)

  datatype RollbackTarget = RollbackTarget(id: string, strategy: string, artifacts: Slice<Artifact>, labels: Dict)

  datatype Plan = Plan(
    id: string,
    application: Application,
    environment: Environment,
    artifacts: Slice<Artifact>,
    gates: Slice<Gate>,
    checks: Slice<Check>,
    steps: Slice<Step>,
    rollback: Option<RollbackTarget>,
    labels: Dict,
    createdAt: Time)

  datatype WorkerSelector = WorkerSelector(capabilities: Slice<string>, labels: Dict)

  datatype Job = Job(id: string, plan: Plan, selector: WorkerSelector, issuedAt: Time, expiresAt: Time, nonce: string) {
    predicate Expired(now: Time) { now != 0 && expiresAt != 0 && !(now < expiresAt) }

    /** A deep copy; the one thing it changes is that an empty capability slice becomes nil. */
    function Clone(): Job { this.(selector := selector.(capabilities := AppendToNil(selector.capabilities))) }
  }

  datatype SignedJob = SignedJob(algorithm: string, keyId: string, job: Job, signature: string) {
    function Clone(): SignedJob { this.(job := job.Clone()) }
  }

  datatype Info = Info(id: string, capabilities: Slice<string>, labels: Dict)

  datatype StepResult = StepResult(
    stepId: string, status: Status, message: string, startedAt: Time, finishedAt: Time, outputs: Dict)

  datatype WorkResult = WorkResult(
    jobId: string, planId: string, status: Status, message: string,
    startedAt: Time, finishedAt: Time, steps: Slice<StepResult>)
  {
    function Clone(): WorkResult { this.(steps := MakeAndCopy(steps)) }
  }

  datatype ComponentState = ComponentState(
    id: string, name: string, environmentId: string, namespace: string,
    workloadKind: string, workloadName: string, container: string, runtime: string,
    currentImage: string, currentVersion: string, currentDigest: string,
    latestImage: string, latestVersion: string, latestDigest: string,
    readyReplicas: int, desiredReplicas: int, status: Status, updateAvailable: bool,
    lastObservedAt: Time, labels: Dict)

  datatype Bundle = Bundle(
    id: string, jobId: string, planId: string, applicationId: string, environmentId: string,
    status: Status, startedAt: Time, finishedAt: Time,
    artifacts: Slice<Artifact>, steps: Slice<StepResult>, labels: Dict, errors: Slice<string>)
}

/** Info.Matches: may this worker take a job with this selector? */
module Selection {
  import opened Deploy

  /** Every required capability is offered and every required label has the required value. */
  predicate Matches(info: Info, selector: WorkerSelector) {
    && (forall c :: c in selector.capabilities.Elems() ==> c in info.capabilities.Elems())
    && (forall k :: k in selector.labels.Entries() ==> info.labels.Get(k) == selector.labels.Entries()[k])
  }

  /** One loop over the capabilities and one over the labels, the latter in any order. */
  method CheckMatches(info: Info, selector: WorkerSelector) returns (ok: bool)
    ensures ok <==> Matches(info, selector)
  {
    var required := selector.capabilities.Elems();
    for i := 0 to |required|
      invariant forall k :: 0 <= k < i ==> required[k] in info.capabilities.Elems()
    {
      if required[i] !in info.capabilities.Elems() {
        return false;
      }
    }
    var labels := selector.labels.Entries();
    var todo := labels.Keys;
    while todo != {}
      invariant todo <= labels.Keys
      invariant forall k :: k in labels && k !in todo ==> info.labels.Get(k) == labels[k]
      decreases |todo|
    {
      var key :| key in todo;
      if info.labels.Get(key) != labels[key] {
        return false;
      }
      todo := todo - {key};
    }
    return true;
  }

  /** a asks for nothing that b does not ask for. */
  predicate AsksNoMore(a: WorkerSelector, b: WorkerSelector) {
    && (forall c :: c in a.capabilities.Elems() ==> c in b.capabilities.Elems())
    && (forall k :: k in a.labels.Entries() ==>
          k in b.labels.Entries() && a.labels.Entries()[k] == b.labels.Entries()[k])
  }

  /** Whoever may take the more demanding job may take the less demanding one. */
  lemma MatchesLess(info: Info, a: WorkerSelector, b: WorkerSelector)
    ensures AsksNoMore(a, b) && Matches(info, b) ==> Matches(info, a)
  {
  }
}
