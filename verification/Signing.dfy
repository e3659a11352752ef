/**
 * What JSON keeps of a job. Nil and empty collections are both omitted from the text, everywhere but in the
 * steps of a plan, so two jobs have the same JSON text exactly when their canonical forms are equal.
 */
module Wire {
  import opened Prelude
  import opened Collections
  import opened Deploy
  import opened Selection
  import opened Validation

  function CanonDict(d: Dict): Dict { if d.Entries() == map[] then NilDict else d }

  function CanonSlice<T>(canon: T -> T, s: Slice<T>): Slice<T> {
    if s.Elems() == [] then NilSlice else SliceOf(Map(canon, s.Elems()))
  }

  function CanonComponent(c: Component): Component { c.(labels := CanonDict(c.labels)) }
  function CanonTarget(t: Target): Target { t.(labels := CanonDict(t.labels)) }
  function CanonArtifact(a: Artifact): Artifact { a.(labels := CanonDict(a.labels)) }
  function CanonGate(g: Gate): Gate { g.(labels := CanonDict(g.labels)) }
  function CanonCheck(c: Check): Check { c.(inputs := CanonDict(c.inputs)) }
  function CanonStep(s: Step): Step { s.(inputs := CanonDict(s.inputs)) }

  function CanonApplication(a: Application): Application {
    a.(components := CanonSlice(CanonComponent, a.components), labels := CanonDict(a.labels))
  }

  function CanonEnvironment(e: Environment): Environment {
    e.(targets := CanonSlice(CanonTarget, e.targets), labels := CanonDict(e.labels))
  }

  /** The steps have no omitempty tag: nil steps are written as null, empty steps as []. */
  function CanonSteps(s: Slice<Step>): Slice<Step> {
    if s.NilSlice? then NilSlice else SliceOf(Map(CanonStep, s.Elems()))
  }

  function CanonRollback(r: Option<RollbackTarget>): Option<RollbackTarget> {
    match r
    case None => None
    case Some(t) => Some(t.(artifacts := CanonSlice(CanonArtifact, t.artifacts), labels := CanonDict(t.labels)))
  }

  function CanonPlan(p: Plan): Plan {
    Plan(p.id, CanonApplication(p.application), CanonEnvironment(p.environment),
      CanonSlice(CanonArtifact, p.artifacts), CanonSlice(CanonGate, p.gates), CanonSlice(CanonCheck, p.checks),
      CanonSteps(p.steps), CanonRollback(p.rollback), CanonDict(p.labels), p.createdAt)
  }

  function CanonSelector(s: WorkerSelector): WorkerSelector {
    WorkerSelector(AppendToNil(s.capabilities), CanonDict(s.labels))
  }

  function Canon(j: Job): Job { j.(plan := CanonPlan(j.plan), selector := CanonSelector(j.selector)) }

  /** b may be what the other side decodes when a was encoded. */
  predicate SameOnWire(a: SignedJob, b: SignedJob) {
    a.algorithm == b.algorithm && a.keyId == b.keyId && a.signature == b.signature && Canon(a.job) == Canon(b.job)
  }

  lemma CloneSameOnWire(s: SignedJob)
    ensures SameOnWire(s, s.Clone())
  {
  }

  /* ---------- what the canonical form keeps: everything but the difference of nil and empty ---------- */

  predicate SameDict(a: Dict, b: Dict) { a.Entries() == b.Entries() }

  predicate SameSlice<T>(same: (T, T) -> bool, s: Slice<T>, t: Slice<T>) {
    |s.Elems()| == |t.Elems()| && forall i :: 0 <= i < |s.Elems()| ==> same(s.Elems()[i], t.Elems()[i])
  }

  lemma CanonDictIff(a: Dict, b: Dict)
    ensures CanonDict(a) == CanonDict(b) <==> SameDict(a, b)
  {
  }

  lemma CanonSliceIff<T(!new)>(canon: T -> T, same: (T, T) -> bool, s: Slice<T>, t: Slice<T>)
    requires forall x, y :: canon(x) == canon(y) <==> same(x, y)
    ensures CanonSlice(canon, s) == CanonSlice(canon, t) <==> SameSlice(same, s, t)
  {
    var a, b := Map(canon, s.Elems()), Map(canon, t.Elems());
    assert a == b <==> SameSlice(same, s, t);
    assert (a == [] <==> s.Elems() == []) && (b == [] <==> t.Elems() == []);
  }

  predicate SameComponent(a: Component, b: Component) {
    a.id == b.id && a.runtime == b.runtime && SameDict(a.labels, b.labels)
  }

  predicate SameTarget(a: Target, b: Target) { a.id == b.id && a.kind == b.kind && SameDict(a.labels, b.labels) }

  predicate SameArtifact(a: Artifact, b: Artifact) {
    && a.id == b.id && a.kind == b.kind && a.ref == b.ref && a.digest == b.digest
    && a.sbomRef == b.sbomRef && a.provenanceRef == b.provenanceRef && SameDict(a.labels, b.labels)
  }

  predicate SameGate(a: Gate, b: Gate) {
    && a.id == b.id && a.kind == b.kind && a.required == b.required && a.status == b.status
    && a.reason == b.reason && SameDict(a.labels, b.labels)
  }

  predicate SameCheck(a: Check, b: Check) {
    && a.id == b.id && a.kind == b.kind && a.required == b.required && a.status == b.status
    && SameDict(a.inputs, b.inputs)
  }

  predicate SameStep(a: Step, b: Step) {
    && a.id == b.id && a.executor == b.executor && a.action == b.action
    && SameDict(a.inputs, b.inputs) && a.timeoutSeconds == b.timeoutSeconds
  }

  lemma CanonSmallPartsIff()
    ensures forall x, y :: CanonComponent(x) == CanonComponent(y) <==> SameComponent(x, y)
    ensures forall x, y :: CanonTarget(x) == CanonTarget(y) <==> SameTarget(x, y)
    ensures forall x, y :: CanonArtifact(x) == CanonArtifact(y) <==> SameArtifact(x, y)
    ensures forall x, y :: CanonGate(x) == CanonGate(y) <==> SameGate(x, y)
    ensures forall x, y :: CanonCheck(x) == CanonCheck(y) <==> SameCheck(x, y)
    ensures forall x, y :: CanonStep(x) == CanonStep(y) <==> SameStep(x, y)
  {
  }

  predicate SameApplication(a: Application, b: Application) {
    && a.id == b.id && a.name == b.name
    && SameSlice(SameComponent, a.components, b.components) && SameDict(a.labels, b.labels)
  }

  predicate SameEnvironment(a: Environment, b: Environment) {
    && a.id == b.id && a.name == b.name
    && SameSlice(SameTarget, a.targets, b.targets) && SameDict(a.labels, b.labels)
  }

  predicate SameRollback(a: Option<RollbackTarget>, b: Option<RollbackTarget>) {
    if a.None? || b.None? then a == b
    else
      && a.value.id == b.value.id && a.value.strategy == b.value.strategy
      && SameSlice(SameArtifact, a.value.artifacts, b.value.artifacts) && SameDict(a.value.labels, b.value.labels)
  }

  /** Nil steps are told from empty ones. */
  predicate SameSteps(a: Slice<Step>, b: Slice<Step>) { a.NilSlice? == b.NilSlice? && SameSlice(SameStep, a, b) }

  predicate SamePlan(a: Plan, b: Plan) {
    && a.id == b.id && a.createdAt == b.createdAt && SameDict(a.labels, b.labels)
    && SameApplication(a.application, b.application) && SameEnvironment(a.environment, b.environment)
    && SameSlice(SameArtifact, a.artifacts, b.artifacts) && SameSlice(SameGate, a.gates, b.gates)
    && SameSlice(SameCheck, a.checks, b.checks) && SameSteps(a.steps, b.steps) && SameRollback(a.rollback, b.rollback)
  }

  /** The same job, apart from nil and empty collections. */
  predicate SameJob(a: Job, b: Job) {
    && a.id == b.id && a.nonce == b.nonce && a.issuedAt == b.issuedAt && a.expiresAt == b.expiresAt
    && a.selector.capabilities.Elems() == b.selector.capabilities.Elems()
    && SameDict(a.selector.labels, b.selector.labels)
    && SamePlan(a.plan, b.plan)
  }

  lemma CanonPlaceIff(a: Plan, b: Plan)
    ensures CanonApplication(a.application) == CanonApplication(b.application)
      <==> SameApplication(a.application, b.application)
    ensures CanonEnvironment(a.environment) == CanonEnvironment(b.environment)
      <==> SameEnvironment(a.environment, b.environment)
  {
    CanonSmallPartsIff();
    CanonSliceIff(CanonComponent, SameComponent, a.application.components, b.application.components);
    CanonSliceIff(CanonTarget, SameTarget, a.environment.targets, b.environment.targets);
    CanonDictIff(a.application.labels, b.application.labels);
    CanonDictIff(a.environment.labels, b.environment.labels);
  }

  lemma CanonStepsIff(a: Slice<Step>, b: Slice<Step>)
    ensures CanonSteps(a) == CanonSteps(b) <==> SameSteps(a, b)
  {
    CanonSmallPartsIff();
    var x, y := Map(CanonStep, a.Elems()), Map(CanonStep, b.Elems());
    assert x == y <==> SameSlice(SameStep, a, b);
  }

  lemma CanonRollbackIff(a: Option<RollbackTarget>, b: Option<RollbackTarget>)
    ensures CanonRollback(a) == CanonRollback(b) <==> SameRollback(a, b)
  {
    CanonSmallPartsIff();
    if a.Some? && b.Some? {
      CanonSliceIff(CanonArtifact, SameArtifact, a.value.artifacts, b.value.artifacts);
      CanonDictIff(a.value.labels, b.value.labels);
    }
  }

  lemma CanonListsIff(a: Plan, b: Plan)
    ensures CanonSlice(CanonArtifact, a.artifacts) == CanonSlice(CanonArtifact, b.artifacts)
      <==> SameSlice(SameArtifact, a.artifacts, b.artifacts)
    ensures CanonSlice(CanonGate, a.gates) == CanonSlice(CanonGate, b.gates) <==> SameSlice(SameGate, a.gates, b.gates)
    ensures CanonSlice(CanonCheck, a.checks) == CanonSlice(CanonCheck, b.checks)
      <==> SameSlice(SameCheck, a.checks, b.checks)
  {
    CanonSmallPartsIff();
    CanonSliceIff(CanonArtifact, SameArtifact, a.artifacts, b.artifacts);
    CanonSliceIff(CanonGate, SameGate, a.gates, b.gates);
    CanonSliceIff(CanonCheck, SameCheck, a.checks, b.checks);
  }

  lemma CanonPlanIff(a: Plan, b: Plan)
    ensures CanonPlan(a) == CanonPlan(b) <==> SamePlan(a, b)
  {
    CanonPlaceIff(a, b);
    CanonListsIff(a, b);
    CanonStepsIff(a.steps, b.steps);
    CanonRollbackIff(a.rollback, b.rollback);
    CanonDictIff(a.labels, b.labels);
  }

  /** Two jobs have one JSON text exactly when they are the same job apart from nil and empty collections. */
  lemma CanonIff(a: Job, b: Job)
    ensures Canon(a) == Canon(b) <==> SameJob(a, b)
  {
    CanonPlanIff(a.plan, b.plan);
    CanonDictIff(a.selector.labels, b.selector.labels);
    assert AppendToNil(a.selector.capabilities) == AppendToNil(b.selector.capabilities)
      <==> a.selector.capabilities.Elems() == b.selector.capabilities.Elems();
  }

  /** The selector check cannot tell the two apart. */
  lemma MatchesOnWire(info: Info, a: Job, b: Job)
    requires Canon(a) == Canon(b)
    ensures Matches(info, a.selector) <==> Matches(info, b.selector)
  {
    assert CanonSelector(a.selector) == CanonSelector(b.selector);
    assert a.selector.capabilities.Elems() == b.selector.capabilities.Elems();
    assert a.selector.labels.Entries() == b.selector.labels.Entries();
  }

  /* ---------- validation cannot tell them apart either ---------- */

  lemma CanonElems<T>(canon: T -> T, good: T -> bool, id: T -> string, s: Slice<T>)
    requires forall x :: x in s.Elems() ==> good(canon(x)) == good(x) && id(canon(x)) == id(x)
    ensures Map(id, CanonSlice(canon, s).Elems()) == Map(id, s.Elems())
    ensures (forall x :: x in CanonSlice(canon, s).Elems() ==> good(x)) <==> (forall x :: x in s.Elems() ==> good(x))
    ensures CanonSlice(canon, s).Elems() == Map(canon, s.Elems())
  {
    var elems, canonElems := s.Elems(), CanonSlice(canon, s).Elems();
    assert |elems| == |canonElems|;
    assert forall i :: 0 <= i < |elems| ==> canonElems[i] == canon(elems[i]);
    assert forall i :: 0 <= i < |elems| ==> canonElems[i] in canonElems && elems[i] in elems;
  }

  lemma GoodApplicationOnWire(a: Application)
    ensures GoodApplication(CanonApplication(a)) <==> GoodApplication(a)
  {
    CanonElems(CanonComponent, (c: Component) => IsToken(c.id), (c: Component) => c.id, a.components);
  }

  lemma GoodEnvironmentOnWire(e: Environment)
    ensures GoodEnvironment(CanonEnvironment(e)) <==> GoodEnvironment(e)
  {
    CanonElems(CanonTarget, (t: Target) => IsToken(t.id) && IsToken(t.kind), (t: Target) => t.id, e.targets);
  }

  lemma GoodArtifactsOnWire(s: Slice<Artifact>)
    ensures GoodArtifacts(CanonSlice(CanonArtifact, s)) <==> GoodArtifacts(s)
  {
    CanonElems(CanonArtifact, GoodArtifact, (a: Artifact) => a.id, s);
  }

  lemma GoodGatesOnWire(s: Slice<Gate>)
    ensures GoodGates(CanonSlice(CanonGate, s).Elems()) <==> GoodGates(s.Elems())
  {
    CanonElems(CanonGate, GoodGate, (g: Gate) => g.id, s);
  }

  lemma GoodChecksOnWire(s: Slice<Check>)
    ensures GoodChecks(CanonSlice(CanonCheck, s).Elems()) <==> GoodChecks(s.Elems())
  {
    CanonElems(CanonCheck, GoodCheck, (c: Check) => c.id, s);
  }

  lemma GoodStepsOnWire(s: Slice<Step>)
    ensures GoodSteps(CanonSteps(s).Elems()) <==> GoodSteps(s.Elems())
  {
    CanonElems(CanonStep, GoodStep, (x: Step) => x.id, s);
    assert CanonSteps(s).Elems() == CanonSlice(CanonStep, s).Elems();
  }

  lemma WellFormedOnWire(j: Job)
    ensures WellFormedJob(Canon(j)) <==> WellFormedJob(j)
  {
    GoodApplicationOnWire(j.plan.application);
    GoodEnvironmentOnWire(j.plan.environment);
    GoodArtifactsOnWire(j.plan.artifacts);
    GoodGatesOnWire(j.plan.gates);
    GoodChecksOnWire(j.plan.checks);
    GoodStepsOnWire(j.plan.steps);
    if j.plan.rollback.Some? {
      GoodArtifactsOnWire(j.plan.rollback.value.artifacts);
    }
  }
}

/** Signing and verifying job envelopes, with the JSON text and the HMAC as uninterpreted functions. */
module Signing {
  import opened Prelude
  import opened Text
  import opened Deploy
  import opened Selection
  import opened Validation
  import opened Wire

  const ALGORITHM := "HMAC-SHA256"
  const MIN_SECRET := 32

  newtype byte = b: int | 0 <= b < 256

  predicate IsUrlChar(c: char) {
    'A' <= c <= 'Z' || 'a' <= c <= 'z' || '0' <= c <= '9' || c == '-' || c == '_'
  }

  /** Unpadded URL-safe base64 of a 32-byte digest. */
  type Base64Digest = s: string | |s| == 43 && forall i :: 0 <= i < |s| ==> IsUrlChar(s[i])
    witness seq(43, _ => 'A')

  datatype Payload = Payload(algorithm: string, keyId: string, job: Job)

  /** marshal is the JSON text, which fails on instants it cannot write; it is applied to canonical jobs only. */
  datatype Crypto = Crypto(marshal: Payload -> Option<seq<byte>>, hmac: (seq<byte>, seq<byte>) -> Base64Digest)

  type KeyResolver = string -> Result<seq<byte>, string>

  datatype Refusal =
    | InvalidJob
    | BadKeyId
    | WeakSecret
    | MarshalFailed
    | UnsupportedAlgorithm
    | SignatureRequired
    | NoKeyResolver
    | JobExpired
    | KeyNotFound(reason: string)
    | InvalidSignature
    | UnexpectedKeyId

  function SignPayload(
    c: Crypto, algorithm: string, keyId: string, job: Job, secret: seq<byte>): Result<string, Refusal>
  {
    match c.marshal(Payload(algorithm, keyId, Canon(job.Clone())))
    case None => Err(MarshalFailed)
    case Some(raw) => Ok(c.hmac(secret, raw))
  }

  function Sign(c: Crypto, job: Job, keyId: string, secret: seq<byte>): Result<SignedJob, Refusal> {
    if !WellFormedJob(job) then Err(InvalidJob)
    else
      var id := TrimSpace(keyId);
      if !IsToken(id) then Err(BadKeyId)
      else if |secret| < MIN_SECRET then Err(WeakSecret)
      else
        match SignPayload(c, ALGORITHM, id, job.Clone(), secret)
        case Err(e) => Err(e)
        case Ok(signature) => Ok(SignedJob(ALGORITHM, id, job.Clone(), signature))
  }

  function Verify(c: Crypto, envelope: SignedJob, keys: Option<KeyResolver>, now: Time): Result<Job, Refusal> {
    if envelope.algorithm != ALGORITHM then Err(UnsupportedAlgorithm)
    else if !IsToken(envelope.keyId) then Err(BadKeyId)
    else if TrimSpace(envelope.signature) == "" then Err(SignatureRequired)
    else if keys.None? then Err(NoKeyResolver)
    else if !WellFormedJob(envelope.job) then Err(InvalidJob)
    else if envelope.job.Expired(now) then Err(JobExpired)
    else
      match keys.value(envelope.keyId)
      case Err(reason) => Err(KeyNotFound(reason))
      case Ok(secret) => CheckSignature(c, envelope, secret)
  }

  function CheckSignature(c: Crypto, envelope: SignedJob, secret: seq<byte>): Result<Job, Refusal> {
    if |secret| < MIN_SECRET then Err(WeakSecret)
    else
      match SignPayload(c, envelope.algorithm, envelope.keyId, envelope.job, secret)
      case Err(e) => Err(e)
      case Ok(expected) => if expected != envelope.signature then Err(InvalidSignature) else Ok(envelope.job.Clone())
  }

  /* ---------- the same two operations as the chains of checks they are ---------- */

  /** Job.Validate, when only the presence of an error matters. */
  method JobIsValid(job: Job) returns (ok: bool)
    ensures ok <==> WellFormedJob(job)
  {
    var problems := ValidateJob(job);
    return problems == [];
  }

  method TokenIsValid(value: string) returns (ok: bool)
    ensures ok <==> IsToken(value)
  {
    var problem := ValidateToken(value);
    NoTokenProblem(value);
    return problem.None?;
  }

  method SignJob(c: Crypto, job: Job, keyId: string, secret: seq<byte>) returns (r: Result<SignedJob, Refusal>)
    ensures r == Sign(c, job, keyId, secret)
  {
    var validJob := JobIsValid(job);
    if !validJob {
      return Err(InvalidJob);
    }
    var id := TrimSpace(keyId);
    var validId := TokenIsValid(id);
    if !validId {
      return Err(BadKeyId);
    }
    if |secret| < MIN_SECRET {
      return Err(WeakSecret);
    }
    var envelope := SignedJob(ALGORITHM, id, job.Clone(), "");
    var signature := SignPayload(c, envelope.algorithm, envelope.keyId, envelope.job, secret);
    if signature.Err? {
      return Err(signature.error);
    }
    envelope := envelope.(signature := signature.value);
    return Ok(envelope);
  }

  method VerifyEnvelope(c: Crypto, envelope: SignedJob, keys: Option<KeyResolver>, now: Time)
    returns (r: Result<Job, Refusal>)
    ensures r == Verify(c, envelope, keys, now)
  {
    if envelope.algorithm != ALGORITHM {
      return Err(UnsupportedAlgorithm);
    }
    var validId := TokenIsValid(envelope.keyId);
    if !validId {
      return Err(BadKeyId);
    }
    if TrimSpace(envelope.signature) == "" {
      return Err(SignatureRequired);
    }
    if keys.None? {
      return Err(NoKeyResolver);
    }
    var validJob := JobIsValid(envelope.job);
    if !validJob {
      return Err(InvalidJob);
    }
    if envelope.job.Expired(now) {
      return Err(JobExpired);
    }
    var secret := keys.value(envelope.keyId);
    if secret.Err? {
      return Err(KeyNotFound(secret.error));
    }
    return CheckSignature(c, envelope, secret.value);
  }

  /** The worker program's verifier: one expected key id and its secret. */
  datatype VerifierConfig = VerifierConfig(keyId: string, secret: seq<byte>)

  function WorkerVerify(c: Crypto, cfg: VerifierConfig, signed: SignedJob, now: Time): Result<Job, Refusal> {
    if signed.keyId != cfg.keyId then Err(UnexpectedKeyId)
    else Verify(c, signed, Some(OneKey(cfg.secret)), now)
  }

  /** A resolver that has one secret for every key id. */
  function OneKey(secret: seq<byte>): KeyResolver { (keyId: string) => Ok(secret) }

  /* ---------- what an accepted job has gone through ---------- */

  predicate GatesSucceeded(p: Plan) {
    forall g :: g in p.gates.Elems() && g.required ==> g.status == Succeeded
  }

  /** The facts an executor may rely on. */
  predicate Vouched(c: Crypto, cfg: VerifierConfig, received: SignedJob, job: Job, now: Time) {
    && job == received.job.Clone()
    && received.algorithm == ALGORITHM && received.keyId == cfg.keyId
    && SignPayload(c, received.algorithm, received.keyId, received.job, cfg.secret) == Ok(received.signature)
    && WellFormedJob(job) && GatesSucceeded(job.plan)
    && !job.Expired(now)
  }

  lemma WellFormedGates(p: Plan)
    requires GoodGates(p.gates.Elems())
    ensures GatesSucceeded(p)
  {
    assert forall g :: g in p.gates.Elems() ==> GoodGate(g);
  }

  lemma VerifiedIsVouched(c: Crypto, cfg: VerifierConfig, received: SignedJob, now: Time)
    requires WorkerVerify(c, cfg, received, now).Ok?
    ensures Vouched(c, cfg, received, WorkerVerify(c, cfg, received, now).value, now)
  {
    WellFormedGates(received.job.plan);
    WellFormedClone(received.job);
  }

  lemma WellFormedClone(j: Job)
    ensures WellFormedJob(j.Clone()) <==> WellFormedJob(j)
  {
  }

  /* ---------- exactly what is signed and what is accepted ---------- */

  /** The MAC belongs to the JSON text of algorithm, key id and job, under this secret. */
  predicate MacOf(c: Crypto, keyId: string, job: Job, secret: seq<byte>, signature: string) {
    var raw := c.marshal(Payload("HMAC-SHA256", keyId, Canon(job)));
    raw.Some? && signature == c.hmac(secret, raw.value)
  }

  /** It has an expiry, there is a clock, and the clock has reached the expiry. */
  predicate IsPast(job: Job, now: Time) { job.expiresAt != 0 && now != 0 && job.expiresAt <= now }

  lemma SignPayloadIff(c: Crypto, keyId: string, job: Job, secret: seq<byte>, signature: string)
    ensures SignPayload(c, "HMAC-SHA256", keyId, job, secret) == Ok(signature)
      <==> MacOf(c, keyId, job, secret, signature)
  {
    CanonOfClone(job);
  }

  /** Sign yields an envelope exactly for well-formed jobs, proper keys and jobs that can be written, and this one. */
  lemma SignYieldsIff(c: Crypto, job: Job, keyId: string, secret: seq<byte>, signed: SignedJob)
    ensures Sign(c, job, keyId, secret) == Ok(signed) <==>
      && WellFormedJob(job) && IsToken(TrimSpace(keyId)) && |secret| >= 32
      && signed.algorithm == "HMAC-SHA256" && signed.keyId == TrimSpace(keyId) && signed.job == job.Clone()
      && MacOf(c, TrimSpace(keyId), job, secret, signed.signature)
  {
    SignPayloadIff(c, TrimSpace(keyId), job.Clone(), secret, signed.signature);
    CanonOfClone(job);
  }

  /** The key that the resolver, if there is one, has under this id. */
  predicate HasKey(keys: Option<KeyResolver>, keyId: string, secret: seq<byte>) {
    keys.Some? && keys.value(keyId) == Ok(secret)
  }

  /** Verify accepts exactly what passes all the checks, and gives back the job in it. */
  lemma VerifyAcceptsIff(c: Crypto, envelope: SignedJob, keys: Option<KeyResolver>, now: Time)
    ensures Verify(c, envelope, keys, now).Ok? <==>
      && envelope.algorithm == "HMAC-SHA256" && IsToken(envelope.keyId) && TrimSpace(envelope.signature) != ""
      && WellFormedJob(envelope.job) && !IsPast(envelope.job, now)
      && exists secret ::
           HasKey(keys, envelope.keyId, secret) && |secret| >= 32
           && MacOf(c, envelope.keyId, envelope.job, secret, envelope.signature)
    ensures Verify(c, envelope, keys, now).Ok? ==> Verify(c, envelope, keys, now).value == envelope.job.Clone()
  {
    if keys.Some? && keys.value(envelope.keyId).Ok? {
      var secret := keys.value(envelope.keyId).value;
      assert HasKey(keys, envelope.keyId, secret);
      if envelope.algorithm == "HMAC-SHA256" {
        CheckSignatureIff(c, envelope, secret);
      }
    }
  }

  lemma CheckSignatureIff(c: Crypto, envelope: SignedJob, secret: seq<byte>)
    requires envelope.algorithm == "HMAC-SHA256"
    ensures var r := CheckSignature(c, envelope, secret);
      && (r.Ok? <==> |secret| >= 32 && MacOf(c, envelope.keyId, envelope.job, secret, envelope.signature))
      && (r.Ok? ==> r.value == envelope.job.Clone())
  {
    SignPayloadIff(c, envelope.keyId, envelope.job, secret, envelope.signature);
  }

  /** The first n of the four checks on the envelope itself, in order. */
  predicate PassesFirst(n: nat, envelope: SignedJob, keys: Option<KeyResolver>) {
    && (n >= 1 ==> envelope.algorithm == "HMAC-SHA256")
    && (n >= 2 ==> IsToken(envelope.keyId))
    && (n >= 3 ==> TrimSpace(envelope.signature) != "")
    && (n >= 4 ==> keys.Some?)
  }

  predicate FailsAt(n: nat, envelope: SignedJob, keys: Option<KeyResolver>)
    requires n > 0
  {
    PassesFirst(n - 1, envelope, keys) && !PassesFirst(n, envelope, keys)
  }

  /** A refused envelope is told the first of these that fails ... */
  lemma VerifyRefusesIff(c: Crypto, envelope: SignedJob, keys: Option<KeyResolver>, now: Time)
    ensures var r := Verify(c, envelope, keys, now);
      && (r == Err(UnsupportedAlgorithm) <==> FailsAt(1, envelope, keys))
      && (r == Err(BadKeyId) <==> FailsAt(2, envelope, keys))
      && (r == Err(SignatureRequired) <==> FailsAt(3, envelope, keys))
      && (r == Err(NoKeyResolver) <==> FailsAt(4, envelope, keys))
  {
    if PassesFirst(4, envelope, keys) {
      LaterRefusals(c, envelope, keys.value, now);
    }
  }

  /** ... and after them the first that fails of the job, its expiry, the key and the MAC. */
  lemma LaterRefusals(c: Crypto, envelope: SignedJob, keys: KeyResolver, now: Time)
    requires PassesFirst(4, envelope, Some(keys))
    ensures var r, secret := Verify(c, envelope, Some(keys), now), keys(envelope.keyId);
      if !WellFormedJob(envelope.job) then r == Err(InvalidJob)
      else if IsPast(envelope.job, now) then r == Err(JobExpired)
      else match secret
           case Err(reason) => r == Err(KeyNotFound(reason))
           case Ok(key) =>
             if |key| < 32 then r == Err(WeakSecret) else r.Ok? || r == Err(MarshalFailed) || r == Err(InvalidSignature)
  {
  }

  /** The worker program accepts what Verify accepts under its one key, for envelopes that name this key. */
  lemma WorkerAcceptsIff(c: Crypto, cfg: VerifierConfig, signed: SignedJob, now: Time)
    ensures WorkerVerify(c, cfg, signed, now).Ok? <==>
      && signed.algorithm == "HMAC-SHA256" && signed.keyId == cfg.keyId && IsToken(cfg.keyId)
      && TrimSpace(signed.signature) != "" && WellFormedJob(signed.job) && !IsPast(signed.job, now)
      && |cfg.secret| >= 32 && MacOf(c, cfg.keyId, signed.job, cfg.secret, signed.signature)
  {
    VerifyAcceptsIff(c, signed, Some(OneKey(cfg.secret)), now);
    assert HasKey(Some(OneKey(cfg.secret)), signed.keyId, cfg.secret);
  }

  /* ---------- honest jobs get through ---------- */

  lemma DigestIsNotBlank(d: Base64Digest)
    ensures TrimSpace(d) == d != ""
  {
    TrimSpaceOfTrimmed(d);
  }

  lemma SignPayloadOnWire(c: Crypto, keyId: string, a: Job, b: Job, secret: seq<byte>)
    requires Canon(a) == Canon(b)
    ensures SignPayload(c, ALGORITHM, keyId, a, secret) == SignPayload(c, ALGORITHM, keyId, b, secret)
  {
    CanonOfClone(a);
    CanonOfClone(b);
  }

  lemma WellFormedArrives(a: Job, b: Job)
    requires WellFormedJob(a) && Canon(a) == Canon(b)
    ensures WellFormedJob(b)
  {
    WellFormedOnWire(a);
    WellFormedOnWire(b);
  }

  /** What Sign has checked, and what it puts into the envelope. */
  lemma SignedParts(c: Crypto, job: Job, keyId: string, secret: seq<byte>)
    requires Sign(c, job, keyId, secret).Ok?
    ensures var envelope := Sign(c, job, keyId, secret).value;
      && envelope.algorithm == ALGORITHM && IsToken(envelope.keyId) && envelope.keyId == TrimSpace(keyId)
      && envelope.job == job.Clone() && WellFormedJob(job) && |secret| >= MIN_SECRET
      && SignPayload(c, ALGORITHM, envelope.keyId, envelope.job, secret) == Ok(envelope.signature)
  {
  }

  lemma SignatureIsNotBlank(c: Crypto, algorithm: string, keyId: string, job: Job, secret: seq<byte>)
    ensures var r := SignPayload(c, algorithm, keyId, job, secret); r.Ok? ==> TrimSpace(r.value) != ""
  {
    match c.marshal(Payload(algorithm, keyId, Canon(job.Clone()))) {
      case None =>
      case Some(raw) => DigestIsNotBlank(c.hmac(secret, raw));
    }
  }

  /** The checks of Verify before the last one, all passed but perhaps the one for expiry. */
  lemma ChecksPassed(c: Crypto, received: SignedJob, keys: KeyResolver, secret: seq<byte>, now: Time)
    requires received.algorithm == ALGORITHM && IsToken(received.keyId) && TrimSpace(received.signature) != ""
    requires WellFormedJob(received.job) && keys(received.keyId) == Ok(secret)
    ensures Verify(c, received, Some(keys), now) ==
      if received.job.Expired(now) then Err(JobExpired) else CheckSignature(c, received, secret)
  {
  }

  /**
   * Whatever Sign accepts, the holder of the same key accepts after any exchange of nil and empty collections,
   * up to its expiry and not after, and gets back the job that was signed, up to the same exchange.
   */
  lemma SignedJobIsAccepted(
    c: Crypto, job: Job, keyId: string, secret: seq<byte>, received: SignedJob, keys: KeyResolver, now: Time)
    requires Sign(c, job, keyId, secret).Ok? && SameOnWire(Sign(c, job, keyId, secret).value, received)
    requires keys(received.keyId) == Ok(secret)
    ensures Verify(c, received, Some(keys), now) == if job.Expired(now) then Err(JobExpired)
      else Ok(received.job.Clone())
    ensures Canon(received.job.Clone()) == Canon(job)
  {
    SignedParts(c, job, keyId, secret);
    SignatureIsNotBlank(c, ALGORITHM, TrimSpace(keyId), job.Clone(), secret);
    CanonOfClone(job);
    CanonOfClone(received.job);
    WellFormedArrives(job, received.job);
    ChecksPassed(c, received, keys, secret, now);
    SignPayloadOnWire(c, received.keyId, job.Clone(), received.job, secret);
  }

  lemma CanonOfClone(j: Job)
    ensures Canon(j.Clone()) == Canon(j)
  {
  }

  /** The worker program's verifier accepts what was signed under its key. */
  lemma WorkerAccepts(c: Crypto, job: Job, keyId: string, cfg: VerifierConfig, received: SignedJob, now: Time)
    requires Sign(c, job, keyId, cfg.secret).Ok? && SameOnWire(Sign(c, job, keyId, cfg.secret).value, received)
    requires cfg.keyId == TrimSpace(keyId) && !job.Expired(now)
    ensures WorkerVerify(c, cfg, received, now) == Ok(received.job.Clone()) && Canon(received.job.Clone()) == Canon(job)
  {
    SignedParts(c, job, keyId, cfg.secret);
    SignedJobIsAccepted(c, job, keyId, cfg.secret, received, OneKey(cfg.secret), now);
  }

  lemma WireAfterClone(a: SignedJob, b: SignedJob)
    requires SameOnWire(a.Clone(), b)
    ensures SameOnWire(a, b)
  {
    CanonOfClone(a.job);
  }

  /** The copies that the store and the worker make keep the job. */
  lemma CloneKeepsJob(j: Job)
    ensures SameJob(j, j.Clone())
  {
    CanonOfClone(j);
    CanonIff(j, j.Clone());
  }

  /** A worker with the key that was allowed to claim the job verifies it and passes its own selector check. */
  lemma HonestClaimIsExecuted(
    c: Crypto, job: Job, keyId: string, cfg: VerifierConfig, info: Info, received: SignedJob, now: Time)
    requires Sign(c, job, keyId, cfg.secret).Ok? && SameOnWire(Sign(c, job, keyId, cfg.secret).value.Clone(), received)
    requires cfg.keyId == TrimSpace(keyId) && Matches(info, job.Clone().selector) && !job.Expired(now)
    ensures var verdict := WorkerVerify(c, cfg, received, now);
      verdict.Ok? && Canon(verdict.value) == Canon(job) && Matches(info, verdict.value.selector)
  {
    WireAfterClone(Sign(c, job, keyId, cfg.secret).value, received);
    WorkerAccepts(c, job, keyId, cfg, received, now);
    CanonOfClone(job);
    MatchesOnWire(info, job.Clone(), received.job.Clone());
  }
}
