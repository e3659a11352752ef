/**
 * Plan and job validation: loops that append to an error list, the list they build, and the
 * well-formedness it decides.
 */
module Validation {
  import opened Prelude
  import opened Text
  import opened Collections
  import opened Deploy

  datatype TokenProblem = IsRequired | TooLong(length: nat) | InvalidRune(c: char)

  datatype Problem =
    | BadToken(path: string, problem: TokenProblem)
    | Missing(path: string)
    | Duplicate(path: string, key: string)
    | DigestForm(path: string)
    | UnknownStatus(path: string, status: Status)
    | NotSucceeded(path: string, id: string, status: Status)
    | NoSteps
    | NegativeTimeout(id: string)
    | NotAfterIssue
    | BadPlan(problems: seq<Problem>)

  const MAX_TOKEN := 128

  /* ---------- what well-formed means ---------- */

  predicate IsToken(value: string) {
    var t := TrimSpace(value);
    t != "" && Utf8Len(t) <= MAX_TOKEN && forall i :: 0 <= i < |t| ==> !IsSpace(t[i]) && !IsControl(t[i])
  }

  /** No two entries have the same id after trimming; blank ids are not compared. */
  predicate DistinctIds(ids: seq<string>) { Distinct(Map(TrimSpace, ids)) }

  predicate Distinct(keys: seq<string>) {
    forall i, j :: 0 <= i < j < |keys| && keys[j] != "" ==> keys[i] != keys[j]
  }

  predicate GoodApplication(a: Application) {
    && IsToken(a.id)
    && DistinctIds(ComponentIds(a.components.Elems()))
    && forall c :: c in a.components.Elems() ==> IsToken(c.id)
  }

  predicate GoodEnvironment(e: Environment) {
    && IsToken(e.id)
    && DistinctIds(TargetIds(e.targets.Elems()))
    && forall t :: t in e.targets.Elems() ==> IsToken(t.id) && IsToken(t.kind)
  }

  predicate GoodArtifact(a: Artifact) {
    IsToken(a.id) && IsToken(a.kind) && TrimSpace(a.ref) != "" && TrimSpace(a.digest) != "" && ':' in a.digest
  }

  predicate GoodArtifacts(s: Slice<Artifact>) {
    DistinctIds(ArtifactIds(s.Elems())) && forall a :: a in s.Elems() ==> GoodArtifact(a)
  }

  predicate GoodGate(g: Gate) {
    IsToken(g.id) && IsToken(g.kind) && IsKnownStatus(g.status) && (g.required ==> g.status == Succeeded)
  }

  predicate GoodCheck(c: Check) {
    && IsToken(c.id) && IsToken(c.kind)
    && (c.status == Unset || (IsKnownStatus(c.status) && (c.required ==> c.status == Succeeded)))
  }

  predicate GoodStep(s: Step) { IsToken(s.id) && IsToken(s.executor) && IsToken(s.action) && s.timeoutSeconds >= 0 }

  predicate GoodGates(s: seq<Gate>) { DistinctIds(GateIds(s)) && forall g :: g in s ==> GoodGate(g) }

  predicate GoodChecks(s: seq<Check>) { DistinctIds(CheckIds(s)) && forall c :: c in s ==> GoodCheck(c) }

  predicate GoodSteps(s: seq<Step>) { s != [] && DistinctIds(StepIds(s)) && forall x :: x in s ==> GoodStep(x) }

  predicate GoodRollback(r: RollbackTarget) { IsToken(r.id) && IsToken(r.strategy) && GoodArtifacts(r.artifacts) }

  predicate WellFormedPlan(p: Plan) {
    && IsToken(p.id) && p.createdAt != 0
    && GoodApplication(p.application)
    && GoodEnvironment(p.environment)
    && GoodArtifacts(p.artifacts)
    && GoodGates(p.gates.Elems())
    && GoodChecks(p.checks.Elems())
    && GoodSteps(p.steps.Elems())
    && (p.rollback.Some? ==> GoodRollback(p.rollback.value))
  }

  predicate GoodJobHeader(j: Job) {
    && IsToken(j.id) && IsToken(j.nonce)
    && j.issuedAt != 0 && j.expiresAt != 0 && j.issuedAt < j.expiresAt
  }

  predicate WellFormedJob(j: Job) { GoodJobHeader(j) && WellFormedPlan(j.plan) }

  function ComponentIds(s: seq<Component>): seq<string> { Map((c: Component) => c.id, s) }
  function TargetIds(s: seq<Target>): seq<string> { Map((t: Target) => t.id, s) }
  function ArtifactIds(s: seq<Artifact>): seq<string> { Map((a: Artifact) => a.id, s) }
  function GateIds(s: seq<Gate>): seq<string> { Map((g: Gate) => g.id, s) }
  function CheckIds(s: seq<Check>): seq<string> { Map((c: Check) => c.id, s) }
  function StepIds(s: seq<Step>): seq<string> { Map((x: Step) => x.id, s) }

  /* ---------- the errors each check reports ---------- */

  function FirstBadRune(t: string): Option<char> {
    if t == "" then None else if IsSpace(t[0]) || IsControl(t[0]) then Some(t[0]) else FirstBadRune(t[1..])
  }

  function TokenProblemOf(value: string): Option<TokenProblem> {
    var t := TrimSpace(value);
    if t == "" then Some(IsRequired)
    else if Utf8Len(t) > MAX_TOKEN then Some(TooLong(Utf8Len(t)))
    else match FirstBadRune(t) case None => None case Some(c) => Some(InvalidRune(c))
  }

  type Problems = seq<Problem>

  function AddToken(errs: Problems, path: string, value: string): Problems {
    match TokenProblemOf(value) case None => errs case Some(p) => errs + [BadToken(path, p)]
  }

  function AddString(errs: Problems, path: string, value: string): Problems {
    if TrimSpace(value) == "" then errs + [Missing(path)] else errs
  }

  function AddStatus(errs: Problems, path: string, status: Status, required: bool): Problems {
    if (status == Unset && !required) || IsKnownStatus(status) then errs else errs + [UnknownStatus(path, status)]
  }

  function AddIf(errs: Problems, condition: bool, problem: Problem): Problems {
    if condition then errs + [problem] else errs
  }

  /** The non-blank keys, in order. */
  function NonBlank(keys: seq<string>): seq<string> {
    if keys == [] then []
    else NonBlank(keys[..|keys| - 1]) + if keys[|keys| - 1] == "" then [] else [keys[|keys| - 1]]
  }

  /** One error for every non-blank key that stands earlier in the list as well. */
  function DuplicateErrors(path: string, keys: seq<string>): seq<Problem> {
    if keys == [] then []
    else
      var front, key := keys[..|keys| - 1], keys[|keys| - 1];
      DuplicateErrors(path, front) + if key != "" && key in front then [Duplicate(path, key)] else []
  }

  function UniqueErrors(path: string, ids: seq<string>): seq<Problem> {
    DuplicateErrors(path, Map(TrimSpace, ids))
  }

  /** What is left in the list after a loop over s that adds the errors of each element. */
  function AddEach<T>(add: (Problems, T) -> Problems, errs: Problems, s: seq<T>): Problems {
    if s == [] then errs else add(AddEach(add, errs, s[..|s| - 1]), s[|s| - 1])
  }

  function AddComponent(errs: Problems, c: Component): Problems { AddToken(errs, "application.components.id", c.id) }

  function ApplicationErrors(a: Application): Problems {
    var errs := AddToken([], "application.id", a.id);
    AddEach(AddComponent, errs + UniqueErrors("application.components", ComponentIds(a.components.Elems())),
      a.components.Elems())
  }

  function AddTarget(errs: Problems, t: Target): Problems {
    AddToken(AddToken(errs, "environment.targets.id", t.id), "environment.targets.kind", t.kind)
  }

  function EnvironmentErrors(e: Environment): Problems {
    var errs := AddToken([], "environment.id", e.id);
    AddEach(AddTarget, errs + UniqueErrors("environment.targets", TargetIds(e.targets.Elems())), e.targets.Elems())
  }

  function AddArtifact(path: string, errs: Problems, a: Artifact): Problems {
    var errs := AddToken(AddToken(errs, path + ".id", a.id), path + ".kind", a.kind);
    var errs := AddString(AddString(errs, path + ".ref", a.ref), path + ".digest", a.digest);
    AddIf(errs, a.digest != "" && ':' !in a.digest, DigestForm(path))
  }

  function AddArtifactFor(path: string): (Problems, Artifact) -> Problems {
    (errs: Problems, a: Artifact) => AddArtifact(path, errs, a)
  }

  function ArtifactsErrors(path: string, s: Slice<Artifact>): Problems {
    AddEach(AddArtifactFor(path), UniqueErrors(path, ArtifactIds(s.Elems())), s.Elems())
  }

  function AddGate(errs: Problems, g: Gate): Problems {
    var errs := AddToken(AddToken(errs, "plan.gates.id", g.id), "plan.gates.kind", g.kind);
    var errs := AddStatus(errs, "plan.gates.status", g.status, true);
    AddIf(errs, g.required && g.status != Succeeded, NotSucceeded("gate", g.id, g.status))
  }

  function GatesErrors(s: seq<Gate>): Problems { AddEach(AddGate, UniqueErrors("plan.gates", GateIds(s)), s) }

  function AddCheck(errs: Problems, c: Check): Problems {
    var errs := AddToken(AddToken(errs, "plan.checks.id", c.id), "plan.checks.kind", c.kind);
    var errs := AddStatus(errs, "plan.checks.status", c.status, false);
    AddIf(errs, c.required && c.status != Unset && c.status != Succeeded, NotSucceeded("check", c.id, c.status))
  }

  function ChecksErrors(s: seq<Check>): Problems { AddEach(AddCheck, UniqueErrors("plan.checks", CheckIds(s)), s) }

  function AddStep(errs: Problems, s: Step): Problems {
    var errs := AddToken(AddToken(errs, "plan.steps.id", s.id), "plan.steps.executor", s.executor);
    AddIf(AddToken(errs, "plan.steps.action", s.action), s.timeoutSeconds < 0, NegativeTimeout(s.id))
  }

  function StepsErrors(s: seq<Step>): Problems {
    AddEach(AddStep, AddIf([], s == [], NoSteps) + UniqueErrors("plan.steps", StepIds(s)), s)
  }

  function RollbackErrors(r: RollbackTarget): Problems {
    var errs := AddToken(AddToken([], "rollback.id", r.id), "rollback.strategy", r.strategy);
    errs + ArtifactsErrors("rollback.artifacts", r.artifacts)
  }

  function HeaderErrors(p: Plan): Problems {
    AddIf(AddToken([], "plan.id", p.id), p.createdAt == 0, Missing("plan.createdAt"))
  }

  function OptionalRollbackErrors(r: Option<RollbackTarget>): Problems {
    match r case None => [] case Some(target) => RollbackErrors(target)
  }

  /** The lists of the parts of a plan, one appended after the other. */
  function PlanErrors(p: Plan): Problems {
    HeaderErrors(p) + ApplicationErrors(p.application) + EnvironmentErrors(p.environment)
    + ArtifactsErrors("plan.artifacts", p.artifacts)
    + GatesErrors(p.gates.Elems()) + ChecksErrors(p.checks.Elems()) + StepsErrors(p.steps.Elems())
    + OptionalRollbackErrors(p.rollback)
  }

  function JobHeaderErrors(j: Job): Problems {
    var errs := AddToken(AddToken([], "job.id", j.id), "job.nonce", j.nonce);
    var errs := AddIf(errs, j.issuedAt == 0, Missing("job.issuedAt"));
    var errs := AddIf(errs, j.expiresAt == 0, Missing("job.expiresAt"));
    AddIf(errs, j.issuedAt != 0 && j.expiresAt != 0 && !(j.expiresAt > j.issuedAt), NotAfterIssue)
  }

  function JobErrors(j: Job): Problems {
    AddIf(JobHeaderErrors(j), PlanErrors(j.plan) != [], BadPlan(PlanErrors(j.plan)))
  }

  /* ---------- no error exactly when well-formed ---------- */

  lemma {:induction false} FirstBadRuneNone(t: string)
    ensures FirstBadRune(t) == None <==> forall i :: 0 <= i < |t| ==> !IsSpace(t[i]) && !IsControl(t[i])
  {
    if t != "" {
      FirstBadRuneNone(t[1..]);
      assert forall i :: 1 <= i < |t| ==> t[i] == t[1..][i - 1];
      assert forall i :: 0 <= i < |t[1..]| ==> t[1..][i] == t[i + 1];
    }
  }

  lemma NoTokenProblem(value: string)
    ensures TokenProblemOf(value) == None <==> IsToken(value)
  {
    FirstBadRuneNone(TrimSpace(value));
  }

  lemma {:induction false} NoDuplicateErrors(path: string, keys: seq<string>)
    ensures DuplicateErrors(path, keys) == [] <==> Distinct(keys)
  {
    if keys != [] {
      var n := |keys| - 1;
      var front, key := keys[..n], keys[n];
      NoDuplicateErrors(path, front);
      if Distinct(front) && (key == "" || key !in front) {
        forall i, j | 0 <= i < j < |keys| && keys[j] != "" ensures keys[i] != keys[j] {
          assert keys[i] == front[i];
        }
      }
    }
  }

  lemma NoUniqueErrors(path: string, ids: seq<string>)
    ensures UniqueErrors(path, ids) == [] <==> DistinctIds(ids)
  {
    NoDuplicateErrors(path, Map(TrimSpace, ids));
  }

  lemma {:induction false} NonBlankMember(keys: seq<string>, key: string)
    ensures key in NonBlank(keys) <==> key != "" && key in keys
  {
    if keys != [] {
      NonBlankMember(keys[..|keys| - 1], key);
      assert keys == keys[..|keys| - 1] + [keys[|keys| - 1]];
    }
  }

  /** The number of duplicate errors is the number of non-blank ids minus the number of distinct ones. */
  lemma {:induction false} DuplicateErrorsCount(path: string, keys: seq<string>)
    ensures |DuplicateErrors(path, keys)| == |NonBlank(keys)| - |set k | k in NonBlank(keys)|
  {
    if keys != [] {
      var front, key := keys[..|keys| - 1], keys[|keys| - 1];
      DuplicateErrorsCount(path, front);
      NonBlankMember(front, key);
      var before, after := set k | k in NonBlank(front), set k | k in NonBlank(keys);
      if key == "" {
        assert after == before;
      } else {
        assert NonBlank(keys) == NonBlank(front) + [key];
        assert after == before + {key};
        assert key in front ==> before + {key} == before;
      }
    }
  }

  lemma {:induction false} NoneAdded<T(
    !new)>(add: (Problems, T) -> Problems, good: T -> bool, errs: Problems, s: seq<T>)
    requires forall e, x :: add(e, x) == [] <==> e == [] && good(x)
    ensures AddEach(add, errs, s) == [] <==> errs == [] && forall x :: x in s ==> good(x)
  {
    if s != [] {
      NoneAdded(add, good, errs, s[..|s| - 1]);
      assert s == s[..|s| - 1] + [s[|s| - 1]];
    }
  }

  lemma NoApplicationErrors(a: Application)
    ensures ApplicationErrors(a) == [] <==> GoodApplication(a)
  {
    NoTokenProblem(a.id);
    NoUniqueErrors("application.components", ComponentIds(a.components.Elems()));
    var good := (c: Component) => IsToken(c.id);
    forall e, c ensures AddComponent(e, c) == [] <==> e == [] && good(c) {
      NoTokenProblem(c.id);
    }
    NoneAdded(AddComponent, good,
      AddToken([], "application.id", a.id) + UniqueErrors("application.components", ComponentIds(a.components.Elems())),
      a.components.Elems());
  }

  lemma NoEnvironmentErrors(e: Environment)
    ensures EnvironmentErrors(e) == [] <==> GoodEnvironment(e)
  {
    NoTokenProblem(e.id);
    NoUniqueErrors("environment.targets", TargetIds(e.targets.Elems()));
    var good := (t: Target) => IsToken(t.id) && IsToken(t.kind);
    forall errs, t ensures AddTarget(errs, t) == [] <==> errs == [] && good(t) {
      NoTokenProblem(t.id);
      NoTokenProblem(t.kind);
    }
    NoneAdded(AddTarget, good,
      AddToken([], "environment.id", e.id) + UniqueErrors("environment.targets", TargetIds(e.targets.Elems())),
      e.targets.Elems());
  }

  lemma NoArtifactsErrors(path: string, s: Slice<Artifact>)
    ensures ArtifactsErrors(path, s) == [] <==> GoodArtifacts(s)
  {
    NoUniqueErrors(path, ArtifactIds(s.Elems()));
    forall errs, a ensures AddArtifactFor(path)(errs, a) == [] <==> errs == [] && GoodArtifact(a) {
      NoTokenProblem(a.id);
      NoTokenProblem(a.kind);
    }
    NoneAdded(AddArtifactFor(path), GoodArtifact, UniqueErrors(path, ArtifactIds(s.Elems())), s.Elems());
  }

  lemma NoGatesErrors(s: seq<Gate>)
    ensures GatesErrors(s) == [] <==> GoodGates(s)
  {
    NoUniqueErrors("plan.gates", GateIds(s));
    forall errs, g ensures AddGate(errs, g) == [] <==> errs == [] && GoodGate(g) {
      NoTokenProblem(g.id);
      NoTokenProblem(g.kind);
    }
    NoneAdded(AddGate, GoodGate, UniqueErrors("plan.gates", GateIds(s)), s);
  }

  lemma NoChecksErrors(s: seq<Check>)
    ensures ChecksErrors(s) == [] <==> GoodChecks(s)
  {
    NoUniqueErrors("plan.checks", CheckIds(s));
    forall errs, c ensures AddCheck(errs, c) == [] <==> errs == [] && GoodCheck(c) {
      NoTokenProblem(c.id);
      NoTokenProblem(c.kind);
    }
    NoneAdded(AddCheck, GoodCheck, UniqueErrors("plan.checks", CheckIds(s)), s);
  }

  lemma NoStepsErrors(s: seq<Step>)
    ensures StepsErrors(s) == [] <==> GoodSteps(s)
  {
    NoUniqueErrors("plan.steps", StepIds(s));
    forall errs, x ensures AddStep(errs, x) == [] <==> errs == [] && GoodStep(x) {
      NoTokenProblem(x.id);
      NoTokenProblem(x.executor);
      NoTokenProblem(x.action);
    }
    NoneAdded(AddStep, GoodStep, AddIf([], s == [], NoSteps) + UniqueErrors("plan.steps", StepIds(s)), s);
  }

  lemma NoRollbackErrors(r: RollbackTarget)
    ensures RollbackErrors(r) == [] <==> GoodRollback(r)
  {
    NoTokenProblem(r.id);
    NoTokenProblem(r.strategy);
    NoArtifactsErrors("rollback.artifacts", r.artifacts);
  }

  lemma NoneAppended(
    a: Problems, b: Problems, c: Problems, d: Problems, e: Problems, f: Problems, g: Problems, h: Problems)
    ensures a + b + c + d + e + f + g + h == []
      <==> a == [] && b == [] && c == [] && d == [] && e == [] && f == [] && g == [] && h == []
  {
    assert |a + b + c + d + e + f + g + h| == |a| + |b| + |c| + |d| + |e| + |f| + |g| + |h|;
  }

  lemma NoHeaderErrors(p: Plan)
    ensures HeaderErrors(p) == [] <==> IsToken(p.id) && p.createdAt != 0
  {
    NoTokenProblem(p.id);
  }

  lemma NoOptionalRollbackErrors(r: Option<RollbackTarget>)
    ensures OptionalRollbackErrors(r) == [] <==> r.None? || GoodRollback(r.value)
  {
    if r.Some? {
      NoRollbackErrors(r.value);
    }
  }

  /** A plan validates without error exactly when it is well formed. */
  lemma NoPlanErrors(p: Plan)
    ensures PlanErrors(p) == [] <==> WellFormedPlan(p)
  {
    NoHeaderErrors(p);
    NoApplicationErrors(p.application);
    NoEnvironmentErrors(p.environment);
    NoArtifactsErrors("plan.artifacts", p.artifacts);
    NoGatesErrors(p.gates.Elems());
    NoChecksErrors(p.checks.Elems());
    NoStepsErrors(p.steps.Elems());
    NoOptionalRollbackErrors(p.rollback);
    NoneAppended(HeaderErrors(p), ApplicationErrors(p.application), EnvironmentErrors(p.environment),
      ArtifactsErrors("plan.artifacts", p.artifacts), GatesErrors(p.gates.Elems()), ChecksErrors(p.checks.Elems()),
      StepsErrors(p.steps.Elems()), OptionalRollbackErrors(p.rollback));
  }

  lemma NoJobHeaderErrors(j: Job)
    ensures JobHeaderErrors(j) == [] <==> GoodJobHeader(j)
  {
    NoTokenProblem(j.id);
    NoTokenProblem(j.nonce);
  }

  lemma NothingAdded(errs: Problems, problems: Problems)
    ensures AddIf(errs, problems != [], BadPlan(problems)) == [] <==> errs == [] && problems == []
  {
  }

  /** A job validates without error exactly when it is well formed. */
  lemma NoJobErrors(j: Job)
    ensures JobErrors(j) == [] <==> WellFormedJob(j)
  {
    NoJobHeaderErrors(j);
    NoPlanErrors(j.plan);
    NothingAdded(JobHeaderErrors(j), PlanErrors(j.plan));
  }

  /* ---------- the validating loops ---------- */

  /** The error slice that the checks append to through a pointer. */
  class ErrorList {
    var items: seq<Problem>

    constructor (initial: Problems)
      ensures items == initial
    {
      items := initial;
    }

    method Add(p: Problem)
      modifies this
      ensures items == old(items) + [p]
    {
      items := items + [p];
    }

    method AddAll(ps: seq<Problem>)
      modifies this
      ensures items == old(items) + ps
    {
      items := items + ps;
    }
  }

  method ValidateToken(value: string) returns (problem: Option<TokenProblem>)
    ensures problem == TokenProblemOf(value)
  {
    var t := TrimSpace(value);
    if t == "" {
      return Some(IsRequired);
    }
    if Utf8Len(t) > MAX_TOKEN {
      return Some(TooLong(Utf8Len(t)));
    }
    for i := 0 to |t|
      invariant FirstBadRune(t) == FirstBadRune(t[i..])
    {
      if IsSpace(t[i]) || IsControl(t[i]) {
        return Some(InvalidRune(t[i]));
      }
    }
    return None;
  }

  method RequireToken(errs: ErrorList, path: string, value: string)
    modifies errs
    ensures errs.items == AddToken(old(errs.items), path, value)
  {
    var problem := ValidateToken(value);
    if problem.Some? {
      errs.Add(BadToken(path, problem.value));
    }
  }

  method RequireString(errs: ErrorList, path: string, value: string)
    modifies errs
    ensures errs.items == AddString(old(errs.items), path, value)
  {
    if TrimSpace(value) == "" {
      errs.Add(Missing(path));
    }
  }

  method ValidateStatus(errs: ErrorList, path: string, status: Status, required: bool)
    modifies errs
    ensures errs.items == AddStatus(old(errs.items), path, status, required)
  {
    if status == Unset && !required {
      return;
    }
    if !IsKnownStatus(status) {
      errs.Add(UnknownStatus(path, status));
    }
  }

  /** Remembers the keys seen so far and reports every key that comes again. */
  lemma NextKey(path: string, keys: seq<string>, i: nat)
    requires i < |keys|
    ensures DuplicateErrors(path, keys[..i + 1])
      == DuplicateErrors(path, keys[..i])
         + if keys[i] != "" && keys[i] in keys[..i] then [Duplicate(path, keys[i])] else []
    ensures forall k :: k in keys[..i + 1] <==> k in keys[..i] || k == keys[i]
  {
    assert keys[..i + 1] == keys[..i] + [keys[i]];
  }

  method ValidateUnique<T>(path: string, values: seq<T>, id: T -> string) returns (errs: Problems)
    ensures errs == UniqueErrors(path, Map(id, values))
  {
    errs := [];
    ghost var keys := Map(TrimSpace, Map(id, values));
    var seen: set<string> := {};
    for i := 0 to |values|
      invariant forall k :: k in seen <==> k != "" && k in keys[..i]
      invariant errs == DuplicateErrors(path, keys[..i])
    {
      NextKey(path, keys, i);
      var key := TrimSpace(id(values[i]));
      if key == "" {
        continue;
      }
      if key in seen {
        errs := errs + [Duplicate(path, key)];
      }
      seen := seen + {key};
    }
    assert keys[..|values|] == keys;
  }

  lemma AddEachNext<T>(add: (Problems, T) -> Problems, errs: Problems, s: seq<T>, i: nat)
    requires i < |s|
    ensures AddEach(add, errs, s[..i + 1]) == add(AddEach(add, errs, s[..i]), s[i])
  {
    assert s[..i + 1][..i] == s[..i];
  }

  method ValidateApplication(a: Application) returns (errors: Problems)
    ensures errors == ApplicationErrors(a)
    ensures errors == [] <==> GoodApplication(a)
  {
    var errs := new ErrorList([]);
    RequireToken(errs, "application.id", a.id);
    var components := a.components.Elems();
    var duplicates := ValidateUnique("application.components", components, (c: Component) => c.id);
    errs.AddAll(duplicates);
    ghost var before := errs.items;
    for i := 0 to |components|
      invariant errs.items == AddEach(AddComponent, before, components[..i])
    {
      AddEachNext(AddComponent, before, components, i);
      RequireToken(errs, "application.components.id", components[i].id);
    }
    assert components[..|components|] == components;
    NoApplicationErrors(a);
    return errs.items;
  }

  method ValidateEnvironment(e: Environment) returns (errors: Problems)
    ensures errors == EnvironmentErrors(e)
    ensures errors == [] <==> GoodEnvironment(e)
  {
    var errs := new ErrorList([]);
    RequireToken(errs, "environment.id", e.id);
    var targets := e.targets.Elems();
    var duplicates := ValidateUnique("environment.targets", targets, (t: Target) => t.id);
    errs.AddAll(duplicates);
    ghost var before := errs.items;
    for i := 0 to |targets|
      invariant errs.items == AddEach(AddTarget, before, targets[..i])
    {
      AddEachNext(AddTarget, before, targets, i);
      RequireToken(errs, "environment.targets.id", targets[i].id);
      RequireToken(errs, "environment.targets.kind", targets[i].kind);
    }
    assert targets[..|targets|] == targets;
    NoEnvironmentErrors(e);
    return errs.items;
  }

  method ValidateArtifacts(path: string, s: Slice<Artifact>) returns (errors: Problems)
    ensures errors == ArtifactsErrors(path, s)
    ensures errors == [] <==> GoodArtifacts(s)
  {
    var artifacts := s.Elems();
    var duplicates := ValidateUnique(path, artifacts, (a: Artifact) => a.id);
    var errs := new ErrorList(duplicates);
    for i := 0 to |artifacts|
      invariant errs.items == AddEach(AddArtifactFor(path), duplicates, artifacts[..i])
    {
      AddEachNext(AddArtifactFor(path), duplicates, artifacts, i);
      var a := artifacts[i];
      RequireToken(errs, path + ".id", a.id);
      RequireToken(errs, path + ".kind", a.kind);
      RequireString(errs, path + ".ref", a.ref);
      RequireString(errs, path + ".digest", a.digest);
      if a.digest != "" && ':' !in a.digest {
        errs.Add(DigestForm(path));
      }
    }
    assert artifacts[..|artifacts|] == artifacts;
    NoArtifactsErrors(path, s);
    return errs.items;
  }

  method ValidateGates(gates: seq<Gate>) returns (errors: Problems)
    ensures errors == GatesErrors(gates)
    ensures errors == [] <==> GoodGates(gates)
  {
    var duplicates := ValidateUnique("plan.gates", gates, (g: Gate) => g.id);
    var errs := new ErrorList(duplicates);
    for i := 0 to |gates|
      invariant errs.items == AddEach(AddGate, duplicates, gates[..i])
    {
      AddEachNext(AddGate, duplicates, gates, i);
      var g := gates[i];
      RequireToken(errs, "plan.gates.id", g.id);
      RequireToken(errs, "plan.gates.kind", g.kind);
      ValidateStatus(errs, "plan.gates.status", g.status, true);
      if g.required && g.status != Succeeded {
        errs.Add(NotSucceeded("gate", g.id, g.status));
      }
    }
    assert gates[..|gates|] == gates;
    NoGatesErrors(gates);
    return errs.items;
  }

  method ValidateChecks(checks: seq<Check>) returns (errors: Problems)
    ensures errors == ChecksErrors(checks)
    ensures errors == [] <==> GoodChecks(checks)
  {
    var duplicates := ValidateUnique("plan.checks", checks, (c: Check) => c.id);
    var errs := new ErrorList(duplicates);
    for i := 0 to |checks|
      invariant errs.items == AddEach(AddCheck, duplicates, checks[..i])
    {
      AddEachNext(AddCheck, duplicates, checks, i);
      var c := checks[i];
      RequireToken(errs, "plan.checks.id", c.id);
      RequireToken(errs, "plan.checks.kind", c.kind);
      ValidateStatus(errs, "plan.checks.status", c.status, false);
      if c.required && c.status != Unset && c.status != Succeeded {
        errs.Add(NotSucceeded("check", c.id, c.status));
      }
    }
    assert checks[..|checks|] == checks;
    NoChecksErrors(checks);
    return errs.items;
  }

  /** The body of the loop over the steps. */
  method ValidateStep(errs: ErrorList, s: Step)
    modifies errs
    ensures errs.items == AddStep(old(errs.items), s)
  {
    RequireToken(errs, "plan.steps.id", s.id);
    RequireToken(errs, "plan.steps.executor", s.executor);
    RequireToken(errs, "plan.steps.action", s.action);
    if s.timeoutSeconds < 0 {
      errs.Add(NegativeTimeout(s.id));
    }
  }

  method ValidateEachStep(errs: ErrorList, steps: seq<Step>)
    modifies errs
    ensures errs.items == AddEach(AddStep, old(errs.items), steps)
  {
    ghost var before := errs.items;
    for i := 0 to |steps|
      invariant errs.items == AddEach(AddStep, before, steps[..i])
    {
      AddEachNext(AddStep, before, steps, i);
      ValidateStep(errs, steps[i]);
    }
    assert steps[..|steps|] == steps;
  }

  method ValidateSteps(steps: seq<Step>) returns (errors: Problems)
    ensures errors == StepsErrors(steps)
    ensures errors == [] <==> GoodSteps(steps)
  {
    var errs := new ErrorList([]);
    if |steps| == 0 {
      errs.Add(NoSteps);
    }
    var duplicates := ValidateUnique("plan.steps", steps, (s: Step) => s.id);
    errs.AddAll(duplicates);
    ValidateEachStep(errs, steps);
    NoStepsErrors(steps);
    return errs.items;
  }

  method ValidateRollback(r: RollbackTarget) returns (errors: Problems)
    ensures errors == RollbackErrors(r)
    ensures errors == [] <==> GoodRollback(r)
  {
    var errs := new ErrorList([]);
    RequireToken(errs, "rollback.id", r.id);
    RequireToken(errs, "rollback.strategy", r.strategy);
    var artifacts := ValidateArtifacts("rollback.artifacts", r.artifacts);
    NoRollbackErrors(r);
    return errs.items + artifacts;
  }

  /** Plan.Validate. */
  method ValidatePlan(p: Plan) returns (errors: Problems)
    ensures errors == PlanErrors(p)
    ensures errors == [] <==> WellFormedPlan(p)
  {
    NoPlanErrors(p);
    var errs := new ErrorList([]);
    RequireToken(errs, "plan.id", p.id);
    if p.createdAt == 0 {
      errs.Add(Missing("plan.createdAt"));
    }
    errors := errs.items;
    var part := ValidateApplication(p.application);
    errors := errors + part;
    part := ValidateEnvironment(p.environment);
    errors := errors + part;
    part := ValidateArtifacts("plan.artifacts", p.artifacts);
    errors := errors + part;
    part := ValidateGates(p.gates.Elems());
    errors := errors + part;
    part := ValidateChecks(p.checks.Elems());
    errors := errors + part;
    part := ValidateSteps(p.steps.Elems());
    errors := errors + part;
    part := [];
    if p.rollback.Some? {
      part := ValidateRollback(p.rollback.value);
    }
    errors := errors + part;
  }

  /** The fields of the job itself. */
  method ValidateJobHeader(errs: ErrorList, j: Job)
    requires errs.items == []
    modifies errs
    ensures errs.items == JobHeaderErrors(j)
  {
    RequireToken(errs, "job.id", j.id);
    RequireToken(errs, "job.nonce", j.nonce);
    if j.issuedAt == 0 {
      errs.Add(Missing("job.issuedAt"));
    }
    if j.expiresAt == 0 {
      errs.Add(Missing("job.expiresAt"));
    }
    if j.issuedAt != 0 && j.expiresAt != 0 && !(j.expiresAt > j.issuedAt) {
      errs.Add(NotAfterIssue);
    }
  }

  /** Job.Validate: no error is returned exactly when the job is well formed. */
  method ValidateJob(j: Job) returns (errors: Problems)
    ensures errors == JobErrors(j)
    ensures errors == [] <==> WellFormedJob(j)
  {
    var errs := new ErrorList([]);
    ValidateJobHeader(errs, j);
    var plan := ValidatePlan(j.plan);
    if plan != [] {
      errs.Add(BadPlan(plan));
    }
    NoJobErrors(j);
    return errs.items;
  }

  /** In a well-formed plan step ids are unique, so looking for the first step with an id finds the only one. */
  lemma StepIdsUnique(p: Plan, i: nat, j: nat)
    requires WellFormedPlan(p) && i < |p.steps.Elems()| && j < |p.steps.Elems()|
    requires p.steps.Elems()[i].id == p.steps.Elems()[j].id
    ensures i == j
  {
    var steps := p.steps.Elems();
    var keys := Map(TrimSpace, StepIds(steps));
    assert steps[i] in steps && steps[j] in steps;
    assert keys[i] == TrimSpace(steps[i].id) && keys[j] == TrimSpace(steps[j].id);
  }

  /* ---------- texts of printable ASCII characters ---------- */

  predicate IsPlainText(s: string) { forall i :: 0 <= i < |s| ==> '!' <= s[i] <= '~' }

  lemma {:induction false} PlainLength(s: string)
    requires IsPlainText(s)
    ensures Utf8Len(s) == |s|
  {
    if s != "" {
      PlainLength(s[1..]);
    }
  }

  lemma PlainToken(s: string)
    requires IsPlainText(s)
    ensures IsToken(s) <==> 0 < |s| <= MAX_TOKEN
  {
    TrimSpaceOfTrimmed(s);
    PlainLength(s);
    assert forall i :: 0 <= i < |s| ==> !IsSpace(s[i]) && !IsControl(s[i]);
  }

  /* ---------- jobs with few parts ---------- */

  lemma BareParts(id: string, name: string)
    ensures GoodApplication(Application(id, name, NilSlice, NilDict)) <==> IsToken(id)
    ensures GoodEnvironment(Environment(id, name, NilSlice, NilDict)) <==> IsToken(id)
    ensures GoodGates([]) && GoodChecks([])
  {
  }

  /* ---------- well-formedness spelled out ---------- */

  /** A token is white space around a text of at most 128 bytes without white space or control characters. */
  lemma TokenMeans(a: string, t: string, b: string)
    requires AllSpace(a) && AllSpace(b) && Trimmed(t)
    ensures IsToken(a + t + b) <==>
      t != "" && Utf8Len(t) <= 128 && forall i :: 0 <= i < |t| ==> !IsSpace(t[i]) && !IsControl(t[i])
  {
    TrimSpaceUnique(a, t, b);
  }

  /** No two of these have the same id once trimmed, blank ids apart. */
  predicate NoTwins<T>(id: T -> string, s: seq<T>) {
    forall i, j :: 0 <= i < j < |s| && TrimSpace(id(s[i])) == TrimSpace(id(s[j])) ==> TrimSpace(id(s[i])) == ""
  }

  lemma NoTwinsIff<T>(id: T -> string, s: seq<T>)
    ensures DistinctIds(Map(id, s)) <==> NoTwins(id, s)
  {
    var keys := Map(TrimSpace, Map(id, s));
    assert forall i :: 0 <= i < |s| ==> keys[i] == TrimSpace(id(s[i]));
    assert NoTwins(id, s) <==> Distinct(keys);
  }

  /** One of the six statuses that have a name. */
  predicate IsNamedStatus(s: Status) { s in {Pending, Running, Succeeded, Failed, Skipped, Denied} }

  predicate SoundArtifacts(s: seq<Artifact>) {
    && NoTwins((a: Artifact) => a.id, s)
    && forall a :: a in s ==>
         IsToken(a.id) && IsToken(a.kind) && TrimSpace(a.ref) != "" && TrimSpace(a.digest) != "" && ':' in a.digest
  }

  lemma SoundArtifactsIff(s: Slice<Artifact>)
    ensures GoodArtifacts(s) <==> SoundArtifacts(s.Elems())
  {
    NoTwinsIff((a: Artifact) => a.id, s.Elems());
  }

  predicate SoundSteps(s: seq<Step>) {
    && s != [] && NoTwins((x: Step) => x.id, s)
    && forall x :: x in s ==> IsToken(x.id) && IsToken(x.executor) && IsToken(x.action) && x.timeoutSeconds >= 0
  }

  lemma SoundStepsIff(s: seq<Step>)
    ensures GoodSteps(s) <==> SoundSteps(s)
  {
    NoTwinsIff((x: Step) => x.id, s);
  }

  predicate SoundGates(s: seq<Gate>) {
    && NoTwins((g: Gate) => g.id, s)
    && forall g :: g in s ==>
         && IsToken(g.id) && IsToken(g.kind)
         && IsNamedStatus(g.status) && (g.required ==> g.status == Succeeded)
  }

  lemma SoundGatesIff(s: seq<Gate>)
    ensures GoodGates(s) <==> SoundGates(s)
  {
    NoTwinsIff((g: Gate) => g.id, s);
  }

  predicate SoundChecks(s: seq<Check>) {
    && NoTwins((c: Check) => c.id, s)
    && forall c :: c in s ==>
         && IsToken(c.id) && IsToken(c.kind) && (c.status == Unset || IsNamedStatus(c.status))
         && (c.required ==> c.status == Unset || c.status == Succeeded)
  }

  lemma SoundChecksIff(s: seq<Check>)
    ensures GoodChecks(s) <==> SoundChecks(s)
  {
    NoTwinsIff((c: Check) => c.id, s);
  }

  predicate SoundApplication(a: Application) {
    && IsToken(a.id) && NoTwins((c: Component) => c.id, a.components.Elems())
    && forall c :: c in a.components.Elems() ==> IsToken(c.id)
  }

  predicate SoundEnvironment(e: Environment) {
    && IsToken(e.id) && NoTwins((t: Target) => t.id, e.targets.Elems())
    && forall t :: t in e.targets.Elems() ==> IsToken(t.id) && IsToken(t.kind)
  }

  lemma SoundPlaceIff(a: Application, e: Environment)
    ensures GoodApplication(a) <==> SoundApplication(a)
    ensures GoodEnvironment(e) <==> SoundEnvironment(e)
  {
    NoTwinsIff((c: Component) => c.id, a.components.Elems());
    NoTwinsIff((t: Target) => t.id, e.targets.Elems());
  }

  predicate SoundPlan(p: Plan) {
    && IsToken(p.id) && p.createdAt != 0
    && SoundApplication(p.application) && SoundEnvironment(p.environment)
    && SoundArtifacts(p.artifacts.Elems()) && SoundGates(p.gates.Elems())
    && SoundChecks(p.checks.Elems()) && SoundSteps(p.steps.Elems())
    && match p.rollback
       case None => true
       case Some(r) => IsToken(r.id) && IsToken(r.strategy) && SoundArtifacts(r.artifacts.Elems())
  }

  /** What a job must be for no error to be found in it, rule by rule. */
  lemma NoErrorsIff(j: Job)
    ensures JobErrors(j) == [] <==>
      && IsToken(j.id) && IsToken(j.nonce)
      && j.issuedAt != 0 && j.expiresAt != 0 && j.issuedAt < j.expiresAt
      && SoundPlan(j.plan)
  {
    NoJobErrors(j);
    SoundPlanIff(j.plan);
  }

  lemma SoundPlanIff(p: Plan)
    ensures WellFormedPlan(p) <==> SoundPlan(p)
  {
    SoundPlaceIff(p.application, p.environment);
    SoundArtifactsIff(p.artifacts);
    SoundGatesIff(p.gates.Elems());
    SoundChecksIff(p.checks.Elems());
    SoundStepsIff(p.steps.Elems());
    if p.rollback.Some? {
      SoundArtifactsIff(p.rollback.value.artifacts);
    }
  }
}
