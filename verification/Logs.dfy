/** The completed log, the evidence log and the component index in every run. */
module Logs {
  import opened Prelude
  import opened Collections
  import opened Deploy
  import opened ComponentIndex
  import opened StoreSpec
  import opened ControlPlane
  import opened Protocol
  import opened Claiming

  /** The bundle tells the same story as the result, and names what the job claimed under its id was about, if any. */
  predicate Describes(e: Bundle, origin: Option<Job>, r: WorkResult) {
    && e.id == e.jobId == r.jobId && e.planId == r.planId && e.status == r.status
    && e.startedAt == r.startedAt && e.finishedAt == r.finishedAt && e.steps == r.steps && e.errors == NilSlice
    && match origin
       case Some(job) =>
         && e.applicationId == job.plan.application.id && e.environmentId == job.plan.environment.id
         && e.artifacts == job.plan.artifacts && e.labels == job.plan.labels
       case None => e.applicationId == "" && e.environmentId == "" && e.artifacts == NilSlice && e.labels == NilDict
  }

  /** The origin is a job that was enqueued under this id and handed out. */
  predicate GoodOrigin(enqueued: seq<SignedJob>, handouts: seq<Handout>, origin: Option<Job>, id: string) {
    origin.Some? ==> exists slot ::
      && 0 <= slot < |enqueued| && Handed(handouts, slot)
      && enqueued[slot].job.id == id && origin.value == enqueued[slot].job.Clone()
  }

  predicate LogInv(
    enqueued: seq<SignedJob>, handouts: seq<Handout>,
    completed: seq<WorkResult>, evidence: seq<Bundle>, origins: seq<Option<Job>>)
  {
    && |evidence| == |completed| == |origins|
    && forall i :: 0 <= i < |origins| ==>
         && Describes(evidence[i], origins[i], completed[i])
         && GoodOrigin(enqueued, handouts, origins[i], completed[i].jobId)
  }

  predicate LogFacts(s: SystemState) {
    && LogInv(s.enqueued, s.handouts, s.store.completed, s.store.evidence, s.origins)
    && s.store.components == ObserveAll(map[], s.observed)
  }

  /* ---------- the two logs ---------- */

  lemma OriginGrows(
    a: seq<SignedJob>, b: seq<SignedJob>, ha: seq<Handout>, hb: seq<Handout>, origin: Option<Job>, id: string)
    requires a <= b && ha <= hb && GoodOrigin(a, ha, origin, id)
    ensures GoodOrigin(b, hb, origin, id)
  {
    if origin.Some? {
      var slot :| 0 <= slot < |a| && Handed(ha, slot) && a[slot].job.id == id && origin.value == a[slot].job.Clone();
      var i :| 0 <= i < |ha| && ha[i].slot == slot;
      assert hb[i] == ha[i] && b[slot] == a[slot];
      assert Handed(hb, slot);
    }
  }

  lemma LogsStay(s: SystemState, t: SystemState)
    requires LogInv(s.enqueued, s.handouts, s.store.completed, s.store.evidence, s.origins)
    requires s.enqueued <= t.enqueued && s.handouts <= t.handouts && t.origins == s.origins
    requires t.store.completed == s.store.completed && t.store.evidence == s.store.evidence
    ensures LogInv(t.enqueued, t.handouts, t.store.completed, t.store.evidence, t.origins)
  {
    forall i | 0 <= i < |t.origins|
      ensures GoodOrigin(t.enqueued, t.handouts, t.origins[i], t.store.completed[i].jobId)
    {
      OriginGrows(s.enqueued, t.enqueued, s.handouts, t.handouts, s.origins[i], s.store.completed[i].jobId);
    }
  }

  lemma ClaimedJobIsEnqueued(s: SystemState, id: string)
    requires ClaimFacts(s)
    ensures GoodOrigin(s.enqueued, s.handouts, ClaimedJob(s.store, id), id)
  {
    if id in s.claimedSlot {
      assert GoodClaim(s.enqueued, s.handouts, s.retired, id, s.claimedSlot[id], s.store.claimed[id]);
    }
  }

  lemma DeliverExtendsLogs(cfg: Config, s: SystemState, result: WorkResult)
    requires ClaimFacts(s) && LogFacts(s)
    ensures LogFacts(Deliver(cfg, s, result))
  {
    var origin := ClaimedJob(s.store, result.jobId);
    ClaimedJobIsEnqueued(s, result.jobId);
    assert Describes(EvidenceFor(origin, result.Clone()), origin, result.Clone());
    ObserveAllConcat(map[], s.observed, Observations(cfg.decode, origin, result.Clone().steps.Elems()));
  }

  /* ---------- the index ---------- */

  lemma {:induction false} ObserveAllConcat(idx: Index, a: seq<Observation>, b: seq<Observation>)
    ensures ObserveAll(idx, a + b) == ObserveAll(ObserveAll(idx, a), b)
  {
    if b == [] {
      assert a + b == a;
    } else {
      assert (a + b)[..|a + b| - 1] == a + b[..|b| - 1];
      ObserveAllConcat(idx, a, b[..|b| - 1]);
    }
  }

  lemma UpsertExtendsIndex(cfg: Config, s: SystemState, cs: seq<ComponentState>)
    requires LogFacts(s)
    ensures LogFacts(Apply(cfg, s, UpsertByOther(cs)))
  {
    var t := Apply(cfg, s, UpsertByOther(cs));
    LogsStay(s, t);
    ObserveAllNext(map[], s.observed, [Listing(cs)]);
  }

  /* ---------- every step ---------- */

  lemma StepKeepsLogFacts(cfg: Config, s: SystemState, a: Action)
    requires ClaimFacts(s) && LogFacts(s) && Enabled(cfg, s, a)
    ensures LogFacts(Apply(cfg, s, a))
  {
    match a {
      case CompleteByOther(result) => DeliverExtendsLogs(cfg, s, result);
      case UpsertByOther(cs) => UpsertExtendsIndex(cfg, s, cs);
      case Complete(w, delivered) =>
        if delivered {
          DeliverExtendsLogs(cfg, s, s.workers[w].phase.result.Clone());
        }
      case _ => LogsStay(s, Apply(cfg, s, a));
    }
  }

  lemma StepExtendsLogs(cfg: Config, s: SystemState, a: Action)
    requires Enabled(cfg, s, a)
    ensures var t, r := Apply(cfg, s, a), Brought(s, a);
      && t.origins == s.origins + (if r.Some? then [ClaimedJob(s.store, r.value.jobId)] else [])
      && t.store.completed == s.store.completed + (if r.Some? then [r.value.Clone()] else [])
  {
  }

  /** Neither log ever loses or changes an entry. */
  lemma {:induction false} LogsOnlyGrow(cfg: Config, s: SystemState, actions: seq<Action>)
    requires IsRun(cfg, s, actions)
    ensures var t := After(cfg, s, actions);
      s.store.completed <= t.store.completed && s.store.evidence <= t.store.evidence
    decreases |actions|
  {
    if actions != [] {
      LogsOnlyGrow(cfg, Apply(cfg, s, actions[0]), actions[1..]);
    }
  }

  /** t's index is that of s after these observations, which are the ones that came in. */
  predicate ChangedBy(s: SystemState, t: SystemState, os: seq<Observation>) {
    t.observed == s.observed + os && t.store.components == ObserveAll(s.store.components, os)
  }

  lemma ChangedByBoth(s: SystemState, t: SystemState, u: SystemState, now: seq<Observation>, later: seq<Observation>)
    requires ChangedBy(s, t, now) && ChangedBy(t, u, later)
    ensures ChangedBy(s, u, now + later)
  {
    ObserveAllConcat(s.store.components, now, later);
  }

  /** Along any run the index is changed by the observations that come in, and by nothing else. */
  lemma {:induction false} IndexChanges(cfg: Config, s: SystemState, actions: seq<Action>)
    returns (os: seq<Observation>)
    requires IsRun(cfg, s, actions)
    ensures ChangedBy(s, After(cfg, s, actions), os)
    decreases |actions|
  {
    if actions == [] {
      os := [];
    } else {
      var t := Apply(cfg, s, actions[0]);
      var now := IndexChange(cfg, s, actions[0]);
      var later := IndexChanges(cfg, t, actions[1..]);
      os := now + later;
      ChangedByBoth(s, t, After(cfg, t, actions[1..]), now, later);
    }
  }

  lemma IndexChange(cfg: Config, s: SystemState, a: Action) returns (os: seq<Observation>)
    requires Enabled(cfg, s, a)
    ensures ChangedBy(s, Apply(cfg, s, a), os)
  {
    var r := Brought(s, a);
    if a.UpsertByOther? {
      os := [Listing(a.components)];
      ObserveAllOne(s.store.components, os[0]);
    } else if r.Some? {
      os := Observations(cfg.decode, ClaimedJob(s.store, r.value.jobId), r.value.Clone().steps.Elems());
    } else {
      os := [];
    }
  }

  /* ---------- what is retired ---------- */

  /** A result under this id was delivered while a job was claimed under it. */
  predicate FinishedUnder(completed: seq<WorkResult>, origins: seq<Option<Job>>, id: string) {
    exists i :: 0 <= i < |origins| && i < |completed| && origins[i].Some? && completed[i].jobId == id
  }

  predicate RetiredUnder(enqueued: seq<SignedJob>, retired: set<nat>, id: string) {
    exists slot :: slot in retired && slot < |enqueued| && enqueued[slot].job.id == id
  }

  /** The retired jobs are those finished, as far as ids can tell. */
  ghost predicate RetireInv(
    enqueued: seq<SignedJob>, retired: set<nat>, completed: seq<WorkResult>, origins: seq<Option<Job>>)
  {
    && (forall slot :: slot in retired ==> slot < |enqueued|)
    && forall id :: FinishedUnder(completed, origins, id) <==> RetiredUnder(enqueued, retired, id)
  }

  ghost predicate RetireFacts(s: SystemState) { RetireInv(s.enqueued, s.retired, s.store.completed, s.origins) }

  lemma RetiredStay(s: SystemState, t: SystemState)
    requires RetireFacts(s) && s.enqueued <= t.enqueued && t.retired == s.retired
    requires t.store.completed == s.store.completed && t.origins == s.origins
    ensures RetireFacts(t)
  {
    forall id ensures RetiredUnder(t.enqueued, t.retired, id) <==> RetiredUnder(s.enqueued, s.retired, id) {
      if RetiredUnder(s.enqueued, s.retired, id) {
        var slot :| slot in s.retired && slot < |s.enqueued| && s.enqueued[slot].job.id == id;
        assert t.enqueued[slot] == s.enqueued[slot];
      }
    }
  }

  lemma FinishedNext(
    completed: seq<WorkResult>, origins: seq<Option<Job>>, r: WorkResult, origin: Option<Job>, id: string)
    requires |completed| == |origins|
    ensures FinishedUnder(completed + [r], origins + [origin], id) <==>
      FinishedUnder(completed, origins, id) || (origin.Some? && r.jobId == id)
  {
    var n := |completed|;
    if FinishedUnder(completed, origins, id) {
      var i :| 0 <= i < n && origins[i].Some? && completed[i].jobId == id;
      assert (origins + [origin])[i].Some? && (completed + [r])[i].jobId == id;
    }
    assert (origins + [origin])[n] == origin && (completed + [r])[n] == r;
  }

  lemma RetiredNext(enqueued: seq<SignedJob>, retired: set<nat>, slot: nat, id: string)
    requires slot < |enqueued|
    ensures RetiredUnder(enqueued, retired + {slot}, id) <==>
      RetiredUnder(enqueued, retired, id) || enqueued[slot].job.id == id
  {
    if RetiredUnder(enqueued, retired, id) {
      var k :| k in retired && k < |enqueued| && enqueued[k].job.id == id;
      assert k in retired + {slot};
    }
    assert slot in retired + {slot};
  }

  lemma DeliverRetiresJob(cfg: Config, s: SystemState, result: WorkResult)
    requires ClaimFacts(s) && LogFacts(s) && RetireFacts(s)
    ensures RetireFacts(Deliver(cfg, s, result))
  {
    var t, k := Deliver(cfg, s, result), result.jobId;
    var origin := ClaimedJob(s.store, k);
    if k in s.claimedSlot {
      assert GoodClaim(s.enqueued, s.handouts, s.retired, k, s.claimedSlot[k], s.store.claimed[k]);
    } else {
      assert t.retired == s.retired;
    }
    forall id ensures FinishedUnder(t.store.completed, t.origins, id) <==> RetiredUnder(t.enqueued, t.retired, id) {
      FinishedNext(s.store.completed, s.origins, result.Clone(), origin, id);
      if k in s.claimedSlot {
        RetiredNext(s.enqueued, s.retired, s.claimedSlot[k], id);
      }
    }
  }

  lemma StepKeepsRetireFacts(cfg: Config, s: SystemState, a: Action)
    requires ClaimFacts(s) && LogFacts(s) && RetireFacts(s) && Enabled(cfg, s, a)
    ensures RetireFacts(Apply(cfg, s, a))
  {
    match a {
      case CompleteByOther(result) => DeliverRetiresJob(cfg, s, result);
      case Complete(w, delivered) =>
        if delivered {
          DeliverRetiresJob(cfg, s, s.workers[w].phase.result.Clone());
        }
      case _ => RetiredStay(s, Apply(cfg, s, a));
    }
  }
}
