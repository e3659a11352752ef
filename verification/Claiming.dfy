/** What becomes of a job after it was handed out: claimed, then retired, or overwritten by another with its id. */
module Claiming {
  import opened Prelude
  import opened Deploy
  import opened StoreSpec
  import opened Protocol
  import opened Queueing

  /** Every claim stands for a job that was handed out and is not retired; what is retired was handed out. */
  predicate ClaimInv(
    enqueued: seq<SignedJob>, handouts: seq<Handout>, claimed: map<string, Job>, claimedSlot: map<string, nat>,
    retired: set<nat>)
  {
    && claimed.Keys == claimedSlot.Keys
    && (forall id :: id in claimedSlot ==> GoodClaim(enqueued, handouts, retired, id, claimedSlot[id], claimed[id]))
    && (forall slot :: slot in retired ==> Handed(handouts, slot))
  }

  predicate GoodClaim(
    enqueued: seq<SignedJob>, handouts: seq<Handout>, retired: set<nat>, id: string, slot: nat, job: Job)
  {
    && Handed(handouts, slot) && slot !in retired
    && slot < |enqueued| && enqueued[slot].job.id == id && job == enqueued[slot].job.Clone()
  }

  predicate IsClaimed(s: SystemState, slot: nat) {
    slot < |s.enqueued| && s.enqueued[slot].job.id in s.claimedSlot && s.claimedSlot[s.enqueued[slot].job.id] == slot
  }

  /** Handed out, but the store knows neither a claim nor a completion that stands for it. */
  predicate Lost(s: SystemState, slot: nat) { Handed(s.handouts, slot) && !IsClaimed(s, slot) && slot !in s.retired }

  predicate HasNamesake(s: SystemState, slot: nat) {
    && slot < |s.enqueued|
    && exists other ::
         0 <= other < |s.enqueued| && other != slot && s.enqueued[other].job.id == s.enqueued[slot].job.id
  }

  ghost predicate ClaimFacts(s: SystemState) {
    && ClaimInv(s.enqueued, s.handouts, s.store.claimed, s.claimedSlot, s.retired)
    && (forall slot: nat :: Lost(s, slot) ==> HasNamesake(s, slot))
  }

  /** The step hands out a job whose id is claimed already. */
  predicate HandsOutClaimedId(cfg: Config, s: SystemState, a: Action)
    requires Enabled(cfg, s, a)
  {
    match a
    case Claim(w, _, _) =>
      s.store.pending[FirstMatch(s.store.pending, cfg.workers[w].info).value].job.id in s.store.claimed
    case ClaimByOther(info) => s.store.pending[FirstMatch(s.store.pending, info).value].job.id in s.store.claimed
    case _ => false
  }

  /* ---------- handing out ---------- */

  lemma HandOutKeepsClaims(s: SystemState, i: nat, taker: Option<nat>)
    requires QueueFacts(s) && ClaimFacts(s) && i < |s.store.pending|
    ensures var t := HandOut(s, i, taker); ClaimInv(t.enqueued, t.handouts, t.store.claimed, t.claimedSlot, t.retired)
  {
    var t := HandOut(s, i, taker);
    var h := Handout(s.queue[i], taker);
    assert !Handed(s.handouts, h.slot);
    HandedNext(s.handouts, h, h.slot);
    forall id | id in t.claimedSlot
      ensures GoodClaim(t.enqueued, t.handouts, t.retired, id, t.claimedSlot[id], t.store.claimed[id])
    {
      HandedNext(s.handouts, h, t.claimedSlot[id]);
    }
    forall slot | slot in t.retired ensures Handed(t.handouts, slot) {
      HandedNext(s.handouts, h, slot);
    }
  }

  /** Handing out loses at most the job whose claim it overwrites. */
  lemma HandOutLoses(s: SystemState, i: nat, taker: Option<nat>, slot: nat)
    requires QueueFacts(s) && ClaimFacts(s) && i < |s.store.pending|
    ensures var id := s.store.pending[i].job.id;
      Lost(HandOut(s, i, taker), slot) <==> Lost(s, slot) || (id in s.claimedSlot && s.claimedSlot[id] == slot)
  {
    HandedNext(s.handouts, Handout(s.queue[i], taker), slot);
  }

  lemma HandOutKeepsClaimFacts(s: SystemState, i: nat, taker: Option<nat>)
    requires QueueFacts(s) && ClaimFacts(s) && i < |s.store.pending|
    ensures ClaimFacts(HandOut(s, i, taker))
  {
    var t, id := HandOut(s, i, taker), s.store.pending[i].job.id;
    HandOutKeepsClaims(s, i, taker);
    forall slot: nat | Lost(t, slot) ensures HasNamesake(t, slot) {
      HandOutLoses(s, i, taker, slot);
      if !Lost(s, slot) {
        assert s.queue[i] != slot && s.enqueued[s.queue[i]].job.id == id;
      }
    }
  }

  /* ---------- delivering a result ---------- */

  /** A result retires what is claimed under its id, and loses nothing. */
  lemma DeliverRetires(cfg: Config, s: SystemState, result: WorkResult, slot: nat)
    requires ClaimFacts(s)
    ensures Lost(Deliver(cfg, s, result), slot) <==> Lost(s, slot)
  {
  }

  lemma DeliverKeepsClaims(cfg: Config, s: SystemState, result: WorkResult)
    requires ClaimInv(s.enqueued, s.handouts, s.store.claimed, s.claimedSlot, s.retired)
    ensures var t := Deliver(cfg, s, result);
      ClaimInv(t.enqueued, t.handouts, t.store.claimed, t.claimedSlot, t.retired)
  {
    var t, id := Deliver(cfg, s, result), result.jobId;
    assert t.store.claimed == s.store.claimed - {id};
    forall k | k in t.claimedSlot
      ensures GoodClaim(t.enqueued, t.handouts, t.retired, k, t.claimedSlot[k], t.store.claimed[k])
    {
      assert GoodClaim(s.enqueued, s.handouts, s.retired, k, s.claimedSlot[k], s.store.claimed[k]);
      if id in s.claimedSlot {
        assert GoodClaim(s.enqueued, s.handouts, s.retired, id, s.claimedSlot[id], s.store.claimed[id]);
      }
    }
  }

  lemma DeliverKeepsClaimFacts(cfg: Config, s: SystemState, result: WorkResult)
    requires ClaimFacts(s)
    ensures ClaimFacts(Deliver(cfg, s, result))
  {
    var t := Deliver(cfg, s, result);
    DeliverKeepsClaims(cfg, s, result);
    forall slot: nat | Lost(t, slot) ensures HasNamesake(t, slot) {
      DeliverRetires(cfg, s, result, slot);
    }
  }

  /* ---------- every step ---------- */

  lemma EnqueueKeepsClaimFacts(cfg: Config, s: SystemState, signed: SignedJob)
    requires QueueFacts(s) && ClaimFacts(s)
    ensures ClaimFacts(Apply(cfg, s, Enqueue(signed)))
    ensures forall slot: nat :: Lost(Apply(cfg, s, Enqueue(signed)), slot) <==> Lost(s, slot)
  {
    var t := Apply(cfg, s, Enqueue(signed));
    forall slot: nat ensures Lost(t, slot) <==> Lost(s, slot) {
      if Handed(s.handouts, slot) {
        assert slot < |s.enqueued| && t.enqueued[slot] == s.enqueued[slot];
      }
    }
    forall slot: nat | Lost(t, slot) ensures HasNamesake(t, slot) {
      assert HasNamesake(s, slot);
      var other :| 0 <= other < |s.enqueued| && other != slot && s.enqueued[other].job.id == s.enqueued[slot].job.id;
      assert t.enqueued[other] == s.enqueued[other];
    }
  }

  lemma StepKeepsClaimFacts(cfg: Config, s: SystemState, a: Action)
    requires QueueFacts(s) && ClaimFacts(s) && Enabled(cfg, s, a)
    ensures ClaimFacts(Apply(cfg, s, a))
  {
    match a {
      case Enqueue(signed) => EnqueueKeepsClaimFacts(cfg, s, signed);
      case Claim(w, _, _) =>
        var i := FirstMatch(s.store.pending, cfg.workers[w].info).value;
        HandOutKeepsClaimFacts(s, i, Some(w));
        SameJobs(HandOut(s, i, Some(w)), Apply(cfg, s, a));
      case ClaimByOther(info) => HandOutKeepsClaimFacts(s, FirstMatch(s.store.pending, info).value, None);
      case VerifyClaimed(w, _, _) => SameJobs(s, Apply(cfg, s, a));
      case RunStep(w, _, _, _) => SameJobs(s, Apply(cfg, s, a));
      case FinishSteps(w, _) => SameJobs(s, Apply(cfg, s, a));
      case RecordFails(w) => SameJobs(s, Apply(cfg, s, a));
      case Complete(w, delivered) => CompleteKeepsClaimFacts(cfg, s, w, delivered);
      case CompleteByOther(result) => DeliverKeepsClaimFacts(cfg, s, result);
      case UpsertByOther(_) => SameJobs(s, Apply(cfg, s, a));
    }
  }

  lemma SameJobs(s: SystemState, t: SystemState)
    requires t.enqueued == s.enqueued && t.handouts == s.handouts
    requires t.claimedSlot == s.claimedSlot && t.retired == s.retired
    requires t.store.claimed == s.store.claimed
    ensures ClaimFacts(t) <==> ClaimFacts(s)
    ensures forall slot: nat :: Lost(t, slot) <==> Lost(s, slot)
  {
    assert forall slot: nat :: Lost(t, slot) <==> Lost(s, slot);
    assert forall slot: nat :: HasNamesake(t, slot) <==> HasNamesake(s, slot);
  }

  lemma CompleteKeepsClaimFacts(cfg: Config, s: SystemState, w: nat, delivered: bool)
    requires ClaimFacts(s) && Enabled(cfg, s, Complete(w, delivered))
    ensures ClaimFacts(Apply(cfg, s, Complete(w, delivered)))
    ensures forall slot: nat :: Lost(Apply(cfg, s, Complete(w, delivered)), slot) <==> Lost(s, slot)
  {
    var t := Apply(cfg, s, Complete(w, delivered));
    if delivered {
      var d := Deliver(cfg, s, s.workers[w].phase.result.Clone());
      DeliverKeepsClaimFacts(cfg, s, s.workers[w].phase.result.Clone());
      SameJobs(d, t);
      forall slot: nat ensures Lost(t, slot) <==> Lost(s, slot) {
        DeliverRetires(cfg, s, s.workers[w].phase.result.Clone(), slot);
      }
    } else {
      SameJobs(s, t);
    }
  }

  /* ---------- which steps lose a job ---------- */

  /** A step loses track of a job exactly when it hands out a job whose id is claimed at that moment. */
  lemma LosesExactlyOnClaimedId(cfg: Config, s: SystemState, a: Action)
    requires QueueFacts(s) && ClaimFacts(s) && Enabled(cfg, s, a)
    ensures (exists slot: nat :: !Lost(s, slot) && Lost(Apply(cfg, s, a), slot)) <==> HandsOutClaimedId(cfg, s, a)
    ensures forall slot: nat :: Lost(s, slot) ==> Lost(Apply(cfg, s, a), slot)
  {
    match a {
      case Enqueue(signed) => EnqueueKeepsClaimFacts(cfg, s, signed);
      case Claim(w, _, _) =>
        var i := FirstMatch(s.store.pending, cfg.workers[w].info).value;
        SameJobs(HandOut(s, i, Some(w)), Apply(cfg, s, a));
        HandOutLosesIff(s, i, Some(w));
      case ClaimByOther(info) => HandOutLosesIff(s, FirstMatch(s.store.pending, info).value, None);
      case VerifyClaimed(w, _, _) => SameJobs(s, Apply(cfg, s, a));
      case RunStep(w, _, _, _) => SameJobs(s, Apply(cfg, s, a));
      case FinishSteps(w, _) => SameJobs(s, Apply(cfg, s, a));
      case RecordFails(w) => SameJobs(s, Apply(cfg, s, a));
      case Complete(w, delivered) => CompleteKeepsClaimFacts(cfg, s, w, delivered);
      case CompleteByOther(result) =>
        forall slot: nat ensures Lost(Deliver(cfg, s, result), slot) <==> Lost(s, slot) {
          DeliverRetires(cfg, s, result, slot);
        }
      case UpsertByOther(_) => SameJobs(s, Apply(cfg, s, a));
    }
  }

  lemma HandOutLosesIff(s: SystemState, i: nat, taker: Option<nat>)
    requires QueueFacts(s) && ClaimFacts(s) && i < |s.store.pending|
    ensures (exists slot: nat :: !Lost(s, slot) && Lost(HandOut(s, i, taker), slot)) <==>
      s.store.pending[i].job.id in s.store.claimed
    ensures forall slot: nat :: Lost(s, slot) ==> Lost(HandOut(s, i, taker), slot)
  {
    var t, id := HandOut(s, i, taker), s.store.pending[i].job.id;
    forall slot: nat ensures Lost(t, slot) <==> Lost(s, slot) || (id in s.claimedSlot && s.claimedSlot[id] == slot) {
      HandOutLoses(s, i, taker, slot);
    }
    if id in s.claimedSlot {
      var slot := s.claimedSlot[id];
      assert GoodClaim(s.enqueued, s.handouts, s.retired, id, slot, s.store.claimed[id]);
      assert !Lost(s, slot) && Lost(t, slot);
    }
  }

  /* ---------- where every job is ---------- */

  predicate DistinctJobIds(enqueued: seq<SignedJob>) {
    forall i, j :: 0 <= i < j < |enqueued| ==> enqueued[i].job.id != enqueued[j].job.id
  }

  /** Each job ever enqueued is in exactly one of four places, and only a job with a namesake can be lost. */
  lemma JobsArePartitioned(s: SystemState, slot: nat)
    requires QueueFacts(s) && ClaimFacts(s) && slot < |s.enqueued|
    ensures var places := [slot in s.queue, IsClaimed(s, slot), slot in s.retired, Lost(s, slot)];
      exists k :: 0 <= k < 4 && places[k] && forall j :: 0 <= j < 4 && j != k ==> !places[j]
    ensures Lost(s, slot) ==> HasNamesake(s, slot)
    ensures DistinctJobIds(s.enqueued) ==> !Lost(s, slot)
  {
    var places := [slot in s.queue, IsClaimed(s, slot), slot in s.retired, Lost(s, slot)];
    assert slot in s.queue <==> !Handed(s.handouts, slot);
    if IsClaimed(s, slot) {
      var id := s.enqueued[slot].job.id;
      assert GoodClaim(s.enqueued, s.handouts, s.retired, id, slot, s.store.claimed[id]);
    }
    var k := if places[0] then 0 else if places[1] then 1 else if places[2] then 2 else 3;
    assert places[k] && forall j :: 0 <= j < 4 && j != k ==> !places[j];
  }
}
