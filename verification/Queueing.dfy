/** What the pending queue keeps in every run: conservation, hand-out at most once, and order. */
module Queueing {
  import opened Prelude
  import opened Deploy
  import opened Selection
  import opened StoreSpec
  import opened Protocol

  /** The queue holds increasing positions of enqueued jobs, and those jobs are what is pending. */
  predicate QueueInv(enqueued: seq<SignedJob>, pending: seq<SignedJob>, queue: seq<nat>) {
    && |queue| == |pending|
    && (forall i :: 0 <= i < |queue| ==> queue[i] < |enqueued| && pending[i] == enqueued[queue[i]])
    && (forall i, j :: 0 <= i < j < |queue| ==> queue[i] < queue[j])
  }

  /** Every job ever enqueued either waits or was handed out, never both, and was handed out at most once. */
  ghost predicate HandoutInv(n: nat, queue: seq<nat>, handouts: seq<Handout>) {
    && (forall i, j :: 0 <= i < j < |handouts| ==> handouts[i].slot != handouts[j].slot)
    && (forall slot: nat :: Handed(handouts, slot) <==> slot < n && slot !in queue)
  }

  predicate SlotsExist(n: nat, handouts: seq<Handout>) { forall i :: 0 <= i < |handouts| ==> handouts[i].slot < n }

  function HandedJobs(enqueued: seq<SignedJob>, handouts: seq<Handout>): seq<SignedJob>
    requires SlotsExist(|enqueued|, handouts)
  {
    seq(|handouts|, i requires 0 <= i < |handouts| => enqueued[handouts[i].slot])
  }

  /** No job is lost or invented: what was enqueued is what is pending together with what was handed out. */
  predicate Conserved(enqueued: seq<SignedJob>, pending: seq<SignedJob>, handouts: seq<Handout>) {
    && SlotsExist(|enqueued|, handouts)
    && multiset(enqueued) == multiset(pending) + multiset(HandedJobs(enqueued, handouts))
  }

  predicate HandedBefore(handouts: seq<Handout>, j: nat, slot: nat) {
    exists i :: 0 <= i < j && i < |handouts| && handouts[i].slot == slot
  }

  /** A job enqueued earlier that asks for no more than a job handed out was itself handed out earlier. */
  ghost predicate FirstComeFirstServed(enqueued: seq<SignedJob>, handouts: seq<Handout>) {
    forall j, a: nat ::
      0 <= j < |handouts| && a < handouts[j].slot < |enqueued| &&
      AsksNoMore(enqueued[a].job.selector, enqueued[handouts[j].slot].job.selector)
      ==> HandedBefore(handouts, j, a)
  }

  ghost predicate QueueFacts(s: SystemState) {
    && QueueInv(s.enqueued, s.store.pending, s.queue)
    && HandoutInv(|s.enqueued|, s.queue, s.handouts)
    && Conserved(s.enqueued, s.store.pending, s.handouts)
    && FirstComeFirstServed(s.enqueued, s.handouts)
  }

  /* ---------- enqueueing ---------- */

  lemma EnqueueKeepsQueue(enqueued: seq<SignedJob>, pending: seq<SignedJob>, queue: seq<nat>, x: SignedJob)
    requires QueueInv(enqueued, pending, queue)
    ensures QueueInv(enqueued + [x], pending + [x], queue + [|enqueued|])
  {
  }

  lemma EnqueueKeepsHandouts(n: nat, queue: seq<nat>, handouts: seq<Handout>)
    requires HandoutInv(n, queue, handouts)
    ensures HandoutInv(n + 1, queue + [n], handouts)
  {
    forall slot: nat ensures Handed(handouts, slot) <==> slot < n + 1 && slot !in queue + [n] {
      assert slot in queue + [n] <==> slot in queue || slot == n;
    }
  }

  lemma EnqueueConserves(enqueued: seq<SignedJob>, pending: seq<SignedJob>, handouts: seq<Handout>, x: SignedJob)
    requires Conserved(enqueued, pending, handouts)
    ensures Conserved(enqueued + [x], pending + [x], handouts)
  {
    assert HandedJobs(enqueued + [x], handouts) == HandedJobs(enqueued, handouts);
  }

  lemma EnqueueKeepsOrder(enqueued: seq<SignedJob>, handouts: seq<Handout>, x: SignedJob)
    requires FirstComeFirstServed(enqueued, handouts) && SlotsExist(|enqueued|, handouts)
    ensures FirstComeFirstServed(enqueued + [x], handouts)
  {
  }

  /* ---------- handing out ---------- */

  lemma HandOutKeepsQueue(enqueued: seq<SignedJob>, pending: seq<SignedJob>, queue: seq<nat>, i: nat)
    requires QueueInv(enqueued, pending, queue) && i < |queue|
    ensures QueueInv(enqueued, pending[..i] + pending[i + 1..], Without(queue, i))
  {
  }

  lemma InWithout(queue: seq<nat>, i: nat, slot: nat)
    requires i < |queue| && forall a, b :: 0 <= a < b < |queue| ==> queue[a] < queue[b]
    ensures slot in Without(queue, i) <==> slot in queue && slot != queue[i]
  {
    var rest := Without(queue, i);
    if slot in queue && slot != queue[i] {
      var k :| 0 <= k < |queue| && queue[k] == slot;
      assert rest[if k < i then k else k - 1] == slot;
    }
  }

  lemma HandedNext(handouts: seq<Handout>, h: Handout, slot: nat)
    ensures Handed(handouts + [h], slot) <==> Handed(handouts, slot) || slot == h.slot
  {
    var next := handouts + [h];
    if Handed(handouts, slot) {
      var i :| 0 <= i < |handouts| && handouts[i].slot == slot;
      assert next[i].slot == slot;
    }
    assert next[|handouts|] == h;
  }

  lemma HandOutKeepsHandouts(n: nat, queue: seq<nat>, handouts: seq<Handout>, i: nat, taker: Option<nat>)
    requires HandoutInv(n, queue, handouts) && i < |queue| && queue[i] < n
    requires forall a, b :: 0 <= a < b < |queue| ==> queue[a] < queue[b]
    ensures HandoutInv(n, Without(queue, i), handouts + [Handout(queue[i], taker)])
  {
    var h := Handout(queue[i], taker);
    assert !Handed(handouts, h.slot);
    forall slot: nat ensures Handed(handouts + [h], slot) <==> slot < n && slot !in Without(queue, i) {
      HandedNext(handouts, h, slot);
      InWithout(queue, i, slot);
    }
  }

  lemma HandOutConserves(enqueued: seq<SignedJob>, pending: seq<SignedJob>, handouts: seq<Handout>, i: nat, h: Handout)
    requires Conserved(enqueued, pending, handouts)
    requires i < |pending| && h.slot < |enqueued| && enqueued[h.slot] == pending[i]
    ensures Conserved(enqueued, pending[..i] + pending[i + 1..], handouts + [h])
  {
    assert pending == pending[..i] + [pending[i]] + pending[i + 1..];
    assert HandedJobs(enqueued, handouts + [h]) == HandedJobs(enqueued, handouts) + [pending[i]];
  }

  /** While a waits, nobody is given a later job that asks for at least as much. */
  lemma EarlierJobGoesFirst(s: SystemState, info: Info, a: nat)
    requires QueueInv(s.enqueued, s.store.pending, s.queue) && HandoutInv(|s.enqueued|, s.queue, s.handouts)
    requires FirstMatch(s.store.pending, info).Some?
    requires var b := s.queue[FirstMatch(s.store.pending, info).value];
      a < b && AsksNoMore(s.enqueued[a].job.selector, s.enqueued[b].job.selector)
    ensures Handed(s.handouts, a)
  {
    var i := FirstMatch(s.store.pending, info).value;
    forall k | 0 <= k < i ensures !AsksNoMore(s.store.pending[k].job.selector, s.store.pending[i].job.selector) {
      MatchesLess(info, s.store.pending[k].job.selector, s.store.pending[i].job.selector);
    }
    forall k | 0 <= k < |s.queue| ensures s.queue[k] != a {
    }
  }

  lemma HandOutKeepsOrder(s: SystemState, info: Info, h: Handout)
    requires QueueFacts(s) && FirstMatch(s.store.pending, info).Some?
    requires h.slot == s.queue[FirstMatch(s.store.pending, info).value]
    ensures FirstComeFirstServed(s.enqueued, s.handouts + [h])
  {
    var next := s.handouts + [h];
    forall j, a: nat |
      0 <= j < |next| && a < next[j].slot < |s.enqueued| &&
      AsksNoMore(s.enqueued[a].job.selector, s.enqueued[next[j].slot].job.selector)
      ensures HandedBefore(next, j, a)
    {
      if j == |s.handouts| {
        EarlierJobGoesFirst(s, info, a);
        var i :| 0 <= i < |s.handouts| && s.handouts[i].slot == a;
        assert next[i].slot == a;
      } else {
        assert HandedBefore(s.handouts, j, a);
        var i :| 0 <= i < j && s.handouts[i].slot == a;
        assert next[i].slot == a;
      }
    }
  }

  lemma HandOutKeepsFacts(s: SystemState, info: Info, taker: Option<nat>)
    requires QueueFacts(s) && FirstMatch(s.store.pending, info).Some?
    ensures QueueFacts(HandOut(s, FirstMatch(s.store.pending, info).value, taker))
  {
    var i := FirstMatch(s.store.pending, info).value;
    var h := Handout(s.queue[i], taker);
    HandOutKeepsQueue(s.enqueued, s.store.pending, s.queue, i);
    HandOutKeepsHandouts(|s.enqueued|, s.queue, s.handouts, i, taker);
    HandOutConserves(s.enqueued, s.store.pending, s.handouts, i, h);
    HandOutKeepsOrder(s, info, h);
  }

  lemma StepKeepsQueueFacts(cfg: Config, s: SystemState, a: Action)
    requires QueueFacts(s) && Enabled(cfg, s, a)
    ensures QueueFacts(Apply(cfg, s, a))
  {
    match a {
      case Enqueue(signed) =>
        EnqueueKeepsQueue(s.enqueued, s.store.pending, s.queue, signed.Clone());
        EnqueueKeepsHandouts(|s.enqueued|, s.queue, s.handouts);
        EnqueueConserves(s.enqueued, s.store.pending, s.handouts, signed.Clone());
        EnqueueKeepsOrder(s.enqueued, s.handouts, signed.Clone());
      case Claim(w, _, _) => HandOutKeepsFacts(s, cfg.workers[w].info, Some(w));
      case ClaimByOther(info) => HandOutKeepsFacts(s, info, None);
      case VerifyClaimed(_, _, _) =>
      case RunStep(_, _, _, _) =>
      case FinishSteps(_, _) =>
      case RecordFails(_) =>
      case Complete(_, _) =>
      case CompleteByOther(_) =>
      case UpsertByOther(_) =>
    }
  }
}
