/** One worker running alone takes the machine's steps: a whole cycle of Runner.RunOnce is one of its runs. */
module SoloRuns {
  import opened Prelude
  import opened Deploy
  import opened Signing
  import opened StoreSpec
  import opened RunnerSpec
  import opened Protocol

  function ExecuteActions(world: World, registered: set<string>, w: nat, p: Phase, t: nat): seq<Action>
    requires p.Executing? && p.next <= |p.job.plan.steps.Elems()|
    decreases |p.job.plan.steps.Elems()| - p.next
  {
    if !HasStep(p) then [FinishSteps(w, world.clock(t))]
    else
      var (r, t') := RunnerSpec.RunStep(world, registered, p, t);
      var q := AfterStep(p, r);
      [Action.RunStep(w, world.execute(p.next), world.clock(t), world.clock(t + 1))]
      + if q.Executing? then ExecuteActions(world, registered, w, q, t') else []
  }

  predicate Executes(s: SystemState, w: nat, p: Phase) { IsBusy(s, w) && s.workers[w].phase == p }

  lemma ConsRun(cfg: Config, s: SystemState, a: Action, rest: seq<Action>)
    requires Enabled(cfg, s, a) && IsRun(cfg, Apply(cfg, s, a), rest)
    ensures IsRun(cfg, s, [a] + rest) && After(cfg, s, [a] + rest) == After(cfg, Apply(cfg, s, a), rest)
  {
    assert ([a] + rest)[1..] == rest;
  }

  lemma {:induction false} ExecuteAllIsARun(cfg: Config, s: SystemState, world: World, w: nat, p: Phase, t: nat)
    requires w < |cfg.workers| && Executes(s, w, p) && p.Executing? && p.next <= |p.job.plan.steps.Elems()|
    ensures var registered := cfg.workers[w].registered;
      var actions := ExecuteActions(world, registered, w, p, t);
      IsRun(cfg, s, actions) && Executes(After(cfg, s, actions), w, ExecuteAll(world, registered, p, t).0)
      && After(cfg, s, actions).store == s.store
    decreases |p.job.plan.steps.Elems()| - p.next
  {
    var registered := cfg.workers[w].registered;
    if !HasStep(p) {
      ConsRun(cfg, s, FinishSteps(w, world.clock(t)), []);
    } else {
      var (r, t') := RunnerSpec.RunStep(world, registered, p, t);
      var q := AfterStep(p, r);
      var a := Action.RunStep(w, world.execute(p.next), world.clock(t), world.clock(t + 1));
      var s' := Apply(cfg, s, a);
      assert Executes(s', w, q);
      if q.Executing? {
        ExecuteAllIsARun(cfg, s', world, w, q, t');
        ConsRun(cfg, s, a, ExecuteActions(world, registered, w, q, t'));
      } else {
        ConsRun(cfg, s, a, []);
      }
    }
  }

  /** From its claim on, a worker alone goes through the phases to the result that RunOnce records and completes. */
  lemma ProcessIsARun(cfg: Config, s: SystemState, world: World, w: nat, received: SignedJob, now: Time, t: nat)
    returns (actions: seq<Action>)
    requires w < |cfg.workers|
    requires Executes(s, w, AfterClaim(received, world.clock(t))) && s.workers[w].received == received
    ensures IsRun(cfg, s, actions)
    ensures var c := cfg.workers[w];
      var verdict := Verdict(WorkerVerify(cfg.crypto, c.verifier, received, now));
      && Executes(After(cfg, s, actions), w, Process(world, c.info, c.registered, received, verdict, t).0)
      && After(cfg, s, actions).store == s.store
  {
    var c := cfg.workers[w];
    var verdict := Verdict(WorkerVerify(cfg.crypto, c.verifier, received, now));
    var a := VerifyClaimed(w, now, world.clock(t + 1));
    var s' := Apply(cfg, s, a);
    var q := AfterVerify(c.info, AfterClaim(received, world.clock(t)), verdict, world.clock(t + 1));
    assert Executes(s', w, q);
    if q.Executing? {
      ExecuteAllIsARun(cfg, s', world, w, q, t + 1);
      actions := [a] + ExecuteActions(world, c.registered, w, q, t + 1);
      ConsRun(cfg, s, a, ExecuteActions(world, c.registered, w, q, t + 1));
    } else {
      actions := [a];
      ConsRun(cfg, s, a, []);
      assert [a] + [] == [a];
    }
  }

  predicate IsIdle(s: SystemState, w: nat) { w < |s.workers| && s.workers[w].Idle? }

  /** The two ways a cycle can end, and whether its result reached the store. */
  function LastAction(w: nat, recordFails: bool, arrives: bool): Action {
    if recordFails then RecordFails(w) else Complete(w, arrives)
  }

  lemma ClaimStarts(cfg: Config, s: SystemState, w: nat, i: nat, received: SignedJob, clock: Time)
    requires Enabled(cfg, s, Claim(w, received, clock)) && FirstMatch(s.store.pending, cfg.workers[w].info) == Some(i)
    ensures var t := Apply(cfg, s, Claim(w, received, clock));
      && Executes(t, w, AfterClaim(received, clock)) && t.workers[w].received == received
      && t.store == ClaimAt(s.store, i)
  {
  }

  lemma CycleEnds(cfg: Config, s: SystemState, w: nat, p: Phase, recordFails: bool, arrives: bool)
    requires w < |cfg.workers| && Executes(s, w, p) && p.Recording?
    ensures var a := LastAction(w, recordFails, arrives);
      && Enabled(cfg, s, a) && IsIdle(Apply(cfg, s, a), w)
      && Apply(cfg, s, a).store == if recordFails || !arrives then s.store
         else CompleteIn(cfg.decode, s.store, p.result.Clone())
  {
  }

  lemma OneAction(cfg: Config, s: SystemState, a: Action)
    requires Enabled(cfg, s, a)
    ensures IsRun(cfg, s, [a]) && After(cfg, s, [a]) == Apply(cfg, s, a)
  {
    assert [a][1..] == [];
  }

  /**
   * A whole cycle of an idle worker for which a job is waiting, from its claim to its end, is a run, and it leaves
   * the store as RunOnce does: the job claimed, and completed with the final result unless recording or delivery
   * failed.
   */
  lemma CycleIsARun(
    cfg: Config, s: SystemState, world: World, w: nat, i: nat, now: Time, t: nat, recordFails: bool, arrives: bool)
    returns (actions: seq<Action>)
    requires w < |cfg.workers| && IsIdle(s, w) && cfg.workers[w].info.id != ""
    requires FirstMatch(s.store.pending, cfg.workers[w].info) == Some(i)
    ensures IsRun(cfg, s, actions) && IsIdle(After(cfg, s, actions), w)
    ensures var c, received := cfg.workers[w], s.store.pending[i].Clone();
      var verdict := Verdict(WorkerVerify(cfg.crypto, c.verifier, received, now));
      var result := Process(world, c.info, c.registered, received, verdict, t).0.result;
      After(cfg, s, actions).store == if recordFails || !arrives then ClaimAt(s.store, i)
                                      else CompleteIn(cfg.decode, ClaimAt(s.store, i), result.Clone())
  {
    var c, received := cfg.workers[w], s.store.pending[i].Clone();
    var verdict := Verdict(WorkerVerify(cfg.crypto, c.verifier, received, now));
    var claim := Claim(w, received, world.clock(t));
    ClaimStarts(cfg, s, w, i, received, world.clock(t));
    var claimed := Apply(cfg, s, claim);
    var middle := ProcessIsARun(cfg, claimed, world, w, received, now, t);
    var end := After(cfg, claimed, middle);
    CycleEnds(cfg, end, w, Process(world, c.info, c.registered, received, verdict, t).0, recordFails, arrives);
    OneAction(cfg, end, LastAction(w, recordFails, arrives));
    RunAppend(cfg, claimed, middle, [LastAction(w, recordFails, arrives)]);
    actions := [claim] + (middle + [LastAction(w, recordFails, arrives)]);
    ConsRun(cfg, s, claim, middle + [LastAction(w, recordFails, arrives)]);
  }
}
