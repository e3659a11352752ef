/**
 * The index of observed components: how results change it step by step, and what it holds after any history.
 */
module ComponentIndex {
  import opened Prelude
  import opened Deploy
  import opened Validation

  const KUBERNETES := "kubernetes"
  const INVENTORY_APPLICATION := "pk-deploy-inventory"
  const INVENTORY_EXECUTOR := "kubernetes.inventory"

  type Index = map<string, ComponentState>

  /** The JSON reading of a "components" output, which may fail. */
  type Decoder = string -> Option<seq<ComponentState>>

  /** What one step of a result does to the index. An inventory knows the environment it covers. */
  datatype Observation =
    | Inventory(environmentId: string, components: seq<ComponentState>)
    | Listing(components: seq<ComponentState>)

  function Lookup(idx: Index, k: string): Option<ComponentState> { if k in idx then Some(idx[k]) else None }

  /* ---------- the operations ---------- */

  function Upsert(idx: Index, cs: seq<ComponentState>): Index {
    if cs == [] then idx
    else
      var rest, c := Upsert(idx, cs[..|cs| - 1]), cs[|cs| - 1];
      if c.id == "" then rest else rest[c.id := c]
  }

  predicate Covers(environmentId: string, c: ComponentState) {
    c.environmentId == environmentId && c.runtime == KUBERNETES
  }

  function Sweep(idx: Index, environmentId: string): Index {
    map k | k in idx && !Covers(environmentId, idx[k]) :: idx[k]
  }

  /** Without an environment of its own an inventory takes that of its first component. */
  function ResolveEnvironment(environmentId: string, cs: seq<ComponentState>): string {
    if environmentId == "" && cs != [] then cs[0].environmentId else environmentId
  }

  function Observe(idx: Index, o: Observation): Index {
    match o
    case Inventory(e, cs) => Upsert(Sweep(idx, e), cs)
    case Listing(cs) => Upsert(idx, cs)
  }

  function ObserveAll(idx: Index, os: seq<Observation>): Index {
    if os == [] then idx else Observe(ObserveAll(idx, os[..|os| - 1]), os[|os| - 1])
  }

  /* ---------- which observation a step result makes ---------- */

  function FirstStep(steps: seq<Step>, id: string): Option<Step> {
    if steps == [] then None else if steps[0].id == id then Some(steps[0]) else FirstStep(steps[1..], id)
  }

  /** claimed is None for results of jobs that were never claimed. */
  predicate IsInventory(claimed: Option<Job>, stepId: string) {
    && claimed.Some?
    && claimed.value.plan.application.id == INVENTORY_APPLICATION
    && var step := FirstStep(claimed.value.plan.steps.Elems(), stepId);
       step.Some? && step.value.executor == INVENTORY_EXECUTOR
  }

  /** The components a step reports: none when the output is missing, empty or unreadable. */
  function Reported(decode: Decoder, step: StepResult): Option<seq<ComponentState>> {
    if step.outputs.Get("components") == "" then None else decode(step.outputs.Get("components"))
  }

  /** An inventory whose environment stays unknown is dropped. */
  function StepObservation(decode: Decoder, claimed: Option<Job>, step: StepResult): seq<Observation> {
    match Reported(decode, step)
    case None => []
    case Some(cs) =>
      if IsInventory(claimed, step.stepId) then
        var e := ResolveEnvironment(claimed.value.plan.environment.id, cs);
        if e == "" then [] else [Inventory(e, cs)]
      else [Listing(cs)]
  }

  function Observations(decode: Decoder, claimed: Option<Job>, steps: seq<StepResult>): seq<Observation> {
    if steps == [] then []
    else Observations(decode, claimed, steps[..|steps| - 1]) + StepObservation(decode, claimed, steps[|steps| - 1])
  }

  /** For a well-formed plan the first-match lookup asks whether some step has this id and the inventory executor. */
  lemma InventoryStepLookup(job: Job, stepId: string)
    requires WellFormedPlan(job.plan)
    ensures IsInventory(Some(job), stepId) <==>
      (job.plan.application.id == INVENTORY_APPLICATION
       && exists s :: s in job.plan.steps.Elems() && s.id == stepId && s.executor == INVENTORY_EXECUTOR)
  {
    var steps := job.plan.steps.Elems();
    var i := FirstStepAt(steps, stepId);
    forall s | s in steps && s.id == stepId ensures i < |steps| && s == steps[i] {
      var j :| 0 <= j < |steps| && steps[j] == s;
      StepIdsUnique(job.plan, i, j);
    }
  }

  lemma {:induction false} FirstStepAt(steps: seq<Step>, id: string) returns (i: nat)
    ensures i <= |steps| && forall j :: 0 <= j < i ==> steps[j].id != id
    ensures if i < |steps| then steps[i].id == id && FirstStep(steps, id) == Some(steps[i])
      else FirstStep(steps, id) == None
  {
    i := 0;
    if steps != [] && steps[0].id != id {
      var k := FirstStepAt(steps[1..], id);
      i := k + 1;
      assert forall j :: 1 <= j < i ==> steps[j] == steps[1..][j - 1];
    }
  }

  /* ---------- looking up one key ---------- */

  /** The last listed component with this id. */
  function LastListed(cs: seq<ComponentState>, k: string): Option<ComponentState> {
    if cs == [] || k == "" then None
    else if cs[|cs| - 1].id == k then Some(cs[|cs| - 1])
    else LastListed(cs[..|cs| - 1], k)
  }

  lemma {:induction false} UpsertLookup(idx: Index, cs: seq<ComponentState>, k: string)
    ensures Lookup(Upsert(idx, cs), k) == if LastListed(cs, k).Some? then LastListed(cs, k) else Lookup(idx, k)
  {
    if cs != [] {
      UpsertLookup(idx, cs[..|cs| - 1], k);
    }
  }

  /** The last place at which this id is listed. */
  lemma {:induction false} LastPlace(cs: seq<ComponentState>, id: string) returns (i: nat)
    requires LastListed(cs, id).Some?
    ensures i < |cs| && cs[i].id == id && LastListed(cs, id) == Some(cs[i])
    ensures forall k :: i < k < |cs| ==> cs[k].id != id
  {
    var n := |cs| - 1;
    if cs[n].id == id {
      i := n;
    } else {
      i := LastPlace(cs[..n], id);
    }
  }

  lemma {:induction false} LastListedAt(cs: seq<ComponentState>, id: string, i: nat)
    requires id != "" && i < |cs| && cs[i].id == id && forall k :: i < k < |cs| ==> cs[k].id != id
    ensures LastListed(cs, id) == Some(cs[i])
  {
    if i < |cs| - 1 {
      LastListedAt(cs[..|cs| - 1], id, i);
    }
  }

  predicate Sweeps(o: Observation, c: ComponentState) { o.Inventory? && Covers(o.environmentId, c) }

  /**
   * One observation: what it lists is overwritten, the last listing winning; an inventory removes the
   * kubernetes components of its environment that it does not list; everything else stays.
   */
  lemma ObserveLookup(idx: Index, o: Observation, k: string)
    ensures Lookup(Observe(idx, o), k) ==
      if LastListed(o.components, k).Some? then LastListed(o.components, k)
      else if k in idx && Sweeps(o, idx[k]) then None
      else Lookup(idx, k)
  {
    match o
    case Inventory(e, cs) => UpsertLookup(Sweep(idx, e), cs, k);
    case Listing(cs) => UpsertLookup(idx, cs, k);
  }

  lemma SameLookups(a: Index, b: Index)
    requires forall k :: Lookup(a, k) == Lookup(b, k)
    ensures a == b
  {
    forall k ensures k in a <==> k in b {
      assert Lookup(a, k) == Lookup(b, k);
    }
    forall k | k in a ensures a[k] == b[k] {
      assert Lookup(a, k) == Lookup(b, k);
    }
  }

  /* ---------- one observation, in plain words ---------- */

  /** Nothing in the list has this id. */
  predicate Unlisted(cs: seq<ComponentState>, k: string) { forall i :: 0 <= i < |cs| ==> cs[i].id != k }

  /** Component n is the last of the list with this id, which is not blank. */
  predicate ListedLastAt(cs: seq<ComponentState>, n: int, k: string) {
    0 <= n < |cs| && k != "" && cs[n].id == k && forall i :: n < i < |cs| ==> cs[i].id != k
  }

  lemma {:induction false} NoneListed(cs: seq<ComponentState>, k: string)
    requires Unlisted(cs, k)
    ensures LastListed(cs, k) == None
  {
    if cs != [] {
      NoneListed(cs[..|cs| - 1], k);
    }
  }

  /**
   * An inventory of e takes out exactly those unlisted components whose environment is e and whose runtime is
   * "kubernetes", and leaves every other unlisted component as it was.
   */
  lemma InventoryOfUnlisted(idx: Index, e: string, cs: seq<ComponentState>, k: string)
    requires Unlisted(cs, k)
    ensures var after := Observe(idx, Inventory(e, cs));
      && (k in after <==> k in idx && !(idx[k].environmentId == e && idx[k].runtime == "kubernetes"))
      && (k in after ==> after[k] == idx[k])
  {
    NoneListed(cs, k);
    ObserveLookup(idx, Inventory(e, cs), k);
  }

  /** A listing leaves every unlisted component as it was. */
  lemma ListingOfUnlisted(idx: Index, cs: seq<ComponentState>, k: string)
    requires Unlisted(cs, k)
    ensures Lookup(Observe(idx, Listing(cs)), k) == Lookup(idx, k)
  {
    NoneListed(cs, k);
    ObserveLookup(idx, Listing(cs), k);
  }

  /** Whatever the observation, the last component listed under an id is there afterwards. */
  lemma ObservedListed(idx: Index, o: Observation, n: int, k: string)
    requires ListedLastAt(o.components, n, k)
    ensures k in Observe(idx, o) && Observe(idx, o)[k] == o.components[n]
  {
    LastListedAt(o.components, k, n);
    ObserveLookup(idx, o, k);
  }

  /** A component that runs elsewhere, or that no inventory of its environment comes in for, and that nobody lists. */
  predicate LeftAlone(c: ComponentState, os: seq<Observation>) {
    && (forall i :: 0 <= i < |os| ==> Unlisted(os[i].components, c.id))
    && (c.runtime != "kubernetes"
        || forall i :: 0 <= i < |os| && os[i].Inventory? ==> os[i].environmentId != c.environmentId)
  }

  lemma {:induction false} LeftAloneStays(idx: Index, os: seq<Observation>, k: string)
    requires k in idx && idx[k].id == k && LeftAlone(idx[k], os)
    ensures k in ObserveAll(idx, os) && ObserveAll(idx, os)[k] == idx[k]
  {
    if os != [] {
      var front, o := os[..|os| - 1], os[|os| - 1];
      LeftAloneStays(idx, front, k);
      match o {
        case Inventory(e, cs) => InventoryOfUnlisted(ObserveAll(idx, front), e, cs, k);
        case Listing(cs) => ListingOfUnlisted(ObserveAll(idx, front), cs, k);
      }
    }
  }

  /* ---------- the index after a whole history ---------- */

  /** Every key is the id of its component. */
  predicate Keyed(idx: Index) { forall k :: k in idx ==> k != "" && idx[k].id == k }

  lemma {:induction false} LastListedIsListed(cs: seq<ComponentState>, k: string)
    ensures LastListed(cs, k).Some? ==> LastListed(cs, k).value in cs && LastListed(cs, k).value.id == k != ""
  {
    if cs != [] {
      LastListedIsListed(cs[..|cs| - 1], k);
    }
  }

  lemma ObserveKeepsKeyed(idx: Index, o: Observation)
    requires Keyed(idx)
    ensures Keyed(Observe(idx, o))
  {
    forall k | k in Observe(idx, o) ensures k != "" && Observe(idx, o)[k].id == k {
      ObserveLookup(idx, o, k);
      LastListedIsListed(o.components, k);
    }
  }

  lemma {:induction false} ObserveAllKeepsKeyed(idx: Index, os: seq<Observation>)
    requires Keyed(idx)
    ensures Keyed(ObserveAll(idx, os))
  {
    if os != [] {
      ObserveAllKeepsKeyed(idx, os[..|os| - 1]);
      ObserveKeepsKeyed(ObserveAll(idx, os[..|os| - 1]), os[|os| - 1]);
    }
  }

  /** Observation i lists k, no later one lists k again, and no later inventory sweeps what i listed. */
  predicate Survives(os: seq<Observation>, i: int, k: string) {
    && 0 <= i < |os|
    && LastListed(os[i].components, k).Some?
    && forall j :: i < j < |os| ==>
         LastListed(os[j].components, k).None? && !Sweeps(os[j], LastListed(os[i].components, k).value)
  }

  /** The index holds, under each id, exactly the last listing that survives to the end of the history. */
  lemma {:induction false} IndexOfHistory(os: seq<Observation>, k: string)
    ensures k in ObserveAll(map[], os) <==> exists i :: Survives(os, i, k)
    ensures forall i :: Survives(os, i, k) ==>
      k in ObserveAll(map[], os) && ObserveAll(map[], os)[k] == LastListed(os[i].components, k).value
  {
    if os != [] {
      var n := |os| - 1;
      var front, o := os[..n], os[n];
      var before := ObserveAll(map[], front);
      IndexOfHistory(front, k);
      ObserveLookup(before, o, k);
      forall i ensures Survives(os, i, k) <==>
        if i == n then LastListed(o.components, k).Some?
        else
          && Survives(front, i, k) && LastListed(o.components, k).None?
          && !Sweeps(o, LastListed(front[i].components, k).value)
      {
        SurvivesNext(front, o, i, k);
        assert os == front + [o];
      }
      if LastListed(o.components, k).Some? {
        assert Survives(os, n, k);
      } else if k in before && !Sweeps(o, before[k]) {
        var i :| Survives(front, i, k);
        assert Survives(os, i, k);
      }
    }
  }

  lemma SurvivesNext(front: seq<Observation>, o: Observation, i: int, k: string)
    ensures var os := front + [o];
      Survives(os, i, k) <==>
        if i == |front| then LastListed(o.components, k).Some?
        else
          && Survives(front, i, k) && LastListed(o.components, k).None?
          && !Sweeps(o, LastListed(front[i].components, k).value)
  {
    var os := front + [o];
    assert os[|front|] == o;
    if 0 <= i < |front| {
      assert os[i] == front[i];
      assert forall j :: i < j < |front| ==> os[j] == front[j];
    }
  }

  /** A component of another runtime or another environment is never removed. */
  lemma OthersStay(idx: Index, o: Observation, k: string)
    requires k in idx && !Sweeps(o, idx[k])
    ensures k in Observe(idx, o)
  {
    ObserveLookup(idx, o, k);
  }

  /* ---------- repeating and reordering ---------- */

  lemma ObserveAllOne(idx: Index, o: Observation)
    ensures ObserveAll(idx, [o]) == Observe(idx, o)
    ensures ObserveAll(idx, []) == idx
  {
    assert [o][..0] == [];
  }

  /** Observation i is the last one that lists k. */
  predicate LastAt(os: seq<Observation>, i: int, k: string) {
    && 0 <= i < |os| && LastListed(os[i].components, k).Some?
    && forall j :: i < j < |os| ==> LastListed(os[j].components, k).None?
  }

  /** No observation after the last one that lists an id sweeps that listing. */
  ghost predicate NothingListedIsSwept(os: seq<Observation>) {
    forall i, j, k :: LastAt(os, i, k) && i < j < |os| ==> !Sweeps(os[j], LastListed(os[i].components, k).value)
  }

  lemma {:induction false} FindLast(os: seq<Observation>, k: string) returns (i: int)
    ensures i < 0 ==> forall j :: 0 <= j < |os| ==> LastListed(os[j].components, k).None?
    ensures i >= 0 ==> LastAt(os, i, k)
  {
    i := |os| - 1;
    if os != [] && LastListed(os[i].components, k).None? {
      var front := os[..i];
      i := FindLast(front, k);
      assert forall j :: 0 <= j < |front| ==> os[j] == front[j];
    }
  }

  /** Whatever was there before: a listed id is there afterwards exactly when its last listing survives. */
  lemma {:induction false} LookupOfListed(idx: Index, os: seq<Observation>, i: int, k: string)
    requires LastAt(os, i, k)
    ensures Lookup(ObserveAll(idx, os), k) == if Survives(os, i, k) then LastListed(os[i].components, k) else None
  {
    var n := |os| - 1;
    var front, o := os[..n], os[n];
    assert os == front + [o];
    ObserveLookup(ObserveAll(idx, front), o, k);
    SurvivesNext(front, o, i, k);
    if i < n {
      assert front[i] == os[i] && forall j :: 0 <= j < n ==> front[j] == os[j];
      LookupOfListed(idx, front, i, k);
    }
  }

  /** The same observations without their environments, as listings only. */
  function AsListings(os: seq<Observation>): (r: seq<Observation>)
    ensures |r| == |os| && forall i :: 0 <= i < |os| ==> r[i] == Listing(os[i].components)
  {
    if os == [] then [] else AsListings(os[..|os| - 1]) + [Listing(os[|os| - 1].components)]
  }

  lemma {:induction false} LookupOfUnlisted(idx: Index, os: seq<Observation>, k: string)
    requires forall j :: 0 <= j < |os| ==> os[j].Listing? && LastListed(os[j].components, k).None?
    ensures Lookup(ObserveAll(idx, os), k) == Lookup(idx, k)
  {
    if os != [] {
      LookupOfUnlisted(idx, os[..|os| - 1], k);
      ObserveLookup(ObserveAll(idx, os[..|os| - 1]), os[|os| - 1], k);
    }
  }

  lemma ListedAgain(idx: Index, os: seq<Observation>, i: int, k: string)
    requires LastAt(os, i, k)
    ensures Lookup(ObserveAll(idx, AsListings(os)), k) == LastListed(os[i].components, k)
  {
    var listings := AsListings(os);
    assert LastAt(listings, i, k) && Survives(listings, i, k);
    LookupOfListed(idx, listings, i, k);
  }

  /**
   * Listing again all that a history has listed changes nothing exactly when the history swept none of its
   * last listings.
   */
  lemma ListingsAgainIff(idx: Index, os: seq<Observation>)
    ensures var once := ObserveAll(idx, os);
      ObserveAll(once, AsListings(os)) == once <==> NothingListedIsSwept(os)
  {
    var once := ObserveAll(idx, os);
    var twice := ObserveAll(once, AsListings(os));
    forall i, k | LastAt(os, i, k)
      ensures Lookup(twice, k) == LastListed(os[i].components, k)
      ensures Lookup(once, k) == if Survives(os, i, k) then LastListed(os[i].components, k) else None
    {
      ListedAgain(once, os, i, k);
      LookupOfListed(idx, os, i, k);
    }
    if NothingListedIsSwept(os) {
      forall k ensures Lookup(twice, k) == Lookup(once, k) {
        var i := FindLast(os, k);
        if i < 0 {
          LookupOfUnlisted(once, AsListings(os), k);
        } else {
          assert Survives(os, i, k);
        }
      }
      SameLookups(twice, once);
    }
  }

  lemma ListOne(idx: Index, x: ComponentState)
    requires x.id != ""
    ensures Observe(idx, Listing([x])) == idx[x.id := x]
  {
    assert [x][..0] == [];
    assert Upsert(idx, [x][..0]) == idx;
  }

  lemma OneStepObservations(decode: Decoder, claimed: Option<Job>, step: StepResult)
    ensures Observations(decode, claimed, [step]) == StepObservation(decode, claimed, step)
  {
    assert [step][..0] == [];
  }

  lemma TwoStepObservations(decode: Decoder, claimed: Option<Job>, a: StepResult, b: StepResult)
    ensures Observations(decode, claimed, [a, b]) ==
      StepObservation(decode, claimed, a) + StepObservation(decode, claimed, b)
  {
    assert [a, b][..1] == [a];
    OneStepObservations(decode, claimed, a);
  }

  predicate Reports(decode: Decoder, steps: seq<StepResult>, i: int) {
    0 <= i < |steps| && Reported(decode, steps[i]).Some?
  }

  lemma {:induction false} QuietSteps(decode: Decoder, claimed: Option<Job>, steps: seq<StepResult>)
    requires forall i :: !Reports(decode, steps, i)
    ensures Observations(decode, claimed, steps) == []
  {
    if steps != [] {
      var front := steps[..|steps| - 1];
      assert !Reports(decode, steps, |steps| - 1);
      forall i ensures !Reports(decode, front, i) {
        assert !Reports(decode, steps, i);
      }
      QuietSteps(decode, claimed, front);
    }
  }

  lemma ReportsOfFront(decode: Decoder, steps: seq<StepResult>, i: int)
    requires steps != []
    ensures Reports(decode, steps[..|steps| - 1], i) <==> Reports(decode, steps, i) && i < |steps| - 1
  {
  }

  lemma {:induction false} OneReport(decode: Decoder, claimed: Option<Job>, steps: seq<StepResult>, i: nat)
    requires Reports(decode, steps, i) && forall j :: Reports(decode, steps, j) ==> j == i
    ensures Observations(decode, claimed, steps) == StepObservation(decode, claimed, steps[i])
  {
    var n := |steps| - 1;
    forall j ensures Reports(decode, steps[..n], j) <==> j == i && i < n {
      ReportsOfFront(decode, steps, j);
    }
    if i == n {
      QuietSteps(decode, claimed, steps[..n]);
    } else {
      assert !Reports(decode, steps, n);
      OneReport(decode, claimed, steps[..n], i);
    }
  }

  /** The claimed job names its environment, as every well-formed job does. */
  predicate Named(claimed: Option<Job>) { claimed.Some? ==> claimed.value.plan.environment.id != "" }

  lemma WellFormedIsNamed(job: Job)
    requires WellFormedJob(job)
    ensures Named(Some(job)) && Named(Some(job.Clone()))
  {
  }

  /** The second time the job is no longer claimed, and every step that reports components just lists them. */
  lemma UnclaimedStep(decode: Decoder, claimed: Option<Job>, step: StepResult)
    requires Named(claimed)
    ensures StepObservation(decode, None, step) == AsListings(StepObservation(decode, claimed, step))
  {
    var now := StepObservation(decode, claimed, step);
    assert now != [] ==> now[..0] == [];
  }

  lemma AsListingsOfBoth(a: seq<Observation>, b: seq<Observation>)
    ensures AsListings(a + b) == AsListings(a) + AsListings(b)
  {
  }

  lemma {:induction false} UnclaimedObservations(decode: Decoder, claimed: Option<Job>, steps: seq<StepResult>)
    requires Named(claimed)
    ensures Observations(decode, None, steps) == AsListings(Observations(decode, claimed, steps))
  {
    if steps != [] {
      var front, step := steps[..|steps| - 1], steps[|steps| - 1];
      UnclaimedObservations(decode, claimed, front);
      UnclaimedStep(decode, claimed, step);
      AsListingsOfBoth(Observations(decode, claimed, front), StepObservation(decode, claimed, step));
    }
  }

  /**
   * Delivering the same result twice leaves the index as it was after the first delivery if and only if
   * the first delivery sweeps none of the last listings it makes itself.
   */
  lemma SecondDeliveryIff(decode: Decoder, claimed: Option<Job>, steps: seq<StepResult>, idx: Index)
    requires Named(claimed)
    ensures var once := ObserveAll(idx, Observations(decode, claimed, steps));
      ObserveAll(once, Observations(decode, None, steps)) == once
      <==> NothingListedIsSwept(Observations(decode, claimed, steps))
  {
    UnclaimedObservations(decode, claimed, steps);
    ListingsAgainIff(idx, Observations(decode, claimed, steps));
  }

  /** In particular when at most one step reports components. */
  lemma SecondDelivery(decode: Decoder, claimed: Option<Job>, steps: seq<StepResult>, idx: Index)
    requires forall i, j :: Reports(decode, steps, i) && Reports(decode, steps, j) ==> i == j
    requires Named(claimed)
    ensures var once := ObserveAll(idx, Observations(decode, claimed, steps));
      ObserveAll(once, Observations(decode, None, steps)) == once
  {
    if i :| Reports(decode, steps, i) {
      OneReport(decode, claimed, steps, i);
    } else {
      QuietSteps(decode, claimed, steps);
    }
    assert NothingListedIsSwept(Observations(decode, claimed, steps));
    SecondDeliveryIff(decode, claimed, steps, idx);
  }

  /** Every listed component carries the environment of the inventory. */
  predicate OwnEnvironment(o: Observation) {
    o.Inventory? && forall c :: c in o.components ==> c.environmentId == o.environmentId
  }

  /** Inventories of two environments commute when they share no id and list only their own components. */
  lemma InventoriesCommute(idx: Index, a: Observation, b: Observation)
    requires OwnEnvironment(a) && OwnEnvironment(b) && a.environmentId != b.environmentId
    requires forall x, y :: x in a.components && y in b.components ==> x.id != y.id
    ensures Observe(Observe(idx, a), b) == Observe(Observe(idx, b), a)
  {
    var ab, ba := Observe(Observe(idx, a), b), Observe(Observe(idx, b), a);
    forall k ensures Lookup(ab, k) == Lookup(ba, k) {
      ObserveLookup(idx, a, k);
      ObserveLookup(Observe(idx, a), b, k);
      ObserveLookup(idx, b, k);
      ObserveLookup(Observe(idx, b), a, k);
      LastListedIsListed(a.components, k);
      LastListedIsListed(b.components, k);
    }
    SameLookups(ab, ba);
  }
}
