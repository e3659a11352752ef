/**
 * The in-memory evidence recorder with its maps and slices as heap objects that callers can hold and change.
 * Slices are modelled as whole arrays, which may be nil, as may maps.
 */
module Evidence {
  import opened Prelude
  import opened Deploy

  class GoMap {
    var entries: map<string, string>

    constructor (entries: map<string, string>)
      ensures this.entries == entries
    {
      this.entries := entries;
    }
  }

  /** A struct with plain fields and one map: an artifact, a step result or a check result. */
  datatype Entry<H> = Entry(head: H, attrs: GoMap?)

  datatype ArtifactHead = ArtifactHead(
    id: string, kind: string, ref: string, digest: string, sbomRef: string, provenanceRef: string)

  /** The plain fields of a step result or a check result. */
  datatype ResultHead = ResultHead(id: string, status: Status, message: string, startedAt: Time, finishedAt: Time)

  datatype BundleHead = BundleHead(
    id: string, jobId: string, planId: string, applicationId: string, environmentId: string,
    status: Status, startedAt: Time, finishedAt: Time)

  datatype HeapBundle = HeapBundle(
    head: BundleHead,
    artifacts: array?<Entry<ArtifactHead>>, steps: array?<Entry<ResultHead>>, checks: array?<Entry<ResultHead>>,
    labels: GoMap?, metadata: GoMap?, errors: array?<string>)

  /* ---------- what a bundle says at one moment ---------- */

  datatype EntryValue<H> = EntryValue(head: H, attrs: Option<map<string, string>>)

  datatype BundleValue = BundleValue(
    head: BundleHead,
    artifacts: Option<seq<EntryValue<ArtifactHead>>>, steps: Option<seq<EntryValue<ResultHead>>>,
    checks: Option<seq<EntryValue<ResultHead>>>,
    labels: Option<map<string, string>>, metadata: Option<map<string, string>>, errors: Option<seq<string>>)

  predicate OwnsMap(m: GoMap?, objs: set<object>) { m != null ==> m in objs }

  predicate OwnsEntries<H>(a: array?<Entry<H>>, objs: set<object>)
    reads objs
  {
    a != null ==> a in objs && forall i :: 0 <= i < a.Length ==> OwnsMap(a[i].attrs, objs)
  }

  predicate OwnsErrors(a: array?<string>, objs: set<object>) { a != null ==> a in objs }

  /** Everything reachable from the bundle is among these objects. */
  predicate Owns(b: HeapBundle, objs: set<object>)
    reads objs
  {
    && OwnsEntries(b.artifacts, objs) && OwnsEntries(b.steps, objs) && OwnsEntries(b.checks, objs)
    && OwnsMap(b.labels, objs) && OwnsMap(b.metadata, objs) && OwnsErrors(b.errors, objs)
  }

  ghost function MapValue(m: GoMap?, objs: set<object>): Option<map<string, string>>
    requires OwnsMap(m, objs)
    reads objs
  {
    if m == null then None else Some(m.entries)
  }

  ghost function EntriesValue<H>(a: array?<Entry<H>>, objs: set<object>): Option<seq<EntryValue<H>>>
    requires OwnsEntries(a, objs)
    reads objs
  {
    if a == null then None
    else Some(seq(a.Length, i requires 0 <= i < a.Length && OwnsEntries(a, objs) reads objs =>
                EntryValue(a[i].head, MapValue(a[i].attrs, objs))))
  }

  ghost function ErrorsValue(a: array?<string>, objs: set<object>): Option<seq<string>>
    requires OwnsErrors(a, objs)
    reads objs
  {
    if a == null then None else Some(a[..])
  }

  ghost function Value(b: HeapBundle, objs: set<object>): BundleValue
    requires Owns(b, objs)
    reads objs
  {
    BundleValue(b.head, EntriesValue(b.artifacts, objs), EntriesValue(b.steps, objs), EntriesValue(b.checks, objs),
      MapValue(b.labels, objs), MapValue(b.metadata, objs), ErrorsValue(b.errors, objs))
  }

  ghost function Values(bs: seq<HeapBundle>, objs: set<object>): (r: seq<BundleValue>)
    requires forall i :: 0 <= i < |bs| ==> Owns(bs[i], objs)
    reads objs
    ensures |r| == |bs| && forall i :: 0 <= i < |bs| ==> r[i] == Value(bs[i], objs)
  {
    if bs == [] then [] else Values(bs[..|bs| - 1], objs) + [Value(bs[|bs| - 1], objs)]
  }

  /** The set of owned objects may be enlarged without changing what is said. */
  lemma MoreObjects(b: HeapBundle, objs: set<object>, more: set<object>)
    requires Owns(b, objs) && objs <= more
    ensures Owns(b, more) && Value(b, more) == Value(b, objs)
  {
    MoreObjectsEntries(b.artifacts, objs, more);
    MoreObjectsEntries(b.steps, objs, more);
    MoreObjectsEntries(b.checks, objs, more);
  }

  lemma MoreObjectsAll(bs: seq<HeapBundle>, objs: set<object>, more: set<object>)
    requires objs <= more && forall i :: 0 <= i < |bs| ==> Owns(bs[i], objs)
    ensures forall i :: 0 <= i < |bs| ==> Owns(bs[i], more) && Value(bs[i], more) == Value(bs[i], objs)
  {
    forall i | 0 <= i < |bs| ensures Owns(bs[i], more) && Value(bs[i], more) == Value(bs[i], objs) {
      MoreObjects(bs[i], objs, more);
    }
  }

  lemma MoreObjectsEntries<H>(a: array?<Entry<H>>, objs: set<object>, more: set<object>)
    requires OwnsEntries(a, objs) && objs <= more
    ensures OwnsEntries(a, more) && EntriesValue(a, more) == EntriesValue(a, objs)
  {
    if a != null {
      assert EntriesValue(a, more).value == EntriesValue(a, objs).value;
    }
  }

  /* ---------- cloning ---------- */

  method CloneMap(m: GoMap?, ghost objs: set<object>) returns (r: GoMap?, fresh': set<object>)
    requires OwnsMap(m, objs)
    ensures fresh(fresh') && OwnsMap(r, fresh') && MapValue(r, fresh') == old(MapValue(m, objs))
  {
    if m == null {
      r, fresh' := null, {};
    } else {
      r := new GoMap(m.entries);
      fresh' := {r};
    }
  }

  /** cloneSliceFunc: a new slice of the same length, each element a copy with a map of its own. */
  method CloneEntries<H>(a: array?<Entry<H>>, ghost objs: set<object>)
    returns (r: array?<Entry<H>>, fresh': set<object>)
    requires OwnsEntries(a, objs)
    ensures fresh(fresh') && OwnsEntries(r, fresh') && EntriesValue(r, fresh') == old(EntriesValue(a, objs))
  {
    if a == null {
      return null, {};
    }
    var out := new Entry<H>[a.Length](i requires 0 <= i < a.Length reads a => a[i]);
    fresh' := {out};
    for i := 0 to a.Length
      invariant fresh(fresh') && out in fresh'
      invariant forall k :: 0 <= k < i ==>
        && out[k].head == a[k].head && OwnsMap(out[k].attrs, fresh')
        && MapValue(out[k].attrs, fresh') == MapValue(a[k].attrs, objs)
    {
      var attrs, made := CloneMap(a[i].attrs, objs);
      out[i] := Entry(a[i].head, attrs);
      fresh' := fresh' + made;
    }
    r := out;
    assert EntriesValue(r, fresh').value == EntriesValue(a, objs).value;
  }

  method CloneErrors(a: array?<string>, ghost objs: set<object>) returns (r: array?<string>, fresh': set<object>)
    requires OwnsErrors(a, objs)
    ensures fresh(fresh') && OwnsErrors(r, fresh') && ErrorsValue(r, fresh') == old(ErrorsValue(a, objs))
  {
    if a == null {
      return null, {};
    }
    r := new string[a.Length](i requires 0 <= i < a.Length reads a => a[i]);
    fresh' := {r};
    assert r[..] == a[..];
  }

  /** Bundle.Clone: says the same and shares nothing. */
  method CloneBundle(b: HeapBundle, ghost objs: set<object>) returns (r: HeapBundle, fresh': set<object>)
    requires Owns(b, objs)
    ensures fresh(fresh') && Owns(r, fresh') && Value(r, fresh') == old(Value(b, objs))
  {
    var artifacts, steps, checks, f0 := CloneLists(b, objs);
    var labels, f1 := CloneMap(b.labels, objs);
    var metadata, f2 := CloneMap(b.metadata, objs);
    var errors, f3 := CloneErrors(b.errors, objs);
    r := HeapBundle(b.head, artifacts, steps, checks, labels, metadata, errors);
    fresh' := f0 + f1 + f2 + f3;
    MoreObjectsEntries(artifacts, f0, fresh');
    MoreObjectsEntries(steps, f0, fresh');
    MoreObjectsEntries(checks, f0, fresh');
  }

  /** The three lists of structs in it. */
  method CloneLists(b: HeapBundle, ghost objs: set<object>)
    returns (artifacts: array?<Entry<ArtifactHead>>, steps: array?<Entry<ResultHead>>,
      checks: array?<Entry<ResultHead>>, fresh': set<object>)
    requires Owns(b, objs)
    ensures fresh(fresh')
    ensures OwnsEntries(artifacts, fresh') && EntriesValue(artifacts, fresh') == old(EntriesValue(b.artifacts, objs))
    ensures OwnsEntries(steps, fresh') && EntriesValue(steps, fresh') == old(EntriesValue(b.steps, objs))
    ensures OwnsEntries(checks, fresh') && EntriesValue(checks, fresh') == old(EntriesValue(b.checks, objs))
  {
    var f0, f1, f2;
    artifacts, f0 := CloneEntries(b.artifacts, objs);
    steps, f1 := CloneEntries(b.steps, objs);
    checks, f2 := CloneEntries(b.checks, objs);
    fresh' := f0 + f1 + f2;
    MoreObjectsEntries(artifacts, f0, fresh');
    MoreObjectsEntries(steps, f1, fresh');
    MoreObjectsEntries(checks, f2, fresh');
  }

  /* ---------- the recorder ---------- */

  datatype RecordError = ContextDone(reason: string) | BundleIdRequired

  class MemoryRecorder {
    var bundles: seq<HeapBundle>
    ghost var owned: set<object>

    ghost predicate Valid()
      reads this, owned
    {
      this !in owned && forall i :: 0 <= i < |bundles| ==> Owns(bundles[i], owned)
    }

    /** What the recorder would report now. */
    ghost function Contents(): seq<BundleValue>
      requires Valid()
      reads this, owned
    {
      seq(|bundles|, i requires 0 <= i < |bundles| && Valid() reads this, owned => Value(bundles[i], owned))
    }

    constructor ()
      ensures Valid() && Contents() == [] && owned == {}
    {
      bundles, owned := [], {};
    }

    method Record(ctx: Option<string>, bundle: HeapBundle, ghost objs: set<object>) returns (err: Option<RecordError>)
      requires Valid() && Owns(bundle, objs)
      modifies this
      ensures Valid() && fresh(owned - old(owned)) && old(owned) <= owned
      ensures ctx.Some? ==> err == Some(ContextDone(ctx.value))
      ensures ctx.None? && bundle.head.id == "" ==> err == Some(BundleIdRequired)
      ensures err.None? <==> ctx.None? && bundle.head.id != ""
      ensures Contents() == old(Contents()) + if err.None? then [old(Value(bundle, objs))] else []
    {
      if ctx.Some? {
        return Some(ContextDone(ctx.value));
      }
      if bundle.head.id == "" {
        return Some(BundleIdRequired);
      }
      var copy, made := CloneBundle(bundle, objs);
      ghost var before := owned;
      forall i | 0 <= i < |bundles|
        ensures Owns(bundles[i], before + made) && Value(bundles[i], before + made) == old(Value(bundles[i], owned))
      {
        MoreObjects(bundles[i], before, before + made);
      }
      MoreObjects(copy, made, before + made);
      bundles := bundles + [copy];
      owned := owned + made;
      return None;
    }

    /** Copies of all bundles, made of objects the recorder does not keep. */
    method Bundles() returns (out: seq<HeapBundle>, made: set<object>)
      requires Valid()
      ensures fresh(made)
      ensures |out| == |Contents()|
      ensures forall i :: 0 <= i < |out| ==> Owns(out[i], made) && Value(out[i], made) == Contents()[i]
    {
      out, made := [], {};
      for i := 0 to |bundles|
        invariant fresh(made) && |out| == i
        invariant forall k :: 0 <= k < i ==> Owns(out[k], made) && Value(out[k], made) == Contents()[k]
      {
        var copy, more := CloneBundle(bundles[i], owned);
        MoreObjectsAll(out, made, made + more);
        MoreObjects(copy, more, made + more);
        out, made := out + [copy], made + more;
      }
    }
  }

  /* ---------- callers cannot reach what is stored ---------- */

  /** Anything a caller can do: make objects, write to objects it holds, record, and read back. */
  datatype Change =
    | ReadBundles
    | RecordBundle(ctx: Option<string>, bundle: HeapBundle)
    | MakeMap(entries: map<string, string>)
    | MakeArtifacts(artifacts: seq<Entry<ArtifactHead>>)
    | MakeResults(results: seq<Entry<ResultHead>>)
    | MakeErrors(errors: seq<string>)
    | SetMap(m: GoMap, entries: map<string, string>)   // any write to the map, deletions included
    | SetArtifact(artifactArray: array<Entry<ArtifactHead>>, i: nat, artifact: Entry<ArtifactHead>)
    | SetResult(resultArray: array<Entry<ResultHead>>, i: nat, result: Entry<ResultHead>)
    | SetError(errorArray: array<string>, i: nat, text: string)

  /** The change is to objects held, and puts only maps held into them. */
  predicate Within(c: Change, held: set<object>)
    reads held
  {
    match c
    case RecordBundle(_, bundle) => Owns(bundle, held)
    case MakeArtifacts(artifacts) => forall k :: 0 <= k < |artifacts| ==> OwnsMap(artifacts[k].attrs, held)
    case MakeResults(results) => forall k :: 0 <= k < |results| ==> OwnsMap(results[k].attrs, held)
    case SetMap(m, _) => m in held
    case SetArtifact(a, i, e) => a in held && i < a.Length && OwnsMap(e.attrs, held)
    case SetResult(a, i, e) => a in held && i < a.Length && OwnsMap(e.attrs, held)
    case SetError(a, i, _) => a in held && i < a.Length
    case _ => true
  }

  predicate IsWrite(c: Change) { c.SetMap? || c.SetArtifact? || c.SetResult? || c.SetError? }

  /**
   * A recorder together with everything its callers can get hold of: the objects they made themselves, passed to
   * Record, or received from Bundles. The log is what was recorded, as it stood when it was recorded.
   */
  class Session {
    const recorder: MemoryRecorder
    var held: set<object>
    ghost var log: seq<BundleValue>

    ghost predicate Valid()
      reads this, recorder, recorder.owned
    {
      && recorder.Valid() && recorder.Contents() == log
      && held !! recorder.owned && this !in held && recorder !in held && this !in recorder.owned
    }

    constructor ()
      ensures Valid() && log == [] && held == {} && fresh(recorder)
    {
      recorder := new MemoryRecorder();
      held, log := {}, [];
    }

    /** Whatever happens to the objects that callers hold, if nothing else changes, the recorder still holds the log. */
    twostate lemma CallersCannotReach()
      requires old(Valid()) && forall o: object :: old(allocated(o)) && o !in old(held) ==> unchanged(o)
      ensures Valid() && log == old(log) && recorder.Contents() == old(recorder.Contents())
    {
    }

    method Write(c: Change)
      requires Valid() && Within(c, held) && IsWrite(c)
      modifies held
      ensures Valid()
    {
      match c {
        case SetMap(m, entries) => m.entries := entries;
        case SetArtifact(a, i, e) => a[i] := e;
        case SetResult(a, i, e) => a[i] := e;
        case SetError(a, i, text) => a[i] := text;
      }
      CallersCannotReach();
    }

    method Make(c: Change)
      requires Valid() && Within(c, held) && !IsWrite(c)
      modifies this`held
      ensures Valid() && old(held) <= held && fresh(held - old(held))
    {
      match c {
        case MakeMap(entries) =>
          var m := new GoMap(entries);
          held := held + {m};
        case MakeArtifacts(artifacts) =>
          var a := new Entry<ArtifactHead>[|artifacts|](i requires 0 <= i < |artifacts| => artifacts[i]);
          held := held + {a};
        case MakeResults(results) =>
          var a := new Entry<ResultHead>[|results|](i requires 0 <= i < |results| => results[i]);
          held := held + {a};
        case MakeErrors(errors) =>
          var a := new string[|errors|](i requires 0 <= i < |errors| => errors[i]);
          held := held + {a};
        case _ =>
      }
    }

    /** The bundle is recorded as it stands now; the callers keep all its objects. */
    method Record(ctx: Option<string>, bundle: HeapBundle) returns (err: Option<RecordError>)
      requires Valid() && Owns(bundle, held)
      modifies this`log, recorder
      ensures Valid()
      ensures err.None? <==> ctx.None? && bundle.head.id != ""
      ensures log == old(log) + if err.None? then [old(Value(bundle, held))] else []
    {
      err := recorder.Record(ctx, bundle, held);
      log := recorder.Contents();
    }

    /** What is read back is the log, in objects that the callers may change at will from now on. */
    method Read() returns (out: seq<HeapBundle>)
      requires Valid()
      modifies this`held
      ensures Valid() && old(held) <= held && fresh(held - old(held))
      ensures |out| == |log| && forall i :: 0 <= i < |out| ==> Owns(out[i], held) && Value(out[i], held) == log[i]
    {
      var made: set<object>;
      out, made := recorder.Bundles();
      MoreObjectsAll(out, made, held + made);
      held := held + made;
    }

    /** One change; what is read comes out as the values it has at that moment. */
    method Perform(c: Change) returns (ghost reading: Option<seq<BundleValue>>)
      requires Valid() && Within(c, held)
      modifies this, recorder, held
      ensures Valid() && old(held) <= held && fresh(held - old(held)) && old(log) <= log
      ensures reading == if c.ReadBundles? then Some(old(log)) else None
      ensures log == old(log) + match c
        case RecordBundle(ctx, bundle) => if ctx.None? && bundle.head.id != "" then [old(Value(bundle, held))] else []
        case _ => []
    {
      reading := None;
      if c.RecordBundle? {
        var err := Record(c.ctx, c.bundle);
      } else if c.ReadBundles? {
        var out := Read();
        reading := Some(Values(out, held));
        assert reading.value == log;
      } else if IsWrite(c) {
        Write(c);
      } else {
        Make(c);
      }
    }

    /**
     * Any number of changes, each freely chosen among those within what is held by then. However the callers write to
     * what they passed in or got back, every reading is the log as it stood then, and no entry of the log ever changes.
     */
    method Interact(steps: nat) returns (ghost readings: seq<seq<BundleValue>>)
      requires Valid()
      modifies this, recorder, held
      ensures Valid() && old(log) <= log
      ensures forall k :: 0 <= k < |readings| ==> old(log) <= readings[k] <= log
      ensures forall j, k :: 0 <= j < k < |readings| ==> readings[j] <= readings[k]
    {
      readings := [];
      for n := 0 to steps
        invariant Valid() && old(held) <= held && fresh(held - old(held)) && old(log) <= log
        invariant forall k :: 0 <= k < |readings| ==> old(log) <= readings[k] <= log
        invariant forall j, k :: 0 <= j < k < |readings| ==> readings[j] <= readings[k]
      {
        var c: Change := *;
        if Within(c, held) {
          ghost var reading := Perform(c);
          readings := readings + if reading.Some? then [reading.value] else [];
        }
      }
    }
  }
}
