/** slug, which makes part of a job id out of a component id. */
module Slugs {
  import opened Text
  import opened Collections

  predicate IsSlugChar(c: char) { 'a' <= c <= 'z' || IsDigit(c) || c == '-' }

  function SlugChar(c: char): char {
    if 'A' <= c <= 'Z' then c - 'A' + 'a'
    else if IsSlugChar(c) then c
    else '-'
  }

  function TrimDashesLeft(s: string): string { if s != "" && s[0] == '-' then TrimDashesLeft(s[1..]) else s }

  function TrimDashesRight(s: string): string {
    if s != "" && s[|s| - 1] == '-' then TrimDashesRight(s[..|s| - 1]) else s
  }

  const FALLBACK := "component"

  function Slug(value: string): string {
    var out := TrimDashesRight(TrimDashesLeft(Map(SlugChar, value)));
    if out == "" then FALLBACK else out
  }

  method MakeSlug(value: string) returns (r: string)
    ensures r == Slug(value)
  {
    var b := "";
    for i := 0 to |value|
      invariant b == Map(SlugChar, value[..i])
    {
      var c := value[i];
      if 'a' <= c <= 'z' {
        b := b + [c];
      } else if 'A' <= c <= 'Z' {
        b := b + [c - 'A' + 'a'];
      } else if '0' <= c <= '9' {
        b := b + [c];
      } else {
        b := b + ['-'];
      }
    }
    assert value[..|value|] == value;
    r := TrimDashesRight(TrimDashesLeft(b));
    if r == "" {
      r := FALLBACK;
    }
  }

  /** What every slug looks like. */
  predicate IsSlug(s: string) {
    && s != "" && s[0] != '-' && s[|s| - 1] != '-'
    && forall i :: 0 <= i < |s| ==> 'a' <= s[i] <= 'z' || '0' <= s[i] <= '9' || s[i] == '-'
  }

  lemma {:induction false} TrimDashesLeftKeeps(s: string)
    ensures |TrimDashesLeft(s)| <= |s| && s[|s| - |TrimDashesLeft(s)|..] == TrimDashesLeft(s)
    ensures TrimDashesLeft(s) != "" ==> TrimDashesLeft(s)[0] != '-'
    ensures s != "" && s[0] != '-' ==> TrimDashesLeft(s) == s
  {
    if s != "" && s[0] == '-' {
      TrimDashesLeftKeeps(s[1..]);
    }
  }

  lemma {:induction false} TrimDashesRightKeeps(s: string)
    ensures TrimDashesRight(s) <= s
    ensures TrimDashesRight(s) != "" ==> TrimDashesRight(s)[|TrimDashesRight(s)| - 1] != '-'
    ensures s != "" && s[|s| - 1] != '-' ==> TrimDashesRight(s) == s
  {
    if s != "" && s[|s| - 1] == '-' {
      TrimDashesRightKeeps(s[..|s| - 1]);
    }
  }

  lemma FallbackIsSlug()
    ensures IsSlug(FALLBACK)
  {
  }

  /** Only lower-case letters, digits and inner dashes are left, and never nothing. */
  lemma SlugIsSlug(value: string)
    ensures IsSlug(Slug(value))
  {
    var m := Map(SlugChar, value);
    FallbackIsSlug();
    TrimmedIsSlug(m);
  }

  lemma TrimmedIsSlug(m: string)
    requires forall i :: 0 <= i < |m| ==> IsSlugChar(m[i])
    ensures var out := TrimDashesRight(TrimDashesLeft(m)); out == "" || IsSlug(out)
  {
    TrimDashesLeftKeeps(m);
    TrimDashesRightKeeps(TrimDashesLeft(m));
  }

  /** A slug is its own slug, and nothing else is. */
  lemma SlugFixedPoints(s: string)
    ensures Slug(s) == s <==> IsSlug(s)
  {
    if IsSlug(s) {
      assert Map(SlugChar, s) == s;
      TrimDashesLeftKeeps(s);
      TrimDashesRightKeeps(s);
    } else {
      SlugIsSlug(s);
    }
  }

  /* ---------- the laws that determine every slug ---------- */

  /** Capital letters are read as small ones. */
  lemma CapitalsReadAsSmall(a: string, c: char, b: string)
    requires 'A' <= c <= 'Z'
    ensures Slug(a + [c] + b) == Slug(a + [c - 'A' + 'a'] + b)
  {
    SeparatorsDoNotShow(a, b, c, c - 'A' + 'a');
  }

  /** Anything that is neither a letter nor a digit is read as a dash. */
  lemma OthersReadAsDash(a: string, c: char, b: string)
    requires !('a' <= c <= 'z') && !('A' <= c <= 'Z') && !('0' <= c <= '9')
    ensures Slug(a + [c] + b) == Slug(a + "-" + b)
  {
    SeparatorsDoNotShow(a, b, c, '-');
  }

  /** Dashes at either end do not count, and nothing at all reads as "component". */
  lemma OuterDashesDoNotCount(s: string)
    ensures Slug("-" + s) == Slug(s) == Slug(s + "-")
    ensures Slug("") == "component"
  {
    var m := Map(SlugChar, s);
    assert Map(SlugChar, "-" + s) == "-" + m && Map(SlugChar, s + "-") == m + "-";
    assert ("-" + m)[1..] == m;
    TrimDashesBehind(m);
    assert Map(SlugChar, "") == "";
  }

  lemma {:induction false} TrimDashesBehind(m: string)
    ensures TrimDashesRight(TrimDashesLeft(m + "-")) == TrimDashesRight(TrimDashesLeft(m))
  {
    if m == "" {
      assert "" + "-" == "-" && "-"[1..] == "";
    } else if m[0] == '-' {
      assert (m + "-")[1..] == m[1..] + "-";
      TrimDashesBehind(m[1..]);
    } else {
      assert (m + "-")[..|m|] == m;
    }
  }

  /** Component ids that differ in what separates their parts have the same slug. */
  lemma SeparatorsDoNotShow(a: string, b: string, c: char, d: char)
    requires SlugChar(c) == SlugChar(d)
    ensures Slug(a + [c] + b) == Slug(a + [d] + b)
  {
    assert Map(SlugChar, a + [c] + b) == Map(SlugChar, a + [d] + b);
  }
}

/** What the inventory executor reports about a cluster, and what the set-image executor does to it. */
module Inventory {
  import opened Prelude
  import opened Text
  import opened Collections
  import opened Deploy
  import opened ComponentIndex
  import opened Images
  import opened Tags

  datatype Container = Container(name: string, image: string)

  datatype Deployment = Deployment(
    namespace: string, name: string, replicas: Option<int>, readyReplicas: int, containers: seq<Container>)

  /** The answers of the image registries: tag lists and manifest digests, or an error. */
  datatype Registries = Registries(
    tags: (string, string) -> Result<seq<string>, string>,
    digest: (string, string, string) -> Result<string, string>)

  /** One container and the deployment it stands in; a cluster is the list of these. */
  datatype Placement = Placement(deployment: Deployment, container: Container)

  type Cluster = seq<Placement>

  function LatestOf(r: Registries, ref: ImageReference): Result<string, string> {
    if ref.registry == "" || ref.repository == "" then Err("image reference does not include a registry repository")
    else
      match r.tags(ref.registry, ref.repository)
      case Err(e) => Err(e)
      case Ok(tags) => Latest(tags, ref.tag)
  }

  function DigestOf(r: Registries, ref: ImageReference, tag: string): Result<string, string> {
    if ref.registry == "" || ref.repository == "" || tag == "" then
      Err("image reference, repository, and tag are required")
    else r.digest(ref.registry, ref.repository, tag)
  }

  /** What the registries say about an image: the newest tag, its digest, and whether that is an update. */
  datatype Newest = Newest(version: string, image: string, digest: string, isUpdate: bool, note: Option<Note>)

  /** A label that says why something could not be found out. */
  datatype Note = Note(key: string, text: string)

  function NewestOf(r: Registries, ref: ImageReference): Newest {
    match LatestOf(r, ref)
    case Err(e) => Newest("", "", "", false, Some(Note("latestResolution", e)))
    case Ok(version) =>
      if version == "" then Newest("", "", "", false, None)
      else
        var digest := DigestOf(r, ref, version);
        var d := if digest.Ok? then digest.value else "";
        Newest(version, ref.WithTag(version), d, d != "" && ref.tag != "" && ref.tag != version,
          if digest.Err? then Some(Note("latestDigestResolution", digest.error)) else None)
  }

  function Labels(ref: ImageReference, note: Option<Note>): Dict {
    var base := map["imageRepository" := ref.repository];
    DictOf(if note.Some? then base[note.value.key := note.value.text] else base)
  }

  function ComponentId(namespace: string, workload: string, container: string): string {
    namespace + "/" + workload + "/" + container
  }

  function ComponentOf(d: Deployment, c: Container, environmentId: string, now: Time, newest: Newest): ComponentState {
    var ref := ParseImage(c.image);
    var desired := if d.replicas.Some? then d.replicas.value else 1;
    ComponentState(
      ComponentId(d.namespace, d.name, c.name), d.name, environmentId, d.namespace, "Deployment", d.name,
      c.name, KUBERNETES,
      c.image, ref.Version(), ref.digest, newest.image, newest.version, newest.digest, d.readyReplicas, desired,
      if desired > 0 && d.readyReplicas >= desired then Succeeded else Running,
      newest.isUpdate, now, Labels(ref, newest.note))
  }

  /** The component state reported for one container. */
  function Observed(r: Registries, environmentId: string, now: Time, p: Placement): ComponentState {
    ComponentOf(p.deployment, p.container, environmentId, now, NewestOf(r, ParseImage(p.container.image)))
  }

  function Observer(r: Registries, environmentId: string, now: Time): Placement -> ComponentState {
    p => Observed(r, environmentId, now, p)
  }

  /** deploymentItem.components: the containers of one deployment. */
  method Components(d: Deployment, r: Registries, environmentId: string, now: Time) returns (out: seq<ComponentState>)
    ensures |out| == |d.containers|
    ensures forall i :: 0 <= i < |out| ==> out[i] == Observed(r, environmentId, now, Placement(d, d.containers[i]))
  {
    out := [];
    for i := 0 to |d.containers|
      invariant |out| == i
      invariant forall k :: 0 <= k < i ==> out[k] == Observed(r, environmentId, now, Placement(d, d.containers[k]))
    {
      var component := ObserveContainer(d, d.containers[i], r, environmentId, now);
      out := out + [component];
    }
  }

  /** The body of that loop, where the variables start blank and are filled in as the registry answers. */
  method ObserveContainer(d: Deployment, container: Container, r: Registries, environmentId: string, now: Time)
    returns (c: ComponentState)
    ensures c == Observed(r, environmentId, now, Placement(d, container))
  {
    var ref := ParseImage(container.image);
    var latest := LatestOf(r, ref);
    var version, digest, image, isUpdate, note := "", "", "", false, None;
    if latest.Ok? && latest.value != "" {
      version := latest.value;
      image := ref.WithTag(version);
      var answer := DigestOf(r, ref, version);
      if answer.Err? {
        note := Some(Note("latestDigestResolution", answer.error));
      } else {
        digest := answer.value;
      }
      isUpdate := digest != "" && ref.tag != "" && ref.tag != version;
    } else if latest.Err? {
      note := Some(Note("latestResolution", latest.error));
    }
    return ComponentOf(d, container, environmentId, now, Newest(version, image, digest, isUpdate, note));
  }

  function Report(r: Registries, environmentId: string, now: Time, cluster: Cluster): seq<ComponentState> {
    Map(Observer(r, environmentId, now), cluster)
  }

  /* ---------- what is reported, in plain words ---------- */

  /** The newest tag for this image, if its repository is known and its tags are listed; "" when there is no answer. */
  function NewestTag(r: Registries, ref: ImageReference): string {
    var tags := if ref.repository == "" then Err("") else r.tags(ref.registry, ref.repository);
    if tags.Ok? && tags.value != [] then Latest(tags.value, ref.tag).value else ""
  }

  /** The digest answered for that tag; "" when there is none. */
  function NewestDigest(r: Registries, ref: ImageReference): string {
    var tag := NewestTag(r, ref);
    var digest := if tag == "" then Err("") else r.digest(ref.registry, ref.repository, tag);
    if digest.Ok? then digest.value else ""
  }

  lemma NewestTells(r: Registries, ref: ImageReference)
    requires ref.registry != ""
    ensures var n := NewestOf(r, ref);
      && n.version == NewestTag(r, ref) && n.digest == NewestDigest(r, ref)
      && n.image ==
           (if NewestTag(r, ref) == "" then "" else ref.registry + "/" + ref.repository + ":" + NewestTag(r, ref))
      && (n.isUpdate <==> ref.tag != "" && NewestTag(r, ref) != ref.tag && NewestDigest(r, ref) != "")
  {
  }

  lemma RegistryIsKnown(raw: string)
    ensures ParseImage(raw).registry != ""
  {
    ParsedParts(raw);
  }

  /** The names, the image and what was read from it, the newest tag with its image and digest, and the replicas. */
  lemma ObservedTells(r: Registries, e: string, now: Time, p: Placement)
    ensures var c, d, ref := Observed(r, e, now, p), p.deployment, ParseImage(p.container.image);
      && c.id == d.namespace + "/" + d.name + "/" + p.container.name && c.environmentId == e
      && c.name == c.workloadName == d.name && c.namespace == d.namespace && c.container == p.container.name
      && c.workloadKind == "Deployment" && c.runtime == "kubernetes" && c.lastObservedAt == now
      && c.currentImage == p.container.image && c.currentDigest == ref.digest
      && c.currentVersion == (if ref.tag != "" then ref.tag else if ref.digest != "" then ref.digest else "unknown")
      && c.latestVersion == NewestTag(r, ref) && c.latestDigest == NewestDigest(r, ref)
      && c.latestImage ==
           (if NewestTag(r, ref) == "" then "" else ref.registry + "/" + ref.repository + ":" + NewestTag(r, ref))
      && c.labels.Get("imageRepository") == ref.repository
  {
    RegistryIsKnown(p.container.image);
    NewestTells(r, ParseImage(p.container.image));
  }

  /** The labels say why the newest tag or its digest is not known. */
  lemma LabelsTell(r: Registries, e: string, now: Time, p: Placement)
    ensures var ref, labels := ParseImage(p.container.image), Observed(r, e, now, p).labels;
      var tags := r.tags(ref.registry, ref.repository);
      var digest := r.digest(ref.registry, ref.repository, NewestTag(r, ref));
      && labels.Get("latestResolution") ==
           (if ref.repository == "" then "image reference does not include a registry repository"
            else if tags.Err? then tags.error
            else if tags.value == [] then "registry returned no tags" else "")
      && labels.Get("latestDigestResolution") == if NewestTag(r, ref) != "" && digest.Err? then digest.error else ""
  {
    var ref := ParseImage(p.container.image);
    RegistryIsKnown(p.container.image);
    NoteTells(r, ref);
    LabelsOfNote(ref, NewestOf(r, ref).note);
  }

  lemma NoteTells(r: Registries, ref: ImageReference)
    requires ref.registry != ""
    ensures var note, tags := NewestOf(r, ref).note, r.tags(ref.registry, ref.repository);
      var digest := r.digest(ref.registry, ref.repository, NewestTag(r, ref));
      note ==
        if ref.repository == "" then
          Some(Note("latestResolution", "image reference does not include a registry repository"))
        else if tags.Err? then Some(Note("latestResolution", tags.error))
        else if tags.value == [] then Some(Note("latestResolution", "registry returned no tags"))
        else if NewestTag(r, ref) != "" && digest.Err? then Some(Note("latestDigestResolution", digest.error))
        else None
  {
  }

  lemma LabelsOfNote(ref: ImageReference, note: Option<Note>)
    requires note.Some? ==> note.value.key in {"latestResolution", "latestDigestResolution"}
    ensures forall k :: k in {"latestResolution", "latestDigestResolution"} ==>
      Labels(ref, note).Get(k) == if note.Some? && note.value.key == k then note.value.text else ""
  {
    assert "imageRepository"[0] != "latestResolution"[0] && "imageRepository"[0] != "latestDigestResolution"[0];
  }

  /**
   * An update is announced if and only if the image has a tag, the listed tags have a newest one that differs from it,
   * and a digest is answered for that one.
   */
  lemma UpdateIsAnnouncedIff(r: Registries, e: string, now: Time, p: Placement)
    ensures var ref := ParseImage(p.container.image);
      Observed(r, e, now, p).updateAvailable <==>
        ref.tag != "" && NewestTag(r, ref) != ref.tag && NewestDigest(r, ref) != ""
  {
    RegistryIsKnown(p.container.image);
    NewestTells(r, ParseImage(p.container.image));
  }

  /** Succeeded if at least one replica is wanted, one being the default, and as many are ready; else running. */
  lemma ReplicasTell(r: Registries, e: string, now: Time, p: Placement)
    ensures var c, d := Observed(r, e, now, p), p.deployment;
      && c.readyReplicas == d.readyReplicas
      && (d.replicas == None ==> c.desiredReplicas == 1) && (d.replicas.Some? ==> c.desiredReplicas == d.replicas.value)
      && (c.status == Succeeded <==> c.desiredReplicas > 0 && c.readyReplicas >= c.desiredReplicas)
      && (c.status == Succeeded || c.status == Running)
  {
  }

  /* ---------- set-image ---------- */

  datatype SetImageRefusal = MissingInput | NoSuchContainer

  predicate IsAt(p: Placement, namespace: string, workload: string, container: string) {
    p.deployment.namespace == namespace && p.deployment.name == workload && p.container.name == container
  }

  function Patched(p: Placement, namespace: string, workload: string, container: string, image: string): Placement {
    if IsAt(p, namespace, workload, container) then p.(container := p.container.(image := image)) else p
  }

  function Patcher(namespace: string, workload: string, container: string, image: string): Placement -> Placement {
    p => Patched(p, namespace, workload, container, image)
  }

  /** The four inputs are trimmed and none may be blank; then the image of the named container is replaced. */
  function SetImage(cluster: Cluster, inputs: Dict): Result<Cluster, SetImageRefusal> {
    var namespace, workload := TrimSpace(inputs.Get("namespace")), TrimSpace(inputs.Get("workload"));
    var container, image := TrimSpace(inputs.Get("container")), TrimSpace(inputs.Get("image"));
    if namespace == "" || workload == "" || container == "" || image == "" then Err(MissingInput)
    else if !exists i :: 0 <= i < |cluster| && IsAt(cluster[i], namespace, workload, container) then
      Err(NoSuchContainer)
    else Ok(Map(Patcher(namespace, workload, container, image), cluster))
  }

  predicate InputIsBlank(inputs: Dict, key: string) { TrimSpace(inputs.Get(key)) == "" }

  /** It is at the place that the trimmed inputs name. */
  predicate IsNamed(p: Placement, inputs: Dict) {
    && p.deployment.namespace == TrimSpace(inputs.Get("namespace"))
    && p.deployment.name == TrimSpace(inputs.Get("workload"))
    && p.container.name == TrimSpace(inputs.Get("container"))
  }

  /**
   * Refused exactly when an input is blank or nothing is at the named place; otherwise what is there gets the
   * trimmed image, and nothing else changes.
   */
  lemma SetImageTells(cluster: Cluster, inputs: Dict)
    ensures SetImage(cluster, inputs) == Err(MissingInput) <==>
      || InputIsBlank(inputs, "namespace") || InputIsBlank(inputs, "workload")
      || InputIsBlank(inputs, "container") || InputIsBlank(inputs, "image")
    ensures SetImage(cluster, inputs) == Err(NoSuchContainer) <==>
      && SetImage(cluster, inputs) != Err(MissingInput)
      && forall i :: 0 <= i < |cluster| ==> !IsNamed(cluster[i], inputs)
    ensures SetImage(cluster, inputs).Ok? ==>
      var next := SetImage(cluster, inputs).value;
      && |next| == |cluster|
      && forall i :: 0 <= i < |cluster| ==>
           && next[i].deployment == cluster[i].deployment && next[i].container.name == cluster[i].container.name
           && next[i].container.image ==
                (if IsNamed(cluster[i], inputs) then TrimSpace(inputs.Get("image")) else cluster[i].container.image)
  {
    var namespace, workload := TrimSpace(inputs.Get("namespace")), TrimSpace(inputs.Get("workload"));
    var container := TrimSpace(inputs.Get("container"));
    forall i | 0 <= i < |cluster|
      ensures IsNamed(cluster[i], inputs) <==> IsAt(cluster[i], namespace, workload, container)
    {
    }
  }

  /* ---------- one container, updated ---------- */

  lemma ParseOfTrimmed(raw: string)
    ensures ParseImage(TrimSpace(raw)) == ParseImage(raw)
  {
    var a, b := TrimSpaceParts(raw);
    TrimSpaceOfTrimmed(TrimSpace(raw));
  }

  /** The image set-image writes when it is given what the inventory found newest. */
  function Updated(r: Registries, p: Placement): Placement {
    p.(container := p.container.(image := TrimSpace(NewestOf(r, ParseImage(p.container.image)).image)))
  }

  /** An update is only ever to a listed tag. */
  lemma UpdatesAreListed(r: Registries, ref: ImageReference)
    requires NewestOf(r, ref).isUpdate
    ensures r.tags(ref.registry, ref.repository).Ok? &&
      NewestOf(r, ref).version in r.tags(ref.registry, ref.repository).value
  {
    LatestHasMaximalRank(r.tags(ref.registry, ref.repository).value, ref.tag);
  }

  lemma NewestIsStable(r: Registries, ref: ImageReference)
    requires NewestOf(r, ref).version != ""
    ensures var ref' := ref.(tag := NewestOf(r, ref).version, digest := "");
      LatestOf(r, ref') == Ok(ref'.tag) && !NewestOf(r, ref').isUpdate
      && NewestOf(r, ref').image == NewestOf(r, ref).image && NewestOf(r, ref').digest == NewestOf(r, ref).digest
  {
    LatestIsStable(r.tags(ref.registry, ref.repository).value, ref.tag);
  }

  /** After the update the container shows the version that was newest, in the same repository, and asks for no more. */
  lemma UpdateSettles(r: Registries, environmentId: string, now: Time, later: Time, p: Placement)
    requires Observed(r, environmentId, now, p).updateAvailable
    requires IsPlainTag(Observed(r, environmentId, now, p).latestVersion)
    ensures var before, after := Observed(r, environmentId, now, p), Observed(r, environmentId, later, Updated(r, p));
      && ParseImage(after.currentImage).registry == ParseImage(p.container.image).registry
      && ParseImage(after.currentImage).repository == ParseImage(p.container.image).repository
      && after.id == before.id && after.currentVersion == before.latestVersion && after.currentDigest == ""
      && after.latestVersion == before.latestVersion && after.latestDigest == before.latestDigest
      && !after.updateAvailable
  {
    var ref := ParseImage(p.container.image);
    NewestIsStable(r, ref);
    WithTagRoundTrip(p.container.image, NewestOf(r, ref).version);
  }

  /** Whatever the registry lists, the version takes hold exactly when its tag is plain. */
  lemma UpdateTakesHoldIff(r: Registries, environmentId: string, now: Time, later: Time, p: Placement)
    requires Observed(r, environmentId, now, p).updateAvailable
    ensures Observed(r, environmentId, later, Updated(r, p)).currentVersion ==
      Observed(r, environmentId, now, p).latestVersion
      <==> IsPlainTag(Observed(r, environmentId, now, p).latestVersion)
  {
    var ref := ParseImage(p.container.image);
    var t := NewestOf(r, ref).version;
    ParseOfTrimmed(ref.WithTag(t));
    ParsedParts(p.container.image);
    TagComesBackIff(p.container.image, t);
    DigestIsShorter(ref, t);
    if ParseImage(ref.WithTag(t)).Version() == t {
      UnknownIsPlain();
    }
  }

  lemma UnknownIsPlain()
    ensures IsPlainTag("unknown")
  {
  }

  /** What is read as the digest of a printed reference is at most a proper part of the tag. */
  lemma DigestIsShorter(ref: ImageReference, t: string)
    requires IsParsed(ref)
    ensures ParseImage(ref.WithTag(t)).digest != "" ==> ParseImage(ref.WithTag(t)).digest != t
  {
    var s := ref.WithTag(t);
    var a, b := TrimSpaceParts(s);
    match CutFirst(TrimSpace(s), '@') {
      case None =>
      case Some((front, digest)) =>
        var path := Glue(ref.registry, '/', ref.repository);
        assert '@' !in path + [':'] && s == path + [':'] + t;
        assert s == a + front + ['@'] + (digest + b);
        AtLeastBefore(path + [':'], t, a + front, digest + b);
    }
  }

  lemma AtLeastBefore(p: string, t: string, x: string, y: string)
    requires '@' !in p && p + t == x + ['@'] + y
    ensures |y| < |t|
  {
    assert (p + t)[|x|] == '@';
  }
}

/** The update button: its guards, the job it signs, and why pressing it again after that job is refused. */
module Updates {
  import opened Prelude
  import opened Text
  import opened Collections
  import opened Deploy
  import opened Validation
  import opened Selection
  import opened Wire
  import opened Signing
  import opened ComponentIndex
  import opened StoreSpec
  import opened Images
  import opened Slugs
  import opened Inventory

  /** The two time formats that end up in ids and nonces: one-second and one-nanosecond resolution. */
  datatype Stamps = Stamps(second: Time -> string, nano: Time -> string)

  const FIFTEEN_MINUTES := 900_000_000_000
  const SET_IMAGE_EXECUTOR := "kubernetes.set-image"
  const SET_IMAGE := "set-image"
  const CONTAINER_IMAGE := "container-image"
  const UPDATE := "update-"
  const UPDATE_PLAN := "update-plan-"
  const NONCE := "nonce-"

  function IdText(prefix: string, componentId: string, stamp: string): string {
    prefix + Slug(componentId) + "-" + stamp
  }

  function EnvironmentOf(c: ComponentState): string {
    if TrimSpace(c.environmentId) == "" then "unknown" else TrimSpace(c.environmentId)
  }

  function UpdateJob(c: ComponentState, stamps: Stamps, now: Time): Job {
    var e, stamp := EnvironmentOf(c), stamps.second(now);
    Job(IdText(UPDATE, c.id, stamp),
      Plan(IdText(UPDATE_PLAN, c.id, stamp),
        Application(c.id, c.name, NilSlice, NilDict), Environment(e, e, NilSlice, NilDict),
        SliceOf([Artifact(c.id, CONTAINER_IMAGE, c.latestImage, c.latestDigest, "", "", NilDict)]),
        NilSlice, NilSlice, SliceOf([UpdateStep(c)]), None, NilDict, now),
      WorkerSelector(SliceOf([SET_IMAGE_EXECUTOR]), DictOf(map["environment" := e])),
      now, now + FIFTEEN_MINUTES, NONCE + stamps.nano(now))
  }

  function UpdateStep(c: ComponentState): Step {
    Step(SET_IMAGE, SET_IMAGE_EXECUTOR, SET_IMAGE, UpdateInputs(c), 30)
  }

  function UpdateInputs(c: ComponentState): Dict {
    DictOf(map[
      "namespace" := c.namespace, "workload" := c.workloadName, "container" := c.container, "image" := c.latestImage])
  }

  const INVENTORY_STEP := "kubernetes-inventory"
  const LIST_DEPLOYMENTS := "list-deployments"

  function InventoryJob(environmentId: string, namespaces: string, stamps: Stamps, now: Time): Job {
    Job("inventory-" + stamps.second(now),
      Plan("inventory-plan-" + stamps.second(now),
        Application(INVENTORY_APPLICATION, "Deployment inventory", NilSlice, NilDict),
        Environment(environmentId, environmentId, NilSlice, NilDict), NilSlice, NilSlice, NilSlice,
        SliceOf([Step(INVENTORY_STEP, INVENTORY_EXECUTOR, LIST_DEPLOYMENTS,
          DictOf(map["environment" := environmentId, "namespaces" := namespaces]), 30)]),
        None, NilDict, now),
      WorkerSelector(SliceOf([INVENTORY_EXECUTOR]), DictOf(map["environment" := environmentId])),
      now, now + FIFTEEN_MINUTES, NONCE + stamps.nano(now))
  }

  datatype UpdateRefusal = NotObserved | AlreadyLatest | ImageUnknown | DigestUnknown | NotSigned(reason: Refusal)

  /** The guards, in the order they are asked. */
  function MayUpdate(idx: Index, componentId: string): Result<ComponentState, UpdateRefusal> {
    match Lookup(idx, TrimSpace(componentId))
    case None => Err(NotObserved)
    case Some(c) =>
      if !c.updateAvailable then Err(AlreadyLatest)
      else if TrimSpace(c.latestImage) == "" then Err(ImageUnknown)
      else if ':' !in c.latestDigest then Err(DigestUnknown)
      else Ok(c)
  }

  datatype Server = Server(crypto: Crypto, keyId: string, secret: seq<byte>, stamps: Stamps)

  function Answer(r: Result<SignedJob, Refusal>): Result<SignedJob, UpdateRefusal> {
    match r
    case Err(e) => Err(NotSigned(e))
    case Ok(signed) => Ok(signed)
  }

  function RequestUpdate(server: Server, idx: Index, componentId: string, now: Time): Result<SignedJob, UpdateRefusal> {
    match MayUpdate(idx, componentId)
    case Err(e) => Err(e)
    case Ok(c) =>
      Answer(SignedFor(server, c, now))
  }

  /* ---------- which update jobs can be signed ---------- */

  const SECOND := 1_000_000_000

  /** Midnight before the first of January 10000, counted from Go's zero time; up to then years have four digits. */
  const YEAR_10000 := 315_537_897_600 * SECOND

  predicate InRange(t: Time) { 0 < t < YEAR_10000 }

  /** Sixteen and twenty-six printable characters, the first naming exactly the second. */
  ghost predicate GoodStamps(s: Stamps) {
    && (forall t :: InRange(t) ==> GoodStamp(s.second(t), 16) && GoodStamp(s.nano(t), 26))
    && (forall t, u :: InRange(t) && InRange(u) ==> (s.second(t) == s.second(u) <==> t / SECOND == u / SECOND))
  }

  predicate GoodStamp(stamp: string, length: nat) { IsPlainText(stamp) && |stamp| == length }

  lemma SetImageIsToken()
    ensures IsToken(SET_IMAGE)
  {
    PlainToken(SET_IMAGE);
  }

  lemma SetImageExecutorIsToken()
    ensures IsToken(SET_IMAGE_EXECUTOR)
  {
    PlainToken(SET_IMAGE_EXECUTOR);
  }

  lemma ContainerImageIsToken()
    ensures IsToken(CONTAINER_IMAGE)
  {
    PlainToken(CONTAINER_IMAGE);
  }

  lemma PrefixesArePlain()
    ensures IsPlainText(UPDATE) && |UPDATE| == 7
    ensures IsPlainText(UPDATE_PLAN) && |UPDATE_PLAN| == 12
    ensures IsPlainText(NONCE) && |NONCE| == 6
  {
  }

  lemma ColonIsNotBlank(s: string)
    requires ':' in s
    ensures TrimSpace(s) != ""
  {
    var a, b := TrimSpaceParts(s);
  }

  lemma IdTextIsToken(prefix: string, componentId: string, stamp: string)
    requires IsPlainText(prefix) && IsPlainText(stamp) && |stamp| == 16
    ensures IsToken(IdText(prefix, componentId, stamp)) <==> |prefix| + |Slug(componentId)| <= 111
  {
    SlugIsSlug(componentId);
    PlainToken(IdText(prefix, componentId, stamp));
  }

  lemma UpdateIds(c: ComponentState, stamps: Stamps, now: Time)
    requires GoodStamps(stamps) && InRange(now)
    ensures var j := UpdateJob(c, stamps, now);
      && IsToken(j.nonce)
      && (IsToken(j.plan.id) <==> |Slug(c.id)| <= 99)
      && (|Slug(c.id)| <= 99 ==> IsToken(j.id))
  {
    PrefixesArePlain();
    IdTextIsToken(UPDATE, c.id, stamps.second(now));
    IdTextIsToken(UPDATE_PLAN, c.id, stamps.second(now));
    PlainToken(NONCE + stamps.nano(now));
  }

  lemma UpdateStepIsGood(c: ComponentState)
    ensures GoodSteps([UpdateStep(c)])
  {
    SetImageIsToken();
    SetImageExecutorIsToken();
    assert StepIds([UpdateStep(c)]) == [SET_IMAGE];
  }

  lemma UpdateArtifactIsGood(c: ComponentState)
    ensures GoodArtifact(Artifact(c.id, CONTAINER_IMAGE, c.latestImage, c.latestDigest, "", "", NilDict)) <==>
      IsToken(c.id) && TrimSpace(c.latestImage) != "" && TrimSpace(c.latestDigest) != "" && ':' in c.latestDigest
  {
    ContainerImageIsToken();
  }

  lemma OneArtifact(a: Artifact)
    ensures GoodArtifacts(SliceOf([a])) <==> GoodArtifact(a)
  {
    assert a in [a] && ArtifactIds([a]) == [a.id];
  }

  lemma UpdatePlanIsGood(c: ComponentState, stamps: Stamps, now: Time)
    ensures var p := UpdateJob(c, stamps, now).plan;
      WellFormedPlan(p) <==>
        && IsToken(p.id) && now != 0 && IsToken(c.id) && IsToken(EnvironmentOf(c))
        && TrimSpace(c.latestImage) != "" && TrimSpace(c.latestDigest) != "" && ':' in c.latestDigest
  {
    var p := UpdateJob(c, stamps, now).plan;
    BareParts(c.id, c.name);
    BareParts(EnvironmentOf(c), EnvironmentOf(c));
    UpdateStepIsGood(c);
    UpdateArtifactIsGood(c);
    OneArtifact(Artifact(c.id, CONTAINER_IMAGE, c.latestImage, c.latestDigest, "", "", NilDict));
    PlanOfParts(p, UpdateStep(c));
  }

  lemma PlanOfParts(p: Plan, step: Step)
    requires GoodGates(p.gates.Elems()) && GoodChecks(p.checks.Elems()) && p.rollback.None?
    requires p.steps == SliceOf([step]) && GoodSteps([step])
    ensures WellFormedPlan(p) <==>
      && IsToken(p.id) && p.createdAt != 0
      && GoodApplication(p.application) && GoodEnvironment(p.environment) && GoodArtifacts(p.artifacts)
  {
  }

  predicate SetInstants(j: Job) { 0 < j.issuedAt && 0 < j.expiresAt && 0 < j.plan.createdAt }

  predicate EarlyInstants(j: Job) {
    j.issuedAt < YEAR_10000 && j.expiresAt < YEAR_10000 && j.plan.createdAt < YEAR_10000
  }

  /** JSON writes instants up to the year 9999, and nothing else in a job can fail to be written. */
  ghost predicate WritesInstants(c: Crypto) {
    forall p: Payload :: SetInstants(p.job) ==> (c.marshal(p).Some? <==> EarlyInstants(p.job))
  }

  lemma PayloadIsWritten(c: Crypto, keyId: string, job: Job, secret: seq<byte>)
    requires WritesInstants(c) && SetInstants(job)
    ensures SignPayload(c, ALGORITHM, keyId, job, secret).Ok? <==> EarlyInstants(job)
  {
    var p := Payload(ALGORITHM, keyId, Canon(job.Clone()));
    assert SetInstants(p.job) && (EarlyInstants(p.job) <==> EarlyInstants(job));
  }

  lemma SignedIff(c: Crypto, job: Job, keyId: string, secret: seq<byte>)
    requires WritesInstants(c) && SetInstants(job)
    ensures Sign(c, job, keyId, secret).Ok? <==>
      WellFormedJob(job) && IsToken(TrimSpace(keyId)) && |secret| >= MIN_SECRET && EarlyInstants(job)
  {
    PayloadIsWritten(c, TrimSpace(keyId), job.Clone(), secret);
  }

  lemma UpdateJobIsWellFormedIff(c: ComponentState, stamps: Stamps, now: Time)
    requires GoodStamps(stamps) && InRange(now) && TrimSpace(c.latestImage) != "" && ':' in c.latestDigest
    ensures WellFormedJob(UpdateJob(c, stamps, now)) <==>
      IsToken(c.id) && |Slug(c.id)| <= 99 && IsToken(EnvironmentOf(c))
  {
    ColonIsNotBlank(c.latestDigest);
    UpdateIds(c, stamps, now);
    UpdatePlanIsGood(c, stamps, now);
  }

  /** The component is held, has an update, and its newest image and digest are known. */
  predicate CanBeUpdated(idx: Index, id: string) {
    id in idx && idx[id].updateAvailable && TrimSpace(idx[id].latestImage) != "" && ':' in idx[id].latestDigest
  }

  /**
   * An update is queued exactly for an observed update whose component id and environment are short, clean tokens,
   * when the server has a proper key and the job does not expire after the year 9999.
   */
  lemma UpdateIsQueuedIff(server: Server, idx: Index, componentId: string, now: Time)
    requires GoodStamps(server.stamps) && WritesInstants(server.crypto) && InRange(now)
    ensures var id := TrimSpace(componentId);
      RequestUpdate(server, idx, componentId, now).Ok? <==>
        && CanBeUpdated(idx, id)
        && IsToken(idx[id].id) && |Slug(idx[id].id)| <= 99
        && (TrimSpace(idx[id].environmentId) == "" || IsToken(idx[id].environmentId))
        && IsToken(TrimSpace(server.keyId)) && |server.secret| >= 32
        && now + 15 * 60 * 1_000_000_000 < YEAR_10000
  {
    var id := TrimSpace(componentId);
    if CanBeUpdated(idx, id) {
      UpdateJobIsWellFormedIff(idx[id], server.stamps, now);
      SignedIff(server.crypto, UpdateJob(idx[id], server.stamps, now), server.keyId, server.secret);
      EnvironmentIsToken(idx[id]);
    }
  }

  lemma UnknownIsToken()
    ensures IsToken("unknown")
  {
    PlainToken("unknown");
  }

  lemma EnvironmentIsToken(c: ComponentState)
    ensures IsToken(EnvironmentOf(c)) <==> TrimSpace(c.environmentId) == "" || IsToken(c.environmentId)
  {
    UnknownIsToken();
    var a, b := TrimSpaceParts(c.environmentId);
    TrimSpaceOfTrimmed(TrimSpace(c.environmentId));
  }

  lemma MayUpdateIs(idx: Index, componentId: string)
    requires MayUpdate(idx, componentId).Ok?
    ensures TrimSpace(componentId) in idx && MayUpdate(idx, componentId).value == idx[TrimSpace(componentId)]
  {
  }

  /** The call of Sign behind a request that passes the guards. */
  function SignedFor(server: Server, c: ComponentState, now: Time): Result<SignedJob, Refusal> {
    Sign(server.crypto, UpdateJob(c, server.stamps, now), server.keyId, server.secret)
  }

  lemma RequestedJob(server: Server, idx: Index, componentId: string, now: Time)
    requires RequestUpdate(server, idx, componentId, now).Ok?
    ensures TrimSpace(componentId) in idx
    ensures SignedFor(server, idx[TrimSpace(componentId)], now)
      == Ok(RequestUpdate(server, idx, componentId, now).value)
  {
    MayUpdateIs(idx, componentId);
    SignedAnswer(SignedFor(server, idx[TrimSpace(componentId)], now));
  }

  lemma SignedAnswer(r: Result<SignedJob, Refusal>)
    ensures Answer(r).Ok? ==> r == Ok(Answer(r).value)
  {
  }

  lemma SignedJobIs(c: Crypto, job: Job, keyId: string, secret: seq<byte>, signed: SignedJob)
    requires Sign(c, job, keyId, secret) == Ok(signed)
    ensures SameJob(signed.job, job) && signed.keyId == TrimSpace(keyId)
    ensures MacOf(c, signed.keyId, signed.job, secret, signed.signature)
  {
    SignYieldsIff(c, job, keyId, secret, signed);
    CloneKeepsJob(job);
    CanonIff(job, job.Clone());
    CanonIff(job.Clone(), job);
  }

  /** What is queued is the update job of the component held under that id, signed under the server's key. */
  lemma QueuedJobIs(server: Server, idx: Index, componentId: string, now: Time, signed: SignedJob)
    requires RequestUpdate(server, idx, componentId, now) == Ok(signed)
    ensures var id := TrimSpace(componentId);
      && id in idx && SameJob(signed.job, UpdateJob(idx[id], server.stamps, now))
      && signed.keyId == TrimSpace(server.keyId)
      && MacOf(server.crypto, signed.keyId, signed.job, server.secret, signed.signature)
  {
    RequestedJob(server, idx, componentId, now);
    SignedJobIs(
      server.crypto, UpdateJob(idx[TrimSpace(componentId)], server.stamps, now), server.keyId, server.secret, signed);
  }

  /** When each of the refusals is given. */
  lemma UpdateIsRefusedIff(server: Server, idx: Index, componentId: string, now: Time)
    ensures var id, answer := TrimSpace(componentId), RequestUpdate(server, idx, componentId, now);
      && (answer == Err(NotObserved) <==> id !in idx)
      && (answer == Err(AlreadyLatest) <==> id in idx && !idx[id].updateAvailable)
      && (answer == Err(ImageUnknown) <==> id in idx && idx[id].updateAvailable && TrimSpace(idx[id].latestImage) == "")
      && (answer == Err(DigestUnknown) <==>
            && id in idx && idx[id].updateAvailable
            && TrimSpace(idx[id].latestImage) != "" && ':' !in idx[id].latestDigest)
      && (answer.Ok? || (answer.Err? && answer.error.NotSigned?) <==> CanBeUpdated(idx, id))
  {
  }

  /** The job that is queued: what it is about, what it does, who may take it, and how long it lives. */
  lemma UpdateJobTells(c: ComponentState, stamps: Stamps, now: Time)
    ensures var j := UpdateJob(c, stamps, now);
      var e := if TrimSpace(c.environmentId) == "" then "unknown" else TrimSpace(c.environmentId);
      && j.id == "update-" + Slug(c.id) + "-" + stamps.second(now)
      && j.plan.id == "update-plan-" + Slug(c.id) + "-" + stamps.second(now)
      && j.plan.application.id == c.id && j.plan.application.name == c.name
      && j.plan.environment.id == e && j.plan.environment.name == e
      && j.issuedAt == j.plan.createdAt == now && j.expiresAt == now + 15 * 60 * 1_000_000_000
      && j.nonce == "nonce-" + stamps.nano(now)
  {
  }

  lemma UpdatePlanTells(c: ComponentState, stamps: Stamps, now: Time)
    ensures var p := UpdateJob(c, stamps, now).plan;
      && (exists a :: p.artifacts.Elems() == [a] && a.id == c.id && a.kind == "container-image"
            && a.ref == c.latestImage && a.digest == c.latestDigest)
      && (exists s :: p.steps.Elems() == [s] && s.id == s.action == "set-image" && s.executor == "kubernetes.set-image"
            && s.timeoutSeconds == 30
            && s.inputs.Get("namespace") == c.namespace && s.inputs.Get("workload") == c.workloadName
            && s.inputs.Get("container") == c.container && s.inputs.Get("image") == c.latestImage)
  {
    var p := UpdateJob(c, stamps, now).plan;
    InputsOfUpdate(c);
    assert p.artifacts.Elems() == [p.artifacts.Elems()[0]];
    assert p.steps.Elems() == [UpdateStep(c)];
  }

  /* ---------- the inventory job ---------- */

  lemma InventoryJobTells(e: string, namespaces: string, stamps: Stamps, now: Time)
    ensures var j := InventoryJob(e, namespaces, stamps, now);
      && j.id == "inventory-" + stamps.second(now) && j.plan.id == "inventory-plan-" + stamps.second(now)
      && j.plan.application.id == "pk-deploy-inventory" && j.plan.environment.id == e
      && j.issuedAt == j.plan.createdAt == now && j.expiresAt == now + 15 * 60 * 1_000_000_000
      && j.nonce == "nonce-" + stamps.nano(now)
  {
  }

  lemma InventoryStepTells(e: string, namespaces: string, stamps: Stamps, now: Time)
    ensures var steps := InventoryJob(e, namespaces, stamps, now).plan.steps.Elems();
      exists s :: steps == [s]
        && s.id == "kubernetes-inventory" && s.executor == "kubernetes.inventory" && s.action == "list-deployments"
        && s.timeoutSeconds == 30
        && s.inputs.Get("environment") == e && s.inputs.Get("namespaces") == namespaces
  {
    var steps := InventoryJob(e, namespaces, stamps, now).plan.steps.Elems();
    assert steps == [steps[0]];
  }

  lemma InventoryStepNameIsToken()
    ensures IsToken(INVENTORY_STEP)
  {
    PlainToken(INVENTORY_STEP);
  }

  lemma ListDeploymentsIsPlain()
    ensures IsPlainText(LIST_DEPLOYMENTS) && |LIST_DEPLOYMENTS| == 16
  {
  }

  lemma ListDeploymentsIsToken()
    ensures IsToken(LIST_DEPLOYMENTS)
  {
    ListDeploymentsIsPlain();
    PlainToken(LIST_DEPLOYMENTS);
  }

  lemma OneGoodStep(s: Step)
    requires GoodStep(s)
    ensures GoodSteps([s])
  {
    assert StepIds([s]) == [s.id];
  }

  lemma InventoryStepIsGood(e: string, namespaces: string, stamps: Stamps, now: Time)
    ensures GoodSteps(InventoryJob(e, namespaces, stamps, now).plan.steps.Elems())
  {
    var steps := InventoryJob(e, namespaces, stamps, now).plan.steps.Elems();
    InventoryStepNameIsToken();
    InventoryExecutorIsToken();
    ListDeploymentsIsToken();
    OneGoodStep(steps[0]);
    assert steps == [steps[0]];
  }

  lemma InventoryPrefixesArePlain()
    ensures IsPlainText("inventory-") && |"inventory-"| == 10
    ensures IsPlainText("inventory-plan-") && |"inventory-plan-"| == 15
  {
  }

  lemma InventoryIds(e: string, namespaces: string, stamps: Stamps, now: Time)
    requires GoodStamps(stamps) && InRange(now)
    ensures var j := InventoryJob(e, namespaces, stamps, now); IsToken(j.id) && IsToken(j.plan.id) && IsToken(j.nonce)
  {
    InventoryPrefixesArePlain();
    PrefixesArePlain();
    PlainToken("inventory-" + stamps.second(now));
    PlainToken("inventory-plan-" + stamps.second(now));
    PlainToken(NONCE + stamps.nano(now));
  }

  /** With a proper key it can be signed exactly if its environment is a token and it expires before the year 10000. */
  lemma InventoryJobIsSignedIff(server: Server, e: string, namespaces: string, now: Time)
    requires GoodStamps(server.stamps) && WritesInstants(server.crypto) && InRange(now)
    ensures Sign(server.crypto, InventoryJob(e, namespaces, server.stamps, now), server.keyId, server.secret).Ok? <==>
      && IsToken(e) && IsToken(TrimSpace(server.keyId)) && |server.secret| >= 32
      && now + 15 * 60 * 1_000_000_000 < YEAR_10000
  {
    var j := InventoryJob(e, namespaces, server.stamps, now);
    SignedIff(server.crypto, j, server.keyId, server.secret);
    InventoryIds(e, namespaces, server.stamps, now);
    InventoryStepIsGood(e, namespaces, server.stamps, now);
    InventoryApplicationIsToken();
    BareParts(INVENTORY_APPLICATION, "Deployment inventory");
    BareParts(e, e);
    NoArtifacts();
    PlanOfParts(j.plan, j.plan.steps.Elems()[0]);
  }

  /** Who may take an inventory job: a worker that takes inventories, in that environment. */
  lemma InventoryTakers(info: Info, e: string, namespaces: string, stamps: Stamps, now: Time)
    ensures Matches(info, InventoryJob(e, namespaces, stamps, now).selector) <==>
      "kubernetes.inventory" in info.capabilities.Elems() && info.labels.Get("environment") == e
  {
    var s := InventoryJob(e, namespaces, stamps, now).selector;
    assert s.capabilities.Elems() == [INVENTORY_EXECUTOR] && s.labels.Entries() == map["environment" := e];
    assert INVENTORY_EXECUTOR in s.capabilities.Elems() && "environment" in s.labels.Entries();
  }

  /** Two update jobs share an id exactly when they are for components of one slug within one second. */
  lemma UpdateIdsCollideIff(a: ComponentState, b: ComponentState, stamps: Stamps, t: Time, u: Time)
    requires GoodStamps(stamps) && InRange(t) && InRange(u)
    ensures UpdateJob(a, stamps, t).id == UpdateJob(b, stamps, u).id <==>
      Slug(a.id) == Slug(b.id) && t / SECOND == u / SECOND
  {
    var x, y := stamps.second(t), stamps.second(u);
    if IdText(UPDATE, a.id, x) == IdText(UPDATE, b.id, y) {
      SameSuffix(UPDATE + Slug(a.id) + "-", x, UPDATE + Slug(b.id) + "-", y);
      SameSuffix(UPDATE + Slug(a.id), "-", UPDATE + Slug(b.id), "-");
      SamePrefix(UPDATE, Slug(a.id), Slug(b.id));
    }
  }

  lemma SameSuffix(a: string, x: string, b: string, y: string)
    requires a + x == b + y && |x| == |y|
    ensures a == b && x == y
  {
    assert a == (a + x)[..|a|] && b == (b + y)[..|b|];
    assert x == (a + x)[|a|..] && y == (b + y)[|b|..];
  }

  lemma SamePrefix(p: string, a: string, b: string)
    requires p + a == p + b
    ensures a == b
  {
    assert a == (p + a)[|p|..] && b == (p + b)[|p|..];
  }

  /** Who may take an update job: a worker that sets images in the environment of the component. */
  lemma UpdateTakers(info: Info, c: ComponentState, stamps: Stamps, now: Time)
    ensures Matches(info, UpdateJob(c, stamps, now).selector) <==>
      SET_IMAGE_EXECUTOR in info.capabilities.Elems() && info.labels.Get("environment") == EnvironmentOf(c)
  {
    var s := UpdateJob(c, stamps, now).selector;
    assert s.capabilities.Elems() == [SET_IMAGE_EXECUTOR] &&
      s.labels.Entries() == map["environment" := EnvironmentOf(c)];
    assert SET_IMAGE_EXECUTOR in s.capabilities.Elems() && "environment" in s.labels.Entries();
  }

  /* ---------- the loop ---------- */

  /** The control plane takes the answer to its own inventory job for an inventory of its environment. */
  lemma InventoryIsRecognized(
    decode: Decoder, environmentId: string, namespaces: string, stamps: Stamps, now: Time, step: StepResult)
    requires step.stepId == INVENTORY_STEP && environmentId != "" && Reported(decode, step).Some?
    ensures StepObservation(decode, Some(InventoryJob(environmentId, namespaces, stamps, now)), step)
      == [ComponentIndex.Inventory(environmentId, Reported(decode, step).value)]
  {
    var steps := InventoryJob(environmentId, namespaces, stamps, now).plan.steps.Elems();
    assert FirstStep(steps, INVENTORY_STEP) == Some(steps[0]);
  }

  /** Names as Kubernetes has them are not blank and not padded. */
  predicate IsName(s: string) { s != "" && TrimSpace(s) == s }

  predicate GoodNames(cluster: Cluster) {
    forall i :: 0 <= i < |cluster| ==>
      IsName(cluster[i].deployment.namespace) && IsName(cluster[i].deployment.name) && IsName(cluster[i].container.name)
  }

  /** All tags the registries list for the images of this cluster are allowed by the OCI Distribution Specification. */
  predicate OciTags(r: Registries, cluster: Cluster) {
    forall i :: 0 <= i < |cluster| ==> OciTagsAt(r, ParseImage(cluster[i].container.image))
  }

  predicate OciTagsAt(r: Registries, ref: ImageReference) {
    var tags := r.tags(ref.registry, ref.repository);
    tags.Ok? ==> forall t :: t in tags.value ==> IsOciTag(t)
  }

  lemma InputsOfUpdate(c: ComponentState)
    ensures var inputs := UpdateInputs(c);
      && inputs.Get("namespace") == c.namespace && inputs.Get("workload") == c.workloadName
      && inputs.Get("container") == c.container && inputs.Get("image") == c.latestImage
  {
  }

  predicate SameSites(a: Cluster, b: Cluster) {
    && |a| == |b|
    && forall k :: 0 <= k < |a| ==>
         a[k].deployment == b[k].deployment && a[k].container.name == b[k].container.name
  }

  /** Carrying out the update of the component at place i gives that place the newest image, and renames nothing. */
  lemma UpdateIsCarriedOut(r: Registries, e: string, now: Time, cluster: Cluster, i: nat)
    requires GoodNames(cluster) && i < |cluster|
    requires TrimSpace(Observed(r, e, now, cluster[i]).latestImage) != ""
    ensures var next := SetImage(cluster, UpdateInputs(Observed(r, e, now, cluster[i])));
      next.Ok? && SameSites(cluster, next.value) && next.value[i] == Updated(r, cluster[i])
  {
    var c := Observed(r, e, now, cluster[i]);
    InputsOfUpdate(c);
    assert IsAt(cluster[i], c.namespace, c.workloadName, c.container);
  }

  lemma SameSiteSameId(r: Registries, e: string, now: Time, later: Time, p: Placement, q: Placement)
    requires p.deployment == q.deployment && p.container.name == q.container.name
    ensures Observed(r, e, now, p).id == Observed(r, e, later, q).id
  {
  }

  lemma NextReport(
    r: Registries, e: string, now: Time, later: Time, cluster: Cluster, next: Cluster, i: nat, id: string)
    requires SameSites(cluster, next) && i < |cluster| && id != ""
    requires var cs := Report(r, e, now, cluster); cs[i].id == id && forall k :: i < k < |cs| ==> cs[k].id != id
    ensures LastListed(Report(r, e, later, next), id) == Some(Observed(r, e, later, next[i]))
  {
    var cs, cs' := Report(r, e, now, cluster), Report(r, e, later, next);
    forall k | 0 <= k < |cs| ensures cs'[k].id == cs[k].id {
      SameSiteSameId(r, e, now, later, cluster[k], next[k]);
    }
    LastListedAt(cs', id, i);
  }

  /** after is where an update of before should lead. */
  predicate Settles(before: ComponentState, after: ComponentState) {
    && ParseImage(after.currentImage).registry == ParseImage(before.currentImage).registry
    && ParseImage(after.currentImage).repository == ParseImage(before.currentImage).repository
    && after.currentVersion == before.latestVersion == after.latestVersion
    && !after.updateAvailable
  }

  /** The part of the loop that happens in the cluster. */
  lemma ClusterSettles(r: Registries, e: string, now: Time, later: Time, cluster: Cluster, i: nat, id: string)
    requires GoodNames(cluster) && OciTags(r, cluster) && i < |cluster| && id != ""
    requires var cs := Report(r, e, now, cluster);
      && cs[i].id == id && cs[i].updateAvailable && TrimSpace(cs[i].latestImage) != ""
      && forall k :: i < k < |cs| ==> cs[k].id != id
    ensures var c := Report(r, e, now, cluster)[i];
      var next := SetImage(cluster, UpdateInputs(c));
      && next.Ok?
      && var listed := LastListed(Report(r, e, later, next.value), id);
      && listed.Some? && Settles(c, listed.value)
  {
    var p := cluster[i];
    UpdateIsCarriedOut(r, e, now, cluster, i);
    var next := SetImage(cluster, UpdateInputs(Observed(r, e, now, p))).value;
    NextReport(r, e, now, later, cluster, next, i, id);
    PlaceSettles(r, e, now, later, p);
  }

  lemma PlaceSettles(r: Registries, e: string, now: Time, later: Time, p: Placement)
    requires OciTagsAt(r, ParseImage(p.container.image)) && Observed(r, e, now, p).updateAvailable
    ensures Settles(Observed(r, e, now, p), Observed(r, e, later, Updated(r, p)))
  {
    UpdatesAreListed(r, ParseImage(p.container.image));
    OciTagsArePlain(Observed(r, e, now, p).latestVersion);
    UpdateSettles(r, e, now, later, p);
  }

  /** The index as the next inventory leaves it. */
  function NextIndex(r: Registries, e: string, idx: Index, cluster: Cluster, now: Time): Index {
    Observe(idx, ComponentIndex.Inventory(e, Report(r, e, now, cluster)))
  }

  lemma RequestedStep(server: Server, idx: Index, componentId: string, now: Time)
    requires RequestUpdate(server, idx, componentId, now).Ok?
    ensures var id := TrimSpace(componentId);
      && id in idx && idx[id].updateAvailable && TrimSpace(idx[id].latestImage) != ""
      && RequestUpdate(server, idx, componentId, now).value.job.plan.steps == SliceOf([UpdateStep(idx[id])])
  {
  }

  /** Once the inventory lists the component without an update, a request is refused. */
  lemma SettledIsRefused(
    server: Server, r: Registries, e: string, idx: Index, cluster: Cluster, seenAt: Time, componentId: string,
    now: Time)
    requires var listed := LastListed(Report(r, e, seenAt, cluster), TrimSpace(componentId));
      listed.Some? && !listed.value.updateAvailable
    ensures var id, next := TrimSpace(componentId), NextIndex(r, e, idx, cluster, seenAt);
      && id in next && Some(next[id]) == LastListed(Report(r, e, seenAt, cluster), id)
      && RequestUpdate(server, next, componentId, now) == Err(AlreadyLatest)
  {
    ListedIsIndexed(r, e, idx, cluster, seenAt, TrimSpace(componentId));
  }

  /** From the first inventory to the refusal, for any plan with the one step of that update. */
  lemma LoopSettles(
    server: Server, r: Registries, e: string, idx: Index, cluster: Cluster, componentId: string,
    seenAt: Time, seenAgainAt: Time, later: Time, c: ComponentState, steps: seq<Step>)
    requires steps == [UpdateStep(c)]
    requires GoodNames(cluster) && OciTags(r, cluster) && TrimSpace(componentId) != ""
    requires LastListed(Report(r, e, seenAt, cluster), TrimSpace(componentId)) == Some(c)
    requires c.updateAvailable && TrimSpace(c.latestImage) != ""
    ensures var id := TrimSpace(componentId);
      && |steps| == 1 && steps[0].executor == SET_IMAGE_EXECUTOR
      && var next := SetImage(cluster, steps[0].inputs);
      && next.Ok?
      && var idx2 := NextIndex(r, e, idx, next.value, seenAgainAt);
      && id in idx2 && Settles(c, idx2[id])
      && RequestUpdate(server, idx2, componentId, later) == Err(AlreadyLatest)
  {
    var i := LastPlace(Report(r, e, seenAt, cluster), TrimSpace(componentId));
    ClusterSettles(r, e, seenAt, seenAgainAt, cluster, i, TrimSpace(componentId));
    SettledIsRefused(server, r, e, idx, SetImage(cluster, UpdateInputs(c)).value, seenAgainAt, componentId, later);
  }

  lemma ListedIsIndexed(r: Registries, e: string, idx: Index, cluster: Cluster, seenAt: Time, id: string)
    requires LastListed(Report(r, e, seenAt, cluster), id).Some?
    ensures var next := NextIndex(r, e, idx, cluster, seenAt);
      id != "" && id in next && Some(next[id]) == LastListed(Report(r, e, seenAt, cluster), id)
  {
    ObserveLookup(idx, ComponentIndex.Inventory(e, Report(r, e, seenAt, cluster)), id);
  }

  /**
   * The update loop settles: once the queued job has been carried out and the next inventory is in, the component
   * shows the version that was newest, in the same registry and repository, and a second request is refused.
   */
  lemma UpdateConverges(
    server: Server, r: Registries, e: string, idx: Index, cluster: Cluster, componentId: string,
    seenAt: Time, now: Time, seenAgainAt: Time, later: Time)
    requires GoodNames(cluster) && OciTags(r, cluster)
    requires LastListed(Report(r, e, seenAt, cluster), TrimSpace(componentId)).Some?
    requires RequestUpdate(server, NextIndex(r, e, idx, cluster, seenAt), componentId, now).Ok?
    ensures var id, idx1 := TrimSpace(componentId), NextIndex(r, e, idx, cluster, seenAt);
      var job := RequestUpdate(server, idx1, componentId, now).value.job;
      && |job.plan.steps.Elems()| == 1 && job.plan.steps.Elems()[0].executor == SET_IMAGE_EXECUTOR
      && var next := SetImage(cluster, job.plan.steps.Elems()[0].inputs);
      && next.Ok?
      && var idx2 := NextIndex(r, e, idx1, next.value, seenAgainAt);
      && id in idx1 && id in idx2 && Settles(idx1[id], idx2[id])
      && RequestUpdate(server, idx2, componentId, later) == Err(AlreadyLatest)
  {
    var idx1 := NextIndex(r, e, idx, cluster, seenAt);
    RequestedStep(server, idx1, componentId, now);
    ListedIsIndexed(r, e, idx, cluster, seenAt, TrimSpace(componentId));
    LoopSettles(server, r, e, idx1, cluster, componentId, seenAt, seenAgainAt, later, idx1[TrimSpace(componentId)],
      RequestUpdate(server, idx1, componentId, now).value.job.plan.steps.Elems());
  }

  /* ---------- the loop as the store sees it ---------- */

  /** The set-image executor called for the first step of a job. */
  function CarryOut(cluster: Cluster, job: Job): Result<Cluster, SetImageRefusal> {
    var steps := job.plan.steps.Elems();
    SetImage(cluster, if steps == [] then NilDict else steps[0].inputs)
  }

  /** The result of an inventory job that is claimed now, reporting this in a text that reads back as it. */
  ghost predicate ReportsInventory(
    decode: Decoder, st: StoreState, result: WorkResult, stamps: Stamps, e: string, report: seq<ComponentState>)
  {
    && e != "" && result.jobId in st.claimed
    && (exists namespaces, issued :: st.claimed[result.jobId] == InventoryJob(e, namespaces, stamps, issued).Clone())
    && |result.steps.Elems()| == 1
    && var step := result.steps.Elems()[0];
    && step.stepId == INVENTORY_STEP && Reported(decode, step) == Some(report)
  }

  /** Completing with such a result is one inventory of the environment. */
  lemma InventoryIsTakenIn(
    decode: Decoder, st: StoreState, result: WorkResult, stamps: Stamps, e: string, report: seq<ComponentState>)
    requires ReportsInventory(decode, st, result, stamps, e, report)
    ensures CompleteIn(decode, st, result).components == Observe(st.components, ComponentIndex.Inventory(e, report))
  {
    var namespaces, issued :| st.claimed[result.jobId] == InventoryJob(e, namespaces, stamps, issued).Clone();
    var step := result.steps.Elems()[0];
    assert result.steps.Elems() == [step];
    InventoryIsRecognized(decode, e, namespaces, stamps, issued, step);
    SameInventory(InventoryJob(e, namespaces, stamps, issued), decode, step);
    OneStepObservations(decode, Some(st.claimed[result.jobId]), step);
    ObserveAllOne(st.components, ComponentIndex.Inventory(e, report));
  }

  lemma SameInventory(job: Job, decode: Decoder, step: StepResult)
    ensures StepObservation(decode, Some(job.Clone()), step) == StepObservation(decode, Some(job), step)
  {
  }

  /** A result without components, such as that of a set-image job, leaves the index alone. */
  lemma QuietResult(decode: Decoder, st: StoreState, result: WorkResult)
    requires forall i :: !Reports(decode, result.steps.Elems(), i)
    ensures CompleteIn(decode, st, result).components == st.components
  {
    QuietSteps(decode, ClaimedJob(st, result.jobId), result.steps.Elems());
  }

  /**
   * The same loop in terms of the store: an inventory job is completed, the update is requested and its step carried
   * out, and a second inventory job is completed before anything else has changed the index.
   */
  lemma StoredUpdateConverges(
    server: Server, decode: Decoder, r: Registries, e: string, cluster: Cluster, componentId: string,
    before: StoreState, first: WorkResult, between: StoreState, second: WorkResult,
    seenAt: Time, now: Time, seenAgainAt: Time, later: Time)
    requires GoodNames(cluster) && OciTags(r, cluster)
    requires LastListed(Report(r, e, seenAt, cluster), TrimSpace(componentId)).Some?
    requires ReportsInventory(decode, before, first, server.stamps, e, Report(r, e, seenAt, cluster))
    requires between.components == CompleteIn(decode, before, first).components
    requires RequestUpdate(server, between.components, componentId, now).Ok?
    requires var next := CarryOut(cluster, RequestUpdate(server, between.components, componentId, now).value.job);
      next.Ok? ==> ReportsInventory(decode, between, second, server.stamps, e, Report(r, e, seenAgainAt, next.value))
    ensures var id, idx1 := TrimSpace(componentId), between.components;
      var idx2 := CompleteIn(decode, between, second).components;
      && CarryOut(cluster, RequestUpdate(server, idx1, componentId, now).value.job).Ok?
      && id in idx1 && id in idx2 && Settles(idx1[id], idx2[id])
      && RequestUpdate(server, idx2, componentId, later) == Err(AlreadyLatest)
  {
    InventoryIsTakenIn(decode, before, first, server.stamps, e, Report(r, e, seenAt, cluster));
    UpdateConverges(server, r, e, before.components, cluster, componentId, seenAt, now, seenAgainAt, later);
    var next := CarryOut(cluster, RequestUpdate(server, between.components, componentId, now).value.job).value;
    InventoryIsTakenIn(decode, between, second, server.stamps, e, Report(r, e, seenAgainAt, next));
  }
}
