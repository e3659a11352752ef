/** Image references: parsing, printing with another tag, and the round trips between the two. */
module Images {
  import opened Prelude
  import opened Text

  const DOCKER_HUB := "registry-1.docker.io"

  datatype ImageReference = ImageReference(registry: string, repository: string, tag: string, digest: string) {
    function Version(): string {
      if tag != "" then tag else if digest != "" then digest else "unknown"
    }

    function WithTag(newTag: string): string {
      if registry == "" then Glue(repository, ':', newTag) else Glue(Glue(registry, '/', repository), ':', newTag)
    }
  }

  /** What stands before and after the first "@"; nothing comes after when there is none. */
  function CutDigest(s: string): (string, string) {
    match CutFirst(s, '@')
    case None => (s, "")
    case Some(parts) => parts
  }

  /** The reference without its tag, and the tag: what follows the last ":" of the last path element. */
  function CutTag(s: string): (string, string) {
    match CutLast(s, '/')
    case None => CutName(s)
    case Some((dir, lastPart)) => (Glue(dir, '/', CutName(lastPart).0), CutName(lastPart).1)
  }

  function CutName(lastPart: string): (string, string) {
    match CutLast(lastPart, ':')
    case None => (lastPart, "")
    case Some(parts) => parts
  }

  /** Only such a first path element is taken for a registry host. */
  predicate IsRegistryHost(first: string) { '.' in first || ':' in first || first == "localhost" }

  function SplitRegistry(path: string): (string, string) {
    match CutFirst(path, '/')
    case Some((first, rest)) => if IsRegistryHost(first) then (first, rest) else (DOCKER_HUB, path)
    case None => (DOCKER_HUB, path)
  }

  function ParseImage(raw: string): ImageReference { ParseTrimmed(TrimSpace(raw)) }

  function ParseTrimmed(s: string): ImageReference {
    var (withoutDigest, digest) := CutDigest(s);
    var (path, tag) := CutTag(withoutDigest);
    var (registry, repository) := SplitRegistry(path);
    ImageReference(registry, repository, tag, digest)
  }

  /** What a registry of the OCI Distribution Specification ("Pulling manifests") accepts as a tag. */
  predicate IsOciTag(t: string) {
    && 1 <= |t| <= 128 && IsWordChar(t[0])
    && forall i :: 1 <= i < |t| ==> IsWordChar(t[i]) || t[i] == '.' || t[i] == '-'
  }

  predicate IsWordChar(c: char) { 'a' <= c <= 'z' || 'A' <= c <= 'Z' || '0' <= c <= '9' || c == '_' }

  /** Exactly what a tag must avoid to survive being printed into a reference. */
  predicate IsPlainTag(t: string) { '/' !in t && ':' !in t && '@' !in t && (t != "" ==> !IsSpace(t[|t| - 1])) }

  lemma OciTagsArePlain(t: string)
    requires IsOciTag(t)
    ensures IsPlainTag(t) && t != ""
  {
  }

  lemma CutTagAt(p: string, t: string)
    requires '/' !in t && ':' !in t
    ensures CutTag(Glue(p, ':', t)) == (p, t)
  {
    match CutLast(p, '/') {
      case None =>
        CutLastAbsent(Glue(p, ':', t), '/');
        CutLastAt(p, ':', t);
      case Some((dir, lastPart)) =>
        GlueInMiddle(dir, '/', lastPart, ':', t);
        CutLastAt(dir, '/', Glue(lastPart, ':', t));
        CutLastAt(lastPart, ':', t);
    }
  }

  lemma DockerHubIsHost()
    ensures '/' !in DOCKER_HUB && '@' !in DOCKER_HUB && IsRegistryHost(DOCKER_HUB) && !IsSpace(DOCKER_HUB[0])
  {
    assert DOCKER_HUB[10] == '.';
  }

  lemma SplitRegistryParts(path: string)
    requires '@' !in path && (path != "" ==> !IsSpace(path[0]))
    ensures var r := SplitRegistry(path);
      && IsRegistryHost(r.0) && '/' !in r.0 && !IsSpace(r.0[0]) && '@' !in r.0 && '@' !in r.1
  {
    DockerHubIsHost();
  }

  lemma CutTagParts(s: string)
    requires '@' !in s && (s != "" ==> !IsSpace(s[0]))
    ensures var (path, tag) := CutTag(s);
      && '@' !in path && '@' !in tag && '/' !in tag && ':' !in tag
      && (path != "" ==> !IsSpace(path[0]))
      && (tag != "" ==> s[|s| - 1] == tag[|tag| - 1])
  {
    var lastPart := match CutLast(s, '/') case None => s case Some(parts) => parts.1;
    assert forall c :: c in lastPart ==> c in s;
    match CutLast(lastPart, ':') {
      case None =>
      case Some((name, tag)) =>
        assert forall c :: c in name || c in tag ==> c in lastPart;
    }
  }

  predicate IsParsed(ref: ImageReference) {
    && '/' !in ref.registry && IsRegistryHost(ref.registry) && !IsSpace(ref.registry[0])
    && '@' !in ref.registry && '@' !in ref.repository
    && '/' !in ref.tag && ':' !in ref.tag && '@' !in ref.tag
  }

  /** What holds of every parsed reference. */
  lemma ParsedParts(raw: string)
    ensures IsParsed(ParseImage(raw))
  {
    var a, b := TrimSpaceParts(raw);
    var w := CutDigest(TrimSpace(raw)).0;
    CutTagParts(w);
    SplitRegistryParts(CutTag(w).0);
  }

  /* ---------- round trips ---------- */

  lemma GlueTrimmed(a: string, c: char, b: string)
    requires a != "" && !IsSpace(a[0]) && !IsSpace(c) && (b != "" ==> !IsSpace(b[|b| - 1]))
    ensures TrimSpace(Glue(a, c, b)) == Glue(a, c, b)
  {
    var s := Glue(a, c, b);
    assert s[0] == a[0];
    assert s[|s| - 1] == if b == "" then c else b[|b| - 1];
    TrimSpaceOfTrimmed(s);
  }

  lemma ParsePrinted(ref: ImageReference, t: string)
    requires IsParsed(ref) && '/' !in t && ':' !in t && '@' !in t
    ensures ParseTrimmed(ref.WithTag(t)) == ref.(tag := t, digest := "")
  {
    var path := Glue(ref.registry, '/', ref.repository);
    assert '@' !in Glue(path, ':', t);
    CutTagAt(path, t);
    CutFirstAt(ref.registry, '/', ref.repository);
  }

  lemma ParsePrintedDigest(ref: ImageReference, t: string, d: string)
    requires IsParsed(ref) && '/' !in t && ':' !in t && '@' !in t
    ensures ParseTrimmed(Glue(ref.WithTag(t), '@', d)) == ref.(tag := t, digest := d)
  {
    var path := Glue(ref.registry, '/', ref.repository);
    CutFirstAt(Glue(path, ':', t), '@', d);
    CutTagAt(path, t);
    CutFirstAt(ref.registry, '/', ref.repository);
  }

  lemma PrintedIsTrimmed(ref: ImageReference, t: string)
    requires IsParsed(ref) && IsPlainTag(t)
    ensures TrimSpace(ref.WithTag(t)) == ref.WithTag(t)
  {
    assert Glue(ref.registry, '/', ref.repository)[0] == ref.registry[0];
    GlueTrimmed(Glue(ref.registry, '/', ref.repository), ':', t);
  }

  /** Printing any parsed reference with a plain tag and parsing it again gives that tag and nothing else new. */
  lemma WithTagRoundTrip(raw: string, t: string)
    requires IsPlainTag(t)
    ensures var ref := ParseImage(raw);
      && TrimSpace(ref.WithTag(t)) == ref.WithTag(t)
      && ParseImage(ref.WithTag(t)) == ref.(tag := t, digest := "")
  {
    ParsedParts(raw);
    PrintedIsTrimmed(ParseImage(raw), t);
    ParsePrinted(ParseImage(raw), t);
  }

  /** The same with a digest behind the tag: here only the digest must not end in white space. */
  lemma WithDigestRoundTrip(raw: string, t: string, d: string)
    requires '/' !in t && ':' !in t && '@' !in t && (d != "" ==> !IsSpace(d[|d| - 1]))
    ensures var ref := ParseImage(raw);
      ParseImage(Glue(ref.WithTag(t), '@', d)) == ref.(tag := t, digest := d)
  {
    var ref := ParseImage(raw);
    ParsedParts(raw);
    assert ref.WithTag(t) != "" && ref.WithTag(t)[0] == ref.registry[0];
    GlueTrimmed(ref.WithTag(t), '@', d);
    ParsePrintedDigest(ref, t, d);
  }

  lemma TagEndsTrimmed(raw: string)
    requires '@' !in raw
    ensures var t := ParseImage(raw).tag; t != "" ==> !IsSpace(t[|t| - 1])
  {
    var a, b := TrimSpaceParts(raw);
    assert forall c :: c in TrimSpace(raw) ==> c in raw;
  }

  /** The tag comes back exactly when it is plain. */
  lemma TagComesBackIff(raw: string, t: string)
    ensures ParseImage(ParseImage(raw).WithTag(t)).tag == t <==> IsPlainTag(t)
  {
    var ref := ParseImage(raw);
    ParsedParts(raw);
    ParsedParts(ref.WithTag(t));
    if IsPlainTag(t) {
      WithTagRoundTrip(raw, t);
    } else if '@' !in t {
      NoAtInPrinted(ref, t);
      TagEndsTrimmed(ref.WithTag(t));
    }
  }

  lemma NoAtInPrinted(ref: ImageReference, t: string)
    requires IsParsed(ref) && '@' !in t
    ensures '@' !in ref.WithTag(t)
  {
  }

  /* ---------- what parsing yields, in plain words ---------- */

  /** A path, and perhaps a tag and a digest behind it. */
  function ImageText(path: string, tag: Option<string>, digest: Option<string>): string {
    var tagged := if tag.Some? then Glue(path, ':', tag.value) else path;
    if digest.Some? then Glue(tagged, '@', digest.value) else tagged
  }

  function TextOf(part: Option<string>): string { if part.Some? then part.value else "" }

  /** No "@" in the path, a tag without separators, or no ":" behind the last slash of the path when there is no tag. */
  predicate AreParts(path: string, tag: Option<string>) {
    && '@' !in path
    && (tag.None? ==> NoColonAtEnd(path))
    && (tag.Some? ==> '/' !in tag.value && ':' !in tag.value && '@' !in tag.value)
  }

  predicate NoColonAtEnd(path: string) {
    forall i :: 0 <= i < |path| && path[i] == ':' ==> exists j :: i < j < |path| && path[j] == '/'
  }

  lemma UntaggedPath(path: string)
    requires NoColonAtEnd(path)
    ensures CutTag(path) == (path, "")
  {
    match CutLast(path, '/') {
      case None =>
        assert ':' !in path;
      case Some((dir, lastPart)) =>
        forall k | 0 <= k < |lastPart| ensures lastPart[k] != ':' {
          assert path[|dir| + 1 + k] == lastPart[k];
          assert forall j :: |dir| + 1 + k < j < |path| ==> path[j] == lastPart[j - |dir| - 1];
        }
        assert ':' !in lastPart;
        CutLastAbsent(lastPart, ':');
    }
  }

  lemma TagOfParts(path: string, tag: Option<string>)
    requires AreParts(path, tag)
    ensures var tagged := if tag.Some? then Glue(path, ':', tag.value) else path;
      CutTag(tagged) == (path, TextOf(tag)) && '@' !in tagged
  {
    if tag.Some? {
      CutTagAt(path, tag.value);
    } else {
      UntaggedPath(path);
    }
  }

  lemma PartsOfImage(raw: string, path: string, tag: Option<string>, digest: Option<string>)
    requires AreParts(path, tag) && TrimSpace(raw) == ImageText(path, tag, digest)
    ensures var (registry, repository) := SplitRegistry(path);
      ParseImage(raw) == ImageReference(registry, repository, TextOf(tag), TextOf(digest))
  {
    var tagged := if tag.Some? then Glue(path, ':', tag.value) else path;
    TagOfParts(path, tag);
    if digest.Some? {
      CutFirstAt(tagged, '@', digest.value);
    }
  }

  /**
   * With a first path element that holds a dot or a colon, or is "localhost", that element is the registry and what
   * follows its slash the repository; with any other, the whole path is a repository of Docker Hub.
   */
  lemma ParseWithSlash(raw: string, first: string, rest: string, tag: Option<string>, digest: Option<string>)
    requires '/' !in first && AreParts(Glue(first, '/', rest), tag)
    requires TrimSpace(raw) == ImageText(Glue(first, '/', rest), tag, digest)
    ensures ParseImage(raw) ==
      if '.' in first || ':' in first || first == "localhost" then
        ImageReference(first, rest, TextOf(tag), TextOf(digest))
      else ImageReference("registry-1.docker.io", Glue(first, '/', rest), TextOf(tag), TextOf(digest))
  {
    PartsOfImage(raw, Glue(first, '/', rest), tag, digest);
    CutFirstAt(first, '/', rest);
  }

  /** So is a path without a slash. */
  lemma ParseWithoutSlash(raw: string, path: string, tag: Option<string>, digest: Option<string>)
    requires '/' !in path && AreParts(path, tag) && TrimSpace(raw) == ImageText(path, tag, digest)
    ensures ParseImage(raw) == ImageReference("registry-1.docker.io", path, TextOf(tag), TextOf(digest))
  {
    PartsOfImage(raw, path, tag, digest);
  }

  /** Every trimmed text is made of such parts, so the two lemmas cover all raw texts. */
  lemma EveryImageHasParts(raw: string) returns (path: string, tag: Option<string>, digest: Option<string>)
    ensures AreParts(path, tag) && TrimSpace(raw) == ImageText(path, tag, digest)
  {
    var s := TrimSpace(raw);
    var front := CutDigest(s).0;
    digest := match CutFirst(s, '@') case None => None case Some(parts) => Some(parts.1);
    path, tag := TaggedParts(front);
  }

  lemma TaggedParts(s: string) returns (path: string, tag: Option<string>)
    requires '@' !in s
    ensures AreParts(path, tag) && s == if tag.Some? then Glue(path, ':', tag.value) else path
  {
    match CutLast(s, '/') {
      case None => path, tag := PartsOfName("", s);
      case Some((dir, lastPart)) => path, tag := PartsOfName(dir + ['/'], lastPart);
    }
  }

  lemma PartsOfName(dir: string, lastPart: string) returns (path: string, tag: Option<string>)
    requires '@' !in dir + lastPart && '/' !in lastPart && (dir == "" || dir[|dir| - 1] == '/')
    ensures AreParts(path, tag) && dir + lastPart == if tag.Some? then Glue(path, ':', tag.value) else path
  {
    var s := dir + lastPart;
    match CutLast(lastPart, ':') {
      case None =>
        path, tag := s, None;
        ColonsInFront(dir, lastPart);
      case Some((name, text)) =>
        path, tag := dir + name, Some(text);
        assert s == Glue(path, ':', text);
        assert forall c :: c in text ==> c in lastPart;
        assert forall c :: c in path || c in text ==> c in s;
    }
  }

  lemma ColonsInFront(dir: string, lastPart: string)
    requires dir == "" || dir[|dir| - 1] == '/'
    requires ':' !in lastPart
    ensures NoColonAtEnd(dir + lastPart)
  {
    var s := dir + lastPart;
    forall i | 0 <= i < |s| && s[i] == ':' ensures exists j :: i < j < |s| && s[j] == '/' {
      assert i < |dir| && s[|dir| - 1] == '/';
    }
  }
}
