/**
 * Choosing the newest image tag: the tag parser, the tag order and the "keep the current tag" rule.
 */
module Tags {
  import opened Prelude
  import opened Text
  import opened Sorting

  datatype Candidate = Candidate(raw: string, semver: bool, major: int, minor: int, patch: int, sequence: string) {
    predicate HasReleaseSequence() { semver && sequence != "" }
  }

  /** The largest Go int on a 64-bit platform, which Atoi returns for anything larger. */
  const MAX_INT: int := 0x7FFF_FFFF_FFFF_FFFF

  /* ---------- decimal numerals ---------- */

  function Digit(c: char): nat
    requires IsDigit(c)
  {
    c as int - '0' as int
  }

  function Num(s: string): nat
    requires AllDigits(s)
  {
    if s == "" then 0 else 10 * Num(s[..|s| - 1]) + Digit(s[|s| - 1])
  }

  function Dec(n: nat): (s: string)
    ensures s != "" && AllDigits(s) && Num(s) == n
  {
    var d := ('0' as int + n % 10) as char;
    if n < 10 then [d]
    else
      var front := Dec(n / 10);
      assert (front + [d])[..|front|] == front;
      front + [d]
  }

  /** strconv.Atoi with its error ignored. */
  function Atoi(s: string): int
    requires AllDigits(s)
  {
    if Num(s) > MAX_INT then MAX_INT else Num(s)
  }

  lemma {:induction false} LessLastDigit(a: string, x: char, b: string, y: char)
    requires |a| == |b|
    ensures Less(a + [x], b + [y]) <==> Less(a, b) || (a == b && x < y)
  {
    if a != "" {
      assert (a + [x])[1..] == a[1..] + [x] && (b + [y])[1..] == b[1..] + [y];
      assert a == [a[0]] + a[1..] && b == [b[0]] + b[1..];
      LessLastDigit(a[1..], x, b[1..], y);
    }
  }

  /** Byte order on digit strings of equal length is numeric order. */
  lemma {:induction false} DigitOrderIsNumericOrder(a: string, b: string)
    requires |a| == |b| && AllDigits(a) && AllDigits(b)
    ensures Less(a, b) <==> Num(a) < Num(b)
    ensures a == b <==> Num(a) == Num(b)
  {
    if a != "" {
      var n := |a| - 1;
      assert a == a[..n] + [a[n]] && b == b[..n] + [b[n]];
      LessLastDigit(a[..n], a[n], b[..n], b[n]);
      DigitOrderIsNumericOrder(a[..n], b[..n]);
    }
  }

  /* ---------- the regular expression ^v?([0-9]+)\.([0-9]+)\.([0-9]+) ---------- */

  predicate NoDigitFirst(s: string) { s != "" ==> !IsDigit(s[0]) }

  /** The longest run of digits at the front, and what follows it. */
  function TakeDigits(s: string): (r: (string, string))
    ensures s == r.0 + r.1 && AllDigits(r.0) && NoDigitFirst(r.1)
  {
    if s == "" || !IsDigit(s[0]) then ("", s)
    else
      var (digits, rest) := TakeDigits(s[1..]);
      assert s == [s[0]] + s[1..];
      ([s[0]] + digits, rest)
  }

  lemma {:induction false} TakeDigitsOf(digits: string, rest: string)
    requires AllDigits(digits) && NoDigitFirst(rest)
    ensures TakeDigits(digits + rest) == (digits, rest)
  {
    if digits == "" {
      assert digits + rest == rest;
    } else {
      assert (digits + rest)[1..] == digits[1..] + rest;
      TakeDigitsOf(digits[1..], rest);
      assert digits == [digits[0]] + digits[1..];
    }
  }

  /** ([0-9]+)\. at the front: the captured number and what follows the dot. */
  function TakeNumberDot(s: string): (r: Option<(string, string)>)
    ensures r.Some? ==> s == Glue(r.value.0, '.', r.value.1) && AllDigits(r.value.0) && r.value.0 != ""
  {
    var (digits, rest) := TakeDigits(s);
    if digits == "" || rest == "" || rest[0] != '.' then None else
    assert rest == "." + rest[1..];
    Some((digits, rest[1..]))
  }

  lemma TakeNumberDotOf(digits: string, rest: string)
    requires AllDigits(digits) && digits != ""
    ensures TakeNumberDot(Glue(digits, '.', rest)) == Some((digits, rest))
  {
    TakeDigitsOf(digits, ['.'] + rest);
    assert Glue(digits, '.', rest) == digits + (['.'] + rest);
    assert (['.'] + rest)[1..] == rest;
  }

  datatype Numbers = Numbers(major: string, minor: string, patch: string)

  predicate IsNumbers(n: Numbers) {
    && n.major != "" && n.minor != "" && n.patch != ""
    && AllDigits(n.major) && AllDigits(n.minor) && AllDigits(n.patch)
  }

  function Prefix(v: bool): string { if v then "v" else "" }

  /** The text of the shape the expression describes: an optional v, three dotted numbers, and more. */
  function SemverText(v: bool, n: Numbers, rest: string): string {
    Prefix(v) + Glue(n.major, '.', Glue(n.minor, '.', n.patch + rest))
  }

  function SemverMatch(tag: string): (r: Option<Numbers>)
    ensures r.Some? ==> IsNumbers(r.value)
  {
    var s := if tag != "" && tag[0] == 'v' then tag[1..] else tag;
    match TakeNumberDot(s)
    case None => None
    case Some((major, t)) =>
      match TakeNumberDot(t)
      case None => None
      case Some((minor, u)) =>
        var patch := TakeDigits(u).0;
        if patch == "" then None else Some(Numbers(major, minor, patch))
  }

  /** The match captures three maximal digit runs ... */
  lemma SemverMatchSound(tag: string) returns (v: bool, rest: string)
    requires SemverMatch(tag).Some?
    ensures tag == SemverText(v, SemverMatch(tag).value, rest) && NoDigitFirst(rest)
  {
    v := tag[0] == 'v';
    var s := if v then tag[1..] else tag;
    var t := TakeNumberDot(s).value.1;
    var u := TakeNumberDot(t).value.1;
    rest := TakeDigits(u).1;
    assert tag == Prefix(v) + s;
  }

  /** ... and every text of that shape is matched with those captures. */
  lemma SemverMatchComplete(v: bool, n: Numbers, rest: string)
    requires IsNumbers(n) && NoDigitFirst(rest)
    ensures SemverMatch(SemverText(v, n, rest)) == Some(n)
  {
    var t := Glue(n.minor, '.', n.patch + rest);
    var s := Glue(n.major, '.', t);
    TakeDigitsOf(n.patch, rest);
    TakeNumberDotOf(n.minor, n.patch + rest);
    TakeNumberDotOf(n.major, t);
    assert IsDigit(n.major[0]);
    assert s[0] == n.major[0];
    if v {
      assert ("v" + s)[1..] == s;
    } else {
      assert "" + s == s;
    }
  }

  /* ---------- the regular expression (?:^|[-_.])([0-9]{14})(?:$|[-_.]) ---------- */

  const SEQUENCE_LENGTH := 14

  predicate IsDelimiter(c: char) { c == '-' || c == '_' || c == '.' }

  /** Fourteen digits at i, with a delimiter or an end of the text on both sides. */
  predicate RunAt(tag: string, i: int) {
    && 0 <= i && i + SEQUENCE_LENGTH <= |tag|
    && AllDigits(tag[i..i + SEQUENCE_LENGTH])
    && (i == 0 || IsDelimiter(tag[i - 1]))
    && (i + SEQUENCE_LENGTH == |tag| || IsDelimiter(tag[i + SEQUENCE_LENGTH]))
  }

  function FindRun(tag: string, from: nat): (r: string)
    requires from <= |tag|
    ensures r == "" || (|r| == SEQUENCE_LENGTH && AllDigits(r))
    decreases |tag| - from
  {
    if from == |tag| then "" else if RunAt(tag, from) then tag[from..from + SEQUENCE_LENGTH] else FindRun(tag, from + 1)
  }

  /** The leftmost match, or "". */
  function Sequence(tag: string): (r: string)
    ensures r == "" || (|r| == SEQUENCE_LENGTH && AllDigits(r))
  {
    FindRun(tag, 0)
  }

  ghost predicate NoRun(tag: string, from: int, to: int) { forall i :: from <= i < to ==> !RunAt(tag, i) }

  /** The search returns the leftmost delimited run, and "" only when there is none. */
  lemma {:induction false} FindRunIsLeftmost(tag: string, from: nat) returns (i: nat)
    requires from <= |tag|
    ensures from <= i <= |tag| && NoRun(tag, from, i)
    ensures if FindRun(tag, from) == "" then i == |tag|
      else RunAt(tag, i) && FindRun(tag, from) == tag[i..i + SEQUENCE_LENGTH]
    decreases |tag| - from
  {
    i := from;
    if from < |tag| && !RunAt(tag, from) {
      i := FindRunIsLeftmost(tag, from + 1);
    }
  }

  /** The search looks at the delimited pieces one after the other. */
  lemma SequenceOfPieces(a: string, d: char, b: string)
    requires IsDelimiter(d)
    ensures Sequence(Glue(a, d, b)) == if Sequence(a) != "" then Sequence(a) else Sequence(b)
  {
    SequenceFrontPiece(a, d, b, 0);
  }

  lemma {:induction false} SequenceFrontPiece(a: string, d: char, b: string, i: nat)
    requires IsDelimiter(d) && i <= |a|
    ensures FindRun(Glue(a, d, b), i) == if FindRun(a, i) != "" then FindRun(a, i) else Sequence(b)
    decreases |a| - i
  {
    var s := Glue(a, d, b);
    assert s[|a|] == d;
    if i + SEQUENCE_LENGTH <= |a| {
      assert s[i..i + SEQUENCE_LENGTH] == a[i..i + SEQUENCE_LENGTH];
    } else if i + SEQUENCE_LENGTH <= |s| {
      assert s[i..i + SEQUENCE_LENGTH][|a| - i] == d;
    }
    assert RunAt(s, i) == RunAt(a, i);
    if i < |a| {
      SequenceFrontPiece(a, d, b, i + 1);
    } else {
      SequenceBackPiece(a, d, b, 0);
    }
  }

  lemma RunInBackPiece(a: string, d: char, b: string, j: nat)
    requires IsDelimiter(d) && j <= |b|
    ensures RunAt(Glue(a, d, b), |a| + 1 + j) == RunAt(b, j)
    ensures RunAt(b, j) ==> Glue(a, d, b)[|a| + 1 + j..|a| + 1 + j + SEQUENCE_LENGTH] == b[j..j + SEQUENCE_LENGTH]
  {
    var s, k := Glue(a, d, b), |a| + 1 + j;
    assert s[|a|] == d && s[|a| + 1..] == b;
    assert s[k - 1] == if j == 0 then d else b[j - 1];
    if j + SEQUENCE_LENGTH <= |b| {
      assert s[k..k + SEQUENCE_LENGTH] == b[j..j + SEQUENCE_LENGTH];
    }
  }

  lemma {:induction false} SequenceBackPiece(a: string, d: char, b: string, j: nat)
    requires IsDelimiter(d) && j <= |b|
    ensures FindRun(Glue(a, d, b), |a| + 1 + j) == FindRun(b, j)
    decreases |b| - j
  {
    if j < |b| {
      RunInBackPiece(a, d, b, j);
      SequenceBackPiece(a, d, b, j + 1);
    }
  }

  predicate NoDelimiter(s: string) { forall i :: 0 <= i < |s| ==> !IsDelimiter(s[i]) }

  /** A piece without delimiters is a run only as a whole. */
  lemma SequenceOfPiece(s: string)
    requires NoDelimiter(s)
    ensures Sequence(s) == if |s| == SEQUENCE_LENGTH && AllDigits(s) then s else ""
  {
    var i := FindRunIsLeftmost(s, 0);
    if |s| == SEQUENCE_LENGTH {
      assert s[0..SEQUENCE_LENGTH] == s;
      assert AllDigits(s) ==> RunAt(s, 0);
    }
  }

  /* ---------- parseTagCandidate ---------- */

  function Parse(tag: string): (c: Candidate)
    ensures c.raw == tag
  {
    match SemverMatch(tag)
    case None => Candidate(tag, false, 0, 0, 0, "")
    case Some(n) =>
      Candidate(tag, true, Atoi(n.major), Atoi(n.minor), Atoi(n.patch), Sequence(tag))
  }

  /** "vM.m.p-env-SEQ-hash", the form of the program's own release tags; the v is optional. */
  function ReleaseTag(v: bool, n: Numbers, env: string, seq14: string, hash: string): string {
    SemverText(v, n, "-" + Glue(env, '-', Glue(seq14, '-', hash)))
  }

  function Run14(s: string): string { if |s| == SEQUENCE_LENGTH then s else "" }

  function OrElse(a: string, b: string): string { if a != "" then a else b }

  /** Cutting a release tag at its delimiters. */
  lemma ReleaseTagPieces(v: bool, n: Numbers, tail: string)
    ensures SemverText(v, n, "-" + tail) == Glue(Prefix(v) + n.major, '.', Glue(n.minor, '.', Glue(n.patch, '-', tail)))
  {
    assert n.patch + ("-" + tail) == Glue(n.patch, '-', tail);
  }

  lemma ParseSemverText(v: bool, n: Numbers, rest: string)
    requires IsNumbers(n) && NoDigitFirst(rest)
    ensures var tag := SemverText(v, n, rest);
      Parse(tag) == Candidate(tag, true, Atoi(n.major), Atoi(n.minor), Atoi(n.patch), Sequence(tag))
  {
    SemverMatchComplete(v, n, rest);
  }

  lemma SequenceOfThreeNumbers(v: bool, n: Numbers, d: char, tail: string)
    requires IsNumbers(n) && IsDelimiter(d)
    ensures Sequence(Glue(Prefix(v) + n.major, '.', Glue(n.minor, '.', Glue(n.patch, d, tail))))
         == OrElse(if v then "" else Run14(n.major), OrElse(Run14(n.minor), OrElse(Run14(n.patch), Sequence(tail))))
  {
    SequenceOfPieces(Prefix(v) + n.major, '.', Glue(n.minor, '.', Glue(n.patch, d, tail)));
    SequenceOfPieces(n.minor, '.', Glue(n.patch, d, tail));
    SequenceOfPieces(n.patch, d, tail);
    SequenceOfNumber(v, n.major);
    SequenceOfNumber(false, n.minor);
    SequenceOfNumber(false, n.patch);
    assert Prefix(false) + n.minor == n.minor && Prefix(false) + n.patch == n.patch;
  }

  /** What parsing a release tag yields, for every choice of its parts. */
  lemma ParseReleaseTag(v: bool, n: Numbers, env: string, seq14: string, hash: string)
    requires IsNumbers(n) && |seq14| == SEQUENCE_LENGTH && AllDigits(seq14)
    ensures var tag := ReleaseTag(v, n, env, seq14, hash);
      Parse(tag) == Candidate(tag, true, Atoi(n.major), Atoi(n.minor), Atoi(n.patch),
        OrElse(if v then "" else Run14(n.major),
          OrElse(Run14(n.minor), OrElse(Run14(n.patch), OrElse(Sequence(env), seq14)))))
  {
    var last := Glue(seq14, '-', hash);
    var tail := Glue(env, '-', last);
    ParseSemverText(v, n, "-" + tail);
    ReleaseTagPieces(v, n, tail);
    SequenceOfThreeNumbers(v, n, '-', tail);
    SequenceOfPieces(env, '-', last);
    SequenceOfPieces(seq14, '-', hash);
    SequenceOfNumber(false, seq14);
    assert Prefix(false) + seq14 == seq14;
  }

  lemma SequenceOfNumber(v: bool, digits: string)
    requires AllDigits(digits)
    ensures Sequence(Prefix(v) + digits) == if v then "" else Run14(digits)
  {
    var s := Prefix(v) + digits;
    assert v ==> s[0] == 'v';
    assert !v ==> s == digits;
    SequenceOfPiece(s);
  }

  /** Parsing gives back every field of a release tag whose other parts hold no run of their own. */
  lemma ReleaseTagRoundTrip(v: bool, major: nat, minor: nat, patch: nat, env: string, seq14: string, hash: string)
    requires |seq14| == SEQUENCE_LENGTH && AllDigits(seq14)
    requires major <= MAX_INT && minor <= MAX_INT && patch <= MAX_INT
    requires v || |Dec(major)| != SEQUENCE_LENGTH
    requires |Dec(minor)| != SEQUENCE_LENGTH && |Dec(patch)| != SEQUENCE_LENGTH
    requires NoRun(env, 0, |env|)
    ensures var tag := ReleaseTag(v, Numbers(Dec(major), Dec(minor), Dec(patch)), env, seq14, hash);
      Parse(tag) == Candidate(tag, true, major, minor, patch, seq14)
  {
    ParseReleaseTag(v, Numbers(Dec(major), Dec(minor), Dec(patch)), env, seq14, hash);
    var i := FindRunIsLeftmost(env, 0);
  }

  /* ---------- compareTagCandidate ---------- */

  function CompareInts(a: int, b: int): int { if a < b then -1 else if a > b then 1 else 0 }

  function Then(first: int, second: int): int { if first != 0 then first else second }

  /** The part of the comparison that sameTagRank looks at. */
  function CompareRank(a: Candidate, b: Candidate): int {
    if a.semver != b.semver then (if a.semver then 1 else -1)
    else
      Then(CompareInts(a.major, b.major),
        Then(CompareInts(a.minor, b.minor),
          Then(CompareInts(a.patch, b.patch), CompareStrings(a.sequence, b.sequence))))
  }

  function CompareTags(a: Candidate, b: Candidate): int {
    Then(CompareRank(a, b), CompareStrings(a.raw, b.raw))
  }

  predicate SameRank(a: Candidate, b: Candidate) {
    && a.semver == b.semver && a.major == b.major && a.minor == b.minor && a.patch == b.patch
    && a.sequence == b.sequence
  }

  lemma CompareRankOrder(a: Candidate, b: Candidate, c: Candidate)
    ensures CompareRank(a, b) == -CompareRank(b, a)
    ensures CompareRank(a, b) == 0 <==> SameRank(a, b)
    ensures CompareRank(a, b) <= 0 && CompareRank(b, c) <= 0 ==> CompareRank(a, c) <= 0
    ensures CompareRank(a, b) <= 0 && CompareRank(b, c) <= 0 ==>
              CompareRank(a, c) != 0 || (CompareRank(a, b) == 0 && CompareRank(b, c) == 0)
  {
    CompareStringsOrder(a.sequence, b.sequence, c.sequence);
    CompareStringsOrder(b.sequence, c.sequence, a.sequence);
    CompareStringsOrder(a.sequence, c.sequence, b.sequence);
  }

  /** The comparison is a strict total order: antisymmetric, transitive, and zero only for equal candidates. */
  lemma CompareTagsOrder(a: Candidate, b: Candidate, c: Candidate)
    ensures CompareTags(a, b) == -CompareTags(b, a)
    ensures CompareTags(a, b) == 0 <==> a == b
    ensures CompareTags(a, b) <= 0 && CompareTags(b, c) <= 0 ==> CompareTags(a, c) <= 0
  {
    CompareRankOrder(a, b, c);
    CompareStringsOrder(a.raw, b.raw, c.raw);
    CompareStringsOrder(b.raw, c.raw, a.raw);
    CompareStringsOrder(a.raw, c.raw, b.raw);
  }

  lemma CompareTagsPreorder()
    ensures Preorder(CompareTags)
  {
    forall a, b ensures CompareTags(a, b) < 0 <==> CompareTags(b, a) > 0 {
      CompareTagsOrder(a, b, a);
    }
    forall a, b, c | CompareTags(a, b) <= 0 && CompareTags(b, c) <= 0 ensures CompareTags(a, c) <= 0 {
      CompareTagsOrder(a, b, c);
    }
  }

  /** On parsed tags only equal texts compare as zero. */
  lemma ParsedTagsDiffer(s: string, t: string)
    ensures CompareTags(Parse(s), Parse(t)) == 0 <==> s == t
  {
    CompareTagsOrder(Parse(s), Parse(t), Parse(s));
  }

  /* ---------- precedence of Semantic Versioning 2.0.0, section 11 ---------- */

  datatype Triple = Triple(major: nat, minor: nat, patch: nat) {
    /** What Atoi makes of the three numbers. */
    function Clamped(): Triple { Triple(Clamp(major), Clamp(minor), Clamp(patch)) }

    function Texts(): Numbers { Numbers(Dec(major), Dec(minor), Dec(patch)) }
  }

  function Clamp(n: nat): nat { if n > MAX_INT then MAX_INT else n }

  predicate TripleLess(a: Triple, b: Triple) {
    a.major < b.major || (a.major == b.major && (a.minor < b.minor || (a.minor == b.minor && a.patch < b.patch)))
  }

  function Release(v: bool, t: Triple): string { SemverText(v, t.Texts(), "") }

  function CandidateOf(tag: string, t: Triple): Candidate {
    Candidate(tag, true, t.Clamped().major, t.Clamped().minor, t.Clamped().patch, Sequence(tag))
  }

  lemma ParseRelease(v: bool, t: Triple)
    ensures Parse(Release(v, t)) == CandidateOf(Release(v, t), t)
  {
    ParseSemverText(v, t.Texts(), "");
  }

  /** Triple first, then sequence, then text. */
  predicate RanksBelow(a: Triple, s: string, x: string, b: Triple, t: string, y: string) {
    TripleLess(a, b) || (a == b && (Less(s, t) || (s == t && Less(x, y))))
  }

  lemma CompareCandidates(x: string, a: Triple, y: string, b: Triple)
    ensures CompareTags(CandidateOf(x, a), CandidateOf(y, b)) < 0
      <==> RanksBelow(a.Clamped(), Sequence(x), x, b.Clamped(), Sequence(y), y)
  {
    LessTrichotomy(Sequence(x), Sequence(y));
    LessTrichotomy(x, y);
  }

  function Pow10(n: nat): nat { if n == 0 then 1 else 10 * Pow10(n - 1) }

  lemma {:induction false} NumBound(s: string)
    requires AllDigits(s)
    ensures Num(s) < Pow10(|s|)
  {
    if s != "" {
      NumBound(s[..|s| - 1]);
    }
  }

  lemma PowerOfSequence()
    ensures Pow10(SEQUENCE_LENGTH) == 100_000_000_000_000
  {
    assert Pow10(7) == 10_000_000;
    assert Pow10(14) == 10_000_000 * Pow10(7);
  }

  /** A number that saturates is too long to be a sequence. */
  lemma ClampKeepsRun(m: nat, n: nat)
    requires Clamp(m) == Clamp(n)
    ensures Run14(Dec(m)) == Run14(Dec(n))
  {
    NumBound(Dec(m));
    NumBound(Dec(n));
    PowerOfSequence();
  }

  lemma ReleasePieces(v: bool, n: Numbers)
    ensures SemverText(v, n, "") == Glue(Prefix(v) + n.major, '.', Glue(n.minor, '.', n.patch))
  {
    assert n.patch + "" == n.patch;
  }

  lemma SequenceOfRelease(v: bool, n: Numbers)
    requires IsNumbers(n)
    ensures Sequence(SemverText(v, n, "")) == OrElse(if v then ""
      else Run14(n.major), OrElse(Run14(n.minor), Run14(n.patch)))
  {
    ReleasePieces(v, n);
    SequenceOfPieces(Prefix(v) + n.major, '.', Glue(n.minor, '.', n.patch));
    SequenceOfPieces(n.minor, '.', n.patch);
    SequenceOfNumber(v, n.major);
    PlainSequence(n.minor);
    PlainSequence(n.patch);
  }

  lemma PlainSequence(digits: string)
    requires AllDigits(digits)
    ensures Sequence(digits) == Run14(digits)
  {
    SequenceOfNumber(false, digits);
    assert Prefix(false) + digits == digits;
  }

  lemma ClampKeepsSequence(v: bool, a: Triple, b: Triple)
    requires a.Clamped() == b.Clamped()
    ensures Sequence(Release(v, a)) == Sequence(Release(v, b))
  {
    ClampKeepsRun(a.major, b.major);
    ClampKeepsRun(a.minor, b.minor);
    ClampKeepsRun(a.patch, b.patch);
    SequenceOfRelease(v, a.Texts());
    SequenceOfRelease(v, b.Texts());
  }

  lemma CompareReleases(v: bool, a: Triple, w: bool, b: Triple)
    ensures var x, y := Release(v, a), Release(w, b);
      CompareTags(Parse(x), Parse(y)) < 0 <==> RanksBelow(a.Clamped(), Sequence(x), x, b.Clamped(), Sequence(y), y)
  {
    ParseRelease(v, a);
    ParseRelease(w, b);
    CompareCandidates(Release(v, a), a, Release(w, b), b);
  }

  /**
   * Section 11.2: releases compare numerically by major, minor and patch, in that order, with or without a
   * leading v.
   */
  lemma ReleasesFollowSemver(v: bool, a: Triple, w: bool, b: Triple)
    requires a == a.Clamped() && b == b.Clamped() && a != b
    ensures CompareTags(Parse(Release(v, a)), Parse(Release(w, b))) < 0 <==> TripleLess(a, b)
  {
    CompareReleases(v, a, w, b);
  }

  lemma FirstCharacter(v: bool, t: Triple)
    ensures var tag := Release(v, t); tag != "" && if v then tag[0] == 'v' else IsDigit(tag[0])
  {
    ReleasePieces(v, t.Texts());
    assert IsDigit(Dec(t.major)[0]);
  }

  /** With different prefixes the tag with the v is the larger text, whatever follows. */
  lemma PrefixDecides(v: bool, a: Triple, x: string, w: bool, b: Triple, y: string)
    requires v != w
    ensures Less(Release(v, a) + x, Release(w, b) + y) <==> w
  {
    FirstCharacter(v, a);
    FirstCharacter(w, b);
    assert (Release(v, a) + x)[0] == Release(v, a)[0] && (Release(w, b) + y)[0] == Release(w, b)[0];
  }

  lemma ReleaseTexts(v: bool, a: Triple, w: bool, b: Triple)
    requires v != w
    ensures Less(Release(v, a), Release(w, b)) <==> w
  {
    PrefixDecides(v, a, "", w, b, "");
    assert Release(v, a) + "" == Release(v, a) && Release(w, b) + "" == Release(w, b);
  }

  /**
   * Without a bound: the saturated triples decide. Where saturation makes them equal, so are the sequences of two
   * tags with one prefix, and the texts decide; with two prefixes the sequences come first and then the v.
   */
  lemma SaturatedReleases(v: bool, a: Triple, w: bool, b: Triple)
    ensures var x, y := Release(v, a), Release(w, b);
      CompareTags(Parse(x), Parse(y)) < 0 <==>
        || TripleLess(a.Clamped(), b.Clamped())
        || (a.Clamped() == b.Clamped() &&
            if v == w then Less(x, y) else Less(Sequence(x), Sequence(y)) || (Sequence(x) == Sequence(y) && w))
  {
    CompareReleases(v, a, w, b);
    if v != w {
      ReleaseTexts(v, a, w, b);
    } else if a.Clamped() == b.Clamped() {
      ClampKeepsSequence(v, a, b);
      LessIrreflexive(Sequence(Release(v, a)));
    }
  }

  function PreRelease(v: bool, t: Triple, pre: string): string { Glue(Release(v, t), '-', pre) }

  /**
   * The sequence found in a pre-release: a 14-digit number of the triple comes before anything in the
   * pre-release part.
   */
  function PreSequence(v: bool, t: Triple, pre: string): string { OrElse(Sequence(Release(v, t)), Sequence(pre)) }

  lemma ParsePreRelease(v: bool, t: Triple, pre: string)
    ensures var tag := PreRelease(v, t, pre);
      Parse(tag) == CandidateOf(tag, t) && Sequence(tag) == PreSequence(v, t, pre)
  {
    var n := t.Texts();
    assert n.patch + "" == n.patch;
    assert PreRelease(v, t, pre) == SemverText(v, n, "-" + pre);
    ParseSemverText(v, n, "-" + pre);
    SequenceOfPieces(Release(v, t), '-', pre);
  }

  /**
   * Section 11.3 puts every pre-release before its release. With one prefix, or whenever the sequence found in
   * the pre-release is the larger one, the program does not: it does exactly when the release has the larger
   * sequence, or the sequences are equal and the release alone has a leading v.
   */
  lemma PreReleaseRanksBelowIff(w: bool, t: Triple, pre: string, v: bool)
    ensures var a, b := PreSequence(w, t, pre), Sequence(Release(v, t));
      CompareTags(Parse(PreRelease(w, t, pre)), Parse(Release(v, t))) < 0 <==> Less(a, b) || (a == b && v && !w)
  {
    var release, tag := Release(v, t), PreRelease(w, t, pre);
    ParseRelease(v, t);
    ParsePreRelease(w, t, pre);
    CompareCandidates(tag, t, release, t);
    PreReleaseText(w, t, pre);
    if v == w {
      LessPrefix(release, "-" + pre);
      LessTrichotomy(release, tag);
    } else {
      PrefixDecides(w, t, "-" + pre, v, t, "");
      assert release + "" == release;
    }
  }

  /** With one prefix on both tags it never does. */
  lemma PreReleaseRanksAboveRelease(v: bool, t: Triple, pre: string)
    ensures CompareTags(Parse(Release(v, t)), Parse(PreRelease(v, t, pre))) < 0
  {
    ParseRelease(v, t);
    ParsePreRelease(v, t, pre);
    LongerTextWins(Release(v, t), '-', pre, t);
  }

  lemma PreReleaseText(v: bool, t: Triple, pre: string)
    ensures PreRelease(v, t, pre) == Release(v, t) + ("-" + pre)
  {
  }

  /** More text after a delimiter never lowers a tag of the same triple. */
  lemma LongerTextWins(x: string, d: char, more: string, t: Triple)
    requires IsDelimiter(d)
    ensures CompareTags(CandidateOf(x, t), CandidateOf(Glue(x, d, more), t)) < 0
  {
    CompareCandidates(x, t, Glue(x, d, more), t);
    SequenceOfPieces(x, d, more);
    assert Glue(x, d, more) == x + ([d] + more);
    LessPrefix(x, [d] + more);
  }

  lemma PreReleaseTexts(v: bool, t: Triple, p: string, w: bool, q: string)
    ensures Less(PreRelease(v, t, p), PreRelease(w, t, q)) <==> if v != w then w else Less(p, q)
  {
    PreReleaseText(v, t, p);
    PreReleaseText(w, t, q);
    if v != w {
      PrefixDecides(v, t, "-" + p, w, t, "-" + q);
    } else {
      LessAfter(Release(v, t), "-" + p, "-" + q);
      LessAfter("-", p, q);
    }
  }

  /** Two pre-releases of one triple: by sequence, then by prefix, then as texts. */
  lemma PreReleaseOrder(v: bool, t: Triple, p: string, w: bool, q: string)
    ensures var a, b := PreSequence(v, t, p), PreSequence(w, t, q);
      CompareTags(Parse(PreRelease(v, t, p)), Parse(PreRelease(w, t, q))) < 0 <==>
        Less(a, b) || (a == b && if v != w then w else Less(p, q))
  {
    ParsePreRelease(v, t, p);
    ParsePreRelease(w, t, q);
    CompareCandidates(PreRelease(v, t, p), t, PreRelease(w, t, q), t);
    PreReleaseTexts(v, t, p, w, q);
  }

  /** A tag that begins with three dotted numbers, an optional v before them, ranks above every tag that does not. */
  lemma OpaqueTagsRankBelow(v: bool, n: Numbers, rest: string, other: string)
    requires IsNumbers(n) && NoDigitFirst(rest)
    requires forall v', n', rest' :: IsNumbers(n') && NoDigitFirst(rest') ==> other != SemverText(v', n', rest')
    ensures CompareTags(Parse(other), Parse(SemverText(v, n, rest))) < 0
  {
    ParseSemverText(v, n, rest);
    OpaqueTag(other);
  }

  /** Such a tag carries nothing but its text. */
  lemma OpaqueTag(tag: string)
    requires forall v, n, rest :: IsNumbers(n) && NoDigitFirst(rest) ==> tag != SemverText(v, n, rest)
    ensures Parse(tag) == Candidate(tag, false, 0, 0, 0, "")
  {
    if SemverMatch(tag).Some? {
      var v, rest := SemverMatchSound(tag);
    }
  }

  /** Two of them compare as texts. */
  lemma OpaqueTagsCompareAsTexts(a: string, b: string)
    requires Parse(a) == Candidate(a, false, 0, 0, 0, "") && Parse(b) == Candidate(b, false, 0, 0, 0, "")
    ensures CompareTags(Parse(a), Parse(b)) < 0 <==> Less(a, b)
  {
    LessIrreflexive("");
  }

  /** A run of 14 digits between hyphens, underscores or dots is found, and between anything else it is not. */
  lemma DelimitersOfSequence(a: string, d: char, digits: string, e: char, b: string)
    requires |digits| == 14 && AllDigits(digits) && !IsDigit(d) && !IsDigit(e)
    requires forall i :: 0 <= i < |a| ==> a[i] != '-' && a[i] != '_' && a[i] != '.' && !IsDigit(a[i])
    requires forall i :: 0 <= i < |b| ==> b[i] != '-' && b[i] != '_' && b[i] != '.' && !IsDigit(b[i])
    ensures Sequence(Glue(a, d, Glue(digits, e, b))) ==
      if (d == '-' || d == '_' || d == '.') && (e == '-' || e == '_' || e == '.') then digits else ""
  {
    var tag := Glue(a, d, Glue(digits, e, b));
    var i := FindRunIsLeftmost(tag, 0);
    OnlyRun(a, d, digits, e, b, |a| + 1);
    if i < |tag| {
      OnlyRun(a, d, digits, e, b, i);
    }
  }

  lemma OnlyRun(a: string, d: char, digits: string, e: char, b: string, i: nat)
    requires |digits| == 14 && AllDigits(digits) && !IsDigit(d) && !IsDigit(e)
    requires forall k :: 0 <= k < |a| ==> !IsDigit(a[k])
    requires forall k :: 0 <= k < |b| ==> !IsDigit(b[k])
    ensures var tag := Glue(a, d, Glue(digits, e, b));
      && (RunAt(tag, i) <==> i == |a| + 1 && IsDelimiter(d) && IsDelimiter(e))
      && tag[|a| + 1..|a| + 15] == digits
  {
    var tag, n := Glue(a, d, Glue(digits, e, b)), |a| + 1;
    assert tag[n - 1] == d && tag[n + 14] == e && tag[n..n + 14] == digits;
    if 0 <= i && i + 14 <= |tag| && i != n {
      if i < n {
        assert tag[i..i + 14][0] == tag[i];
      } else {
        assert tag[i..i + 14][13] == tag[i + 13];
      }
    }
  }

  lemma LargestInt()
    ensures MAX_INT == 9223372036854775807
  {
  }

  /* ---------- section 11.4: pre-releases identifier by identifier ---------- */

  predicate IsIdentifier(x: string) {
    x != "" && forall i :: 0 <= i < |x| ==> IsDigit(x[i]) || 'a' <= x[i] <= 'z' || 'A' <= x[i] <= 'Z' || x[i] == '-'
  }

  /** Sections 11.4.1 to 11.4.3: numbers by value and below everything else, the rest in ASCII order. */
  predicate IdentifierLess(x: string, y: string) {
    if AllDigits(x) && AllDigits(y) then Num(x) < Num(y)
    else if AllDigits(x) || AllDigits(y) then AllDigits(x)
    else Less(x, y)
  }

  /** Nothing, or more identifiers. */
  predicate IsTail(s: string) { s != "" ==> s[0] == '.' }

  lemma {:induction false} LessIdentifiers(x: string, s: string, y: string, t: string)
    requires '.' !in x && '.' !in y && IsTail(s) && IsTail(t) && x != y
    ensures Less(x + s, y + t) <==>
      if x <= y then s == "" || '.' < y[|x|]
      else if y <= x then t != "" && x[|y|] < '.'
      else Less(x, y)
  {
    if x == "" {
      assert x + s == s && (y + t)[0] == y[0];
    } else if y == "" {
      assert y + t == t && (x + s)[0] == x[0];
    } else {
      assert (x + s)[1..] == x[1..] + s && (y + t)[1..] == y[1..] + t;
      assert x == [x[0]] + x[1..] && y == [y[0]] + y[1..];
      if x[0] == y[0] {
        LessIdentifiers(x[1..], s, y[1..], t);
        assert x <= y <==> x[1..] <= y[1..];
        assert y <= x <==> y[1..] <= x[1..];
      }
    }
  }

  lemma {:induction false} NumOfPrefix(x: string, k: nat)
    requires AllDigits(x) && k <= |x|
    ensures Num(x[..k]) <= Num(x)
  {
    if k == |x| {
      assert x[..k] == x;
    } else {
      assert x[..|x| - 1][..k] == x[..k];
      NumOfPrefix(x[..|x| - 1], k);
    }
  }

  lemma {:induction false} LessIsNoPrefix(x: string, y: string)
    requires y <= x
    ensures !Less(x, y)
  {
    if y != "" {
      assert y[1..] <= x[1..];
      LessIsNoPrefix(x[1..], y[1..]);
    }
  }

  lemma LowerIsNotLonger(x: string, y: string)
    requires IdentifierLess(x, y)
    ensures !(y <= x)
  {
    if y <= x {
      assert x[..|y|] == y;
      assert AllDigits(x) ==> AllDigits(y);
      if AllDigits(x) {
        NumOfPrefix(x, |y|);
      } else {
        LessIsNoPrefix(x, y);
      }
    }
  }

  lemma LessFromIdentifiers(front: string, x: string, s: string, y: string, t: string)
    requires IsIdentifier(x) && IsIdentifier(y) && IdentifierLess(x, y) && IsTail(s) && IsTail(t)
    ensures Less(front + x + s, front + y + t) <==> if x < y then s == "" || y[|x|] != '-' else Less(x, y)
  {
    assert front + x + s == front + (x + s) && front + y + t == front + (y + t);
    LessAfter(front, x + s, y + t);
    LowerIsNotLonger(x, y);
    LessIdentifiers(x, s, y, t);
    if x < y {
      assert '.' < y[|x|] <==> y[|x|] != '-';
    }
  }

  /** Where the texts cannot disagree. */
  lemma LowerIsLess(x: string, y: string)
    requires IdentifierLess(x, y) && !(x < y) && (AllDigits(x) <==> AllDigits(y)) && (AllDigits(x) ==> |x| == |y|)
    ensures Less(x, y)
  {
    if AllDigits(x) {
      DigitOrderIsNumericOrder(x, y);
    }
  }

  /**
   * Two pre-releases of one triple that first differ in the identifiers x and y, of which x is the lower one: the
   * program agrees with section 11.4 if and only if the first has the smaller sequence, or the sequences are equal and
   * either only the second has a leading v, or the prefixes are equal too and so is one of these the case: x is the
   * beginning of y, and nothing follows x or no hyphen follows in y; x is not, but the lower one as a text.
   */
  lemma PreReleasesFollowSemverIff(
    v: bool, w: bool, triple: Triple, front: string, x: string, s: string, y: string, t: string)
    requires IsIdentifier(x) && IsIdentifier(y) && IdentifierLess(x, y) && IsTail(s) && IsTail(t)
    ensures var p, q := front + x + s, front + y + t;
      var a, b := PreSequence(v, triple, p), PreSequence(w, triple, q);
      CompareTags(Parse(PreRelease(v, triple, p)), Parse(PreRelease(w, triple, q))) < 0 <==>
        || Less(a, b)
        || (a == b && if v != w then w else if x < y then s == "" || y[|x|] != '-' else Less(x, y))
  {
    PreReleaseOrder(v, triple, front + x + s, w, front + y + t);
    LessFromIdentifiers(front, x, s, y, t);
  }

  /**
   * Section 11.4.4 ranks more identifiers after equal ones higher. With one prefix the program always does; with two
   * it does exactly when the longer tag has the larger sequence, or an equal one and the leading v.
   */
  lemma MoreIdentifiersRankHigherIff(v: bool, t: Triple, p: string, w: bool, more: string)
    ensures var q := Glue(p, '.', more);
      var a, b := PreSequence(v, t, p), PreSequence(w, t, q);
      CompareTags(Parse(PreRelease(v, t, p)), Parse(PreRelease(w, t, q))) < 0 <==>
        v == w || Less(a, b) || (a == b && w)
  {
    var q := Glue(p, '.', more);
    PreReleaseOrder(v, t, p, w, q);
    if v == w {
      SequenceOfPieces(p, '.', more);
      assert q == p + ("." + more);
      LessPrefix(p, "." + more);
    }
  }

  const ONE := Triple(1, 0, 0)

  /** "1.0.0-rc" ranks below "v1.0.0", although "v1.0.0-rc" does not. */
  lemma PrefixBeatsPreRelease()
    ensures CompareTags(Parse(PreRelease(false, ONE, "rc")), Parse(Release(true, ONE))) < 0
    ensures CompareTags(Parse(PreRelease(true, ONE, "rc")), Parse(Release(true, ONE))) > 0
  {
    SequencesOfOne();
    PreReleaseRanksBelowIff(false, ONE, "rc", true);
    PreReleaseRanksAboveRelease(true, ONE, "rc");
    CompareTagsOrder(Parse(PreRelease(true, ONE, "rc")), Parse(Release(true, ONE)), Parse(Release(true, ONE)));
  }

  lemma SequencesOfOne()
    ensures Sequence(Release(true, ONE)) == "" && Sequence(Release(false, ONE)) == "" && Sequence("rc") == ""
  {
    ShortNumbers();
    SequenceOfRelease(true, ONE.Texts());
    SequenceOfRelease(false, ONE.Texts());
    var i := FindRunIsLeftmost("rc", 0);
  }

  lemma ShortNumbers()
    ensures Run14(Dec(0)) == "" && Run14(Dec(1)) == ""
  {
    assert |Dec(0)| == 1 && |Dec(1)| == 1;
  }

  /* ---------- latestTag ---------- */

  function Larger(a: string, b: string): string { if CompareTags(Parse(a), Parse(b)) < 0 then b else a }

  /** The largest tag of a non-empty list, in one pass. */
  function Best(tags: seq<string>): string
    requires tags != []
  {
    if |tags| == 1 then tags[0] else Larger(Best(tags[..|tags| - 1]), tags[|tags| - 1])
  }

  ghost predicate IsBest(tags: seq<string>, best: string) {
    best in tags && forall t :: t in tags ==> CompareTags(Parse(t), Parse(best)) <= 0
  }

  lemma {:induction false} BestIsBest(tags: seq<string>)
    requires tags != []
    ensures IsBest(tags, Best(tags))
  {
    var front, last := tags[..|tags| - 1], tags[|tags| - 1];
    assert tags == front + [last];
    if front == [] {
      BestOfOne(last);
    } else {
      BestIsBest(front);
      BestOfMore(front, Best(front), last);
    }
  }

  lemma BestOfOne(t: string)
    ensures IsBest([t], t)
  {
    CompareTagsOrder(Parse(t), Parse(t), Parse(t));
  }

  lemma BestOfMore(front: seq<string>, best: string, last: string)
    requires IsBest(front, best)
    ensures IsBest(front + [last], Larger(best, last))
  {
    forall t | t in front + [last] ensures CompareTags(Parse(t), Parse(Larger(best, last))) <= 0 {
      LargerOfTwo(Parse(best), Parse(last), Parse(t));
    }
  }

  lemma LargerOfTwo(a: Candidate, b: Candidate, c: Candidate)
    requires CompareTags(c, a) <= 0 || c == b
    ensures CompareTags(c, if CompareTags(a, b) < 0 then b else a) <= 0
  {
    CompareTagsOrder(c, a, b);
    CompareTagsOrder(b, a, c);
  }

  lemma BestIsUnique(tags: seq<string>, x: string, y: string)
    requires IsBest(tags, x) && IsBest(tags, y)
    ensures x == y
  {
    CompareTagsOrder(Parse(x), Parse(y), Parse(x));
  }

  function Latest(tags: seq<string>, current: string): Result<string, string> {
    if tags == [] then Err("registry returned no tags")
    else
      var best := Best(tags);
      var keep := current != "" && Parse(current).HasReleaseSequence() && SameRank(Parse(current), Parse(best));
      Ok(if keep then current else best)
  }

  method ParseAll(tags: seq<string>) returns (candidates: seq<Candidate>)
    ensures |candidates| == |tags| && forall k :: 0 <= k < |tags| ==> candidates[k] == Parse(tags[k])
  {
    candidates := [];
    for i := 0 to |tags|
      invariant |candidates| == i
      invariant forall k :: 0 <= k < i ==> candidates[k] == Parse(tags[k])
    {
      candidates := candidates + [Parse(tags[i])];
    }
  }

  /** latestTag: parse every tag, sort, take the last candidate, and perhaps keep the current tag instead. */
  method LatestTag(tags: seq<string>, currentTag: string) returns (r: Result<string, string>)
    ensures r == Latest(tags, currentTag)
    ensures r.Err? <==> tags == []
    ensures forall top :: IsTop(tags, top) ==> r == Ok(if KeepsUp(currentTag, top) then currentTag else top)
  {
    LatestAnswer(tags, currentTag);
    if |tags| == 0 {
      return Err("registry returned no tags");
    }
    var candidates := ParseAll(tags);
    CompareTagsPreorder();
    ghost var unsorted := candidates;
    candidates := SortFunc(candidates, CompareTags);
    var best := candidates[|candidates| - 1];
    LastIsBest(tags, unsorted, candidates);
    if currentTag != "" {
      var current := Parse(currentTag);
      if current.HasReleaseSequence() && SameRank(current, best) {
        return Ok(currentTag);
      }
    }
    return Ok(best.raw);
  }

  lemma LastIsLargest(unsorted: seq<Candidate>, sorted: seq<Candidate>)
    requires unsorted != [] && multiset(sorted) == multiset(unsorted) && SortedBy(sorted, CompareTags)
    ensures sorted != [] && sorted[|sorted| - 1] in unsorted
    ensures forall c :: c in unsorted ==> CompareTags(c, sorted[|sorted| - 1]) <= 0
  {
    assert |sorted| == |multiset(sorted)| == |unsorted|;
    var last := sorted[|sorted| - 1];
    assert last in multiset(unsorted);
    CompareTagsOrder(last, last, last);
    forall c | c in unsorted ensures CompareTags(c, last) <= 0 {
      assert c in multiset(sorted);
    }
  }

  lemma LastIsBest(tags: seq<string>, unsorted: seq<Candidate>, sorted: seq<Candidate>)
    requires tags != [] && |unsorted| == |tags|
    requires forall k :: 0 <= k < |tags| ==> unsorted[k] == Parse(tags[k])
    requires multiset(sorted) == multiset(unsorted) && SortedBy(sorted, CompareTags)
    ensures sorted != [] && sorted[|sorted| - 1] == Parse(Best(tags))
  {
    LastIsLargest(unsorted, sorted);
    var last := sorted[|sorted| - 1];
    forall t | t in tags ensures CompareTags(Parse(t), last) <= 0 {
      assert Parse(t) in unsorted;
    }
    BestIsBest(tags);
    BestIsUnique(tags, last.raw, Best(tags));
  }

  /** No listed tag compares above this listed one. */
  ghost predicate IsTop(tags: seq<string>, top: string) {
    top in tags && forall t :: t in tags ==> !(CompareTags(Parse(t), Parse(top)) > 0)
  }

  /** The tag is a semantic version with a release sequence, and agrees with the other in all but the text. */
  predicate KeepsUp(current: string, top: string) {
    var a, b := Parse(current), Parse(top);
    && a.semver && a.sequence != ""
    && a.semver == b.semver && a.major == b.major && a.minor == b.minor && a.patch == b.patch
    && a.sequence == b.sequence
  }

  /**
   * The answer is the one listed tag that no listed tag exceeds, unless the current tag, listed or not, has a release
   * sequence and ranks with it: then the current tag. An empty list has no answer.
   */
  lemma LatestAnswer(tags: seq<string>, current: string)
    ensures tags == [] ==> Latest(tags, current) == Err("registry returned no tags")
    ensures tags != [] ==> exists top :: IsTop(tags, top)
    ensures forall top :: IsTop(tags, top) ==>
      Latest(tags, current) == Ok(if KeepsUp(current, top) then current else top)
  {
    if tags != [] {
      BestIsBest(tags);
      assert IsTop(tags, Best(tags));
      NothingKeepsUp(Best(tags));
      forall top | IsTop(tags, top) ensures top == Best(tags) {
        TopIsUnique(tags, top, Best(tags));
      }
    }
  }

  lemma TopIsUnique(tags: seq<string>, x: string, y: string)
    requires IsTop(tags, x) && IsTop(tags, y)
    ensures x == y
  {
    CompareTagsOrder(Parse(x), Parse(y), Parse(x));
  }

  lemma NothingKeepsUp(top: string)
    ensures !KeepsUp("", top)
  {
    EmptyTagIsOpaque();
  }

  lemma EmptyTagIsOpaque()
    ensures !Parse("").semver
  {
  }

  /** Neither the order nor the repetition of the listed tags matters. */
  lemma LatestIgnoresOrder(tags: seq<string>, tags': seq<string>, current: string)
    requires forall t :: t in tags <==> t in tags'
    ensures Latest(tags, current) == Latest(tags', current)
  {
    if tags == [] {
      assert forall k :: 0 <= k < |tags'| ==> tags'[k] in tags;
    } else {
      assert tags[0] in tags';
      BestIsBest(tags);
      BestIsBest(tags');
      BestIsUnique(tags, Best(tags), Best(tags'));
    }
  }

  /** The answer is the current tag or a listed one, and no listed tag ranks above it. */
  lemma LatestHasMaximalRank(tags: seq<string>, current: string)
    requires tags != []
    ensures var latest := Latest(tags, current).value;
      && (latest == current || latest in tags)
      && forall t :: t in tags ==> CompareRank(Parse(t), Parse(latest)) <= 0
  {
    BestIsBest(tags);
    forall t | t in tags ensures CompareRank(Parse(t), Parse(Latest(tags, current).value)) <= 0 {
      CompareRankOrder(Parse(t), Parse(Best(tags)), Parse(current));
      CompareRankOrder(Parse(current), Parse(Best(tags)), Parse(t));
    }
  }

  /** Feeding the answer back as the current tag gives the same answer. */
  lemma LatestIsStable(tags: seq<string>, current: string)
    requires tags != []
    ensures Latest(tags, Latest(tags, current).value) == Latest(tags, current)
  {
    BestIsBest(tags);
  }

  /** A listed current tag with a release sequence only ever gives way to one of strictly greater rank. */
  lemma LatestOnlyMovesUp(tags: seq<string>, current: string)
    requires current in tags && Parse(current).HasReleaseSequence()
    ensures var latest := Latest(tags, current).value;
      latest != current ==> CompareRank(Parse(current), Parse(latest)) < 0
  {
    BestIsBest(tags);
    CompareRankOrder(Parse(current), Parse(Best(tags)), Parse(current));
  }
}
