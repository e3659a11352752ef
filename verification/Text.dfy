/** Option and Result, for Go's "value, ok" and "value, err" returns. */
module Prelude {
  datatype Option<+T> = None | Some(value: T)

  datatype Result<+T, +E> = Ok(value: T) | Err(error: E)
}

/** Go strings as sequences of Unicode code points, and the library functions the program applies to them. */
module Text {
  import opened Prelude

  /** unicode.IsSpace: the code points with the White_Space property. */
  predicate IsSpace(c: char) {
    var n := c as int;
    || 0x09 <= n <= 0x0D || n == 0x20 || n == 0x85 || n == 0xA0
    || n == 0x1680 || 0x2000 <= n <= 0x200A || n == 0x2028 || n == 0x2029
    || n == 0x202F || n == 0x205F || n == 0x3000
  }

  /** unicode.IsControl: the code points of category Cc. */
  predicate IsControl(c: char) {
    var n := c as int;
    n <= 0x1F || 0x7F <= n <= 0x9F
  }

  predicate IsDigit(c: char) { '0' <= c <= '9' }

  predicate AllSpace(s: string) { forall i :: 0 <= i < |s| ==> IsSpace(s[i]) }

  predicate AllDigits(s: string) { forall i :: 0 <= i < |s| ==> IsDigit(s[i]) }

  /** The number of bytes of the UTF-8 form, which is what Go's len counts. */
  function Utf8Len(s: string): nat {
    if s == "" then 0
    else
      var n := s[0] as int;
      (if n < 0x80 then 1 else if n < 0x800 then 2 else if n < 0x10000 then 3 else 4) + Utf8Len(s[1..])
  }

  /* ---------- strings.TrimSpace ---------- */

  function TrimLeft(s: string): string {
    if s != "" && IsSpace(s[0]) then TrimLeft(s[1..]) else s
  }

  function TrimRight(s: string): string {
    if s != "" && IsSpace(s[|s| - 1]) then TrimRight(s[..|s| - 1]) else s
  }

  function TrimSpace(s: string): string { TrimRight(TrimLeft(s)) }

  /** Neither end is white space. */
  predicate Trimmed(s: string) { s != "" ==> !IsSpace(s[0]) && !IsSpace(s[|s| - 1]) }

  lemma {:induction false} TrimLeftParts(s: string) returns (a: string)
    ensures s == a + TrimLeft(s) && AllSpace(a)
    ensures TrimLeft(s) != "" ==> !IsSpace(TrimLeft(s)[0])
  {
    if s != "" && IsSpace(s[0]) {
      var rest := TrimLeftParts(s[1..]);
      a := [s[0]] + rest;
    } else {
      a := "";
    }
  }

  lemma {:induction false} TrimRightParts(s: string) returns (b: string)
    ensures s == TrimRight(s) + b && AllSpace(b)
    ensures TrimRight(s) != "" ==> !IsSpace(TrimRight(s)[|TrimRight(s)| - 1])
  {
    if s != "" && IsSpace(s[|s| - 1]) {
      var rest := TrimRightParts(s[..|s| - 1]);
      b := rest + [s[|s| - 1]];
    } else {
      b := "";
    }
  }

  /** TrimSpace only takes white space off the two ends, and takes all of it. */
  lemma TrimSpaceParts(s: string) returns (a: string, b: string)
    ensures s == a + TrimSpace(s) + b && AllSpace(a) && AllSpace(b) && Trimmed(TrimSpace(s))
  {
    a := TrimLeftParts(s);
    b := TrimRightParts(TrimLeft(s));
    assert TrimSpace(s) != "" ==> TrimSpace(s)[0] == TrimLeft(s)[0];
  }

  lemma {:induction false} TrimLeftUnique(a: string, m: string)
    requires AllSpace(a) && (m != "" ==> !IsSpace(m[0]))
    ensures TrimLeft(a + m) == m
  {
    if a == "" {
      assert a + m == m;
    } else {
      assert (a + m)[1..] == a[1..] + m;
      TrimLeftUnique(a[1..], m);
    }
  }

  lemma {:induction false} TrimRightUnique(m: string, b: string)
    requires AllSpace(b) && (m != "" ==> !IsSpace(m[|m| - 1]))
    ensures TrimRight(m + b) == m
  {
    if b == "" {
      assert m + b == m;
    } else {
      assert (m + b)[..|m + b| - 1] == m + b[..|b| - 1];
      TrimRightUnique(m, b[..|b| - 1]);
    }
  }

  /** The trimmed middle of a string is determined by the string. */
  lemma TrimSpaceUnique(a: string, m: string, b: string)
    requires AllSpace(a) && AllSpace(b) && Trimmed(m)
    ensures TrimSpace(a + m + b) == m
  {
    if m == "" {
      assert a + m + b == (a + b) + "";
      TrimLeftUnique(a + b, "");
    } else {
      assert a + m + b == a + (m + b);
      TrimLeftUnique(a, m + b);
      TrimRightUnique(m, b);
    }
  }

  lemma TrimSpaceOfTrimmed(s: string)
    requires Trimmed(s)
    ensures TrimSpace(s) == s
  {
    TrimSpaceUnique("", s, "");
    assert "" + s + "" == s;
  }

  /* ---------- cutting a string at one character ---------- */

  /** a, the character c, and b in one string. */
  function Glue(a: string, c: char, b: string): string { a + [c] + b }

  /** strings.Cut: what stands before and after the first c. */
  function CutFirst(s: string, c: char): (r: Option<(string, string)>)
    ensures r.None? ==> c !in s
    ensures r.Some? ==> c !in r.value.0 && s == Glue(r.value.0, c, r.value.1)
  {
    if s == "" then None
    else if s[0] == c then Some(("", s[1..]))
    else
      match CutFirst(s[1..], c)
      case None => None
      case Some((a, b)) =>
        assert s == [s[0]] + Glue(a, c, b);
        Some(([s[0]] + a, b))
  }

  /** Splitting at strings.LastIndex: what stands before and after the last c. */
  function CutLast(s: string, c: char): (r: Option<(string, string)>)
    ensures r.None? ==> c !in s
    ensures r.Some? ==> c !in r.value.1 && s == Glue(r.value.0, c, r.value.1)
  {
    if s == "" then None
    else
      match CutLast(s[1..], c)
      case None => if s[0] == c then Some(("", s[1..])) else None
      case Some((a, b)) =>
        assert s == [s[0]] + Glue(a, c, b);
        Some(([s[0]] + a, b))
  }

  lemma {:induction false} CutFirstAt(a: string, c: char, b: string)
    requires c !in a
    ensures CutFirst(Glue(a, c, b), c) == Some((a, b))
  {
    if a == "" {
      assert Glue(a, c, b)[1..] == b;
    } else {
      assert Glue(a, c, b)[1..] == Glue(a[1..], c, b);
      CutFirstAt(a[1..], c, b);
      assert a == [a[0]] + a[1..];
    }
  }

  lemma {:induction false} CutLastAt(a: string, c: char, b: string)
    requires c !in b
    ensures CutLast(Glue(a, c, b), c) == Some((a, b))
  {
    if a == "" {
      assert Glue(a, c, b)[1..] == b;
      CutLastAbsent(b, c);
    } else {
      assert Glue(a, c, b)[1..] == Glue(a[1..], c, b);
      CutLastAt(a[1..], c, b);
      assert a == [a[0]] + a[1..];
    }
  }

  lemma {:induction false} CutLastAbsent(s: string, c: char)
    requires c !in s
    ensures CutLast(s, c) == None
  {
    if s != "" {
      CutLastAbsent(s[1..], c);
    }
  }

  lemma GlueInMiddle(a: string, c: char, m: string, d: char, b: string)
    ensures Glue(Glue(a, c, m), d, b) == Glue(a, c, Glue(m, d, b))
  {
  }

  /* ---------- the order of Go's < on strings ---------- */

  /** Lexicographic order; on valid UTF-8 the byte order is the code point order. */
  predicate Less(a: string, b: string) {
    b != "" && (a == "" || a[0] < b[0] || (a[0] == b[0] && Less(a[1..], b[1..])))
  }

  /** cmpString: -1, 0 or 1. */
  function CompareStrings(a: string, b: string): int {
    if Less(a, b) then -1 else if Less(b, a) then 1 else 0
  }

  lemma {:induction false} LessTrichotomy(a: string, b: string)
    ensures !(Less(a, b) && Less(b, a))
    ensures Less(a, b) || Less(b, a) <==> a != b
  {
    if a != "" && b != "" {
      assert a == [a[0]] + a[1..] && b == [b[0]] + b[1..];
      LessTrichotomy(a[1..], b[1..]);
    }
  }

  lemma {:induction false} LessTransitive(a: string, b: string, c: string)
    requires Less(a, b) && Less(b, c)
    ensures Less(a, c)
  {
    if a != "" && a[0] == b[0] == c[0] {
      LessTransitive(a[1..], b[1..], c[1..]);
    }
  }

  /** A proper prefix comes first. */
  lemma {:induction false} LessPrefix(a: string, b: string)
    requires b != ""
    ensures Less(a, a + b)
  {
    if a != "" {
      assert (a + b)[1..] == a[1..] + b;
      LessPrefix(a[1..], b);
    }
  }

  lemma CompareStringsOrder(a: string, b: string, c: string)
    ensures CompareStrings(a, b) == -CompareStrings(b, a)
    ensures CompareStrings(a, b) == 0 <==> a == b
    ensures CompareStrings(a, b) < 0 && CompareStrings(b, c) < 0 ==> CompareStrings(a, c) < 0
  {
    LessTrichotomy(a, b);
    if Less(a, b) && Less(b, c) {
      LessTransitive(a, b, c);
    }
  }

  lemma LessIrreflexive(s: string)
    ensures !Less(s, s)
  {
    LessTrichotomy(s, s);
  }

  lemma {:induction false} LessAfter(p: string, a: string, b: string)
    ensures Less(p + a, p + b) <==> Less(a, b)
  {
    if p == "" {
      assert p + a == a && p + b == b;
    } else {
      assert (p + a)[1..] == p[1..] + a && (p + b)[1..] == p[1..] + b;
      LessAfter(p[1..], a, b);
    }
  }

  /** Two texts that differ compare at the first character in which they do. */
  lemma LessAtFirstDifference(p: string, c: char, x: string, d: char, y: string)
    requires c != d
    ensures Less(p + ([c] + x), p + ([d] + y)) <==> c < d
  {
    LessAfter(p, [c] + x, [d] + y);
  }

  /* ---------- the number of bytes ---------- */

  lemma {:induction false} Utf8LenOfBoth(a: string, b: string)
    ensures Utf8Len(a + b) == Utf8Len(a) + Utf8Len(b)
  {
    if a == "" {
      assert a + b == b;
    } else {
      assert (a + b)[1..] == a[1..] + b;
      Utf8LenOfBoth(a[1..], b);
    }
  }

  /** One to four bytes, as a code point has up to 7, 11, 16 or 21 bits. */
  lemma Utf8LenOfOne(c: char)
    ensures 1 <= Utf8Len([c]) <= 4
    ensures Utf8Len([c]) <= 1 <==> c as int < 128
    ensures Utf8Len([c]) <= 2 <==> c as int < 2048
    ensures Utf8Len([c]) <= 3 <==> c as int < 65536
  {
    assert [c][1..] == "";
  }
}
