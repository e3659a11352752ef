/** slices.SortFunc: library code, so only its contract matters to callers. */
module Sorting {

  /** A comparison function whose sign is a total preorder. */
  ghost predicate Preorder<T(!new)>(cmp: (T, T) -> int) {
    && (forall a, b :: cmp(a, b) < 0 <==> cmp(b, a) > 0)
    && (forall a, b, c :: cmp(a, b) <= 0 && cmp(b, c) <= 0 ==> cmp(a, c) <= 0)
  }

  ghost predicate SortedBy<T>(s: seq<T>, cmp: (T, T) -> int) {
    forall i, j :: 0 <= i < j < |s| ==> cmp(s[i], s[j]) <= 0
  }

  /** Puts x behind every element of a sorted sequence that does not come after it. */
  function Insert<T>(x: T, s: seq<T>, cmp: (T, T) -> int): (r: seq<T>)
    ensures multiset(r) == multiset(s) + multiset{x}
  {
    if s == [] || cmp(s[|s| - 1], x) <= 0 then s + [x]
    else
      assert s == s[..|s| - 1] + [s[|s| - 1]];
      Insert(x, s[..|s| - 1], cmp) + [s[|s| - 1]]
  }

  lemma SortedNext<T(!new)>(s: seq<T>, x: T, cmp: (T, T) -> int)
    requires SortedBy(s, cmp) && forall y :: y in s ==> cmp(y, x) <= 0
    ensures SortedBy(s + [x], cmp)
  {
  }

  lemma {:induction false} InsertSorted<T(!new)>(x: T, s: seq<T>, cmp: (T, T) -> int)
    requires Preorder(cmp) && SortedBy(s, cmp)
    ensures SortedBy(Insert(x, s, cmp), cmp)
  {
    if s != [] {
      var front, last := s[..|s| - 1], s[|s| - 1];
      assert s == front + [last];
      if cmp(last, x) <= 0 {
        forall y | y in s ensures cmp(y, x) <= 0 {
          assert y == last || cmp(y, last) <= 0;
        }
        SortedNext(s, x, cmp);
      } else {
        InsertSorted(x, front, cmp);
        var r := Insert(x, front, cmp);
        forall y | y in r ensures cmp(y, last) <= 0 {
          assert y in multiset(r);
          assert y == x || y in front;
        }
        SortedNext(r, last, cmp);
      }
    }
  }

  method SortFunc<T(!new)>(s: seq<T>, cmp: (T, T) -> int) returns (r: seq<T>)
    requires Preorder(cmp)
    ensures multiset(r) == multiset(s)
    ensures SortedBy(r, cmp)
  {
    r := [];
    for i := 0 to |s|
      invariant multiset(r) == multiset(s[..i])
      invariant SortedBy(r, cmp)
    {
      InsertSorted(s[i], r, cmp);
      r := Insert(s[i], r, cmp);
      assert s[..i + 1] == s[..i] + [s[i]];
    }
    assert s[..|s|] == s;
  }
}
