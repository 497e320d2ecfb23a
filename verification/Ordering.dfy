/** Code-point order on strings and the stable sort that Python's `sorted` performs on them. */
module Ordering {

  predicate AtMost(a: string, b: string) {
    if a == [] then true
    else if b == [] then false
    else a[0] < b[0] || (a[0] == b[0] && AtMost(a[1..], b[1..]))
  }

  predicate Ascending(s: seq<string>) {
    forall i, j :: 0 <= i < j < |s| ==> AtMost(s[i], s[j])
  }

  lemma {:induction false} AtMostTotal(a: string, b: string)
    ensures AtMost(a, b) || AtMost(b, a)
  {
    if a != [] && b != [] && a[0] == b[0] {
      AtMostTotal(a[1..], b[1..]);
    }
  }

  lemma {:induction false} AtMostTransitive(a: string, b: string, c: string)
    requires AtMost(a, b) && AtMost(b, c)
    ensures AtMost(a, c)
  {
    if a != [] && a[0] == b[0] && b[0] == c[0] {
      AtMostTransitive(a[1..], b[1..], c[1..]);
    }
  }

  function Insert(x: string, s: seq<string>): (r: seq<string>)
    requires Ascending(s)
    ensures Ascending(r) && multiset(r) == multiset{x} + multiset(s)
  {
    if s == [] then [x]
    else if AtMost(x, s[0]) then
      assert Ascending([x] + s) by {
        forall j | 0 <= j < |s|
          ensures AtMost(x, s[j])
        {
          if j > 0 { AtMostTransitive(x, s[0], s[j]); }
        }
      }
      [x] + s
    else
      var rest := Insert(x, s[1..]);
      assert s == [s[0]] + s[1..];
      assert Ascending([s[0]] + rest) by {
        AtMostTotal(x, s[0]);
        forall j | 0 <= j < |rest|
          ensures AtMost(s[0], rest[j])
        {
          assert rest[j] in multiset(rest);
          assert rest[j] == x || rest[j] in s[1..];
        }
      }
      [s[0]] + rest
  }

  /** Ascending rearrangement of `s`. */
  function Sorted(s: seq<string>): (r: seq<string>)
    ensures Ascending(r) && multiset(r) == multiset(s)
  {
    if s == [] then []
    else
      assert s == [s[0]] + s[1..];
      Insert(s[0], Sorted(s[1..]))
  }

  predicate Distinct<T(==)>(s: seq<T>) {
    forall i, j :: 0 <= i < j < |s| ==> s[i] != s[j]
  }

  lemma SameElements<T>(s: seq<T>, r: seq<T>)
    requires multiset(s) == multiset(r)
    ensures |s| == |r| && forall x :: x in s <==> x in r
  {
    assert |multiset(s)| == |multiset(r)|;
    forall x
      ensures x in s <==> x in r
    {
      assert x in s <==> x in multiset(s);
      assert x in r <==> x in multiset(r);
    }
  }

  lemma {:induction false} DistinctCounts<T>(s: seq<T>)
    ensures Distinct(s) <==> forall x :: x in s ==> multiset(s)[x] == 1
  {
    if s != [] {
      var rest := s[1..];
      assert s == [s[0]] + rest;
      DistinctCounts(rest);
      if Distinct(s) {
        assert Distinct(rest);
        forall x | x in s
          ensures multiset(s)[x] == 1
        {
          if x != s[0] { assert x in rest; }
        }
      }
      if forall x :: x in s ==> multiset(s)[x] == 1 {
        assert s[0] in s && s[0] !in multiset(rest);
        forall x | x in rest
          ensures multiset(rest)[x] == 1
        {
          assert x in s;
        }
      }
    }
  }

  lemma DistinctRearranged<T>(s: seq<T>, r: seq<T>)
    requires Distinct(s) && multiset(s) == multiset(r)
    ensures Distinct(r)
  {
    SameElements(s, r);
    DistinctCounts(s);
    DistinctCounts(r);
  }

  lemma TakeNext<T>(s: seq<T>, i: nat)
    requires i < |s|
    ensures s[..i + 1] == s[..i] + [s[i]]
  {
  }

  lemma TakeAll<T>(s: seq<T>)
    ensures s[..|s|] == s
  {
  }
}
