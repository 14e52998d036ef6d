/**
 * Sequence operations the sources use through their standard libraries:
 * Array.prototype.filter, list(dict.fromkeys(...)) and the insertion order of
 * the keys of a JavaScript object.
 */
module Seqs {

  /** a is s with some elements left out: the elements of a occur in s in the same order. */
  predicate SubsequenceOf<T(==)>(a: seq<T>, s: seq<T>)
    decreases |s|
  {
    a == [] || (s != [] && ((a[0] == s[0] && SubsequenceOf(a[1..], s[1..])) || SubsequenceOf(a, s[1..])))
  }

  lemma {:induction false} SubsequenceOfSelf<T>(s: seq<T>)
    ensures SubsequenceOf(s, s)
  {
    if s != [] {
      SubsequenceOfSelf(s[1..]);
    }
  }

  /** Array.prototype.filter: the elements satisfying p, in their original order. */
  function Filter<T(!new)>(p: T -> bool, s: seq<T>): (r: seq<T>)
    ensures |r| <= |s|
    ensures forall x :: x in r <==> x in s && p(x)
    ensures SubsequenceOf(r, s)
  {
    if s == [] then []
    else
      var rest := Filter(p, s[1..]);
      assert ([s[0]] + rest)[1..] == rest && [] + rest == rest;
      (if p(s[0]) then [s[0]] else []) + rest
  }

  lemma {:induction false} FilterConcat<T(!new)>(p: T -> bool, a: seq<T>, b: seq<T>)
    ensures Filter(p, a + b) == Filter(p, a) + Filter(p, b)
  {
    if a == [] {
      assert a + b == b;
    } else {
      assert (a + b)[1..] == a[1..] + b;
      FilterConcat(p, a[1..], b);
    }
  }

  /** Filtering from the right end: how a loop that pushes accepted elements sees it. */
  lemma {:induction false} FilterSnoc<T(!new)>(p: T -> bool, s: seq<T>, x: T)
    ensures Filter(p, s + [x]) == Filter(p, s) + (if p(x) then [x] else [])
  {
    FilterConcat(p, s, [x]);
  }

  /** A filter that accepts every element returns the sequence itself. */
  lemma {:induction false} FilterKeepsAll<T(!new)>(p: T -> bool, s: seq<T>)
    requires forall x :: x in s ==> p(x)
    ensures Filter(p, s) == s
  {
    if s != [] {
      FilterKeepsAll(p, s[1..]);
    }
  }

  /** A filter and its complement split the sequence between them. */
  lemma {:induction false} FilterSplit<T(!new)>(p: T -> bool, q: T -> bool, s: seq<T>)
    requires forall x :: x in s ==> (p(x) <==> !q(x))
    ensures |Filter(p, s)| + |Filter(q, s)| == |s|
  {
    if s != [] {
      FilterSplit(p, q, s[1..]);
    }
  }

  predicate NoDuplicates<T(==)>(s: seq<T>) {
    forall i, j :: 0 <= i < j < |s| ==> s[i] != s[j]
  }

  /** Position of the first occurrence of x. */
  function FirstIndex<T(==)>(s: seq<T>, x: T): (k: nat)
    requires x in s
    ensures k < |s| && s[k] == x && x !in s[..k]
  {
    if s[0] == x then 0 else 1 + FirstIndex(s[1..], x)
  }

  lemma {:induction false} FirstIndexSnoc<T>(s: seq<T>, x: T, y: T)
    requires y in s
    ensures FirstIndex(s + [x], y) == FirstIndex(s, y)
  {
    var k := FirstIndex(s, y);
    assert (s + [x])[k] == y && (s + [x])[..k] == s[..k];
  }

  /**
   * list(dict.fromkeys(s)): every element once, at the place of its first
   * occurrence.
   */
  function Dedup<T(==,!new)>(s: seq<T>): (r: seq<T>)
    ensures NoDuplicates(r)
    ensures forall x :: x in r <==> x in s
    ensures |r| <= |s|
  {
    if s == [] then []
    else
      var p := Dedup(s[..|s| - 1]);
      var x := s[|s| - 1];
      assert forall y :: y in s <==> y in s[..|s| - 1] || y == x by {
        assert s == s[..|s| - 1] + [x];
      }
      if x in p then p else p + [x]
  }

  /** Dedup lists the elements in the order of their first occurrence. */
  lemma {:induction false} DedupOrder<T(!new)>(s: seq<T>, i: nat, j: nat)
    requires i < j < |Dedup(s)|
    ensures FirstIndex(s, Dedup(s)[i]) < FirstIndex(s, Dedup(s)[j])
  {
    var init := s[..|s| - 1];
    var x := s[|s| - 1];
    assert s == init + [x];
    var p := Dedup(init);
    var r := Dedup(s);
    if x in p {
      assert r == p;
      DedupOrder(init, i, j);
      FirstIndexSnoc(init, x, r[i]);
      FirstIndexSnoc(init, x, r[j]);
    } else if j < |p| {
      assert r[i] == p[i] && r[j] == p[j];
      DedupOrder(init, i, j);
      FirstIndexSnoc(init, x, r[i]);
      FirstIndexSnoc(init, x, r[j]);
    } else {
      assert r[j] == x && r[i] == p[i];
      FirstIndexSnoc(init, x, r[i]);
      assert x !in init;
      assert FirstIndex(s, x) == |init|;
    }
  }

  // ---------------------------------------------------------------------------
  // Building a text piece by piece

  /** Appending is associative (stated once so that callers need not reprove it pointwise). */
  lemma AppendAssoc<T>(a: seq<T>, b: seq<T>, c: seq<T>)
    ensures (a + b) + c == a + (b + c)
  {
  }

  /** The concatenation of f's value on each element, in order. */
  function ConcatMap<T, U>(f: T -> seq<U>, s: seq<T>): seq<U> {
    if s == [] then [] else ConcatMap(f, s[..|s| - 1]) + f(s[|s| - 1])
  }

  lemma {:induction false} ConcatMapConcat<T, U>(f: T -> seq<U>, a: seq<T>, b: seq<T>)
    ensures ConcatMap(f, a + b) == ConcatMap(f, a) + ConcatMap(f, b)
    decreases |b|
  {
    if b == [] {
      assert a + b == a;
    } else {
      assert (a + b)[..|a + b| - 1] == a + b[..|b| - 1];
      ConcatMapConcat(f, a, b[..|b| - 1]);
    }
  }

  /** Each element's piece sits in the result between the pieces before and after it. */
  lemma {:induction false} ConcatMapAt<T, U>(f: T -> seq<U>, s: seq<T>, k: nat)
    requires k < |s|
    ensures ConcatMap(f, s) == ConcatMap(f, s[..k]) + f(s[k]) + ConcatMap(f, s[k + 1..])
  {
    assert s == s[..k] + [s[k]] + s[k + 1..];
    ConcatMapConcat(f, s[..k] + [s[k]], s[k + 1..]);
    ConcatMapConcat(f, s[..k], [s[k]]);
    assert ConcatMap(f, [s[k]]) == f(s[k]) by {
      assert [s[k]][..0] == [];
    }
  }
}
