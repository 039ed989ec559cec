/**
 * The four JavaScript array operations the registry is built from, over
 * Dafny sequences: `Array.prototype.find`, `Array.prototype.filter`,
 * `Array.prototype.map`, and
 * `Array.from(new Set(xs))` (a `Set` iterates in insertion order, so this
 * keeps the first occurrence of every element, in order).
 */
module Sequences {
  import opened Wrappers

  /** `a` can be obtained from `b` by deleting elements (greedy matching). */
  predicate IsSubsequence<T(==)>(a: seq<T>, b: seq<T>)
    decreases |b|
  {
    if a == [] then true
    else if b == [] then false
    else if a[0] == b[0] then IsSubsequence(a[1..], b[1..])
    else IsSubsequence(a, b[1..])
  }

  predicate NoDuplicates<T(==)>(s: seq<T>)
  {
    forall i, j :: 0 <= i < j < |s| ==> s[i] != s[j]
  }

  /** Some occurrence of `x` in `s` comes before every occurrence of `y`. */
  ghost predicate OccursFirst<T>(s: seq<T>, x: T, y: T)
  {
    exists k :: 0 <= k < |s| && s[k] == x && y !in s[..k]
  }

  // ----------------------------------------------------------------- map

  /** `s.map(f)`: `f` applied to every element, in order. */
  function Map<T, U>(s: seq<T>, f: T -> U): (r: seq<U>)
    ensures |r| == |s| && forall i :: 0 <= i < |s| ==> r[i] == f(s[i])
  {
    seq(|s|, i requires 0 <= i < |s| => f(s[i]))
  }

  // ---------------------------------------------------------------- find

  /**
   * `s.find(p)`: the first element satisfying `p`, or `None` when there is
   * none.
   */
  function FindFirst<T>(s: seq<T>, p: T -> bool): (r: Option<T>)
    ensures r.None? <==> forall x :: x in s ==> !p(x)
    ensures r.Some? ==>
      exists i :: 0 <= i < |s| && s[i] == r.value && p(s[i]) &&
        forall j :: 0 <= j < i ==> !p(s[j])
  {
    if s == [] then None
    else if p(s[0]) then Some(s[0])
    else
      var r := FindFirst(s[1..], p);
      assert forall x :: x in s ==> x == s[0] || x in s[1..];
      assert r.Some? ==> exists i :: (1 <= i < |s| && s[i] == r.value && p(s[i]) &&
        forall j :: 0 <= j < i ==> !p(s[j])) by {
        if r.Some? {
          var i :| 0 <= i < |s[1..]| && s[1..][i] == r.value && p(s[1..][i]) &&
            forall j :: 0 <= j < i ==> !p(s[1..][j]);
          assert forall j :: 1 <= j < i + 1 ==> s[j] == s[1..][j - 1];
        }
      }
      r
  }

  /** When exactly one element satisfies `p`, `find` returns exactly that one. */
  lemma FindFirstUnique<T>(s: seq<T>, p: T -> bool, x: T)
    requires x in s && p(x)
    requires forall y :: y in s && p(y) ==> y == x
    ensures FindFirst(s, p) == Some(x)
  {
  }

  // -------------------------------------------------------------- filter

  /** `s.filter(p)`: the elements satisfying `p`, in their original order. */
  function Filter<T>(s: seq<T>, p: T -> bool): (r: seq<T>)
    ensures |r| <= |s|
    ensures forall x :: x in r ==> x in s && p(x)
    ensures forall x :: x in s && p(x) ==> x in r
  {
    if s == [] then []
    else
      var rest := Filter(s[1..], p);
      assert forall x :: x in s ==> x == s[0] || x in s[1..];
      if p(s[0]) then [s[0]] + rest else rest
  }

  /**
   * Multiplicity: every passing element occurs in the result exactly as
   * often as in `s`, and every other element not at all.
   */
  lemma {:induction false} FilterMultiplicity<T>(s: seq<T>, p: T -> bool, x: T)
    ensures multiset(Filter(s, p))[x] == if p(x) then multiset(s)[x] else 0
  {
    if s != [] {
      FilterMultiplicity(s[1..], p, x);
      FilterUnfold(s, p);
      assert s == [s[0]] + s[1..];
      assert multiset(s) == multiset{s[0]} + multiset(s[1..]);
      if p(s[0]) {
        assert multiset([s[0]] + Filter(s[1..], p)) == multiset{s[0]} + multiset(Filter(s[1..], p));
      }
    }
  }

  /** Filtering keeps the relative order of the kept elements. */
  lemma {:induction false} FilterIsSubsequence<T>(s: seq<T>, p: T -> bool)
    ensures IsSubsequence(Filter(s, p), s)
  {
    if s != [] {
      FilterIsSubsequence(s[1..], p);
      var rest := Filter(s[1..], p);
      if p(s[0]) {
        assert Filter(s, p) == [s[0]] + rest;
        assert ([s[0]] + rest)[1..] == rest;
      } else if rest != [] {
        assert rest[0] in rest;
        assert rest[0] != s[0];
      }
    }
  }

  /**
   * Filtering distributes over concatenation. Together with the value on a
   * one-element sequence this pins `Filter` down completely: the result is
   * the kept elements, each as often as it occurs, in the original order.
   */
  lemma {:induction false} FilterAppend<T>(a: seq<T>, b: seq<T>, p: T -> bool)
    ensures Filter(a + b, p) == Filter(a, p) + Filter(b, p)
  {
    if a != [] {
      assert (a + b)[1..] == a[1..] + b;
      FilterAppend(a[1..], b, p);
    } else {
      assert a + b == b;
    }
  }

  /** One step of `Filter`, as a fact to call on a non-empty sequence. */
  lemma FilterUnfold<T>(s: seq<T>, p: T -> bool)
    requires s != []
    ensures Filter(s, p) == if p(s[0]) then [s[0]] + Filter(s[1..], p) else Filter(s[1..], p)
  {
  }

  lemma FilterSingleton<T>(x: T, p: T -> bool)
    ensures Filter([x], p) == if p(x) then [x] else []
  {
  }

  /** When no element passes, filtering returns nothing. */
  lemma FilterNoneKept<T>(s: seq<T>, p: T -> bool)
    requires forall x :: x in s ==> !p(x)
    ensures Filter(s, p) == []
  {
  }

  /** When every element passes, filtering returns the input unchanged. */
  lemma {:induction false} FilterAllKept<T>(s: seq<T>, p: T -> bool)
    requires forall x :: x in s ==> p(x)
    ensures Filter(s, p) == s
  {
    if s != [] {
      assert forall x :: x in s[1..] ==> x in s;
      FilterAllKept(s[1..], p);
      calc {
        Filter(s, p);
        [s[0]] + Filter(s[1..], p);
        [s[0]] + s[1..];
        s;
      }
    }
  }

  /** Two predicates that agree on the elements of `s` filter it alike. */
  lemma {:induction false} FilterCongruent<T>(s: seq<T>, p: T -> bool, q: T -> bool)
    requires forall x :: x in s ==> p(x) == q(x)
    ensures Filter(s, p) == Filter(s, q)
  {
    if s != [] {
      assert forall x :: x in s[1..] ==> x in s;
      FilterCongruent(s[1..], p, q);
    }
  }

  // --------------------------------------------------------------- dedup

  /**
   * `Array.from(new Set(s))`: every element once, in the order of its first
   * occurrence. Written as the `Set` is built: scan left to right and append
   * an element only if it has not been seen.
   */
  function Dedup<T(==)>(s: seq<T>): (r: seq<T>)
    ensures forall x :: x in r ==> x in s
    ensures forall x :: x in s ==> x in r
    ensures NoDuplicates(r)
    decreases |s|
  {
    if s == [] then []
    else
      var init := s[..|s| - 1];
      var d := Dedup(init);
      assert s == init + [s[|s| - 1]];
      if s[|s| - 1] in d then d else d + [s[|s| - 1]]
  }

  /** Extending a sequence at the end keeps earlier "occurs first" facts. */
  lemma OccursFirstExtend<T>(s: seq<T>, e: T, x: T, y: T)
    requires OccursFirst(s, x, y)
    ensures OccursFirst(s + [e], x, y)
  {
    var k :| 0 <= k < |s| && s[k] == x && y !in s[..k];
    assert (s + [e])[..k] == s[..k];
    assert (s + [e])[k] == x;
  }

  /** The result of `Dedup` lists elements in first-occurrence order. */
  lemma {:induction false} DedupFirstOccurrenceOrder<T>(s: seq<T>)
    ensures forall i, j :: 0 <= i < j < |Dedup(s)| ==>
      OccursFirst(s, Dedup(s)[i], Dedup(s)[j])
    decreases |s|
  {
    if s != [] {
      var init, e := s[..|s| - 1], s[|s| - 1];
      assert s == init + [e];
      var d := Dedup(init);
      DedupFirstOccurrenceOrder(init);
      forall i, j | 0 <= i < j < |d|
        ensures OccursFirst(s, d[i], d[j])
      {
        OccursFirstExtend(init, e, d[i], d[j]);
      }
      if e !in d {
        var r := d + [e];
        assert Dedup(s) == r;
        forall i | 0 <= i < |d|
          ensures OccursFirst(s, r[i], r[|d|])
        {
          assert d[i] in init;
          var k :| 0 <= k < |init| && init[k] == d[i];
          assert s[k] == d[i];
          assert s[..k] == init[..k];
          assert e !in init;
        }
      }
    }
  }
}
