/**
 * The Kotlin collection operations the framework's pipelines are built from:
 * `filter`, `map`, `toSet` and `toMap`, each over a finite sequence.
 */
module Collections {

  /** `filter`: the elements that satisfy `p`, in their original order. */
  function Filter<T>(s: seq<T>, p: T -> bool): (r: seq<T>)
    ensures |r| <= |s|
    ensures forall i :: 0 <= i < |r| ==> r[i] in s && p(r[i])
    ensures forall i :: 0 <= i < |s| && p(s[i]) ==> s[i] in r
  {
    if s == [] then [] else (if p(s[0]) then [s[0]] else []) + Filter(s[1..], p)
  }

  /** Filtering a concatenation filters each part. */
  lemma {:induction false} FilterAppend<T>(a: seq<T>, b: seq<T>, p: T -> bool)
    ensures Filter(a + b, p) == Filter(a, p) + Filter(b, p)
  {
    if a != [] {
      assert (a + b)[0] == a[0];
      assert (a + b)[1..] == a[1..] + b;
      FilterAppend(a[1..], b, p);
    } else {
      assert a + b == b;
    }
  }

  /** A sequence is its prefix followed by its suffix. */
  lemma SplitAt<T>(s: seq<T>, i: nat)
    requires i <= |s|
    ensures s[..i] + s[i..] == s
  {
  }

  /** Inserting an element `filter` drops, at any position, does not change the result. */
  lemma FilterInsertRejected<T>(s: seq<T>, i: nat, x: T, p: T -> bool)
    requires i <= |s| && !p(x)
    ensures Filter(s[..i] + [x] + s[i..], p) == Filter(s, p)
  {
    var front, back := s[..i], s[i..];
    SplitAt(s, i);
    assert Filter([x], p) == [];
    calc {
      Filter(front + [x] + back, p);
      { FilterAppend(front + [x], back, p); }
      Filter(front + [x], p) + Filter(back, p);
      { FilterAppend(front, [x], p); }
      Filter(front, p) + [] + Filter(back, p);
      { assert Filter(front, p) + [] == Filter(front, p); }
      Filter(front, p) + Filter(back, p);
      { FilterAppend(front, back, p); }
      Filter(s, p);
    }
  }

  /** `filter` keeps every occurrence of a satisfying element and none of the others. */
  lemma {:induction false} FilterCounts<T>(s: seq<T>, p: T -> bool)
    ensures forall x :: multiset(Filter(s, p))[x] == if p(x) then multiset(s)[x] else 0
  {
    if s != [] {
      FilterCounts(s[1..], p);
      assert s == [s[0]] + s[1..];
      assert multiset(s) == multiset{s[0]} + multiset(s[1..]);
      assert multiset(Filter(s, p)) == multiset(if p(s[0]) then [s[0]] else []) + multiset(Filter(s[1..], p));
    }
  }

  /** `map`: `f` applied to every element, in order. */
  function Map<T, U>(s: seq<T>, f: T -> U): (r: seq<U>)
    ensures |r| == |s|
    ensures forall i :: 0 <= i < |s| ==> r[i] == f(s[i])
  {
    if s == [] then [] else [f(s[0])] + Map(s[1..], f)
  }

  /** Mapping a concatenation maps each part. */
  lemma MapAppend<T, U>(a: seq<T>, b: seq<T>, f: T -> U)
    ensures Map(a + b, f) == Map(a, f) + Map(b, f)
  {
    assert forall i :: 0 <= i < |a + b| ==> Map(a + b, f)[i] == (Map(a, f) + Map(b, f))[i];
  }

  /** `toSet`: the distinct elements, regardless of order and repetition. */
  function ToSet<T(!new)>(s: seq<T>): (r: set<T>)
    ensures |r| <= |s|
    ensures forall x :: x in r <==> x in s
  {
    if s == [] then {} else {s[0]} + ToSet(s[1..])
  }

  /**
   * `toMap` on a sequence of pairs: a left fold that puts the pairs into an
   * empty map one by one, so a later pair with the same key replaces an
   * earlier one.
   */
  function ToMap<K(!new), V>(pairs: seq<(K, V)>): (m: map<K, V>)
    ensures forall i :: 0 <= i < |pairs| ==> pairs[i].0 in m
    ensures forall k :: k in m ==> exists i :: 0 <= i < |pairs| && pairs[i] == (k, m[k])
  {
    if pairs == [] then map[]
    else
      var last := pairs[|pairs| - 1];
      ToMap(pairs[..|pairs| - 1])[last.0 := last.1]
  }

  /** The entry for the key of the last pair that carries it is that pair's value. */
  lemma {:induction false} ToMapLastWins<K(!new), V>(pairs: seq<(K, V)>, i: nat)
    requires i < |pairs|
    requires forall j :: i < j < |pairs| ==> pairs[j].0 != pairs[i].0
    ensures pairs[i].0 in ToMap(pairs) && ToMap(pairs)[pairs[i].0] == pairs[i].1
  {
    if i < |pairs| - 1 {
      var init := pairs[..|pairs| - 1];
      assert init[i] == pairs[i];
      ToMapLastWins(init, i);
    }
  }

  /** Folding one more pair updates the map with it. */
  lemma ToMapSnoc<K(!new), V>(pairs: seq<(K, V)>, p: (K, V))
    ensures ToMap(pairs + [p]) == ToMap(pairs)[p.0 := p.1]
  {
    var s := pairs + [p];
    assert s[..|s| - 1] == pairs;
  }

  /** Folding a concatenation: the map of the second part overrides that of the first. */
  lemma {:induction false} ToMapAppend<K(!new), V>(a: seq<(K, V)>, b: seq<(K, V)>)
    ensures ToMap(a + b) == ToMap(a) + ToMap(b)
  {
    if b == [] {
      assert a + b == a;
    } else {
      var last := b[|b| - 1];
      var b' := b[..|b| - 1];
      assert b == b' + [last];
      assert a + b == (a + b') + [last];
      ToMapAppend(a, b');
      ToMapSnoc(a + b', last);
      ToMapSnoc(b', last);
      UpdateAfterUnion(ToMap(a), ToMap(b'), last.0, last.1);
    }
  }

  /** Updating a union updates its right operand, which wins on shared keys. */
  lemma UpdateAfterUnion<K, V>(m1: map<K, V>, m2: map<K, V>, k: K, v: V)
    ensures (m1 + m2)[k := v] == m1 + m2[k := v]
  {
  }
}
