/** The array combinators the source relies on (`filter`, `findIndex`, `find`),
    written once and specified independently of their recursive definitions. */
module Seqs {
  import opened Wrappers

  /** `s.filter(p)`: the elements satisfying `p`, each as often as it occurs
      in `s` (see FilterCount), in their original order (see FilterConcat). */
  function Filter<T(==,!new)>(p: T -> bool, s: seq<T>): (r: seq<T>)
    ensures |r| <= |s|
    ensures forall x :: x in r ==> x in s && p(x)
  {
    if s == [] then []
    else if p(s[0]) then [s[0]] + Filter(p, s[1..]) else Filter(p, s[1..])
  }

  /** Every element satisfying `p` is kept as often as it occurs, and no
      other element is kept. */
  lemma {:induction false} FilterCount<T(!new)>(p: T -> bool, s: seq<T>)
    ensures forall x :: multiset(Filter(p, s))[x] == if p(x) then multiset(s)[x] else 0
  {
    if s != [] {
      FilterCount(p, s[1..]);
      assert s == [s[0]] + s[1..];
    }
  }

  /** Filtering commutes with concatenation, so the kept elements keep their
      relative order. */
  lemma {:induction false} FilterConcat<T(!new)>(p: T -> bool, a: seq<T>, b: seq<T>)
    ensures Filter(p, a + b) == Filter(p, a) + Filter(p, b)
  {
    if a == [] {
      assert a + b == b;
    } else {
      assert (a + b)[1..] == a[1..] + b;
      FilterConcat(p, a[1..], b);
    }
  }

  /** Filtering a one-element sequence keeps the element exactly when it
      satisfies the predicate; with FilterConcat this determines Filter. */
  lemma FilterSingleton<T(!new)>(p: T -> bool, x: T)
    ensures Filter(p, [x]) == if p(x) then [x] else []
  {
    assert [x][1..] == [];
  }

  /** Filtering with a predicate that every element satisfies keeps all of them. */
  lemma {:induction false} FilterAll<T(!new)>(p: T -> bool, s: seq<T>)
    requires forall i :: 0 <= i < |s| ==> p(s[i])
    ensures Filter(p, s) == s
  {
    if s != [] {
      FilterAll(p, s[1..]);
    }
  }

  /** Two predicates that agree on every element keep the same elements. */
  lemma {:induction false} FilterCongruent<T(!new)>(p: T -> bool, q: T -> bool, s: seq<T>)
    requires forall i :: 0 <= i < |s| ==> p(s[i]) == q(s[i])
    ensures Filter(p, s) == Filter(q, s)
  {
    if s != [] {
      FilterCongruent(p, q, s[1..]);
    }
  }

  /** With both ends of a sequence kept, filtering keeps them around
      whatever the middle leaves. */
  lemma FilterEnds<T(!new)>(p: T -> bool, s: seq<T>)
    requires |s| >= 2 && p(s[0]) && p(s[|s| - 1])
    ensures Filter(p, s) == [s[0]] + Filter(p, s[1..|s| - 1]) + [s[|s| - 1]]
  {
    var tail, mid, y := s[1..], s[1..|s| - 1], s[|s| - 1];
    assert tail == mid + [y];
    FilterConcat(p, mid, [y]);
    FilterSingleton(p, y);
    var kept := Filter(p, tail);
    assert kept == Filter(p, mid) + [y];
    assert Filter(p, s) == [s[0]] + kept;
  }

  /** Nothing is kept exactly when no element satisfies the predicate. */
  lemma FilterEmpty<T(!new)>(p: T -> bool, s: seq<T>)
    ensures Filter(p, s) == [] <==> forall i :: 0 <= i < |s| ==> !p(s[i])
  {
    var r := Filter(p, s);
    FilterCount(p, s);
    if r != [] {
      assert r[0] in r;
    }
    forall i | 0 <= i < |s| && p(s[i]) ensures r != [] {
      assert s[i] in multiset(s);
      assert multiset(r)[s[i]] > 0;
    }
  }

  /** Everything is kept exactly when every element satisfies the predicate. */
  lemma {:induction false} FilterFull<T(!new)>(p: T -> bool, s: seq<T>)
    ensures |Filter(p, s)| == |s| <==> forall i :: 0 <= i < |s| ==> p(s[i])
  {
    if s != [] {
      FilterFull(p, s[1..]);
      if p(s[0]) {
        assert forall i :: 1 <= i < |s| ==> s[i] == s[1..][i - 1];
      }
    }
  }

  /** Overwriting one element changes the number of kept elements by what
      the new element adds and the old one took away. */
  lemma FilterUpdateLength<T(!new)>(p: T -> bool, s: seq<T>, k: nat, x: T)
    requires k < |s|
    ensures |Filter(p, s[k := x])| ==
      |Filter(p, s)| + (if p(x) then 1 else 0) - (if p(s[k]) then 1 else 0)
  {
    var pre, post := s[..k], s[k + 1..];
    assert s == pre + [s[k]] + post;
    assert s[k := x] == pre + [x] + post;
    FilterConcat(p, pre + [s[k]], post);
    FilterConcat(p, pre, [s[k]]);
    FilterConcat(p, pre + [x], post);
    FilterConcat(p, pre, [x]);
    FilterSingleton(p, s[k]);
    FilterSingleton(p, x);
  }

  /** `i` is the first index of `s` whose element satisfies `p`. */
  ghost predicate IsFirst<T>(p: T -> bool, s: seq<T>, i: int)
  {
    0 <= i < |s| && p(s[i]) && forall j :: 0 <= j < i ==> !p(s[j])
  }

  /** `s.findIndex(p)`, with `None` for JavaScript's `-1`. */
  function FirstIndex<T>(p: T -> bool, s: seq<T>): (r: Option<nat>)
    ensures r.Some? ==> IsFirst(p, s, r.value)
    ensures r.None? <==> forall j :: 0 <= j < |s| ==> !p(s[j])
  {
    if s == [] then None
    else if p(s[0]) then Some(0)
    else
      match FirstIndex(p, s[1..])
      case None => None
      case Some(k) => Some(k + 1)
  }

  /** Two sequences that agree, position by position, on the predicate have
      the same first matching index. */
  lemma {:induction false} FirstIndexCongruent<T, U>(p: T -> bool, s: seq<T>, q: U -> bool, t: seq<U>)
    requires |s| == |t|
    requires forall i :: 0 <= i < |s| ==> p(s[i]) == q(t[i])
    ensures FirstIndex(p, s) == FirstIndex(q, t)
  {
    if s != [] {
      FirstIndexCongruent(p, s[1..], q, t[1..]);
    }
  }

  /** `s.find(p)`: the first element satisfying `p`, if any. */
  function Find<T>(p: T -> bool, s: seq<T>): (r: Option<T>)
    ensures r.Some? ==> exists i :: IsFirst(p, s, i) && s[i] == r.value
    ensures r.None? <==> forall j :: 0 <= j < |s| ==> !p(s[j])
  {
    match FirstIndex(p, s)
    case None => None
    case Some(i) => Some(s[i])
  }
}
