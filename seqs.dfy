/**
 * Order-preserving filtering of sequences, the `[x for x in xs if p(x)]`
 * comprehension, and the facts about it the other modules rely on; and
 * comprehensions whose element expression may raise.
 */
module Seqs {
  import opened Sorting
  import opened Wrappers

  function Filter<T>(s: seq<T>, p: T -> bool): seq<T>
  {
    if s == [] then [] else (if p(s[0]) then [s[0]] else []) + Filter(s[1..], p)
  }

  /** An element is kept iff it occurs in the input and satisfies `p`. */
  lemma {:induction false} FilterMembers<T>(s: seq<T>, p: T -> bool)
    ensures forall x :: x in Filter(s, p) ==> x in s && p(x)
    ensures forall x :: x in s && p(x) ==> x in Filter(s, p)
  {
    if s != [] {
      FilterMembers(s[1..], p);
      assert forall x :: x in s <==> x == s[0] || x in s[1..];
    }
  }

  /** Every kept element keeps its multiplicity; the others are dropped. */
  lemma {:induction false} FilterMultiset<T>(s: seq<T>, p: T -> bool)
    ensures forall x :: multiset(Filter(s, p))[x] == if p(x) then multiset(s)[x] else 0
  {
    if s != [] {
      FilterMultiset(s[1..], p);
      assert s == [s[0]] + s[1..];
    }
  }

  /** Filtering never lengthens a sequence. */
  lemma {:induction false} FilterLength<T>(s: seq<T>, p: T -> bool)
    ensures |Filter(s, p)| <= |s|
  {
    if s != [] {
      FilterLength(s[1..], p);
    }
  }

  lemma FilterCons<T>(x: T, s: seq<T>, p: T -> bool)
    ensures Filter([x] + s, p) == (if p(x) then [x] else []) + Filter(s, p)
  {
    assert ([x] + s)[1..] == s;
  }

  /** Filtering a sequence extended by one element, as a loop over it does. */
  lemma {:induction false} FilterSnoc<T>(s: seq<T>, x: T, p: T -> bool)
    ensures Filter(s + [x], p) == Filter(s, p) + (if p(x) then [x] else [])
  {
    if s == [] {
      assert s + [x] == [x];
    } else {
      FilterSnoc(s[1..], x, p);
      assert s + [x] == [s[0]] + (s[1..] + [x]);
      FilterCons(s[0], s[1..] + [x], p);
      FilterCons(s[0], s[1..], p);
      assert s == [s[0]] + s[1..];
    }
  }

  /** A filtered sorted sequence is still sorted. */
  lemma {:induction false} FilterSorted<T>(s: seq<T>, p: T -> bool, key: T -> real)
    requires SortedDesc(s, key)
    ensures SortedDesc(Filter(s, p), key)
  {
    if s != [] {
      FilterSorted(s[1..], p, key);
      FilterMembers(s[1..], p);
      var rest := Filter(s[1..], p);
      forall j | 0 <= j < |rest|
        ensures key(s[0]) >= key(rest[j])
      {
        assert rest[j] in rest;
        var k :| 0 <= k < |s[1..]| && s[1..][k] == rest[j];
        assert s[k + 1] == rest[j];
      }
    }
  }

  /** Filtering commutes with taking the elements of one key. */
  lemma {:induction false} FilterWithKey<T>(s: seq<T>, p: T -> bool, key: T -> real, c: real)
    ensures WithKey(Filter(s, p), key, c) == Filter(WithKey(s, key, c), p)
  {
    if s != [] {
      var x, tail := s[0], s[1..];
      FilterWithKey(tail, p, key, c);
      var rest, w := Filter(tail, p), WithKey(tail, key, c);
      if p(x) {
        WithKeyCons(x, rest, key, c);
      } else {
        assert Filter(s, p) == rest;
      }
      if key(x) == c {
        FilterCons(x, w, p);
        assert WithKey(s, key, c) == [x] + w;
      } else {
        assert WithKey(s, key, c) == w;
      }
    }
  }

  /** When every element passes, filtering changes nothing. */
  lemma {:induction false} FilterAll<T>(s: seq<T>, p: T -> bool)
    requires forall i :: 0 <= i < |s| ==> p(s[i])
    ensures Filter(s, p) == s
  {
    if s != [] {
      FilterAll(s[1..], p);
    }
  }

  /** When no element passes, nothing is kept. */
  lemma {:induction false} FilterNone<T>(s: seq<T>, p: T -> bool)
    requires forall i :: 0 <= i < |s| ==> !p(s[i])
    ensures Filter(s, p) == []
  {
    if s != [] {
      FilterNone(s[1..], p);
    }
  }

  /** Taking one element more from a sequence appends that element. */
  lemma TakeSnoc<T>(s: seq<T>, i: nat)
    requires i < |s|
    ensures s[..i + 1] == s[..i] + [s[i]]
  {
  }

  /** Dropping the last element of `s + [x]` gives back `s`. */
  lemma DropSnoc<T>(s: seq<T>, x: T)
    ensures (s + [x])[..|s|] == s
  {
  }

  /** A non-empty sequence is its front followed by its last element. */
  lemma FrontLast<T>(s: seq<T>)
    requires s != []
    ensures s[..|s| - 1] + [s[|s| - 1]] == s
  {
  }

  /** A slice of `a + b` that lies past `a` is a slice of `b`. */
  lemma SliceAfter<T>(a: seq<T>, b: seq<T>, lo: nat, hi: nat)
    requires lo <= hi <= |b|
    ensures (a + b)[|a| + lo..|a| + hi] == b[lo..hi]
  {
  }

  /** A slice of `a + b` that lies within `a` is a slice of `a`. */
  lemma SliceWithin<T>(a: seq<T>, b: seq<T>, lo: nat, hi: nat)
    requires lo <= hi <= |a|
    ensures (a + b)[lo..hi] == a[lo..hi]
  {
  }

  /**
   * A list comprehension whose element expression may raise: the results in
   * order, or the error of the first element that raises.
   */
  function MapResult<A, B>(xs: seq<A>, f: A -> Result<B>): Result<seq<B>>
  {
    if xs == [] then Success([])
    else
      var y := f(xs[0]);
      var rest := MapResult(xs[1..], f);
      if y.Failure? then Failure(y.error)
      else if rest.Failure? then Failure(rest.error)
      else Success([y.value] + rest.value)
  }

  /**
   * The comprehension succeeds exactly when every element does, and then
   * gives one result per element, in order; otherwise it fails with the
   * error of the first element that fails.
   */
  lemma {:induction false} MapResultSpec<A, B>(xs: seq<A>, f: A -> Result<B>)
    ensures MapResult(xs, f).Success? <==> forall i :: 0 <= i < |xs| ==> f(xs[i]).Success?
    ensures MapResult(xs, f).Failure? ==> exists i :: (0 <= i < |xs| && f(xs[i]) == Failure(MapResult(xs, f).error)
                  && forall j :: 0 <= j < i ==> f(xs[j]).Success?)
    ensures MapResult(xs, f).Success? ==> |MapResult(xs, f).value| == |xs|
    ensures MapResult(xs, f).Success? ==>
      forall i :: 0 <= i < |xs| ==> f(xs[i]) == Success(MapResult(xs, f).value[i])
  {
    if xs != [] {
      var y := f(xs[0]);
      var rest := MapResult(xs[1..], f);
      MapResultSpec(xs[1..], f);
      assert forall i :: 1 <= i < |xs| ==> xs[i] == xs[1..][i - 1];
      if y.Failure? {
        assert f(xs[0]) == Failure(MapResult(xs, f).error);
      } else if rest.Failure? {
        var i :| 0 <= i < |xs[1..]| && f(xs[1..][i]) == Failure(rest.error)
          && forall j :: 0 <= j < i ==> f(xs[1..][j]).Success?;
        assert f(xs[i + 1]) == Failure(MapResult(xs, f).error);
        assert forall j :: 0 <= j < i + 1 ==> f(xs[j]).Success?;
      } else {
        var ys := [y.value] + rest.value;
        assert forall i :: 1 <= i < |xs| ==> ys[i] == rest.value[i - 1];
      }
    }
  }

  /** The results of `f` on the elements, concatenated in order. */
  function Flatten<A, B>(xs: seq<A>, f: A -> seq<B>): seq<B>
  {
    if xs == [] then [] else f(xs[0]) + Flatten(xs[1..], f)
  }

  /** Appending an element appends its result. */
  lemma {:induction false} FlattenSnoc<A, B>(xs: seq<A>, x: A, f: A -> seq<B>)
    ensures Flatten(xs + [x], f) == Flatten(xs, f) + f(x)
  {
    if xs == [] {
      assert [] + [x] == [x];
    } else {
      FlattenSnoc(xs[1..], x, f);
      assert (xs + [x])[1..] == xs[1..] + [x];
    }
  }
}
