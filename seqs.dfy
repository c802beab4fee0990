/** JavaScript's `Array.prototype.filter` and `Array.prototype.map` over sequences, with
    callbacks that may throw (a callback result of `None`), and a pure reference filter
    they are proved against. */
module Seqs {
  import opened Wrappers

  /** `a` is `b` with some elements left out: every element of `a` comes from `b`, in
      `b`'s order. */
  predicate IsSubsequence<T(==,!new)>(a: seq<T>, b: seq<T>)
    decreases |b|
  {
    if b == [] then a == []
    else (a != [] && a[0] == b[0] && IsSubsequence(a[1..], b[1..])) || IsSubsequence(a, b[1..])
  }

  /** The reference filter: the elements of `s` that satisfy `keep`, in their order, each
      as often as it occurs in `s`. */
  function Select<T(==,!new)>(s: seq<T>, keep: T -> bool): (r: seq<T>)
    ensures IsSubsequence(r, s)
    ensures forall x :: x in r <==> x in s && keep(x)
    ensures forall x :: multiset(r)[x] == if keep(x) then multiset(s)[x] else 0
  {
    if s == [] then []
    else
      var rest := Select(s[1..], keep);
      assert forall x :: x in s <==> x == s[0] || x in s[1..];
      assert s == [s[0]] + s[1..];
      assert forall x :: multiset(s)[x] == multiset([s[0]])[x] + multiset(s[1..])[x];
      if keep(s[0]) then [s[0]] + rest else rest
  }

  /** `Array.prototype.filter(callback)`: the callback runs on every element in order; a
      callback that throws (returns `None`) aborts the whole call. */
  function Filter<T(==,!new)>(s: seq<T>, keep: T -> Option<bool>): (r: Option<seq<T>>)
    ensures r.None? <==> exists x :: x in s && keep(x).None?
  {
    if s == [] then Some([])
    else
      assert forall x :: x in s <==> x == s[0] || x in s[1..];
      match keep(s[0])
      case None => None
      case Some(b) =>
        match Filter(s[1..], keep)
        case None => None
        case Some(rest) => Some(if b then [s[0]] + rest else rest)
  }

  /** `Array.prototype.map(callback)`, with the same exception behaviour as `Filter`. */
  function Map<T(==,!new), U>(s: seq<T>, f: T -> Option<U>): (r: Option<seq<U>>)
    ensures r.None? <==> exists x :: x in s && f(x).None?
    ensures r.Some? ==> |r.value| == |s| && forall i :: 0 <= i < |s| ==> f(s[i]) == Some(r.value[i])
  {
    if s == [] then Some([])
    else
      assert forall x :: x in s <==> x == s[0] || x in s[1..];
      match f(s[0])
      case None => None
      case Some(y) =>
        match Map(s[1..], f)
        case None => None
        case Some(rest) => Some([y] + rest)
  }

  /** A filter applied to the array an earlier statement produced, unless that one threw. */
  function AndThenFilter<T(==,!new)>(o: Option<seq<T>>, keep: T -> Option<bool>): Option<seq<T>>
  {
    match o
    case None => None
    case Some(s) => Filter(s, keep)
  }

  /** What two chained filters do to one element: the second callback only sees the
      elements the first one kept. */
  function Both(first: Option<bool>, second: Option<bool>): Option<bool>
  {
    match first
    case None => None
    case Some(false) => Some(false)
    case Some(true) => second
  }

  /** A filter whose callback never throws on `s` and agrees with `ref` computes `Select`. */
  lemma {:induction false} FilterIsSelect<T(!new)>(s: seq<T>, keep: T -> Option<bool>, ref: T -> bool)
    requires forall x :: x in s ==> keep(x) == Some(ref(x))
    ensures Filter(s, keep) == Some(Select(s, ref))
  {
    if s != [] {
      assert forall x :: x in s[1..] ==> x in s;
      FilterIsSelect(s[1..], keep, ref);
    }
  }

  /** Selecting with a predicate every element satisfies returns the sequence unchanged. */
  lemma {:induction false} SelectAll<T(!new)>(s: seq<T>, keep: T -> bool)
    requires forall x :: x in s ==> keep(x)
    ensures Select(s, keep) == s
  {
    if s != [] {
      assert forall x :: x in s[1..] ==> x in s;
      SelectAll(s[1..], keep);
      assert s == [s[0]] + s[1..];
    }
  }

  /** Selecting with a predicate no element satisfies leaves nothing. */
  lemma {:induction false} SelectNone<T(!new)>(s: seq<T>, keep: T -> bool)
    requires forall x :: x in s ==> !keep(x)
    ensures Select(s, keep) == []
  {
    if s != [] {
      assert forall x :: x in s[1..] ==> x in s;
      SelectNone(s[1..], keep);
    }
  }

  /** Two filters one after the other are one filter by the conjunction of their
      callbacks, including when and whether the pair throws. */
  lemma {:induction false} FilterFuse<T(!new)>(s: seq<T>, p: T -> Option<bool>, q: T -> Option<bool>, pq: T -> Option<bool>)
    requires forall x :: x in s ==> pq(x) == Both(p(x), q(x))
    ensures AndThenFilter(Filter(s, p), q) == Filter(s, pq)
  {
    if s != [] {
      assert forall x :: x in s[1..] ==> x in s;
      FilterFuse(s[1..], p, q, pq);
      var first := Filter(s[1..], p);
      if p(s[0]) == Some(true) && first.Some? {
        var kept := [s[0]] + first.value;
        assert kept[0] == s[0] && kept[1..] == first.value;
      }
    }
  }

  /** Two filters whose callbacks throw on the same elements of `s` may run over it in
      either order. */
  lemma FilterCommutes<T(!new)>(s: seq<T>, p: T -> Option<bool>, q: T -> Option<bool>)
    requires forall x :: x in s ==> (p(x).None? <==> q(x).None?)
    ensures AndThenFilter(Filter(s, p), q) == AndThenFilter(Filter(s, q), p)
  {
    var pq := x => Both(p(x), q(x));
    assert forall x :: x in s ==> pq(x) == Both(q(x), p(x));
    FilterFuse(s, p, q, pq);
    FilterFuse(s, q, p, pq);
  }
}
