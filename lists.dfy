/**
 * The array queries the store, the services and the panels use: `Array.prototype.filter`,
 * `findIndex`, `find` and `Math.max` over a list.
 */
module Lists {
  import opened Wrappers

  /** `s.filter(keep)`: the elements that satisfy `keep`, in their original order. */
  function Filter<T(!new)>(s: seq<T>, keep: T -> bool): (r: seq<T>)
    ensures |r| <= |s|
    ensures forall x :: x in r <==> x in s && keep(x)
  {
    if s == [] then []
    else
      assert s == [s[0]] + s[1..];
      (if keep(s[0]) then [s[0]] else []) + Filter(s[1..], keep)
  }

  /** `r` is `s` with some elements left out: what remains keeps its order. */
  predicate SubsequenceOf<T(==)>(r: seq<T>, s: seq<T>)
    decreases |s|
  {
    if r == [] then true
    else if s == [] then false
    else if r[0] == s[0] then SubsequenceOf(r[1..], s[1..])
    else SubsequenceOf(r, s[1..])
  }

  /**
   * The filtered list keeps the surviving elements in their original order, each as often as
   * it occurs in `s`; with the elements it leaves out this fixes the list.
   */
  lemma {:induction false} FilterKeepsOrder<T(!new)>(s: seq<T>, keep: T -> bool)
    ensures SubsequenceOf(Filter(s, keep), s)
    ensures forall x :: multiset(Filter(s, keep))[x] == if keep(x) then multiset(s)[x] else 0
  {
    if s != [] {
      FilterKeepsOrder(s[1..], keep);
      assert s == [s[0]] + s[1..];
      assert multiset(s) == multiset{s[0]} + multiset(s[1..]);
      var r := Filter(s, keep);
      var t := Filter(s[1..], keep);
      if keep(s[0]) {
        assert r == [s[0]] + t;
        assert r[1..] == t;
        assert multiset(r) == multiset{s[0]} + multiset(t);
      } else {
        assert r == t;
        if r != [] {
          assert r[0] in r;
        }
      }
    }
  }

  /** Some element satisfies `p` exactly when one before the last does or the last one does. */
  lemma ExistsSplit<T>(s: seq<T>, init: seq<T>, p: T -> bool)
    requires s != [] && init == s[..|s| - 1]
    ensures (exists i :: 0 <= i < |s| && p(s[i])) <==> (exists i :: 0 <= i < |init| && p(init[i])) || p(s[|s| - 1])
  {
    forall i | 0 <= i < |init| ensures init[i] == s[i] { }
  }

  /** Filtering with a predicate every element satisfies keeps the whole sequence. */
  lemma {:induction false} FilterAll<T(!new)>(s: seq<T>, keep: T -> bool)
    requires forall x :: x in s ==> keep(x)
    ensures Filter(s, keep) == s
  {
    if s != [] {
      assert s == [s[0]] + s[1..];
      FilterAll(s[1..], keep);
    }
  }

  /** Filtering with a predicate no element satisfies leaves nothing. */
  lemma {:induction false} FilterNone<T(!new)>(s: seq<T>, keep: T -> bool)
    requires forall x :: x in s ==> !keep(x)
    ensures Filter(s, keep) == []
  {
    if s != [] {
      assert s == [s[0]] + s[1..];
      FilterNone(s[1..], keep);
    }
  }

  /** Filtering distributes over concatenation: it keeps the relative order of what survives. */
  lemma {:induction false} FilterConcat<T(!new)>(a: seq<T>, b: seq<T>, keep: T -> bool)
    ensures Filter(a + b, keep) == Filter(a, keep) + Filter(b, keep)
    decreases |a|
  {
    if a == [] {
      assert a + b == b;
    } else {
      assert (a + b)[0] == a[0] && (a + b)[1..] == a[1..] + b;
      FilterConcat(a[1..], b, keep);
    }
  }

  /** No two positions of `s` carry the same key. */
  ghost predicate DistinctBy<T, K>(s: seq<T>, key: T -> K)
  {
    forall i, j :: 0 <= i < j < |s| ==> key(s[i]) != key(s[j])
  }

  lemma TailDistinct<T, K>(s: seq<T>, key: T -> K)
    requires s != [] && DistinctBy(s, key)
    ensures DistinctBy(s[1..], key)
  {
    var tail := s[1..];
    forall i, j | 0 <= i < j < |tail| ensures key(tail[i]) != key(tail[j]) {
      assert tail[i] == s[i + 1] && tail[j] == s[j + 1];
    }
  }

  lemma ConsDistinct<T, K>(x: T, t: seq<T>, key: T -> K)
    requires DistinctBy(t, key) && forall y :: y in t ==> key(y) != key(x)
    ensures DistinctBy([x] + t, key)
  {
    var r := [x] + t;
    forall i, j | 0 <= i < j < |r| ensures key(r[i]) != key(r[j]) {
      assert r[j] == t[j - 1];
      if 0 < i {
        assert r[i] == t[i - 1];
      }
    }
  }

  /** Filtering keeps keys distinct: the result is a subsequence. */
  lemma {:induction false} FilterKeepsDistinct<T(!new), K>(s: seq<T>, keep: T -> bool, key: T -> K)
    requires DistinctBy(s, key)
    ensures DistinctBy(Filter(s, keep), key)
  {
    if s != [] {
      var tail := s[1..];
      TailDistinct(s, key);
      FilterKeepsDistinct(tail, keep, key);
      var t := Filter(tail, keep);
      forall x | x in t ensures key(x) != key(s[0]) {
        var j :| 0 <= j < |tail| && tail[j] == x;
        assert s[j + 1] == x;
      }
      if keep(s[0]) {
        ConsDistinct(s[0], t, key);
      }
    }
  }

  /** `s.findIndex(p)`: the first index whose element satisfies `p`, if any. */
  function FindIndex<T>(s: seq<T>, p: T -> bool): (r: Option<nat>)
    ensures r.None? <==> forall i :: 0 <= i < |s| ==> !p(s[i])
    ensures r.Some? ==> r.value < |s| && p(s[r.value])
                        && forall j :: 0 <= j < r.value ==> !p(s[j])
  {
    if s == [] then None
    else if p(s[0]) then Some(0)
    else match FindIndex(s[1..], p)
      case None => None
      case Some(i) => Some(i + 1)
  }

  /** `s.find(p)`: the first element that satisfies `p`, `undefined` (None) when none does. */
  function Find<T(!new)>(s: seq<T>, p: T -> bool): (r: Option<T>)
    ensures r.None? <==> forall x :: x in s ==> !p(x)
    ensures r.Some? ==> r.value in s && p(r.value)
  {
    match FindIndex(s, p)
    case None => None
    case Some(i) => Some(s[i])
  }

  /** What a loop pushes when it keeps only the results `f` yields: over the first `n` elements, in order. */
  function FilterMap<A, B>(xs: seq<A>, n: nat, f: A -> Option<B>): seq<B>
    requires n <= |xs|
  {
    if n == 0 then [] else FilterMap(xs, n - 1, f) + (match f(xs[n - 1]) case Some(y) => [y] case None => [])
  }

  /** One more element pushes what `f` yields on it. */
  lemma FilterMapStep<A, B>(xs: seq<A>, k: nat, n: nat, f: A -> Option<B>)
    requires 0 < n <= |xs| && k == n - 1
    ensures f(xs[k]).Some? ==> FilterMap(xs, n, f) == FilterMap(xs, k, f) + [f(xs[k]).value]
    ensures f(xs[k]).None? ==> FilterMap(xs, n, f) == FilterMap(xs, k, f)
  {
  }

  /** The pushed results are exactly the results `f` yields on the first `n` elements. */
  lemma {:induction false} FilterMapExactly<A, B>(xs: seq<A>, n: nat, f: A -> Option<B>)
    requires n <= |xs|
    ensures forall y :: y in FilterMap(xs, n, f) ==> exists k :: 0 <= k < n && f(xs[k]) == Some(y)
    ensures forall k :: 0 <= k < n && f(xs[k]).Some? ==> f(xs[k]).value in FilterMap(xs, n, f)
  {
    if n > 0 {
      FilterMapExactly(xs, n - 1, f);
      var prev := FilterMap(xs, n - 1, f);
      assert FilterMap(xs, n, f) == prev + (match f(xs[n - 1]) case Some(y) => [y] case None => []);
      forall y | y in FilterMap(xs, n, f) ensures exists k :: 0 <= k < n && f(xs[k]) == Some(y) {
        if y !in prev {
          assert f(xs[n - 1]) == Some(y);
        }
      }
    }
  }

  /**
   * What a loop builds when it appends one text per element and stops at the first element
   * whose text cannot be made: the texts of the first `n` elements, or the first failure.
   */
  function AppendEach<A>(xs: seq<A>, n: nat, f: (nat, A) -> Outcome<string>): Outcome<string>
    requires n <= |xs|
  {
    if n == 0 then Ok("")
    else
      match AppendEach(xs, n - 1, f)
      case Raised(m) => Raised(m)
      case Ok(prev) =>
        match f(n - 1, xs[n - 1])
        case Raised(m) => Raised(m)
        case Ok(text) => Ok(prev + text)
  }

  /** One more element: its text is appended, or its failure ends the list. */
  lemma AppendEachStep<A>(xs: seq<A>, k: nat, n: nat, f: (nat, A) -> Outcome<string>, prev: string)
    requires 0 < n <= |xs| && k == n - 1 && AppendEach(xs, k, f) == Ok(prev)
    ensures var e := f(k, xs[k]);
            AppendEach(xs, n, f) == if e.Raised? then e else Ok(prev + e.value)
  {
    assert n == k + 1;
  }

  /** Once a failure occurs, it is the outcome of every longer prefix. */
  lemma {:induction false} AppendEachRaisedPersists<A>(xs: seq<A>, n: nat, m: nat, f: (nat, A) -> Outcome<string>)
    requires n <= m <= |xs| && AppendEach(xs, n, f).Raised?
    ensures AppendEach(xs, m, f) == AppendEach(xs, n, f)
    decreases m - n
  {
    if n < m {
      assert AppendEach(xs, n + 1, f) == AppendEach(xs, n, f);
      AppendEachRaisedPersists(xs, n + 1, m, f);
    }
  }

  /** `Math.max(...xs)`; None for an empty list, where JavaScript gives `-Infinity`. */
  function MaxOf(xs: seq<int>): (r: Option<int>)
    ensures r.None? <==> xs == []
    ensures r.Some? ==> forall i :: 0 <= i < |xs| ==> xs[i] <= r.value
    ensures r.Some? ==> exists i :: 0 <= i < |xs| && xs[i] == r.value
  {
    if xs == [] then None
    else
      var rest := MaxOf(xs[1..]);
      assert forall i :: 1 <= i < |xs| ==> xs[i] == xs[1..][i - 1];
      if rest.None? || xs[0] >= rest.value then Some(xs[0])
      else
        var j :| 0 <= j < |xs[1..]| && xs[1..][j] == rest.value;
        assert xs[j + 1] == rest.value;
        rest
  }
}
