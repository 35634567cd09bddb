/**
 * `Array.prototype.sort` with a comparator. ECMAScript requires the sort to be stable, so the
 * result is the unique arrangement that is ordered by the comparator and keeps tied elements
 * in their original order; this module defines it as a stable insertion sort.
 */
module Sorting {

  /** `before(x, y)` holds when the comparator does not put `y` strictly before `x`. */
  ghost predicate TotalPreorder<T(!new)>(before: (T, T) -> bool)
  {
    (forall x, y :: before(x, y) || before(y, x)) && Transitive(before)
  }

  ghost predicate Transitive<T(!new)>(before: (T, T) -> bool)
  {
    forall x, y, z :: before(x, y) && before(y, z) ==> before(x, z)
  }

  ghost predicate Sorted<T>(s: seq<T>, before: (T, T) -> bool)
  {
    forall i, j :: 0 <= i < j < |s| ==> before(s[i], s[j])
  }

  /** Inserts `x` ahead of the first element it may precede, so that ties keep `x` first. */
  function Insert<T>(x: T, s: seq<T>, before: (T, T) -> bool): (r: seq<T>)
    ensures multiset(r) == multiset(s) + multiset{x}
    ensures |r| == |s| + 1
  {
    if s == [] || before(x, s[0]) then [x] + s
    else
      assert s == [s[0]] + s[1..];
      [s[0]] + Insert(x, s[1..], before)
  }

  /** The stable sort of `s`. */
  function Sort<T>(s: seq<T>, before: (T, T) -> bool): (r: seq<T>)
    ensures multiset(r) == multiset(s)
    ensures |r| == |s|
  {
    if s == [] then []
    else
      assert s == [s[0]] + s[1..];
      Insert(s[0], Sort(s[1..], before), before)
  }

  /** `x` lands just before the first element it may precede, after every element it may not. */
  lemma {:induction false} InsertAt<T>(x: T, s: seq<T>, before: (T, T) -> bool, k: nat)
    requires k <= |s|
    requires forall m :: 0 <= m < k ==> !before(x, s[m])
    requires k == |s| || before(x, s[k])
    ensures Insert(x, s, before) == s[..k] + [x] + s[k..]
    decreases k
  {
    if k == 0 {
      assert s[..0] == [] && s[0..] == s;
    } else {
      var t := s[1..];
      assert !before(x, s[0]);
      assert Insert(x, s, before) == [s[0]] + Insert(x, t, before);
      forall m | 0 <= m < k - 1 ensures !before(x, t[m]) {
        assert t[m] == s[m + 1];
      }
      assert k - 1 < |t| ==> t[k - 1] == s[k];
      InsertAt(x, t, before, k - 1);
      assert s == [s[0]] + t;
      ConsSplice(s[0], t, x, k - 1);
    }
  }

  /**
   * Moving the elements after `o[i]` that it may not precede one place down, and writing
   * `o[i]` into the gap, inserts it into the rest.
   */
  lemma ShiftedInsert<T>(o: seq<T>, n: seq<T>, i: nat, j: nat, before: (T, T) -> bool)
    requires |o| == |n| && i <= j < |n|
    requires forall m :: 0 <= m < i ==> n[m] == o[m]
    requires forall m :: i <= m < j ==> n[m] == o[m + 1]
    requires n[j] == o[i]
    requires forall m :: j < m < |n| ==> n[m] == o[m]
    requires forall m :: i < m <= j ==> !before(o[i], o[m])
    requires j + 1 == |o| || before(o[i], o[j + 1])
    ensures n[..i] == o[..i]
    ensures n[i..] == Insert(o[i], o[i + 1..], before)
  {
    var x, rest, k := o[i], o[i + 1..], j - i;
    var placed := rest[..k] + [x] + rest[k..];
    forall m | i <= m < |n| ensures n[m] == placed[m - i] {
      if m < j {
        assert placed[m - i] == rest[m - i];
      } else if m > j {
        assert placed[m - i] == rest[m - i - 1];
      }
    }
    assert n[i..] == placed;
    forall m | 0 <= m < k ensures !before(x, rest[m]) {
      assert rest[m] == o[m + i + 1];
    }
    InsertAt(x, rest, before, k);
  }

  /** Splicing `x` into the tail at `j` is splicing it into the whole sequence at `j + 1`. */
  lemma ConsSplice<T>(a: T, t: seq<T>, x: T, j: nat)
    requires j <= |t|
    ensures [a] + (t[..j] + [x] + t[j..]) == ([a] + t)[..j + 1] + [x] + ([a] + t)[j + 1..]
  {
    assert ([a] + t)[..j + 1] == [a] + t[..j];
    assert ([a] + t)[j + 1..] == t[j..];
  }

  lemma {:induction false} InsertSorted<T(!new)>(x: T, s: seq<T>, before: (T, T) -> bool)
    requires TotalPreorder(before) && Sorted(s, before)
    ensures Sorted(Insert(x, s, before), before)
  {
    if s == [] || before(x, s[0]) {
    } else {
      InsertSorted(x, s[1..], before);
      var r := Insert(x, s, before);
      forall j | 0 < j < |r| ensures before(r[0], r[j]) {
        assert r[j] in multiset(Insert(x, s[1..], before));
        assert r[j] == x || r[j] in multiset(s[1..]);
        if r[j] != x {
          var k :| 0 <= k < |s[1..]| && s[1..][k] == r[j];
          assert before(s[0], s[k + 1]);
        }
      }
    }
  }

  /** The sort orders its output by the comparator. */
  lemma {:induction false} SortSorted<T(!new)>(s: seq<T>, before: (T, T) -> bool)
    requires TotalPreorder(before)
    ensures Sorted(Sort(s, before), before)
  {
    if s != [] {
      SortSorted(s[1..], before);
      InsertSorted(s[0], Sort(s[1..], before), before);
    }
  }

  /** A prefix of a sorted sequence is sorted, and each of its elements may precede every element after it. */
  lemma SortedSplit<T>(s: seq<T>, n: nat, before: (T, T) -> bool)
    requires Sorted(s, before) && n <= |s|
    ensures Sorted(s[..n], before)
    ensures multiset(s) == multiset(s[..n]) + multiset(s[n..])
    ensures forall x, y :: x in s[..n] && y in multiset(s[n..]) ==> before(x, y)
  {
    assert s == s[..n] + s[n..];
    forall x, y | x in s[..n] && y in multiset(s[n..]) ensures before(x, y) {
      var i :| 0 <= i < n && s[..n][i] == x;
      var j :| 0 <= j < |s[n..]| && s[n..][j] == y;
      assert s[i] == x && s[n + j] == y;
    }
  }

  /** The elements of `s` that tie with `k`, in order. */
  function Ties<T>(s: seq<T>, k: T, before: (T, T) -> bool): seq<T>
  {
    if s == [] then []
    else TieOf(s[0], k, before) + Ties(s[1..], k, before)
  }

  /** Whether `y` ties with `k`, as the one-element contribution `Ties` makes for it. */
  function TieOf<T>(y: T, k: T, before: (T, T) -> bool): seq<T>
  {
    if before(y, k) && before(k, y) then [y] else []
  }

  lemma TiesCons<T>(y: T, t: seq<T>, k: T, before: (T, T) -> bool)
    ensures Ties([y] + t, k, before) == TieOf(y, k, before) + Ties(t, k, before)
  {
    assert ([y] + t)[0] == y;
    assert ([y] + t)[1..] == t;
  }

  /** Inserting `x` adds `x` to the ties of `k` at the front: everything `x` is inserted after is strictly before it. */
  lemma {:induction false} InsertTies<T(!new)>(x: T, s: seq<T>, k: T, before: (T, T) -> bool)
    requires Transitive(before)
    ensures Ties(Insert(x, s, before), k, before) == TieOf(x, k, before) + Ties(s, k, before)
  {
    if s == [] || before(x, s[0]) {
      assert Insert(x, s, before) == [x] + s;
      TiesCons(x, s, k, before);
    } else {
      var rest := Insert(x, s[1..], before);
      InsertTies(x, s[1..], k, before);
      assert Insert(x, s, before) == [s[0]] + rest;
      TiesCons(s[0], rest, k, before);
      assert s == [s[0]] + s[1..];
      TiesCons(s[0], s[1..], k, before);
      // x is not before s[0], so x and s[0] cannot both tie with k
      assert !(before(x, k) && before(k, s[0]));
      SwapEmpty(TieOf(s[0], k, before), TieOf(x, k, before), Ties(s[1..], k, before));
    }
  }

  /** When one of two prefixes is empty, their order does not matter. */
  lemma SwapEmpty<T>(a: seq<T>, b: seq<T>, c: seq<T>)
    requires a == [] || b == []
    ensures a + (b + c) == b + (a + c)
  {
  }

  /** Stability: elements that tie keep their original relative order. */
  lemma {:induction false} SortStable<T(!new)>(s: seq<T>, k: T, before: (T, T) -> bool)
    requires TotalPreorder(before)
    ensures Ties(Sort(s, before), k, before) == Ties(s, k, before)
  {
    if s != [] {
      SortStable(s[1..], k, before);
      InsertTies(s[0], Sort(s[1..], before), k, before);
    }
  }

  /** The comparator `(a, b) => key(b) - key(a)`: descending by an integer key. */
  function Descending<T>(key: T -> int): (T, T) -> bool
  {
    (x: T, y: T) => key(x) >= key(y)
  }

  lemma DescendingIsPreorder<T(!new)>(key: T -> int)
    ensures TotalPreorder(Descending(key))
  {
  }
}
