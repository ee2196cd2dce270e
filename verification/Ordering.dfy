/** Orders for sort.Slice: what a comparator must be, and what a sort then gives. */
module Ordering {

  /** The comparator is a strict weak order on the elements of s. */
  ghost predicate WeakOn<T(!new)>(less: (T, T) -> bool, s: seq<T>) {
    && (forall a | a in s :: !less(a, a))
    && (forall a, b, c | a in s && b in s && c in s && less(a, b) && less(b, c) :: less(a, c))
    && (forall a, b, c | a in s && b in s && c in s && Tied(less, a, b) && Tied(less, b, c) :: Tied(less, a, c))
  }

  predicate Tied<T>(less: (T, T) -> bool, a: T, b: T) {
    !less(a, b) && !less(b, a)
  }

  /** Nothing stands before an element that precedes it. */
  ghost predicate Ordered<T(!new)>(less: (T, T) -> bool, s: seq<T>) {
    forall i, j | 0 <= i < j < |s| :: !less(s[j], s[i])
  }

  /** The promise of sort.Slice: a permutation, in order whenever the comparator is
      a strict weak order on what is sorted. Ties may come out in any order. */
  ghost predicate Sorts<T(!new)>(sort: seq<T> -> seq<T>, less: (T, T) -> bool) {
    forall s: seq<T> :: SortsOne(sort, less, s)
  }

  ghost predicate SortsOne<T(!new)>(sort: seq<T> -> seq<T>, less: (T, T) -> bool, s: seq<T>) {
    multiset(sort(s)) == multiset(s) && (WeakOn(less, s) ==> Ordered(less, sort(s)))
  }

  // ----- The best n -----

  function Top<T>(s: seq<T>, n: nat): seq<T> {
    if |s| > n then s[..n] else s
  }

  /** `kept` is in order, holds n of the elements, and nothing left out goes before a kept one. */
  ghost predicate BestOf<T(!new)>(less: (T, T) -> bool, all: seq<T>, kept: seq<T>, n: nat) {
    && Ordered(less, kept)
    && |kept| == (if |all| > n then n else |all|)
    && multiset(kept) <= multiset(all)
    && forall x, y | x in multiset(all) - multiset(kept) && y in kept :: !less(x, y)
  }

  lemma TopIsBest<T(!new)>(less: (T, T) -> bool, all: seq<T>, sorted: seq<T>, n: nat)
    requires multiset(sorted) == multiset(all) && Ordered(less, sorted)
    ensures BestOf(less, all, Top(sorted, n), n)
  {
    var kept := Top(sorted, n);
    var rest := sorted[|kept|..];
    assert sorted == kept + rest;
    assert multiset(all) == multiset(kept) + multiset(rest);
    assert |multiset(all)| == |all| && |multiset(sorted)| == |sorted|;
    forall x, y | x in multiset(all) - multiset(kept) && y in kept
      ensures !less(x, y)
    {
      assert x in multiset(rest);
      var i, j :| 0 <= i < |rest| && rest[i] == x && 0 <= j < |kept| && kept[j] == y;
      assert sorted[|kept| + i] == x && sorted[j] == y;
    }
  }

  // ----- Strings -----

  /** Go's order on strings. */
  predicate LexLess(a: string, b: string) {
    if b == "" then false
    else if a == "" then true
    else if a[0] != b[0] then a[0] < b[0]
    else LexLess(a[1..], b[1..])
  }

  /** At the first place where they differ the character is smaller, or there is none. */
  lemma {:induction false} LexLessExactly(a: string, b: string)
    ensures LexLess(a, b)
       <==> exists n | 0 <= n <= |a| && n < |b| :: a[..n] == b[..n] && (n == |a| || a[n] < b[n])
  {
    if a == "" || b == "" || a[0] != b[0] {
      if b != "" && (a == "" || a[0] < b[0]) {
        assert a[..0] == b[..0];
      }
    } else {
      LexLessExactly(a[1..], b[1..]);
      var c, d := a[1..], b[1..];
      if n :| 0 <= n <= |c| && n < |d| && c[..n] == d[..n] && (n == |c| || c[n] < d[n]) {
        assert a[..n + 1] == [a[0]] + c[..n] && b[..n + 1] == [b[0]] + d[..n];
      }
      if n :| 0 <= n <= |a| && n < |b| && a[..n] == b[..n] && (n == |a| || a[n] < b[n]) {
        assert n > 0;
        assert c[..n - 1] == a[..n][1..] && d[..n - 1] == b[..n][1..];
      }
    }
  }

  lemma {:induction false} LexTotal(a: string, b: string)
    ensures a == b || LexLess(a, b) || LexLess(b, a)
    ensures !(LexLess(a, b) && LexLess(b, a)) && !LexLess(a, a)
  {
    if a != "" {
      LexTotal(a[1..], a[1..]);
    }
    if a != "" && b != "" && a[0] == b[0] {
      LexTotal(a[1..], b[1..]);
      assert a == [a[0]] + a[1..] && b == [b[0]] + b[1..];
    }
  }

  lemma {:induction false} LexTransitive(a: string, b: string, c: string)
    requires LexLess(a, b) && LexLess(b, c)
    ensures LexLess(a, c)
  {
    if a != "" && a[0] == b[0] == c[0] {
      LexTransitive(a[1..], b[1..], c[1..]);
    }
  }
}
