/**
 * Sequence operations behind the list handling of the front end:
 * `Array.prototype.filter`, `slice(0, n)`, and `[...new Set(xs)]`, with the
 * facts the components rely on (order-preserving subsequence, membership,
 * distinctness, first-occurrence order).
 */
module Seqs {

  // ---------------------------------------------------------------------
  // Subsequences
  // ---------------------------------------------------------------------

  /** `a` is obtained from `b` by deleting elements, keeping the order of the rest. */
  predicate IsSubsequence<T(==)>(a: seq<T>, b: seq<T>)
    decreases |b|
  {
    || a == []
    || (b != [] && ((a[0] == b[0] && IsSubsequence(a[1..], b[1..])) || IsSubsequence(a, b[1..])))
  }

  /** A prefix is a subsequence. */
  lemma {:induction false} PrefixIsSubsequence<T>(a: seq<T>, b: seq<T>)
    requires a <= b
    ensures IsSubsequence(a, b)
    decreases |b|
  {
    if a != [] {
      PrefixIsSubsequence(a[1..], b[1..]);
    }
  }

  /** Deleting elements twice is deleting elements once. */
  lemma {:induction false} SubsequenceTransitive<T>(a: seq<T>, b: seq<T>, c: seq<T>)
    requires IsSubsequence(a, b) && IsSubsequence(b, c)
    ensures IsSubsequence(a, c)
    decreases |c|
  {
    if a != [] && c != [] {
      if b[0] == c[0] && IsSubsequence(b[1..], c[1..]) {
        if a[0] == b[0] && IsSubsequence(a[1..], b[1..]) {
          SubsequenceTransitive(a[1..], b[1..], c[1..]);
        } else {
          SubsequenceTransitive(a, b[1..], c[1..]);
        }
      } else {
        SubsequenceTransitive(a, b, c[1..]);
      }
    }
  }

  // ---------------------------------------------------------------------
  // filter
  // ---------------------------------------------------------------------

  /** `s.filter(p)`: the elements satisfying `p`, in their original order. */
  function Filter<T>(p: T -> bool, s: seq<T>): (r: seq<T>)
    ensures |r| <= |s|
    ensures forall k :: 0 <= k < |r| ==> p(r[k])
    decreases |s|
  {
    if s == [] then []
    else if p(s[0]) then [s[0]] + Filter(p, s[1..])
    else Filter(p, s[1..])
  }

  /** The result of a filter is an order-preserving subsequence of its input. */
  lemma {:induction false} FilterIsSubsequence<T>(p: T -> bool, s: seq<T>)
    ensures IsSubsequence(Filter(p, s), s)
    decreases |s|
  {
    if s != [] {
      FilterIsSubsequence(p, s[1..]);
      var r := Filter(p, s);
      if p(s[0]) {
        assert r[0] == s[0] && r[1..] == Filter(p, s[1..]);
      }
    }
  }

  /** An element is in the filtered list exactly when it is in the input and satisfies `p`. */
  lemma {:induction false} FilterMembership<T>(p: T -> bool, s: seq<T>, x: T)
    ensures x in Filter(p, s) <==> x in s && p(x)
    decreases |s|
  {
    if s != [] {
      FilterMembership(p, s[1..], x);
      assert s == [s[0]] + s[1..];
    }
  }

  /** A filter whose predicate holds of every element keeps the whole list. */
  lemma {:induction false} FilterAll<T>(p: T -> bool, s: seq<T>)
    requires forall k :: 0 <= k < |s| ==> p(s[k])
    ensures Filter(p, s) == s
    decreases |s|
  {
    if s != [] {
      FilterAll(p, s[1..]);
    }
  }

  /** `s.map(f)`. */
  function Map<T, U>(f: T -> U, s: seq<T>): (r: seq<U>)
    ensures |r| == |s|
    ensures forall k :: 0 <= k < |s| ==> r[k] == f(s[k])
  {
    seq(|s|, k requires 0 <= k < |s| => f(s[k]))
  }

  // ---------------------------------------------------------------------
  // slice(0, n)
  // ---------------------------------------------------------------------

  /** `s.slice(0, n)`: the first `n` elements, or all of them when there are fewer. */
  function Take<T>(s: seq<T>, n: nat): (r: seq<T>)
    ensures |r| == if n < |s| then n else |s|
    ensures forall k :: 0 <= k < |r| ==> r[k] == s[k]
  {
    if n < |s| then s[..n] else s
  }

  /**
   * `filter(p).slice(0, n)` over a list without duplicates keeps matches in
   * list order: when a later element is among the first `n` matches, every
   * earlier matching element is too.
   */
  lemma {:induction false} TakeFilterKeepsEarlier<T>(p: T -> bool, s: seq<T>, n: nat, i: nat, j: nat)
    requires NoDuplicates(s)
    requires i < j < |s| && p(s[i])
    requires s[j] in Take(Filter(p, s), n)
    ensures s[i] in Take(Filter(p, s), n)
    decreases |s|
  {
    var rest := Filter(p, s[1..]);
    assert s[1..][j - 1] == s[j];
    assert NoDuplicates(s[1..]) by {
      forall a, b | 0 <= a < b < |s| - 1 ensures s[1..][a] != s[1..][b] {
        assert s[1..][a] == s[a + 1] && s[1..][b] == s[b + 1];
      }
    }
    if p(s[0]) {
      assert Filter(p, s) == [s[0]] + rest;
      assert n > 0;
      if i > 0 {
        var t := Take(rest, n - 1);
        assert Take(Filter(p, s), n) == [s[0]] + t;
        assert s[j] != s[0];
        assert s[1..][j - 1] in Take(Filter(p, s[1..]), n - 1);
        TakeFilterKeepsEarlier(p, s[1..], n - 1, i - 1, j - 1);
      } else {
        assert Take(Filter(p, s), n)[0] == s[0];
      }
    } else {
      assert i > 0;
      assert Filter(p, s) == rest;
      TakeFilterKeepsEarlier(p, s[1..], n, i - 1, j - 1);
    }
  }

  // ---------------------------------------------------------------------
  // [...new Set(s)]
  // ---------------------------------------------------------------------

  predicate NoDuplicates<T(==)>(s: seq<T>) {
    forall i, j :: 0 <= i < j < |s| ==> s[i] != s[j]
  }

  /** The position of the first occurrence of `x` in `s`. */
  function FirstIndex<T(==)>(s: seq<T>, x: T): (i: nat)
    requires x in s
    ensures i < |s| && s[i] == x && x !in s[..i]
    decreases |s|
  {
    if s[0] == x then 0 else 1 + FirstIndex(s[1..], x)
  }

  /** Insertion-ordered set semantics: elements not yet `seen`, each at its first occurrence. */
  function DistinctFrom<T(==)>(s: seq<T>, seen: set<T>): (r: seq<T>)
    decreases |s|
  {
    if s == [] then []
    else if s[0] in seen then DistinctFrom(s[1..], seen)
    else [s[0]] + DistinctFrom(s[1..], seen + {s[0]})
  }

  /** `[...new Set(s)]`. */
  function Distinct<T(==)>(s: seq<T>): (r: seq<T>) {
    DistinctFrom(s, {})
  }

  lemma {:induction false} DistinctFromMembers<T>(s: seq<T>, seen: set<T>)
    ensures forall x :: x in DistinctFrom(s, seen) <==> x in s && x !in seen
    decreases |s|
  {
    if s != [] {
      DistinctFromMembers(s[1..], seen);
      DistinctFromMembers(s[1..], seen + {s[0]});
      assert s == [s[0]] + s[1..];
    }
  }

  lemma {:induction false} DistinctFromNoDuplicates<T>(s: seq<T>, seen: set<T>)
    ensures NoDuplicates(DistinctFrom(s, seen))
    decreases |s|
  {
    if s != [] && s[0] !in seen {
      var rest := DistinctFrom(s[1..], seen + {s[0]});
      DistinctFromNoDuplicates(s[1..], seen + {s[0]});
      DistinctFromMembers(s[1..], seen + {s[0]});
      var r := DistinctFrom(s, seen);
      assert r == [s[0]] + rest;
      forall i, j | 0 <= i < j < |r| ensures r[i] != r[j] {
        assert r[j] == rest[j - 1];
        if i == 0 {
          assert rest[j - 1] in rest;
        } else {
          assert r[i] == rest[i - 1];
        }
      }
    } else if s != [] {
      DistinctFromNoDuplicates(s[1..], seen);
    }
  }

  lemma {:induction false} DistinctFromSubsequence<T>(s: seq<T>, seen: set<T>)
    ensures IsSubsequence(DistinctFrom(s, seen), s)
    decreases |s|
  {
    if s != [] {
      if s[0] in seen {
        DistinctFromSubsequence(s[1..], seen);
      } else {
        DistinctFromSubsequence(s[1..], seen + {s[0]});
        var r := DistinctFrom(s, seen);
        assert r[0] == s[0] && r[1..] == DistinctFrom(s[1..], seen + {s[0]});
      }
    }
  }

  /** The elements of `r` come from `s`, in the order of their first occurrence there. */
  predicate InFirstOccurrenceOrder<T(==)>(r: seq<T>, s: seq<T>) {
    && (forall x :: x in r ==> x in s)
    && (forall i, j :: 0 <= i < j < |r| ==> FirstIndex(s, r[i]) < FirstIndex(s, r[j]))
  }

  /** Elements other than the head are found one position later in `s` than in its tail. */
  lemma FirstIndexTail<T>(s: seq<T>, x: T)
    requires s != [] && x in s[1..] && x != s[0]
    ensures FirstIndex(s, x) == 1 + FirstIndex(s[1..], x)
  {
  }

  lemma OrderAfterSkip<T>(s: seq<T>, r: seq<T>)
    requires s != [] && s[0] !in r
    requires InFirstOccurrenceOrder(r, s[1..])
    ensures InFirstOccurrenceOrder(r, s)
  {
    forall x | x in r ensures x in s && FirstIndex(s, x) == 1 + FirstIndex(s[1..], x) {
      FirstIndexTail(s, x);
    }
  }

  lemma OrderAfterKeep<T>(s: seq<T>, rest: seq<T>)
    requires s != [] && s[0] !in rest
    requires InFirstOccurrenceOrder(rest, s[1..])
    ensures InFirstOccurrenceOrder([s[0]] + rest, s)
  {
    OrderAfterSkip(s, rest);
    var r := [s[0]] + rest;
    forall i, j | 0 <= i < j < |r| ensures FirstIndex(s, r[i]) < FirstIndex(s, r[j]) {
      assert r[j] == rest[j - 1];
      if i > 0 {
        assert r[i] == rest[i - 1];
      }
    }
  }

  lemma {:induction false} DistinctFromOrder<T>(s: seq<T>, seen: set<T>)
    ensures InFirstOccurrenceOrder(DistinctFrom(s, seen), s)
    decreases |s|
  {
    if s != [] {
      if s[0] in seen {
        DistinctFromOrder(s[1..], seen);
        DistinctFromMembers(s[1..], seen);
        OrderAfterSkip(s, DistinctFrom(s[1..], seen));
      } else {
        DistinctFromOrder(s[1..], seen + {s[0]});
        DistinctFromMembers(s[1..], seen + {s[0]});
        OrderAfterKeep(s, DistinctFrom(s[1..], seen + {s[0]}));
      }
    }
  }

  lemma DistinctFromFacts<T>(s: seq<T>, seen: set<T>)
    ensures var r := DistinctFrom(s, seen);
      && (forall x :: x in r <==> x in s && x !in seen)
      && NoDuplicates(r)
      && IsSubsequence(r, s)
      && InFirstOccurrenceOrder(r, s)
  {
    DistinctFromMembers(s, seen);
    DistinctFromNoDuplicates(s, seen);
    DistinctFromSubsequence(s, seen);
    DistinctFromOrder(s, seen);
  }

  /**
   * `[...new Set(s)]` holds every element of `s` exactly once, is a
   * subsequence of `s`, and lists the elements in the order of their first
   * occurrence in `s`.
   */
  lemma DistinctFacts<T>(s: seq<T>)
    ensures var r := Distinct(s);
      && (forall x :: x in r <==> x in s)
      && NoDuplicates(r)
      && IsSubsequence(r, s)
      && InFirstOccurrenceOrder(r, s)
  {
    DistinctFromFacts(s, {});
  }

  // ---------------------------------------------------------------------
  // reduce((total, x) => total + size(x), 0)
  // ---------------------------------------------------------------------

  function SumOf<T>(size: T -> nat, s: seq<T>): (n: nat)
    decreases |s|
  {
    if s == [] then 0 else size(s[0]) + SumOf(size, s[1..])
  }
}
