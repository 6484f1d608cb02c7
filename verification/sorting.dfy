/** `Array.prototype.sort` with a comparator, as the model uses it.
    Since ECMAScript 2019 the sort is stable, so with a consistent comparator
    its result is the stable sort of the input. A comparator `cmp` is
    represented by the relation `le(a, b)` meaning `cmp(a, b) <= 0`
    ("a may stay before b"); insertion sort is used as the reference
    definition of the stable sort. */
module Sorting {

  /** Any two elements are ordered one way or the other. */
  ghost predicate Total<T(!new)>(le: (T, T) -> bool) {
    forall a, b :: le(a, b) || le(b, a)
  }

  /** Names one instance of transitivity; it serves as the trigger of
      `Transitive`, so that instances are only made where a proof asks. */
  ghost predicate Chain<T>(le: (T, T) -> bool, a: T, b: T, c: T) {
    le(a, b) && le(b, c)
  }

  ghost predicate Transitive<T(!new)>(le: (T, T) -> bool) {
    forall a, b, c {:trigger Chain(le, a, b, c)} :: Chain(le, a, b, c) ==> le(a, c)
  }

  lemma Transit<T(!new)>(le: (T, T) -> bool, a: T, b: T, c: T)
    requires Transitive(le) && le(a, b) && le(b, c)
    ensures le(a, c)
  {
    assert Chain(le, a, b, c);
  }

  /** `le` is total and transitive: it comes from a consistent comparator. */
  ghost predicate TotalPreorder<T(!new)>(le: (T, T) -> bool) {
    Total(le) && Transitive(le)
  }

  /** Every element may stay before every later one. */
  ghost predicate SortedBy<T>(s: seq<T>, le: (T, T) -> bool) {
    forall i, j :: 0 <= i < j < |s| ==> le(s[i], s[j])
  }

  /** Inserts `x` before the first element it may stay before. */
  function InsertBy<T>(x: T, s: seq<T>, le: (T, T) -> bool): (r: seq<T>)
    ensures |r| == |s| + 1
    ensures multiset(r) == multiset(s) + multiset{x}
  {
    if s == [] then [x]
    else if le(x, s[0]) then [x] + s
    else
      assert s == [s[0]] + s[1..];
      [s[0]] + InsertBy(x, s[1..], le)
  }

  /** The stable sort of `s` under `le`: a permutation of `s`. */
  function SortBy<T>(s: seq<T>, le: (T, T) -> bool): (r: seq<T>)
    ensures |r| == |s|
    ensures multiset(r) == multiset(s)
  {
    if s == [] then []
    else
      assert s == [s[0]] + s[1..];
      InsertBy(s[0], SortBy(s[1..], le), le)
  }

  /** Inserting an element that `lo` may precede into a sequence whose
      elements `lo` may all precede keeps that property. */
  lemma {:induction false} InsertByAbove<T>(x: T, s: seq<T>, lo: T, le: (T, T) -> bool)
    requires le(lo, x)
    requires forall i :: 0 <= i < |s| ==> le(lo, s[i])
    ensures forall i :: 0 <= i < |InsertBy(x, s, le)| ==> le(lo, InsertBy(x, s, le)[i])
  {
    if s != [] && !le(x, s[0]) {
      InsertByAbove(x, s[1..], lo, le);
      var u := InsertBy(x, s[1..], le);
      assert InsertBy(x, s, le) == [s[0]] + u;
      forall i | 0 <= i < |u| + 1 ensures le(lo, ([s[0]] + u)[i]) {
        if i > 0 { assert ([s[0]] + u)[i] == u[i - 1]; }
      }
    }
  }

  lemma {:induction false} InsertBySorted<T(!new)>(x: T, s: seq<T>, le: (T, T) -> bool)
    requires TotalPreorder(le)
    requires SortedBy(s, le)
    ensures SortedBy(InsertBy(x, s, le), le)
  {
    if s != [] && le(x, s[0]) {
      var r := [x] + s;
      forall i, j | 0 <= i < j < |r| ensures le(r[i], r[j]) {
        assert r[j] == s[j - 1];
        if i > 0 { assert r[i] == s[i - 1]; }
        else if j > 1 { Transit(le, x, s[0], s[j - 1]); }
      }
    } else if s != [] {
      var t := s[1..];
      assert SortedBy(t, le) by {
        forall i, j | 0 <= i < j < |t| ensures le(t[i], t[j]) { assert t[i] == s[i + 1] && t[j] == s[j + 1]; }
      }
      InsertBySorted(x, t, le);
      var u := InsertBy(x, t, le);
      assert le(s[0], x);
      assert forall i :: 0 <= i < |t| ==> le(s[0], t[i]) by {
        forall i | 0 <= i < |t| ensures le(s[0], t[i]) { assert t[i] == s[i + 1]; }
      }
      InsertByAbove(x, t, s[0], le);
      var r := [s[0]] + u;
      assert r == InsertBy(x, s, le);
      forall i, j | 0 <= i < j < |r| ensures le(r[i], r[j]) {
        assert r[j] == u[j - 1];
        if i > 0 { assert r[i] == u[i - 1]; }
      }
    }
  }

  /** The stable sort is ordered by `le`. */
  lemma {:induction false} SortBySorted<T(!new)>(s: seq<T>, le: (T, T) -> bool)
    requires TotalPreorder(le)
    ensures SortedBy(SortBy(s, le), le)
  {
    if s != [] {
      SortBySorted(s[1..], le);
      InsertBySorted(s[0], SortBy(s[1..], le), le);
    }
  }

  /** The elements of `s` that `le` ranks equal to `k`, in order. */
  function Tied<T>(s: seq<T>, k: T, le: (T, T) -> bool): (r: seq<T>)
    ensures |r| <= |s|
  {
    if s == [] then []
    else (if le(s[0], k) && le(k, s[0]) then [s[0]] else []) + Tied(s[1..], k, le)
  }

  /** The tie-breaking step of `InsertByTied`: when at most one of `a`
      and the inserted element (`hx`) is tied with `k`, putting `a` in front
      of both sides keeps `hx` in front of the ties. */
  lemma TiedSwap<T>(a: T, u: seq<T>, t: seq<T>, k: T, le: (T, T) -> bool, hx: seq<T>)
    requires Tied(u, k, le) == hx + Tied(t, k, le)
    requires hx == [] || !(le(a, k) && le(k, a))
    ensures Tied([a] + u, k, le) == hx + Tied([a] + t, k, le)
  {
    if hx == [] {
      assert Tied(u, k, le) == Tied(t, k, le);
      assert Tied([a] + u, k, le) == Tied([a] + t, k, le) by {
        TiedCons(a, u, k, le);
        TiedCons(a, t, k, le);
      }
    } else {
      assert Tied([a] + u, k, le) == Tied(u, k, le) && Tied([a] + t, k, le) == Tied(t, k, le) by {
        TiedCons(a, u, k, le);
        TiedCons(a, t, k, le);
      }
    }
  }

  /** `Tied` on a sequence with a known head. */
  lemma TiedCons<T>(a: T, u: seq<T>, k: T, le: (T, T) -> bool)
    ensures Tied([a] + u, k, le) == (if le(a, k) && le(k, a) then [a] else []) + Tied(u, k, le)
  {
    assert ([a] + u)[1..] == u;
  }

  /** Inserting `x` adds it to the elements tied with `k` at the front, when
      it is tied with `k`, and leaves their order otherwise. */
  lemma {:induction false} InsertByTied<T(!new)>(x: T, s: seq<T>, k: T, le: (T, T) -> bool)
    requires Transitive(le)
    ensures Tied(InsertBy(x, s, le), k, le)
            == (if le(x, k) && le(k, x) then [x] else []) + Tied(s, k, le)
  {
    var hx: seq<T> := if le(x, k) && le(k, x) then [x] else [];
    if s == [] {
      assert Tied([x], k, le) == hx + Tied([x][1..], k, le);
    } else if le(x, s[0]) {
      assert ([x] + s)[1..] == s;
      assert Tied([x] + s, k, le) == hx + Tied(s, k, le);
    } else {
      InsertByTied(x, s[1..], k, le);
      var h0: seq<T> := if le(s[0], k) && le(k, s[0]) then [s[0]] else [];
      if hx != [] && h0 != [] {
        Transit(le, x, k, s[0]);
        assert false;
      }
      assert InsertBy(x, s, le) == [s[0]] + InsertBy(x, s[1..], le);
      assert [s[0]] + s[1..] == s;
      TiedSwap(s[0], InsertBy(x, s[1..], le), s[1..], k, le, hx);
    }
  }

  /** Stability: elements ranked equal keep their relative order. */
  lemma {:induction false} SortByStable<T(!new)>(s: seq<T>, k: T, le: (T, T) -> bool)
    requires Transitive(le)
    ensures Tied(SortBy(s, le), k, le) == Tied(s, k, le)
  {
    if s != [] {
      SortByStable(s[1..], k, le);
      InsertByTied(s[0], SortBy(s[1..], le), k, le);
    }
  }

  /** A comparator that ranks every pair equal (one that always returns 0)
      leaves the sequence as it is. */
  lemma {:induction false} SortByAllTied<T>(s: seq<T>, le: (T, T) -> bool)
    requires forall i, j :: 0 <= i < |s| && 0 <= j < |s| ==> le(s[i], s[j])
    ensures SortBy(s, le) == s
  {
    if s != [] {
      var t := s[1..];
      forall i, j | 0 <= i < |t| && 0 <= j < |t| ensures le(t[i], t[j]) {
        assert t[i] == s[i + 1] && t[j] == s[j + 1];
      }
      SortByAllTied(t, le);
      assert |t| > 0 ==> le(s[0], t[0]) by { if |t| > 0 { assert t[0] == s[1]; } }
    }
  }
}
