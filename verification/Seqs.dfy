/** Sequence functions shared by the pairer and the publisher. */
module Seqs {

  function Filter<T>(s: seq<T>, p: T -> bool): seq<T> {
    if s == [] then [] else (if p(s[0]) then [s[0]] else []) + Filter(s[1..], p)
  }

  function Map<A, B>(s: seq<A>, f: A -> B): (r: seq<B>)
    ensures |r| == |s| && forall i :: 0 <= i < |s| ==> r[i] == f(s[i])
  {
    if s == [] then [] else [f(s[0])] + Map(s[1..], f)
  }

  /** f applied to every element, the results concatenated. */
  function FlatMap<A, B>(s: seq<A>, f: A -> seq<B>): seq<B> {
    if s == [] then [] else f(s[0]) + FlatMap(s[1..], f)
  }

  ghost predicate NoDup<T>(s: seq<T>) {
    forall i, j :: 0 <= i < j < |s| ==> s[i] != s[j]
  }

  lemma {:induction false} FilterAppend<T>(a: seq<T>, b: seq<T>, p: T -> bool)
    ensures Filter(a + b, p) == Filter(a, p) + Filter(b, p)
  {
    if a == [] {
      assert a + b == b;
    } else {
      FilterAppend(a[1..], b, p);
      assert (a + b)[1..] == a[1..] + b;
      var h := if p(a[0]) then [a[0]] else [];
      assert Filter(a + b, p) == h + Filter(a[1..] + b, p) == h + (Filter(a[1..], p) + Filter(b, p));
      assert Filter(a, p) == h + Filter(a[1..], p);
    }
  }

  lemma {:induction false} FilterMember<T>(s: seq<T>, p: T -> bool, x: T)
    ensures x in Filter(s, p) <==> x in s && p(x)
  {
    if s == [] {
    } else {
      FilterMember(s[1..], p, x);
    }
  }

  /** The positions at which s passes, in order. */
  ghost predicate Keeps<T>(s: seq<T>, p: T -> bool, at: seq<nat>) {
    && (forall j, k :: 0 <= j < k < |at| ==> at[j] < at[k])
    && (forall k :: 0 <= k < |at| ==> at[k] < |s|)
    && (forall i :: 0 <= i < |s| ==> (i in at <==> p(s[i])))
  }

  lemma KeepsNext<T>(s: seq<T>, x: T, p: T -> bool, at: seq<nat>)
    requires Keeps(s, p, at)
    ensures Keeps(s + [x], p, if p(x) then at + [|s|] else at)
  {
    var all, next := s + [x], if p(x) then at + [|s|] else at;
    assert |s| !in at;
    forall i | 0 <= i < |all| ensures i in next <==> p(all[i]) {
      if i < |s| {
        assert all[i] == s[i];
      }
    }
  }

  lemma {:induction false} FilterKeeps<T>(s: seq<T>, p: T -> bool) returns (at: seq<nat>)
    ensures Keeps(s, p, at) && |Filter(s, p)| == |at| && forall k :: 0 <= k < |at| ==> Filter(s, p)[k] == s[at[k]]
  {
    if s == [] {
      at := [];
    } else {
      var n := |s| - 1;
      var before := FilterKeeps(s[..n], p);
      assert s == s[..n] + [s[n]];
      FilterAppend(s[..n], [s[n]], p);
      KeepsNext(s[..n], s[n], p, before);
      at := if p(s[n]) then before + [n] else before;
      assert Filter([s[n]], p) == if p(s[n]) then [s[n]] else [];
      forall k | 0 <= k < |at| ensures Filter(s, p)[k] == s[at[k]] {
        if k < |before| {
          assert Filter(s, p)[k] == Filter(s[..n], p)[k] == s[..n][before[k]];
        }
      }
    }
  }

  lemma {:induction false} FilterCommutes<T>(s: seq<T>, p: T -> bool, q: T -> bool)
    ensures Filter(Filter(s, p), q) == Filter(Filter(s, q), p)
  {
    if s == [] {
    } else {
      FilterCommutes(s[1..], p, q);
      FilterAppend(if p(s[0]) then [s[0]] else [], Filter(s[1..], p), q);
      FilterAppend(if q(s[0]) then [s[0]] else [], Filter(s[1..], q), p);
    }
  }

  lemma {:induction false} MapAppend<A, B>(a: seq<A>, b: seq<A>, f: A -> B)
    ensures Map(a + b, f) == Map(a, f) + Map(b, f)
  {
  }

  lemma MapSlice<A, B>(s: seq<A>, f: A -> B, i: nat, j: nat)
    requires i <= j <= |s|
    ensures Map(s[i..j], f) == Map(s, f)[i..j]
  {
    var l, r := Map(s[i..j], f), Map(s, f)[i..j];
    assert |l| == |r|;
    forall k | 0 <= k < |l| ensures l[k] == r[k] {
      assert s[i..j][k] == s[i + k];
    }
  }

  lemma {:induction false} FlatMapAppend<A, B>(a: seq<A>, b: seq<A>, f: A -> seq<B>)
    ensures FlatMap(a + b, f) == FlatMap(a, f) + FlatMap(b, f)
  {
    if a == [] {
      assert a + b == b;
    } else {
      FlatMapAppend(a[1..], b, f);
      assert (a + b)[1..] == a[1..] + b;
      assert FlatMap(a + b, f) == f(a[0]) + (FlatMap(a[1..], f) + FlatMap(b, f));
    }
  }

  lemma {:induction false} FlatMapMember<A, B>(s: seq<A>, f: A -> seq<B>, y: B)
    ensures y in FlatMap(s, f) <==> exists x :: x in s && y in f(x)
  {
    if s == [] {
    } else {
      FlatMapMember(s[1..], f, y);
      if x :| x in s && y in f(x) {
        if x != s[0] {
          assert x in s[1..];
        }
      }
    }
  }

  /** Pieces without duplicates that share no element concatenate to one without. */
  lemma {:induction false} FlatMapNoDup<A, B>(s: seq<A>, f: A -> seq<B>)
    requires NoDup(s)
    requires forall x :: x in s ==> NoDup(f(x))
    requires forall x, x', y :: x in s && x' in s && y in f(x) && y in f(x') ==> x == x'
    ensures NoDup(FlatMap(s, f))
  {
    if s == [] {
    } else {
      FlatMapNoDup(s[1..], f);
      var a, b := f(s[0]), FlatMap(s[1..], f);
      forall i, j | 0 <= i < |a| && 0 <= j < |b| ensures a[i] != b[j] {
        FlatMapMember(s[1..], f, b[j]);
      }
    }
  }

  lemma {:induction false} FlatMapMap<A, B, C>(s: seq<A>, f: A -> seq<C>, g: A -> seq<B>, h: B -> C)
    requires forall x :: x in s ==> f(x) == Map(g(x), h)
    ensures FlatMap(s, f) == Map(FlatMap(s, g), h)
  {
    if s == [] {
    } else {
      FlatMapMap(s[1..], f, g, h);
      MapAppend(g(s[0]), FlatMap(s[1..], g), h);
    }
  }

  lemma {:induction false} FlatMapFilter<A, B>(s: seq<A>, f: A -> seq<B>, g: A -> seq<B>, p: B -> bool)
    requires forall x :: x in s ==> f(x) == Filter(g(x), p)
    ensures FlatMap(s, f) == Filter(FlatMap(s, g), p)
  {
    if s == [] {
    } else {
      FlatMapFilter(s[1..], f, g, p);
      FilterAppend(g(s[0]), FlatMap(s[1..], g), p);
    }
  }

  lemma {:induction false} FlatMapEmpty<A, B>(s: seq<A>, f: A -> seq<B>)
    requires forall x :: x in s ==> f(x) == []
    ensures FlatMap(s, f) == []
  {
    if s == [] {
    } else {
      FlatMapEmpty(s[1..], f);
    }
  }

  function Without<T>(t: seq<T>, i: nat): seq<T>
    requires i < |t|
  {
    t[..i] + t[i + 1..]
  }

  lemma FlatMapWithout<A, B>(t: seq<A>, i: nat, f: A -> seq<B>)
    requires i < |t|
    ensures multiset(FlatMap(t, f)) == multiset(f(t[i])) + multiset(FlatMap(Without(t, i), f))
  {
    FlatMapAppend(t[..i], t[i + 1..], f);
    FlatMapAppend(t[..i], t[i..], f);
    assert t == t[..i] + t[i..] && t[i..][1..] == t[i + 1..];
  }

  /** The pieces may come in any order, and empty pieces may be left out. */
  lemma {:induction false} FlatMapAnyOrder<A, B>(s: seq<A>, t: seq<A>, f: A -> seq<B>)
    requires NoDup(s) && NoDup(t)
    requires forall x :: x in s && x !in t ==> f(x) == []
    requires forall x :: x in t && x !in s ==> f(x) == []
    ensures multiset(FlatMap(s, f)) == multiset(FlatMap(t, f))
  {
    if s == [] {
      FlatMapEmpty(t, f);
    } else if s[0] in t {
      var i :| 0 <= i < |t| && t[i] == s[0];
      FlatMapAnyOrder(s[1..], Without(t, i), f);
      FlatMapWithout(t, i, f);
    } else {
      FlatMapAnyOrder(s[1..], t, f);
    }
  }

  lemma {:induction false} FilterMap<A, B>(s: seq<A>, f: A -> B, p: B -> bool, q: A -> bool)
    requires forall x :: x in s ==> (p(f(x)) <==> q(x))
    ensures Filter(Map(s, f), p) == Map(Filter(s, q), f)
  {
    if s == [] {
    } else {
      FilterMap(s[1..], f, p, q);
      MapAppend(if q(s[0]) then [s[0]] else [], Filter(s[1..], q), f);
    }
  }

  /** All parts one after the other. */
  function Concat<T>(parts: seq<seq<T>>): seq<T> {
    if parts == [] then [] else Concat(parts[..|parts| - 1]) + parts[|parts| - 1]
  }

  lemma ConcatNext<T>(parts: seq<seq<T>>, part: seq<T>)
    ensures Concat(parts + [part]) == Concat(parts) + part
  {
    assert (parts + [part])[..|parts|] == parts;
  }

  lemma Associate<T>(a: seq<T>, b: seq<T>, c: seq<T>)
    ensures a + (b + c) == a + b + c
  {
  }

  lemma {:induction false} ConcatAppend<T>(a: seq<seq<T>>, b: seq<seq<T>>)
    ensures Concat(a + b) == Concat(a) + Concat(b)
  {
    if b == [] {
      assert a + b == a;
    } else {
      var front, last := b[..|b| - 1], b[|b| - 1];
      ConcatAppend(a, front);
      assert a + b == (a + front) + [last];
      ConcatNext(a + front, last);
      Associate(Concat(a), Concat(front), last);
    }
  }

  lemma ConcatHead<T>(parts: seq<seq<T>>)
    requires parts != []
    ensures Concat(parts) == parts[0] + Concat(parts[1..])
  {
    ConcatAppend([parts[0]], parts[1..]);
    assert [parts[0]] + parts[1..] == parts;
    ConcatNext([], parts[0]);
    assert [] + [parts[0]] == [parts[0]];
  }

  /** How often x occurs. */
  function Times<T(==)>(s: seq<T>, x: T): nat {
    if s == [] then 0 else Times(s[..|s| - 1], x) + (if s[|s| - 1] == x then 1 else 0)
  }

  lemma {:induction false} TimesAppend<T>(a: seq<T>, b: seq<T>, x: T)
    ensures Times(a + b, x) == Times(a, x) + Times(b, x)
  {
    if b == [] {
      assert a + b == a;
    } else {
      TimesAppend(a, b[..|b| - 1], x);
      assert (a + b)[..|a + b| - 1] == a + b[..|b| - 1];
    }
  }

  lemma {:induction false} TimesIn<T>(s: seq<T>, x: T)
    ensures Times(s, x) > 0 <==> x in s
  {
    if s == [] {
    } else {
      TimesIn(s[..|s| - 1], x);
      assert s == s[..|s| - 1] + [s[|s| - 1]];
    }
  }

  /** No duplicates: nothing occurs twice. */
  lemma {:induction false} NoDupByTimes<T>(s: seq<T>)
    ensures NoDup(s) <==> forall x :: Times(s, x) <= 1
  {
    if s == [] {
    } else {
      var n := |s| - 1;
      var front, last := s[..n], s[n];
      NoDupByTimes(front);
      TimesIn(front, last);
      forall i, j | 0 <= i < j < n ensures NoDup(front) ==> s[i] != s[j] {
        assert front[i] == s[i] && front[j] == s[j];
      }
      assert NoDup(s) ==> NoDup(front) && last !in front;
      if NoDup(front) && last !in front {
        forall i | 0 <= i < n ensures s[i] != last {
          assert front[i] == s[i];
        }
      }
      assert NoDup(s) <==> NoDup(front) && last !in front;
      assert Times(s, last) == Times(front, last) + 1;
      assert forall x :: Times(s, x) == Times(front, x) + (if last == x then 1 else 0);
      if !NoDup(front) {
        var x :| Times(front, x) > 1;
        assert Times(s, x) > 1;
      } else if last !in front {
        forall x ensures Times(s, x) <= 1 {
          assert Times(front, x) <= 1;
        }
      }
    }
  }

  lemma FlatMapHas<A, B>(s: seq<A>, f: A -> seq<B>, i: nat, y: B)
    requires i < |s| && y in f(s[i])
    ensures y in FlatMap(s, f)
  {
    assert s[i] in s;
    FlatMapMember(s, f, y);
  }

  lemma InBothHalves<T>(a: seq<T>, b: seq<T>, x: T)
    requires x in a && x in b
    ensures !NoDup(a + b)
  {
    var i :| 0 <= i < |a| && a[i] == x;
    var j :| 0 <= j < |b| && b[j] == x;
    assert (a + b)[i] == (a + b)[|a| + j];
  }

  lemma FlatMapShared<A, B>(s: seq<A>, f: A -> seq<B>, j: nat, k: nat, y: B)
    requires j < k < |s| && y in f(s[j]) && y in f(s[k])
    ensures !NoDup(FlatMap(s, f))
  {
    var a, b := s[..k], s[k..];
    FlatMapAppend(a, b, f);
    assert s == a + b && a[j] == s[j] && b[0] == s[k];
    FlatMapHas(a, f, j, y);
    FlatMapHas(b, f, 0, y);
    InBothHalves(FlatMap(a, f), FlatMap(b, f), y);
  }

  // ---------- Sums ----------

  function SumTo(w: nat -> nat, k: nat): nat {
    if k == 0 then 0 else SumTo(w, k - 1) + w(k - 1)
  }

  /** The weights of the first k positions that hold i. */
  function SumAt(w: nat -> nat, at: seq<nat>, k: nat, i: nat): nat
    requires k <= |at|
  {
    if k == 0 then 0 else SumAt(w, at, k - 1, i) + (if at[k - 1] == i then w(k - 1) else 0)
  }

  function SumOver(w: nat -> nat, at: seq<nat>, k: nat, n: nat): nat
    requires k <= |at|
  {
    if n == 0 then 0 else SumOver(w, at, k, n - 1) + SumAt(w, at, k, n - 1)
  }

  lemma {:induction false} SumOverNext(w: nat -> nat, at: seq<nat>, k: nat, n: nat)
    requires 0 < k <= |at|
    ensures SumOver(w, at, k, n) == SumOver(w, at, k - 1, n) + (if at[k - 1] < n then w(k - 1) else 0)
  {
    if n == 0 {
    } else {
      SumOverNext(w, at, k, n - 1);
    }
  }

  lemma {:induction false} SumOverNone(w: nat -> nat, at: seq<nat>, n: nat)
    ensures SumOver(w, at, 0, n) == 0
  {
    if n == 0 {
    } else {
      SumOverNone(w, at, n - 1);
    }
  }

  /** Distributed over the places, the weights still have their sum. */
  lemma {:induction false} SumOverAll(w: nat -> nat, at: seq<nat>, k: nat, n: nat)
    requires k <= |at| && forall j :: 0 <= j < |at| ==> at[j] < n
    ensures SumOver(w, at, k, n) == SumTo(w, k)
  {
    if k == 0 {
      SumOverNone(w, at, n);
    } else {
      SumOverAll(w, at, k - 1, n);
      SumOverNext(w, at, k, n);
    }
  }

  lemma {:induction false} SumSplit(f: nat -> nat, g: nat -> nat, w: nat -> nat, at: seq<nat>, n: nat)
    requires forall i :: f(i) == g(i) + SumAt(w, at, |at|, i)
    ensures SumTo(f, n) == SumTo(g, n) + SumOver(w, at, |at|, n)
  {
    if n == 0 {
    } else {
      SumSplit(f, g, w, at, n - 1);
    }
  }
}
