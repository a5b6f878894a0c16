/**
 k-subsets: the reference definition, and the backtracking search of `chooseCombinations`
 with its shared buffer.
 */
module Combinations {

  import opened Seqs

  /** x put in front of every sequence. */
  function Prefix<T>(p: seq<T>, ss: seq<seq<T>>): (r: seq<seq<T>>)
    ensures |r| == |ss| && forall i :: 0 <= i < |ss| ==> r[i] == p + ss[i]
  {
    seq(|ss|, i requires 0 <= i < |ss| => p + ss[i])
  }

  /** All subsequences of s of length k: those with the first element, then those without. */
  function Subs<T>(s: seq<T>, k: nat): seq<seq<T>> {
    if k == 0 then [[]]
    else if s == [] then []
    else Prefix([s[0]], Subs(s[1..], k - 1)) + Subs(s[1..], k)
  }

  function Range(lo: nat, hi: nat): (r: seq<nat>)
    ensures |r| == (if lo <= hi then hi - lo else 0) && forall i :: 0 <= i < |r| ==> r[i] == lo + i
  {
    seq(if lo <= hi then hi - lo else 0, i => lo + i)
  }

  /** The index sets of size k over [lo, hi). */
  function Choose(lo: nat, hi: nat, k: nat): seq<seq<nat>> {
    Subs(Range(lo, hi), k)
  }

  function Binomial(n: nat, k: nat): nat {
    if k == 0 then 1 else if n == 0 then 0 else Binomial(n - 1, k - 1) + Binomial(n - 1, k)
  }

  // ---------- What the reference definition means ----------

  /** A strictly increasing sequence over [lo, hi). */
  predicate Increasing(s: seq<nat>, lo: nat, hi: nat) {
    && (forall i :: 0 <= i < |s| ==> lo <= s[i] < hi)
    && (forall i, j :: 0 <= i < j < |s| ==> s[i] < s[j])
  }

  /** Lexicographic order on sequences of equal length. */
  predicate LexLess(a: seq<nat>, b: seq<nat>) {
    |a| == |b| && exists i :: 0 <= i < |a| && a[i] < b[i] && a[..i] == b[..i]
  }

  ghost predicate LexSorted(ss: seq<seq<nat>>) {
    forall i, j :: 0 <= i < j < |ss| ==> LexLess(ss[i], ss[j])
  }

  lemma ChooseUnfold(lo: nat, hi: nat, k: nat)
    requires lo < hi && k > 0
    ensures Choose(lo, hi, k) == Prefix([lo], Choose(lo + 1, hi, k - 1)) + Choose(lo + 1, hi, k)
  {
    assert Range(lo, hi)[1..] == Range(lo + 1, hi);
  }

  /** Sound and complete: exactly the strictly increasing k-sequences. */
  lemma {:induction false} ChooseExact(lo: nat, hi: nat, k: nat, s: seq<nat>)
    ensures s in Choose(lo, hi, k) <==> |s| == k && Increasing(s, lo, hi)
    decreases if lo <= hi then hi - lo else 0
  {
    if k == 0 {
      assert Choose(lo, hi, 0) == [[]];
    } else if lo >= hi {
      assert |s| == k ==> !(lo <= s[0] < hi);
    } else {
      ChooseUnfold(lo, hi, k);
      ChooseExact(lo + 1, hi, k, s);
      var first := Prefix([lo], Choose(lo + 1, hi, k - 1));
      if |s| > 0 {
        ChooseExact(lo + 1, hi, k - 1, s[1..]);
        if s[0] == lo {
          if s[1..] in Choose(lo + 1, hi, k - 1) {
            var i :| 0 <= i < |first| && Choose(lo + 1, hi, k - 1)[i] == s[1..];
            assert first[i] == [lo] + s[1..] == s;
          }
          if s in first {
            var i :| 0 <= i < |first| && first[i] == s;
            assert s[1..] == Choose(lo + 1, hi, k - 1)[i];
          }
        }
      }
    }
  }

  lemma LexPrefixed(x: nat, a: seq<nat>, b: seq<nat>)
    requires LexLess(a, b)
    ensures LexLess([x] + a, [x] + b)
  {
    var m :| 0 <= m < |a| && a[m] < b[m] && a[..m] == b[..m];
    assert ([x] + a)[m + 1] < ([x] + b)[m + 1] && ([x] + a)[..m + 1] == [x] + a[..m] == ([x] + b)[..m + 1];
  }

  /** In lexicographic order, hence each exactly once. */
  lemma {:induction false} ChooseSorted(lo: nat, hi: nat, k: nat)
    ensures LexSorted(Choose(lo, hi, k)) && NoDup(Choose(lo, hi, k))
    decreases if lo <= hi then hi - lo else 0
  {
    if k > 0 && lo < hi {
      ChooseUnfold(lo, hi, k);
      ChooseSorted(lo + 1, hi, k - 1);
      ChooseSorted(lo + 1, hi, k);
      var inner, a, b := Choose(lo + 1, hi, k - 1), Prefix([lo], Choose(lo + 1, hi, k - 1)), Choose(lo + 1, hi, k);
      forall i, j | 0 <= i < j < |a| ensures LexLess(a[i], a[j]) {
        LexPrefixed(lo, inner[i], inner[j]);
      }
      forall i, j | 0 <= i < |a| && 0 <= j < |b| ensures LexLess(a[i], b[j]) {
        ChooseExact(lo + 1, hi, k, b[j]);
        ChooseExact(lo + 1, hi, k - 1, inner[i]);
        assert inner[i] in inner && b[j] in b;
        assert a[i][0] < b[j][0] && a[i][..0] == b[j][..0];
      }
    }
  }

  lemma {:induction false} SubsCount<T>(s: seq<T>, k: nat)
    ensures |Subs(s, k)| == Binomial(|s|, k)
  {
    if k > 0 && s != [] {
      SubsCount(s[1..], k - 1);
      SubsCount(s[1..], k);
    }
  }

  /** A branch of the search is dead exactly when fewer indices are left than are needed. */
  lemma {:induction false} DeadBranch<T>(s: seq<T>, k: nat)
    ensures Subs(s, k) == [] <==> |s| < k
  {
    if k > 0 && s != [] {
      DeadBranch(s[1..], k - 1);
      DeadBranch(s[1..], k);
    }
  }

  lemma PrefixPrefix<T>(p: seq<T>, q: seq<T>, ss: seq<seq<T>>)
    ensures Prefix(p, Prefix(q, ss)) == Prefix(p + q, ss)
  {
    forall i | 0 <= i < |ss| ensures Prefix(p, Prefix(q, ss))[i] == Prefix(p + q, ss)[i] {
      assert p + (q + ss[i]) == (p + q) + ss[i];
    }
  }

  lemma PrefixAppend<T>(p: seq<T>, a: seq<seq<T>>, b: seq<seq<T>>)
    ensures Prefix(p, a + b) == Prefix(p, a) + Prefix(p, b)
  {
  }

  lemma PrefixEmpty<T>(p: seq<T>, ss: seq<seq<T>>)
    ensures Prefix(p, [[]]) == [p] && Prefix([], ss) == ss
  {
    assert p + [] == p;
    assert forall i :: 0 <= i < |ss| ==> [] + ss[i] == ss[i];
  }

  // ---------- The search ----------

  /** The values held by the emitted slices. */
  ghost function Values(rs: seq<array<nat>>): seq<seq<nat>>
    reads rs
  {
    seq(|rs|, i requires 0 <= i < |rs| reads rs => rs[i][..])
  }

  /** The closure `generate` with the variables it captures.  Every emitted result is a slice
      of its own, so that writing the shared buffer later cannot reach it. */
  class Search {
    const n: nat
    const k: nat
    const combo: array<nat>
    var results: seq<array<nat>>

    ghost predicate Valid()
      reads this
    {
      combo.Length == k && combo !in results
    }

    constructor (n: nat, k: nat)
      ensures Valid() && this.n == n && this.k == k && results == [] && fresh(combo)
    {
      this.n, this.k, results := n, k, [];
      combo := new nat[k];
    }

    /** Appends a copy of the buffer. */
    method Emit()
      requires Valid()
      modifies this
      ensures Valid() && old(results) <= results
      ensures forall r :: r in results ==> r in old(results) || fresh(r)
      ensures Values(results) == old(Values(results)) + [combo[..]]
    {
      var c := new nat[k];
      for j := 0 to k
        modifies c
        invariant forall m :: 0 <= m < j ==> c[m] == combo[m]
      {
        c[j] := combo[j];
      }
      assert c[..] == combo[..];
      results := results + [c];
    }

    /** combo[depth] = i, which no emitted result notices. */
    method Set(depth: nat, i: nat)
      requires Valid() && depth < k
      modifies combo
      ensures combo[..depth + 1] == old(combo[..depth]) + [i] && Values(results) == old(Values(results))
    {
      combo[depth] := i;
      assert combo[..depth + 1] == combo[..depth] + [i];
    }

    /** The closure: everything that extends the first `depth` entries from `start` on. */
    method Generate(start: nat, depth: nat)
      requires Valid() && depth <= k
      modifies this, combo
      ensures Valid() && old(results) <= results && combo[..depth] == old(combo[..depth])
      ensures forall r :: r in results ==> r in old(results) || fresh(r)
      ensures Values(results) == old(Values(results)) + Prefix(old(combo[..depth]), Choose(start, n, k - depth))
      decreases k - depth, 1
    {
      if depth == k {
        Emit();
        assert combo[..] == combo[..depth] && Choose(start, n, 0) == [[]];
        PrefixEmpty(combo[..depth], []);
        return;
      }
      ghost var prefix, all := combo[..depth], Values(results) + Prefix(combo[..depth], Choose(start, n, k - depth));
      var i := start;
      while i <= n - (k - depth)
        invariant Valid() && old(results) <= results && combo[..depth] == prefix
        invariant forall r :: r in results ==> r in old(results) || fresh(r)
        invariant Values(results) + Prefix(prefix, Choose(i, n, k - depth)) == all
        decreases n - i
      {
        SearchStep(Values(results), prefix, i, n, k - depth);
        Branch(i, depth);
        i := i + 1;
      }
      SearchEnd(Values(results), prefix, i, n, k - depth);
    }

    /** The body of the loop: everything that goes on with i. */
    method Branch(i: nat, depth: nat)
      requires Valid() && depth < k
      modifies this, combo
      ensures Valid() && old(results) <= results && combo[..depth] == old(combo[..depth])
      ensures forall r :: r in results ==> r in old(results) || fresh(r)
      ensures Values(results) == old(Values(results)) + Prefix(old(combo[..depth]) + [i], Choose(i + 1, n, k - depth - 1))
      decreases k - depth, 0
    {
      Set(depth, i);
      Generate(i + 1, depth + 1);
      assert combo[..depth] == combo[..depth + 1][..depth];
    }
  }

  /** One round of the loop: the branch of i, then what is left. */
  lemma SearchStep(sofar: seq<seq<nat>>, prefix: seq<nat>, i: nat, n: nat, k: nat)
    requires i < n && k > 0
    ensures sofar + Prefix(prefix, Choose(i, n, k))
         == (sofar + Prefix(prefix + [i], Choose(i + 1, n, k - 1))) + Prefix(prefix, Choose(i + 1, n, k))
  {
    SplitOff(prefix, i, n, k);
    var a, b := Prefix(prefix + [i], Choose(i + 1, n, k - 1)), Prefix(prefix, Choose(i + 1, n, k));
    assert sofar + (a + b) == (sofar + a) + b;
  }

  /** Past the loop bound nothing is left. */
  lemma SearchEnd(sofar: seq<seq<nat>>, prefix: seq<nat>, i: nat, n: nat, k: nat)
    requires k > 0 && i > n - k
    ensures sofar + Prefix(prefix, Choose(i, n, k)) == sofar
  {
    DeadBranch(Range(i, n), k);
  }

  lemma SplitOff(prefix: seq<nat>, i: nat, n: nat, k: nat)
    requires i < n && k > 0
    ensures Prefix(prefix, Choose(i, n, k)) == Prefix(prefix + [i], Choose(i + 1, n, k - 1)) + Prefix(prefix, Choose(i + 1, n, k))
  {
    ChooseUnfold(i, n, k);
    PrefixAppend(prefix, Prefix([i], Choose(i + 1, n, k - 1)), Choose(i + 1, n, k));
    PrefixPrefix(prefix, [i], Choose(i + 1, n, k - 1));
  }

  lemma {:induction false} ChooseOne(lo: nat, hi: nat)
    ensures Choose(lo, hi, 1) == seq(|Range(lo, hi)|, i => [lo + i])
    decreases if lo <= hi then hi - lo else 0
  {
    if lo < hi {
      ChooseUnfold(lo, hi, 1);
      ChooseOne(lo + 1, hi);
      assert Choose(lo + 1, hi, 0) == [[]];
      PrefixEmpty([lo], []);
    }
  }

  /** chooseCombinations, fast path included: empty for k <= 0 and k > n, otherwise the
      strictly increasing k-sequences over [0, n) in lexicographic order. */
  method ChooseCombinations(n: nat, k: int) returns (rs: seq<array<nat>>)
    ensures Values(rs) == if k <= 0 then [] else Choose(0, n, k)
    ensures fresh(set r | r in rs)
  {
    if k > n || k <= 0 {
      if k > n {
        DeadBranch(Range(0, n), k);
      }
      return [];
    }
    if k == 1 {
      rs := [];
      for i := 0 to n
        invariant |rs| == i && fresh(set r | r in rs)
        invariant forall j :: 0 <= j < i ==> rs[j][..] == [j]
      {
        var one := new nat[1] [i];
        rs := rs + [one];
      }
      ChooseOne(0, n);
      assert Values(rs) == Choose(0, n, 1);
      return;
    }
    var search := new Search(n, k);
    search.Generate(0, 0);
    rs := search.results;
    assert search.combo[..0] == [];
    PrefixEmpty([], Choose(0, n, k));
  }
}
