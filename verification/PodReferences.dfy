/**
 The references in the mutated pod as a whole: every request of every claim is referred to
 by exactly one container.
 */
module PodReferences {

  import opened Options
  import opened Seqs
  import opened JsonPatch
  import opened Pods
  import opened Mutation
  import opened References

  /** What has been appended to the claims list of container i. */
  function Added(p: Pod, q: Pod, i: nat): seq<Json> {
    if HasResources(p, i) && HasResources(q, i) && |Listed(ResourcesOf(p, i).claims)| <= |Listed(ResourcesOf(q, i).claims)|
    then Listed(ResourcesOf(q, i).claims)[|Listed(ResourcesOf(p, i).claims)|..]
    else []
  }

  /** Every container has a claims list or asks for one mapped resource at most. */
  ghost predicate Roomy(p: Pod, mappings: Mappings) {
    forall i :: HasResources(p, i) ==> ResourcesOf(p, i).claims.Some? || AsksForOne(p, mappings, i)
  }

  lemma AddedIs(p: Pod, mappings: Mappings, ms: seq<ResourceMatch>, claims: seq<ClaimInfo>, i: nat)
    requires IsMatches(p, mappings, ms) && IsClaims(p, mappings, ms, claims) && Roomy(p, mappings)
    ensures Added(p, Mutated(p, mappings, claims), i) == EncodeRefs(Concat(Blocks(p, claims, i)))
  {
    if HasResources(p, i) {
      AllReferencesDelivered(p, mappings, ms, claims, i);
    } else {
      ClaimsAreProper(p, mappings, ms, claims);
      BlocksCount(p, mappings, claims, i);
      assert Blocks(p, claims, i) == [];
    }
  }

  lemma {:induction false} TimesMap<A, B>(s: seq<A>, f: A -> B, x: A)
    requires forall y :: f(y) == f(x) ==> y == x
    ensures Times(Map(s, f), f(x)) == Times(s, x)
  {
    if s == [] {
    } else {
      var n := |s| - 1;
      TimesMap(s[..n], f, x);
      assert Map(s, f)[..n] == Map(s[..n], f);
    }
  }

  lemma TimesEncoded(refs: seq<ClaimRef>, x: ClaimRef)
    ensures Times(EncodeRefs(refs), EncodeRef(x)) == Times(refs, x)
  {
    forall y | EncodeRef(y) == EncodeRef(x) ensures y == x {
      EncodeRefInjective(y, x);
    }
    TimesMap(refs, EncodeRef, x);
  }

  /** How often y has been appended, container by container. */
  function Additions(p: Pod, q: Pod, y: Json): nat -> nat {
    (i: nat) => Times(Added(p, q, i), y)
  }

  lemma {:induction false} SumSame(f: nat -> nat, g: nat -> nat, n: nat)
    requires forall i :: f(i) == g(i)
    ensures SumTo(f, n) == SumTo(g, n)
  {
    if n == 0 {
    } else {
      SumSame(f, g, n - 1);
    }
  }

  /** Over all containers every reference is appended as often as the claims have it. */
  lemma AdditionsConserved(p: Pod, mappings: Mappings, ms: seq<ResourceMatch>, claims: seq<ClaimInfo>, x: ClaimRef)
    requires IsMatches(p, mappings, ms) && IsClaims(p, mappings, ms, claims) && Roomy(p, mappings)
    ensures SumTo(Additions(p, Mutated(p, mappings, claims), EncodeRef(x)), |p.containers|) == Times(FlatMap(claims, RefsOf), x)
  {
    var q := Mutated(p, mappings, claims);
    forall i: nat ensures Additions(p, q, EncodeRef(x))(i) == Receipts(p, claims, x)(i) {
      AddedIs(p, mappings, ms, claims, i);
      TimesEncoded(Concat(Blocks(p, claims, i)), x);
    }
    SumSame(Additions(p, q, EncodeRef(x)), Receipts(p, claims, x), |p.containers|);
    ReferencesConserved(p, mappings, ms, claims, x);
  }

  /** Container i, and no other, has y, and once. */
  ghost predicate OnlyIn(f: nat -> nat, n: nat, i: nat) {
    i < n && f(i) == 1 && forall j :: 0 <= j < n && j != i ==> f(j) == 0
  }

  lemma {:induction false} SumIsZero(f: nat -> nat, n: nat)
    requires SumTo(f, n) == 0
    ensures forall j :: 0 <= j < n ==> f(j) == 0
  {
    if n == 0 {
    } else {
      SumIsZero(f, n - 1);
    }
  }

  lemma {:induction false} SumIsOne(f: nat -> nat, n: nat) returns (i: nat)
    requires SumTo(f, n) == 1
    ensures OnlyIn(f, n, i)
  {
    if f(n - 1) == 0 {
      i := SumIsOne(f, n - 1);
    } else {
      i := n - 1;
      SumIsZero(f, n - 1);
    }
  }

  lemma {:induction false} TimesOfDistinct<T>(s: seq<T>, x: T)
    requires NoDup(s)
    ensures Times(s, x) == if x in s then 1 else 0
  {
    if s == [] {
    } else {
      var n := |s| - 1;
      TimesOfDistinct(s[..n], x);
      assert forall i :: 0 <= i < n ==> s[..n][i] == s[i];
      assert s == s[..n] + [s[n]];
    }
  }

  lemma RequestCounted(p: Pod, mappings: Mappings, ms: seq<ResourceMatch>, claims: seq<ClaimInfo>, k: nat, j: nat)
    requires IsMatches(p, mappings, ms) && IsClaims(p, mappings, ms, claims) && NamesDistinct(claims)
    requires k < |claims| && j < claims[k].pairCount
    ensures Times(FlatMap(claims, RefsOf), ClaimRef(ClaimName(claims[k].deviceClass), j)) == 1
  {
    var name := ClaimName(claims[k].deviceClass);
    RefsAt(name, 0, claims[k].pairCount);
    assert RefsOf(claims[k])[j] == ClaimRef(name, j);
    FlatMapHas(claims, RefsOf, k, ClaimRef(name, j));
    RefsDistinctExactly(p, mappings, ms, claims);
    TimesOfDistinct(FlatMap(claims, RefsOf), ClaimRef(name, j));
  }

  /** With distinct claim names and room in every container: each request pair-j of each
      claim is referred to by exactly one container's new references, once. */
  lemma EachRequestInOneContainer(p: Pod, mappings: Mappings, ms: seq<ResourceMatch>, claims: seq<ClaimInfo>, k: nat, j: nat) returns (i: nat)
    requires IsMatches(p, mappings, ms) && IsClaims(p, mappings, ms, claims) && Roomy(p, mappings) && NamesDistinct(claims)
    requires k < |claims| && j < claims[k].pairCount
    ensures OnlyIn(Additions(p, Mutated(p, mappings, claims), EncodeRef(ClaimRef(ClaimName(claims[k].deviceClass), j))), |p.containers|, i)
  {
    var x := ClaimRef(ClaimName(claims[k].deviceClass), j);
    RequestCounted(p, mappings, ms, claims, k, j);
    AdditionsConserved(p, mappings, ms, claims, x);
    i := SumIsOne(Additions(p, Mutated(p, mappings, claims), EncodeRef(x)), |p.containers|);
  }

  /** ... and no other request is referred to by any. */
  lemma NoOtherReferences(p: Pod, mappings: Mappings, ms: seq<ResourceMatch>, claims: seq<ClaimInfo>, x: ClaimRef, i: nat)
    requires IsMatches(p, mappings, ms) && IsClaims(p, mappings, ms, claims) && Roomy(p, mappings) && i < |p.containers|
    requires forall k :: 0 <= k < |claims| ==> x !in RefsOf(claims[k])
    ensures Times(Added(p, Mutated(p, mappings, claims), i), EncodeRef(x)) == 0
  {
    FlatMapMember(claims, RefsOf, x);
    TimesOfMissing(FlatMap(claims, RefsOf), x);
    AdditionsConserved(p, mappings, ms, claims, x);
    SumIsZero(Additions(p, Mutated(p, mappings, claims), EncodeRef(x)), |p.containers|);
    assert Additions(p, Mutated(p, mappings, claims), EncodeRef(x))(i) == 0;
  }

  lemma {:induction false} TimesOfMissing<T>(s: seq<T>, x: T)
    requires x !in s
    ensures Times(s, x) == 0
  {
    if s == [] {
    } else {
      TimesOfMissing(s[..|s| - 1], x);
    }
  }
}
