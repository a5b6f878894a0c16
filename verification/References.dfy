/** Which claim references the containers of a mutated pod end up with. */
module References {

  import opened Options
  import opened Seqs
  import opened Text
  import opened JsonPatch
  import opened Pods
  import opened Mutation

  // ---------- One claim: every request once, contiguously ----------

  lemma {:induction false} RefsAppend(claim: string, start: nat, a: nat, b: nat)
    ensures Refs(claim, start, a) + Refs(claim, start + a, b) == Refs(claim, start, a + b)
  {
    if b == 0 {
    } else {
      var x, y, last := Refs(claim, start, a), Refs(claim, start + a, b - 1), [ClaimRef(claim, start + a + b - 1)];
      RefsAppend(claim, start, a, b - 1);
      assert Refs(claim, start + a, b) == y + last && Refs(claim, start, a + b) == (x + y) + last;
      assert x + (y + last) == (x + y) + last;
    }
  }

  lemma {:induction false} RefsAt(claim: string, start: nat, n: nat)
    ensures |Refs(claim, start, n)| == n && forall j :: 0 <= j < n ==> Refs(claim, start, n)[j] == ClaimRef(claim, start + j)
  {
    if n == 0 {
    } else {
      RefsAt(claim, start, n - 1);
    }
  }

  function FirstBlocks(p: Pod, c: ClaimInfo, k: nat): seq<seq<ClaimRef>>
    requires k <= |c.containers|
  {
    if k == 0 then [] else FirstBlocks(p, c, k - 1) + [Block(p, c, k - 1)]
  }

  lemma {:induction false} BlocksAreRefs(p: Pod, c: ClaimInfo, k: nat)
    requires k <= |c.containers|
    ensures Concat(FirstBlocks(p, c, k)) == Refs(ClaimName(c.deviceClass), 0, SumAmounts(p, c.resource, c.containers[..k]))
  {
    if k == 0 {
    } else {
      BlocksAreRefs(p, c, k - 1);
      assert c.containers[..k][..k - 1] == c.containers[..k - 1];
      ConcatNext(FirstBlocks(p, c, k - 1), Block(p, c, k - 1));
      BlockFollows(ClaimName(c.deviceClass), SumAmounts(p, c.resource, c.containers[..k - 1]), Amount(p, c.containers[k - 1], c.resource));
    }
  }

  lemma BlockFollows(claim: string, sum: nat, amount: int)
    ensures Refs(claim, 0, sum) + Refs(claim, sum, amount) == Refs(claim, 0, sum + Positive(amount))
  {
    RefsAppend(claim, 0, sum, Positive(amount));
  }

  lemma {:induction false} TotalIsSum(p: Pod, ms: seq<ResourceMatch>, r: string)
    requires forall k :: 0 <= k < |ms| ==> ms[k].count == Amount(p, ms[k].container, r) && ms[k].count > 0
    ensures SumCounts(ms) == SumAmounts(p, r, Map(ms, ContainerOf))
  {
    if ms == [] {
    } else {
      var n := |ms| - 1;
      TotalIsSum(p, ms[..n], r);
      assert Map(ms, ContainerOf)[..n] == Map(ms[..n], ContainerOf);
    }
  }

  lemma MatchOf(p: Pod, mappings: Mappings, ms: seq<ResourceMatch>, r: string, k: nat)
    requires IsMatches(p, mappings, ms) && k < |Filter(ms, ForResource(r))|
    ensures var m := Filter(ms, ForResource(r))[k]; m in ms && m.resource == r && GoodMatch(p, mappings, m)
  {
    var m := Filter(ms, ForResource(r))[k];
    FilterMember(ms, ForResource(r), m);
  }

  /** A claim's blocks, container after container, are exactly its requests pair-0 to
      pair-(n-1), where n is the number of requests of its template. */
  lemma EveryRequestOnce(p: Pod, mappings: Mappings, ms: seq<ResourceMatch>, r: string)
    requires IsMatches(p, mappings, ms) && r in mappings
    ensures var c := ClaimFor(p, mappings, ms, r);
      && c.pairCount >= 0
      && Concat(FirstBlocks(p, c, |c.containers|)) == Refs(ClaimName(c.deviceClass), 0, c.pairCount)
  {
    var c, own := ClaimFor(p, mappings, ms, r), Filter(ms, ForResource(r));
    forall k | 0 <= k < |own| ensures own[k].count == Amount(p, own[k].container, r) && own[k].count > 0 {
      MatchOf(p, mappings, ms, r, k);
    }
    TotalIsSum(p, own, r);
    BlocksAreRefs(p, c, |c.containers|);
    assert c.containers[..|c.containers|] == c.containers;
  }

  // ---------- One container: when it gets all its references ----------

  function Listed(a: Option<seq<Json>>): seq<Json> {
    if a.Some? then a.value else []
  }

  /** The container's list is the old one followed by all its blocks. */
  predicate Delivered(was: Option<seq<Json>>, blocks: seq<seq<ClaimRef>>) {
    Listed(ClaimsAfter(was, blocks)) == Listed(was) + EncodeRefs(Concat(blocks))
  }

  lemma {:induction false} ConcatLength<T>(parts: seq<seq<T>>)
    requires forall i :: 0 <= i < |parts| ==> |parts[i]| > 0
    ensures |Concat(parts)| >= |parts|
  {
    if parts == [] {
    } else {
      ConcatLength(parts[..|parts| - 1]);
    }
  }

  lemma DeliveredExactly(was: Option<seq<Json>>, blocks: seq<seq<ClaimRef>>)
    requires forall i :: 0 <= i < |blocks| ==> |blocks[i]| > 0
    ensures Delivered(was, blocks) <==> was.Some? || |blocks| <= 1
  {
    if |blocks| >= 1 {
      var front := blocks[..|blocks| - 1];
      ConcatLength(front);
      assert Concat(blocks) == Concat(front) + blocks[|blocks| - 1];
    }
  }

  /** Container i asks for at most one mapped resource. */
  ghost predicate AsksForOne(p: Pod, mappings: Mappings, i: nat) {
    forall r, s :: Wanted(p, mappings, i, r) && Wanted(p, mappings, i, s) ==> r == s
  }

  lemma {:induction false} BlocksInCount(p: Pod, c: ClaimInfo, k: nat, i: nat)
    requires k <= |c.containers| && NoDup(c.containers)
    ensures |BlocksIn(p, c, k, i)| == if i in c.containers[..k] then 1 else 0
  {
    if k == 0 {
    } else {
      BlocksInCount(p, c, k - 1, i);
      assert c.containers[..k] == c.containers[..k - 1] + [c.containers[k - 1]];
    }
  }

  lemma {:induction false} BlocksInNonEmpty(p: Pod, c: ClaimInfo, k: nat, i: nat)
    requires k <= |c.containers| && forall j :: 0 <= j < |c.containers| ==> Amount(p, c.containers[j], c.resource) > 0
    ensures forall j :: 0 <= j < |BlocksIn(p, c, k, i)| ==> |BlocksIn(p, c, k, i)[j]| > 0
  {
    if k == 0 {
    } else {
      BlocksInNonEmpty(p, c, k - 1, i);
      RefsAt(ClaimName(c.deviceClass), SumAmounts(p, c.resource, c.containers[..k - 1]), Amount(p, c.containers[k - 1], c.resource));
    }
  }

  lemma {:induction false} FilterSorted(ms: seq<ResourceMatch>, r: string)
    requires forall j, k :: 0 <= j < k < |ms| ==> Before(ms[j], ms[k])
    ensures NoDup(ContainersOf(ms, r))
  {
    if ms == [] {
    } else {
      FilterSorted(ms[1..], r);
      var rest := Filter(ms[1..], ForResource(r));
      forall k | 0 <= k < |rest| ensures ms[0].resource == r ==> rest[k].container != ms[0].container {
        FilterMember(ms[1..], ForResource(r), rest[k]);
        var j :| 0 <= j < |ms[1..]| && ms[1..][j] == rest[k];
        assert Before(ms[0], ms[j + 1]);
      }
    }
  }

  /** A claim goes to exactly the containers that ask for its resource. */
  lemma ContainersWanting(p: Pod, mappings: Mappings, ms: seq<ResourceMatch>, r: string, i: nat)
    requires IsMatches(p, mappings, ms) && r in mappings
    ensures i in ContainersOf(ms, r) <==> Wanted(p, mappings, i, r)
  {
    var own := Filter(ms, ForResource(r));
    if i in ContainersOf(ms, r) {
      var k :| 0 <= k < |own| && ContainersOf(ms, r)[k] == i;
      MatchOf(p, mappings, ms, r, k);
    }
    if Wanted(p, mappings, i, r) {
      assert Has(ms, i, r);
      var k :| 0 <= k < |ms| && ms[k].container == i && ms[k].resource == r;
      FilterMember(ms, ForResource(r), ms[k]);
      var j :| 0 <= j < |own| && own[j] == ms[k];
      assert ContainersOf(ms, r)[j] == i;
    }
  }

  /** What the claims of a pod are like, one by one. */
  lemma ClaimFacts(p: Pod, mappings: Mappings, ms: seq<ResourceMatch>, c: ClaimInfo)
    requires IsMatches(p, mappings, ms) && c.resource in mappings && c == ClaimFor(p, mappings, ms, c.resource)
    ensures NoDup(c.containers)
    ensures forall i :: i in c.containers <==> Wanted(p, mappings, i, c.resource)
    ensures forall j :: 0 <= j < |c.containers| ==> Amount(p, c.containers[j], c.resource) > 0 && c.containers[j] < |p.containers|
  {
    FilterSorted(ms, c.resource);
    forall i: nat ensures i in c.containers <==> Wanted(p, mappings, i, c.resource) {
      ContainersWanting(p, mappings, ms, c.resource, i);
    }
    forall j | 0 <= j < |c.containers| ensures Amount(p, c.containers[j], c.resource) > 0 && c.containers[j] < |p.containers| {
      assert c.containers[j] in c.containers;
    }
  }

  ghost predicate ProperClaims(p: Pod, mappings: Mappings, claims: seq<ClaimInfo>) {
    && (forall k :: 0 <= k < |claims| ==> ProperClaim(p, mappings, claims[k]))
    && (forall j, k :: 0 <= j < k < |claims| ==> claims[j].resource != claims[k].resource)
  }

  ghost predicate ProperClaim(p: Pod, mappings: Mappings, c: ClaimInfo) {
    && NoDup(c.containers)
    && (forall i :: i in c.containers <==> Wanted(p, mappings, i, c.resource))
    && (forall j :: 0 <= j < |c.containers| ==> Amount(p, c.containers[j], c.resource) > 0 && c.containers[j] < |p.containers|)
  }

  ghost predicate SomeClaim(p: Pod, mappings: Mappings, claims: seq<ClaimInfo>, i: nat) {
    exists k :: 0 <= k < |claims| && Wanted(p, mappings, i, claims[k].resource)
  }

  ghost predicate TwoClaims(p: Pod, mappings: Mappings, claims: seq<ClaimInfo>, i: nat) {
    exists j, k :: 0 <= j < k < |claims| && Wanted(p, mappings, i, claims[j].resource) && Wanted(p, mappings, i, claims[k].resource)
  }

  lemma ClaimsSplit(p: Pod, mappings: Mappings, claims: seq<ClaimInfo>, i: nat)
    requires claims != []
    ensures var front, last := claims[..|claims| - 1], Wanted(p, mappings, i, claims[|claims| - 1].resource);
      && (SomeClaim(p, mappings, claims, i) <==> last || SomeClaim(p, mappings, front, i))
      && (TwoClaims(p, mappings, claims, i) <==> TwoClaims(p, mappings, front, i) || (last && SomeClaim(p, mappings, front, i)))
  {
    var n := |claims| - 1;
    assert forall k :: 0 <= k < n ==> claims[..n][k] == claims[k];
  }

  ghost predicate NoneEmpty(blocks: seq<seq<ClaimRef>>) {
    forall j :: 0 <= j < |blocks| ==> |blocks[j]| > 0
  }

  lemma NoneEmptyAppend(a: seq<seq<ClaimRef>>, b: seq<seq<ClaimRef>>)
    requires NoneEmpty(a) && NoneEmpty(b)
    ensures NoneEmpty(a + b)
  {
  }

  /** One claim has one block for a container that wants its resource, and none for others. */
  lemma BlocksOfOne(p: Pod, mappings: Mappings, c: ClaimInfo, i: nat)
    requires ProperClaim(p, mappings, c)
    ensures |BlocksIn(p, c, |c.containers|, i)| == if Wanted(p, mappings, i, c.resource) then 1 else 0
    ensures NoneEmpty(BlocksIn(p, c, |c.containers|, i))
  {
    BlocksInCount(p, c, |c.containers|, i);
    BlocksInNonEmpty(p, c, |c.containers|, i);
    assert c.containers[..|c.containers|] == c.containers;
  }

  /** At most one block for a container exactly if at most one claim serves it. */
  lemma {:induction false} BlocksCount(p: Pod, mappings: Mappings, claims: seq<ClaimInfo>, i: nat)
    requires ProperClaims(p, mappings, claims)
    ensures NoneEmpty(Blocks(p, claims, i))
    ensures |Blocks(p, claims, i)| >= 1 <==> SomeClaim(p, mappings, claims, i)
    ensures |Blocks(p, claims, i)| >= 2 <==> TwoClaims(p, mappings, claims, i)
  {
    if claims == [] {
    } else {
      var n := |claims| - 1;
      assert ProperClaim(p, mappings, claims[n]);
      BlocksCount(p, mappings, claims[..n], i);
      BlocksOfOne(p, mappings, claims[n], i);
      ClaimsSplit(p, mappings, claims, i);
      NoneEmptyAppend(Blocks(p, claims[..n], i), BlocksIn(p, claims[n], |claims[n].containers|, i));
    }
  }

  /** Every container of a mutated pod holds all its references exactly if it already had
      a claims list or asks for at most one mapped resource. */
  lemma AllReferencesDelivered(p: Pod, mappings: Mappings, ms: seq<ResourceMatch>, claims: seq<ClaimInfo>, i: nat)
    requires IsMatches(p, mappings, ms) && IsClaims(p, mappings, ms, claims) && HasResources(p, i)
    ensures HasResources(Mutated(p, mappings, claims), i)
    ensures Listed(ResourcesOf(Mutated(p, mappings, claims), i).claims) == Listed(ResourcesOf(p, i).claims) + EncodeRefs(Concat(Blocks(p, claims, i)))
      <==> ResourcesOf(p, i).claims.Some? || AsksForOne(p, mappings, i)
  {
    DeliveredByRequests(p, mappings, ms, claims, i);
  }

  lemma DeliveredByRequests(p: Pod, mappings: Mappings, ms: seq<ResourceMatch>, claims: seq<ClaimInfo>, i: nat)
    requires IsMatches(p, mappings, ms) && IsClaims(p, mappings, ms, claims) && HasResources(p, i)
    ensures Delivered(ResourcesOf(p, i).claims, Blocks(p, claims, i)) <==> ResourcesOf(p, i).claims.Some? || AsksForOne(p, mappings, i)
  {
    ClaimsAreProper(p, mappings, ms, claims);
    BlocksCount(p, mappings, claims, i);
    DeliveredExactly(ResourcesOf(p, i).claims, Blocks(p, claims, i));
    TwoClaimsMeans(p, mappings, ms, claims, i);
  }

  lemma ClaimsAreProper(p: Pod, mappings: Mappings, ms: seq<ResourceMatch>, claims: seq<ClaimInfo>)
    requires IsMatches(p, mappings, ms) && IsClaims(p, mappings, ms, claims)
    ensures ProperClaims(p, mappings, claims)
  {
    forall k | 0 <= k < |claims| ensures ProperClaim(p, mappings, claims[k]) {
      ClaimFacts(p, mappings, ms, claims[k]);
    }
  }

  lemma TwoClaimsMeans(p: Pod, mappings: Mappings, ms: seq<ResourceMatch>, claims: seq<ClaimInfo>, i: nat)
    requires IsMatches(p, mappings, ms) && IsClaims(p, mappings, ms, claims)
    ensures TwoClaims(p, mappings, claims, i) <==> !AsksForOne(p, mappings, i)
  {
    if !AsksForOne(p, mappings, i) {
      var r, s :| Wanted(p, mappings, i, r) && Wanted(p, mappings, i, s) && r != s;
      assert Has(ms, i, r) && Has(ms, i, s);
      assert Occurs(ms, r) && Occurs(ms, s);
      assert ClaimOn(claims, r) && ClaimOn(claims, s);
      var j :| 0 <= j < |claims| && claims[j].resource == r;
      var k :| 0 <= k < |claims| && claims[k].resource == s;
    }
  }

  // ---------- All containers: no reference lost, none given twice ----------

  /** How often x is given to container i. */
  function GivenTo(p: Pod, claims: seq<ClaimInfo>, i: nat, x: ClaimRef): nat {
    Times(Concat(Blocks(p, claims, i)), x)
  }

  function Receipts(p: Pod, claims: seq<ClaimInfo>, x: ClaimRef): nat -> nat {
    (i: nat) => GivenTo(p, claims, i, x)
  }

  /** How often x is given to the first n containers. */
  function Given(p: Pod, claims: seq<ClaimInfo>, n: nat, x: ClaimRef): nat {
    SumTo(Receipts(p, claims, x), n)
  }

  /** How often x is in each block of a claim. */
  function Weight(p: Pod, c: ClaimInfo, x: ClaimRef): nat -> nat {
    (k: nat) => if k < |c.containers| then Times(Block(p, c, k), x) else 0
  }

  lemma {:induction false} BlocksInWeigh(p: Pod, c: ClaimInfo, k: nat, i: nat, x: ClaimRef)
    requires k <= |c.containers|
    ensures Times(Concat(BlocksIn(p, c, k, i)), x) == SumAt(Weight(p, c, x), c.containers, k, i)
  {
    if k == 0 {
    } else {
      BlocksInWeigh(p, c, k - 1, i, x);
      WeighNext(BlocksIn(p, c, k - 1, i), Block(p, c, k - 1), c.containers[k - 1] == i, x);
    }
  }

  lemma {:induction false} FirstBlocksWeigh(p: Pod, c: ClaimInfo, k: nat, x: ClaimRef)
    requires k <= |c.containers|
    ensures Times(Concat(FirstBlocks(p, c, k)), x) == SumTo(Weight(p, c, x), k)
  {
    if k == 0 {
    } else {
      FirstBlocksWeigh(p, c, k - 1, x);
      WeighNext(FirstBlocks(p, c, k - 1), Block(p, c, k - 1), true, x);
    }
  }

  lemma WeighNext(parts: seq<seq<ClaimRef>>, part: seq<ClaimRef>, more: bool, x: ClaimRef)
    ensures Times(Concat(parts + (if more then [part] else [])), x) == Times(Concat(parts), x) + (if more then Times(part, x) else 0)
  {
    if more {
      ConcatNext(parts, part);
      TimesAppend(Concat(parts), part, x);
    } else {
      assert parts + [] == parts;
    }
  }

  function RefsOf(c: ClaimInfo): seq<ClaimRef> {
    Refs(ClaimName(c.deviceClass), 0, c.pairCount)
  }

  lemma GivenToSplit(p: Pod, front: seq<ClaimInfo>, c: ClaimInfo, i: nat, x: ClaimRef)
    ensures GivenTo(p, front + [c], i, x) == GivenTo(p, front, i, x) + SumAt(Weight(p, c, x), c.containers, |c.containers|, i)
  {
    assert (front + [c])[..|front|] == front;
    var a, b := Blocks(p, front, i), BlocksIn(p, c, |c.containers|, i);
    ConcatAppend(a, b);
    TimesAppend(Concat(a), Concat(b), x);
    BlocksInWeigh(p, c, |c.containers|, i, x);
  }

  lemma GivenSplit(p: Pod, front: seq<ClaimInfo>, c: ClaimInfo, n: nat, x: ClaimRef)
    ensures Given(p, front + [c], n, x) == Given(p, front, n, x) + SumOver(Weight(p, c, x), c.containers, |c.containers|, n)
  {
    forall i: nat ensures Receipts(p, front + [c], x)(i) == Receipts(p, front, x)(i) + SumAt(Weight(p, c, x), c.containers, |c.containers|, i) {
      GivenToSplit(p, front, c, i, x);
    }
    SumSplit(Receipts(p, front + [c], x), Receipts(p, front, x), Weight(p, c, x), c.containers, n);
  }

  lemma NoClaimsNothingGiven(p: Pod, n: nat, x: ClaimRef)
    ensures Given(p, [], n, x) == 0
  {
    SumZero(Receipts(p, [], x), n);
  }

  lemma {:induction false} SumZero(f: nat -> nat, n: nat)
    requires forall i :: f(i) == 0
    ensures SumTo(f, n) == 0
  {
    if n == 0 {
    } else {
      SumZero(f, n - 1);
    }
  }

  lemma OneClaimConserved(p: Pod, mappings: Mappings, ms: seq<ResourceMatch>, c: ClaimInfo, x: ClaimRef)
    requires IsMatches(p, mappings, ms) && c.resource in mappings && c == ClaimFor(p, mappings, ms, c.resource)
    ensures SumOver(Weight(p, c, x), c.containers, |c.containers|, |p.containers|) == Times(RefsOf(c), x)
  {
    ClaimFacts(p, mappings, ms, c);
    SumOverAll(Weight(p, c, x), c.containers, |c.containers|, |p.containers|);
    FirstBlocksWeigh(p, c, |c.containers|, x);
    EveryRequestOnce(p, mappings, ms, c.resource);
  }

  lemma AllRefsNext(claims: seq<ClaimInfo>, c: ClaimInfo, x: ClaimRef)
    ensures Times(FlatMap(claims + [c], RefsOf), x) == Times(FlatMap(claims, RefsOf), x) + Times(RefsOf(c), x)
  {
    FlatMapAppend(claims, [c], RefsOf);
    assert FlatMap([c], RefsOf) == RefsOf(c) + FlatMap([c][1..], RefsOf) == RefsOf(c);
    TimesAppend(FlatMap(claims, RefsOf), RefsOf(c), x);
  }

  ghost predicate ClaimsFor(p: Pod, mappings: Mappings, ms: seq<ResourceMatch>, claims: seq<ClaimInfo>) {
    forall k :: 0 <= k < |claims| ==> claims[k].resource in mappings && claims[k] == ClaimFor(p, mappings, ms, claims[k].resource)
  }

  /** A claim's blocks over all containers are its references. */
  ghost predicate Conserved(p: Pod, c: ClaimInfo, x: ClaimRef) {
    SumOver(Weight(p, c, x), c.containers, |c.containers|, |p.containers|) == Times(RefsOf(c), x)
  }

  lemma ConservedNext(p: Pod, front: seq<ClaimInfo>, c: ClaimInfo, x: ClaimRef)
    requires Conserved(p, c, x) && Given(p, front, |p.containers|, x) == Times(FlatMap(front, RefsOf), x)
    ensures Given(p, front + [c], |p.containers|, x) == Times(FlatMap(front + [c], RefsOf), x)
  {
    GivenSplit(p, front, c, |p.containers|, x);
    AllRefsNext(front, c, x);
  }

  lemma {:induction false} AllConserved(p: Pod, claims: seq<ClaimInfo>, x: ClaimRef)
    requires forall k :: 0 <= k < |claims| ==> Conserved(p, claims[k], x)
    ensures Given(p, claims, |p.containers|, x) == Times(FlatMap(claims, RefsOf), x)
  {
    if claims == [] {
      NoClaimsNothingGiven(p, |p.containers|, x);
    } else {
      var front, c := claims[..|claims| - 1], claims[|claims| - 1];
      assert claims == front + [c];
      AllConserved(p, front, x);
      ConservedNext(p, front, c, x);
    }
  }

  /** Conservation: together the containers are given the references to all requests of
      all claims, each as often as it is one. */
  lemma ReferencesConserved(p: Pod, mappings: Mappings, ms: seq<ResourceMatch>, claims: seq<ClaimInfo>, x: ClaimRef)
    requires IsMatches(p, mappings, ms) && ClaimsFor(p, mappings, ms, claims)
    ensures Given(p, claims, |p.containers|, x) == Times(FlatMap(claims, RefsOf), x)
  {
    forall k | 0 <= k < |claims| ensures Conserved(p, claims[k], x) {
      OneClaimConserved(p, mappings, ms, claims[k], x);
    }
    AllConserved(p, claims, x);
  }

  /** Different references are different in the pod as well. */
  lemma EncodeRefInjective(a: ClaimRef, b: ClaimRef)
    requires EncodeRef(a) == EncodeRef(b)
    ensures a == b
  {
    var x, y := EncodeRef(a).fields, EncodeRef(b).fields;
    assert x["name"] == Str(a.claim) && y["name"] == Str(b.claim);
    assert x["request"] == Str(RequestName(a.pair)) && y["request"] == Str(RequestName(b.pair));
    assert Decimal(a.pair) == RequestName(a.pair)[5..] && Decimal(b.pair) == RequestName(b.pair)[5..];
    NumberOfDecimal(a.pair);
    NumberOfDecimal(b.pair);
  }

  predicate NamesDistinct(claims: seq<ClaimInfo>) {
    forall j, k :: 0 <= j < k < |claims| ==> ClaimName(claims[j].deviceClass) != ClaimName(claims[k].deviceClass)
  }

  lemma RefsOfNoDup(c: ClaimInfo)
    ensures NoDup(RefsOf(c))
  {
    if c.pairCount > 0 {
      var name := ClaimName(c.deviceClass);
      RefsAt(name, 0, c.pairCount);
    }
  }

  lemma SharedRefs(c: ClaimInfo, d: ClaimInfo, x: ClaimRef)
    requires x in RefsOf(c) && x in RefsOf(d)
    ensures ClaimName(c.deviceClass) == ClaimName(d.deviceClass)
  {
    RefsAt(ClaimName(c.deviceClass), 0, c.pairCount);
    RefsAt(ClaimName(d.deviceClass), 0, d.pairCount);
    var i :| 0 <= i < |RefsOf(c)| && RefsOf(c)[i] == x;
    var j :| 0 <= j < |RefsOf(d)| && RefsOf(d)[j] == x;
  }

  lemma FirstRef(c: ClaimInfo)
    requires c.pairCount > 0
    ensures ClaimRef(ClaimName(c.deviceClass), 0) in RefsOf(c)
  {
    RefsAt(ClaimName(c.deviceClass), 0, c.pairCount);
    assert RefsOf(c)[0] == ClaimRef(ClaimName(c.deviceClass), 0);
  }

  /** No reference is given twice, over all containers, exactly if the claim names are
      distinct. */
  lemma GivenOnceExactly(p: Pod, mappings: Mappings, ms: seq<ResourceMatch>, claims: seq<ClaimInfo>)
    requires IsMatches(p, mappings, ms) && IsClaims(p, mappings, ms, claims)
    ensures (forall x :: GivenCount(p, claims)(x) <= 1) <==> NamesDistinct(claims)
  {
    RefsDistinctExactly(p, mappings, ms, claims);
    GivenOnceByRefs(p, mappings, ms, claims);
  }

  function GivenCount(p: Pod, claims: seq<ClaimInfo>): ClaimRef -> nat {
    (x: ClaimRef) => Given(p, claims, |p.containers|, x)
  }

  lemma AtMostOnce(f: ClaimRef -> nat, all: seq<ClaimRef>)
    requires forall x :: f(x) == Times(all, x)
    ensures (forall x :: f(x) <= 1) <==> NoDup(all)
  {
    NoDupByTimes(all);
    if NoDup(all) {
      forall x ensures f(x) <= 1 {
        assert Times(all, x) <= 1;
      }
    } else {
      var x :| Times(all, x) > 1;
      assert f(x) > 1;
    }
  }

  lemma GivenOnceByRefs(p: Pod, mappings: Mappings, ms: seq<ResourceMatch>, claims: seq<ClaimInfo>)
    requires IsMatches(p, mappings, ms) && ClaimsFor(p, mappings, ms, claims)
    ensures (forall x :: GivenCount(p, claims)(x) <= 1) <==> NoDup(FlatMap(claims, RefsOf))
  {
    forall x ensures GivenCount(p, claims)(x) == Times(FlatMap(claims, RefsOf), x) {
      ReferencesConserved(p, mappings, ms, claims, x);
    }
    AtMostOnce(GivenCount(p, claims), FlatMap(claims, RefsOf));
  }

  lemma RefsDistinctExactly(p: Pod, mappings: Mappings, ms: seq<ResourceMatch>, claims: seq<ClaimInfo>)
    requires IsMatches(p, mappings, ms) && IsClaims(p, mappings, ms, claims)
    ensures NoDup(FlatMap(claims, RefsOf)) <==> NamesDistinct(claims)
  {
    if NamesDistinct(claims) {
      forall c ensures NoDup(RefsOf(c)) {
        RefsOfNoDup(c);
      }
      forall c, d, x | c in claims && d in claims && x in RefsOf(c) && x in RefsOf(d) ensures c == d {
        SharedRefs(c, d, x);
      }
      FlatMapNoDup(claims, RefsOf);
    } else {
      var j, k :| 0 <= j < k < |claims| && ClaimName(claims[j].deviceClass) == ClaimName(claims[k].deviceClass);
      PairCountPositive(p, mappings, ms, claims, j);
      PairCountPositive(p, mappings, ms, claims, k);
      FirstRef(claims[j]);
      FirstRef(claims[k]);
      FlatMapShared(claims, RefsOf, j, k, ClaimRef(ClaimName(claims[j].deviceClass), 0));
    }
  }

  lemma PairCountPositive(p: Pod, mappings: Mappings, ms: seq<ResourceMatch>, claims: seq<ClaimInfo>, k: nat)
    requires IsMatches(p, mappings, ms) && IsClaims(p, mappings, ms, claims) && k < |claims|
    ensures claims[k].pairCount > 0
  {
    var r := claims[k].resource;
    var j :| 0 <= j < |ms| && ms[j].resource == r;
    var own := Filter(ms, ForResource(r));
    FilterMember(ms, ForResource(r), ms[j]);
    forall l | 0 <= l < |own| ensures own[l].count > 0 {
      MatchOf(p, mappings, ms, r, l);
    }
    SumPositive(own);
  }

  lemma {:induction false} SumPositive(ms: seq<ResourceMatch>)
    requires forall k :: 0 <= k < |ms| ==> ms[k].count > 0
    ensures SumCounts(ms) >= |ms|
  {
    if ms == [] {
    } else {
      SumPositive(ms[..|ms| - 1]);
    }
  }
}
