/**
 What the claims of a mutated pod are, read off the pod itself: which containers ask, how
 much, and what the entries and references that the patches add hold.
 */
module ClaimEntries {

  import opened Options
  import opened Seqs
  import opened Text
  import opened JsonPatch
  import opened Pods
  import opened Mutation
  import opened References

  // ---------- What containers ask for ----------

  /** How much of r container i requests; 0 if nothing, or no whole number above it. */
  function Asked(p: Pod, r: string, i: nat): nat {
    if i < |p.containers| && p.containers[i].resources.Some? then
      var requests := p.containers[i].resources.value.requests;
      if requests.Some? && r in requests.value && requests.value[r].asInt64.Some? && requests.value[r].asInt64.value > 0
      then requests.value[r].asInt64.value else 0
    else 0
  }

  lemma WantedIsAsked(p: Pod, mappings: Mappings, i: nat, r: string)
    ensures Wanted(p, mappings, i, r) <==> r in mappings && Asked(p, r, i) > 0
    ensures Wanted(p, mappings, i, r) ==> Amount(p, i, r) == Asked(p, r, i)
  {
  }

  function AskedBy(p: Pod, r: string): nat -> nat {
    (i: nat) => Asked(p, r, i)
  }

  ghost predicate Ascending(s: seq<nat>) {
    forall j, k :: 0 <= j < k < |s| ==> s[j] < s[k]
  }

  /** The name of the pod, or what it will be generated from without trailing hyphens. */
  ghost predicate IsPodPrefix(p: Pod, prefix: string) {
    if "name" in p.meta && p.meta["name"].Str? && p.meta["name"].str != "" then prefix == p.meta["name"].str
    else
      var base := if "generateName" in p.meta && p.meta["generateName"].Str? then p.meta["generateName"].str else "";
      prefix <= base && (prefix != "" ==> prefix[|prefix| - 1] != '-') && forall i :: |prefix| <= i < |base| ==> base[i] == '-'
  }

  /** A claim serves one mapped resource: the containers that ask for it in their order,
      one pair for each unit that any of them asks for, under the cut name of its template. */
  ghost predicate Serves(p: Pod, mappings: Mappings, c: ClaimInfo) {
    && c.resource in mappings && c.deviceClass == mappings[c.resource]
    && Ascending(c.containers) && (forall i: nat :: i in c.containers <==> Asked(p, c.resource, i) > 0)
    && c.pairCount == SumTo(AskedBy(p, c.resource), |p.containers|) > 0
    && exists prefix :: IsPodPrefix(p, prefix) && c.template == Truncate(prefix + "-" + c.deviceClass)
  }

  lemma {:induction false} ContainersAscend(ms: seq<ResourceMatch>, r: string)
    requires forall j, k :: 0 <= j < k < |ms| ==> Before(ms[j], ms[k])
    ensures Ascending(ContainersOf(ms, r))
  {
    if ms == [] {
    } else {
      ContainersAscend(ms[1..], r);
      var rest := Filter(ms[1..], ForResource(r));
      forall k | 0 <= k < |rest| ensures ms[0].resource == r ==> ms[0].container < rest[k].container {
        assert rest[k] in rest;
        FilterMember(ms[1..], ForResource(r), rest[k]);
        var j :| 0 <= j < |ms[1..]| && ms[1..][j] == rest[k];
        assert Before(ms[0], ms[j + 1]);
      }
    }
  }

  lemma LastOf(at: seq<nat>, top: nat) returns (front: seq<nat>)
    requires Ascending(at) && top in at && forall i: nat :: i in at ==> i <= top
    ensures at == front + [top] && Ascending(front) && forall i: nat :: i in front <==> i in at && i < top
  {
    var k :| 0 <= k < |at| && at[k] == top;
    assert at[|at| - 1] in at;
    front := at[..k];
    assert at == front + [top];
    forall i: nat | i in at && i < top ensures i in front {
      var j :| 0 <= j < |at| && at[j] == i;
    }
  }

  lemma FirstIn(at: seq<nat>)
    ensures at != [] ==> at[0] in at
  {
  }

  /** Summing over the containers that ask is summing over all. */
  lemma {:induction false} SumOfAsking(p: Pod, r: string, at: seq<nat>, n: nat)
    requires Ascending(at) && forall i: nat :: i in at <==> i < n && Asked(p, r, i) > 0
    requires forall i: nat :: Asked(p, r, i) > 0 ==> Amount(p, i, r) == Asked(p, r, i)
    ensures SumAmounts(p, r, at) == SumTo(AskedBy(p, r), n)
  {
    if n == 0 {
      FirstIn(at);
    } else if Asked(p, r, n - 1) > 0 {
      var front := LastOf(at, n - 1);
      assert at[..|at| - 1] == front;
      SumOfAsking(p, r, front, n - 1);
    } else {
      SumOfAsking(p, r, at, n - 1);
    }
  }

  lemma {:induction false} SumAtLeast(f: nat -> nat, n: nat, i: nat)
    requires i < n
    ensures SumTo(f, n) >= f(i)
  {
    if i < n - 1 {
      SumAtLeast(f, n - 1, i);
    }
  }

  lemma TemplateNamed(p: Pod, deviceClass: string)
    ensures exists prefix :: IsPodPrefix(p, prefix) && TemplateName(p, deviceClass) == Truncate(prefix + "-" + deviceClass)
  {
    assert IsPodPrefix(p, PodPrefix(p));
  }

  lemma TotalAsked(p: Pod, mappings: Mappings, ms: seq<ResourceMatch>, c: ClaimInfo)
    requires IsMatches(p, mappings, ms) && c.resource in mappings && c == ClaimFor(p, mappings, ms, c.resource)
    requires Ascending(c.containers) && forall i: nat :: i in c.containers <==> Asked(p, c.resource, i) > 0
    ensures c.pairCount == SumTo(AskedBy(p, c.resource), |p.containers|)
  {
    var own := Filter(ms, ForResource(c.resource));
    forall k | 0 <= k < |own| ensures own[k].count == Amount(p, own[k].container, c.resource) && own[k].count > 0 {
      MatchOf(p, mappings, ms, c.resource, k);
    }
    TotalIsSum(p, own, c.resource);
    SumOfAsking(p, c.resource, c.containers, |p.containers|);
  }

  lemma ClaimServes(p: Pod, mappings: Mappings, ms: seq<ResourceMatch>, c: ClaimInfo)
    requires IsMatches(p, mappings, ms) && c.resource in mappings && c == ClaimFor(p, mappings, ms, c.resource)
    requires Occurs(ms, c.resource)
    ensures Serves(p, mappings, c)
  {
    ContainersAscend(ms, c.resource);
    ClaimFacts(p, mappings, ms, c);
    forall i: nat ensures i in c.containers <==> Asked(p, c.resource, i) > 0 {
      WantedIsAsked(p, mappings, i, c.resource);
    }
    TotalAsked(p, mappings, ms, c);
    var k :| 0 <= k < |ms| && ms[k].resource == c.resource;
    assert GoodMatch(p, mappings, ms[k]);
    SumAtLeast(AskedBy(p, c.resource), |p.containers|, ms[k].container);
    TemplateNamed(p, c.deviceClass);
  }

  /** The claims of a pod: one for each mapped resource that some container asks for, in
      the order of the resources' names. */
  lemma ClaimsServe(p: Pod, mappings: Mappings, ms: seq<ResourceMatch>, claims: seq<ClaimInfo>)
    requires IsMatches(p, mappings, ms) && IsClaims(p, mappings, ms, claims)
    ensures forall k :: 0 <= k < |claims| ==> Serves(p, mappings, claims[k])
    ensures forall j, k :: 0 <= j < k < |claims| ==> claims[j].resource != claims[k].resource && StringLe(claims[j].resource, claims[k].resource)
    ensures forall r, i :: r in mappings && Asked(p, r, i) > 0 ==> ClaimOn(claims, r)
  {
    forall k | 0 <= k < |claims| ensures Serves(p, mappings, claims[k]) {
      ClaimServes(p, mappings, ms, claims[k]);
    }
    forall r, i: nat | r in mappings && Asked(p, r, i) > 0 ensures ClaimOn(claims, r) {
      WantedIsAsked(p, mappings, i, r);
      assert Has(ms, i, r);
      assert Occurs(ms, r);
    }
  }

  // ---------- Entries ----------

  /** A pod claim entry: a name, and the name of a template. */
  predicate IsEntry(entry: Json, name: string, template: string) {
    && entry.Obj? && entry.fields.Keys == {"name", "resourceClaimTemplateName"}
    && entry.fields["name"] == Str(name) && entry.fields["resourceClaimTemplateName"] == Str(template)
  }

  /** The pod claims are the old ones followed by one entry per claim. */
  ghost predicate Entered(was: Option<seq<Json>>, now: Option<seq<Json>>, claims: seq<ClaimInfo>) {
    var n := if was.Some? then |was.value| else 0;
    && |claims| > 0 ==> (
      && now.Some? && |now.value| == n + |claims| && (was.Some? ==> was.value <= now.value)
      && forall k :: 0 <= k < |claims| ==>
           IsEntry(now.value[n + k], Truncate("composite-" + claims[k].deviceClass), claims[k].template))
  }

  lemma EntriesEntered(p: Pod, mappings: Mappings, claims: seq<ClaimInfo>)
    ensures Entered(p.resourceClaims, Mutated(p, mappings, claims).resourceClaims, claims)
    ensures claims == [] ==> Mutated(p, mappings, claims).resourceClaims == p.resourceClaims
  {
    forall k | 0 <= k < |claims| ensures IsEntry(Map(claims, EncodeEntry)[k], Truncate("composite-" + claims[k].deviceClass), claims[k].template) {
    }
  }

  // ---------- References ----------

  /** A reference of a container: to the pod claim of that name, and to its n-th request. */
  ghost predicate IsReference(ref: Json, name: string, n: nat) {
    && ref.Obj? && ref.fields.Keys == {"name", "request"} && ref.fields["name"] == Str(name)
    && ref.fields["request"].Str? && IsRequestName(ref.fields["request"].str, n)
  }

  predicate IsRequestName(s: string, n: nat) {
    |s| > 5 && s[..5] == "pair-" && Spells(s[5..], n)
  }

  lemma RequestNamed(n: nat)
    ensures IsRequestName(RequestName(n), n)
  {
    assert RequestName(n)[5..] == Decimal(n);
    FormatSpells(n);
  }

  /** x refers to a pair of the claim c, on behalf of container i. */
  ghost predicate ForClaim(p: Pod, c: ClaimInfo, i: nat, x: ClaimRef) {
    x.claim == ClaimName(c.deviceClass) && x.pair < c.pairCount && i in c.containers
  }

  lemma {:induction false} SumOfPrefix(p: Pod, r: string, at: seq<nat>, k: nat)
    requires k < |at|
    ensures SumAmounts(p, r, at[..k]) + Positive(Amount(p, at[k], r)) <= SumAmounts(p, r, at)
  {
    var n := |at| - 1;
    if k < n {
      SumOfPrefix(p, r, at[..n], k);
      assert at[..n][..k] == at[..k];
    }
  }

  lemma InBlock(p: Pod, c: ClaimInfo, k: nat, x: ClaimRef)
    requires k < |c.containers| && x in Block(p, c, k)
    requires c.pairCount == SumAmounts(p, c.resource, c.containers)
    ensures ForClaim(p, c, c.containers[k], x)
  {
    var start, n := SumAmounts(p, c.resource, c.containers[..k]), Positive(Amount(p, c.containers[k], c.resource));
    assert Block(p, c, k) == Refs(ClaimName(c.deviceClass), start, n);
    RefsAt(ClaimName(c.deviceClass), start, n);
    SumOfPrefix(p, c.resource, c.containers, k);
    var j :| 0 <= j < |Block(p, c, k)| && Block(p, c, k)[j] == x;
  }

  lemma {:induction false} InBlocksIn(p: Pod, c: ClaimInfo, k: nat, i: nat, b: seq<ClaimRef>, x: ClaimRef)
    requires k <= |c.containers| && b in BlocksIn(p, c, k, i) && x in b
    requires c.pairCount == SumAmounts(p, c.resource, c.containers)
    ensures ForClaim(p, c, i, x)
  {
    if c.containers[k - 1] == i && b == Block(p, c, k - 1) {
      InBlock(p, c, k - 1, x);
    } else {
      InBlocksIn(p, c, k - 1, i, b, x);
    }
  }

  lemma {:induction false} InBlocks(p: Pod, claims: seq<ClaimInfo>, i: nat, b: seq<ClaimRef>, x: ClaimRef) returns (k: nat)
    requires b in Blocks(p, claims, i) && x in b
    requires forall c :: c in claims ==> c.pairCount == SumAmounts(p, c.resource, c.containers)
    ensures k < |claims| && ForClaim(p, claims[k], i, x)
  {
    var n := |claims| - 1;
    if b in BlocksIn(p, claims[n], |claims[n].containers|, i) {
      InBlocksIn(p, claims[n], |claims[n].containers|, i, b, x);
      k := n;
    } else {
      k := InBlocks(p, claims[..n], i, b, x);
    }
  }

  lemma {:induction false} InConcat<T>(parts: seq<seq<T>>, x: T) returns (part: seq<T>)
    requires x in Concat(parts)
    ensures part in parts && x in part
  {
    var n := |parts| - 1;
    if x in parts[n] {
      part := parts[n];
    } else {
      part := InConcat(parts[..n], x);
    }
  }

  lemma ClaimSums(p: Pod, mappings: Mappings, ms: seq<ResourceMatch>, claims: seq<ClaimInfo>)
    requires IsMatches(p, mappings, ms) && IsClaims(p, mappings, ms, claims)
    ensures forall c :: c in claims ==> c.pairCount == SumAmounts(p, c.resource, c.containers)
  {
    forall c | c in claims ensures c.pairCount == SumAmounts(p, c.resource, c.containers) {
      var own := Filter(ms, ForResource(c.resource));
      forall k | 0 <= k < |own| ensures own[k].count == Amount(p, own[k].container, c.resource) && own[k].count > 0 {
        MatchOf(p, mappings, ms, c.resource, k);
      }
      TotalIsSum(p, own, c.resource);
    }
  }

  /** A new reference of a container is to a claim whose resource it asks for, by the name
      of that claim's entry and of one of its pairs. */
  lemma ReferenceOf(p: Pod, mappings: Mappings, ms: seq<ResourceMatch>, claims: seq<ClaimInfo>, q: Pod, i: nat, j: nat)
    returns (k: nat, n: nat, ref: Json)
    requires IsMatches(p, mappings, ms) && IsClaims(p, mappings, ms, claims)
    requires q == Mutated(p, mappings, claims) && HasResources(p, i)
    requires |Listed(ResourcesOf(p, i).claims)| <= j < |Listed(ResourcesOf(q, i).claims)|
    ensures k < |claims| && n < claims[k].pairCount && Asked(p, claims[k].resource, i) > 0
    ensures ref == Listed(ResourcesOf(q, i).claims)[j]
    ensures IsReference(ref, Truncate("composite-" + claims[k].deviceClass), n)
    ensures Entered(p.resourceClaims, q.resourceClaims, claims)
  {
    ref := Listed(ResourcesOf(q, i).claims)[j];
    assert ResourcesOf(q, i).claims == ClaimsAfter(ResourcesOf(p, i).claims, Blocks(p, claims, i));
    var x, b := AddedRef(ResourcesOf(p, i).claims, Blocks(p, claims, i), j);
    k, n := ReferenceIn(p, mappings, ms, claims, i, b, x);
    EntriesEntered(p, mappings, claims);
  }

  /** What is listed beyond the old references is out of some block. */
  lemma AddedRef(was: Option<seq<Json>>, blocks: seq<seq<ClaimRef>>, j: nat) returns (x: ClaimRef, b: seq<ClaimRef>)
    requires |Listed(was)| <= j < |Listed(ClaimsAfter(was, blocks))|
    ensures b in blocks && x in b && Listed(ClaimsAfter(was, blocks))[j] == EncodeRef(x)
  {
    if was.None? {
      b := blocks[|blocks| - 1];
      x := b[j];
    } else {
      x := Concat(blocks)[j - |was.value|];
      b := InConcat(blocks, x);
    }
  }

  lemma ReferenceIn(p: Pod, mappings: Mappings, ms: seq<ResourceMatch>, claims: seq<ClaimInfo>, i: nat, b: seq<ClaimRef>, x: ClaimRef)
    returns (k: nat, n: nat)
    requires IsMatches(p, mappings, ms) && IsClaims(p, mappings, ms, claims) && b in Blocks(p, claims, i) && x in b
    ensures k < |claims| && n < claims[k].pairCount && Asked(p, claims[k].resource, i) > 0
    ensures IsReference(EncodeRef(x), Truncate("composite-" + claims[k].deviceClass), n)
  {
    ClaimSums(p, mappings, ms, claims);
    k := InBlocks(p, claims, i, b, x);
    n := x.pair;
    RefEncoded(x);
    ClaimServes(p, mappings, ms, claims[k]);
  }

  lemma RefEncoded(x: ClaimRef)
    ensures IsReference(EncodeRef(x), x.claim, x.pair)
  {
    RequestNamed(x.pair);
  }
}
