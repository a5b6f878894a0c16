/**
 What the webhook makes of a pod: synthetic resources become claim references.  Reference
 definitions, and what they mean for the references that containers receive.
 */
module Mutation {

  import opened Options
  import opened Seqs
  import opened Text
  import opened JsonPatch
  import opened Pods

  const MUTATED := "composite.dra/mutated"

  /** Synthetic resource names to device classes. */
  type Mappings = map<string, string>

  // ---------- Requests ----------

  /** Container i asks for a positive whole number of the mapped resource r. */
  predicate Wanted(p: Pod, mappings: Mappings, i: nat, r: string) {
    r in mappings && Asks(p, i, r) && Amount(p, i, r) > 0
  }

  predicate Asks(p: Pod, i: nat, r: string) {
    HasResources(p, i) && Lists(ResourcesOf(p, i).requests, r) && ResourcesOf(p, i).requests.value[r].asInt64.Some?
  }

  function Amount(p: Pod, i: nat, r: string): int {
    if Asks(p, i, r) then ResourcesOf(p, i).requests.value[r].asInt64.value else 0
  }

  function WantedBy(p: Pod, mappings: Mappings, i: nat): set<string> {
    set r | r in mappings && Wanted(p, mappings, i, r)
  }

  datatype ResourceMatch = ResourceMatch(resource: string, deviceClass: string, count: int, container: nat)

  predicate GoodMatch(p: Pod, mappings: Mappings, m: ResourceMatch) {
    Wanted(p, mappings, m.container, m.resource) && m.deviceClass == mappings[m.resource] && m.count == Amount(p, m.container, m.resource)
  }

  predicate Before(a: ResourceMatch, b: ResourceMatch) {
    a.container <= b.container && (a.container == b.container ==> a.resource != b.resource)
  }

  predicate Has(ms: seq<ResourceMatch>, i: nat, r: string) {
    exists k :: 0 <= k < |ms| && ms[k].container == i && ms[k].resource == r
  }

  predicate Occurs(ms: seq<ResourceMatch>, r: string) {
    exists k :: 0 <= k < |ms| && ms[k].resource == r
  }

  /** Every wanted resource of every container once, container by container. */
  ghost predicate IsMatches(p: Pod, mappings: Mappings, ms: seq<ResourceMatch>) {
    && (forall k :: 0 <= k < |ms| ==> GoodMatch(p, mappings, ms[k]))
    && (forall j, k :: 0 <= j < k < |ms| ==> Before(ms[j], ms[k]))
    && (forall i, r :: Wanted(p, mappings, i, r) ==> Has(ms, i, r))
  }

  // ---------- Claims ----------

  /** The request for one resource over all containers. */
  datatype ClaimInfo = ClaimInfo(template: string, resource: string, deviceClass: string, pairCount: int, containers: seq<nat>)

  function ForResource(r: string): ResourceMatch -> bool {
    (m: ResourceMatch) => m.resource == r
  }

  function ContainerOf(m: ResourceMatch): nat { m.container }

  function ContainersOf(ms: seq<ResourceMatch>, r: string): seq<nat> {
    Map(Filter(ms, ForResource(r)), ContainerOf)
  }

  function SumCounts(ms: seq<ResourceMatch>): int {
    if ms == [] then 0 else SumCounts(ms[..|ms| - 1]) + ms[|ms| - 1].count
  }

  function TotalOf(ms: seq<ResourceMatch>, r: string): int {
    SumCounts(Filter(ms, ForResource(r)))
  }

  function TrimHyphens(s: string): (r: string)
    ensures r <= s && (r != "" ==> r[|r| - 1] != '-') && forall i :: |r| <= i < |s| ==> s[i] == '-'
  {
    if s != "" && s[|s| - 1] == '-' then TrimHyphens(s[..|s| - 1]) else s
  }

  function PodPrefix(p: Pod): string {
    if p.MetaString("name") != "" then p.MetaString("name") else TrimHyphens(p.MetaString("generateName"))
  }

  function TemplateName(p: Pod, deviceClass: string): string {
    Truncate(PodPrefix(p) + "-" + deviceClass)
  }

  /** The claim of resource r. */
  function ClaimFor(p: Pod, mappings: Mappings, ms: seq<ResourceMatch>, r: string): ClaimInfo
    requires r in mappings
  {
    ClaimInfo(TemplateName(p, mappings[r]), r, mappings[r], TotalOf(ms, r), ContainersOf(ms, r))
  }

  /** One claim per wanted resource, by resource name. */
  ghost predicate IsClaims(p: Pod, mappings: Mappings, ms: seq<ResourceMatch>, claims: seq<ClaimInfo>) {
    && (forall k :: 0 <= k < |claims| ==> claims[k].resource in mappings && claims[k] == ClaimFor(p, mappings, ms, claims[k].resource))
    && (forall j, k :: 0 <= j < k < |claims| ==> claims[j].resource != claims[k].resource && StringLe(claims[j].resource, claims[k].resource))
    && (forall k :: 0 <= k < |claims| ==> Occurs(ms, claims[k].resource))
    && (forall r :: Occurs(ms, r) ==> ClaimOn(claims, r))
  }

  predicate ClaimOn(claims: seq<ClaimInfo>, r: string) {
    exists k :: 0 <= k < |claims| && claims[k].resource == r
  }

  function ClaimName(deviceClass: string): string {
    Truncate("composite-" + deviceClass)
  }

  function RequestName(j: nat): string {
    "pair-" + Decimal(j)
  }

  /** A reference to one request of a claim. */
  datatype ClaimRef = ClaimRef(claim: string, pair: nat)

  function EncodeRef(r: ClaimRef): Json {
    Obj(map["name" := Str(r.claim), "request" := Str(RequestName(r.pair))])
  }

  function EncodeRefs(refs: seq<ClaimRef>): seq<Json> {
    Map(refs, EncodeRef)
  }

  /** References to the requests start, …, start + n - 1 of a claim. */
  function Refs(claim: string, start: nat, n: int): seq<ClaimRef> {
    if n <= 0 then [] else Refs(claim, start, n - 1) + [ClaimRef(claim, start + n - 1)]
  }

  function EncodeEntry(c: ClaimInfo): Json {
    Obj(map["name" := Str(ClaimName(c.deviceClass)), "resourceClaimTemplateName" := Str(c.template)])
  }

  // ---------- Blocks of references ----------

  /** The amounts of r over some containers. */
  function SumAmounts(p: Pod, r: string, containers: seq<nat>): nat {
    if containers == [] then 0
    else
      var n := |containers| - 1;
      SumAmounts(p, r, containers[..n]) + Positive(Amount(p, containers[n], r))
  }

  function Positive(n: int): nat { if n > 0 then n else 0 }

  /** The references that the k-th container of a claim is given. */
  function Block(p: Pod, c: ClaimInfo, k: nat): seq<ClaimRef>
    requires k < |c.containers|
  {
    Refs(ClaimName(c.deviceClass), SumAmounts(p, c.resource, c.containers[..k]), Amount(p, c.containers[k], c.resource))
  }

  /** The blocks for container i among the first k containers of a claim. */
  function BlocksIn(p: Pod, c: ClaimInfo, k: nat, i: nat): seq<seq<ClaimRef>>
    requires k <= |c.containers|
  {
    if k == 0 then [] else BlocksIn(p, c, k - 1, i) + (if c.containers[k - 1] == i then [Block(p, c, k - 1)] else [])
  }

  function Blocks(p: Pod, claims: seq<ClaimInfo>, i: nat): seq<seq<ClaimRef>> {
    if claims == [] then []
    else
      var n := |claims| - 1;
      Blocks(p, claims[..n], i) + BlocksIn(p, claims[n], |claims[n].containers|, i)
  }

  // ---------- The resulting pod ----------

  /** A claims list after blocks of references: an existing list is appended to; where
      there was none, each block replaces the one before. */
  function ClaimsAfter(was: Option<seq<Json>>, blocks: seq<seq<ClaimRef>>): Option<seq<Json>> {
    if blocks == [] then was
    else if was.None? then Some(EncodeRefs(blocks[|blocks| - 1]))
    else Some(was.value + EncodeRefs(Concat(blocks)))
  }

  function Minus(a: Option<Amounts>, gone: set<string>): Option<Amounts> {
    if a.Some? then Some(a.value - gone) else None
  }

  function ContainerAfter(c: Container, gone: set<string>, blocks: seq<seq<ClaimRef>>): Container {
    if c.resources.None? then c
    else
      var r := c.resources.value;
      c.(resources := Some(r.(requests := Minus(r.requests, gone), limits := Minus(r.limits, gone), claims := ClaimsAfter(r.claims, blocks))))
  }

  /** How far the patches have come: what has been dropped from each container, the pod
      claims added, the blocks given to each container. */
  datatype Progress = Progress(dropped: seq<set<string>>, entries: seq<Json>, blocks: seq<seq<seq<ClaimRef>>>) {
    predicate Fits(p: Pod) {
      |dropped| == |p.containers| && |blocks| == |p.containers|
    }
  }

  function Annotated(p: Pod): map<string, string> {
    (if p.annotations.Some? then p.annotations.value else map[])[MUTATED := "true"]
  }

  function ContainersAfter(p: Pod, pr: Progress): seq<Container>
    requires pr.Fits(p)
  {
    seq(|p.containers|, i requires 0 <= i < |p.containers| => ContainerAfter(p.containers[i], pr.dropped[i], pr.blocks[i]))
  }

  function EntriesAfter(was: Option<seq<Json>>, entries: seq<Json>): Option<seq<Json>> {
    if entries == [] then was else Some((if was.Some? then was.value else []) + entries)
  }

  function PodAfter(p: Pod, pr: Progress): Pod
    requires pr.Fits(p)
  {
    p.(annotations := Some(Annotated(p)), containers := ContainersAfter(p, pr), resourceClaims := EntriesAfter(p.resourceClaims, pr.entries))
  }

  function Start(p: Pod): Progress {
    Progress(seq(|p.containers|, _ => {}), [], seq(|p.containers|, _ => []))
  }

  function Finish(p: Pod, mappings: Mappings, claims: seq<ClaimInfo>): Progress {
    Progress(seq(|p.containers|, i requires 0 <= i => WantedBy(p, mappings, i)), Map(claims, EncodeEntry), seq(|p.containers|, i requires 0 <= i => Blocks(p, claims, i)))
  }

  /** The pod that a mutation yields. */
  function Mutated(p: Pod, mappings: Mappings, claims: seq<ClaimInfo>): Pod {
    PodAfter(p, Finish(p, mappings, claims))
  }

  // ---------- Requests and limits ----------

  /** Exactly the wanted resources are gone, from requests and from limits. */
  lemma OnlyWantedRemoved(p: Pod, mappings: Mappings, claims: seq<ClaimInfo>, i: nat, r: string)
    requires HasResources(p, i)
    ensures var q := Mutated(p, mappings, claims);
      && HasResources(q, i)
      && (Lists(ResourcesOf(q, i).requests, r) <==> Lists(ResourcesOf(p, i).requests, r) && !Wanted(p, mappings, i, r))
      && (Lists(ResourcesOf(q, i).limits, r) <==> Lists(ResourcesOf(p, i).limits, r) && !Wanted(p, mappings, i, r))
      && (Lists(ResourcesOf(q, i).requests, r) ==> ResourcesOf(q, i).requests.value[r] == ResourcesOf(p, i).requests.value[r])
      && (Lists(ResourcesOf(q, i).limits, r) ==> ResourcesOf(q, i).limits.value[r] == ResourcesOf(p, i).limits.value[r])
  {
    assert r in WantedBy(p, mappings, i) <==> Wanted(p, mappings, i, r);
  }

  /** A mutated pod asks for nothing more and carries the annotation. */
  lemma NothingLeftToMutate(p: Pod, mappings: Mappings, claims: seq<ClaimInfo>)
    ensures var q := Mutated(p, mappings, claims);
      && q.annotations.Some? && MUTATED in q.annotations.value && q.annotations.value[MUTATED] == "true"
      && forall i, r :: !Wanted(q, mappings, i, r)
  {
    var q := Mutated(p, mappings, claims);
    forall i: nat, r ensures !Wanted(q, mappings, i, r) {
      if HasResources(q, i) {
        assert HasResources(p, i);
        OnlyWantedRemoved(p, mappings, claims, i, r);
      }
    }
  }
}
