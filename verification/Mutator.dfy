/** The webhook's mutator: find the synthetic resources, create the templates, patch. */
module Mutator {

  import opened Options
  import opened Seqs
  import opened Text
  import opened JsonPatch
  import opened Pods
  import opened Mutation
  import opened References
  import opened ClaimEntries
  import opened Patching

  // ---------- findResourceRequests ----------

  /** Container i has been scanned for all resources but those left, the ones before it fully. */
  ghost predicate Scanned(p: Pod, mappings: Mappings, ms: seq<ResourceMatch>, i: nat, left: set<string>) {
    && (forall k :: 0 <= k < |ms| ==> GoodMatch(p, mappings, ms[k]))
    && (forall j, k :: 0 <= j < k < |ms| ==> Before(ms[j], ms[k]))
    && (forall k :: 0 <= k < |ms| ==> ms[k].container <= i && (ms[k].container == i ==> ms[k].resource !in left))
    && (forall j: nat, r :: Wanted(p, mappings, j, r) && (j < i || (j == i && r !in left)) ==> Has(ms, j, r))
  }

  lemma HasAppend(ms: seq<ResourceMatch>, m: ResourceMatch, i: nat, r: string)
    ensures Has(ms + [m], i, r) <==> Has(ms, i, r) || (m.container == i && m.resource == r)
  {
    var all := ms + [m];
    assert all[|ms|] == m && forall k :: 0 <= k < |ms| ==> all[k] == ms[k];
    if Has(ms, i, r) {
      var k :| 0 <= k < |ms| && ms[k].container == i && ms[k].resource == r;
      assert all[k].container == i && all[k].resource == r;
    }
  }

  lemma ScanHit(p: Pod, mappings: Mappings, ms: seq<ResourceMatch>, i: nat, left: set<string>, m: ResourceMatch)
    requires Scanned(p, mappings, ms, i, left) && m.resource in left && m.container == i && GoodMatch(p, mappings, m)
    ensures Scanned(p, mappings, ms + [m], i, left - {m.resource})
  {
    forall j, r ensures Has(ms + [m], j, r) <==> Has(ms, j, r) || (m.container == j && m.resource == r) {
      HasAppend(ms, m, j, r);
    }
  }

  /** The loop over the mappings, in any order, for one container. */
  method ScanContainer(p: Pod, mappings: Mappings, i: nat, before: seq<ResourceMatch>) returns (ms: seq<ResourceMatch>)
    requires i < |p.containers| && Scanned(p, mappings, before, i, mappings.Keys)
    ensures Scanned(p, mappings, ms, i, {})
  {
    ms := before;
    var left := mappings.Keys;
    while left != {}
      invariant left <= mappings.Keys && Scanned(p, mappings, ms, i, left)
      decreases left
    {
      var r :| r in left;
      if HasResources(p, i) && Lists(ResourcesOf(p, i).requests, r) && ResourcesOf(p, i).requests.value[r].asInt64.Some?
         && ResourcesOf(p, i).requests.value[r].asInt64.value > 0 {
        var m := ResourceMatch(r, mappings[r], ResourcesOf(p, i).requests.value[r].asInt64.value, i);
        ScanHit(p, mappings, ms, i, left, m);
        ms := ms + [m];
      }
      left := left - {r};
    }
  }

  /** findResourceRequests. */
  method FindResourceRequests(p: Pod, mappings: Mappings) returns (ms: seq<ResourceMatch>)
    ensures IsMatches(p, mappings, ms)
  {
    ms := [];
    for i := 0 to |p.containers|
      invariant Scanned(p, mappings, ms, i, mappings.Keys)
    {
      ms := ScanContainer(p, mappings, i, ms);
    }
  }

  // ---------- Requests per resource ----------

  datatype CompositionRequest = CompositionRequest(deviceClass: string, total: int, containers: seq<nat>)

  ghost predicate Grouped(groups: map<string, CompositionRequest>, ms: seq<ResourceMatch>, mappings: Mappings) {
    && (forall r :: r in groups <==> Occurs(ms, r))
    && (forall r :: r in groups ==> r in mappings && groups[r] == RequestFor(ms, mappings, r))
  }

  function RequestFor(ms: seq<ResourceMatch>, mappings: Mappings, r: string): CompositionRequest
    requires r in mappings
  {
    CompositionRequest(mappings[r], TotalOf(ms, r), ContainersOf(ms, r))
  }

  lemma GroupNext(ms: seq<ResourceMatch>, m: ResourceMatch, r: string)
    ensures TotalOf(ms + [m], r) == TotalOf(ms, r) + (if m.resource == r then m.count else 0)
    ensures ContainersOf(ms + [m], r) == ContainersOf(ms, r) + (if m.resource == r then [m.container] else [])
  {
    FilterAppend(ms, [m], ForResource(r));
    var own := Filter(ms, ForResource(r));
    if m.resource == r {
      assert Filter([m], ForResource(r)) == [m];
      assert (own + [m])[..|own|] == own;
      MapAppend(own, [m], ContainerOf);
    } else {
      assert Filter([m], ForResource(r)) == [];
      assert own + [] == own;
    }
  }

  function AddMatch(groups: map<string, CompositionRequest>, m: ResourceMatch): map<string, CompositionRequest> {
    var was := if m.resource in groups then groups[m.resource] else CompositionRequest(m.deviceClass, 0, []);
    groups[m.resource := CompositionRequest(was.deviceClass, was.total + m.count, was.containers + [m.container])]
  }

  lemma OccursNext(ms: seq<ResourceMatch>, m: ResourceMatch, r: string)
    ensures Occurs(ms + [m], r) <==> Occurs(ms, r) || m.resource == r
  {
    var all := ms + [m];
    assert all[|ms|] == m && forall k :: 0 <= k < |ms| ==> all[k] == ms[k];
    if Occurs(ms, r) {
      var k :| 0 <= k < |ms| && ms[k].resource == r;
      assert all[k].resource == r;
    }
  }

  lemma RequestNext(groups: map<string, CompositionRequest>, ms: seq<ResourceMatch>, m: ResourceMatch, mappings: Mappings, r: string)
    requires Grouped(groups, ms, mappings) && m.resource in mappings && m.deviceClass == mappings[m.resource]
    requires r in AddMatch(groups, m)
    ensures r in mappings && AddMatch(groups, m)[r] == RequestFor(ms + [m], mappings, r)
  {
    GroupNext(ms, m, r);
    if r !in groups {
      assert !Occurs(ms, r);
      NoneFor(ms, r);
    }
  }

  lemma GroupedNext(groups: map<string, CompositionRequest>, ms: seq<ResourceMatch>, m: ResourceMatch, mappings: Mappings)
    requires Grouped(groups, ms, mappings) && m.resource in mappings && m.deviceClass == mappings[m.resource]
    ensures Grouped(AddMatch(groups, m), ms + [m], mappings)
  {
    forall r ensures r in AddMatch(groups, m) <==> Occurs(ms + [m], r) {
      OccursNext(ms, m, r);
    }
    forall r | r in AddMatch(groups, m) ensures r in mappings && AddMatch(groups, m)[r] == RequestFor(ms + [m], mappings, r) {
      RequestNext(groups, ms, m, mappings, r);
    }
  }

  lemma {:induction false} NoneFor(ms: seq<ResourceMatch>, r: string)
    requires forall k :: 0 <= k < |ms| ==> ms[k].resource != r
    ensures Filter(ms, ForResource(r)) == []
  {
    if ms == [] {
    } else {
      NoneFor(ms[1..], r);
    }
  }

  predicate Classified(ms: seq<ResourceMatch>, mappings: Mappings) {
    forall k :: 0 <= k < |ms| ==> ms[k].resource in mappings && ms[k].deviceClass == mappings[ms[k].resource]
  }

  method AddToGroups(groups: map<string, CompositionRequest>, ghost front: seq<ResourceMatch>, m: ResourceMatch, ghost mappings: Mappings)
    returns (groups': map<string, CompositionRequest>)
    requires Grouped(groups, front, mappings) && Classified([m], mappings)
    ensures Grouped(groups', front + [m], mappings)
  {
    assert [m][0] == m;
    GroupedNext(groups, front, m, mappings);
    groups' := AddMatch(groups, m);
  }

  method GroupByResource(ms: seq<ResourceMatch>, ghost mappings: Mappings) returns (groups: map<string, CompositionRequest>)
    requires Classified(ms, mappings)
    ensures Grouped(groups, ms, mappings)
  {
    groups := map[];
    ghost var front: seq<ResourceMatch> := [];
    NoGroups(mappings);
    for k := 0 to |ms|
      invariant front == ms[..k] && Grouped(groups, front, mappings)
    {
      ghost var next := front + [ms[k]];
      assert next == ms[..k + 1];
      assert Classified([ms[k]], mappings);
      groups := AddToGroups(groups, front, ms[k], mappings);
      front := next;
    }
    assert front == ms;
  }

  lemma NoGroups(mappings: Mappings)
    ensures Grouped(map[], [], mappings)
  {
  }

  // ---------- Sorted keys ----------

  predicate SortedStrings(s: seq<string>) {
    forall i, j :: 0 <= i < j < |s| ==> StringLe(s[i], s[j]) && s[i] != s[j]
  }

  lemma InsertedSorted(s: seq<string>, k: nat, x: string)
    requires SortedStrings(s) && x !in s && k <= |s|
    requires (forall i :: 0 <= i < k ==> StringLe(s[i], x)) && (forall i :: k <= i < |s| ==> StringLe(x, s[i]))
    ensures SortedStrings(s[..k] + [x] + s[k..]) && forall y :: y in s[..k] + [x] + s[k..] <==> y in s || y == x
  {
    var r := s[..k] + [x] + s[k..];
    forall i, j | 0 <= i < j < |r| ensures StringLe(r[i], r[j]) && r[i] != r[j] {
      if i == k {
        assert r[i] == x && r[j] == s[j - 1];
      } else if j == k {
        assert r[i] == s[i] && r[j] == x;
      } else {
        assert r[i] == s[if i < k then i else i - 1] && r[j] == s[if j < k then j else j - 1];
      }
    }
    assert s == s[..k] + s[k..];
  }

  method InsertString(s: seq<string>, x: string) returns (r: seq<string>)
    requires SortedStrings(s) && x !in s
    ensures SortedStrings(r) && forall y :: y in r <==> y in s || y == x
  {
    var k := 0;
    while k < |s| && StringLe(s[k], x)
      invariant 0 <= k <= |s| && forall i :: 0 <= i < k ==> StringLe(s[i], x)
    {
      k := k + 1;
    }
    if k < |s| {
      StringLeTotal(s[k], x);
      forall i | k <= i < |s| ensures StringLe(x, s[i]) {
        if i > k {
          StringLeTransitive(x, s[k], s[i]);
        }
      }
    }
    InsertedSorted(s, k, x);
    r := s[..k] + [x] + s[k..];
  }

  method SortedKeys(keys: set<string>) returns (s: seq<string>)
    ensures SortedStrings(s) && forall x :: x in s <==> x in keys
  {
    s := [];
    var left := keys;
    while left != {}
      invariant left <= keys && SortedStrings(s) && forall x :: x in s <==> x in keys && x !in left
      decreases left
    {
      var x :| x in left;
      s := InsertString(s, x);
      left := left - {x};
    }
  }

  // ---------- Templates ----------

  datatype DeviceRequest = DeviceRequest(name: string, deviceClass: string, count: int)
  datatype Template = Template(managed: bool, requests: seq<DeviceRequest>)

  /** What a claim spec of n pairs is: pair-0 to pair-(n-1), one device each. */
  ghost predicate IsSpec(requests: seq<DeviceRequest>, deviceClass: string, n: int) {
    |requests| == Positive(n) && forall i :: 0 <= i < |requests| ==> requests[i] == DeviceRequest(RequestName(i), deviceClass, 1)
  }

  /** BuildClaimSpec. */
  method BuildClaimSpec(deviceClass: string, pairCount: int) returns (requests: seq<DeviceRequest>)
    requires pairCount >= 0
    ensures IsSpec(requests, deviceClass, pairCount)
  {
    requests := [];
    for i := 0 to pairCount
      invariant IsSpec(requests, deviceClass, i)
    {
      requests := requests + [DeviceRequest("pair-" + Decimal(i), deviceClass, 1)];
    }
  }

  type Store = map<(string, string), Template>

  datatype Created = New | AlreadyExists | Error

  class TemplateApi {
    var stored: Store

    constructor ()
      ensures stored == map[]
    {
      stored := map[];
    }

    /** Create, which fails without effect if `works` is false. */
    method Create(ns: string, name: string, t: Template, works: bool) returns (r: Created)
      modifies this
      ensures r == if !works then Error else if (ns, name) in old(stored) then AlreadyExists else New
      ensures stored == if r.New? then old(stored)[(ns, name) := t] else old(stored)
    {
      if !works {
        return Error;
      }
      if (ns, name) in stored {
        return AlreadyExists;
      }
      stored := stored[(ns, name) := t];
      return New;
    }
  }

  /** `after` keeps all of `before` and holds a template for each claim: the existing one
      if there is one, otherwise one built for the first claim of that name. */
  ghost predicate Provided(before: Store, after: Store, ns: string, claims: seq<ClaimInfo>) {
    && (forall k :: k in before ==> k in after && after[k] == before[k])
    && (forall c :: 0 <= c < |claims| ==> (ns, claims[c].template) in after)
    && (forall k :: k in after && k !in before ==> exists c :: 0 <= c < |claims| && BuiltBy(after, ns, claims, k, c))
  }

  ghost predicate BuiltBy(after: Store, ns: string, claims: seq<ClaimInfo>, k: (string, string), c: nat)
    requires k in after && c < |claims|
  {
    && k == (ns, claims[c].template) && after[k].managed && IsSpec(after[k].requests, claims[c].deviceClass, claims[c].pairCount)
    && forall d :: 0 <= d < c ==> claims[d].template != claims[c].template
  }

  lemma ProvidedNext(before: Store, mid: Store, after: Store, ns: string, claims: seq<ClaimInfo>, c: ClaimInfo, t: Template)
    requires Provided(before, mid, ns, claims)
    requires t.managed && IsSpec(t.requests, c.deviceClass, c.pairCount)
    requires after == if (ns, c.template) in mid then mid else mid[(ns, c.template) := t]
    ensures Provided(before, after, ns, claims + [c])
  {
    var all := claims + [c];
    assert all[|claims|] == c && forall d :: 0 <= d < |claims| ==> all[d] == claims[d];
    forall k | k in after && k !in before ensures exists d :: 0 <= d < |all| && BuiltBy(after, ns, all, k, d) {
      if k in mid {
        var d :| 0 <= d < |claims| && BuiltBy(mid, ns, claims, k, d);
        assert BuiltBy(after, ns, all, k, d);
      } else {
        assert BuiltBy(after, ns, all, k, |claims|);
      }
    }
  }

  /** A claim whose template name was unused, before and by other claims, gets a template
      with exactly the requests that the pod's references name. */
  lemma BuiltTemplate(before: Store, after: Store, ns: string, claims: seq<ClaimInfo>, c: nat, j: nat)
    requires Provided(before, after, ns, claims) && c < |claims| && (ns, claims[c].template) !in before
    requires forall d :: 0 <= d < |claims| && d != c ==> claims[d].template != claims[c].template
    ensures (ns, claims[c].template) in after && after[(ns, claims[c].template)].managed
    ensures |after[(ns, claims[c].template)].requests| == |RefsOf(claims[c])|
    ensures j < |RefsOf(claims[c])| ==>
      EncodeRef(RefsOf(claims[c])[j]) == Obj(map["name" := Str(ClaimName(claims[c].deviceClass)),
                                                  "request" := Str(after[(ns, claims[c].template)].requests[j].name)])
  {
    var d :| 0 <= d < |claims| && BuiltBy(after, ns, claims, (ns, claims[c].template), d);
    RefsAt(ClaimName(claims[c].deviceClass), 0, Positive(claims[c].pairCount));
    assert RefsOf(claims[c]) == Refs(ClaimName(claims[c].deviceClass), 0, Positive(claims[c].pairCount));
  }

  /** Requests named pair-0, pair-1, …, as the webhook builds them. */
  predicate Numbered(requests: seq<DeviceRequest>) {
    forall i :: 0 <= i < |requests| ==> requests[i].name == RequestName(i)
  }

  ghost predicate Offers(t: Template, j: nat) {
    exists i :: 0 <= i < |t.requests| && t.requests[i].name == RequestName(j)
  }

  /** Every reference to the claim names a request of the template. */
  ghost predicate Resolves(t: Template, c: ClaimInfo) {
    forall j :: 0 <= j < |RefsOf(c)| ==> Offers(t, RefsOf(c)[j].pair)
  }

  lemma RequestNameInjective(i: nat, j: nat)
    requires RequestName(i) == RequestName(j)
    ensures i == j
  {
    assert Decimal(i) == RequestName(i)[5..] && Decimal(j) == RequestName(j)[5..];
    NumberOfDecimal(i);
    NumberOfDecimal(j);
  }

  lemma OffersExactly(t: Template, j: nat)
    requires Numbered(t.requests)
    ensures Offers(t, j) <==> j < |t.requests|
  {
    if j < |t.requests| {
      assert t.requests[j].name == RequestName(j);
    }
    if i :| 0 <= i < |t.requests| && t.requests[i].name == RequestName(j) {
      RequestNameInjective(i, j);
    }
  }

  /** Whatever template stands under the claim's name, one that was there before or one made
      for another claim of the same cut name: all references resolve if and only if it has
      as many requests as the claim needs. */
  lemma ResolvesExactly(t: Template, c: ClaimInfo)
    requires Numbered(t.requests)
    ensures Resolves(t, c) <==> |t.requests| >= |RefsOf(c)|
  {
    RefsAt(ClaimName(c.deviceClass), 0, Positive(c.pairCount));
    assert RefsOf(c) == Refs(ClaimName(c.deviceClass), 0, Positive(c.pairCount));
    forall j: nat ensures Offers(t, j) <==> j < |t.requests| {
      OffersExactly(t, j);
    }
    assert |t.requests| < |RefsOf(c)| ==> RefsOf(c)[|t.requests|].pair == |t.requests|;
  }

  /** Two claims that share a new template: it is made for the first of them, so the later
      one's references resolve if and only if it needs no more requests. */
  lemma SharedTemplateExactly(before: Store, after: Store, ns: string, claims: seq<ClaimInfo>, c: nat, d: nat)
    requires Provided(before, after, ns, claims) && c < |claims| && d < |claims| && (ns, claims[c].template) !in before
    requires claims[d].template == claims[c].template && claims[d].pairCount >= 0 && claims[c].pairCount >= 0
    requires forall e :: 0 <= e < d ==> claims[e].template != claims[c].template
    ensures (ns, claims[c].template) in after
    ensures Resolves(after[(ns, claims[c].template)], claims[c]) <==> claims[d].pairCount >= claims[c].pairCount
  {
    var k := (ns, claims[c].template);
    var e :| 0 <= e < |claims| && BuiltBy(after, ns, claims, k, e);
    assert e == d;
    RefsAt(ClaimName(claims[c].deviceClass), 0, claims[c].pairCount);
    ResolvesExactly(after[k], claims[c]);
  }

  // ---------- Mutate ----------

  datatype Answer = Patches(ops: seq<Op>) | Failed(template: string)

  predicate AlreadyMutated(p: Pod) {
    p.annotations.Some? && MUTATED in p.annotations.value && p.annotations.value[MUTATED] == "true"
  }

  ghost predicate WantsNothing(p: Pod, mappings: Mappings) {
    forall i, r :: !Wanted(p, mappings, i, r)
  }

  ghost predicate ClaimIs(p: Pod, mappings: Mappings, ms: seq<ResourceMatch>, r: string, c: ClaimInfo) {
    r in mappings && c == ClaimFor(p, mappings, ms, r)
  }

  /** What the first k claims, by sorted resource, are. */
  ghost predicate ClaimsSoFar(p: Pod, mappings: Mappings, ms: seq<ResourceMatch>, keys: seq<string>, claims: seq<ClaimInfo>) {
    |claims| <= |keys| && forall k :: 0 <= k < |claims| ==> ClaimIs(p, mappings, ms, keys[k], claims[k])
  }

  lemma ClaimsSoFarNext(p: Pod, mappings: Mappings, ms: seq<ResourceMatch>, keys: seq<string>, claims: seq<ClaimInfo>, claim: ClaimInfo)
    requires ClaimsSoFar(p, mappings, ms, keys, claims) && |claims| < |keys|
    requires keys[|claims|] in mappings && claim == ClaimFor(p, mappings, ms, keys[|claims|])
    ensures ClaimsSoFar(p, mappings, ms, keys, claims + [claim])
  {
    var all := claims + [claim];
    forall k | 0 <= k < |all| ensures ClaimIs(p, mappings, ms, keys[k], all[k]) {
      if k < |claims| {
        assert ClaimIs(p, mappings, ms, keys[k], claims[k]);
      }
    }
  }

  lemma ClaimsDone(p: Pod, mappings: Mappings, ms: seq<ResourceMatch>, keys: seq<string>, claims: seq<ClaimInfo>)
    requires SortedStrings(keys) && ClaimsSoFar(p, mappings, ms, keys, claims) && |claims| == |keys|
    requires forall r :: r in keys <==> Occurs(ms, r)
    ensures IsClaims(p, mappings, ms, claims)
  {
    forall r | Occurs(ms, r) ensures ClaimOn(claims, r) {
      assert r in keys;
      var k :| 0 <= k < |keys| && keys[k] == r;
      assert claims[k].resource == r;
    }
    forall k | 0 <= k < |claims| ensures Occurs(ms, claims[k].resource) {
      assert keys[k] in keys;
    }
  }

  lemma ClaimsAsk(p: Pod, mappings: Mappings, ms: seq<ResourceMatch>, claims: seq<ClaimInfo>)
    requires IsMatches(p, mappings, ms) && IsClaims(p, mappings, ms, claims)
    ensures AllAsk(p, claims)
  {
    forall c | 0 <= c < |claims| ensures EachAsks(p, claims[c]) {
      ClaimFacts(p, mappings, ms, claims[c]);
      forall k | 0 <= k < |claims[c].containers| ensures Asks(p, claims[c].containers[k], claims[c].resource) {
        assert Amount(p, claims[c].containers[k], claims[c].resource) > 0;
      }
    }
  }

  /** One claim of the loop over the compositions: its template created or reused. */
  method ProvideOne(p: Pod, ns: string, ghost mappings: Mappings, ghost ms: seq<ResourceMatch>, r: string, cr: CompositionRequest,
                    api: TemplateApi, broken: set<string>, ghost before: Store, ghost claims: seq<ClaimInfo>)
    returns (claim: ClaimInfo, ok: bool)
    requires IsMatches(p, mappings, ms) && r in mappings && cr == RequestFor(ms, mappings, r)
    requires Provided(before, api.stored, ns, claims)
    modifies api
    ensures claim == ClaimFor(p, mappings, ms, r) && (ok <==> claim.template !in broken)
    ensures Provided(before, api.stored, ns, if ok then claims + [claim] else claims)
  {
    claim := ClaimInfo(TemplateName(p, cr.deviceClass), r, cr.deviceClass, cr.total, cr.containers);
    EveryRequestOnce(p, mappings, ms, r);
    var requests := BuildClaimSpec(cr.deviceClass, cr.total);
    ghost var mid := api.stored;
    var created := api.Create(ns, claim.template, Template(true, requests), claim.template !in broken);
    ok := !created.Error?;
    if ok {
      ProvidedNext(before, mid, api.stored, ns, claims, claim, Template(true, requests));
    }
  }

  /** The loop over the compositions. */
  method Provide(p: Pod, ns: string, ghost mappings: Mappings, ghost ms: seq<ResourceMatch>, groups: map<string, CompositionRequest>, keys: seq<string>,
                 api: TemplateApi, broken: set<string>)
    returns (claims: seq<ClaimInfo>, failed: Option<string>)
    requires IsMatches(p, mappings, ms) && AllGrouped(groups, ms, mappings, keys)
    modifies api
    ensures Provided(old(api.stored), api.stored, ns, claims) && ClaimsSoFar(p, mappings, ms, keys, claims)
    ensures failed.None? ==> |claims| == |keys|
    ensures failed.Some? ==> failed.value in broken
  {
    claims, failed := [], None;
    for k := 0 to |keys|
      invariant |claims| == k && ClaimsSoFar(p, mappings, ms, keys, claims) && Provided(old(api.stored), api.stored, ns, claims)
    {
      var claim, ok := ProvideOne(p, ns, mappings, ms, keys[k], groups[keys[k]], api, broken, old(api.stored), claims);
      if !ok {
        return claims, Some(claim.template);
      }
      ClaimsSoFarNext(p, mappings, ms, keys, claims, claim);
      claims := claims + [claim];
    }
  }

  ghost predicate AllGrouped(groups: map<string, CompositionRequest>, ms: seq<ResourceMatch>, mappings: Mappings, keys: seq<string>) {
    forall k :: 0 <= k < |keys| ==> keys[k] in groups && keys[k] in mappings && groups[keys[k]] == RequestFor(ms, mappings, keys[k])
  }

  /** The template of that name stands: as it stood before, or made for a claim of that name. */
  ghost predicate TemplateStands(before: Store, after: Store, ns: string, claims: seq<ClaimInfo>, name: string) {
    && (ns, name) in after
    && if (ns, name) in before then after[(ns, name)] == before[(ns, name)]
       else exists c :: 0 <= c < |claims| && BuiltBy(after, ns, claims, (ns, name), c)
  }

  lemma TemplatesStand(before: Store, after: Store, ns: string, claims: seq<ClaimInfo>)
    requires Provided(before, after, ns, claims)
    ensures forall k :: 0 <= k < |claims| ==> TemplateStands(before, after, ns, claims, claims[k].template)
  {
  }

  /** The reference bears the name of the entry, and the entry names the template. */
  ghost predicate EntryOf(list: Option<seq<Json>>, at: nat, ref: Json, template: string) {
    && list.Some? && at < |list.value| && ref.Obj? && "name" in ref.fields && ref.fields["name"].Str?
    && IsEntry(list.value[at], ref.fields["name"].str, template)
  }

  /** The template has the request that the reference asks for. */
  ghost predicate HasRequest(t: Template, ref: Json, deviceClass: string) {
    && ref.Obj? && "request" in ref.fields
    && exists n :: 0 <= n < |t.requests| && t.requests[n].deviceClass == deviceClass && ref.fields["request"] == Str(t.requests[n].name)
  }

  ghost predicate Alone(claims: seq<ClaimInfo>, k: nat)
    requires k < |claims|
  {
    forall d :: 0 <= d < |claims| && d != k ==> claims[d].template != claims[k].template
  }

  /** A reference resolves: it bears the name of the entry of claim k; the template that the
      entry names stands; and where that template was made for this claim alone, it has a
      request of the name that the reference asks for. */
  ghost predicate Resolved(before: Store, after: Store, ns: string, claims: seq<ClaimInfo>, list: Option<seq<Json>>, first: nat, ref: Json, k: nat)
    requires k < |claims|
  {
    && EntryOf(list, first + k, ref, claims[k].template)
    && TemplateStands(before, after, ns, claims, claims[k].template)
    && ((ns, claims[k].template) !in before && Alone(claims, k) ==> HasRequest(after[(ns, claims[k].template)], ref, claims[k].deviceClass))
  }

  /** Every new reference in a container of the mutated pod resolves, by the claim for a
      resource that the container asks for. */
  lemma ReferenceResolves(p: Pod, mappings: Mappings, ms: seq<ResourceMatch>, claims: seq<ClaimInfo>, before: Store, after: Store, ns: string,
                          q: Pod, i: nat, j: nat)
    returns (k: nat, ref: Json)
    requires IsMatches(p, mappings, ms) && IsClaims(p, mappings, ms, claims) && Provided(before, after, ns, claims)
    requires q == Mutated(p, mappings, claims) && HasResources(p, i)
    requires |Listed(ResourcesOf(p, i).claims)| <= j < |Listed(ResourcesOf(q, i).claims)|
    ensures ref == Listed(ResourcesOf(q, i).claims)[j]
    ensures k < |claims| && Asked(p, claims[k].resource, i) > 0
    ensures Resolved(before, after, ns, claims, q.resourceClaims, |Listed(p.resourceClaims)|, ref, k)
  {
    var n;
    k, n, ref := ReferenceOf(p, mappings, ms, claims, q, i, j);
    NewReferenceResolves(before, after, ns, claims, p.resourceClaims, q.resourceClaims, k, ref, n);
  }

  lemma EntryFound(was: Option<seq<Json>>, now: Option<seq<Json>>, claims: seq<ClaimInfo>, k: nat, ref: Json, n: nat)
    requires Entered(was, now, claims) && k < |claims| && IsReference(ref, Truncate("composite-" + claims[k].deviceClass), n)
    ensures EntryOf(now, |Listed(was)| + k, ref, claims[k].template)
  {
    var name := Truncate("composite-" + claims[k].deviceClass);
    assert IsEntry(now.value[|Listed(was)| + k], name, claims[k].template);
    assert ref.fields["name"].str == name;
  }

  lemma NewReferenceResolves(before: Store, after: Store, ns: string, claims: seq<ClaimInfo>, was: Option<seq<Json>>, now: Option<seq<Json>>,
                             k: nat, ref: Json, n: nat)
    requires Provided(before, after, ns, claims) && Entered(was, now, claims) && k < |claims| && n < claims[k].pairCount
    requires IsReference(ref, Truncate("composite-" + claims[k].deviceClass), n)
    ensures Resolved(before, after, ns, claims, now, |Listed(was)|, ref, k)
  {
    EntryFound(was, now, claims, k, ref, n);
    TemplatesStand(before, after, ns, claims);
    if (ns, claims[k].template) !in before && Alone(claims, k) {
      RequestFound(before, after, ns, claims, k, ref, n);
    }
  }

  lemma RequestFound(before: Store, after: Store, ns: string, claims: seq<ClaimInfo>, k: nat, ref: Json, n: nat)
    requires Provided(before, after, ns, claims) && k < |claims| && n < claims[k].pairCount && Alone(claims, k)
    requires (ns, claims[k].template) !in before && IsReference(ref, Truncate("composite-" + claims[k].deviceClass), n)
    ensures (ns, claims[k].template) in after && HasRequest(after[(ns, claims[k].template)], ref, claims[k].deviceClass)
  {
    var d :| 0 <= d < |claims| && BuiltBy(after, ns, claims, (ns, claims[k].template), d);
    assert after[(ns, claims[k].template)].requests[n] == DeviceRequest(RequestName(n), claims[k].deviceClass, 1);
    RequestNamed(n);
    SameRequestName(ref.fields["request"].str, RequestName(n), n);
  }

  lemma SameRequestName(s: string, t: string, n: nat)
    requires IsRequestName(s, n) && IsRequestName(t, n)
    ensures s == t
  {
    SpellsExactly(s[5..], n);
    SpellsExactly(t[5..], n);
    assert s == s[..5] + s[5..] && t == t[..5] + t[5..];
  }

  /** The claims of the pod are served: each with its entry in the mutated pod and with its
      template in the API server. */
  ghost predicate AllServed(p: Pod, ns: string, mappings: Mappings, claims: seq<ClaimInfo>, before: Store, after: Store) {
    && Provided(before, after, ns, claims)
    && Entered(p.resourceClaims, Mutated(p, mappings, claims).resourceClaims, claims)
    && forall k :: 0 <= k < |claims| ==> Serves(p, mappings, claims[k]) && TemplateStands(before, after, ns, claims, claims[k].template)
  }

  lemma ClaimsServed(p: Pod, ns: string, mappings: Mappings, ms: seq<ResourceMatch>, keys: seq<string>, claims: seq<ClaimInfo>, before: Store, after: Store)
    requires IsMatches(p, mappings, ms) && SortedStrings(keys) && (forall r :: r in keys <==> Occurs(ms, r))
    requires ClaimsSoFar(p, mappings, ms, keys, claims) && |claims| == |keys| && Provided(before, after, ns, claims)
    ensures IsClaims(p, mappings, ms, claims) && AllAsk(p, claims) && AllServed(p, ns, mappings, claims, before, after)
  {
    ClaimsDone(p, mappings, ms, keys, claims);
    ClaimsAsk(p, mappings, ms, claims);
    ClaimsServe(p, mappings, ms, claims);
    EntriesEntered(p, mappings, claims);
    TemplatesStand(before, after, ns, claims);
  }

  /** Mutate.  Either the pod needs no mutation and nothing happens; or a template could
      not be created and there are no patches; or every claim has its template and the
      patches turn the pod into the mutated one. */
  method Mutate(p: Pod, ns: string, mappings: Mappings, api: TemplateApi, broken: set<string>)
    returns (answer: Answer, ghost ms: seq<ResourceMatch>, ghost claims: seq<ClaimInfo>)
    modifies api
    ensures AlreadyMutated(p) || WantsNothing(p, mappings) ==> answer == Patches([]) && api.stored == old(api.stored)
    ensures answer.Failed? ==> answer.template in broken && Provided(old(api.stored), api.stored, ns, claims)
    ensures answer.Patches? && !AlreadyMutated(p) && !WantsNothing(p, mappings) ==>
      && IsMatches(p, mappings, ms) && IsClaims(p, mappings, ms, claims)
      && Reaches(p, answer.ops, Mutated(p, mappings, claims))
      && AllServed(p, ns, mappings, claims, old(api.stored), api.stored)
  {
    ms, claims := [], [];
    if p.annotations.Some? && MUTATED in p.annotations.value && p.annotations.value[MUTATED] == "true" {
      return Patches([]), ms, claims;
    }
    var matches := FindResourceRequests(p, mappings);
    ms := matches;
    if |matches| == 0 {
      return Patches([]), ms, claims;
    }
    assert GoodMatch(p, mappings, matches[0]);
    assert Wanted(p, mappings, matches[0].container, matches[0].resource);
    assert forall k :: 0 <= k < |ms| ==> GoodMatch(p, mappings, ms[k]);
    var groups := GroupByResource(matches, mappings);
    var keys := SortedKeys(groups.Keys);
    assert AllGrouped(groups, matches, mappings, keys) by {
      assert forall k :: 0 <= k < |keys| ==> keys[k] in keys;
    }
    var infos, failed := Provide(p, ns, mappings, matches, groups, keys, api, broken);
    claims := infos;
    if failed.Some? {
      return Failed(failed.value), ms, claims;
    }
    ClaimsServed(p, ns, mappings, ms, keys, claims, old(api.stored), api.stored);
    var ops := BuildPatches(p, mappings, matches, infos);
    answer := Patches(ops);
  }
}
