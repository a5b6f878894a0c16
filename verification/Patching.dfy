/** The patch list of the webhook, operation by operation, proved to yield the mutated pod. */
module Patching {

  import opened Options
  import opened Seqs
  import opened Text
  import opened JsonPatch
  import opened Pods
  import opened Mutation

  /** The patches turn the encoding of p into that of q, without error. */
  ghost predicate Reaches(p: Pod, patches: seq<Op>, q: Pod) {
    ApplyAll(Encode(p), patches) == Some(Encode(q))
  }

  lemma ReachNext(p: Pod, patches: seq<Op>, q: Pod, e: Edit)
    requires Reaches(p, patches, q) && Possible(q, e)
    ensures Reaches(p, patches + [PatchFor(q, e)], Do(q, e))
  {
    PatchApplies(q, e);
  }

  // ---------- Annotation ----------

  lemma {:induction false} EscapeAfterBare(a: string, t: string)
    requires Bare(a)
    ensures Escape(a + t) == a + Escape(t)
  {
    if a == "" {
      assert a + t == t;
    } else {
      EscapeAfterBare(a[1..], t);
      EscapeCons(a[0], a[1..] + t);
      Regrouped(a, t);
      Regrouped(a, Escape(t));
    }
  }

  lemma Regrouped(a: string, t: string)
    requires a != ""
    ensures a + t == [a[0]] + (a[1..] + t)
  {
  }

  lemma EscapeCons(c: char, t: string)
    ensures Escape([c] + t) == EscapeChar(c) + Escape(t)
  {
    assert ([c] + t)[1..] == t;
  }

  lemma EscapedPair(a: string, b: string)
    requires Bare(a) && Bare(b)
    ensures Escape(a + ("/" + b)) == a + ("~1" + b)
  {
    EscapeAfterBare(a, "/" + b);
    EscapeCons('/', b);
    EscapeAfterBare(b, "");
    assert b + "" == b;
  }

  lemma AnnotationParts()
    ensures MUTATED == "composite.dra" + ("/" + "mutated")
    ensures "composite.dra" + ("~1" + "mutated") == "composite.dra~1mutated"
    ensures Bare("composite.dra") && Bare("mutated")
  {
  }

  /** The literal token in the annotation path is the escaped annotation key. */
  lemma AnnotationToken()
    ensures Escape(MUTATED) == "composite.dra~1mutated"
  {
    AnnotationParts();
    EscapedPair("composite.dra", "mutated");
  }

  lemma AnnotationPath()
    ensures "/metadata/annotations" + "/" + "composite.dra~1mutated" == "/metadata/annotations/composite.dra~1mutated"
  {
  }

  lemma MinusNone(a: Option<Amounts>, gone: set<string>)
    requires forall r :: r in gone ==> !Lists(a, r)
    ensures Minus(a, gone) == a
  {
    if a.Some? {
      assert a.value - gone == a.value;
    }
  }

  lemma SameContainer(c: Container)
    ensures ContainerAfter(c, {}, []) == c
  {
    if c.resources.Some? {
      var r := c.resources.value;
      MinusNone(r.requests, {});
      MinusNone(r.limits, {});
    }
  }

  lemma AnnotateReaches(p: Pod)
    ensures Do(p, Annotate(MUTATED, "true")) == PodAfter(p, Start(p))
  {
    forall i | 0 <= i < |p.containers| ensures ContainersAfter(p, Start(p))[i] == p.containers[i] {
      SameContainer(p.containers[i]);
    }
  }

  method AnnotationPatch(p: Pod) returns (op: Op)
    ensures op == PatchFor(p, Annotate(MUTATED, "true"))
  {
    if p.annotations.None? {
      op := Add("/metadata/annotations", EncodeStrings(map[MUTATED := "true"]));
    } else {
      AnnotationToken();
      AnnotationPath();
      op := Add("/metadata/annotations/composite.dra~1mutated", Str("true"));
    }
  }

  // ---------- Removals ----------

  function Dropping(pr: Progress, i: nat, r: string): Progress
    requires i < |pr.dropped|
  {
    pr.(dropped := pr.dropped[i := pr.dropped[i] + {r}])
  }

  lemma DropOne(c: Container, gone: set<string>, blocks: seq<seq<ClaimRef>>, r: string)
    requires c.resources.Some?
    ensures var was, now := ContainerAfter(c, gone, blocks).resources.value, ContainerAfter(c, gone + {r}, blocks).resources.value;
      && now.requests == Minus(was.requests, {r}) && now.limits == Minus(was.limits, {r})
      && now.claims == was.claims && now.rest == was.rest
  {
    var was, now := ContainerAfter(c, gone, blocks).resources.value, ContainerAfter(c, gone + {r}, blocks).resources.value;
    var x := c.resources.value;
    if x.requests.Some? {
      assert x.requests.value - (gone + {r}) == x.requests.value - gone - {r};
    }
    if x.limits.Some? {
      assert x.limits.value - (gone + {r}) == x.limits.value - gone - {r};
    }
  }

  /** Removing a request, and the limit if there is one, drops the resource. */
  lemma DropReaches(p: Pod, pr: Progress, i: nat, r: string)
    requires pr.Fits(p) && HasResources(p, i) && Lists(ResourcesOf(p, i).requests, r) && r !in pr.dropped[i]
    ensures Dropping(pr, i, r).Fits(p)
    ensures var q := PodAfter(p, pr);
      && Possible(q, DropRequest(i, r))
      && if Lists(ResourcesOf(p, i).limits, r) then
           Possible(Do(q, DropRequest(i, r)), DropLimit(i, r)) && Do(Do(q, DropRequest(i, r)), DropLimit(i, r)) == PodAfter(p, Dropping(pr, i, r))
         else
           Do(q, DropRequest(i, r)) == PodAfter(p, Dropping(pr, i, r))
  {
    var q := PodAfter(p, pr);
    DropOne(p.containers[i], pr.dropped[i], pr.blocks[i], r);
    var c, d := q.containers[i], ContainerAfter(p.containers[i], pr.dropped[i] + {r}, pr.blocks[i]);
    assert c.rest == d.rest;
    if !Lists(ResourcesOf(p, i).limits, r) {
      MinusNone(c.resources.value.limits, {r});
    }
  }

  /** The removal patches of one match. */
  method DropPatches(p: Pod, m: ResourceMatch, patches: seq<Op>, ghost pr: Progress) returns (patches': seq<Op>)
    requires pr.Fits(p) && Reaches(p, patches, PodAfter(p, pr))
    requires HasResources(p, m.container) && Lists(ResourcesOf(p, m.container).requests, m.resource) && m.resource !in pr.dropped[m.container]
    ensures Dropping(pr, m.container, m.resource).Fits(p)
    ensures Reaches(p, patches', PodAfter(p, Dropping(pr, m.container, m.resource)))
  {
    ghost var q := PodAfter(p, pr);
    DropReaches(p, pr, m.container, m.resource);
    ReachNext(p, patches, q, DropRequest(m.container, m.resource));
    var escaped := JsonPatchEscape(m.resource);
    patches' := patches + [Remove(ResourceField(m.container, "requests") + "/" + escaped)];
    if Lists(ResourcesOf(p, m.container).limits, m.resource) {
      ReachNext(p, patches', Do(q, DropRequest(m.container, m.resource)), DropLimit(m.container, m.resource));
      patches' := patches' + [Remove(ResourceField(m.container, "limits") + "/" + escaped)];
    }
  }

  /** The key under which buildPatches remembers a removal. */
  function RemovalKey(i: nat, r: string): string {
    Decimal(i) + "/" + r
  }

  lemma RemovalKeyInjective(i: nat, r: string, j: nat, s: string)
    requires RemovalKey(i, r) == RemovalKey(j, s)
    ensures i == j && r == s
  {
    FirstSlash(Decimal(i), r, Decimal(j), s);
    NumberOfDecimal(i);
    NumberOfDecimal(j);
  }

  /** The first slash separates two parts of which the first has none. */
  lemma FirstSlash(a: string, r: string, b: string, s: string)
    requires a + "/" + r == b + "/" + s && '/' !in a && '/' !in b
    ensures a == b && r == s
  {
    var k, m, n := a + "/" + r, |a|, |b|;
    assert k[m] == '/' && k[n] == '/';
    assert forall x :: 0 <= x < m ==> k[x] == a[x];
    assert forall x :: 0 <= x < n ==> k[x] == b[x];
    assert k[..m] == a && k[..n] == b;
    assert k[m + 1..] == r && k[n + 1..] == s;
  }

  /** The resources of container i among the matches. */
  function NamesAt(ms: seq<ResourceMatch>, i: nat): set<string> {
    set k | 0 <= k < |ms| && ms[k].container == i :: ms[k].resource
  }

  function DropsOf(p: Pod, ms: seq<ResourceMatch>): Progress {
    Start(p).(dropped := seq(|p.containers|, i requires 0 <= i => NamesAt(ms, i)))
  }

  lemma NamesAtNext(ms: seq<ResourceMatch>, m: ResourceMatch, i: nat)
    ensures NamesAt(ms + [m], i) == NamesAt(ms, i) + (if m.container == i then {m.resource} else {})
  {
    var all := ms + [m];
    assert all[|ms|] == m && forall k :: 0 <= k < |ms| ==> all[k] == ms[k];
    forall r | r in NamesAt(ms, i) ensures r in NamesAt(all, i) {
      var k :| 0 <= k < |ms| && ms[k].container == i && ms[k].resource == r;
      assert all[k].resource == r;
    }
  }

  lemma DropsNext(p: Pod, ms: seq<ResourceMatch>, m: ResourceMatch)
    requires m.container < |p.containers|
    ensures DropsOf(p, ms + [m]) == Dropping(DropsOf(p, ms), m.container, m.resource)
  {
    var x, y := DropsOf(p, ms + [m]).dropped, Dropping(DropsOf(p, ms), m.container, m.resource).dropped;
    forall i | 0 <= i < |p.containers| ensures x[i] == y[i] {
      NamesAtNext(ms, m, i);
    }
    assert x == y;
  }

  lemma FirstDrops(p: Pod)
    ensures DropsOf(p, []) == Start(p)
  {
    var x, y := DropsOf(p, []).dropped, Start(p).dropped;
    forall i | 0 <= i < |p.containers| ensures x[i] == y[i] {
      assert NamesAt([], i) == {};
    }
    assert x == y;
  }

  lemma KeyIsNew(ms: seq<ResourceMatch>, k: nat, removed: set<string>)
    requires k < |ms| && (forall i, j :: 0 <= i < j < |ms| ==> Before(ms[i], ms[j]))
    requires removed == set j | 0 <= j < k :: RemovalKey(ms[j].container, ms[j].resource)
    ensures RemovalKey(ms[k].container, ms[k].resource) !in removed
    ensures ms[k].resource !in NamesAt(ms[..k], ms[k].container)
  {
    forall j | 0 <= j < k ensures RemovalKey(ms[j].container, ms[j].resource) != RemovalKey(ms[k].container, ms[k].resource) {
      assert Before(ms[j], ms[k]);
      if RemovalKey(ms[j].container, ms[j].resource) == RemovalKey(ms[k].container, ms[k].resource) {
        RemovalKeyInjective(ms[j].container, ms[j].resource, ms[k].container, ms[k].resource);
      }
    }
  }

  /** The removal loop.  No match is skipped: all have different keys. */
  method RemovalPatches(p: Pod, ghost mappings: Mappings, ms: seq<ResourceMatch>, first: seq<Op>) returns (patches: seq<Op>)
    requires IsMatches(p, mappings, ms) && Reaches(p, first, PodAfter(p, Start(p)))
    ensures Reaches(p, patches, PodAfter(p, DropsOf(p, ms)))
  {
    patches := first;
    var removed: set<string> := {};
    FirstDrops(p);
    for k := 0 to |ms|
      invariant removed == set j | 0 <= j < k :: RemovalKey(ms[j].container, ms[j].resource)
      invariant Reaches(p, patches, PodAfter(p, DropsOf(p, ms[..k])))
    {
      var m := ms[k];
      assert GoodMatch(p, mappings, m);
      KeyIsNew(ms, k, removed);
      var key := RemovalKey(m.container, m.resource);
      if key !in removed {
        removed := removed + {key};
        patches := DropPatches(p, m, patches, DropsOf(p, ms[..k]));
      }
      DropsNext(p, ms[..k], m);
      assert ms[..k + 1] == ms[..k] + [m];
    }
    assert ms[..|ms|] == ms;
  }

  /** All removals done: exactly the wanted resources are gone. */
  lemma DropsDone(p: Pod, mappings: Mappings, ms: seq<ResourceMatch>)
    requires IsMatches(p, mappings, ms)
    ensures DropsOf(p, ms) == Finish(p, mappings, [])
  {
    forall i: nat ensures NamesAt(ms, i) == WantedBy(p, mappings, i) {
      forall r | r in WantedBy(p, mappings, i) ensures r in NamesAt(ms, i) {
        assert Has(ms, i, r);
        var k :| 0 <= k < |ms| && ms[k].container == i && ms[k].resource == r;
      }
      forall r | r in NamesAt(ms, i) ensures r in WantedBy(p, mappings, i) {
        var k :| 0 <= k < |ms| && ms[k].container == i && ms[k].resource == r;
        assert GoodMatch(p, mappings, ms[k]);
      }
    }
  }

  // ---------- Claims ----------

  function Giving(pr: Progress, i: nat, block: seq<ClaimRef>): Progress
    requires i < |pr.blocks|
  {
    pr.(blocks := pr.blocks[i := pr.blocks[i] + [block]])
  }

  lemma ClaimsNext(was: Option<seq<Json>>, blocks: seq<seq<ClaimRef>>, block: seq<ClaimRef>)
    ensures var now := ClaimsAfter(was, blocks + [block]);
      if was.None? then now == Some(EncodeRefs(block))
      else ClaimsAfter(was, blocks).Some? && now == Some(ClaimsAfter(was, blocks).value + EncodeRefs(block))
  {
    ConcatNext(blocks, block);
    MapAppend(Concat(blocks), block, EncodeRef);
    if was.Some? {
      assert blocks == [] ==> was.value + EncodeRefs(Concat(blocks)) == was.value;
      assert was.value + EncodeRefs(Concat(blocks) + block) == (was.value + EncodeRefs(Concat(blocks))) + EncodeRefs(block);
    }
  }

  /** Giving a block changes one claims list only. */
  lemma GivenPod(p: Pod, pr: Progress, i: nat, block: seq<ClaimRef>)
    requires pr.Fits(p) && HasResources(p, i)
    ensures Giving(pr, i, block).Fits(p) && HasResources(PodAfter(p, pr), i)
    ensures var q := PodAfter(p, pr);
      PodAfter(p, Giving(pr, i, block))
        == SetResources(q, i, ResourcesOf(q, i).(claims := ClaimsAfter(ResourcesOf(p, i).claims, pr.blocks[i] + [block])))
  {
    var x := PodAfter(p, Giving(pr, i, block)).containers;
    var q := PodAfter(p, pr);
    var y := SetResources(q, i, ResourcesOf(q, i).(claims := ClaimsAfter(ResourcesOf(p, i).claims, pr.blocks[i] + [block]))).containers;
    assert forall j :: 0 <= j < |p.containers| ==> x[j] == y[j];
    assert x == y;
  }

  /** The references of one container: count of them, from pairIdx on. */
  method MakeRefs(claim: string, pairIdx: nat, count: int) returns (refs: seq<Json>, next: nat)
    ensures refs == EncodeRefs(Refs(claim, pairIdx, count)) && next == pairIdx + Positive(count)
  {
    refs, next := [], pairIdx;
    var j := 0;
    while j < count
      invariant 0 <= j <= Positive(count) && next == pairIdx + j
      invariant refs == EncodeRefs(Refs(claim, pairIdx, j))
    {
      MapAppend(Refs(claim, pairIdx, j), [ClaimRef(claim, next)], EncodeRef);
      refs := refs + [Obj(map["name" := Str(claim), "request" := Str("pair-" + Decimal(next))])];
      next := next + 1;
      j := j + 1;
    }
  }

  /** One append operation per reference. */
  method AppendPatches(p: Pod, i: nat, refs: seq<Json>, before: seq<Op>, ghost q: Pod) returns (patches: seq<Op>)
    requires Reaches(p, before, q) && HasResources(q, i) && ResourcesOf(q, i).claims.Some?
    ensures Reaches(p, patches, WithClaims(q, i, ResourcesOf(q, i).claims.value + refs))
  {
    ghost var was := ResourcesOf(q, i).claims.value;
    patches := before;
    SameClaims(q, i);
    assert was + refs[..0] == was;
    for k := 0 to |refs|
      invariant Reaches(p, patches, WithClaims(q, i, was + refs[..k]))
    {
      AppendReaches(p, patches, q, i, was + refs[..k], refs[k]);
      assert was + refs[..k + 1] == was + refs[..k] + [refs[k]];
      patches := patches + [Add(ResourceField(i, "claims") + "/-", refs[k])];
    }
    assert refs[..|refs|] == refs;
  }

  function WithClaims(q: Pod, i: nat, list: seq<Json>): Pod
    requires HasResources(q, i)
  {
    SetResources(q, i, ResourcesOf(q, i).(claims := Some(list)))
  }

  lemma SameClaims(q: Pod, i: nat)
    requires HasResources(q, i) && ResourcesOf(q, i).claims.Some?
    ensures WithClaims(q, i, ResourcesOf(q, i).claims.value) == q
  {
    assert q.containers[i := q.containers[i].(resources := Some(ResourcesOf(q, i)))] == q.containers;
  }

  lemma AppendReaches(p: Pod, patches: seq<Op>, q: Pod, i: nat, list: seq<Json>, ref: Json)
    requires HasResources(q, i) && Reaches(p, patches, WithClaims(q, i, list))
    ensures Reaches(p, patches + [Add(ResourceField(i, "claims") + "/-", ref)], WithClaims(q, i, list + [ref]))
  {
    AppendNext(q, i, list, ref);
    ReachNext(p, patches, WithClaims(q, i, list), AppendClaim(i, ref));
  }

  lemma AppendNext(q: Pod, i: nat, list: seq<Json>, ref: Json)
    requires HasResources(q, i)
    ensures var x := WithClaims(q, i, list); Possible(x, AppendClaim(i, ref)) && Do(x, AppendClaim(i, ref)) == WithClaims(q, i, list + [ref])
  {
    assert Do(WithClaims(q, i, list), AppendClaim(i, ref)).containers == WithClaims(q, i, list + [ref]).containers;
  }

  /** The references for one container: a new list, or appended one by one. */
  method GivePatches(p: Pod, i: nat, refs: seq<Json>, before: seq<Op>, ghost pr: Progress, ghost block: seq<ClaimRef>) returns (patches: seq<Op>)
    requires pr.Fits(p) && HasResources(p, i) && refs == EncodeRefs(block) && Reaches(p, before, PodAfter(p, pr))
    ensures Giving(pr, i, block).Fits(p) && Reaches(p, patches, PodAfter(p, Giving(pr, i, block)))
  {
    ghost var q := PodAfter(p, pr);
    GivenPod(p, pr, i, block);
    ClaimsNext(ResourcesOf(p, i).claims, pr.blocks[i], block);
    if ResourcesOf(p, i).claims.None? {
      ReachNext(p, before, q, SetClaims(i, refs));
      patches := before + [Add(ResourceField(i, "claims"), Arr(refs))];
    } else {
      patches := AppendPatches(p, i, refs, before, q);
    }
  }

  /** Within a claim: its entry and the blocks of its first k containers. */
  function Within(p: Pod, mappings: Mappings, front: seq<ClaimInfo>, c: ClaimInfo, k: nat): Progress
    requires k <= |c.containers|
  {
    Finish(p, mappings, front + [c]).(blocks := seq(|p.containers|, i requires 0 <= i => Blocks(p, front, i) + BlocksIn(p, c, k, i)))
  }

  lemma BlockAdded(a: seq<seq<ClaimRef>>, b: seq<seq<ClaimRef>>, block: seq<ClaimRef>)
    ensures a + (b + [block]) == a + b + [block] && a + (b + []) == a + b
  {
  }

  lemma WithinNext(p: Pod, mappings: Mappings, front: seq<ClaimInfo>, c: ClaimInfo, k: nat)
    requires k < |c.containers| && c.containers[k] < |p.containers|
    ensures Within(p, mappings, front, c, k + 1) == Giving(Within(p, mappings, front, c, k), c.containers[k], Block(p, c, k))
  {
    var x, y := Within(p, mappings, front, c, k + 1).blocks, Giving(Within(p, mappings, front, c, k), c.containers[k], Block(p, c, k)).blocks;
    forall i | 0 <= i < |p.containers| ensures x[i] == y[i] {
      BlockAdded(Blocks(p, front, i), BlocksIn(p, c, k, i), Block(p, c, k));
    }
    assert x == y;
  }

  lemma WithinDone(p: Pod, mappings: Mappings, front: seq<ClaimInfo>, c: ClaimInfo)
    ensures Within(p, mappings, front, c, |c.containers|) == Finish(p, mappings, front + [c])
  {
    assert (front + [c])[..|front|] == front;
    var x, y := Within(p, mappings, front, c, |c.containers|).blocks, Finish(p, mappings, front + [c]).blocks;
    assert forall i :: 0 <= i < |p.containers| ==> x[i] == y[i];
    assert x == y;
  }

  lemma EntriesNext(was: Option<seq<Json>>, entries: seq<Json>, x: Json)
    ensures EntriesAfter(was, entries + [x]) == Some((if EntriesAfter(was, entries).Some? then EntriesAfter(was, entries).value else []) + [x])
  {
    var was0 := if was.Some? then was.value else [];
    assert was0 + (entries + [x]) == (was0 + entries) + [x];
    assert entries == [] ==> was0 + entries == was0;
  }

  lemma WithinFirst(p: Pod, mappings: Mappings, front: seq<ClaimInfo>, c: ClaimInfo)
    ensures Within(p, mappings, front, c, 0)
         == Finish(p, mappings, front).(entries := Finish(p, mappings, front).entries + [EncodeEntry(c)])
  {
    var a, b := Finish(p, mappings, front), Within(p, mappings, front, c, 0);
    MapAppend(front, [c], EncodeEntry);
    forall i | 0 <= i < |p.containers| ensures a.blocks[i] == b.blocks[i] {
      assert BlocksIn(p, c, 0, i) == [];
      assert Blocks(p, front, i) + [] == Blocks(p, front, i);
    }
    assert a.blocks == b.blocks;
    assert b.entries == a.entries + [EncodeEntry(c)];
  }

  lemma EntryReaches(p: Pod, mappings: Mappings, front: seq<ClaimInfo>, c: ClaimInfo)
    ensures var q := PodAfter(p, Finish(p, mappings, front));
      && Do(q, AddPodClaim(EncodeEntry(c))) == PodAfter(p, Within(p, mappings, front, c, 0))
      && (q.resourceClaims.None? <==> front == [] && p.resourceClaims.None?)
  {
    WithinFirst(p, mappings, front, c);
    EntryOnPod(p, Finish(p, mappings, front), EncodeEntry(c));
  }

  lemma EntryOnPod(p: Pod, pr: Progress, x: Json)
    requires pr.Fits(p)
    ensures Do(PodAfter(p, pr), AddPodClaim(x)) == PodAfter(p, pr.(entries := pr.entries + [x]))
  {
    EntriesNext(p.resourceClaims, pr.entries, x);
    assert ContainersAfter(p, pr) == ContainersAfter(p, pr.(entries := pr.entries + [x]));
  }

  /** The containers of a claim ask for its resource. */
  predicate EachAsks(p: Pod, c: ClaimInfo) {
    forall k :: 0 <= k < |c.containers| ==> Asks(p, c.containers[k], c.resource)
  }

  predicate AllAsk(p: Pod, claims: seq<ClaimInfo>) {
    forall k :: 0 <= k < |claims| ==> EachAsks(p, claims[k])
  }

  /** The patches of one claim; `first` says whether it is the first. */
  method OneClaimPatches(p: Pod, ghost mappings: Mappings, ghost front: seq<ClaimInfo>, c: ClaimInfo, first: bool, before: seq<Op>) returns (patches: seq<Op>)
    requires first <==> front == []
    requires EachAsks(p, c)
    requires Reaches(p, before, PodAfter(p, Finish(p, mappings, front)))
    ensures Reaches(p, patches, PodAfter(p, Finish(p, mappings, front + [c])))
  {
    EntryReaches(p, mappings, front, c);
    ReachNext(p, before, PodAfter(p, Finish(p, mappings, front)), AddPodClaim(EncodeEntry(c)));
    var claimName := Truncate("composite-" + c.deviceClass);
    var entry := Obj(map["name" := Str(claimName), "resourceClaimTemplateName" := Str(c.template)]);
    if first && p.resourceClaims.None? {
      patches := before + [Add("/spec/resourceClaims", Arr([entry]))];
    } else {
      patches := before + [Add("/spec/resourceClaims" + "/-", entry)];
    }
    patches := ContainerPatches(p, mappings, front, c, patches);
    WithinDone(p, mappings, front, c);
  }

  /** The loop over the containers of a claim, with its running pair index. */
  method ContainerPatches(p: Pod, ghost mappings: Mappings, ghost front: seq<ClaimInfo>, c: ClaimInfo, before: seq<Op>) returns (patches: seq<Op>)
    requires EachAsks(p, c)
    requires Reaches(p, before, PodAfter(p, Within(p, mappings, front, c, 0)))
    ensures Reaches(p, patches, PodAfter(p, Within(p, mappings, front, c, |c.containers|)))
  {
    patches := before;
    var pairIdx := 0;
    for k := 0 to |c.containers|
      invariant pairIdx == SumAmounts(p, c.resource, c.containers[..k])
      invariant Reaches(p, patches, PodAfter(p, Within(p, mappings, front, c, k)))
    {
      var i := c.containers[k];
      assert c.containers[..k + 1][..k] == c.containers[..k];
      WithinNext(p, mappings, front, c, k);
      var refs, next := MakeRefs(Truncate("composite-" + c.deviceClass), pairIdx, Amount(p, i, c.resource));
      patches := GivePatches(p, i, refs, patches, Within(p, mappings, front, c, k), Block(p, c, k));
      pairIdx := next;
    }
  }

  // ---------- All patches ----------

  /** buildPatches: the emitted operations, run in order, succeed and yield the mutated pod. */
  method BuildPatches(p: Pod, ghost mappings: Mappings, ms: seq<ResourceMatch>, claims: seq<ClaimInfo>) returns (patches: seq<Op>)
    requires IsMatches(p, mappings, ms)
    requires AllAsk(p, claims)
    ensures Reaches(p, patches, Mutated(p, mappings, claims))
  {
    var op := AnnotationPatch(p);
    ReachNext(p, [], p, Annotate(MUTATED, "true"));
    AnnotateReaches(p);
    patches := RemovalPatches(p, mappings, ms, [] + [op]);
    DropsDone(p, mappings, ms);
    patches := ClaimPatches(p, mappings, claims, patches);
  }

  /** The loop over the claims. */
  method ClaimPatches(p: Pod, ghost mappings: Mappings, claims: seq<ClaimInfo>, before: seq<Op>) returns (patches: seq<Op>)
    requires AllAsk(p, claims) && Reaches(p, before, PodAfter(p, Finish(p, mappings, [])))
    ensures Reaches(p, patches, Mutated(p, mappings, claims))
  {
    patches := before;
    assert claims[..0] == [];
    for c := 0 to |claims|
      invariant Reaches(p, patches, PodAfter(p, Finish(p, mappings, claims[..c])))
    {
      patches := OneClaimPatches(p, mappings, claims[..c], claims[c], c == 0, patches);
      assert claims[..c + 1] == claims[..c] + [claims[c]];
    }
    assert claims[..|claims|] == claims;
  }
}
