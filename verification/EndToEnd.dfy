/**
 From the pairer to the kubelet: what a recompute publishes, prepareClaim knows, with the
 members it was made of, and turns into one device per allocation result.
 */
module EndToEnd {

  import opened Options
  import opened Seqs
  import opened Names
  import opened DeviceModel
  import opened Pairing
  import opened MatchPairing
  import opened FilterPairing
  import opened ExplicitPairing
  import opened ExplicitPairer
  import opened Compositions
  import opened UniqueNames
  import opened SecondConstraint
  import opened Synthesizers
  import DeviceStores
  import ShadowMachine
  import WorkList
  import Publisher
  import Config

  /** The device store as prepareClaim asks it. */
  function StoreOf(index: Index): WorkList.Lookup {
    (pool, device) => DeviceStores.Lookup(index, pool, device)
  }

  /** The allocation result is for that composite device. */
  predicate IsFor(driver: string, node: string, r: ShadowMachine.Allocation, cd: CompositeDevice) {
    Denotes(driver, node, cd, r.pool, r.device)
  }

  /** prepareClaim knows exactly what is published. */
  lemma PublishedIsKnown(driver: string, node: string, cds: seq<CompositeDevice>, pools: Publisher.Pools, r: ShadowMachine.Allocation)
    requires SlashFree(cds) && '/' !in r.device && Publisher.IsPublication(driver, node, cds, pools)
    ensures WorkList.Known(StoreOf(IndexOf(driver, node, cds)), r) <==> Published(pools, r.pool, r.device)
  {
    LookupAgrees(driver, node, cds, pools, r.pool, r.device);
  }

  /** With distinct names it finds the very members that the device was made of. */
  lemma OwnMembers(driver: string, node: string, cds: seq<CompositeDevice>, i: nat, r: ShadowMachine.Allocation)
    requires SlashFree(cds) && KeysDistinct(cds) && i < |cds| && IsFor(driver, node, r, cds[i])
    ensures WorkList.Known(StoreOf(IndexOf(driver, node, cds)), r)
    ensures WorkList.MembersOf(StoreOf(IndexOf(driver, node, cds)), r) == cds[i].mapping.members
  {
    ResolvesToItself(driver, node, cds, i);
  }

  // ---------- No composite device is without members ----------

  lemma BuiltHasMembers(srcs: Sources, comp: Config.Composition, c: Avail<Device>)
    requires comp.members != [] && At(c, comp.members[0].source) != []
    ensures Build(srcs, comp, c).mapping.members != []
  {
  }

  lemma ComboHasDevices(ms: Members, avail: Avail<Device>, c: Avail<Device>)
    requires ms != [] && PositiveCounts(ms) && c in Combos(ms, avail)
    ensures At(c, ms[0].source) != []
  {
    var source := ms[0].source;
    var p, s := ExtendOnly(source, Picks(At(avail, source), ms[0].count), Combos(ms[1..], avail), c);
    SubsDrawn(At(avail, source), ms[0].count, p);
  }

  lemma {:induction false} CountPositive(ms: Members, source: string)
    requires HasSource(ms, source) && PositiveCounts(ms)
    ensures CountOf(ms, source) >= 1
  {
    var n := |ms| - 1;
    if ms[n].source == source {
    } else {
      var i :| 0 <= i < |ms| && ms[i].source == source;
      assert ms[..n][i].source == source;
      CountPositive(ms[..n], source);
    }
  }

  lemma KeptHasMembers(srcs: Sources, comp: Config.Composition, cel: Match, devs: Avail<Device>, pairs: seq<Config.ExplicitPair>,
                       outs: seq<Allotment>, cd: CompositeDevice)
    requires comp.members != [] && PositiveCounts(comp.members) && Greedy(cel, comp.members, devs, pairs, outs)
    requires cd in Kept(srcs, comp, pairs, outs)
    ensures cd.mapping.members != []
  {
    var k :| 0 <= k < |Kept(srcs, comp, pairs, outs)| && Kept(srcs, comp, pairs, outs)[k] == cd;
    KeptBuilt(srcs, comp, pairs, outs, k);
    var c := KeptCombos(outs)[k];
    var i := KeptFrom(outs, c);
    assert GreedyStep(cel, comp.members, devs, pairs, outs, i);
    assert HasSource(comp.members, comp.members[0].source);
    CountPositive(comp.members, comp.members[0].source);
    BuiltHasMembers(srcs, comp, c);
  }

  lemma PairingHasMembers(st: Setting, comp: Config.Composition, devs: Avail<Device>, result: seq<CompositeDevice>, cd: CompositeDevice)
    requires comp.members != [] && PositiveCounts(comp.members) && IsPairing(st, comp, devs, result) && cd in result
    ensures cd.mapping.members != []
  {
    assert cd in multiset(result);
    var ms, fewer := comp.members, Filtered(comp.members, devs, FilterTest(comp.filters, st.cel));
    if comp.Explicit() {
      var outs :| IsExplicit(st.srcs, comp, st.cel, st.labels, fewer, result, outs);
      var k: nat :| IsPool(comp, st.labels, k)
        && Greedy(st.cel.value, ms, fewer, comp.nodePools[k].pairs, outs)
        && multiset(result) == multiset(Kept(st.srcs, comp, comp.nodePools[k].pairs, outs));
      assert cd in multiset(Kept(st.srcs, comp, comp.nodePools[k].pairs, outs));
      KeptHasMembers(st.srcs, comp, st.cel.value, fewer, comp.nodePools[k].pairs, outs, cd);
    } else if comp.constraints == [] {
      var combos := Combos(ms, fewer);
      assert cd in multiset(Map(combos, Builder(st.srcs, comp)));
      MapMember(combos, Builder(st.srcs, comp), cd);
      var c :| c in combos && Builder(st.srcs, comp)(c) == cd;
      ComboHasDevices(ms, fewer, c);
      BuiltHasMembers(st.srcs, comp, c);
    } else {
      var first := comp.constraints[0].attribute;
      var order :| IsOrder(ms, fewer, first, order) && multiset(result) == multiset(Matched(st.srcs, comp, fewer, first, order));
      assert cd in multiset(Matched(st.srcs, comp, fewer, first, order));
      var v, c := MatchedFrom(st.srcs, comp, fewer, first, order, cd);
      ComboHasDevices(ms, Group(ms, fewer, first, v), c);
      BuiltHasMembers(st.srcs, comp, c);
    }
  }

  lemma {:induction false} AllHaveMembers(st: Setting, comps: seq<Config.Composition>, devs: Avail<Device>, parts: seq<seq<CompositeDevice>>, cd: CompositeDevice)
    requires ArePairings(st, comps, devs, parts) && cd in Concat(parts)
    requires forall i :: 0 <= i < |comps| ==> comps[i].members != [] && PositiveCounts(comps[i].members)
    ensures cd.mapping.members != []
  {
    var n := |parts| - 1;
    if cd in Concat(parts[..n]) {
      AllHaveMembers(st, comps[..n], devs, parts[..n], cd);
    } else {
      PairingHasMembers(st, comps[n], devs, parts[n], cd);
    }
  }

  // ---------- Every allocation result is served ----------

  /** After a recompute, a claim all of whose devices are published gets one device per
      allocation result, in order. */
  lemma EveryResultServed(st: Setting, comps: seq<Config.Composition>, devs: Avail<Device>, parts: seq<seq<CompositeDevice>>,
                          driver: string, node: string, pools: Publisher.Pools, mine: seq<ShadowMachine.Allocation>,
                          cdi: ShadowMachine.Allocation -> seq<string>)
    requires ArePairings(st, comps, devs, parts) && Publisher.IsPublication(driver, node, Concat(parts), pools)
    requires forall i :: 0 <= i < |comps| ==> comps[i].members != [] && PositiveCounts(comps[i].members)
    requires forall i :: 0 <= i < |mine| ==> '/' !in mine[i].device && Published(pools, mine[i].pool, mine[i].device)
    ensures var store := StoreOf(IndexOf(driver, node, Concat(parts)));
      WorkList.AllKnown(store, mine) && |WorkList.Expected(cdi, store, mine)| == |mine|
  {
    var cds := Concat(parts);
    var store := StoreOf(IndexOf(driver, node, cds));
    PairsSlashFree(st, comps, devs, parts);
    forall i | 0 <= i < |mine| ensures WorkList.Known(store, mine[i]) && WorkList.MembersOf(store, mine[i]) != [] {
      PublishedIsKnown(driver, node, cds, pools, mine[i]);
      IndexFinds(driver, node, cds, mine[i].pool, mine[i].device);
      var cd :| cd in cds && Denotes(driver, node, cd, mine[i].pool, mine[i].device) && store(mine[i].pool, mine[i].device) == Some(cd.mapping);
      AllHaveMembers(st, comps, devs, parts, cd);
    }
    WorkList.OneDevicePerResult(cdi, store, mine);
  }
}
