/**
 A recompute: pair the devices, replace the lookup index, publish.  What is published and
 what can be looked up are the same devices.
 */
module Synthesizers {

  import opened Options
  import opened Seqs
  import opened Names
  import opened DeviceModel
  import opened Pairing
  import opened MatchPairing
  import opened FilterPairing
  import opened ExplicitPairing
  import opened Pairer
  import opened ExplicitPairer
  import opened Compositions
  import opened UniqueNames
  import opened DeviceStores
  import Publisher
  import Config

  type Index = map<string, Mapping>

  function KeyOf(driver: string, node: string, cd: CompositeDevice): string {
    StoreKey(PoolName(driver, node, cd.mapping.composition), cd.name)
  }

  function IndexOf(driver: string, node: string, cds: seq<CompositeDevice>): Index {
    if cds == [] then map[]
    else
      var n := |cds| - 1;
      IndexOf(driver, node, cds[..n])[KeyOf(driver, node, cds[n]) := cds[n].mapping]
  }

  method BuildIndex(driver: string, node: string, cds: seq<CompositeDevice>) returns (index: Index)
    ensures index == IndexOf(driver, node, cds)
  {
    index := map[];
    for i := 0 to |cds|
      invariant index == IndexOf(driver, node, cds[..i])
    {
      assert cds[..i + 1][..i] == cds[..i];
      var pool := driver + "-" + node + "-" + cds[i].mapping.composition;
      index := index[pool + "/" + cds[i].name := cds[i].mapping];
    }
    assert cds[..|cds|] == cds;
  }

  predicate SlashFree(cds: seq<CompositeDevice>) {
    forall i :: 0 <= i < |cds| ==> '/' !in cds[i].name
  }

  /** The composite device that a pool and a device name stand for. */
  predicate Denotes(driver: string, node: string, cd: CompositeDevice, pool: string, device: string) {
    pool == PoolName(driver, node, cd.mapping.composition) && device == cd.name
  }

  lemma KeyDenotes(driver: string, node: string, cd: CompositeDevice, pool: string, device: string)
    requires '/' !in cd.name && '/' !in device
    ensures KeyOf(driver, node, cd) == StoreKey(pool, device) <==> Denotes(driver, node, cd, pool, device)
  {
    if KeyOf(driver, node, cd) == StoreKey(pool, device) {
      StoreKeyInjective(PoolName(driver, node, cd.mapping.composition), cd.name, pool, device);
    }
  }

  /** A lookup finds a device exactly if there is one, and then one that it denotes. */
  lemma {:induction false} IndexFinds(driver: string, node: string, cds: seq<CompositeDevice>, pool: string, device: string)
    requires SlashFree(cds) && '/' !in device
    ensures var r := Lookup(IndexOf(driver, node, cds), pool, device);
      && (r.Some? <==> exists cd :: cd in cds && Denotes(driver, node, cd, pool, device))
      && (r.Some? ==> exists cd :: cd in cds && Denotes(driver, node, cd, pool, device) && r.value == cd.mapping)
  {
    if cds == [] {
    } else {
      var n := |cds| - 1;
      IndexFinds(driver, node, cds[..n], pool, device);
      KeyDenotes(driver, node, cds[n], pool, device);
      assert cds == cds[..n] + [cds[n]];
    }
  }

  // ---------- Published ----------

  predicate Published(pools: Publisher.Pools, pool: string, device: string) {
    pool in pools && exists i :: 0 <= i < |pools[pool]| && device in pools[pool][i]
  }

  lemma {:induction false} InSomeSlice<T>(slices: seq<seq<T>>, x: T)
    ensures x in Concat(slices) <==> exists i :: 0 <= i < |slices| && x in slices[i]
  {
    if slices == [] {
    } else {
      InSomeSlice(slices[1..], x);
      ConcatHead(slices);
      if i :| 0 <= i < |slices| && x in slices[i] {
        if i > 0 {
          assert x in slices[1..][i - 1];
        }
      }
      if i :| 0 <= i < |slices[1..]| && x in slices[1..][i] {
        assert x in slices[i + 1];
      }
    }
  }

  lemma PoolNames(slices: seq<Publisher.Slice>, ds: seq<CompositeDevice>, device: string)
    requires ds != [] && Publisher.IsPoolOf(slices, ds)
    ensures (exists i :: 0 <= i < |slices| && device in slices[i]) <==> exists cd :: cd in ds && cd.name == device
  {
    InSomeSlice(slices, device);
    MapMember(ds, NameOf, device);
  }

  /** A pool holds exactly the devices of its composition. */
  lemma PoolHolds(driver: string, node: string, cds: seq<CompositeDevice>, pools: Publisher.Pools, c: string, device: string)
    requires Publisher.IsPublication(driver, node, cds, pools) && Publisher.HasDevices(cds, c)
    ensures Published(pools, PoolName(driver, node, c), device) <==> exists cd :: cd in cds && cd.mapping.composition == c && cd.name == device
  {
    var ds, pool := Publisher.DevicesOf(cds, c), PoolName(driver, node, c);
    Publisher.DevicesOfSome(cds, c);
    PoolNames(pools[pool], ds, device);
    forall cd ensures cd in ds <==> cd in cds && cd.mapping.composition == c {
      FilterMember(cds, Publisher.InComposition(c), cd);
    }
  }

  lemma PublishedExactly(driver: string, node: string, cds: seq<CompositeDevice>, pools: Publisher.Pools, pool: string, device: string)
    requires Publisher.IsPublication(driver, node, cds, pools)
    ensures Published(pools, pool, device) <==> exists cd :: cd in cds && Denotes(driver, node, cd, pool, device)
  {
    if Published(pools, pool, device) && cds != [] {
      var c := Publisher.Owner(driver, node, pool);
      PoolHolds(driver, node, cds, pools, c, device);
      var cd :| cd in cds && cd.mapping.composition == c && cd.name == device;
      assert Denotes(driver, node, cd, pool, device);
    }
    if cd :| cd in cds && Denotes(driver, node, cd, pool, device) {
      assert Publisher.HasDevices(cds, cd.mapping.composition);
      PoolHolds(driver, node, cds, pools, cd.mapping.composition, device);
    }
  }

  /** Lookup and publication agree: a slash-free device name of a pool is found exactly if
      it is published there, and the mapping found belongs to the composition of the pool. */
  lemma LookupAgrees(driver: string, node: string, cds: seq<CompositeDevice>, pools: Publisher.Pools, pool: string, device: string)
    requires SlashFree(cds) && '/' !in device && Publisher.IsPublication(driver, node, cds, pools)
    ensures var r := Lookup(IndexOf(driver, node, cds), pool, device);
      (r.Some? <==> Published(pools, pool, device)) && (r.Some? ==> pool == PoolName(driver, node, r.value.composition))
  {
    IndexFinds(driver, node, cds, pool, device);
    PublishedExactly(driver, node, cds, pools, pool, device);
  }

  // ---------- Every device resolves to itself ----------

  /** No two devices of one composition share a name. */
  ghost predicate KeysDistinct(cds: seq<CompositeDevice>) {
    forall i, j :: 0 <= i < j < |cds| && cds[i].name == cds[j].name ==> cds[i].mapping.composition != cds[j].mapping.composition
  }

  lemma ResolvesToItself(driver: string, node: string, cds: seq<CompositeDevice>, i: nat)
    requires SlashFree(cds) && KeysDistinct(cds) && i < |cds|
    ensures Lookup(IndexOf(driver, node, cds), PoolName(driver, node, cds[i].mapping.composition), cds[i].name) == Some(cds[i].mapping)
  {
    var pool := PoolName(driver, node, cds[i].mapping.composition);
    IndexFinds(driver, node, cds, pool, cds[i].name);
    assert cds[i] in cds && Denotes(driver, node, cds[i], pool, cds[i].name);
    var r := Lookup(IndexOf(driver, node, cds), pool, cds[i].name);
    var cd :| cd in cds && Denotes(driver, node, cd, pool, cds[i].name) && r == Some(cd.mapping);
    PoolNameInjective(driver, node, cd.mapping.composition, cds[i].mapping.composition);
    var j :| 0 <= j < |cds| && cds[j] == cd;
  }

  // ---------- What the pairer yields ----------

  ghost predicate BuiltFor(st: Setting, comp: Config.Composition, cd: CompositeDevice) {
    exists combo :: SameButRail(cd, Build(st.srcs, comp, combo))
  }

  lemma BuiltFacts(st: Setting, comp: Config.Composition, cd: CompositeDevice)
    requires BuiltFor(st, comp, cd)
    ensures '/' !in cd.name && cd.mapping.composition == comp.name
  {
    var combo :| SameButRail(cd, Build(st.srcs, comp, combo));
    CompositeNameHasNoSlash(NamesOf(AllMembers(st.srcs, comp.members, combo)));
  }

  lemma MappedBuilt(st: Setting, comp: Config.Composition, combos: seq<Avail<Device>>, cd: CompositeDevice)
    requires cd in Map(combos, Builder(st.srcs, comp))
    ensures BuiltFor(st, comp, cd)
  {
    MapMember(combos, Builder(st.srcs, comp), cd);
    var combo :| combo in combos && Builder(st.srcs, comp)(combo) == cd;
    assert cd.mapping.rail == Build(st.srcs, comp, combo).mapping.rail;
    assert SameButRail(cd, Build(st.srcs, comp, combo));
  }

  lemma KeptBuiltFor(st: Setting, comp: Config.Composition, pairs: seq<Config.ExplicitPair>, outs: seq<Allotment>, cd: CompositeDevice)
    requires |outs| == |pairs| && cd in Kept(st.srcs, comp, pairs, outs)
    ensures BuiltFor(st, comp, cd)
  {
    var k :| 0 <= k < |Kept(st.srcs, comp, pairs, outs)| && Kept(st.srcs, comp, pairs, outs)[k] == cd;
    KeptBuilt(st.srcs, comp, pairs, outs, k);
    assert SameButRail(cd, Build(st.srcs, comp, KeptCombos(outs)[k]));
  }

  lemma ExplicitBuilt(st: Setting, comp: Config.Composition, devs: Avail<Device>, result: seq<CompositeDevice>, outs: seq<Allotment>, cd: CompositeDevice)
    requires IsExplicit(st.srcs, comp, st.cel, st.labels, devs, result, outs) && cd in result
    ensures BuiltFor(st, comp, cd)
  {
    var k: nat :| IsPool(comp, st.labels, k)
      && Greedy(st.cel.value, comp.members, devs, comp.nodePools[k].pairs, outs)
      && multiset(result) == multiset(Kept(st.srcs, comp, comp.nodePools[k].pairs, outs));
    assert cd in multiset(result);
    assert cd in multiset(Kept(st.srcs, comp, comp.nodePools[k].pairs, outs));
    KeptBuiltFor(st, comp, comp.nodePools[k].pairs, outs, cd);
  }

  lemma MatchedBuilt(st: Setting, comp: Config.Composition, devs: Avail<Device>, attr: string, order: seq<string>, cd: CompositeDevice)
    requires cd in Matched(st.srcs, comp, devs, attr, order)
    ensures BuiltFor(st, comp, cd)
  {
    FlatMapMember(order, Piece(st.srcs, comp, devs, attr), cd);
    var v :| v in order && cd in Piece(st.srcs, comp, devs, attr)(v);
    MappedBuilt(st, comp, Combos(comp.members, Group(comp.members, devs, attr, v)), cd);
  }

  lemma PairingBuilt(st: Setting, comp: Config.Composition, devs: Avail<Device>, result: seq<CompositeDevice>, cd: CompositeDevice)
    requires IsPairing(st, comp, devs, result) && cd in result
    ensures BuiltFor(st, comp, cd)
  {
    assert cd in multiset(result);
    var fewer := Filtered(comp.members, devs, FilterTest(comp.filters, st.cel));
    if comp.Explicit() {
      var outs :| IsExplicit(st.srcs, comp, st.cel, st.labels, fewer, result, outs);
      ExplicitBuilt(st, comp, fewer, result, outs, cd);
    } else if comp.constraints == [] {
      assert cd in multiset(Map(Combos(comp.members, fewer), Builder(st.srcs, comp)));
      MappedBuilt(st, comp, Combos(comp.members, fewer), cd);
    } else {
      var attr := comp.constraints[0].attribute;
      var order :| IsOrder(comp.members, fewer, attr, order) && multiset(result) == multiset(Matched(st.srcs, comp, fewer, attr, order));
      assert cd in multiset(Matched(st.srcs, comp, fewer, attr, order));
      MatchedBuilt(st, comp, fewer, attr, order, cd);
    }
  }

  /** `parts` are pairings of the compositions. */
  ghost predicate ArePairings(st: Setting, comps: seq<Config.Composition>, devs: Avail<Device>, parts: seq<seq<CompositeDevice>>) {
    |parts| == |comps| && forall i :: 0 <= i < |comps| ==> IsPairing(st, comps[i], devs, parts[i])
  }

  lemma {:induction false} PairsSlashFree(st: Setting, comps: seq<Config.Composition>, devs: Avail<Device>, parts: seq<seq<CompositeDevice>>)
    requires ArePairings(st, comps, devs, parts)
    ensures SlashFree(Concat(parts))
    ensures forall cd :: cd in Concat(parts) ==> exists i :: 0 <= i < |comps| && comps[i].name == cd.mapping.composition
  {
    if parts == [] {
    } else {
      var n := |parts| - 1;
      PairsSlashFree(st, comps[..n], devs, parts[..n]);
      forall cd | cd in parts[n] ensures '/' !in cd.name && cd.mapping.composition == comps[n].name {
        PairingBuilt(st, comps[n], devs, parts[n], cd);
        BuiltFacts(st, comps[n], cd);
      }
      forall cd | cd in Concat(parts) ensures exists i :: 0 <= i < |comps| && comps[i].name == cd.mapping.composition {
        if cd in Concat(parts[..n]) {
          var i :| 0 <= i < |comps[..n]| && comps[..n][i].name == cd.mapping.composition;
          assert comps[i].name == cd.mapping.composition;
        } else {
          assert cd in parts[n];
        }
      }
    }
  }

  ghost predicate ProperMembers(comp: Config.Composition) {
    comp.members != [] && DistinctSources(comp.members) && PositiveCounts(comp.members)
  }

  lemma OneComposition(st: Setting, comp: Config.Composition, devs: Avail<Device>, b: seq<CompositeDevice>)
    requires IsPairing(st, comp, devs, b) && PlainSources(devs) && ShortNames(b) && ProperMembers(comp)
    ensures forall i, j :: 0 <= i < j < |b| ==> b[i].name != b[j].name
    ensures forall i :: 0 <= i < |b| ==> b[i].mapping.composition == comp.name
  {
    PairingNamesDistinct(st, comp, devs, b);
    var names := Map(b, NameOf);
    forall i, j | 0 <= i < j < |b| ensures b[i].name != b[j].name {
      assert names[i] != names[j];
    }
    forall i | 0 <= i < |b| ensures b[i].mapping.composition == comp.name {
      PairingBuilt(st, comp, devs, b, b[i]);
      BuiltFacts(st, comp, b[i]);
    }
  }

  /** With plain device names unique per source, distinct member sources and names within
      the limit, no index entry is overwritten. */
  lemma {:induction false} PairsKeysDistinct(st: Setting, comps: seq<Config.Composition>, devs: Avail<Device>, parts: seq<seq<CompositeDevice>>)
    requires ArePairings(st, comps, devs, parts) && PlainSources(devs) && ShortNames(Concat(parts))
    requires forall i :: 0 <= i < |comps| ==> ProperMembers(comps[i])
    requires forall i, j :: 0 <= i < j < |comps| ==> comps[i].name != comps[j].name
    ensures KeysDistinct(Concat(parts))
  {
    if parts == [] {
    } else {
      var n := |parts| - 1;
      var a, b := Concat(parts[..n]), parts[n];
      var all := Concat(parts);
      assert forall i :: 0 <= i < |a| ==> a[i] == all[i];
      assert forall i :: 0 <= i < |b| ==> b[i] == all[|a| + i];
      PairsKeysDistinct(st, comps[..n], devs, parts[..n]);
      PairsSlashFree(st, comps[..n], devs, parts[..n]);
      OneComposition(st, comps[n], devs, b);
      forall i | 0 <= i < |a| ensures a[i].mapping.composition != comps[n].name {
        assert a[i] in a;
        var k :| 0 <= k < |comps[..n]| && comps[..n][k].name == a[i].mapping.composition;
        assert comps[k].name != comps[n].name;
      }
    }
  }

  // ---------- The synthesizer ----------

  class Synthesizer {
    const driver: string
    const node: string
    const comps: seq<Config.Composition>
    const st: Setting
    const store: DeviceStore
    /** The pools as last accepted by the API server. */
    var published: Publisher.Pools

    constructor (driver: string, node: string, comps: seq<Config.Composition>, st: Setting, store: DeviceStore)
      ensures this.driver == driver && this.node == node && this.comps == comps && this.st == st && this.store == store
      ensures published == map[]
    {
      this.driver, this.node, this.comps, this.st, this.store := driver, node, comps, st, store;
      published := map[];
    }

    /** Every slash-free device name is found in a pool exactly if it is published there,
        and what is found belongs to the pool's composition. */
    ghost predicate Agree()
      reads this, store
    {
      forall pool, device :: '/' !in device ==>
        var r := Lookup(store.devices, pool, device);
        (r.Some? <==> Published(published, pool, device)) && (r.Some? ==> pool == PoolName(driver, node, r.value.composition))
    }

    /** recompute.  The index is replaced first; publishing may fail. */
    method Recompute(devs: Avail<Device>, works: bool) returns (cds: seq<CompositeDevice>, ghost parts: seq<seq<CompositeDevice>>)
      requires forall i :: 0 <= i < |comps| ==> Usable(st.srcs, comps[i])
      modifies this`published, store
      ensures ArePairings(st, comps, devs, parts) && cds == Concat(parts)
      ensures store.devices == IndexOf(driver, node, cds)
      ensures works ==> Agree()
      ensures !works ==> published == old(published)
    {
      cds, parts := ComputePairs(st, comps, devs);
      var index := BuildIndex(driver, node, cds);
      store.ReplaceAll(index);
      var pools := Publisher.BuildPools(driver, node, cds);
      if works {
        published := pools;
        PairsSlashFree(st, comps, devs, parts);
        forall pool, device | '/' !in device
          ensures var r := Lookup(store.devices, pool, device);
            (r.Some? <==> Published(published, pool, device)) && (r.Some? ==> pool == PoolName(driver, node, r.value.composition))
        {
          LookupAgrees(driver, node, cds, pools, pool, device);
        }
      }
    }
  }
}
