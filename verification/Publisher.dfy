/** Publishing: one pool per composition, cut into slices of at most 128 devices. */
module Publisher {

  import opened Options
  import opened Seqs
  import opened Names
  import opened DeviceModel
  import opened Pairing
  import opened MatchPairing

  const MAX_DEVICES := 128

  /** A published slice: the names of its devices. */
  type Slice = seq<string>

  function InComposition(c: string): CompositeDevice -> bool {
    (cd: CompositeDevice) => cd.mapping.composition == c
  }

  /** The devices of a composition, in their order. */
  function DevicesOf(cds: seq<CompositeDevice>, c: string): seq<CompositeDevice> {
    Filter(cds, InComposition(c))
  }

  ghost predicate HasDevices(cds: seq<CompositeDevice>, c: string) {
    exists cd :: cd in cds && cd.mapping.composition == c
  }

  // ---------- Slices ----------

  /** Slices that lose nothing: together the list, none empty, all but the last full. */
  ghost predicate IsSlicing<T>(slices: seq<seq<T>>, list: seq<T>) {
    && Concat(slices) == list
    && (forall i :: 0 <= i < |slices| ==> 1 <= |slices[i]| <= MAX_DEVICES)
    && (forall i :: 0 <= i < |slices| - 1 ==> |slices[i]| == MAX_DEVICES)
  }

  function CeilDiv(n: nat): nat { (n + MAX_DEVICES - 1) / MAX_DEVICES }

  lemma {:induction false} SliceCount<T>(slices: seq<seq<T>>, list: seq<T>)
    requires IsSlicing(slices, list)
    ensures |slices| == CeilDiv(|list|) == (|list| + 127) / 128
  {
    if |slices| > 1 {
      ConcatHead(slices);
      assert IsSlicing(slices[1..], list[MAX_DEVICES..]);
      SliceCount(slices[1..], list[MAX_DEVICES..]);
    } else if |slices| == 1 {
      ConcatHead(slices);
    }
  }

  /** A list can be sliced in one way only. */
  lemma {:induction false} SlicingUnique<T>(a: seq<seq<T>>, b: seq<seq<T>>, list: seq<T>)
    requires IsSlicing(a, list) && IsSlicing(b, list)
    ensures a == b
  {
    SliceCount(a, list);
    SliceCount(b, list);
    if |a| == 1 {
      ConcatHead(a);
      ConcatHead(b);
      assert a[0] == list == b[0];
    } else if |a| > 1 {
      ConcatHead(a);
      ConcatHead(b);
      assert a[0] == list[..MAX_DEVICES] == b[0];
      SlicingUnique(a[1..], b[1..], list[MAX_DEVICES..]);
      assert a == [a[0]] + a[1..] && b == [b[0]] + b[1..];
    }
  }

  /** A slicing to which another slice can be added. */
  ghost predicate Open<T>(slices: seq<seq<T>>, list: seq<T>) {
    IsSlicing(slices, list) && forall i :: 0 <= i < |slices| ==> |slices[i]| == MAX_DEVICES
  }

  lemma SliceNext<T>(slices: seq<seq<T>>, list: seq<T>, i: nat, end: nat)
    requires i < end <= |list| && Open(slices, list[..i]) && end == Min(i + MAX_DEVICES, |list|)
    ensures IsSlicing(slices + [list[i..end]], list[..end])
    ensures end < |list| ==> Open(slices + [list[i..end]], list[..end])
  {
    ConcatNext(slices, list[i..end]);
    assert list[..i] + list[i..end] == list[..end];
  }

  /** The loop shared by buildSlices and BuildResourceSlices. */
  method Batches(cds: seq<CompositeDevice>) returns (slices: seq<Slice>)
    ensures IsSlicing(slices, Map(cds, NameOf))
  {
    slices := [];
    var i := 0;
    ghost var names := Map(cds, NameOf);
    while i < |cds|
      invariant 0 <= i && |names| == |cds|
      invariant IsSlicing(slices, names[..Min(i, |cds|)])
      invariant i < |cds| ==> Open(slices, names[..i])
    {
      var end := Min(i + MAX_DEVICES, |cds|);
      var devs := NamesOfBatch(cds[i..end]);
      MapSlice(cds, NameOf, i, end);
      SliceNext(slices, names, i, end);
      slices := slices + [devs];
      i := i + MAX_DEVICES;
    }
    assert names[..|cds|] == names;
  }

  function Min(a: int, b: int): int { if a < b then a else b }

  method NamesOfBatch(batch: seq<CompositeDevice>) returns (devs: Slice)
    ensures devs == Map(batch, NameOf)
  {
    devs := [];
    for i := 0 to |batch|
      invariant |devs| == i && forall k :: 0 <= k < i ==> devs[k] == batch[k].name
    {
      devs := devs + [batch[i].name];
    }
  }

  /** What a pool of the given devices holds; an empty pool still has one slice. */
  ghost predicate IsPoolOf(slices: seq<Slice>, cds: seq<CompositeDevice>) {
    if cds == [] then slices == [[]] else IsSlicing(slices, Map(cds, NameOf))
  }

  method BuildSlices(cds: seq<CompositeDevice>) returns (slices: seq<Slice>)
    ensures IsPoolOf(slices, cds)
  {
    slices := Batches(cds);
    if slices == [] {
      assert Map(cds, NameOf) == [];
      slices := [[]];
    } else {
      assert slices[0] != [];
    }
  }

  // ---------- Groups ----------

  /** Every composition with devices, with exactly its devices. */
  ghost predicate IsGrouping(groups: map<string, seq<CompositeDevice>>, cds: seq<CompositeDevice>) {
    && (forall c :: c in groups <==> HasDevices(cds, c))
    && (forall c :: c in groups ==> groups[c] == DevicesOf(cds, c))
  }

  /** groupByComposition: a partition that keeps the order. */
  method GroupByComposition(cds: seq<CompositeDevice>) returns (groups: map<string, seq<CompositeDevice>>)
    ensures IsGrouping(groups, cds)
  {
    groups := map[];
    for i := 0 to |cds|
      invariant forall c :: c in groups <==> DevicesOf(cds[..i], c) != []
      invariant forall c :: c in groups ==> groups[c] == DevicesOf(cds[..i], c)
    {
      var name := cds[i].mapping.composition;
      assert cds[..i + 1] == cds[..i] + [cds[i]];
      forall c ensures DevicesOf(cds[..i + 1], c) == DevicesOf(cds[..i], c) + (if c == name then [cds[i]] else []) {
        FilterAppend(cds[..i], [cds[i]], InComposition(c));
      }
      groups := groups[name := (if name in groups then groups[name] else []) + [cds[i]]];
    }
    assert cds[..|cds|] == cds;
    forall c ensures DevicesOf(cds, c) != [] <==> HasDevices(cds, c) {
      DevicesOfSome(cds, c);
    }
  }

  lemma DevicesOfSome(cds: seq<CompositeDevice>, c: string)
    ensures DevicesOf(cds, c) != [] <==> HasDevices(cds, c)
  {
    var ds := DevicesOf(cds, c);
    if ds != [] {
      assert ds[0] in ds;
      FilterMember(cds, InComposition(c), ds[0]);
    }
    if cd :| cd in cds && cd.mapping.composition == c {
      FilterMember(cds, InComposition(c), cd);
    }
  }

  // ---------- Publish ----------

  type Pools = map<string, seq<Slice>>

  /** The composition whose pool this is. */
  function Owner(driver: string, node: string, pool: string): string {
    var n := |driver| + |node| + 2;
    if |pool| < n then "" else pool[n..]
  }

  predicate Owned(driver: string, node: string, pool: string) {
    pool == PoolName(driver, node, Owner(driver, node, pool))
  }

  lemma OwnerOfPool(driver: string, node: string, c: string)
    ensures Owner(driver, node, PoolName(driver, node, c)) == c
  {
  }

  /** One pool per composition with devices, holding exactly its devices; without any
      device a single empty pool. */
  ghost predicate IsPublication(driver: string, node: string, cds: seq<CompositeDevice>, pools: Pools) {
    if cds == [] then pools == map[driver + "-" + node := [[]]]
    else
      && (forall p :: p in pools ==> Owned(driver, node, p) && HasDevices(cds, Owner(driver, node, p)))
      && (forall c :: HasDevices(cds, c) ==> PoolName(driver, node, c) in pools && IsPoolOf(pools[PoolName(driver, node, c)], DevicesOf(cds, c)))
  }

  /** The pools after the groups of `done` have been visited. */
  ghost predicate PoolsFor(driver: string, node: string, cds: seq<CompositeDevice>, done: set<string>, pools: Pools) {
    && (forall p :: p in pools ==> Owned(driver, node, p) && Owner(driver, node, p) in done)
    && (forall c :: c in done ==> PoolName(driver, node, c) in pools && IsPoolOf(pools[PoolName(driver, node, c)], DevicesOf(cds, c)))
  }

  lemma PoolsNext(driver: string, node: string, cds: seq<CompositeDevice>, done: set<string>, pools: Pools, c: string, slices: seq<Slice>)
    requires PoolsFor(driver, node, cds, done, pools) && IsPoolOf(slices, DevicesOf(cds, c))
    ensures PoolsFor(driver, node, cds, done + {c}, pools[PoolName(driver, node, c) := slices])
  {
    var pool, pools' := PoolName(driver, node, c), pools[PoolName(driver, node, c) := slices];
    OwnerOfPool(driver, node, c);
    forall p | p in pools' ensures Owned(driver, node, p) && Owner(driver, node, p) in done + {c} {
      assert p != pool ==> p in pools;
    }
    forall d | d in done + {c} ensures PoolName(driver, node, d) in pools' && IsPoolOf(pools'[PoolName(driver, node, d)], DevicesOf(cds, d)) {
      if d != c {
        PoolsKeep(driver, node, cds, done, pools, c, d);
      }
    }
  }

  lemma PoolsKeep(driver: string, node: string, cds: seq<CompositeDevice>, done: set<string>, pools: Pools, c: string, d: string)
    requires PoolsFor(driver, node, cds, done, pools) && d in done && d != c
    ensures PoolName(driver, node, d) != PoolName(driver, node, c)
    ensures PoolName(driver, node, d) in pools && IsPoolOf(pools[PoolName(driver, node, d)], DevicesOf(cds, d))
  {
    if PoolName(driver, node, d) == PoolName(driver, node, c) {
      PoolNameInjective(driver, node, d, c);
    }
  }

  /** The body of Publish's loop over the groups. */
  method AddPool(driver: string, node: string, ghost cds: seq<CompositeDevice>, groups: map<string, seq<CompositeDevice>>,
                 ghost done: set<string>, pools: Pools, c: string) returns (pools': Pools)
    requires IsGrouping(groups, cds) && c in groups && PoolsFor(driver, node, cds, done, pools)
    ensures PoolsFor(driver, node, cds, done + {c}, pools')
  {
    var slices := BuildSlices(groups[c]);
    PoolsNext(driver, node, cds, done, pools, c, slices);
    pools' := pools[driver + "-" + node + "-" + c := slices];
  }

  lemma NoPools(driver: string, node: string, cds: seq<CompositeDevice>)
    ensures PoolsFor(driver, node, cds, {}, map[])
  {
  }

  /** The keys still to visit and those visited; at the end the latter are all. */
  predicate Parted(left: set<string>, done: set<string>, all: set<string>) {
    left <= all && left !! done && (left == {} ==> done == all) && left + done == all
  }

  lemma PartedNext(left: set<string>, done: set<string>, all: set<string>, c: string)
    requires Parted(left, done, all) && c in left
    ensures c in all && c !in done && Parted(left - {c}, done + {c}, all)
  {
    assert (left - {c}) + (done + {c}) == all;
  }

  /** Publish's loop, the groups visited in any order. */
  method PoolPerGroup(driver: string, node: string, ghost cds: seq<CompositeDevice>, groups: map<string, seq<CompositeDevice>>)
    returns (pools: Pools)
    requires IsGrouping(groups, cds)
    ensures PoolsFor(driver, node, cds, groups.Keys, pools)
  {
    NoPools(driver, node, cds);
    pools := map[];
    var left := groups.Keys;
    ghost var done: set<string> := {};
    while left != {}
      invariant Parted(left, done, groups.Keys) && PoolsFor(driver, node, cds, done, pools)
      decreases left
    {
      var c :| c in left;
      PartedNext(left, done, groups.Keys, c);
      pools := AddPool(driver, node, cds, groups, done, pools, c);
      left, done := left - {c}, done + {c};
    }
  }

  /** The pools that Publish hands over. */
  method BuildPools(driver: string, node: string, cds: seq<CompositeDevice>) returns (pools: Pools)
    ensures IsPublication(driver, node, cds, pools)
  {
    var groups := GroupByComposition(cds);
    pools := PoolPerGroup(driver, node, cds, groups);
    PoolsDone(driver, node, cds, groups, pools);
    if |pools| == 0 {
      pools := pools[driver + "-" + node := [[]]];
    }
  }

  lemma PoolsDone(driver: string, node: string, cds: seq<CompositeDevice>, groups: map<string, seq<CompositeDevice>>, pools: Pools)
    requires IsGrouping(groups, cds) && PoolsFor(driver, node, cds, groups.Keys, pools)
    ensures if |pools| == 0 then cds == [] && pools == map[] else IsPublication(driver, node, cds, pools)
  {
    if cds != [] {
      var c := cds[0].mapping.composition;
      assert HasDevices(cds, c);
      assert PoolName(driver, node, c) in pools;
    } else {
      assert forall c :: c !in groups;
      assert forall p :: p !in pools;
      assert pools == map[];
    }
  }

  // ---------- BuildResourceSlices ----------

  datatype SliceSpec = SliceSpec(driver: string, node: string, pool: string, sliceCount: int, devices: Slice)

  function InPool(pool: string): SliceSpec -> bool {
    (s: SliceSpec) => s.pool == pool
  }

  function DevicesIn(s: SliceSpec): Slice { s.devices }

  /** The slices of one pool, in order. */
  function SlicesIn(specs: seq<SliceSpec>, pool: string): seq<Slice> {
    Map(Filter(specs, InPool(pool)), DevicesIn)
  }

  /** The specs of one pool: the same slices as published, each carrying their number. */
  ghost predicate SpecsMatch(specs: seq<SliceSpec>, driver: string, node: string, pool: string, names: seq<string>) {
    && IsSlicing(SlicesIn(specs, pool), names)
    && forall s :: s in specs && s.pool == pool ==> s.driver == driver && s.node == node && s.sliceCount == CeilDiv(|names|)
  }

  method PoolSpecs(driver: string, node: string, pool: string, cds: seq<CompositeDevice>) returns (specs: seq<SliceSpec>)
    ensures forall s :: s in specs ==> s.pool == pool
    ensures SpecsMatch(specs, driver, node, pool, Map(cds, NameOf))
  {
    var slices := Batches(cds);
    specs := [];
    for i := 0 to |slices|
      invariant |specs| == i && forall k :: 0 <= k < i ==> specs[k] == SliceSpec(driver, node, pool, 1, slices[k])
    {
      specs := specs + [SliceSpec(driver, node, pool, 1, slices[i])];
    }
    var total := |specs|;
    for i := 0 to total
      invariant |specs| == total
      invariant forall k :: 0 <= k < total ==> specs[k] == SliceSpec(driver, node, pool, if k < i then total else 1, slices[k])
    {
      specs := specs[i := specs[i].(sliceCount := total)];
    }
    KeepAllOfPool(specs, pool);
    assert SlicesIn(specs, pool) == slices;
    SliceCount(slices, Map(cds, NameOf));
  }

  lemma {:induction false} KeepAllOfPool(specs: seq<SliceSpec>, pool: string)
    requires forall k :: 0 <= k < |specs| ==> specs[k].pool == pool
    ensures Filter(specs, InPool(pool)) == specs
  {
    if specs == [] {
    } else {
      KeepAllOfPool(specs[1..], pool);
    }
  }

  lemma {:induction false} NoneOfPool(specs: seq<SliceSpec>, pool: string)
    requires forall s :: s in specs ==> s.pool != pool
    ensures Filter(specs, InPool(pool)) == []
  {
    if specs == [] {
    } else {
      NoneOfPool(specs[1..], pool);
    }
  }

  lemma SlicesInAppend(a: seq<SliceSpec>, b: seq<SliceSpec>, pool: string)
    ensures SlicesIn(a + b, pool) == SlicesIn(a, pool) + SlicesIn(b, pool)
  {
    FilterAppend(a, b, InPool(pool));
    MapAppend(Filter(a, InPool(pool)), Filter(b, InPool(pool)), DevicesIn);
  }

  /** The specs after the groups of `done`. */
  ghost predicate SpecsFor(driver: string, node: string, cds: seq<CompositeDevice>, done: set<string>, specs: seq<SliceSpec>) {
    && (forall s :: s in specs ==> Owned(driver, node, s.pool) && Owner(driver, node, s.pool) in done)
    && (forall c :: c in done ==> SpecsMatch(specs, driver, node, PoolName(driver, node, c), Map(DevicesOf(cds, c), NameOf)))
  }

  lemma MatchKept(specs: seq<SliceSpec>, more: seq<SliceSpec>, driver: string, node: string, pool: string, names: seq<string>)
    requires SpecsMatch(specs, driver, node, pool, names) && forall s :: s in more ==> s.pool != pool
    ensures SpecsMatch(specs + more, driver, node, pool, names) && SpecsMatch(more + specs, driver, node, pool, names)
  {
    NoneOfPool(more, pool);
    SlicesInAppend(specs, more, pool);
    SlicesInAppend(more, specs, pool);
    var list := SlicesIn(specs, pool);
    assert SlicesIn(more, pool) == [] && list + [] == list && [] + list == list;
  }

  lemma SpecsNext(driver: string, node: string, cds: seq<CompositeDevice>, done: set<string>, specs: seq<SliceSpec>, c: string, more: seq<SliceSpec>)
    requires SpecsFor(driver, node, cds, done, specs) && c !in done
    requires forall s :: s in more ==> s.pool == PoolName(driver, node, c)
    requires SpecsMatch(more, driver, node, PoolName(driver, node, c), Map(DevicesOf(cds, c), NameOf))
    ensures SpecsFor(driver, node, cds, done + {c}, specs + more)
  {
    OwnerOfPool(driver, node, c);
    forall d | PoolName(driver, node, d) == PoolName(driver, node, c) ensures d == c {
      PoolNameInjective(driver, node, d, c);
    }
    forall d | d in done + {c} ensures SpecsMatch(specs + more, driver, node, PoolName(driver, node, d), Map(DevicesOf(cds, d), NameOf)) {
      if d == c {
        MatchKept(more, specs, driver, node, PoolName(driver, node, d), Map(DevicesOf(cds, d), NameOf));
      } else {
        MatchKept(specs, more, driver, node, PoolName(driver, node, d), Map(DevicesOf(cds, d), NameOf));
      }
    }
  }

  /** The body of the loop over the groups. */
  method AddSpecs(driver: string, node: string, ghost cds: seq<CompositeDevice>, groups: map<string, seq<CompositeDevice>>,
                  ghost done: set<string>, specs: seq<SliceSpec>, c: string) returns (specs': seq<SliceSpec>)
    requires IsGrouping(groups, cds) && c in groups && c !in done && SpecsFor(driver, node, cds, done, specs)
    ensures SpecsFor(driver, node, cds, done + {c}, specs')
  {
    var more := PoolSpecs(driver, node, driver + "-" + node + "-" + c, groups[c]);
    SpecsNext(driver, node, cds, done, specs, c, more);
    specs' := specs + more;
  }

  method SpecsPerGroup(driver: string, node: string, ghost cds: seq<CompositeDevice>, groups: map<string, seq<CompositeDevice>>) returns (specs: seq<SliceSpec>)
    requires IsGrouping(groups, cds)
    ensures SpecsFor(driver, node, cds, groups.Keys, specs)
  {
    specs := [];
    var left := groups.Keys;
    ghost var done: set<string> := {};
    while left != {}
      invariant Parted(left, done, groups.Keys) && SpecsFor(driver, node, cds, done, specs)
      decreases left
    {
      var c :| c in left;
      PartedNext(left, done, groups.Keys, c);
      specs := AddSpecs(driver, node, cds, groups, done, specs, c);
      left, done := left - {c}, done + {c};
    }
  }

  method BuildResourceSlices(driver: string, node: string, cds: seq<CompositeDevice>) returns (specs: seq<SliceSpec>)
    ensures forall s :: s in specs ==> Owned(driver, node, s.pool) && HasDevices(cds, Owner(driver, node, s.pool))
    ensures forall c :: HasDevices(cds, c) ==> SpecsMatch(specs, driver, node, PoolName(driver, node, c), Map(DevicesOf(cds, c), NameOf))
  {
    if cds == [] {
      return [];
    }
    var groups := GroupByComposition(cds);
    specs := SpecsPerGroup(driver, node, cds, groups);
  }

  /** The test-side builder cuts every pool exactly as the publisher does. */
  lemma SameSlices(driver: string, node: string, cds: seq<CompositeDevice>, pools: Pools, specs: seq<SliceSpec>, c: string)
    requires IsPublication(driver, node, cds, pools) && HasDevices(cds, c)
    requires SpecsMatch(specs, driver, node, PoolName(driver, node, c), Map(DevicesOf(cds, c), NameOf))
    ensures PoolName(driver, node, c) in pools && SlicesIn(specs, PoolName(driver, node, c)) == pools[PoolName(driver, node, c)]
    ensures |pools[PoolName(driver, node, c)]| == CeilDiv(|DevicesOf(cds, c)|)
  {
    DevicesOfSome(cds, c);
    var pool := PoolName(driver, node, c);
    SliceCount(pools[pool], Map(DevicesOf(cds, c), NameOf));
    SlicingUnique(SlicesIn(specs, pool), pools[pool], Map(DevicesOf(cds, c), NameOf));
  }
}
