/**
 Only the first constraint of a composition drives the grouping.  When the composite devices
 meet another constraint as well, and when not.
 */
module SecondConstraint {

  import opened Options
  import opened Seqs
  import opened Combinations
  import opened DeviceModel
  import opened Pairing
  import opened MatchPairing
  import opened UniqueNames
  import opened Compositions
  import opened FilterPairing
  import opened Pairer
  import Config

  predicate Has(d: Device, attr: string, v: string) {
    AttributeString(d.attrs, attr) == Some(v)
  }

  predicate MembersHave(ds: seq<DeviceMember>, attr: string, v: string) {
    forall i :: 0 <= i < |ds| ==> Has(ds[i].device, attr, v)
  }

  predicate DevicesHave(ds: seq<Device>, attr: string, v: string) {
    forall i :: 0 <= i < |ds| ==> Has(ds[i], attr, v)
  }

  /** All members of the composite device have one value of the attribute. */
  ghost predicate MembersShare(cd: CompositeDevice, attr: string) {
    exists v :: MembersHave(cd.mapping.members, attr, v)
  }

  predicate AllHave(ms: Members, c: Avail<Device>, attr: string, v: string) {
    forall i :: 0 <= i < |ms| ==> DevicesHave(At(c, ms[i].source), attr, v)
  }

  /** All devices of the member sources have one value of the attribute. */
  ghost predicate DevicesShare(ms: Members, c: Avail<Device>, attr: string) {
    exists v :: AllHave(ms, c, attr, v)
  }

  /** Enough devices for every member. */
  predicate Full(ms: Members, c: Avail<Device>) {
    forall i :: 0 <= i < |ms| ==> |At(c, ms[i].source)| >= ms[i].count
  }

  // ---------- Composite devices and combinations ----------

  lemma HaveAppend(a: seq<DeviceMember>, b: seq<DeviceMember>, attr: string, v: string)
    ensures MembersHave(a + b, attr, v) <==> MembersHave(a, attr, v) && MembersHave(b, attr, v)
  {
    assert forall i :: 0 <= i < |a| ==> (a + b)[i] == a[i];
    assert forall i :: 0 <= i < |b| ==> (a + b)[|a| + i] == b[i];
  }

  lemma HaveFrom(src: Config.Source, ds: seq<Device>, attr: string, v: string)
    ensures MembersHave(MembersFrom(src, ds), attr, v) <==> DevicesHave(ds, attr, v)
  {
    assert forall i :: 0 <= i < |ds| ==> MembersFrom(src, ds)[i].device == ds[i];
  }

  lemma {:induction false} HaveAll(srcs: Sources, ms: Members, c: Avail<Device>, attr: string, v: string)
    ensures MembersHave(AllMembers(srcs, ms, c), attr, v) <==> AllHave(ms, c, attr, v)
  {
    if ms == [] {
    } else {
      HaveAll(srcs, ms[1..], c, attr, v);
      HaveFrom(SourceOf(srcs, ms[0].source), At(c, ms[0].source), attr, v);
      HaveAppend(MembersFrom(SourceOf(srcs, ms[0].source), At(c, ms[0].source)), AllMembers(srcs, ms[1..], c), attr, v);
      assert forall i :: 0 < i < |ms| ==> ms[i] == ms[1..][i - 1];
    }
  }

  lemma BuiltShares(srcs: Sources, comp: Config.Composition, c: Avail<Device>, attr: string)
    ensures MembersShare(Build(srcs, comp, c), attr) <==> DevicesShare(comp.members, c, attr)
  {
    forall v ensures MembersHave(Build(srcs, comp, c).mapping.members, attr, v) <==> AllHave(comp.members, c, attr, v) {
      HaveAll(srcs, comp.members, c, attr, v);
    }
  }

  // ---------- Combinations that contain given devices ----------

  lemma SubsAll<T>(s: seq<T>) returns (t: seq<T>)
    ensures t in Subs(s, |s|) && t == s
  {
    t := s;
    if s == [] {
    } else {
      var rest := SubsAll(s[1..]);
      var i :| 0 <= i < |Subs(s[1..], |s| - 1)| && Subs(s[1..], |s| - 1)[i] == rest;
      assert Subs(s, |s|)[i] == [s[0]] + rest == s;
    }
  }

  /** A selection of k elements can be made to contain any given one. */
  lemma {:induction false} SubsWith<T>(s: seq<T>, k: nat, x: T) returns (t: seq<T>)
    requires 1 <= k <= |s| && x in s
    ensures t in Subs(s, k) && x in t
  {
    if k == |s| {
      t := SubsAll(s);
    } else if x == s[0] {
      t := SubsWithFirst(s, k);
    } else {
      t := SubsWith(s[1..], k, x);
    }
  }

  lemma SubsWithFirst<T>(s: seq<T>, k: nat) returns (t: seq<T>)
    requires 1 <= k <= |s|
    ensures t in Subs(s, k) && s[0] in t
  {
    DeadBranch(s[1..], k - 1);
    t := [s[0]] + Subs(s[1..], k - 1)[0];
    assert Subs(s, k)[0] == t;
  }

  /** ... and, if it is of two or more, any two. */
  lemma {:induction false} SubsWithBoth<T>(s: seq<T>, k: nat, x: T, y: T) returns (t: seq<T>)
    requires 2 <= k <= |s| && x in s && y in s
    ensures t in Subs(s, k) && x in t && y in t
  {
    if k == |s| {
      t := SubsAll(s);
    } else if x != s[0] && y != s[0] {
      t := SubsWithBoth(s[1..], k, x, y);
    } else if x == y {
      t := SubsWith(s, k, x);
    } else {
      var other := if x == s[0] then y else x;
      var rest := SubsWith(s[1..], k - 1, other);
      t := [s[0]] + rest;
      var i :| 0 <= i < |Subs(s[1..], k - 1)| && Subs(s[1..], k - 1)[i] == rest;
      assert Subs(s, k)[i] == t;
    }
  }

  lemma SourceSplit(ms: Members, s: string)
    requires ms != [] && DistinctSources(ms)
    ensures HasSource(ms[1..], s) <==> HasSource(ms, s) && s != ms[0].source
  {
    if HasSource(ms[1..], s) {
      var i :| 0 <= i < |ms[1..]| && ms[1..][i].source == s;
      assert ms[i + 1].source == s;
    }
    if HasSource(ms, s) && s != ms[0].source {
      var i :| 0 <= i < |ms| && ms[i].source == s;
      assert ms[1..][i - 1].source == s;
    }
  }

  /** A pick for every member source and nothing else. */
  ghost predicate PicksOf(ms: Members, avail: Avail<Device>, c: Avail<Device>) {
    && (forall s :: s in c <==> HasSource(ms, s))
    && (forall i :: 0 <= i < |ms| ==> At(c, ms[i].source) in Picks(At(avail, ms[i].source), ms[i].count))
  }

  lemma PicksOfRest(ms: Members, avail: Avail<Device>, c: Avail<Device>)
    requires ms != [] && DistinctSources(ms) && PicksOf(ms, avail, c)
    ensures ms[0].source in c && PicksOf(ms[1..], avail, c - {ms[0].source})
  {
    assert HasSource(ms, ms[0].source);
    forall s ensures s in c - {ms[0].source} <==> HasSource(ms[1..], s) {
      SourceSplit(ms, s);
    }
    forall i | 0 <= i < |ms[1..]|
      ensures At(c - {ms[0].source}, ms[1..][i].source) in Picks(At(avail, ms[1..][i].source), ms[1..][i].count)
    {
      assert ms[1..][i] == ms[i + 1] && ms[i + 1].source != ms[0].source;
    }
  }

  lemma ComboCons(ms: Members, avail: Avail<Device>, c: Avail<Device>)
    requires ms != [] && ms[0].source in c && c[ms[0].source] in Picks(At(avail, ms[0].source), ms[0].count)
    requires c - {ms[0].source} in Combos(ms[1..], avail)
    ensures c in Combos(ms, avail)
  {
    var source, rest := ms[0].source, c - {ms[0].source};
    ExtendHas(source, Picks(At(avail, source), ms[0].count), Combos(ms[1..], avail), c[source], rest);
    assert c == rest[source := c[source]];
  }

  /** Picks for all members make a combination. */
  lemma {:induction false} ComboHas(ms: Members, avail: Avail<Device>, c: Avail<Device>)
    requires DistinctSources(ms) && PicksOf(ms, avail, c)
    ensures c in Combos(ms, avail)
  {
    if ms == [] {
      assert c == map[] by {
        assert forall s :: s !in c;
      }
    } else {
      PicksOfRest(ms, avail, c);
      ComboHas(ms[1..], avail, c - {ms[0].source});
      ComboCons(ms, avail, c);
    }
  }

  lemma {:induction false} FirstPicks(ms: Members, avail: Avail<Device>) returns (c: Avail<Device>)
    requires DistinctSources(ms) && PositiveCounts(ms) && Full(ms, avail)
    ensures PicksOf(ms, avail, c)
  {
    if ms == [] {
      c := map[];
    } else {
      assert Full(ms[1..], avail) by {
        assert forall i :: 0 <= i < |ms[1..]| ==> ms[1..][i] == ms[i + 1];
      }
      var rest := FirstPicks(ms[1..], avail);
      DeadBranch(At(avail, ms[0].source), ms[0].count);
      c := rest[ms[0].source := Subs(At(avail, ms[0].source), ms[0].count)[0]];
      forall s ensures s in c <==> HasSource(ms, s) {
        SourceSplit(ms, s);
        assert HasSource(ms, ms[0].source);
      }
      forall i | 0 < i < |ms| ensures At(c, ms[i].source) in Picks(At(avail, ms[i].source), ms[i].count) {
        assert ms[1..][i - 1] == ms[i];
      }
    }
  }

  lemma PicksWith(ms: Members, avail: Avail<Device>, c: Avail<Device>, i: nat, a: seq<Device>)
    requires DistinctSources(ms) && PicksOf(ms, avail, c) && i < |ms| && a in Picks(At(avail, ms[i].source), ms[i].count)
    ensures PicksOf(ms, avail, c[ms[i].source := a])
  {
    var c' := c[ms[i].source := a];
    assert HasSource(ms, ms[i].source);
    assert forall s :: s in c' <==> s in c;
    forall j | 0 <= j < |ms| ensures At(c', ms[j].source) in Picks(At(avail, ms[j].source), ms[j].count) {
      assert j != i ==> At(c', ms[j].source) == At(c, ms[j].source);
    }
  }

  /** A combination of a full group that contains two given devices, of one member with two
      or more devices, or of two members. */
  lemma ComboWith(ms: Members, avail: Avail<Device>, i: nat, d: Device, j: nat, e: Device) returns (c: Avail<Device>)
    requires DistinctSources(ms) && PositiveCounts(ms) && Full(ms, avail) && i < |ms| && j < |ms|
    requires d in At(avail, ms[i].source) && e in At(avail, ms[j].source) && (i == j ==> ms[i].count >= 2 || d == e)
    ensures c in Combos(ms, avail) && d in At(c, ms[i].source) && e in At(c, ms[j].source)
  {
    c := FirstPicks(ms, avail);
    var a;
    if i == j && d != e {
      a := SubsWithBoth(At(avail, ms[i].source), ms[i].count, d, e);
    } else {
      a := SubsWith(At(avail, ms[i].source), ms[i].count, d);
    }
    PicksWith(ms, avail, c, i, a);
    c := c[ms[i].source := a];
    if i != j {
      var b := SubsWith(At(avail, ms[j].source), ms[j].count, e);
      PicksWith(ms, avail, c, j, b);
      c := c[ms[j].source := b];
    }
    ComboHas(ms, avail, c);
  }

  // ---------- The exact condition ----------

  /** More than one device in each composite device. */
  predicate Several(ms: Members) {
    |ms| >= 2 || exists i :: 0 <= i < |ms| && ms[i].count >= 2
  }

  /** A device to compare any two with. */
  lemma Linked(ms: Members, avail: Avail<Device>, attr: string, i: nat, d: Device, j: nat, e: Device)
    requires DistinctSources(ms) && PositiveCounts(ms) && Full(ms, avail) && i < |ms| && j < |ms|
    requires d in At(avail, ms[i].source) && e in At(avail, ms[j].source) && (i == j ==> ms[i].count >= 2 || d == e)
    requires forall c :: c in Combos(ms, avail) ==> DevicesShare(ms, c, attr)
    ensures exists v :: Has(d, attr, v) && Has(e, attr, v)
  {
    var c := ComboWith(ms, avail, i, d, j, e);
    var v :| AllHave(ms, c, attr, v);
    assert DevicesHave(At(c, ms[i].source), attr, v) && DevicesHave(At(c, ms[j].source), attr, v);
    assert Has(d, attr, v) && Has(e, attr, v);
  }

  lemma AnyTwoAgree(ms: Members, avail: Avail<Device>, attr: string, i: nat, d: Device, j: nat, e: Device)
    requires DistinctSources(ms) && PositiveCounts(ms) && Several(ms) && Full(ms, avail) && i < |ms| && j < |ms|
    requires d in At(avail, ms[i].source) && e in At(avail, ms[j].source)
    requires forall c :: c in Combos(ms, avail) ==> DevicesShare(ms, c, attr)
    ensures exists v :: Has(d, attr, v) && Has(e, attr, v)
  {
    if i != j || ms[i].count >= 2 || d == e {
      Linked(ms, avail, attr, i, d, j, e);
    } else {
      var k := if i == 0 then 1 else 0;
      var x := At(avail, ms[k].source)[0];
      Linked(ms, avail, attr, i, d, k, x);
      Linked(ms, avail, attr, k, x, j, e);
    }
  }

  lemma SharedByAll(ms: Members, avail: Avail<Device>, attr: string)
    requires ms != [] && DistinctSources(ms) && PositiveCounts(ms) && Several(ms) && Full(ms, avail)
    requires forall c :: c in Combos(ms, avail) ==> DevicesShare(ms, c, attr)
    ensures DevicesShare(ms, avail, attr)
  {
    var x := At(avail, ms[0].source)[0];
    AnyTwoAgree(ms, avail, attr, 0, x, 0, x);
    var v :| Has(x, attr, v);
    forall i, k | 0 <= i < |ms| && 0 <= k < |At(avail, ms[i].source)| ensures Has(At(avail, ms[i].source)[k], attr, v) {
      AnyTwoAgree(ms, avail, attr, 0, x, i, At(avail, ms[i].source)[k]);
    }
    assert AllHave(ms, avail, attr, v);
  }

  lemma DrawnHave(all: seq<Device>, some: seq<Device>, attr: string, v: string)
    requires DevicesHave(all, attr, v) && forall d :: d in some ==> d in all
    ensures DevicesHave(some, attr, v)
  {
    forall k | 0 <= k < |some| ensures Has(some[k], attr, v) {
      assert some[k] in some;
      var j :| 0 <= j < |all| && all[j] == some[k];
    }
  }

  lemma SharedByEach(ms: Members, avail: Avail<Device>, attr: string, c: Avail<Device>)
    requires DistinctSources(ms) && DevicesShare(ms, avail, attr) && c in Combos(ms, avail)
    ensures DevicesShare(ms, c, attr)
  {
    var v :| AllHave(ms, avail, attr, v);
    CombosDrawn(ms, avail, c);
    forall i | 0 <= i < |ms| ensures DevicesHave(At(c, ms[i].source), attr, v) {
      DrawnHave(At(avail, ms[i].source), At(c, ms[i].source), attr, v);
    }
    assert AllHave(ms, c, attr, v);
  }

  // ---------- All groups ----------

  /** Every group with enough devices for every member agrees on the attribute. */
  ghost predicate FullGroupsShare(ms: Members, devs: Avail<Device>, first: string, attr: string) {
    forall v :: Full(ms, Group(ms, devs, first, v)) ==> DevicesShare(ms, Group(ms, devs, first, v), attr)
  }

  lemma FullOccurs(ms: Members, devs: Avail<Device>, first: string, v: string)
    requires ms != [] && DistinctSources(ms) && PositiveCounts(ms) && Full(ms, Group(ms, devs, first, v))
    ensures Occurs(ms, devs, first, v)
  {
    var d := At(Group(ms, devs, first, v), ms[0].source)[0];
    GroupIs(ms, devs, first, v, ms[0].source);
    assert HasSource(ms, ms[0].source);
    FilterMember(At(devs, ms[0].source), ForSource(HasValue(first, v), ms[0].source), d);
  }

  lemma PieceMember(srcs: Sources, comp: Config.Composition, devs: Avail<Device>, first: string, v: string, c: Avail<Device>)
    requires c in Combos(comp.members, Group(comp.members, devs, first, v))
    ensures Build(srcs, comp, c) in Piece(srcs, comp, devs, first)(v)
  {
    var combos := Combos(comp.members, Group(comp.members, devs, first, v));
    var i :| 0 <= i < |combos| && combos[i] == c;
    assert Map(combos, Builder(srcs, comp))[i] == Build(srcs, comp, c);
  }

  lemma MatchedFrom(srcs: Sources, comp: Config.Composition, devs: Avail<Device>, first: string, order: seq<string>, cd: CompositeDevice)
    returns (v: string, c: Avail<Device>)
    requires cd in Matched(srcs, comp, devs, first, order)
    ensures c in Combos(comp.members, Group(comp.members, devs, first, v)) && cd == Build(srcs, comp, c)
  {
    FlatMapMember(order, Piece(srcs, comp, devs, first), cd);
    v :| v in order && cd in Piece(srcs, comp, devs, first)(v);
    var combos := Combos(comp.members, Group(comp.members, devs, first, v));
    var built := Map(combos, Builder(srcs, comp));
    var i :| 0 <= i < |built| && built[i] == cd;
    c := combos[i];
    assert built[i] == Builder(srcs, comp)(c);
  }

  lemma ComboFromFull(ms: Members, avail: Avail<Device>, c: Avail<Device>)
    requires DistinctSources(ms) && c in Combos(ms, avail)
    ensures Full(ms, avail)
  {
    forall i | 0 <= i < |ms| ensures |At(avail, ms[i].source)| >= ms[i].count {
      if |At(avail, ms[i].source)| < ms[i].count {
        NotAllPresent(ms, avail, i);
      }
    }
  }

  /** Exactly when the composite devices meet a constraint other than the first: if and only
      if every group that has enough devices for every member agrees on it as a whole. */
  lemma SecondConstraintExactly(srcs: Sources, comp: Config.Composition, devs: Avail<Device>, first: string, order: seq<string>, attr: string)
    requires comp.members != [] && DistinctSources(comp.members) && PositiveCounts(comp.members) && Several(comp.members)
    requires IsOrder(comp.members, devs, first, order)
    ensures (forall cd :: cd in Matched(srcs, comp, devs, first, order) ==> MembersShare(cd, attr)) <==> FullGroupsShare(comp.members, devs, first, attr)
  {
    var ms := comp.members;
    if forall cd :: cd in Matched(srcs, comp, devs, first, order) ==> MembersShare(cd, attr) {
      forall v | Full(ms, Group(ms, devs, first, v)) ensures DevicesShare(ms, Group(ms, devs, first, v), attr) {
        FullOccurs(ms, devs, first, v);
        forall c | c in Combos(ms, Group(ms, devs, first, v)) ensures DevicesShare(ms, c, attr) {
          PieceMember(srcs, comp, devs, first, v, c);
          FlatMapMember(order, Piece(srcs, comp, devs, first), Build(srcs, comp, c));
          BuiltShares(srcs, comp, c, attr);
        }
        SharedByAll(ms, Group(ms, devs, first, v), attr);
      }
    }
    if FullGroupsShare(ms, devs, first, attr) {
      forall cd | cd in Matched(srcs, comp, devs, first, order) ensures MembersShare(cd, attr) {
        var v, c := MatchedFrom(srcs, comp, devs, first, order, cd);
        ComboFromFull(ms, Group(ms, devs, first, v), c);
        SharedByEach(ms, Group(ms, devs, first, v), attr, c);
        BuiltShares(srcs, comp, c, attr);
      }
    }
  }

  /** The same for what a composition with constraints yields. */
  lemma PairingMeetsExactly(st: Setting, comp: Config.Composition, devs: Avail<Device>, result: seq<CompositeDevice>, attr: string)
    requires comp.members != [] && DistinctSources(comp.members) && PositiveCounts(comp.members) && Several(comp.members)
    requires !comp.Explicit() && comp.constraints != [] && IsPairing(st, comp, devs, result)
    ensures (forall cd :: cd in result ==> MembersShare(cd, attr)) <==>
      FullGroupsShare(comp.members, Filtered(comp.members, devs, FilterTest(comp.filters, st.cel)), comp.constraints[0].attribute, attr)
  {
    var fewer, first := Filtered(comp.members, devs, FilterTest(comp.filters, st.cel)), comp.constraints[0].attribute;
    var order :| IsOrder(comp.members, fewer, first, order) && multiset(result) == multiset(Matched(st.srcs, comp, fewer, first, order));
    SecondConstraintExactly(st.srcs, comp, fewer, first, order, attr);
    assert forall cd :: cd in result <==> cd in multiset(result);
    assert forall cd :: cd in Matched(st.srcs, comp, fewer, first, order) <==> cd in multiset(Matched(st.srcs, comp, fewer, first, order));
  }

  // ---------- An accepted configuration that is not met ----------

  function Value(s: string): Attribute { Attribute(Some(s), None, None) }

  /** A device on NUMA node 0 and the given rail. */
  function DeviceOnRail(name: string, rail: string): Device {
    Device("pool", name, map["numa" := Value("0"), "rail" := Value(rail)])
  }

  function TwoConstraints(): Config.Composition {
    Config.Composition("pair", [Config.Member("gpu", 1), Config.Member("nic", 1)],
                       [Config.Constraint("matchAttribute", "numa"), Config.Constraint("matchAttribute", "rail")],
                       map[], "auto", "auto", "", "", [])
  }

  function TwoSources(): Config.Config {
    Config.Config("composite", [Config.Source("gpu", "gpu.example.com", "gpu"), Config.Source("nic", "nic.example.com", "nic")],
                  [TwoConstraints()], None)
  }

  function TwoRails(): Avail<Device> {
    map["gpu" := [DeviceOnRail("gpu-0", "0")], "nic" := [DeviceOnRail("nic-0", "1")]]
  }

  lemma TwoSourcesAccepted()
    ensures Config.WellFormed(TwoSources())
  {
    var cfg, comp := TwoSources(), TwoConstraints();
    assert cfg.sources[0].name == "gpu" && cfg.sources[1].name == "nic";
    assert "gpu" != "nic" && "gpu.example.com" != "composite" && "nic.example.com" != "composite" by {
      assert |"gpu.example.com"| != |"composite"| && |"nic.example.com"| != |"composite"|;
      assert "gpu"[0] != "nic"[0];
    }
    assert Config.CompositionOk(cfg, comp);
  }

  lemma OneGroup(source: string, d: Device)
    requires source == "gpu" || source == "nic"
    requires At(TwoRails(), source) == [d] && AttributeString(d.attrs, "numa") == Some("0")
    ensures At(Group(TwoConstraints().members, TwoRails(), "numa", "0"), source) == [d]
  {
    var ms := TwoConstraints().members;
    assert ms[0].source == "gpu" && ms[1].source == "nic" && "gpu"[0] != "nic"[0];
    assert HasSource(ms, source);
    GroupIs(ms, TwoRails(), "numa", "0", source);
    assert HasValue("numa", "0")(source, d);
    assert Filter([d], ForSource(HasValue("numa", "0"), source)) == [d] + Filter([], ForSource(HasValue("numa", "0"), source));
  }

  lemma RailsDiffer()
    ensures var group := Group(TwoConstraints().members, TwoRails(), "numa", "0");
      Full(TwoConstraints().members, group) && !DevicesShare(TwoConstraints().members, group, "rail")
  {
    var ms, gpu, nic := TwoConstraints().members, DeviceOnRail("gpu-0", "0"), DeviceOnRail("nic-0", "1");
    var group := Group(ms, TwoRails(), "numa", "0");
    OneGroup("gpu", gpu);
    OneGroup("nic", nic);
    assert ms[0] == Config.Member("gpu", 1) && ms[1] == Config.Member("nic", 1);
    forall v ensures !AllHave(ms, group, "rail", v) {
      assert AttributeString(gpu.attrs, "rail") == Some("0") && AttributeString(nic.attrs, "rail") == Some("1") && "0"[0] != "1"[0];
      assert DevicesHave(At(group, ms[0].source), "rail", v) ==> Has([gpu][0], "rail", v);
      assert DevicesHave(At(group, ms[1].source), "rail", v) ==> Has([nic][0], "rail", v);
    }
  }

  /** An accepted configuration with two constraints: whatever the order of the groups, a
      composite device joins a GPU and a NIC that agree on the first and not on the second. */
  lemma SecondConstraintIgnored(srcs: Sources, order: seq<string>) returns (cfg: Config.Config, devs: Avail<Device>, cd: CompositeDevice)
    requires IsOrder(TwoConstraints().members, TwoRails(), "numa", order)
    ensures Config.WellFormed(cfg) && |cfg.compositions| == 1 && |cfg.compositions[0].constraints| == 2
    ensures devs == TwoRails() && cd in Matched(srcs, cfg.compositions[0], devs, cfg.compositions[0].constraints[0].attribute, order)
    ensures !MembersShare(cd, cfg.compositions[0].constraints[1].attribute)
  {
    cfg, devs := TwoSources(), TwoRails();
    TwoSourcesAccepted();
    RailsDiffer();
    var comp := TwoConstraints();
    assert comp.members[0].source[0] != comp.members[1].source[0];
    SecondConstraintExactly(srcs, comp, devs, "numa", order, "rail");
    assert !FullGroupsShare(comp.members, devs, "numa", "rail");
    cd :| cd in Matched(srcs, comp, devs, "numa", order) && !MembersShare(cd, "rail");
  }
}
