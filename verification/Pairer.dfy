/** The pairer's loops, each proved to compute the reference definitions. */
module Pairer {

  import opened Options
  import opened Seqs
  import opened Combinations
  import opened Text
  import opened Names
  import opened DeviceModel
  import opened Pairing
  import opened MatchPairing
  import opened FilterPairing
  import opened ExplicitPairing
  import Config

  // ---------- Sorting by name ----------

  ghost predicate SortedByName(s: seq<CompositeDevice>) {
    forall i, j :: 0 <= i < j < |s| ==> StringLe(s[i].name, s[j].name)
  }

  /** sort.Slice by name: the order of equal names is not specified. */
  method SortByName(s: seq<CompositeDevice>) returns (r: seq<CompositeDevice>)
    ensures SortedByName(r) && multiset(r) == multiset(s)
  {
    r := [];
    for i := 0 to |s|
      invariant SortedByName(r) && multiset(r) == multiset(s[..i])
    {
      r := Insert(r, s[i]);
      assert s[..i + 1] == s[..i] + [s[i]];
    }
    assert s[..|s|] == s;
  }

  method Insert(s: seq<CompositeDevice>, x: CompositeDevice) returns (r: seq<CompositeDevice>)
    requires SortedByName(s)
    ensures SortedByName(r) && multiset(r) == multiset(s) + multiset{x}
  {
    var k := 0;
    while k < |s| && StringLe(s[k].name, x.name)
      invariant 0 <= k <= |s|
      invariant forall i :: 0 <= i < k ==> StringLe(s[i].name, x.name)
    {
      k := k + 1;
    }
    if k < |s| {
      StringLeTotal(s[k].name, x.name);
      forall i | k <= i < |s| ensures StringLe(x.name, s[i].name) {
        if i > k {
          StringLeTransitive(x.name, s[k].name, s[i].name);
        }
      }
    }
    InsertedByName(s, k, x);
    r := s[..k] + [x] + s[k..];
  }

  lemma InsertedByName(s: seq<CompositeDevice>, k: nat, x: CompositeDevice)
    requires SortedByName(s) && k <= |s|
    requires (forall i :: 0 <= i < k ==> StringLe(s[i].name, x.name)) && (forall i :: k <= i < |s| ==> StringLe(x.name, s[i].name))
    ensures SortedByName(s[..k] + [x] + s[k..]) && multiset(s[..k] + [x] + s[k..]) == multiset(s) + multiset{x}
  {
    var r := s[..k] + [x] + s[k..];
    InsertedElements(s, k, x);
    forall i, j | 0 <= i < j < |r| ensures StringLe(r[i].name, r[j].name) {
      if j == k {
        assert r[i] == s[i] && r[j] == x;
      } else if i == k {
        assert r[i] == x && r[j] == s[j - 1];
      } else {
        assert r[i] == s[if i < k then i else i - 1] && r[j] == s[if j < k then j else j - 1];
      }
    }
  }

  lemma InsertedElements<T>(s: seq<T>, k: nat, x: T)
    requires k <= |s|
    ensures multiset(s[..k] + [x] + s[k..]) == multiset(s) + multiset{x}
  {
    assert s == s[..k] + s[k..];
  }

  // ---------- Combinations ----------

  /** generateCombinations. */
  method GenerateCombinations(ms: Members, avail: Avail<Device>) returns (results: seq<Avail<Device>>)
    ensures results == Combos(ms, avail)
    decreases |ms|, 0
  {
    if ms == [] {
      return [map[]];
    }
    var m, devs := ms[0], At(avail, ms[0].source);
    if |devs| < m.count {
      DeadBranch(devs, m.count);
      return [];
    }
    var indices := ChooseCombinations(|devs|, m.count);
    results := CombineWith(m, devs, indices, ms[1..], avail);
    PicksByIndex(devs, m.count);
  }

  /** The loop of generateCombinations over the index sets of one member. */
  method CombineWith(m: Config.Member, devs: seq<Device>, indices: seq<array<nat>>, rest: Members, avail: Avail<Device>)
    returns (results: seq<Avail<Device>>)
    requires Values(indices) == Picks(Range(0, |devs|), m.count)
    ensures results == Extend(m.source, PickEach(devs, Picks(Range(0, |devs|), m.count)), Combos(rest, avail))
    decreases |rest|, 1
  {
    ghost var sets, subs := Values(indices), Combos(rest, avail);
    ghost var picks := PickEach(devs, sets);
    results := [];
    assert |picks| == |indices| && picks[0..] == picks;
    for i := 0 to |indices|
      invariant results + Extend(m.source, picks[i..], subs) == Extend(m.source, picks, subs)
    {
      assert sets[i] in sets && indices[i][..] == sets[i];
      var selected := SelectDevices(devs, indices[i], m.count);
      assert selected == picks[i];
      var others := GenerateCombinations(rest, avail);
      var more := AddPick(m.source, selected, others);
      ExtendStep(m.source, picks, i, subs, results, more);
      results := results + more;
    }
    assert picks[|indices|..] == [];
  }

  lemma ExtendStep(source: string, picks: seq<seq<Device>>, i: nat, subs: seq<Avail<Device>>, sofar: seq<Avail<Device>>, more: seq<Avail<Device>>)
    requires i < |picks| && more == WithPick(source, picks[i], subs)
    requires sofar + Extend(source, picks[i..], subs) == Extend(source, picks, subs)
    ensures (sofar + more) + Extend(source, picks[i + 1..], subs) == Extend(source, picks, subs)
  {
    ExtendNext(source, picks, i, subs);
    var rest := Extend(source, picks[i + 1..], subs);
    assert (sofar + more) + rest == sofar + (more + rest);
  }

  lemma ExtendNext(source: string, picks: seq<seq<Device>>, i: nat, subs: seq<Avail<Device>>)
    requires i < |picks|
    ensures Extend(source, picks[i..], subs) == WithPick(source, picks[i], subs) + Extend(source, picks[i + 1..], subs)
  {
    assert picks[i..][1..] == picks[i + 1..];
  }

  method SelectDevices(devs: seq<Device>, ix: array<nat>, ghost k: int) returns (selected: seq<Device>)
    requires k > 0 && ix[..] in Choose(0, |devs|, k)
    ensures selected == Pick(devs, ix[..])
  {
    ChooseExact(0, |devs|, k, ix[..]);
    PickAt(devs, ix[..]);
    selected := [];
    for j := 0 to ix.Length
      invariant |selected| == j && forall i :: 0 <= i < j ==> selected[i] == devs[ix[..][i]]
    {
      assert ix[..][j] == ix[j];
      selected := selected + [devs[ix[j]]];
    }
  }

  method AddPick(source: string, selected: seq<Device>, subs: seq<Avail<Device>>) returns (r: seq<Avail<Device>>)
    ensures r == WithPick(source, selected, subs)
  {
    r := [];
    for j := 0 to |subs|
      invariant |r| == j && forall i :: 0 <= i < j ==> r[i] == subs[i][source := selected]
    {
      r := r + [subs[j][source := selected]];
    }
  }

  // ---------- Building ----------

  lemma MembersFromAppend(src: Config.Source, a: seq<Device>, d: Device)
    ensures MembersFrom(src, a + [d]) == MembersFrom(src, a) + [DeviceMember(src.name, src.driver, src.deviceClass, d)]
  {
  }

  lemma AllMembersHead(srcs: Sources, ms: Members, combo: Avail<Device>)
    requires ms != []
    ensures AllMembers(srcs, ms, combo) == MembersFrom(SourceOf(srcs, ms[0].source), At(combo, ms[0].source)) + AllMembers(srcs, ms[1..], combo)
  {
  }

  lemma Regroup<T>(a: seq<T>, b: seq<T>, c: seq<T>)
    ensures a + (b + c) == a + b + c
  {
  }

  lemma {:induction false} AllMembersAppend(srcs: Sources, ms: Members, m: Config.Member, combo: Avail<Device>)
    ensures AllMembers(srcs, ms + [m], combo) == AllMembers(srcs, ms, combo) + MembersFrom(SourceOf(srcs, m.source), At(combo, m.source))
  {
    if ms == [] {
      assert [] + [m] == [m] && [m][1..] == [];
    } else {
      AllMembersAppend(srcs, ms[1..], m, combo);
      assert (ms + [m])[1..] == ms[1..] + [m] && (ms + [m])[0] == ms[0];
      AllMembersHead(srcs, ms + [m], combo);
      AllMembersHead(srcs, ms, combo);
      Regroup(MembersFrom(SourceOf(srcs, ms[0].source), At(combo, ms[0].source)), AllMembers(srcs, ms[1..], combo),
              MembersFrom(SourceOf(srcs, m.source), At(combo, m.source)));
    }
  }

  lemma NamesAppend(a: seq<DeviceMember>, x: DeviceMember)
    ensures SanitizeAll(NamesOf(a + [x])) == SanitizeAll(NamesOf(a)) + [Sanitize(x.device.name)]
  {
  }

  /** The devices of one member source. */
  method AddMembers(src: Config.Source, devs: seq<Device>, before: seq<DeviceMember>, names: seq<string>)
    returns (members: seq<DeviceMember>, parts: seq<string>)
    requires names == SanitizeAll(NamesOf(before))
    ensures members == before + MembersFrom(src, devs) && parts == SanitizeAll(NamesOf(members))
  {
    members, parts := before, names;
    for i := 0 to |devs|
      invariant members == before + MembersFrom(src, devs[..i]) && parts == SanitizeAll(NamesOf(members))
    {
      assert devs[..i + 1] == devs[..i] + [devs[i]];
      MembersFromAppend(src, devs[..i], devs[i]);
      NamesAppend(members, DeviceMember(src.name, src.driver, src.deviceClass, devs[i]));
      parts := parts + [Sanitize(devs[i].name)];
      members := members + [DeviceMember(src.name, src.driver, src.deviceClass, devs[i])];
    }
    assert devs[..|devs|] == devs;
  }

  /** buildCompositeDevice: every member source is configured, so none is looked up in vain. */
  method BuildCompositeDevice(srcs: Sources, comp: Config.Composition, combo: Avail<Device>) returns (cd: CompositeDevice)
    requires Known(srcs, comp.members)
    ensures cd == Build(srcs, comp, combo)
  {
    var members: seq<DeviceMember>, parts: seq<string> := [], [];
    for k := 0 to |comp.members|
      invariant members == AllMembers(srcs, comp.members[..k], combo)
      invariant parts == SanitizeAll(NamesOf(members))
    {
      var m := comp.members[k];
      AllMembersAppend(srcs, comp.members[..k], m, combo);
      assert comp.members[..k + 1] == comp.members[..k] + [m];
      members, parts := AddMembers(srcs[m.source], At(combo, m.source), members, parts);
    }
    assert comp.members[..|comp.members|] == comp.members;
    cd := CompositeDevice(Truncate(Join(parts, "--")), Mapping(comp.name, members, 0));
  }

  method BuildAll(srcs: Sources, comp: Config.Composition, combos: seq<Avail<Device>>) returns (cds: seq<CompositeDevice>)
    requires Known(srcs, comp.members)
    ensures cds == Map(combos, Builder(srcs, comp))
  {
    cds := [];
    for i := 0 to |combos|
      invariant |cds| == i && forall j :: 0 <= j < i ==> cds[j] == Build(srcs, comp, combos[j])
    {
      var cd := BuildCompositeDevice(srcs, comp, combos[i]);
      cds := cds + [cd];
    }
  }

  // ---------- matchAttribute ----------

  /** The entry of a group for a source; absent groups are empty. */
  function InGroup(groups: map<string, Avail<Device>>, v: string, source: string): seq<Device> {
    if v in groups then At(groups[v], source) else []
  }

  ghost predicate ValueIn(ds: seq<Device>, attr: string, v: string) {
    exists d :: d in ds && AttributeString(d.attrs, attr) == Some(v)
  }

  /** The entry of value v for source s, after the members ms and the devices `more` of source. */
  function Entry(ms: Members, devs: Avail<Device>, attr: string, source: string, more: seq<Device>, v: string, s: string): seq<Device> {
    At(Group(ms, devs, attr, v), s) + (if s == source then Passing(more, s, HasValue(attr, v)) else [])
  }

  ghost predicate EntriesAre(groups: map<string, Avail<Device>>, ms: Members, devs: Avail<Device>, attr: string,
                             source: string, more: seq<Device>) {
    forall v, s :: InGroup(groups, v, s) == Entry(ms, devs, attr, source, more, v, s)
  }

  ghost predicate ValuesAre(groups: map<string, Avail<Device>>, ms: Members, devs: Avail<Device>, attr: string, more: seq<Device>) {
    forall v :: v in groups <==> Occurs(ms, devs, attr, v) || ValueIn(more, attr, v)
  }

  lemma EntryAppend(ms: Members, devs: Avail<Device>, attr: string, source: string, more: seq<Device>, d: Device, v: string, s: string)
    ensures Entry(ms, devs, attr, source, more + [d], v, s)
         == Entry(ms, devs, attr, source, more, v, s) + (if s == source && AttributeString(d.attrs, attr) == Some(v) then [d] else [])
  {
    FilterAppend(more, [d], ForSource(HasValue(attr, v), s));
  }

  lemma ValueAppend(more: seq<Device>, d: Device, attr: string, v: string)
    ensures ValueIn(more + [d], attr, v) <==> ValueIn(more, attr, v) || AttributeString(d.attrs, attr) == Some(v)
  {
    assert d in more + [d];
  }

  /** groups[v][source] = append(groups[v][source], d), with the inner map made on demand. */
  function Added(groups: map<string, Avail<Device>>, v: string, source: string, d: Device): map<string, Avail<Device>> {
    var group := if v in groups then groups[v] else map[];
    groups[v := group[source := At(group, source) + [d]]]
  }

  lemma AddedEntry(groups: map<string, Avail<Device>>, w: string, source: string, d: Device, v: string, s: string)
    ensures InGroup(Added(groups, w, source, d), v, s) == InGroup(groups, v, s) + (if s == source && v == w then [d] else [])
  {
  }

  method AddToGroup(groups: map<string, Avail<Device>>, ghost ms: Members, ghost devs: Avail<Device>, attr: string,
                    source: string, ghost more: seq<Device>, d: Device) returns (groups': map<string, Avail<Device>>)
    requires EntriesAre(groups, ms, devs, attr, source, more) && ValuesAre(groups, ms, devs, attr, more)
    ensures EntriesAre(groups', ms, devs, attr, source, more + [d]) && ValuesAre(groups', ms, devs, attr, more + [d])
  {
    var val := AttributeString(d.attrs, attr);
    groups' := if val.Some? then Added(groups, val.value, source, d) else groups;
    forall v, s ensures InGroup(groups', v, s) == Entry(ms, devs, attr, source, more + [d], v, s) {
      EntryAppend(ms, devs, attr, source, more, d, v, s);
      if val.Some? {
        AddedEntry(groups, val.value, source, d, v, s);
      }
    }
    forall v ensures v in groups' <==> Occurs(ms, devs, attr, v) || ValueIn(more + [d], attr, v) {
      ValueAppend(more, d, attr, v);
    }
  }

  lemma OccursAppend(ms: Members, devs: Avail<Device>, attr: string, m: Config.Member, v: string)
    ensures Occurs(ms + [m], devs, attr, v) <==> Occurs(ms, devs, attr, v) || ValueIn(At(devs, m.source), attr, v)
  {
    var all := ms + [m];
    assert all[|ms|] == m && forall i :: 0 <= i < |ms| ==> all[i] == ms[i];
    if i, d :| 0 <= i < |ms| && d in At(devs, ms[i].source) && AttributeString(d.attrs, attr) == Some(v) {
      assert d in At(devs, all[i].source);
    }
    if d :| d in At(devs, m.source) && AttributeString(d.attrs, attr) == Some(v) {
      assert d in At(devs, all[|ms|].source);
    }
  }

  lemma EntryNextMember(ms: Members, devs: Avail<Device>, attr: string, m: Config.Member, next: string, v: string, s: string)
    ensures Entry(ms + [m], devs, attr, next, [], v, s) == Entry(ms, devs, attr, m.source, At(devs, m.source), v, s)
  {
    assert (ms + [m])[..|ms|] == ms;
  }

  lemma GroupsNextMember(groups: map<string, Avail<Device>>, ms: Members, devs: Avail<Device>, attr: string, m: Config.Member, next: string)
    requires EntriesAre(groups, ms, devs, attr, m.source, At(devs, m.source)) && ValuesAre(groups, ms, devs, attr, At(devs, m.source))
    ensures EntriesAre(groups, ms + [m], devs, attr, next, []) && ValuesAre(groups, ms + [m], devs, attr, [])
  {
    forall v, s ensures InGroup(groups, v, s) == Entry(ms + [m], devs, attr, next, [], v, s) {
      EntryNextMember(ms, devs, attr, m, next, v, s);
    }
    forall v ensures v in groups <==> Occurs(ms + [m], devs, attr, v) || ValueIn([], attr, v) {
      OccursAppend(ms, devs, attr, m, v);
    }
  }

  /** The grouping loops of pairWithMatchAttribute. */
  method GroupDevices(ms: Members, devs: Avail<Device>, attr: string) returns (groups: map<string, Avail<Device>>)
    ensures forall v :: v in groups <==> Occurs(ms, devs, attr, v)
    ensures GroupsAre(groups, ms, devs, attr)
  {
    groups := map[];
    assert ms[..0] == [];
    NoGroups(devs, attr, if 0 < |ms| then ms[0].source else "");
    for k := 0 to |ms|
      invariant EntriesAre(groups, ms[..k], devs, attr, if k < |ms| then ms[k].source else "", [])
      invariant ValuesAre(groups, ms[..k], devs, attr, [])
    {
      groups := AddSource(groups, ms[..k], devs, attr, ms[k]);
      GroupsNextMember(groups, ms[..k], devs, attr, ms[k], if k + 1 < |ms| then ms[k + 1].source else "");
      assert ms[..k + 1] == ms[..k] + [ms[k]];
    }
    assert ms[..|ms|] == ms;
    GroupsDone(groups, ms, devs, attr, "");
  }

  lemma NoGroups(devs: Avail<Device>, attr: string, next: string)
    ensures EntriesAre(map[], [], devs, attr, next, []) && ValuesAre(map[], [], devs, attr, [])
  {
  }

  lemma GroupsDone(groups: map<string, Avail<Device>>, ms: Members, devs: Avail<Device>, attr: string, next: string)
    requires EntriesAre(groups, ms, devs, attr, next, []) && ValuesAre(groups, ms, devs, attr, [])
    ensures forall v :: v in groups <==> Occurs(ms, devs, attr, v)
    ensures GroupsAre(groups, ms, devs, attr)
  {
    forall v, s | v in groups ensures At(groups[v], s) == At(Group(ms, devs, attr, v), s) {
      assert InGroup(groups, v, s) == Entry(ms, devs, attr, next, [], v, s);
    }
  }

  method AddSource(groups: map<string, Avail<Device>>, ghost ms: Members, devs: Avail<Device>, attr: string, m: Config.Member)
    returns (groups': map<string, Avail<Device>>)
    requires EntriesAre(groups, ms, devs, attr, m.source, []) && ValuesAre(groups, ms, devs, attr, [])
    ensures EntriesAre(groups', ms, devs, attr, m.source, At(devs, m.source)) && ValuesAre(groups', ms, devs, attr, At(devs, m.source))
  {
    groups' := groups;
    var list := At(devs, m.source);
    for j := 0 to |list|
      invariant EntriesAre(groups', ms, devs, attr, m.source, list[..j]) && ValuesAre(groups', ms, devs, attr, list[..j])
    {
      assert list[..j + 1] == list[..j] + [list[j]];
      groups' := AddToGroup(groups', ms, devs, attr, m.source, list[..j], list[j]);
    }
    assert list[..|list|] == list;
  }

  /** A group that lacks devices of some member has no combinations. */
  lemma {:induction false} NotAllPresent(ms: Members, avail: Avail<Device>, j: nat)
    requires j < |ms| && |At(avail, ms[j].source)| < ms[j].count
    ensures Combos(ms, avail) == []
  {
    var picks := Picks(At(avail, ms[0].source), ms[0].count);
    if j == 0 {
      DeadBranch(At(avail, ms[0].source), ms[0].count);
      assert picks == [];
    } else {
      NotAllPresent(ms[1..], avail, j - 1);
      ExtendCount(ms[0].source, picks, Combos(ms[1..], avail));
      assert |Combos(ms, avail)| == |picks| * 0;
    }
  }

  /** The composite devices of one group, with the early check for missing devices. */
  method PairGroup(srcs: Sources, comp: Config.Composition, group: Avail<Device>) returns (cds: seq<CompositeDevice>)
    requires Known(srcs, comp.members)
    ensures cds == Map(Combos(comp.members, group), Builder(srcs, comp))
  {
    for j := 0 to |comp.members|
    {
      if |At(group, comp.members[j].source)| < comp.members[j].count {
        NotAllPresent(comp.members, group, j);
        return [];
      }
    }
    var combos := GenerateCombinations(comp.members, group);
    cds := BuildAll(srcs, comp, combos);
  }

  /** The groups hold, source by source, what the reference definition says. */
  ghost predicate GroupsAre(groups: map<string, Avail<Device>>, ms: Members, devs: Avail<Device>, attr: string) {
    forall v :: v in groups ==> GroupAgrees(groups[v], ms, devs, attr, v)
  }

  ghost predicate GroupAgrees(group: Avail<Device>, ms: Members, devs: Avail<Device>, attr: string, v: string) {
    forall s :: At(group, s) == At(Group(ms, devs, attr, v), s)
  }

  method PairValue(srcs: Sources, comp: Config.Composition, group: Avail<Device>, ghost devs: Avail<Device>, attr: string, ghost v: string)
    returns (cds: seq<CompositeDevice>)
    requires Known(srcs, comp.members) && GroupAgrees(group, comp.members, devs, attr, v)
    ensures cds == Piece(srcs, comp, devs, attr)(v)
  {
    cds := PairGroup(srcs, comp, group);
    CombosCongruent(comp.members, group, Group(comp.members, devs, attr, v));
  }

  lemma VisitNext(order: seq<string>, left: set<string>, all: set<string>, v: string)
    requires NoDup(order) && left <= all && v in left && forall w :: w in order <==> w in all && w !in left
    ensures NoDup(order + [v]) && forall w :: w in order + [v] <==> w in all && w !in left - {v}
  {
  }

  /** The loop over the groups, in whatever order the map yields them. */
  method PairGroups(srcs: Sources, comp: Config.Composition, ghost devs: Avail<Device>, attr: string, groups: map<string, Avail<Device>>)
    returns (result: seq<CompositeDevice>, ghost order: seq<string>)
    requires Known(srcs, comp.members) && GroupsAre(groups, comp.members, devs, attr)
    ensures NoDup(order) && forall v :: v in groups <==> v in order
    ensures result == Matched(srcs, comp, devs, attr, order)
  {
    var left := groups.Keys;
    order := [];
    result := [];
    while left != {}
      invariant left <= groups.Keys && NoDup(order)
      invariant forall v :: v in order <==> v in groups.Keys && v !in left
      invariant result == Matched(srcs, comp, devs, attr, order)
      decreases left
    {
      var v :| v in left;
      VisitNext(order, left, groups.Keys, v);
      MatchedAppend(srcs, comp, devs, attr, order, v);
      var cds := PairValue(srcs, comp, groups[v], devs, attr, v);
      left, order, result := left - {v}, order + [v], result + cds;
    }
  }

  /** pairWithMatchAttribute: only the first constraint is used.  `order` is the order in
      which the map iteration happened to visit the groups. */
  method PairWithMatchAttribute(srcs: Sources, comp: Config.Composition, devs: Avail<Device>)
    returns (result: seq<CompositeDevice>, ghost order: seq<string>)
    requires Known(srcs, comp.members) && comp.constraints != []
    ensures IsOrder(comp.members, devs, comp.constraints[0].attribute, order)
    ensures multiset(result) == multiset(Matched(srcs, comp, devs, comp.constraints[0].attribute, order))
    ensures SortedByName(result)
  {
    var attr := comp.constraints[0].attribute;
    var groups := GroupDevices(comp.members, devs, attr);
    var found;
    found, order := PairGroups(srcs, comp, devs, attr, groups);
    result := SortByName(found);
  }

  lemma MatchedAppend(srcs: Sources, comp: Config.Composition, devs: Avail<Device>, attr: string, order: seq<string>, v: string)
    ensures Matched(srcs, comp, devs, attr, order + [v])
         == Matched(srcs, comp, devs, attr, order) + Piece(srcs, comp, devs, attr)(v)
  {
    var f := Piece(srcs, comp, devs, attr);
    FlatMapAppend(order, [v], f);
    assert FlatMap([v], f) == f(v) + FlatMap([v][1..], f) == f(v);
  }

  /** pairSingleSource. */
  method PairSingleSource(srcs: Sources, comp: Config.Composition, devs: Avail<Device>) returns (result: seq<CompositeDevice>)
    requires Known(srcs, comp.members)
    ensures multiset(result) == multiset(Map(Combos(comp.members, devs), Builder(srcs, comp))) && SortedByName(result)
  {
    var combos := GenerateCombinations(comp.members, devs);
    result := BuildAll(srcs, comp, combos);
    result := SortByName(result);
  }
}
