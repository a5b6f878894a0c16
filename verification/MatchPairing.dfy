/**
 The matchAttribute mode of the pairer: grouping by the value of an attribute, and one
 composite device per choice within a group.
 */
module MatchPairing {

  import opened Options
  import opened Seqs
  import opened Combinations
  import opened Names
  import opened DeviceModel
  import opened Pairing
  import Config

  // ---------- Composite devices ----------

  type Sources = map<string, Config.Source>

  function SourceOf(srcs: Sources, name: string): Config.Source {
    if name in srcs then srcs[name] else Config.Source("", "", "")
  }

  /** NewPairer's index: every source under its own name. */
  predicate Indexed(srcs: Sources) {
    forall s :: s in srcs ==> srcs[s].name == s
  }

  predicate Known(srcs: Sources, ms: Members) {
    forall i :: 0 <= i < |ms| ==> ms[i].source in srcs
  }

  function MembersFrom(src: Config.Source, devs: seq<Device>): seq<DeviceMember> {
    seq(|devs|, i requires 0 <= i < |devs| => DeviceMember(src.name, src.driver, src.deviceClass, devs[i]))
  }

  /** The members of a composite device, in the order of the composition. */
  function AllMembers(srcs: Sources, ms: Members, combo: Avail<Device>): seq<DeviceMember> {
    if ms == [] then []
    else MembersFrom(SourceOf(srcs, ms[0].source), At(combo, ms[0].source)) + AllMembers(srcs, ms[1..], combo)
  }

  function NamesOf(ds: seq<DeviceMember>): seq<string> {
    seq(|ds|, i requires 0 <= i < |ds| => ds[i].device.name)
  }

  /** buildCompositeDevice: name and mapping. */
  function Build(srcs: Sources, comp: Config.Composition, combo: Avail<Device>): CompositeDevice {
    var members := AllMembers(srcs, comp.members, combo);
    CompositeDevice(CompositeName(NamesOf(members)), Mapping(comp.name, members, 0))
  }

  function Builder(srcs: Sources, comp: Config.Composition): Avail<Device> -> CompositeDevice {
    combo => Build(srcs, comp, combo)
  }

  // ---------- Groups ----------

  function ForSource(test: Test, source: string): Device -> bool {
    d => test(source, d)
  }

  /** The devices of a source that pass a test. */
  function Passing(s: seq<Device>, source: string, test: Test): seq<Device> {
    Filter(s, ForSource(test, source))
  }

  /** The sources that the group of value v holds, after the members ms. */
  function Group(ms: Members, devs: Avail<Device>, attr: string, v: string): Avail<Device> {
    if ms == [] then map[]
    else
      var n := |ms| - 1;
      var g := Group(ms[..n], devs, attr, v);
      g[ms[n].source := At(g, ms[n].source) + Passing(At(devs, ms[n].source), ms[n].source, HasValue(attr, v))]
  }

  /** With distinct sources, a source's part of a group is its devices of that value. */
  lemma {:induction false} GroupIs(ms: Members, devs: Avail<Device>, attr: string, v: string, source: string)
    requires DistinctSources(ms)
    ensures At(Group(ms, devs, attr, v), source)
         == if HasSource(ms, source) then Passing(At(devs, source), source, HasValue(attr, v)) else []
  {
    if ms == [] {
    } else {
      var n := |ms| - 1;
      GroupIs(ms[..n], devs, attr, v, source);
      assert HasSource(ms, source) <==> HasSource(ms[..n], source) || ms[n].source == source by {
        assert forall i :: 0 <= i < n ==> ms[..n][i] == ms[i];
      }
      assert ms[n].source == source ==> !HasSource(ms[..n], source);
    }
  }

  /** Some device of a member source has value v. */
  ghost predicate Occurs(ms: Members, devs: Avail<Device>, attr: string, v: string) {
    exists i, d :: 0 <= i < |ms| && d in At(devs, ms[i].source) && AttributeString(d.attrs, attr) == Some(v)
  }

  /** An iteration order over the groups: every occurring value once. */
  ghost predicate IsOrder(ms: Members, devs: Avail<Device>, attr: string, order: seq<string>) {
    NoDup(order) && forall v :: v in order <==> Occurs(ms, devs, attr, v)
  }

  // ---------- The composite devices of a composition ----------

  function Piece(srcs: Sources, comp: Config.Composition, devs: Avail<Device>, attr: string): string -> seq<CompositeDevice> {
    v => Map(Combos(comp.members, Group(comp.members, devs, attr, v)), Builder(srcs, comp))
  }

  /** What pairWithMatchAttribute collects when it visits the groups in the given order. */
  function Matched(srcs: Sources, comp: Config.Composition, devs: Avail<Device>, attr: string, order: seq<string>): seq<CompositeDevice> {
    FlatMap(order, Piece(srcs, comp, devs, attr))
  }

  /** A value of the constraint and, per member, a choice within that value's group. */
  datatype GroupChoice = GroupChoice(value: string, choice: Choice)

  function Tagged(v: string): Choice -> GroupChoice {
    c => GroupChoice(v, c)
  }

  function ChoicePiece(ms: Members, devs: Avail<Device>, attr: string): string -> seq<GroupChoice> {
    v => Map(Choices(ms, Group(ms, devs, attr, v)), Tagged(v))
  }

  function AllChoices(ms: Members, devs: Avail<Device>, attr: string, order: seq<string>): seq<GroupChoice> {
    FlatMap(order, ChoicePiece(ms, devs, attr))
  }

  function BuildChosen(srcs: Sources, comp: Config.Composition, devs: Avail<Device>, attr: string): GroupChoice -> CompositeDevice {
    (g: GroupChoice) => Build(srcs, comp, Select(Group(comp.members, devs, attr, g.value), g.choice))
  }

  /** One composite device per choice. */
  lemma OnePerChoice(srcs: Sources, comp: Config.Composition, devs: Avail<Device>, attr: string, order: seq<string>)
    ensures Matched(srcs, comp, devs, attr, order)
         == Map(AllChoices(comp.members, devs, attr, order), BuildChosen(srcs, comp, devs, attr))
  {
    var f, g, h := Piece(srcs, comp, devs, attr), ChoicePiece(comp.members, devs, attr), BuildChosen(srcs, comp, devs, attr);
    forall v ensures f(v) == Map(g(v), h) {
      CombosByChoice(comp.members, Group(comp.members, devs, attr, v));
    }
    FlatMapMap(order, f, g, h);
  }

  lemma MapMember<A, B>(s: seq<A>, f: A -> B, y: B)
    ensures y in Map(s, f) <==> exists x :: x in s && f(x) == y
  {
    if x :| x in s && f(x) == y {
      var i :| 0 <= i < |s| && s[i] == x;
      assert Map(s, f)[i] == y;
    }
    if y in Map(s, f) {
      var i :| 0 <= i < |s| && Map(s, f)[i] == y;
      assert s[i] in s;
    }
  }

  /** A valid choice names a value that occurs. */
  lemma ValidChoiceOccurs(ms: Members, devs: Avail<Device>, attr: string, v: string, c: Choice)
    requires ms != [] && DistinctSources(ms) && PositiveCounts(ms)
    requires ValidChoice(ms, Group(ms, devs, attr, v), c)
    ensures Occurs(ms, devs, attr, v)
  {
    var g := Group(ms, devs, attr, v);
    var src := ms[0].source;
    GroupIs(ms, devs, attr, v, src);
    assert ValidPick(ms[0], g, c);
    assert c[src][0] < |At(g, src)|;
    var d := At(g, src)[0];
    assert d in At(g, src);
    FilterMember(At(devs, src), ForSource(HasValue(attr, v), src), d);
  }

  /** matchAttribute pairing is exact.  For every iteration order over the groups, the
      choices that the composite devices are built from are all different, and they are
      exactly the valid ones: a value of the constraint, and for every member `Count` of
      its filtered devices with that value. */
  lemma MatchingExact(ms: Members, devs: Avail<Device>, attr: string, order: seq<string>, g: GroupChoice)
    requires ms != [] && DistinctSources(ms) && PositiveCounts(ms) && IsOrder(ms, devs, attr, order)
    ensures g in AllChoices(ms, devs, attr, order) <==> ValidChoice(ms, Group(ms, devs, attr, g.value), g.choice)
  {
    var f := ChoicePiece(ms, devs, attr);
    FlatMapMember(order, f, g);
    forall v ensures g in f(v) <==> v == g.value && ValidChoice(ms, Group(ms, devs, attr, v), g.choice) {
      MapMember(Choices(ms, Group(ms, devs, attr, v)), Tagged(v), g);
      ChoicesExact(ms, Group(ms, devs, attr, v), g.choice);
    }
    if ValidChoice(ms, Group(ms, devs, attr, g.value), g.choice) {
      ValidChoiceOccurs(ms, devs, attr, g.value, g.choice);
      assert g.value in order && g in f(g.value);
    }
  }

  lemma MatchingNoDup(ms: Members, devs: Avail<Device>, attr: string, order: seq<string>)
    requires DistinctSources(ms) && PositiveCounts(ms) && NoDup(order)
    ensures NoDup(AllChoices(ms, devs, attr, order))
  {
    var f := ChoicePiece(ms, devs, attr);
    forall v ensures NoDup(f(v)) && forall g :: g in f(v) ==> g.value == v {
      var cs := Choices(ms, Group(ms, devs, attr, v));
      ChoicesNoDup(ms, Group(ms, devs, attr, v));
      assert forall i :: 0 <= i < |cs| ==> f(v)[i] == GroupChoice(v, cs[i]);
    }
    FlatMapNoDup(order, f);
  }

  /** The sum over the groups of the products of binomials. */
  function SumOfProducts(ms: Members, devs: Avail<Device>, attr: string, order: seq<string>): nat
    requires PositiveCounts(ms)
  {
    if order == [] then 0
    else ProductOfBinomials(ms, Group(ms, devs, attr, order[0])) + SumOfProducts(ms, devs, attr, order[1..])
  }

  lemma {:induction false} MatchingCounted(srcs: Sources, comp: Config.Composition, devs: Avail<Device>, attr: string, order: seq<string>)
    requires PositiveCounts(comp.members)
    ensures |Matched(srcs, comp, devs, attr, order)| == SumOfProducts(comp.members, devs, attr, order)
  {
    if order == [] {
    } else {
      MatchingCounted(srcs, comp, devs, attr, order[1..]);
      CombosCount(comp.members, Group(comp.members, devs, attr, order[0]));
    }
  }

  /** The order of the groups does not matter. */
  lemma AnyGroupOrder(srcs: Sources, comp: Config.Composition, devs: Avail<Device>, attr: string, o1: seq<string>, o2: seq<string>)
    requires IsOrder(comp.members, devs, attr, o1) && IsOrder(comp.members, devs, attr, o2)
    ensures multiset(Matched(srcs, comp, devs, attr, o1)) == multiset(Matched(srcs, comp, devs, attr, o2))
  {
    FlatMapAnyOrder(o1, o2, Piece(srcs, comp, devs, attr));
  }
}
