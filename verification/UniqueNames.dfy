/**
 No two composite devices of a composition share a name: plain device names that are
 unique per source, joined within the length limit, decode to the members they came from.
 */
module UniqueNames {

  import opened Options
  import opened Seqs
  import opened Combinations
  import opened Text
  import opened Names
  import opened DeviceModel
  import opened Pairing
  import opened MatchPairing
  import opened FilterPairing
  import opened ExplicitPairing
  import opened ExplicitPairer
  import opened Compositions
  import Config

  // ---------- Hypotheses ----------

  /** Device names are plain and unique within every source. */
  ghost predicate PlainSources(devs: Avail<Device>) {
    forall s :: s in devs ==> PlainList(devs[s])
  }

  ghost predicate PlainList(list: seq<Device>) {
    && (forall i :: 0 <= i < |list| ==> Plain(list[i].name))
    && (forall i, j :: 0 <= i < j < |list| ==> list[i].name != list[j].name)
  }

  /** The joined name of a composite device's members. */
  function FullName(cd: CompositeDevice): string {
    Join(NamesOf(cd.mapping.members), "--")
  }

  ghost predicate ShortNames(cds: seq<CompositeDevice>) {
    forall i :: 0 <= i < |cds| ==> |FullName(cds[i])| <= MAX_NAME
  }

  // ---------- From names back to devices ----------

  /** A combination takes `Count` devices of its list for every member. */
  ghost predicate Drawn(ms: Members, avail: Avail<Device>, c: Avail<Device>) {
    && (forall s :: s in c <==> HasSource(ms, s))
    && (forall i :: 0 <= i < |ms| ==> DrawnFor(ms[i], avail, c))
  }

  ghost predicate DrawnFor(m: Config.Member, avail: Avail<Device>, c: Avail<Device>) {
    |At(c, m.source)| == m.count && forall d :: d in At(c, m.source) ==> d in At(avail, m.source)
  }

  function DeviceNames(ds: seq<Device>): seq<string> {
    seq(|ds|, i requires 0 <= i < |ds| => ds[i].name)
  }

  lemma NamesSplit(srcs: Sources, ms: Members, c: Avail<Device>)
    requires ms != []
    ensures NamesOf(AllMembers(srcs, ms, c)) == DeviceNames(At(c, ms[0].source)) + NamesOf(AllMembers(srcs, ms[1..], c))
  {
  }

  /** Equal member names, member by member. */
  lemma {:induction false} SameNamesEach(srcs: Sources, ms: Members, a: Avail<Device>, b: Avail<Device>, i: nat)
    requires i < |ms| && forall j :: 0 <= j < |ms| ==> |At(a, ms[j].source)| == |At(b, ms[j].source)|
    requires NamesOf(AllMembers(srcs, ms, a)) == NamesOf(AllMembers(srcs, ms, b))
    ensures DeviceNames(At(a, ms[i].source)) == DeviceNames(At(b, ms[i].source))
  {
    NamesSplit(srcs, ms, a);
    NamesSplit(srcs, ms, b);
    var n := |At(a, ms[0].source)|;
    var all := NamesOf(AllMembers(srcs, ms, a));
    assert DeviceNames(At(a, ms[0].source)) == all[..n] == DeviceNames(At(b, ms[0].source));
    if i > 0 {
      assert all[n..] == NamesOf(AllMembers(srcs, ms[1..], a)) == NamesOf(AllMembers(srcs, ms[1..], b));
      SameNamesEach(srcs, ms[1..], a, b, i - 1);
    }
  }

  lemma SameNamesSameDevices(list: seq<Device>, a: seq<Device>, b: seq<Device>)
    requires PlainList(list) && (forall d :: d in a ==> d in list) && (forall d :: d in b ==> d in list)
    requires DeviceNames(a) == DeviceNames(b)
    ensures a == b
  {
    assert |a| == |DeviceNames(a)| == |b|;
    forall i | 0 <= i < |a| ensures a[i] == b[i] {
      assert a[i].name == DeviceNames(a)[i] == DeviceNames(b)[i] == b[i].name;
      assert a[i] in list && b[i] in list;
    }
  }

  /** Combinations with equal member names are equal. */
  lemma SameNamesSameCombo(srcs: Sources, ms: Members, avail: Avail<Device>, a: Avail<Device>, b: Avail<Device>)
    requires PlainSources(avail) && Drawn(ms, avail, a) && Drawn(ms, avail, b)
    requires NamesOf(AllMembers(srcs, ms, a)) == NamesOf(AllMembers(srcs, ms, b))
    ensures a == b
  {
    forall s | s in a ensures s in b && a[s] == b[s] {
      var i :| 0 <= i < |ms| && ms[i].source == s;
      assert forall j :: 0 <= j < |ms| ==> DrawnFor(ms[j], avail, a) && DrawnFor(ms[j], avail, b);
      SameNamesEach(srcs, ms, a, b, i);
      SameNamesSameDevices(At(avail, s), At(a, s), At(b, s));
    }
    assert a.Keys == b.Keys;
  }

  lemma {:induction false} NamesArePlain(srcs: Sources, ms: Members, avail: Avail<Device>, c: Avail<Device>)
    requires PlainSources(avail) && forall i :: 0 <= i < |ms| ==> DrawnFor(ms[i], avail, c)
    ensures AllPlain(NamesOf(AllMembers(srcs, ms, c)))
  {
    if ms == [] {
    } else {
      NamesArePlain(srcs, ms[1..], avail, c);
      NamesSplit(srcs, ms, c);
      assert DrawnFor(ms[0], avail, c);
      forall i | 0 <= i < |At(c, ms[0].source)| ensures Plain(At(c, ms[0].source)[i].name) {
        assert At(c, ms[0].source)[i] in At(avail, ms[0].source);
      }
    }
  }

  /** Composite devices with the same name were built from the same combination. */
  lemma BuildInjective(srcs: Sources, comp: Config.Composition, avail: Avail<Device>, a: Avail<Device>, b: Avail<Device>)
    requires PlainSources(avail) && Drawn(comp.members, avail, a) && Drawn(comp.members, avail, b)
    requires |FullName(Build(srcs, comp, a))| <= MAX_NAME && |FullName(Build(srcs, comp, b))| <= MAX_NAME
    requires Build(srcs, comp, a).name == Build(srcs, comp, b).name
    ensures a == b
  {
    NamesArePlain(srcs, comp.members, avail, a);
    NamesArePlain(srcs, comp.members, avail, b);
    CompositeNameInjective(NamesOf(AllMembers(srcs, comp.members, a)), NamesOf(AllMembers(srcs, comp.members, b)));
    SameNamesSameCombo(srcs, comp.members, avail, a, b);
  }

  // ---------- Combinations are drawn, and all different ----------

  lemma {:induction false} SubsDrawn<T>(s: seq<T>, k: nat, t: seq<T>)
    requires t in Subs(s, k)
    ensures |t| == k && forall x :: x in t ==> x in s
  {
    if k > 0 && s != [] {
      var a, b := Subs(s[1..], k - 1), Subs(s[1..], k);
      if t in b {
        SubsDrawn(s[1..], k, t);
      } else {
        var i :| 0 <= i < |a| && Prefix([s[0]], a)[i] == t;
        SubsDrawn(s[1..], k - 1, a[i]);
      }
    }
  }

  lemma {:induction false} SubsNoDup<T>(s: seq<T>, k: nat)
    requires NoDup(s)
    ensures NoDup(Subs(s, k))
  {
    if k > 0 && s != [] {
      SubsNoDup(s[1..], k - 1);
      SubsNoDup(s[1..], k);
      var a, b := Prefix([s[0]], Subs(s[1..], k - 1)), Subs(s[1..], k);
      forall i, j | 0 <= i < |a| && 0 <= j < |b| ensures a[i] != b[j] {
        assert b[j] in b;
        SubsDrawn(s[1..], k, b[j]);
        assert a[i][0] == s[0] && b[j][0] in b[j] && s[0] !in s[1..];
      }
      var c := Subs(s[1..], k - 1);
      forall i, j | 0 <= i < j < |a| ensures a[i] != a[j] {
        assert a[i][1..] == c[i] && a[j][1..] == c[j];
      }
    }
  }

  lemma {:induction false} CombosDrawn(ms: Members, avail: Avail<Device>, c: Avail<Device>)
    requires DistinctSources(ms) && c in Combos(ms, avail)
    ensures Drawn(ms, avail, c)
  {
    CombosKeys(ms, avail, c);
    if ms != [] {
      var m, rest := ms[0], ms[1..];
      var p, sub := ExtendOnly(m.source, Picks(At(avail, m.source), m.count), Combos(rest, avail), c);
      CombosDrawn(rest, avail, sub);
      SubsDrawn(At(avail, m.source), m.count, p);
      forall i | 0 <= i < |ms| ensures DrawnFor(ms[i], avail, c) {
        if i > 0 {
          assert DrawnFor(rest[i - 1], avail, sub);
        }
      }
    }
  }

  lemma {:induction false} CombosNoDup(ms: Members, avail: Avail<Device>)
    requires DistinctSources(ms) && forall i :: 0 <= i < |ms| ==> NoDup(At(avail, ms[i].source))
    ensures NoDup(Combos(ms, avail))
  {
    if ms == [] {
    } else {
      var m, rest := ms[0], ms[1..];
      CombosNoDup(rest, avail);
      assert NoDup(At(avail, m.source));
      if m.count > 0 {
        SubsNoDup(At(avail, m.source), m.count);
      }
      SourceNotRepeated(ms);
      forall s | s in Combos(rest, avail) ensures m.source !in s {
        CombosKeys(rest, avail, s);
      }
      ExtendNoDup(m.source, Picks(At(avail, m.source), m.count), Combos(rest, avail));
    }
  }

  /** One composition, combinations from any lists drawn from `devs`. */
  lemma DistinctNames(srcs: Sources, comp: Config.Composition, devs: Avail<Device>, combos: seq<Avail<Device>>)
    requires PlainSources(devs) && NoDup(combos) && forall c :: c in combos ==> Drawn(comp.members, devs, c)
    requires ShortNames(Map(combos, Builder(srcs, comp)))
    ensures NoDup(Map(Map(combos, Builder(srcs, comp)), NameOf))
  {
    var cds := Map(combos, Builder(srcs, comp));
    forall i, j | 0 <= i < j < |combos| ensures cds[i].name != cds[j].name {
      assert combos[i] in combos && combos[j] in combos;
      assert |FullName(cds[i])| <= MAX_NAME && |FullName(cds[j])| <= MAX_NAME;
      if cds[i].name == cds[j].name {
        BuildInjective(srcs, comp, devs, combos[i], combos[j]);
      }
    }
  }

  // ---------- The three modes ----------

  lemma SingleNamesDistinct(srcs: Sources, comp: Config.Composition, devs: Avail<Device>)
    requires PlainSources(devs) && DistinctSources(comp.members)
    requires ShortNames(Map(Combos(comp.members, devs), Builder(srcs, comp)))
    ensures NoDup(Map(Map(Combos(comp.members, devs), Builder(srcs, comp)), NameOf))
  {
    assert forall i :: 0 <= i < |comp.members| ==> NoDup(At(devs, comp.members[i].source));
    CombosNoDup(comp.members, devs);
    forall c | c in Combos(comp.members, devs) ensures Drawn(comp.members, devs, c) {
      CombosDrawn(comp.members, devs, c);
    }
    DistinctNames(srcs, comp, devs, Combos(comp.members, devs));
  }

  function GroupCombos(ms: Members, devs: Avail<Device>, attr: string): string -> seq<Avail<Device>> {
    v => Combos(ms, Group(ms, devs, attr, v))
  }

  lemma {:induction false} FilterNoDup<T>(s: seq<T>, p: T -> bool)
    requires NoDup(s)
    ensures NoDup(Filter(s, p))
  {
    if s == [] {
    } else {
      FilterNoDup(s[1..], p);
      FilterMember(s[1..], p, s[0]);
    }
  }

  lemma GroupDrawn(ms: Members, devs: Avail<Device>, attr: string, v: string, c: Avail<Device>)
    requires DistinctSources(ms) && c in GroupCombos(ms, devs, attr)(v)
    ensures Drawn(ms, devs, c)
    ensures forall i, d :: 0 <= i < |ms| && d in At(c, ms[i].source) ==> AttributeString(d.attrs, attr) == Some(v)
  {
    var g := Group(ms, devs, attr, v);
    CombosDrawn(ms, g, c);
    forall i | 0 <= i < |ms| ensures DrawnFor(ms[i], devs, c) {
      var s := ms[i].source;
      assert DrawnFor(ms[i], g, c);
      GroupIs(ms, devs, attr, v, s);
      forall d | d in At(c, s) ensures d in At(devs, s) {
        FilterMember(At(devs, s), ForSource(HasValue(attr, v), s), d);
      }
    }
    forall i, d | 0 <= i < |ms| && d in At(c, ms[i].source) ensures AttributeString(d.attrs, attr) == Some(v) {
      var s := ms[i].source;
      assert DrawnFor(ms[i], g, c);
      GroupIs(ms, devs, attr, v, s);
      FilterMember(At(devs, s), ForSource(HasValue(attr, v), s), d);
    }
  }

  /** The combinations of all groups together are all different. */
  lemma GroupCombosNoDup(ms: Members, devs: Avail<Device>, attr: string, order: seq<string>)
    requires PlainSources(devs) && ms != [] && DistinctSources(ms) && PositiveCounts(ms) && NoDup(order)
    ensures NoDup(FlatMap(order, GroupCombos(ms, devs, attr)))
  {
    var f := GroupCombos(ms, devs, attr);
    forall v ensures NoDup(f(v)) {
      forall i | 0 <= i < |ms| ensures NoDup(At(Group(ms, devs, attr, v), ms[i].source)) {
        var s := ms[i].source;
        GroupIs(ms, devs, attr, v, s);
        FilterNoDup(At(devs, s), ForSource(HasValue(attr, v), s));
      }
      CombosNoDup(ms, Group(ms, devs, attr, v));
    }
    forall v, w, c | v in order && w in order && c in f(v) && c in f(w) ensures v == w {
      GroupDrawn(ms, devs, attr, v, c);
      GroupDrawn(ms, devs, attr, w, c);
      assert DrawnFor(ms[0], devs, c);
      assert At(c, ms[0].source)[0] in At(c, ms[0].source);
    }
    FlatMapNoDup(order, f);
  }

  /** matchAttribute mode: no index entry of a composition is overwritten. */
  lemma MatchedNamesDistinct(srcs: Sources, comp: Config.Composition, devs: Avail<Device>, attr: string, order: seq<string>)
    requires PlainSources(devs) && comp.members != [] && DistinctSources(comp.members) && PositiveCounts(comp.members) && NoDup(order)
    requires ShortNames(Matched(srcs, comp, devs, attr, order))
    ensures NoDup(Map(Matched(srcs, comp, devs, attr, order), NameOf))
  {
    var f := GroupCombos(comp.members, devs, attr);
    var combos := FlatMap(order, f);
    GroupCombosNoDup(comp.members, devs, attr, order);
    FlatMapMap(order, Piece(srcs, comp, devs, attr), f, Builder(srcs, comp));
    forall c | c in combos ensures Drawn(comp.members, devs, c) {
      FlatMapMember(order, f, c);
      var v :| v in order && c in f(v);
      GroupDrawn(comp.members, devs, attr, v, c);
    }
    DistinctNames(srcs, comp, devs, combos);
  }

  // ---------- Explicit mode ----------

  function KeptCombos(outs: seq<Allotment>): seq<Avail<Device>> {
    if outs == [] then []
    else
      var n := |outs| - 1;
      KeptCombos(outs[..n]) + (if outs[n].Some? then [outs[n].value] else [])
  }

  lemma {:induction false} KeptFrom(outs: seq<Allotment>, c: Avail<Device>) returns (i: nat)
    requires c in KeptCombos(outs)
    ensures i < |outs| && outs[i] == Some(c)
  {
    var n := |outs| - 1;
    if c in KeptCombos(outs[..n]) {
      i := KeptFrom(outs[..n], c);
    } else {
      i := n;
    }
  }

  lemma {:induction false} KeptBuilt(srcs: Sources, comp: Config.Composition, pairs: seq<Config.ExplicitPair>, outs: seq<Allotment>, k: nat)
    requires |outs| == |pairs|
    ensures |Kept(srcs, comp, pairs, outs)| == |KeptCombos(outs)|
    ensures k < |KeptCombos(outs)| ==> SameButRail(Kept(srcs, comp, pairs, outs)[k], Build(srcs, comp, KeptCombos(outs)[k]))
  {
    if outs == [] {
    } else {
      var n := |outs| - 1;
      KeptBuilt(srcs, comp, pairs[..n], outs[..n], k);
    }
  }

  predicate SameButRail(a: CompositeDevice, b: CompositeDevice) {
    a == OnRail(b, a.mapping.rail)
  }

  lemma KeptDrawn(cel: Match, ms: Members, devs: Avail<Device>, pairs: seq<Config.ExplicitPair>, outs: seq<Allotment>, i: nat)
    requires DistinctSources(ms) && Greedy(cel, ms, devs, pairs, outs) && i < |outs| && outs[i].Some?
    ensures Drawn(ms, devs, outs[i].value)
  {
    assert GreedyStep(cel, ms, devs, pairs, outs, i);
    forall j | 0 <= j < |ms| ensures DrawnFor(ms[j], devs, outs[i].value) {
      var s := ms[j].source;
      CountOfDistinct(ms, j);
      var cand := Candidates(cel, pairs[i].selectors[s], Taken(outs[..i], s), At(devs, s));
      forall d | d in outs[i].value[s] ensures d in At(devs, s) {
        assert d in cand;
        FilterMember(At(devs, s), Fits(cel, pairs[i].selectors[s], Taken(outs[..i], s)), d);
      }
    }
  }

  lemma KeptDiffer(cel: Match, ms: Members, devs: Avail<Device>, pairs: seq<Config.ExplicitPair>, outs: seq<Allotment>, i: nat, j: nat)
    requires ms != [] && DistinctSources(ms) && PositiveCounts(ms) && Greedy(cel, ms, devs, pairs, outs)
    requires i < j < |outs| && outs[i].Some? && outs[j].Some?
    ensures outs[i] != outs[j]
  {
    var s := ms[0].source;
    KeptDrawn(cel, ms, devs, pairs, outs, i);
    assert DrawnFor(ms[0], devs, outs[i].value);
    var name := At(outs[i].value, s)[0].name;
    assert name in NamesIn(At(outs[i].value, s));
    ExplicitPairsDisjoint(cel, ms, devs, pairs, outs, i, j, s, name);
  }

  lemma {:induction false} KeptCombosNoDup(cel: Match, ms: Members, devs: Avail<Device>, pairs: seq<Config.ExplicitPair>, outs: seq<Allotment>, n: nat)
    requires ms != [] && DistinctSources(ms) && PositiveCounts(ms) && Greedy(cel, ms, devs, pairs, outs) && n <= |outs|
    ensures NoDup(KeptCombos(outs[..n]))
  {
    if n == 0 {
    } else {
      KeptCombosNoDup(cel, ms, devs, pairs, outs, n - 1);
      assert outs[..n][..n - 1] == outs[..n - 1];
      var a := KeptCombos(outs[..n - 1]);
      if outs[n - 1].Some? {
        forall k | 0 <= k < |a| ensures a[k] != outs[n - 1].value {
          var i := KeptFrom(outs[..n - 1], a[k]);
          KeptDiffer(cel, ms, devs, pairs, outs, i, n - 1);
        }
      }
    }
  }

  /** Explicit mode: no index entry of a composition is overwritten. */
  lemma ExplicitNamesDistinct(srcs: Sources, comp: Config.Composition, cel: Match, devs: Avail<Device>, pairs: seq<Config.ExplicitPair>, outs: seq<Allotment>)
    requires PlainSources(devs) && comp.members != [] && DistinctSources(comp.members) && PositiveCounts(comp.members)
    requires Greedy(cel, comp.members, devs, pairs, outs) && ShortNames(Kept(srcs, comp, pairs, outs))
    ensures NoDup(Map(Kept(srcs, comp, pairs, outs), NameOf))
  {
    var kept, combos := Kept(srcs, comp, pairs, outs), KeptCombos(outs);
    forall k: nat ensures |kept| == |combos| && (k < |combos| ==> SameButRail(kept[k], Build(srcs, comp, combos[k]))) {
      KeptBuilt(srcs, comp, pairs, outs, k);
    }
    assert outs[..|outs|] == outs;
    KeptCombosNoDup(cel, comp.members, devs, pairs, outs, |outs|);
    forall c | c in combos ensures Drawn(comp.members, devs, c) {
      var i := KeptFrom(outs, c);
      KeptDrawn(cel, comp.members, devs, pairs, outs, i);
    }
    var built := Map(combos, Builder(srcs, comp));
    forall k | 0 <= k < |combos| ensures kept[k].name == built[k].name && |FullName(built[k])| <= MAX_NAME {
      assert SameButRail(kept[k], built[k]) && |FullName(kept[k])| <= MAX_NAME;
    }
    DistinctNames(srcs, comp, devs, combos);
    var names := Map(built, NameOf);
    assert forall k :: 0 <= k < |combos| ==> Map(kept, NameOf)[k] == names[k];
  }

  // ---------- Whatever the mode ----------

  lemma FilterPlain(list: seq<Device>, p: Device -> bool)
    requires PlainList(list)
    ensures PlainList(Filter(list, p))
  {
    var f := Filter(list, p);
    FilterNoDup(list, p);
    forall i | 0 <= i < |f| ensures f[i] in list {
      FilterMember(list, p, f[i]);
    }
  }

  lemma FilteredPlain(ms: Members, devs: Avail<Device>, test: Test)
    requires PlainSources(devs)
    ensures PlainSources(Filtered(ms, devs, test))
  {
    var fewer := Filtered(ms, devs, test);
    forall s | s in fewer ensures PlainList(fewer[s]) {
      FilterPlain(At(devs, s), ForSource(test, s));
    }
  }

  lemma {:induction false} NoDupByMultiset<T>(s: seq<T>)
    ensures NoDup(s) <==> forall x :: multiset(s)[x] <= 1
  {
    if s == [] {
    } else {
      var t := s[1..];
      NoDupByMultiset(t);
      assert s == [s[0]] + t;
      assert forall x :: multiset(s)[x] == multiset(t)[x] + (if x == s[0] then 1 else 0);
      forall i, j | 1 <= i < j < |s| ensures NoDup(t) ==> s[i] != s[j] {
        assert s[i] == t[i - 1] && s[j] == t[j - 1];
      }
      if NoDup(s) {
        assert s[0] !in t;
        forall x ensures multiset(s)[x] <= 1 {
          assert x in t <==> x in multiset(t);
        }
      } else if NoDup(t) {
        assert s[0] in t by {
          var i, j :| 0 <= i < j < |s| && s[i] == s[j];
          assert i == 0 && s[j] in t;
        }
        assert s[0] in multiset(t);
        assert multiset(s)[s[0]] > 1;
      }
    }
  }

  /** Distinct names, as a property of the devices in whatever order. */
  ghost predicate NamesApart(m: multiset<CompositeDevice>) {
    && (forall x :: m[x] <= 1)
    && (forall x, y :: x in m && y in m && x.name == y.name ==> x == y)
  }

  lemma NamesApartMeans(s: seq<CompositeDevice>)
    ensures NoDup(Map(s, NameOf)) <==> NamesApart(multiset(s))
  {
    NoDupByMultiset(s);
    if NoDup(Map(s, NameOf)) {
      DistinctNamesApart(s);
    } else {
      var names := Map(s, NameOf);
      var i, j :| 0 <= i < j < |names| && names[i] == names[j];
      assert s[i] in multiset(s) && s[j] in multiset(s) && s[i].name == s[j].name;
    }
  }

  lemma DistinctNamesApart(s: seq<CompositeDevice>)
    requires NoDup(Map(s, NameOf))
    ensures NoDup(s) && forall x, y :: x in multiset(s) && y in multiset(s) && x.name == y.name ==> x == y
  {
    var names := Map(s, NameOf);
    forall i, j | 0 <= i < j < |s| ensures s[i] != s[j] {
      assert names[i] != names[j];
    }
    forall x, y | x in multiset(s) && y in multiset(s) && x.name == y.name ensures x == y {
      assert x in s && y in s;
      var i :| 0 <= i < |s| && s[i] == x;
      var j :| 0 <= j < |s| && s[j] == y;
      assert names[i] == names[j];
    }
  }

  lemma ShortNamesAnyOrder(a: seq<CompositeDevice>, b: seq<CompositeDevice>)
    requires multiset(a) == multiset(b) && ShortNames(a)
    ensures ShortNames(b)
  {
    forall i | 0 <= i < |b| ensures |FullName(b[i])| <= MAX_NAME {
      assert b[i] in multiset(a);
    }
  }

  /** Whatever its mode, a composition never yields two composite devices of one name. */
  lemma PairingNamesDistinct(st: Setting, comp: Config.Composition, devs: Avail<Device>, result: seq<CompositeDevice>)
    requires PlainSources(devs) && comp.members != [] && DistinctSources(comp.members) && PositiveCounts(comp.members)
    requires IsPairing(st, comp, devs, result) && ShortNames(result)
    ensures NoDup(Map(result, NameOf))
  {
    var test := FilterTest(comp.filters, st.cel);
    var fewer := Filtered(comp.members, devs, test);
    FilteredPlain(comp.members, devs, test);
    var same: seq<CompositeDevice>;
    if comp.Explicit() {
      same := ExplicitCase(st, comp, fewer, result);
    } else if comp.constraints == [] {
      same := Map(Combos(comp.members, fewer), Builder(st.srcs, comp));
      ShortNamesAnyOrder(result, same);
      SingleNamesDistinct(st.srcs, comp, fewer);
    } else {
      var attr := comp.constraints[0].attribute;
      var order :| IsOrder(comp.members, fewer, attr, order) && multiset(result) == multiset(Matched(st.srcs, comp, fewer, attr, order));
      same := Matched(st.srcs, comp, fewer, attr, order);
      ShortNamesAnyOrder(result, same);
      MatchedNamesDistinct(st.srcs, comp, fewer, attr, order);
    }
    NamesApartMeans(result);
    NamesApartMeans(same);
  }

  lemma ExplicitCase(st: Setting, comp: Config.Composition, devs: Avail<Device>, result: seq<CompositeDevice>) returns (same: seq<CompositeDevice>)
    requires PlainSources(devs) && comp.members != [] && DistinctSources(comp.members) && PositiveCounts(comp.members)
    requires ShortNames(result) && exists outs :: IsExplicit(st.srcs, comp, st.cel, st.labels, devs, result, outs)
    ensures multiset(same) == multiset(result) && NoDup(Map(same, NameOf))
  {
    var outs :| IsExplicit(st.srcs, comp, st.cel, st.labels, devs, result, outs);
    if result == [] {
      same := [];
    } else {
      var k: nat :| IsPool(comp, st.labels, k)
        && Greedy(st.cel.value, comp.members, devs, comp.nodePools[k].pairs, outs)
        && multiset(result) == multiset(Kept(st.srcs, comp, comp.nodePools[k].pairs, outs));
      same := Kept(st.srcs, comp, comp.nodePools[k].pairs, outs);
      ShortNamesAnyOrder(result, same);
      ExplicitNamesDistinct(st.srcs, comp, st.cel.value, devs, comp.nodePools[k].pairs, outs);
    }
  }
}
