/**
 Source filters commute with pairing: filtering first and pairing then gives the same
 composite devices as pairing everything and keeping those whose members all pass.
 */
module FilterPairing {

  import opened Options
  import opened Seqs
  import opened Combinations
  import opened DeviceModel
  import opened Pairing
  import opened MatchPairing
  import Config

  function SourceSet(ms: Members): set<string> {
    set i | 0 <= i < |ms| :: ms[i].source
  }

  /** The `filtered` map of computeForComposition. */
  function Filtered(ms: Members, devs: Avail<Device>, test: Test): Avail<Device> {
    map s | s in SourceSet(ms) :: Passing(At(devs, s), s, test)
  }

  predicate Every<T>(t: seq<T>, p: T -> bool) {
    forall i :: 0 <= i < |t| ==> p(t[i])
  }

  /** The selections all of whose devices pass. */
  function KeepAll<T>(ss: seq<seq<T>>, p: T -> bool): seq<seq<T>> {
    if ss == [] then [] else (if Every(ss[0], p) then [ss[0]] else []) + KeepAll(ss[1..], p)
  }

  predicate EveryIn(c: Avail<Device>, test: Test) {
    forall s :: s in c ==> Every(c[s], ForSource(test, s))
  }

  function ComboPasses(test: Test): Avail<Device> -> bool {
    c => EveryIn(c, test)
  }

  predicate EveryPasses(ds: seq<DeviceMember>, test: Test) {
    forall i :: 0 <= i < |ds| ==> test(ds[i].source, ds[i].device)
  }

  /** All members of a composite device pass the filter of their source. */
  function MembersPass(test: Test): CompositeDevice -> bool {
    (cd: CompositeDevice) => EveryPasses(cd.mapping.members, test)
  }

  // ---------- Within one source ----------

  lemma EveryCons<T>(x: T, t: seq<T>, p: T -> bool)
    ensures Every([x] + t, p) <==> p(x) && Every(t, p)
  {
    var u := [x] + t;
    assert u[0] == x && forall i :: 0 <= i < |t| ==> u[i + 1] == t[i];
  }

  function KeepFirst<T>(t: seq<T>, p: T -> bool): seq<seq<T>> {
    if Every(t, p) then [t] else []
  }

  lemma KeepHead<T>(ss: seq<seq<T>>, p: T -> bool)
    requires ss != []
    ensures KeepAll(ss, p) == KeepFirst(ss[0], p) + KeepAll(ss[1..], p)
  {
  }

  lemma Glue<T>(a: seq<T>, b: seq<T>, c: seq<T>)
    ensures a + (b + c) == a + b + c
  {
  }

  lemma {:induction false} KeepAppend<T>(a: seq<seq<T>>, b: seq<seq<T>>, p: T -> bool)
    ensures KeepAll(a + b, p) == KeepAll(a, p) + KeepAll(b, p)
  {
    if a == [] {
      assert a + b == b;
    } else {
      KeepAppend(a[1..], b, p);
      assert (a + b)[1..] == a[1..] + b && (a + b)[0] == a[0];
      KeepHead(a + b, p);
      KeepHead(a, p);
      Glue(KeepFirst(a[0], p), KeepAll(a[1..], p), KeepAll(b, p));
    }
  }

  lemma {:induction false} KeepPrefixed<T>(x: T, a: seq<seq<T>>, p: T -> bool)
    ensures KeepAll(Prefix([x], a), p) == if p(x) then Prefix([x], KeepAll(a, p)) else []
  {
    if a == [] {
    } else {
      KeepPrefixed(x, a[1..], p);
      assert Prefix([x], a)[1..] == Prefix([x], a[1..]);
      EveryCons(x, a[0], p);
      var head := if Every(a[0], p) then [a[0]] else [];
      PrefixAppend([x], head, KeepAll(a[1..], p));
    }
  }

  lemma FilterHead<T>(s: seq<T>, p: T -> bool)
    requires s != []
    ensures if p(s[0]) then Filter(s, p) != [] && Filter(s, p)[0] == s[0] && Filter(s, p)[1..] == Filter(s[1..], p)
            else Filter(s, p) == Filter(s[1..], p)
  {
  }

  lemma KeepSubs<T>(s: seq<T>, p: T -> bool, k: nat)
    requires s != [] && k > 0
    ensures KeepAll(Subs(s, k), p)
         == (if p(s[0]) then Prefix([s[0]], KeepAll(Subs(s[1..], k - 1), p)) else []) + KeepAll(Subs(s[1..], k), p)
  {
    KeepAppend(Prefix([s[0]], Subs(s[1..], k - 1)), Subs(s[1..], k), p);
    KeepPrefixed(s[0], Subs(s[1..], k - 1), p);
  }

  lemma KeepNothingChosen<T>(p: T -> bool)
    ensures KeepAll([[]], p) == [[]]
  {
    assert Every([], p);
    assert KeepAll([[]], p) == [[]] + KeepAll([[]][1..], p);
  }

  lemma SubsFilterStep<T>(s: seq<T>, p: T -> bool, k: nat)
    requires s != [] && k > 0
    requires Subs(Filter(s[1..], p), k - 1) == KeepAll(Subs(s[1..], k - 1), p)
    requires Subs(Filter(s[1..], p), k) == KeepAll(Subs(s[1..], k), p)
    ensures Subs(Filter(s, p), k) == KeepAll(Subs(s, k), p)
  {
    KeepSubs(s, p, k);
    if !p(s[0]) {
      FilterHead(s, p);
    }
  }

  /** Choosing from the devices that pass is choosing and keeping what passes. */
  lemma {:induction false} SubsFilter<T>(s: seq<T>, p: T -> bool, k: nat)
    ensures Subs(Filter(s, p), k) == KeepAll(Subs(s, k), p)
  {
    if k == 0 {
      KeepNothingChosen(p);
    } else if s != [] {
      SubsFilter(s[1..], p, k - 1);
      SubsFilter(s[1..], p, k);
      SubsFilterStep(s, p, k);
    }
  }

  // ---------- Across members ----------

  lemma UpdatePasses(source: string, pick: seq<Device>, sub: Avail<Device>, test: Test)
    requires source !in sub
    ensures EveryIn(sub[source := pick], test) <==> Every(pick, ForSource(test, source)) && EveryIn(sub, test)
  {
    var c := sub[source := pick];
    assert forall s :: s in c <==> s == source || s in sub;
    assert forall s :: s in sub ==> c[s] == sub[s];
  }

  lemma WithPickAppend<T>(source: string, pick: seq<T>, a: seq<Avail<T>>, b: seq<Avail<T>>)
    ensures WithPick(source, pick, a + b) == WithPick(source, pick, a) + WithPick(source, pick, b)
  {
  }

  lemma {:induction false} WithPickFilter(source: string, pick: seq<Device>, subs: seq<Avail<Device>>, test: Test)
    requires forall s :: s in subs ==> source !in s
    ensures Filter(WithPick(source, pick, subs), ComboPasses(test))
         == if Every(pick, ForSource(test, source)) then WithPick(source, pick, Filter(subs, ComboPasses(test))) else []
  {
    if subs == [] {
    } else {
      WithPickFilter(source, pick, subs[1..], test);
      assert WithPick(source, pick, subs)[1..] == WithPick(source, pick, subs[1..]);
      UpdatePasses(source, pick, subs[0], test);
      var head := if EveryIn(subs[0], test) then [subs[0]] else [];
      WithPickAppend(source, pick, head, Filter(subs[1..], ComboPasses(test)));
    }
  }

  lemma {:induction false} ExtendFilter(source: string, picks: seq<seq<Device>>, subs: seq<Avail<Device>>, test: Test)
    requires forall s :: s in subs ==> source !in s
    ensures Extend(source, KeepAll(picks, ForSource(test, source)), Filter(subs, ComboPasses(test)))
         == Filter(Extend(source, picks, subs), ComboPasses(test))
  {
    if picks == [] {
    } else {
      ExtendFilter(source, picks[1..], subs, test);
      WithPickFilter(source, picks[0], subs, test);
      FilterAppend(WithPick(source, picks[0], subs), Extend(source, picks[1..], subs), ComboPasses(test));
      var kept, rest := KeepAll(picks, ForSource(test, source)), KeepAll(picks[1..], ForSource(test, source));
      var few := Filter(subs, ComboPasses(test));
      if Every(picks[0], ForSource(test, source)) {
        assert kept == [picks[0]] + rest && kept[1..] == rest;
        assert Extend(source, kept, few) == WithPick(source, picks[0], few) + Extend(source, rest, few);
      } else {
        assert kept == rest;
      }
    }
  }

  lemma {:induction false} CombosKeys<T>(ms: Members, avail: Avail<T>, c: Avail<T>)
    requires c in Combos(ms, avail)
    ensures forall s :: s in c <==> HasSource(ms, s)
  {
    if ms == [] {
    } else {
      var p, sub := ExtendOnly(ms[0].source, Picks(At(avail, ms[0].source), ms[0].count), Combos(ms[1..], avail), c);
      CombosKeys(ms[1..], avail, sub);
      SourcesSplit(ms);
    }
  }

  /** Combos looks only at the sources of its members. */
  lemma {:induction false} CombosCongruent<T>(ms: Members, a: Avail<T>, b: Avail<T>)
    requires forall i :: 0 <= i < |ms| ==> At(a, ms[i].source) == At(b, ms[i].source)
    ensures Combos(ms, a) == Combos(ms, b)
  {
    if ms == [] {
    } else {
      CombosCongruent(ms[1..], a, b);
    }
  }

  lemma {:induction false} CombosFilter(ms: Members, avail: Avail<Device>, fewer: Avail<Device>, test: Test)
    requires DistinctSources(ms)
    requires forall i :: 0 <= i < |ms| ==> At(fewer, ms[i].source) == Passing(At(avail, ms[i].source), ms[i].source, test)
    ensures Combos(ms, fewer) == Filter(Combos(ms, avail), ComboPasses(test))
  {
    if ms == [] {
      assert EveryIn(map[], test);
    } else {
      var m := ms[0];
      CombosFilter(ms[1..], avail, fewer, test);
      assert At(fewer, m.source) == Passing(At(avail, m.source), m.source, test);
      if m.count > 0 {
        SubsFilter(At(avail, m.source), ForSource(test, m.source), m.count);
      }
      SourceNotRepeated(ms);
      forall s | s in Combos(ms[1..], avail) ensures m.source !in s {
        CombosKeys(ms[1..], avail, s);
      }
      ExtendFilter(m.source, Picks(At(avail, m.source), m.count), Combos(ms[1..], avail), test);
    }
  }

  // ---------- On composite devices ----------

  lemma EveryPassesAppend(a: seq<DeviceMember>, b: seq<DeviceMember>, test: Test)
    ensures EveryPasses(a + b, test) <==> EveryPasses(a, test) && EveryPasses(b, test)
  {
    var all := a + b;
    assert forall i :: 0 <= i < |a| ==> all[i] == a[i];
    assert forall i :: 0 <= i < |b| ==> all[|a| + i] == b[i];
  }

  lemma FromPasses(src: Config.Source, devs: seq<Device>, test: Test)
    ensures EveryPasses(MembersFrom(src, devs), test) <==> Every(devs, ForSource(test, src.name))
  {
    var ds := MembersFrom(src, devs);
    assert forall i :: 0 <= i < |devs| ==> ds[i].source == src.name && ds[i].device == devs[i];
  }

  predicate MembersEvery(ms: Members, combo: Avail<Device>, test: Test) {
    forall j :: 0 <= j < |ms| ==> Every(At(combo, ms[j].source), ForSource(test, ms[j].source))
  }

  /** A combination passes exactly when all members of its composite device do. */
  lemma {:induction false} BuiltPasses(srcs: Sources, ms: Members, combo: Avail<Device>, test: Test)
    requires Indexed(srcs) && Known(srcs, ms)
    ensures EveryPasses(AllMembers(srcs, ms, combo), test) <==> MembersEvery(ms, combo, test)
  {
    if ms == [] {
    } else {
      var src := ms[0].source;
      BuiltPasses(srcs, ms[1..], combo, test);
      EveryPassesAppend(MembersFrom(SourceOf(srcs, src), At(combo, src)), AllMembers(srcs, ms[1..], combo), test);
      FromPasses(SourceOf(srcs, src), At(combo, src), test);
      assert MembersEvery(ms, combo, test) <==> Every(At(combo, src), ForSource(test, src)) && MembersEvery(ms[1..], combo, test) by {
        assert forall j :: 0 <= j < |ms[1..]| ==> ms[1..][j] == ms[j + 1];
      }
    }
  }

  lemma ComboPassesByMembers(ms: Members, combo: Avail<Device>, test: Test)
    requires forall s :: s in combo <==> HasSource(ms, s)
    ensures EveryIn(combo, test) <==> MembersEvery(ms, combo, test)
  {
    if MembersEvery(ms, combo, test) {
      forall s | s in combo ensures Every(combo[s], ForSource(test, s)) {
        var i :| 0 <= i < |ms| && ms[i].source == s;
      }
    }
  }

  /** Building the composite devices of the passing combinations is building all and
      keeping those whose members pass. */
  lemma BuildFilter(srcs: Sources, comp: Config.Composition, avail: Avail<Device>, fewer: Avail<Device>, test: Test)
    requires Indexed(srcs) && Known(srcs, comp.members) && DistinctSources(comp.members)
    requires forall i :: 0 <= i < |comp.members| ==>
      At(fewer, comp.members[i].source) == Passing(At(avail, comp.members[i].source), comp.members[i].source, test)
    ensures Map(Combos(comp.members, fewer), Builder(srcs, comp))
         == Filter(Map(Combos(comp.members, avail), Builder(srcs, comp)), MembersPass(test))
  {
    var ms, cs := comp.members, Combos(comp.members, avail);
    CombosFilter(ms, avail, fewer, test);
    forall c | c in cs ensures MembersPass(test)(Builder(srcs, comp)(c)) <==> ComboPasses(test)(c) {
      CombosKeys(ms, avail, c);
      ComboPassesByMembers(ms, c, test);
      BuiltPasses(srcs, ms, c, test);
    }
    FilterMap(cs, Builder(srcs, comp), MembersPass(test), ComboPasses(test));
  }

  // ---------- The auto modes ----------

  /** Filtering and pairing commute for a composition without constraints. */
  lemma SingleFilterCommutes(srcs: Sources, comp: Config.Composition, devs: Avail<Device>, test: Test)
    requires Indexed(srcs) && Known(srcs, comp.members) && DistinctSources(comp.members)
    ensures Map(Combos(comp.members, Filtered(comp.members, devs, test)), Builder(srcs, comp))
         == Filter(Map(Combos(comp.members, devs), Builder(srcs, comp)), MembersPass(test))
  {
    var ms := comp.members;
    assert forall i :: 0 <= i < |ms| ==> At(Filtered(ms, devs, test), ms[i].source) == Passing(At(devs, ms[i].source), ms[i].source, test);
    BuildFilter(srcs, comp, devs, Filtered(ms, devs, test), test);
  }

  lemma GroupOfFiltered(ms: Members, devs: Avail<Device>, test: Test, attr: string, v: string, i: nat)
    requires DistinctSources(ms) && i < |ms|
    ensures At(Group(ms, Filtered(ms, devs, test), attr, v), ms[i].source)
         == Passing(At(Group(ms, devs, attr, v), ms[i].source), ms[i].source, test)
  {
    var s := ms[i].source;
    GroupIs(ms, Filtered(ms, devs, test), attr, v, s);
    GroupIs(ms, devs, attr, v, s);
    FilterCommutes(At(devs, s), ForSource(test, s), ForSource(HasValue(attr, v), s));
  }

  /** A value that no filtered device has contributes nothing. */
  lemma NoValueNoPiece(srcs: Sources, comp: Config.Composition, devs: Avail<Device>, attr: string, v: string)
    requires comp.members != [] && DistinctSources(comp.members) && PositiveCounts(comp.members)
    requires !Occurs(comp.members, devs, attr, v)
    ensures Piece(srcs, comp, devs, attr)(v) == []
  {
    var ms, cs := comp.members, Choices(comp.members, Group(comp.members, devs, attr, v));
    CombosByChoice(ms, Group(ms, devs, attr, v));
    if cs != [] {
      assert cs[0] in cs;
      ChoicesExact(ms, Group(ms, devs, attr, v), cs[0]);
      ValidChoiceOccurs(ms, devs, attr, v, cs[0]);
    }
  }

  lemma OccursFiltered(ms: Members, devs: Avail<Device>, test: Test, attr: string, v: string)
    requires Occurs(ms, Filtered(ms, devs, test), attr, v)
    ensures Occurs(ms, devs, attr, v)
  {
    var i, d :| 0 <= i < |ms| && d in At(Filtered(ms, devs, test), ms[i].source) && AttributeString(d.attrs, attr) == Some(v);
    FilterMember(At(devs, ms[i].source), ForSource(test, ms[i].source), d);
  }

  lemma PieceFilter(srcs: Sources, comp: Config.Composition, devs: Avail<Device>, test: Test, attr: string, v: string)
    requires Indexed(srcs) && Known(srcs, comp.members) && DistinctSources(comp.members)
    ensures Piece(srcs, comp, Filtered(comp.members, devs, test), attr)(v) == Filter(Piece(srcs, comp, devs, attr)(v), MembersPass(test))
  {
    var ms, fewer := comp.members, Filtered(comp.members, devs, test);
    forall i | 0 <= i < |ms|
      ensures At(Group(ms, fewer, attr, v), ms[i].source) == Passing(At(Group(ms, devs, attr, v), ms[i].source), ms[i].source, test)
    {
      GroupOfFiltered(ms, devs, test, attr, v, i);
    }
    BuildFilter(srcs, comp, Group(ms, devs, attr, v), Group(ms, fewer, attr, v), test);
  }

  /** Filtering and pairing commute for matchAttribute, whatever the orders of the groups. */
  lemma MatchingFilterCommutes(srcs: Sources, comp: Config.Composition, devs: Avail<Device>, test: Test, attr: string,
                               o1: seq<string>, o2: seq<string>)
    requires Indexed(srcs) && Known(srcs, comp.members)
    requires comp.members != [] && DistinctSources(comp.members) && PositiveCounts(comp.members)
    requires IsOrder(comp.members, Filtered(comp.members, devs, test), attr, o1) && IsOrder(comp.members, devs, attr, o2)
    ensures multiset(Matched(srcs, comp, Filtered(comp.members, devs, test), attr, o1))
         == multiset(Filter(Matched(srcs, comp, devs, attr, o2), MembersPass(test)))
  {
    var ms, fewer := comp.members, Filtered(comp.members, devs, test);
    var f, g := Piece(srcs, comp, fewer, attr), Piece(srcs, comp, devs, attr);
    forall v ensures f(v) == Filter(g(v), MembersPass(test)) {
      PieceFilter(srcs, comp, devs, test, attr, v);
    }
    FlatMapFilter(o2, f, g, MembersPass(test));
    forall v | v in o2 && v !in o1 ensures f(v) == [] {
      NoValueNoPiece(srcs, comp, fewer, attr, v);
    }
    forall v | v in o1 ensures v in o2 {
      OccursFiltered(ms, devs, test, attr, v);
    }
    FlatMapAnyOrder(o1, o2, f);
  }
}
