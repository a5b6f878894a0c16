/**
 Which composite devices a composition has, said of the devices, filters, selectors and
 labels themselves: positions in the lists of devices that the drivers report.
 */
module PairedExactly {

  import opened Options
  import opened Seqs
  import opened Combinations
  import opened Names
  import opened DeviceModel
  import opened Pairing
  import opened MatchPairing
  import opened FilterPairing
  import opened ExplicitPairing
  import opened Pairer
  import opened ExplicitPairer
  import opened Compositions
  import opened AttributeMatching
  import Config

  // ---------- Filters ----------

  /** A filter only rejects what CEL does not match. */
  predicate Admits(st: Setting, comp: Config.Composition, source: string, d: Device) {
    source in comp.filters && comp.filters[source] != "" && st.cel.Some? ==> st.cel.value(comp.filters[source], d.attrs)
  }

  /** A member source is left with the devices that its filter admits: each of them once,
      in the order of the driver's list. */
  lemma FilteredExactly(st: Setting, comp: Config.Composition, devs: Avail<Device>, i: nat) returns (at: seq<nat>)
    requires i < |comp.members| && comp.members[i].source in devs
    ensures var source := comp.members[i].source;
      var fewer := Filtered(comp.members, devs, FilterTest(comp.filters, st.cel));
      && Increasing(at, 0, |devs[source]|)
      && (forall j :: 0 <= j < |devs[source]| ==> (j in at <==> Admits(st, comp, source, devs[source][j])))
      && source in fewer && |fewer[source]| == |at|
      && (forall k :: 0 <= k < |at| ==> fewer[source][k] == devs[source][at[k]])
  {
    var source := comp.members[i].source;
    at := FilterKeeps(devs[source], ForSource(FilterTest(comp.filters, st.cel), source));
  }

  // ---------- The auto modes ----------

  /** The members that positions in a driver's list stand for. */
  function Part(src: Config.Source, devs: seq<Device>, at: seq<nat>): (r: seq<DeviceMember>)
    requires forall k :: 0 <= k < |at| ==> at[k] < |devs|
  {
    seq(|at|, k requires 0 <= k < |at| => DeviceMember(src.name, src.driver, src.deviceClass, devs[at[k]]))
  }

  /** Positions for every member: as many as it counts, in order, within the driver's list. */
  ghost predicate Positions(ms: Members, devs: Avail<Device>, at: seq<seq<nat>>) {
    |at| == |ms| && forall i :: 0 <= i < |ms| ==>
      ms[i].source in devs && |at[i]| == ms[i].count && Increasing(at[i], 0, |devs[ms[i].source]|)
  }

  ghost function Parts(srcs: Sources, ms: Members, devs: Avail<Device>, at: seq<seq<nat>>): (r: seq<seq<DeviceMember>>)
    requires Positions(ms, devs, at) && Known(srcs, ms)
    ensures |r| == |ms|
  {
    seq(|ms|, i requires 0 <= i < |ms| => Part(srcs[ms[i].source], devs[ms[i].source], at[i]))
  }

  ghost predicate AllAdmitted(st: Setting, comp: Config.Composition, devs: Avail<Device>, at: seq<seq<nat>>)
    requires Positions(comp.members, devs, at)
  {
    forall i, k :: 0 <= i < |at| && 0 <= k < |at[i]| ==>
      Admits(st, comp, comp.members[i].source, devs[comp.members[i].source][at[i][k]])
  }

  ghost predicate AllMatching(key: string, ms: Members, devs: Avail<Device>, at: seq<seq<nat>>)
    requires Positions(ms, devs, at)
  {
    forall i, k, j, l :: 0 <= i < |at| && 0 <= k < |at[i]| && 0 <= j < |at| && 0 <= l < |at[j]| ==>
      Matching(key, devs[ms[i].source][at[i][k]], devs[ms[j].source][at[j][l]])
  }

  /** cd is made of the devices at these positions, all admitted by their filters and, with
      a constraint, all of one value of the first one. */
  ghost predicate ComposedOf(st: Setting, comp: Config.Composition, devs: Avail<Device>, cd: CompositeDevice, at: seq<seq<nat>>)
    requires Known(st.srcs, comp.members)
  {
    && Positions(comp.members, devs, at)
    && AllAdmitted(st, comp, devs, at)
    && (comp.constraints != [] ==> AllMatching(comp.constraints[0].attribute, comp.members, devs, at))
    && cd.mapping == Mapping(comp.name, Concat(Parts(st.srcs, comp.members, devs, at)), 0)
    && cd.name == CompositeName(NamesOf(cd.mapping.members))
  }

  /** The combination of the devices at the given positions. */
  ghost predicate IsAt(ms: Members, devs: Avail<Device>, at: seq<seq<nat>>, c: Avail<Device>)
    requires Positions(ms, devs, at)
  {
    && (forall s :: s in c <==> HasSource(ms, s))
    && (forall i, k :: 0 <= i < |ms| && 0 <= k < |at[i]| ==>
          ms[i].source in c && k < |c[ms[i].source]| && c[ms[i].source][k] == devs[ms[i].source][at[i][k]])
    && (forall i :: 0 <= i < |ms| && ms[i].source in c ==> |c[ms[i].source]| == |at[i]|)
  }

  lemma SelectedAt(ms: Members, devs: Avail<Device>, at: seq<seq<nat>>, ch: Choice)
    requires Positions(ms, devs, at) && forall i :: 0 <= i < |ms| ==> ms[i].source in ch && ch[ms[i].source] == at[i]
    requires forall s :: s in ch <==> HasSource(ms, s)
    ensures IsAt(ms, devs, at, Select(devs, ch))
  {
    forall i | 0 <= i < |ms| ensures Select(devs, ch)[ms[i].source] == Pick(devs[ms[i].source], at[i]) {
    }
    forall i | 0 <= i < |ms|
      ensures |Pick(devs[ms[i].source], at[i])| == |at[i]|
      ensures forall k :: 0 <= k < |at[i]| ==> Pick(devs[ms[i].source], at[i])[k] == devs[ms[i].source][at[i][k]]
    {
      PickAt(devs[ms[i].source], at[i]);
    }
  }

  lemma ComboToPositions(ms: Members, devs: Avail<Device>, c: Avail<Device>) returns (at: seq<seq<nat>>)
    requires DistinctSources(ms) && PositiveCounts(ms) && c in Combos(ms, devs)
    ensures Positions(ms, devs, at) && IsAt(ms, devs, at, c)
  {
    CombosByChoice(ms, devs);
    var n :| 0 <= n < |Combos(ms, devs)| && Combos(ms, devs)[n] == c;
    var ch := Choices(ms, devs)[n];
    ChoicesExact(ms, devs, ch);
    assert forall i :: 0 <= i < |ms| ==> ValidPick(ms[i], devs, ch);
    at := seq(|ms|, i requires 0 <= i < |ms| => ch[ms[i].source]);
    forall i | 0 <= i < |ms| ensures ms[i].source in devs {
      assert at[i][0] < |At(devs, ms[i].source)|;
    }
    SelectedAt(ms, devs, at, ch);
  }

  lemma PositionsToCombo(ms: Members, devs: Avail<Device>, at: seq<seq<nat>>) returns (c: Avail<Device>)
    requires DistinctSources(ms) && PositiveCounts(ms) && Positions(ms, devs, at)
    ensures c in Combos(ms, devs) && IsAt(ms, devs, at, c)
  {
    var ch := ChoiceAt(ms, at);
    forall i | 0 <= i < |ms| ensures ms[i].source in ch && ch[ms[i].source] == at[i] {
      ChoiceAtIs(ms, at, i);
    }
    ChoiceAtKeys(ms, at);
    assert forall i :: 0 <= i < |ms| ==> ValidPick(ms[i], devs, ch);
    ChoicesExact(ms, devs, ch);
    CombosByChoice(ms, devs);
    var n :| 0 <= n < |Choices(ms, devs)| && Choices(ms, devs)[n] == ch;
    c := Combos(ms, devs)[n];
    SelectedAt(ms, devs, at, ch);
  }

  /** Each member's positions under its source. */
  function ChoiceAt(ms: Members, at: seq<seq<nat>>): Choice
    requires |at| == |ms|
  {
    if ms == [] then map[] else ChoiceAt(ms[..|ms| - 1], at[..|ms| - 1])[ms[|ms| - 1].source := at[|ms| - 1]]
  }

  lemma {:induction false} ChoiceAtIs(ms: Members, at: seq<seq<nat>>, i: nat)
    requires DistinctSources(ms) && |at| == |ms| && i < |ms|
    ensures ms[i].source in ChoiceAt(ms, at) && ChoiceAt(ms, at)[ms[i].source] == at[i]
  {
    if i < |ms| - 1 {
      ChoiceAtIs(ms[..|ms| - 1], at[..|ms| - 1], i);
    }
  }

  lemma {:induction false} ChoiceAtKeys(ms: Members, at: seq<seq<nat>>)
    requires |at| == |ms|
    ensures forall s :: s in ChoiceAt(ms, at) <==> HasSource(ms, s)
  {
    if ms != [] {
      var front := ms[..|ms| - 1];
      ChoiceAtKeys(front, at[..|ms| - 1]);
      assert ms == front + [ms[|ms| - 1]];
      forall s ensures HasSource(ms, s) <==> HasSource(front, s) || s == ms[|ms| - 1].source {
        SourceNext(front, ms[|ms| - 1], s);
      }
    }
  }

  /** The combination holds, for a member, the devices at the given positions. */
  predicate PicksAt(m: Config.Member, devs: Avail<Device>, at: seq<nat>, c: Avail<Device>) {
    && m.source in c && m.source in devs && |c[m.source]| == |at|
    && forall k :: 0 <= k < |at| ==> at[k] < |devs[m.source]| && c[m.source][k] == devs[m.source][at[k]]
  }

  lemma PartsNext(srcs: Sources, ms: Members, devs: Avail<Device>, at: seq<seq<nat>>)
    requires ms != [] && Known(srcs, ms) && Positions(ms, devs, at)
    ensures var n := |ms| - 1; Positions(ms[..n], devs, at[..n])
    ensures var n := |ms| - 1;
      (forall k :: 0 <= k < |at[n]| ==> at[n][k] < |devs[ms[n].source]|)
      && Parts(srcs, ms, devs, at) == Parts(srcs, ms[..n], devs, at[..n]) + [Part(srcs[ms[n].source], devs[ms[n].source], at[n])]
  {
  }

  lemma PartIs(srcs: Sources, m: Config.Member, devs: Avail<Device>, at: seq<nat>, c: Avail<Device>)
    requires m.source in srcs && PicksAt(m, devs, at, c)
    ensures Part(srcs[m.source], devs[m.source], at) == MembersFrom(SourceOf(srcs, m.source), At(c, m.source))
  {
  }

  lemma MembersNext(srcs: Sources, front: Members, m: Config.Member, c: Avail<Device>, parts: seq<seq<DeviceMember>>)
    requires AllMembers(srcs, front, c) == Concat(parts)
    ensures AllMembers(srcs, front + [m], c) == Concat(parts + [MembersFrom(SourceOf(srcs, m.source), At(c, m.source))])
  {
    AllMembersAppend(srcs, front, m, c);
    ConcatNext(parts, MembersFrom(SourceOf(srcs, m.source), At(c, m.source)));
  }

  /** The members of the composite device, one part per member of the composition. */
  lemma {:induction false} MembersAre(srcs: Sources, ms: Members, devs: Avail<Device>, at: seq<seq<nat>>, c: Avail<Device>)
    requires Known(srcs, ms) && Positions(ms, devs, at) && forall i :: 0 <= i < |ms| ==> PicksAt(ms[i], devs, at[i], c)
    ensures AllMembers(srcs, ms, c) == Concat(Parts(srcs, ms, devs, at))
  {
    if ms != [] {
      var n := |ms| - 1;
      var front, m := ms[..n], ms[n];
      PartsNext(srcs, ms, devs, at);
      forall i | 0 <= i < n ensures PicksAt(front[i], devs, at[..n][i], c) {
        assert PicksAt(ms[i], devs, at[i], c);
      }
      MembersAre(srcs, front, devs, at[..n], c);
      PartIs(srcs, m, devs, at[n], c);
      MembersNext(srcs, front, m, c, Parts(srcs, front, devs, at[..n]));
      assert ms == front + [m];
    }
  }

  lemma AdmittedByTest(st: Setting, comp: Config.Composition, devs: Avail<Device>, at: seq<seq<nat>>, c: Avail<Device>)
    requires Positions(comp.members, devs, at) && IsAt(comp.members, devs, at, c)
    ensures EveryIn(c, FilterTest(comp.filters, st.cel)) <==> AllAdmitted(st, comp, devs, at)
  {
    var ms, test := comp.members, FilterTest(comp.filters, st.cel);
    if AllAdmitted(st, comp, devs, at) {
      forall s | s in c ensures Every(c[s], ForSource(test, s)) {
        var i :| 0 <= i < |ms| && ms[i].source == s;
        assert forall k :: 0 <= k < |c[s]| ==> c[s][k] == devs[s][at[i][k]] && Admits(st, comp, s, devs[s][at[i][k]]);
      }
    }
    if EveryIn(c, test) {
      forall i, k | 0 <= i < |at| && 0 <= k < |at[i]| ensures Admits(st, comp, ms[i].source, devs[ms[i].source][at[i][k]]) {
        assert ms[i].source in c && Every(c[ms[i].source], ForSource(test, ms[i].source));
        assert ForSource(test, ms[i].source)(c[ms[i].source][k]);
      }
    }
  }

  lemma MatchingByAgree(key: string, ms: Members, devs: Avail<Device>, at: seq<seq<nat>>, c: Avail<Device>)
    requires Positions(ms, devs, at) && IsAt(ms, devs, at, c)
    ensures Agree(key, c) <==> AllMatching(key, ms, devs, at)
  {
    if AllMatching(key, ms, devs, at) {
      forall s, t, k, l | s in c && t in c && 0 <= k < |c[s]| && 0 <= l < |c[t]| ensures Matching(key, c[s][k], c[t][l]) {
        var i :| 0 <= i < |ms| && ms[i].source == s;
        var j :| 0 <= j < |ms| && ms[j].source == t;
        assert Matching(key, devs[ms[i].source][at[i][k]], devs[ms[j].source][at[j][l]]);
      }
    }
    if Agree(key, c) {
      forall i, k, j, l | 0 <= i < |at| && 0 <= k < |at[i]| && 0 <= j < |at| && 0 <= l < |at[j]|
        ensures Matching(key, devs[ms[i].source][at[i][k]], devs[ms[j].source][at[j][l]])
      {
        assert Matching(key, c[ms[i].source][k], c[ms[j].source][l]);
      }
    }
  }

  /** A combination that pairing keeps. */
  ghost predicate Eligible(st: Setting, comp: Config.Composition, c: Avail<Device>) {
    EveryIn(c, FilterTest(comp.filters, st.cel)) && (comp.constraints != [] ==> Agree(comp.constraints[0].attribute, c))
  }

  lemma SameElements<T>(a: seq<T>, b: seq<T>, x: T)
    requires multiset(a) == multiset(b)
    ensures x in a <==> x in b
  {
    assert x in a <==> x in multiset(a);
    assert x in b <==> x in multiset(b);
  }

  /** The combinations that pairing keeps. */
  lemma KeptCombos(st: Setting, comp: Config.Composition, devs: Avail<Device>) returns (kept: seq<Avail<Device>>)
    requires DistinctSources(comp.members)
    ensures var few := Combos(comp.members, Filtered(comp.members, devs, FilterTest(comp.filters, st.cel)));
      kept == if comp.constraints == [] then few else Filter(few, Agreeing(comp.constraints[0].attribute))
    ensures forall c :: c in kept <==> c in Combos(comp.members, devs) && Eligible(st, comp, c)
  {
    var test := FilterTest(comp.filters, st.cel);
    var all, few := Combos(comp.members, devs), Combos(comp.members, Filtered(comp.members, devs, test));
    CombosFilter(comp.members, devs, Filtered(comp.members, devs, test), test);
    kept := if comp.constraints == [] then few else Filter(few, Agreeing(comp.constraints[0].attribute));
    forall c ensures c in kept <==> c in all && Eligible(st, comp, c) {
      FilterMember(all, ComboPasses(test), c);
      if comp.constraints != [] {
        FilterMember(few, Agreeing(comp.constraints[0].attribute), c);
      }
    }
  }

  lemma ByCombination(st: Setting, comp: Config.Composition, devs: Avail<Device>, result: seq<CompositeDevice>, cd: CompositeDevice)
    requires Usable(st.srcs, comp) && comp.members != [] && DistinctSources(comp.members)
    requires !comp.Explicit() && IsPairing(st, comp, devs, result)
    ensures cd in result <==> exists c :: c in Combos(comp.members, devs) && Eligible(st, comp, c) && Build(st.srcs, comp, c) == cd
  {
    var kept := KeptCombos(st, comp, devs);
    if comp.constraints != [] {
      MatchedByTypedValue(st, comp, devs, result);
    }
    SameElements(result, Map(kept, Builder(st.srcs, comp)), cd);
    MapMember(kept, Builder(st.srcs, comp), cd);
  }

  /** The composite devices of an auto composition are exactly those made of `Count`
      devices per member that the filters admit and whose values match. */
  lemma AutoPairingExactly(st: Setting, comp: Config.Composition, devs: Avail<Device>, result: seq<CompositeDevice>, cd: CompositeDevice)
    requires Usable(st.srcs, comp) && comp.members != [] && DistinctSources(comp.members)
    requires !comp.Explicit() && IsPairing(st, comp, devs, result)
    ensures cd in result <==> exists at :: ComposedOf(st, comp, devs, cd, at)
  {
    var ms := comp.members;
    ByCombination(st, comp, devs, result, cd);
    if cd in result {
      var c :| c in Combos(ms, devs) && Eligible(st, comp, c) && Build(st.srcs, comp, c) == cd;
      var at := ComboToPositions(ms, devs, c);
      ComposedByCombo(st, comp, devs, cd, at, c);
    }
    if at :| ComposedOf(st, comp, devs, cd, at) {
      var c := PositionsToCombo(ms, devs, at);
      ComposedByCombo(st, comp, devs, cd, at, c);
    }
  }

  lemma ComposedByCombo(st: Setting, comp: Config.Composition, devs: Avail<Device>, cd: CompositeDevice, at: seq<seq<nat>>, c: Avail<Device>)
    requires Known(st.srcs, comp.members) && PositiveCounts(comp.members)
    requires Positions(comp.members, devs, at) && IsAt(comp.members, devs, at, c)
    ensures ComposedOf(st, comp, devs, cd, at) <==> Eligible(st, comp, c) && Build(st.srcs, comp, c) == cd
  {
    forall i | 0 <= i < |at| ensures PicksAt(comp.members[i], devs, at[i], c) {
      assert 0 < |at[i]|;
      assert comp.members[i].source in c && c[comp.members[i].source][0] == devs[comp.members[i].source][at[i][0]];
    }
    MembersAre(st.srcs, comp.members, devs, at, c);
    AdmittedByTest(st, comp, devs, at, c);
    if comp.constraints != [] {
      MatchingByAgree(comp.constraints[0].attribute, comp.members, devs, at, c);
    }
  }

  // ---------- The explicit mode ----------

  function IsKept(): Allotment -> bool {
    (out: Allotment) => out.Some?
  }

  /** The composite device of a kept pair: on the pair's rail, made of what it was allotted. */
  ghost predicate MadeFrom(srcs: Sources, comp: Config.Composition, p: Config.ExplicitPair, out: Allotment, cd: CompositeDevice) {
    && out.Some?
    && cd.mapping == Mapping(comp.name, AllMembers(srcs, comp.members, out.value), p.rail)
    && cd.name == CompositeName(NamesOf(cd.mapping.members))
  }

  lemma KeptMade(srcs: Sources, comp: Config.Composition, p: Config.ExplicitPair, combo: Avail<Device>)
    ensures MadeFrom(srcs, comp, p, Some(combo), OnRail(Build(srcs, comp, combo), p.rail))
  {
  }

  /** The composite devices belong to the kept pairs, in order. */
  ghost predicate KeptAre(srcs: Sources, comp: Config.Composition, pairs: seq<Config.ExplicitPair>, outs: seq<Allotment>,
                          kept: seq<CompositeDevice>, at: seq<nat>) {
    && |outs| == |pairs| && |kept| == |at|
    && forall k :: 0 <= k < |at| ==> at[k] < |outs| && MadeFrom(srcs, comp, pairs[at[k]], outs[at[k]], kept[k])
  }

  lemma KeptNext(srcs: Sources, comp: Config.Composition, pairs: seq<Config.ExplicitPair>, outs: seq<Allotment>,
                 kept: seq<CompositeDevice>, at: seq<nat>, p: Config.ExplicitPair, out: Allotment)
    requires KeptAre(srcs, comp, pairs, outs, kept, at)
    ensures KeptAre(srcs, comp, pairs + [p], outs + [out],
                    kept + (if out.Some? then [OnRail(Build(srcs, comp, out.value), p.rail)] else []),
                    if out.Some? then at + [|outs|] else at)
  {
    if out.Some? {
      KeptMade(srcs, comp, p, out.value);
    }
  }

  /** The positions of the kept pairs. */
  function KeptPairs(outs: seq<Allotment>): seq<nat> {
    if outs == [] then []
    else KeptPairs(outs[..|outs| - 1]) + (if outs[|outs| - 1].Some? then [|outs| - 1] else [])
  }

  lemma LastKept(outs: seq<Allotment>)
    requires outs != []
    ensures var front, last := outs[..|outs| - 1], outs[|outs| - 1];
      front + [last] == outs && KeptPairs(outs) == if IsKept()(last) then KeptPairs(front) + [|front|] else KeptPairs(front)
  {
  }

  lemma {:induction false} KeptPairsKeep(outs: seq<Allotment>)
    ensures Keeps(outs, IsKept(), KeptPairs(outs))
  {
    if outs != [] {
      var front, last := outs[..|outs| - 1], outs[|outs| - 1];
      KeptPairsKeep(front);
      KeepsNext(front, last, IsKept(), KeptPairs(front));
      LastKept(outs);
    }
  }

  lemma KeptUnfold(srcs: Sources, comp: Config.Composition, pairs: seq<Config.ExplicitPair>, outs: seq<Allotment>)
    requires |outs| == |pairs| && outs != []
    ensures var n := |outs| - 1;
      && pairs == pairs[..n] + [pairs[n]] && outs == outs[..n] + [outs[n]]
      && KeptPairs(outs) == (if outs[n].Some? then KeptPairs(outs[..n]) + [|outs[..n]|] else KeptPairs(outs[..n]))
      && Kept(srcs, comp, pairs, outs) == Kept(srcs, comp, pairs[..n], outs[..n])
           + (if outs[n].Some? then [OnRail(Build(srcs, comp, outs[n].value), pairs[n].rail)] else [])
  {
  }

  /** The kept pairs in order: each yields one composite device on its own rail, made for
      every member of the devices that the pair was allotted. */
  lemma {:induction false} KeptExactly(srcs: Sources, comp: Config.Composition, pairs: seq<Config.ExplicitPair>, outs: seq<Allotment>)
    requires |outs| == |pairs|
    ensures KeptAre(srcs, comp, pairs, outs, Kept(srcs, comp, pairs, outs), KeptPairs(outs))
  {
    if outs != [] {
      var n := |outs| - 1;
      var ps, os, p, out := pairs[..n], outs[..n], pairs[n], outs[n];
      KeptExactly(srcs, comp, ps, os);
      KeptUnfold(srcs, comp, pairs, outs);
      KeptNext(srcs, comp, ps, os, Kept(srcs, comp, ps, os), KeptPairs(os), p, out);
    }
  }

  /** The pool of an explicit composition is the first one named like the node's label, or
      like "" on a node without it; the result are the sorted pairs of that pool. */
  lemma ExplicitByLabel(st: Setting, comp: Config.Composition, devs: Avail<Device>, result: seq<CompositeDevice>, name: string, k: nat)
    requires comp.Explicit() && IsPairing(st, comp, devs, result)
    requires comp.nodePoolLabelKey in st.labels ==> name == st.labels[comp.nodePoolLabelKey]
    requires comp.nodePoolLabelKey !in st.labels ==> name == ""
    requires k <= |comp.nodePools| && forall j :: 0 <= j < k ==> comp.nodePools[j].name != name
    ensures st.cel.None? || k == |comp.nodePools| ==> result == []
    ensures st.cel.Some? && k < |comp.nodePools| && comp.nodePools[k].name == name ==>
      exists outs :: Greedy(st.cel.value, comp.members, Filtered(comp.members, devs, FilterTest(comp.filters, st.cel)), comp.nodePools[k].pairs, outs)
        && multiset(result) == multiset(Kept(st.srcs, comp, comp.nodePools[k].pairs, outs)) && SortedByName(result)
  {
    if k < |comp.nodePools| && comp.nodePools[k].name == name {
      assert IsPool(comp, st.labels, k);
    }
  }
}
