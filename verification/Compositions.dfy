/**
 From devices to composite devices, composition by composition, and what an accepted
 configuration guarantees to the pairing paths.
 */
module Compositions {

  import opened Options
  import opened Seqs
  import opened DeviceModel
  import opened Pairing
  import opened MatchPairing
  import opened FilterPairing
  import opened ExplicitPairing
  import opened Pairer
  import opened ExplicitPairer
  import Config

  /** What the pairer knows: CEL is absent when its environment failed to start. */
  datatype Setting = Setting(srcs: Sources, cel: Option<Match>, labels: map<string, string>)

  // ---------- Filters ----------

  /** A source without a filter expression, or a pairer without CEL, filters nothing. */
  function FilterTest(filters: map<string, string>, cel: Option<Match>): Test {
    (s: string, d: Device) => s !in filters || filters[s] == "" || cel.None? || cel.value(filters[s], d.attrs)
  }

  lemma {:induction false} FilterAll<T>(s: seq<T>, p: T -> bool)
    requires forall x :: x in s ==> p(x)
    ensures Filter(s, p) == s
  {
    if s == [] {
    } else {
      FilterAll(s[1..], p);
    }
  }

  method ApplyFilter(devs: seq<Device>, source: string, filters: map<string, string>, cel: Option<Match>) returns (r: seq<Device>)
    requires source in filters
    ensures r == Passing(devs, source, FilterTest(filters, cel))
  {
    ghost var p := ForSource(FilterTest(filters, cel), source);
    if filters[source] == "" || cel.None? {
      FilterAll(devs, p);
      return devs;
    }
    r := [];
    for i := 0 to |devs|
      invariant r == Filter(devs[..i], p)
    {
      assert devs[..i + 1] == devs[..i] + [devs[i]];
      FilterAppend(devs[..i], [devs[i]], p);
      if cel.value(filters[source], devs[i].attrs) {
        r := r + [devs[i]];
      }
    }
    assert devs[..|devs|] == devs;
  }

  lemma FilteredNext(ms: Members, m: Config.Member, devs: Avail<Device>, test: Test)
    ensures Filtered(ms + [m], devs, test) == Filtered(ms, devs, test)[m.source := Passing(At(devs, m.source), m.source, test)]
  {
    var all := ms + [m];
    assert all[|ms|] == m && forall i :: 0 <= i < |ms| ==> all[i] == ms[i];
    assert SourceSet(all) == SourceSet(ms) + {m.source} by {
      forall s | s in SourceSet(ms) ensures s in SourceSet(all) {
        var i :| 0 <= i < |ms| && ms[i].source == s;
        assert all[i].source == s;
      }
    }
  }

  /** The loop that fills `filtered`. */
  method FilterSources(comp: Config.Composition, devs: Avail<Device>, cel: Option<Match>) returns (filtered: Avail<Device>)
    ensures filtered == Filtered(comp.members, devs, FilterTest(comp.filters, cel))
  {
    ghost var test := FilterTest(comp.filters, cel);
    filtered := map[];
    assert Filtered(comp.members[..0], devs, test) == map[];
    for j := 0 to |comp.members|
      invariant filtered == Filtered(comp.members[..j], devs, test)
    {
      var source := comp.members[j].source;
      var list := At(devs, source);
      if source in comp.filters {
        list := ApplyFilter(list, source, comp.filters, cel);
      } else {
        FilterAll(list, ForSource(test, source));
      }
      FilteredNext(comp.members[..j], comp.members[j], devs, test);
      assert comp.members[..j + 1] == comp.members[..j] + [comp.members[j]];
      filtered := filtered[source := list];
    }
    assert comp.members[..|comp.members|] == comp.members;
  }

  // ---------- One composition ----------

  /** What the pairing of a composition is, in each of its three modes. */
  ghost predicate IsPairing(st: Setting, comp: Config.Composition, devs: Avail<Device>, result: seq<CompositeDevice>) {
    var fewer := Filtered(comp.members, devs, FilterTest(comp.filters, st.cel));
    if comp.Explicit() then
      exists outs :: IsExplicit(st.srcs, comp, st.cel, st.labels, fewer, result, outs)
    else
      && SortedByName(result)
      && if comp.constraints == [] then
           multiset(result) == multiset(Map(Combos(comp.members, fewer), Builder(st.srcs, comp)))
         else
           exists order :: IsOrder(comp.members, fewer, comp.constraints[0].attribute, order)
             && multiset(result) == multiset(Matched(st.srcs, comp, fewer, comp.constraints[0].attribute, order))
  }

  /** What the pairing code needs of a composition. */
  predicate Usable(srcs: Sources, comp: Config.Composition) {
    Known(srcs, comp.members) && PositiveCounts(comp.members)
  }

  /** computeForComposition. */
  method ComputeForComposition(st: Setting, comp: Config.Composition, devs: Avail<Device>) returns (result: seq<CompositeDevice>)
    requires Usable(st.srcs, comp)
    ensures IsPairing(st, comp, devs, result)
  {
    var filtered := FilterSources(comp, devs, st.cel);
    if comp.pairingMode == "explicit" {
      ghost var outs;
      result, outs := PairWithExplicit(st.srcs, comp, st.cel, st.labels, filtered);
    } else if comp.constraints == [] {
      result := PairSingleSource(st.srcs, comp, filtered);
    } else {
      ghost var order;
      result, order := PairWithMatchAttribute(st.srcs, comp, filtered);
    }
  }

  // ---------- All compositions ----------

  /** ComputePairs: the compositions' results one after the other. */
  method ComputePairs(st: Setting, comps: seq<Config.Composition>, devs: Avail<Device>)
    returns (result: seq<CompositeDevice>, ghost parts: seq<seq<CompositeDevice>>)
    requires forall i :: 0 <= i < |comps| ==> Usable(st.srcs, comps[i])
    ensures |parts| == |comps| && forall i :: 0 <= i < |comps| ==> IsPairing(st, comps[i], devs, parts[i])
    ensures result == Concat(parts)
  {
    result, parts := [], [];
    for i := 0 to |comps|
      invariant |parts| == i && forall j :: 0 <= j < i ==> IsPairing(st, comps[j], devs, parts[j])
      invariant result == Concat(parts)
    {
      var pairs := ComputeForComposition(st, comps[i], devs);
      ConcatNext(parts, pairs);
      result, parts := result + pairs, parts + [pairs];
    }
  }

  // ---------- Accepted configurations ----------

  /** NewPairer's source index. */
  method IndexSources(sources: seq<Config.Source>) returns (srcs: Sources)
    ensures Indexed(srcs)
    ensures forall s :: s in srcs <==> exists i :: 0 <= i < |sources| && sources[i].name == s
    ensures forall s :: s in srcs ==> srcs[s] in sources
  {
    srcs := map[];
    for i := 0 to |sources|
      invariant Indexed(srcs)
      invariant forall s :: s in srcs <==> exists j :: 0 <= j < i && sources[j].name == s
      invariant forall s :: s in srcs ==> srcs[s] in sources
    {
      srcs := srcs[sources[i].name := sources[i]];
    }
  }

  /** Every explicit pair names a selector for every member. */
  ghost predicate SelectorsPresent(comp: Config.Composition) {
    forall k, i, j :: 0 <= k < |comp.nodePools| && 0 <= i < |comp.nodePools[k].pairs| && 0 <= j < |comp.members| ==>
      comp.members[j].source in comp.nodePools[k].pairs[i].selectors
  }

  /** No pairing path of an accepted configuration meets an absent source, a count below
      one or an index out of range: members and, in matchAttribute mode, constraints exist;
      pairSingleSource only sees one source; explicit pairs have all their selectors. */
  lemma AcceptedIsUsable(cfg: Config.Config, srcs: Sources, i: nat)
    requires Config.WellFormed(cfg) && i < |cfg.compositions|
    requires forall s :: s in srcs <==> cfg.HasSource(s)
    ensures var comp := cfg.compositions[i];
      && Usable(srcs, comp) && comp.members != []
      && (if comp.Explicit() then comp.constraints == [] && SelectorsPresent(comp) else comp.constraints == [] ==> Config.OneSource(comp))
  {
    var comp := cfg.compositions[i];
    assert Config.CompositionOk(cfg, comp);
    if comp.Explicit() {
      forall k, p, j | 0 <= k < |comp.nodePools| && 0 <= p < |comp.nodePools[k].pairs| && 0 <= j < |comp.members|
        ensures comp.members[j].source in comp.nodePools[k].pairs[p].selectors
      {
        assert Config.PoolOk(comp, comp.nodePools[k]) && Config.PairOk(comp, comp.nodePools[k].pairs[p]);
        assert comp.HasMember(comp.members[j].source);
      }
    }
  }

  ghost predicate TooFew(cel: Match, m: Config.Member, p: Config.ExplicitPair, before: seq<Allotment>, devs: Avail<Device>) {
    m.source in p.selectors && |Candidates(cel, p.selectors[m.source], Taken(before, m.source), At(devs, m.source))| < m.count
  }

  /** The missing-selector branch is dead: a dropped pair lacked free matching devices. */
  lemma DroppedForLackOfDevices(st: Setting, comp: Config.Composition, devs: Avail<Device>, k: nat, outs: seq<Allotment>, i: nat)
    requires SelectorsPresent(comp) && st.cel.Some? && k < |comp.nodePools|
    requires Greedy(st.cel.value, comp.members, devs, comp.nodePools[k].pairs, outs) && i < |outs| && outs[i].None?
    ensures exists j :: 0 <= j < |comp.members| && TooFew(st.cel.value, comp.members[j], comp.nodePools[k].pairs[i], outs[..i], devs)
  {
    assert GreedyStep(st.cel.value, comp.members, devs, comp.nodePools[k].pairs, outs, i);
    var j :| 0 <= j < |comp.members| && !Enough(st.cel.value, comp.members[j], comp.nodePools[k].pairs[i], Taken(outs[..i], comp.members[j].source), devs);
  }

  // ---------- Filters, over the whole operation ----------

  /** In the auto modes the result is, up to order, the pairing of all devices restricted
      to the composite devices whose members all pass. */
  lemma AutoPairingKeepsPassing(st: Setting, comp: Config.Composition, devs: Avail<Device>, result: seq<CompositeDevice>, order: seq<string>)
    requires Indexed(st.srcs) && Usable(st.srcs, comp) && comp.members != [] && DistinctSources(comp.members)
    requires !comp.Explicit() && IsPairing(st, comp, devs, result)
    requires comp.constraints != [] ==> IsOrder(comp.members, devs, comp.constraints[0].attribute, order)
    ensures multiset(result) == multiset(Filter(
        if comp.constraints == [] then Map(Combos(comp.members, devs), Builder(st.srcs, comp))
        else Matched(st.srcs, comp, devs, comp.constraints[0].attribute, order),
        MembersPass(FilterTest(comp.filters, st.cel))))
  {
    var test := FilterTest(comp.filters, st.cel);
    if comp.constraints == [] {
      SingleFilterCommutes(st.srcs, comp, devs, test);
    } else {
      var attr := comp.constraints[0].attribute;
      var fewer := Filtered(comp.members, devs, test);
      var o :| IsOrder(comp.members, fewer, attr, o) && multiset(result) == multiset(Matched(st.srcs, comp, fewer, attr, o));
      MatchingFilterCommutes(st.srcs, comp, devs, test, attr, o, order);
    }
  }

  // ---------- matchAttribute, over the whole operation ----------

  /** The composite devices of a matchAttribute composition are, sorted by name, exactly one
      per valid choice: a value of the first constraint and, for every member, `Count` of
      its filtered devices of that value.  Their number is the sum over the values of the
      products of binomials. */
  lemma MatchAttributeExact(st: Setting, comp: Config.Composition, devs: Avail<Device>, result: seq<CompositeDevice>)
    returns (choices: seq<GroupChoice>, order: seq<string>)
    requires Usable(st.srcs, comp) && comp.members != [] && DistinctSources(comp.members)
    requires !comp.Explicit() && comp.constraints != [] && IsPairing(st, comp, devs, result)
    ensures var fewer, attr := Filtered(comp.members, devs, FilterTest(comp.filters, st.cel)), comp.constraints[0].attribute;
      && NoDup(choices)
      && (forall g :: g in choices <==> ValidChoice(comp.members, Group(comp.members, fewer, attr, g.value), g.choice))
      && multiset(result) == multiset(Map(choices, BuildChosen(st.srcs, comp, fewer, attr))) && SortedByName(result)
      && IsOrder(comp.members, fewer, attr, order) && |result| == SumOfProducts(comp.members, fewer, attr, order)
  {
    var fewer, attr := Filtered(comp.members, devs, FilterTest(comp.filters, st.cel)), comp.constraints[0].attribute;
    order :| IsOrder(comp.members, fewer, attr, order) && multiset(result) == multiset(Matched(st.srcs, comp, fewer, attr, order));
    choices := AllChoices(comp.members, fewer, attr, order);
    MatchingNoDup(comp.members, fewer, attr, order);
    forall g ensures g in choices <==> ValidChoice(comp.members, Group(comp.members, fewer, attr, g.value), g.choice) {
      MatchingExact(comp.members, fewer, attr, order, g);
    }
    OnePerChoice(st.srcs, comp, fewer, attr, order);
    MatchingCounted(st.srcs, comp, fewer, attr, order);
    assert |result| == |multiset(result)| == |Matched(st.srcs, comp, fewer, attr, order)|;
  }
}
