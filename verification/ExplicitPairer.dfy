/** The loops of explicit pairing, proved to be the greedy allocation. */
module ExplicitPairer {

  import opened Options
  import opened Seqs
  import opened DeviceModel
  import opened Pairing
  import opened MatchPairing
  import opened ExplicitPairing
  import opened Pairer
  import Config

  type Consumed = map<string, set<string>>

  /** `consumed` holds, per member source, the names that the pairs so far have taken. */
  ghost predicate Tracks(consumed: Consumed, ms: Members, outs: seq<Allotment>) {
    forall s :: HasSource(ms, s) ==> s in consumed && consumed[s] == Taken(outs, s)
  }

  /** What a pair has selected after the members ms. */
  ghost predicate Selected(cel: Match, ms: Members, devs: Avail<Device>, p: Config.ExplicitPair, before: seq<Allotment>, combo: Avail<Device>) {
    && (forall s :: s in combo <==> HasSource(ms, s))
    && (forall s :: s in combo ==> SelectedFor(cel, ms, devs, p, before, combo, s))
  }

  ghost predicate SelectedFor(cel: Match, ms: Members, devs: Avail<Device>, p: Config.ExplicitPair, before: seq<Allotment>, combo: Avail<Device>, s: string)
    requires s in combo && HasSource(ms, s)
  {
    && s in p.selectors
    && 0 <= CountOf(ms, s) <= |Candidates(cel, p.selectors[s], Taken(before, s), At(devs, s))|
    && combo[s] == Candidates(cel, p.selectors[s], Taken(before, s), At(devs, s))[..CountOf(ms, s)]
  }

  lemma SelectNext(cel: Match, ms: Members, m: Config.Member, devs: Avail<Device>, p: Config.ExplicitPair, before: seq<Allotment>, combo: Avail<Device>)
    requires Selected(cel, ms, devs, p, before, combo) && m.count >= 1
    requires Enough(cel, m, p, Taken(before, m.source), devs)
    ensures Selected(cel, ms + [m], devs, p, before,
                     combo[m.source := Candidates(cel, p.selectors[m.source], Taken(before, m.source), At(devs, m.source))[..m.count]])
  {
    var all := ms + [m];
    var next := combo[m.source := Candidates(cel, p.selectors[m.source], Taken(before, m.source), At(devs, m.source))[..m.count]];
    forall s ensures HasSource(all, s) <==> HasSource(ms, s) || s == m.source {
      SourceNext(ms, m, s);
    }
    forall s | s in next ensures SelectedFor(cel, all, devs, p, before, next, s) {
      SourceNext(ms, m, s);
      if s != m.source {
        assert SelectedFor(cel, ms, devs, p, before, combo, s);
      }
    }
  }

  lemma SourceNext(ms: Members, m: Config.Member, s: string)
    ensures HasSource(ms + [m], s) <==> HasSource(ms, s) || s == m.source
    ensures s == m.source ==> CountOf(ms + [m], s) == m.count
    ensures s != m.source && HasSource(ms, s) ==> CountOf(ms + [m], s) == CountOf(ms, s)
  {
    var all := ms + [m];
    assert all[..|ms|] == ms && all[|ms|] == m;
    if HasSource(ms, s) {
      var i :| 0 <= i < |ms| && ms[i].source == s;
      assert all[i].source == s;
    }
  }

  /** The devices a selector matches among those not yet consumed. */
  method MatchDevices(cel: Match, sel: string, used: set<string>, devs: seq<Device>) returns (matched: seq<Device>)
    ensures matched == Candidates(cel, sel, used, devs)
  {
    matched := [];
    for i := 0 to |devs|
      invariant matched == Candidates(cel, sel, used, devs[..i])
    {
      assert devs[..i + 1] == devs[..i] + [devs[i]];
      FilterAppend(devs[..i], [devs[i]], Fits(cel, sel, used));
      if devs[i].name !in used && cel(sel, devs[i].attrs) {
        matched := matched + [devs[i]];
      }
    }
    assert devs[..|devs|] == devs;
  }

  /** One explicit pair: its devices, or None as soon as a member has no selector or too few. */
  method TryPair(cel: Match, ms: Members, devs: Avail<Device>, p: Config.ExplicitPair, consumed: Consumed, ghost before: seq<Allotment>)
    returns (out: Allotment)
    requires PositiveCounts(ms) && Tracks(consumed, ms, before)
    ensures GreedyAt(cel, ms, devs, p, before, out)
  {
    var combo: Avail<Device> := map[];
    for j := 0 to |ms|
      invariant forall i :: 0 <= i < j ==> Enough(cel, ms[i], p, Taken(before, ms[i].source), devs)
      invariant Selected(cel, ms[..j], devs, p, before, combo)
    {
      var m := ms[j];
      assert HasSource(ms, m.source);
      if m.source !in p.selectors {
        assert !Enough(cel, ms[j], p, Taken(before, m.source), devs);
        return None;
      }
      var matched := MatchDevices(cel, p.selectors[m.source], consumed[m.source], At(devs, m.source));
      if |matched| < m.count {
        assert !Enough(cel, ms[j], p, Taken(before, m.source), devs);
        return None;
      }
      SelectNext(cel, ms[..j], m, devs, p, before, combo);
      assert ms[..j + 1] == ms[..j] + [m];
      combo := combo[m.source := matched[..m.count]];
    }
    assert ms[..|ms|] == ms;
    out := Some(combo);
  }

  /** The loops that mark the devices of a kept pair, source by source in any order. */
  method Consume(consumed: Consumed, combo: Avail<Device>) returns (consumed': Consumed)
    requires combo.Keys <= consumed.Keys
    ensures consumed'.Keys == consumed.Keys
    ensures forall s :: s in consumed ==> consumed'[s] == consumed[s] + NamesIn(At(combo, s))
  {
    consumed' := consumed;
    var left := combo.Keys;
    while left != {}
      invariant left <= combo.Keys && consumed'.Keys == consumed.Keys
      invariant forall s :: s in consumed ==> consumed'[s] == consumed[s] + (if s in left then {} else NamesIn(At(combo, s)))
      decreases left
    {
      var src :| src in left;
      left := left - {src};
      var names := MarkAll(consumed'[src], combo[src]);
      consumed' := consumed'[src := names];
    }
  }

  method MarkAll(used: set<string>, devs: seq<Device>) returns (used': set<string>)
    ensures used' == used + NamesIn(devs)
  {
    used' := used;
    for i := 0 to |devs|
      invariant used' == used + NamesIn(devs[..i])
    {
      assert NamesIn(devs[..i + 1]) == NamesIn(devs[..i]) + {devs[i].name} by {
        assert devs[..i + 1][i] == devs[i];
        assert forall k :: 0 <= k < i ==> devs[..i + 1][k] == devs[..i][k];
      }
      used' := used' + {devs[i].name};
    }
    assert devs[..|devs|] == devs;
  }

  function OnRail(cd: CompositeDevice, rail: int): CompositeDevice {
    cd.(mapping := cd.mapping.(rail := rail))
  }

  /** The composite devices of the kept pairs, in the order of the pairs. */
  function Kept(srcs: Sources, comp: Config.Composition, pairs: seq<Config.ExplicitPair>, outs: seq<Allotment>): seq<CompositeDevice>
    requires |outs| == |pairs|
  {
    if outs == [] then []
    else
      var n := |outs| - 1;
      Kept(srcs, comp, pairs[..n], outs[..n])
      + (if outs[n].Some? then [OnRail(Build(srcs, comp, outs[n].value), pairs[n].rail)] else [])
  }

  lemma GreedyNext(cel: Match, ms: Members, devs: Avail<Device>, pairs: seq<Config.ExplicitPair>, p: Config.ExplicitPair, outs: seq<Allotment>, out: Allotment)
    requires Greedy(cel, ms, devs, pairs, outs) && GreedyAt(cel, ms, devs, p, outs, out)
    ensures Greedy(cel, ms, devs, pairs + [p], outs + [out])
  {
    var ps, os := pairs + [p], outs + [out];
    forall i | 0 <= i < |ps| ensures GreedyStep(cel, ms, devs, ps, os, i) {
      if i < |pairs| {
        assert GreedyStep(cel, ms, devs, pairs, outs, i);
        assert os[..i] == outs[..i];
      } else {
        assert os[..i] == outs;
      }
    }
  }

  /** The body of the pair loop. */
  method PairOnce(srcs: Sources, comp: Config.Composition, cel: Match, devs: Avail<Device>, p: Config.ExplicitPair,
                  consumed: Consumed, ghost before: seq<Allotment>)
    returns (more: seq<CompositeDevice>, consumed': Consumed, ghost out: Allotment)
    requires Known(srcs, comp.members) && PositiveCounts(comp.members) && Tracks(consumed, comp.members, before)
    ensures GreedyAt(cel, comp.members, devs, p, before, out) && Tracks(consumed', comp.members, before + [out])
    ensures more == if out.Some? then [OnRail(Build(srcs, comp, out.value), p.rail)] else []
  {
    var combo := TryPair(cel, comp.members, devs, p, consumed, before);
    out := combo;
    more, consumed' := [], consumed;
    if combo.Some? {
      consumed' := Consume(consumed, combo.value);
      var cd := BuildCompositeDevice(srcs, comp, combo.value);
      more := [cd.(mapping := cd.mapping.(rail := p.rail))];
    }
  }

  /** The loop over the pairs of the node's pool. */
  method PairAll(srcs: Sources, comp: Config.Composition, cel: Match, devs: Avail<Device>, pairs: seq<Config.ExplicitPair>)
    returns (result: seq<CompositeDevice>, ghost outs: seq<Allotment>)
    requires Known(srcs, comp.members) && PositiveCounts(comp.members)
    ensures Greedy(cel, comp.members, devs, pairs, outs) && result == Kept(srcs, comp, pairs, outs)
  {
    var consumed: Consumed := map i | 0 <= i < |comp.members| :: comp.members[i].source := {};
    result, outs := [], [];
    assert pairs[..0] == [];
    for i := 0 to |pairs|
      invariant Tracks(consumed, comp.members, outs)
      invariant Greedy(cel, comp.members, devs, pairs[..i], outs)
      invariant result == Kept(srcs, comp, pairs[..i], outs)
    {
      ghost var before, out := outs, None;
      var more;
      more, consumed, out := PairOnce(srcs, comp, cel, devs, pairs[i], consumed, outs);
      GreedyNext(cel, comp.members, devs, pairs[..i], pairs[i], outs, out);
      assert pairs[..i + 1] == pairs[..i] + [pairs[i]];
      result, outs := result + more, outs + [out];
    }
    assert pairs[..|pairs|] == pairs;
  }

  /** The first pool of that name. */
  ghost predicate FirstNamed(pools: seq<Config.NodePool>, name: string, k: nat) {
    k < |pools| && pools[k].name == name && forall j :: 0 <= j < k ==> pools[j].name != name
  }

  /** The pool of the node: the first that bears the value of the node's label, or has an
      empty name if the node lacks the label. */
  ghost predicate IsPool(comp: Config.Composition, labels: map<string, string>, k: nat) {
    && (comp.nodePoolLabelKey in labels ==> FirstNamed(comp.nodePools, labels[comp.nodePoolLabelKey], k))
    && (comp.nodePoolLabelKey !in labels ==> FirstNamed(comp.nodePools, "", k))
  }

  method FindPool(comp: Config.Composition, labels: map<string, string>) returns (k: Option<nat>)
    ensures k.Some? ==> IsPool(comp, labels, k.value)
    ensures k.None? && comp.nodePoolLabelKey in labels ==>
      forall j :: 0 <= j < |comp.nodePools| ==> comp.nodePools[j].name != labels[comp.nodePoolLabelKey]
    ensures k.None? && comp.nodePoolLabelKey !in labels ==> forall j :: 0 <= j < |comp.nodePools| ==> comp.nodePools[j].name != ""
  {
    var value := if comp.nodePoolLabelKey in labels then labels[comp.nodePoolLabelKey] else "";
    for i := 0 to |comp.nodePools|
      invariant forall j :: 0 <= j < i ==> comp.nodePools[j].name != value
    {
      if comp.nodePools[i].name == value {
        return Some(i);
      }
    }
    return None;
  }

  /** The result is the sorted greedy allocation of the node's pool; without a CEL
      environment or a pool there is none. */
  ghost predicate IsExplicit(srcs: Sources, comp: Config.Composition, cel: Option<Match>, labels: map<string, string>, devs: Avail<Device>,
                             result: seq<CompositeDevice>, outs: seq<Allotment>) {
    if cel.Some? && exists k: nat :: IsPool(comp, labels, k) then
      exists k: nat ::
                  && IsPool(comp, labels, k)
                  && Greedy(cel.value, comp.members, devs, comp.nodePools[k].pairs, outs)
                  && multiset(result) == multiset(Kept(srcs, comp, comp.nodePools[k].pairs, outs))
                  && SortedByName(result)
    else result == []
  }

  /** pairWithExplicit. */
  method PairWithExplicit(srcs: Sources, comp: Config.Composition, cel: Option<Match>, labels: map<string, string>, devs: Avail<Device>)
    returns (result: seq<CompositeDevice>, ghost outs: seq<Allotment>)
    requires Known(srcs, comp.members) && PositiveCounts(comp.members)
    ensures IsExplicit(srcs, comp, cel, labels, devs, result, outs)
  {
    outs := [];
    if cel.None? {
      return [], outs;
    }
    var k := FindPool(comp, labels);
    if k.None? {
      return [], outs;
    }
    var found;
    found, outs := PairAll(srcs, comp, cel.value, devs, comp.nodePools[k.value].pairs);
    result := SortByName(found);
  }
}
