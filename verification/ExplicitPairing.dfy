/**
 Explicit pairing: what a greedy allocation is, said without loops, and why no device
 serves two pairs.
 */
module ExplicitPairing {

  import opened Options
  import opened Seqs
  import opened DeviceModel
  import opened Pairing
  import Config

  /** CEL matching: an expression on the attributes of a device. */
  type Match = (string, map<string, Attribute>) -> bool

  function Fits(cel: Match, sel: string, used: set<string>): Device -> bool {
    (d: Device) => d.name !in used && cel(sel, d.attrs)
  }

  /** The devices of a source that the selector matches and no earlier pair has taken. */
  function Candidates(cel: Match, sel: string, used: set<string>, devs: seq<Device>): seq<Device> {
    Filter(devs, Fits(cel, sel, used))
  }

  /** The result of one pair: the devices taken per source, or None if it was dropped. */
  type Allotment = Option<Avail<Device>>

  function NamesIn(ds: seq<Device>): set<string> {
    set i | 0 <= i < |ds| :: ds[i].name
  }

  /** The device names of a source that the kept pairs have taken. */
  function Taken(outs: seq<Allotment>, source: string): set<string> {
    if outs == [] then {}
    else
      var n := |outs| - 1;
      Taken(outs[..n], source) + (if outs[n].Some? then NamesIn(At(outs[n].value, source)) else {})
  }

  /** The last member of a source decides how many of its devices a pair gets. */
  function CountOf(ms: Members, source: string): int
    requires HasSource(ms, source)
  {
    if ms[|ms| - 1].source == source then ms[|ms| - 1].count
    else
      assert HasSource(ms[..|ms| - 1], source) by {
        var i :| 0 <= i < |ms| && ms[i].source == source;
        assert ms[..|ms| - 1][i].source == source;
      }
      CountOf(ms[..|ms| - 1], source)
  }

  ghost predicate Enough(cel: Match, m: Config.Member, p: Config.ExplicitPair, used: set<string>, devs: Avail<Device>) {
    m.source in p.selectors && |Candidates(cel, p.selectors[m.source], used, At(devs, m.source))| >= m.count
  }

  /** Pair i is kept exactly if, at its turn, every member finds enough free matching
      devices, and then it takes the first ones of every source and nothing else. */
  ghost predicate GreedyAt(cel: Match, ms: Members, devs: Avail<Device>, p: Config.ExplicitPair, before: seq<Allotment>, out: Allotment) {
    && (out.Some? <==> forall j :: 0 <= j < |ms| ==> Enough(cel, ms[j], p, Taken(before, ms[j].source), devs))
    && (out.Some? ==>
          && (forall s :: s in out.value <==> HasSource(ms, s))
          && (forall s :: s in out.value ==>
                && s in p.selectors
                && 0 <= CountOf(ms, s) <= |Candidates(cel, p.selectors[s], Taken(before, s), At(devs, s))|
                && out.value[s] == Candidates(cel, p.selectors[s], Taken(before, s), At(devs, s))[..CountOf(ms, s)]))
  }

  ghost predicate Greedy(cel: Match, ms: Members, devs: Avail<Device>, pairs: seq<Config.ExplicitPair>, outs: seq<Allotment>) {
    |outs| == |pairs| && forall i :: 0 <= i < |pairs| ==> GreedyStep(cel, ms, devs, pairs, outs, i)
  }

  ghost predicate GreedyStep(cel: Match, ms: Members, devs: Avail<Device>, pairs: seq<Config.ExplicitPair>, outs: seq<Allotment>, i: nat)
    requires i < |pairs| && i < |outs|
  {
    GreedyAt(cel, ms, devs, pairs[i], outs[..i], outs[i])
  }

  lemma {:induction false} TakenByEarlier(outs: seq<Allotment>, j: nat, source: string, name: string)
    requires j < |outs| && outs[j].Some? && name in NamesIn(At(outs[j].value, source))
    ensures name in Taken(outs, source)
  {
    if j < |outs| - 1 {
      assert outs[..|outs| - 1][j] == outs[j];
      TakenByEarlier(outs[..|outs| - 1], j, source, name);
    }
  }

  /** No device name of a source serves two kept pairs. */
  lemma ExplicitPairsDisjoint(cel: Match, ms: Members, devs: Avail<Device>, pairs: seq<Config.ExplicitPair>, outs: seq<Allotment>,
                              i: nat, j: nat, source: string, name: string)
    requires Greedy(cel, ms, devs, pairs, outs) && i < j < |outs| && outs[i].Some? && outs[j].Some?
    requires name in NamesIn(At(outs[i].value, source))
    ensures name !in NamesIn(At(outs[j].value, source))
  {
    assert outs[..j][i] == outs[i];
    TakenByEarlier(outs[..j], i, source, name);
    assert GreedyStep(cel, ms, devs, pairs, outs, j);
    if source in outs[j].value {
      var used, sel := Taken(outs[..j], source), pairs[j].selectors[source];
      var cand := Candidates(cel, sel, used, At(devs, source));
      forall k | 0 <= k < |outs[j].value[source]| ensures outs[j].value[source][k].name != name {
        assert outs[j].value[source][k] == cand[k] && cand[k] in cand;
        FilterMember(At(devs, source), Fits(cel, sel, used), cand[k]);
      }
    }
  }

  /** With distinct sources every member of a kept pair gets exactly its count. */
  lemma {:induction false} CountOfDistinct(ms: Members, i: nat)
    requires DistinctSources(ms) && i < |ms|
    ensures HasSource(ms, ms[i].source) && CountOf(ms, ms[i].source) == ms[i].count
  {
    assert HasSource(ms, ms[i].source);
    if i < |ms| - 1 {
      CountOfDistinct(ms[..|ms| - 1], i);
    }
  }

  lemma GreedyAtUnique(cel: Match, ms: Members, devs: Avail<Device>, p: Config.ExplicitPair, before: seq<Allotment>, x: Allotment, y: Allotment)
    requires GreedyAt(cel, ms, devs, p, before, x) && GreedyAt(cel, ms, devs, p, before, y)
    ensures x == y
  {
    if x.Some? {
      assert x.value.Keys == y.value.Keys;
      assert forall s :: s in x.value ==> x.value[s] == y.value[s];
      assert x.value == y.value;
    }
  }

  /** The greedy allocation is determined by the configuration and the devices. */
  lemma {:induction false} GreedyUnique(cel: Match, ms: Members, devs: Avail<Device>, pairs: seq<Config.ExplicitPair>,
                                        a: seq<Allotment>, b: seq<Allotment>, n: nat)
    requires Greedy(cel, ms, devs, pairs, a) && Greedy(cel, ms, devs, pairs, b) && n <= |pairs|
    ensures a[..n] == b[..n]
  {
    if n == 0 {
    } else {
      GreedyUnique(cel, ms, devs, pairs, a, b, n - 1);
      assert GreedyStep(cel, ms, devs, pairs, a, n - 1) && GreedyStep(cel, ms, devs, pairs, b, n - 1);
      GreedyAtUnique(cel, ms, devs, pairs[n - 1], a[..n - 1], a[n - 1], b[n - 1]);
      assert a[..n] == a[..n - 1] + [a[n - 1]] && b[..n] == b[..n - 1] + [b[n - 1]];
    }
  }
}
