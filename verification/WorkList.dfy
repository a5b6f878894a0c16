/**
 The two ends of `prepareClaim`: from the allocation results of a claim to the list of
 shadow claims to make, and from the drivers' answers to the devices handed to the kubelet.
 */
module WorkList {

  import opened Options
  import opened Seqs
  import opened Kubernetes
  import opened ShadowMachine
  import opened Text
  import opened DeviceModel

  datatype KubeletDevice = KubeletDevice(request: string, pool: string, device: string, cdi: seq<string>)

  /** The device store's answer to a pool and a device name. */
  type Lookup = (string, string) -> Option<Mapping>

  /** `shadowClaimName`; `hash` stands for the hexadecimal prefix of SHA-256. */
  function ShadowName(hash: string -> string, claimName: string, m: DeviceMember): string {
    Truncate("shadow-" + hash(claimName) + "-" + m.source + "-" + m.device.name)
  }

  /** The composite claim as the kubelet hands it over. */
  datatype Request = Request(ns: string, name: string, results: seq<Allocation>)

  function MemberWork(hash: string -> string, rq: Request, pair: nat, r: Allocation, m: DeviceMember): Work {
    Work(pair, r, Key(rq.ns, ShadowName(hash, rq.name, m)), Allocation(r.request, m.driver, m.device.pool, m.device.name))
  }

  function PairWork(hash: string -> string, rq: Request, pair: nat, r: Allocation, ms: seq<DeviceMember>): seq<Work> {
    seq(|ms|, i requires 0 <= i < |ms| => MemberWork(hash, rq, pair, r, ms[i]))
  }

  // ---------- Building the list ----------

  /** The allocation results of this driver, in allocation order. */
  function Mine(driver: string, results: seq<Allocation>): seq<Allocation> {
    if results == [] then []
    else (if results[0].driver == driver then [results[0]] else []) + Mine(driver, results[1..])
  }

  predicate Known(store: Lookup, r: Allocation) {
    store(r.pool, r.device).Some?
  }

  predicate AllKnown(store: Lookup, mine: seq<Allocation>) {
    forall i :: 0 <= i < |mine| ==> Known(store, mine[i])
  }

  function MembersOf(store: Lookup, r: Allocation): seq<DeviceMember>
    requires Known(store, r)
  {
    store(r.pool, r.device).value.members
  }

  /** One entry per member of every composite device, numbered by device. */
  function WorkFor(hash: string -> string, rq: Request, store: Lookup, mine: seq<Allocation>): seq<Work>
    requires AllKnown(store, mine)
  {
    if mine == [] then []
    else
      var n := |mine| - 1;
      WorkFor(hash, rq, store, mine[..n]) + PairWork(hash, rq, n, mine[n], MembersOf(store, mine[n]))
  }

  lemma {:induction false} MineAppend(driver: string, results: seq<Allocation>, r: Allocation)
    ensures Mine(driver, results + [r]) == Mine(driver, results) + (if r.driver == driver then [r] else [])
  {
    if results == [] {
      assert [] + [r] == [r] && [r][1..] == [];
    } else {
      MineAppend(driver, results[1..], r);
      assert (results + [r])[1..] == results[1..] + [r];
    }
  }

  lemma WorkAppend(hash: string -> string, rq: Request, store: Lookup, mine: seq<Allocation>, r: Allocation)
    requires AllKnown(store, mine) && Known(store, r)
    ensures AllKnown(store, mine + [r])
    ensures WorkFor(hash, rq, store, mine + [r])
         == WorkFor(hash, rq, store, mine) + PairWork(hash, rq, |mine|, r, MembersOf(store, r))
  {
    assert (mine + [r])[..|mine|] == mine;
  }

  /** The first loop of `prepareClaim`; None is its "unknown composite device" error. */
  method BuildWork(hash: string -> string, driver: string, rq: Request, store: Lookup)
    returns (work: Option<seq<Work>>, pairs: nat)
    ensures work.None? <==> !AllKnown(store, Mine(driver, rq.results))
    ensures work.Some? ==> pairs == |Mine(driver, rq.results)|
    ensures work.Some? ==> work.value == WorkFor(hash, rq, store, Mine(driver, rq.results))
  {
    var built: seq<Work> := [];
    pairs := 0;
    ghost var mine := [];
    for k := 0 to |rq.results|
      invariant mine == Mine(driver, rq.results[..k]) && pairs == |mine|
      invariant AllKnown(store, mine) && built == WorkFor(hash, rq, store, mine)
    {
      var r := rq.results[k];
      assert rq.results[..k + 1] == rq.results[..k] + [r];
      MineAppend(driver, rq.results[..k], r);
      if r.driver == driver {
        var mapping := store(r.pool, r.device);
        if mapping.None? {
          MinePrefix(driver, rq.results, k + 1);
          assert !Known(store, Mine(driver, rq.results)[pairs]);
          return None, pairs;
        }
        WorkAppend(hash, rq, store, mine, r);
        var entries := MemberEntries(hash, rq, pairs, r, mapping.value.members);
        built := built + entries;
        pairs := pairs + 1;
        mine := mine + [r];
      }
    }
    assert rq.results[..|rq.results|] == rq.results;
    work := Some(built);
  }

  /** The loop over the members of one composite device. */
  method MemberEntries(hash: string -> string, rq: Request, pair: nat, r: Allocation, ms: seq<DeviceMember>) returns (entries: seq<Work>)
    ensures entries == PairWork(hash, rq, pair, r, ms)
  {
    entries := [];
    for i := 0 to |ms|
      invariant |entries| == i && forall j :: 0 <= j < i ==> entries[j] == MemberWork(hash, rq, pair, r, ms[j])
    {
      var name := Truncate("shadow-" + hash(rq.name) + "-" + ms[i].source + "-" + ms[i].device.name);
      entries := entries + [Work(pair, r, Key(rq.ns, name), Allocation(r.request, ms[i].driver, ms[i].device.pool, ms[i].device.name))];
    }
  }

  /** What one piece of work is: the shadow claim for a member, in the claim's namespace and
      under the cut name of hash, source and device, and the one device that it is to
      allocate for the request of the result. */
  predicate IsWork(w: Work, hash: string -> string, rq: Request, pair: nat, r: Allocation, m: DeviceMember) {
    && w.pair == pair && w.result == r && w.key.ns == rq.ns
    && w.key.name == Truncate("shadow-" + hash(rq.name) + "-" + m.source + "-" + m.device.name)
    && w.target.request == r.request && w.target.driver == m.driver
    && w.target.pool == m.device.pool && w.target.device == m.device.name
  }

  /** The work for each allocation result: one piece per member, in order. */
  ghost predicate ArePieces(parts: seq<seq<Work>>, hash: string -> string, rq: Request, store: Lookup, mine: seq<Allocation>)
    requires AllKnown(store, mine)
  {
    |parts| == |mine| && forall i :: 0 <= i < |mine| ==>
      var ms := store(mine[i].pool, mine[i].device).value.members;
      |parts[i]| == |ms| && forall j :: 0 <= j < |ms| ==> IsWork(parts[i][j], hash, rq, i, mine[i], ms[j])
  }

  /** The work list is the pieces of all results one after the other. */
  lemma {:induction false} WorkExactly(hash: string -> string, rq: Request, store: Lookup, mine: seq<Allocation>) returns (parts: seq<seq<Work>>)
    requires AllKnown(store, mine)
    ensures ArePieces(parts, hash, rq, store, mine) && Concat(parts) == WorkFor(hash, rq, store, mine)
  {
    if mine == [] {
      parts := [];
    } else {
      var n := |mine| - 1;
      var front := WorkExactly(hash, rq, store, mine[..n]);
      var last := PairWork(hash, rq, n, mine[n], MembersOf(store, mine[n]));
      parts := front + [last];
      ConcatNext(front, last);
    }
  }

  function OfDriver(driver: string): Allocation -> bool {
    (r: Allocation) => r.driver == driver
  }

  lemma {:induction false} MineIsFilter(driver: string, results: seq<Allocation>)
    ensures Mine(driver, results) == Filter(results, OfDriver(driver))
  {
    if results != [] {
      MineIsFilter(driver, results[1..]);
    }
  }

  /** The driver's own results are those with its name, each once and in order. */
  lemma MineExactly(driver: string, results: seq<Allocation>) returns (at: seq<nat>)
    ensures |at| == |Mine(driver, results)| && forall k :: 0 <= k < |at| ==> at[k] < |results| && Mine(driver, results)[k] == results[at[k]]
    ensures forall j, k :: 0 <= j < k < |at| ==> at[j] < at[k]
    ensures forall i :: 0 <= i < |results| ==> (i in at <==> results[i].driver == driver)
  {
    MineIsFilter(driver, results);
    at := FilterKeeps(results, OfDriver(driver));
  }

  lemma {:induction false} MinePrefix(driver: string, results: seq<Allocation>, k: nat)
    requires k <= |results|
    ensures Mine(driver, results[..k]) <= Mine(driver, results)
    decreases |results| - k
  {
    if k == |results| {
      assert results[..k] == results;
    } else {
      MinePrefix(driver, results, k + 1);
      MineAppend(driver, results[..k], results[k]);
      assert results[..k + 1] == results[..k] + [results[k]];
    }
  }

  // ---------- Assembling the devices ----------

  /** The CDI IDs of the members of composite device `pair`, in work order. */
  function CdiOf(work: seq<Work>, cdis: seq<seq<string>>, pair: nat): seq<string>
    requires |work| == |cdis|
  {
    if work == [] then []
    else
      var n := |work| - 1;
      CdiOf(work[..n], cdis[..n], pair) + (if work[n].pair == pair then cdis[n] else [])
  }

  predicate Has(work: seq<Work>, pair: nat) {
    exists j :: 0 <= j < |work| && work[j].pair == pair
  }

  /** The answer: one device per composite device that has members, in allocation order. */
  function Devices(mine: seq<Allocation>, work: seq<Work>, cdis: seq<seq<string>>): seq<KubeletDevice>
    requires |work| == |cdis|
  {
    if mine == [] then []
    else
      var n := |mine| - 1;
      Devices(mine[..n], work, cdis)
      + (if Has(work, n) then [KubeletDevice(mine[n].request, mine[n].pool, mine[n].device, CdiOf(work, cdis, n))] else [])
  }

  /** The contents of `devicesByPair` after the given work. */
  ghost predicate Grouped(m: map<nat, KubeletDevice>, mine: seq<Allocation>, work: seq<Work>, cdis: seq<seq<string>>)
    requires |work| == |cdis|
  {
    forall p: nat ::
      && (p in m <==> Has(work, p))
      && (p in m ==> p < |mine| && m[p] == KubeletDevice(mine[p].request, mine[p].pool, mine[p].device, CdiOf(work, cdis, p)))
  }

  lemma HasNext(work: seq<Work>, w: Work, p: nat)
    ensures Has(work + [w], p) <==> Has(work, p) || w.pair == p
  {
    var all := work + [w];
    assert all[|work|] == w && forall j :: 0 <= j < |work| ==> all[j] == work[j];
  }

  lemma CdiNext(work: seq<Work>, cdis: seq<seq<string>>, w: Work, cdi: seq<string>, p: nat)
    requires |work| == |cdis|
    ensures CdiOf(work + [w], cdis + [cdi], p) == CdiOf(work, cdis, p) + if w.pair == p then cdi else []
  {
    assert (work + [w])[..|work|] == work && (cdis + [cdi])[..|work|] == cdis;
  }

  lemma GroupNext(work: seq<Work>, cdis: seq<seq<string>>, w: Work, cdi: seq<string>, p: nat)
    requires |work| == |cdis|
    ensures Has(work + [w], p) <==> Has(work, p) || w.pair == p
    ensures CdiOf(work + [w], cdis + [cdi], p) == CdiOf(work, cdis, p) + if w.pair == p then cdi else []
    ensures !Has(work, p) ==> CdiOf(work, cdis, p) == []
  {
    HasNext(work, w, p);
    CdiNext(work, cdis, w, cdi, p);
    if !Has(work, p) {
      NoCdi(work, cdis, p);
    }
  }

  /** The grouping loops at the end of `prepareClaim`. */
  method Assemble(ghost mine: seq<Allocation>, work: seq<Work>, cdis: seq<seq<string>>, pairs: nat) returns (all: seq<KubeletDevice>)
    requires |work| == |cdis| && pairs == |mine|
    requires forall j :: 0 <= j < |work| ==> work[j].pair < pairs && work[j].result == mine[work[j].pair]
    ensures all == Devices(mine, work, cdis)
  {
    var byPair := Group(mine, work, cdis);
    all := [];
    for p := 0 to pairs
      invariant all == Devices(mine[..p], work, cdis)
    {
      assert mine[..p + 1][..p] == mine[..p];
      if p in byPair {
        all := all + [byPair[p]];
      }
    }
    assert mine[..pairs] == mine;
  }

  method Group(ghost mine: seq<Allocation>, work: seq<Work>, cdis: seq<seq<string>>) returns (byPair: map<nat, KubeletDevice>)
    requires |work| == |cdis|
    requires forall j :: 0 <= j < |work| ==> work[j].pair < |mine| && work[j].result == mine[work[j].pair]
    ensures Grouped(byPair, mine, work, cdis)
  {
    byPair := map[];
    for k := 0 to |work|
      invariant Grouped(byPair, mine, work[..k], cdis[..k])
    {
      var w := work[k];
      assert work[..k + 1] == work[..k] + [w] && cdis[..k + 1] == cdis[..k] + [cdis[k]];
      forall p: nat
        ensures Has(work[..k + 1], p) <==> Has(work[..k], p) || w.pair == p
        ensures CdiOf(work[..k + 1], cdis[..k + 1], p) == CdiOf(work[..k], cdis[..k], p) + if w.pair == p then cdis[k] else []
        ensures !Has(work[..k], p) ==> CdiOf(work[..k], cdis[..k], p) == []
      {
        GroupNext(work[..k], cdis[..k], w, cdis[k], p);
      }
      if w.pair !in byPair {
        byPair := byPair[w.pair := KubeletDevice(w.result.request, w.result.pool, w.result.device, [])];
      }
      byPair := byPair[w.pair := byPair[w.pair].(cdi := byPair[w.pair].cdi + cdis[k])];
    }
    assert work[..|work|] == work && cdis[..|cdis|] == cdis;
  }

  lemma {:induction false} NoCdi(work: seq<Work>, cdis: seq<seq<string>>, pair: nat)
    requires |work| == |cdis| && !Has(work, pair)
    ensures CdiOf(work, cdis, pair) == []
  {
    if work == [] {
    } else {
      var n := |work| - 1;
      assert work[n].pair != pair;
      forall j | 0 <= j < n ensures work[..n][j].pair != pair {
        assert work[..n][j] == work[j];
      }
      NoCdi(work[..n], cdis[..n], pair);
    }
  }

  // ---------- The two ends fit ----------

  /** All members' CDI IDs for one composite device, concatenated in member order. */
  function MemberCdi(cdi: Allocation -> seq<string>, r: Allocation, ms: seq<DeviceMember>): seq<string> {
    if ms == [] then []
    else
      var n := |ms| - 1;
      MemberCdi(cdi, r, ms[..n]) + cdi(Allocation(r.request, ms[n].driver, ms[n].device.pool, ms[n].device.name))
  }

  /** What the claim asks for, said without work lists: for every allocation result whose
      composite device has members, its device with the members' CDI IDs. */
  function Expected(cdi: Allocation -> seq<string>, store: Lookup, mine: seq<Allocation>): seq<KubeletDevice>
    requires AllKnown(store, mine)
  {
    if mine == [] then []
    else
      var n := |mine| - 1;
      var ms := MembersOf(store, mine[n]);
      Expected(cdi, store, mine[..n])
      + (if ms != [] then [KubeletDevice(mine[n].request, mine[n].pool, mine[n].device, MemberCdi(cdi, mine[n], ms))] else [])
  }

  function Answers(cdi: Allocation -> seq<string>, work: seq<Work>): seq<seq<string>> {
    seq(|work|, i requires 0 <= i < |work| => cdi(work[i].target))
  }

  lemma HasSplit(a: seq<Work>, b: seq<Work>, p: nat)
    ensures Has(a + b, p) <==> Has(a, p) || Has(b, p)
  {
    var all := a + b;
    assert forall j :: 0 <= j < |a| ==> all[j] == a[j];
    assert forall j :: 0 <= j < |b| ==> all[|a| + j] == b[j];
    if j :| 0 <= j < |all| && all[j].pair == p {
      assert j < |a| || b[j - |a|].pair == p;
    }
  }

  lemma {:induction false} CdiSplit(a: seq<Work>, b: seq<Work>, ca: seq<seq<string>>, cb: seq<seq<string>>, p: nat)
    requires |a| == |ca| && |b| == |cb|
    ensures CdiOf(a + b, ca + cb, p) == CdiOf(a, ca, p) + CdiOf(b, cb, p)
  {
    if b == [] {
      assert a + b == a && ca + cb == ca;
    } else {
      var n := |b| - 1;
      var last := if b[n].pair == p then cb[n] else [];
      CdiSplit(a, b[..n], ca, cb[..n], p);
      CdiNext(a + b[..n], ca + cb[..n], b[n], cb[n], p);
      assert a + b == (a + b[..n]) + [b[n]] && ca + cb == (ca + cb[..n]) + [cb[n]];
      assert CdiOf(b, cb, p) == CdiOf(b[..n], cb[..n], p) + last;
      assert CdiOf(a, ca, p) + CdiOf(b[..n], cb[..n], p) + last == CdiOf(a, ca, p) + (CdiOf(b[..n], cb[..n], p) + last);
    }
  }

  lemma PairHas(hash: string -> string, rq: Request, pair: nat, r: Allocation, ms: seq<DeviceMember>, p: nat)
    ensures Has(PairWork(hash, rq, pair, r, ms), p) <==> p == pair && ms != []
  {
    var w := PairWork(hash, rq, pair, r, ms);
    assert ms != [] ==> w[0].pair == pair;
  }

  lemma PairWorkNext(hash: string -> string, rq: Request, pair: nat, r: Allocation, ms: seq<DeviceMember>, cdi: Allocation -> seq<string>)
    requires ms != []
    ensures var n := |ms| - 1;
      var w, v := PairWork(hash, rq, pair, r, ms), PairWork(hash, rq, pair, r, ms[..n]);
      |w| == n + 1 && w[n] == MemberWork(hash, rq, pair, r, ms[n]) && w == v + [w[n]]
      && Answers(cdi, w) == Answers(cdi, v) + [cdi(w[n].target)]
  {
  }

  lemma {:induction false} PairCdi(hash: string -> string, rq: Request, pair: nat, r: Allocation, ms: seq<DeviceMember>,
                                   cdi: Allocation -> seq<string>, p: nat)
    ensures var w := PairWork(hash, rq, pair, r, ms);
      CdiOf(w, Answers(cdi, w), p) == (if p == pair then MemberCdi(cdi, r, ms) else [])
  {
    if ms == [] {
    } else {
      var n := |ms| - 1;
      var w, v := PairWork(hash, rq, pair, r, ms), PairWork(hash, rq, pair, r, ms[..n]);
      PairCdi(hash, rq, pair, r, ms[..n], cdi, p);
      PairWorkNext(hash, rq, pair, r, ms, cdi);
      CdiNext(v, Answers(cdi, v), w[n], cdi(w[n].target), p);
    }
  }

  lemma {:induction false} WorkHas(hash: string -> string, rq: Request, store: Lookup, mine: seq<Allocation>, p: nat)
    requires AllKnown(store, mine)
    ensures Has(WorkFor(hash, rq, store, mine), p) <==> p < |mine| && MembersOf(store, mine[p]) != []
  {
    if mine == [] {
    } else {
      var n := |mine| - 1;
      WorkHas(hash, rq, store, mine[..n], p);
      PairHas(hash, rq, n, mine[n], MembersOf(store, mine[n]), p);
      HasSplit(WorkFor(hash, rq, store, mine[..n]), PairWork(hash, rq, n, mine[n], MembersOf(store, mine[n])), p);
    }
  }

  lemma AnswersAppend(cdi: Allocation -> seq<string>, a: seq<Work>, b: seq<Work>)
    ensures Answers(cdi, a + b) == Answers(cdi, a) + Answers(cdi, b)
  {
  }

  lemma CdiFrom(cdi: Allocation -> seq<string>, a: seq<Work>, b: seq<Work>, p: nat)
    ensures CdiOf(a + b, Answers(cdi, a + b), p) == CdiOf(a, Answers(cdi, a), p) + CdiOf(b, Answers(cdi, b), p)
  {
    AnswersAppend(cdi, a, b);
    CdiSplit(a, b, Answers(cdi, a), Answers(cdi, b), p);
  }

  /** The work list numbers its pairs by allocation order, and its CDI IDs per pair are
      those of the pair's own members. */
  lemma {:induction false} WorkCdi(hash: string -> string, rq: Request, store: Lookup, mine: seq<Allocation>,
                                   cdi: Allocation -> seq<string>, p: nat)
    requires AllKnown(store, mine) && p < |mine|
    ensures var w := WorkFor(hash, rq, store, mine);
      CdiOf(w, Answers(cdi, w), p) == MemberCdi(cdi, mine[p], MembersOf(store, mine[p]))
  {
    var n := |mine| - 1;
    var v, t := WorkFor(hash, rq, store, mine[..n]), PairWork(hash, rq, n, mine[n], MembersOf(store, mine[n]));
    CdiFrom(cdi, v, t, p);
    PairCdi(hash, rq, n, mine[n], MembersOf(store, mine[n]), cdi, p);
    if p == n {
      WorkHas(hash, rq, store, mine[..n], p);
      NoCdi(v, Answers(cdi, v), p);
    } else {
      WorkCdi(hash, rq, store, mine[..n], cdi, p);
    }
  }

  lemma {:induction false} DevicesExpected(hash: string -> string, rq: Request, store: Lookup, mine: seq<Allocation>,
                                           cdi: Allocation -> seq<string>, n: nat)
    requires AllKnown(store, mine) && n <= |mine|
    ensures var w := WorkFor(hash, rq, store, mine);
      Devices(mine[..n], w, Answers(cdi, w)) == Expected(cdi, store, mine[..n])
  {
    if n == 0 {
    } else {
      DevicesExpected(hash, rq, store, mine, cdi, n - 1);
      WorkCdi(hash, rq, store, mine, cdi, n - 1);
      WorkHas(hash, rq, store, mine, n - 1);
      assert mine[..n][..n - 1] == mine[..n - 1];
    }
  }

  lemma {:induction false} WorkNumbered(hash: string -> string, rq: Request, store: Lookup, mine: seq<Allocation>)
    requires AllKnown(store, mine)
    ensures forall j :: 0 <= j < |WorkFor(hash, rq, store, mine)| ==>
      var w := WorkFor(hash, rq, store, mine)[j];
      w.pair < |mine| && w.result == mine[w.pair] && w.key.ns == rq.ns
  {
    if mine == [] {
    } else {
      WorkNumbered(hash, rq, store, mine[..|mine| - 1]);
    }
  }

  function DeviceFor(cdi: Allocation -> seq<string>, store: Lookup, r: Allocation): KubeletDevice
    requires Known(store, r)
  {
    KubeletDevice(r.request, r.pool, r.device, MemberCdi(cdi, r, MembersOf(store, r)))
  }

  lemma ExpectedNext(cdi: Allocation -> seq<string>, store: Lookup, mine: seq<Allocation>, r: Allocation)
    requires AllKnown(store, mine + [r]) && AllKnown(store, mine) && Known(store, r)
    ensures Expected(cdi, store, mine + [r]) == Expected(cdi, store, mine) + (if MembersOf(store, r) != [] then [DeviceFor(cdi, store, r)] else [])
  {
    assert (mine + [r])[..|mine|] == mine;
  }

  /** Every allocation result gets its device exactly when no mapping is without members. */
  lemma {:induction false} OneDevicePerResult(cdi: Allocation -> seq<string>, store: Lookup, mine: seq<Allocation>)
    requires AllKnown(store, mine)
    ensures |Expected(cdi, store, mine)| <= |mine|
    ensures |Expected(cdi, store, mine)| == |mine| <==> forall i :: 0 <= i < |mine| ==> MembersOf(store, mine[i]) != []
    ensures |Expected(cdi, store, mine)| == |mine| ==> forall i :: 0 <= i < |mine| ==> Expected(cdi, store, mine)[i] == DeviceFor(cdi, store, mine[i])
  {
    if mine == [] {
    } else {
      var front, r := mine[..|mine| - 1], mine[|mine| - 1];
      assert mine == front + [r] && forall i :: 0 <= i < |front| ==> front[i] == mine[i];
      OneDevicePerResult(cdi, store, front);
      ExpectedNext(cdi, store, front, r);
    }
  }
}
