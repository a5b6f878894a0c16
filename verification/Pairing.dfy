/**
 Which composite devices a composition has: the reference definitions that the pairer's
 loops compute, and what they mean.
 */
module Pairing {

  import opened Options
  import opened Seqs
  import opened Combinations
  import opened Text
  import opened Names
  import opened DeviceModel
  import Config

  // ---------- Devices ----------

  /** getAttributeString. */
  function AttributeString(attrs: map<string, Attribute>, key: string): Option<string> {
    if key !in attrs then None
    else if attrs[key].str.Some? then attrs[key].str
    else if attrs[key].num.Some? then Some(FormatInt(attrs[key].num.value))
    else if attrs[key].flag.Some? then Some(if attrs[key].flag.value then "true" else "false")
    else None
  }

  /** A test on the devices of a source: a filter, or membership in a group. */
  type Test = (string, Device) -> bool

  function HasValue(attr: string, v: string): Test {
    (_, d: Device) => AttributeString(d.attrs, attr) == Some(v)
  }

  type Avail<T> = map<string, seq<T>>

  /** Go's map lookup: a missing source has no devices. */
  function At<T>(m: Avail<T>, source: string): seq<T> {
    if source in m then m[source] else []
  }

  // ---------- Combinations across members ----------

  type Members = seq<Config.Member>

  predicate DistinctSources(ms: Members) {
    forall i, j :: 0 <= i < j < |ms| ==> ms[i].source != ms[j].source
  }

  predicate PositiveCounts(ms: Members) {
    forall i :: 0 <= i < |ms| ==> ms[i].count >= 1
  }

  predicate HasSource(ms: Members, source: string) {
    exists i :: 0 <= i < |ms| && ms[i].source == source
  }

  /** The selections for one member; none for a count below one. */
  function Picks<T>(s: seq<T>, count: int): seq<seq<T>> {
    if count <= 0 then [] else Subs(s, count)
  }

  function WithPick<T>(source: string, pick: seq<T>, subs: seq<Avail<T>>): seq<Avail<T>> {
    seq(|subs|, i requires 0 <= i < |subs| => subs[i][source := pick])
  }

  function Extend<T>(source: string, picks: seq<seq<T>>, subs: seq<Avail<T>>): seq<Avail<T>> {
    if picks == [] then [] else WithPick(source, picks[0], subs) + Extend(source, picks[1..], subs)
  }

  /** generateCombinations. */
  function Combos<T>(ms: Members, avail: Avail<T>): seq<Avail<T>> {
    if ms == [] then [map[]]
    else Extend(ms[0].source, Picks(At(avail, ms[0].source), ms[0].count), Combos(ms[1..], avail))
  }

  lemma {:induction false} ExtendHas<T>(source: string, picks: seq<seq<T>>, subs: seq<Avail<T>>, p: seq<T>, s: Avail<T>)
    requires p in picks && s in subs
    ensures s[source := p] in Extend(source, picks, subs)
  {
    if p == picks[0] {
      var i :| 0 <= i < |subs| && subs[i] == s;
      assert WithPick(source, picks[0], subs)[i] == s[source := p];
    } else {
      ExtendHas(source, picks[1..], subs, p, s);
    }
  }

  lemma {:induction false} ExtendOnly<T>(source: string, picks: seq<seq<T>>, subs: seq<Avail<T>>, c: Avail<T>)
    returns (p: seq<T>, s: Avail<T>)
    requires c in Extend(source, picks, subs)
    ensures p in picks && s in subs && c == s[source := p]
  {
    var w := WithPick(source, picks[0], subs);
    if c in w {
      var i :| 0 <= i < |w| && w[i] == c;
      p, s := picks[0], subs[i];
    } else {
      p, s := ExtendOnly(source, picks[1..], subs, c);
    }
  }

  lemma {:induction false} ExtendCount<T>(source: string, picks: seq<seq<T>>, subs: seq<Avail<T>>)
    ensures |Extend(source, picks, subs)| == |picks| * |subs|
  {
    if picks == [] {
    } else {
      ExtendCount(source, picks[1..], subs);
    }
  }

  /** Different pairs of a pick and a rest give different combinations. */
  lemma {:induction false} ExtendNoDup<T>(source: string, picks: seq<seq<T>>, subs: seq<Avail<T>>)
    requires NoDup(picks) && NoDup(subs) && forall s :: s in subs ==> source !in s
    ensures NoDup(Extend(source, picks, subs))
  {
    if picks == [] {
    } else {
      ExtendNoDup(source, picks[1..], subs);
      var a, b := WithPick(source, picks[0], subs), Extend(source, picks[1..], subs);
      forall i, j | 0 <= i < j < |a| ensures a[i] != a[j] {
        assert a[i] - {source} == subs[i] && a[j] - {source} == subs[j];
      }
      forall i, j | 0 <= i < |a| && 0 <= j < |b| ensures a[i] != b[j] {
        var p, _ := ExtendOnly(source, picks[1..], subs, b[j]);
        assert a[i][source] == picks[0] && b[j][source] == p;
      }
    }
  }

  // ---------- Choices: combinations of indices ----------

  /** One index set per member source. */
  type Choice = map<string, seq<nat>>

  function Indices<T>(avail: Avail<T>): Avail<nat> {
    map s | s in avail :: Range(0, |avail[s]|)
  }

  function Choices<T>(ms: Members, avail: Avail<T>): seq<Choice> {
    Combos(ms, Indices(avail))
  }

  /** Exactly `Count` positions of the source's list, in order. */
  predicate ValidPick<T>(m: Config.Member, avail: Avail<T>, c: Choice) {
    m.source in c && |c[m.source]| == m.count && Increasing(c[m.source], 0, |At(avail, m.source)|)
  }

  /** A valid pick for every member, and nothing else. */
  ghost predicate ValidChoice<T>(ms: Members, avail: Avail<T>, c: Choice) {
    (forall s :: s in c ==> HasSource(ms, s)) && AllPicks(ms, avail, c)
  }

  predicate AllPicks<T>(ms: Members, avail: Avail<T>, c: Choice) {
    forall i :: 0 <= i < |ms| ==> ValidPick(ms[i], avail, c)
  }

  /** The same, member by member. */
  predicate ValidSplit<T>(ms: Members, avail: Avail<T>, c: Choice) {
    if ms == [] then c == map[]
    else ValidPick(ms[0], avail, c) && ValidSplit(ms[1..], avail, c - {ms[0].source})
  }

  lemma {:induction false} ChoicesSound<T>(ms: Members, avail: Avail<T>, c: Choice)
    requires DistinctSources(ms) && PositiveCounts(ms) && c in Choices(ms, avail)
    ensures ValidSplit(ms, avail, c)
  {
    if ms == [] {
    } else {
      var m, rest := ms[0], ms[1..];
      var p, s := ExtendOnly(m.source, Picks(At(Indices(avail), m.source), m.count), Choices(rest, avail), c);
      ChoicesSound(rest, avail, s);
      SplitSources(rest, avail, s);
      ChooseExact(0, |At(avail, m.source)|, m.count, p);
      assert m.source !in s by { SourceNotRepeated(ms); }
      assert c - {m.source} == s;
    }
  }

  lemma SourceNotRepeated(ms: Members)
    requires ms != [] && DistinctSources(ms)
    ensures !HasSource(ms[1..], ms[0].source) && DistinctSources(ms[1..])
  {
  }

  lemma {:induction false} ChoicesComplete<T>(ms: Members, avail: Avail<T>, c: Choice)
    requires PositiveCounts(ms) && ValidSplit(ms, avail, c)
    ensures c in Choices(ms, avail)
  {
    if ms == [] {
    } else {
      var m, rest, sub := ms[0], ms[1..], c - {ms[0].source};
      ChoicesComplete(rest, avail, sub);
      ChooseExact(0, |At(avail, m.source)|, m.count, c[m.source]);
      ExtendHas(m.source, Picks(At(Indices(avail), m.source), m.count), Choices(rest, avail), c[m.source], sub);
      assert c == sub[m.source := c[m.source]];
    }
  }

  lemma {:induction false} SplitSources<T>(ms: Members, avail: Avail<T>, c: Choice)
    requires ValidSplit(ms, avail, c)
    ensures forall s :: s in c ==> HasSource(ms, s)
  {
    if ms == [] {
    } else {
      SplitSources(ms[1..], avail, c - {ms[0].source});
      SourcesSplit(ms);
    }
  }

  /** Taking the first member's pick away does not touch the others'. */
  lemma PicksAfterFirst<T>(ms: Members, avail: Avail<T>, c: Choice)
    requires ms != [] && DistinctSources(ms)
    ensures AllPicks(ms, avail, c) <==> ValidPick(ms[0], avail, c) && AllPicks(ms[1..], avail, c - {ms[0].source})
  {
    var rest, sub := ms[1..], c - {ms[0].source};
    forall i | 0 <= i < |rest| ensures ValidPick(rest[i], avail, sub) <==> ValidPick(ms[i + 1], avail, c) {
      assert rest[i] == ms[i + 1] && ms[i + 1].source != ms[0].source;
    }
    if AllPicks(rest, avail, sub) && ValidPick(ms[0], avail, c) {
      forall i | 0 <= i < |ms| ensures ValidPick(ms[i], avail, c) {
        if i > 0 {
          assert ValidPick(rest[i - 1], avail, sub);
        }
      }
    }
  }

  lemma {:induction false} SplitMeansValid<T>(ms: Members, avail: Avail<T>, c: Choice)
    requires DistinctSources(ms)
    ensures ValidSplit(ms, avail, c) <==> ValidChoice(ms, avail, c)
  {
    if ms == [] {
    } else {
      SourcesSplit(ms);
      PicksAfterFirst(ms, avail, c);
      SplitMeansValid(ms[1..], avail, c - {ms[0].source});
    }
  }

  /** Sound and complete: the choices are exactly the valid ones. */
  lemma ChoicesExact<T>(ms: Members, avail: Avail<T>, c: Choice)
    requires DistinctSources(ms) && PositiveCounts(ms)
    ensures c in Choices(ms, avail) <==> ValidChoice(ms, avail, c)
  {
    SplitMeansValid(ms, avail, c);
    if c in Choices(ms, avail) {
      ChoicesSound(ms, avail, c);
    } else if ValidSplit(ms, avail, c) {
      ChoicesComplete(ms, avail, c);
    }
  }

  lemma SourcesSplit(ms: Members)
    requires ms != []
    ensures forall s :: HasSource(ms, s) <==> s == ms[0].source || HasSource(ms[1..], s)
  {
    forall s ensures HasSource(ms, s) <==> s == ms[0].source || HasSource(ms[1..], s) {
      if i :| 0 <= i < |ms| && ms[i].source == s {
        if i > 0 {
          assert ms[1..][i - 1].source == s;
        }
      }
      if i :| 0 <= i < |ms[1..]| && ms[1..][i].source == s {
        assert ms[i + 1].source == s;
      }
    }
  }

  lemma {:induction false} ChoicesNoDup<T>(ms: Members, avail: Avail<T>)
    requires DistinctSources(ms) && PositiveCounts(ms)
    ensures NoDup(Choices(ms, avail))
  {
    if ms == [] {
    } else {
      var m, rest := ms[0], ms[1..];
      ChoicesNoDup(rest, avail);
      ChooseSorted(0, |At(avail, m.source)|, m.count);
      forall s | s in Choices(rest, avail) ensures m.source !in s {
        ChoicesExact(rest, avail, s);
      }
      ExtendNoDup(m.source, Picks(At(Indices(avail), m.source), m.count), Choices(rest, avail));
    }
  }

  /** The product of the binomials of the members. */
  function ProductOfBinomials<T>(ms: Members, avail: Avail<T>): nat
    requires PositiveCounts(ms)
  {
    if ms == [] then 1
    else Binomial(|At(avail, ms[0].source)|, ms[0].count) * ProductOfBinomials(ms[1..], avail)
  }

  lemma {:induction false} CombosCount<T>(ms: Members, avail: Avail<T>)
    requires PositiveCounts(ms)
    ensures |Combos(ms, avail)| == ProductOfBinomials(ms, avail)
  {
    if ms == [] {
    } else {
      CombosCount(ms[1..], avail);
      SubsCount(At(avail, ms[0].source), ms[0].count);
      ExtendCount(ms[0].source, Picks(At(avail, ms[0].source), ms[0].count), Combos(ms[1..], avail));
    }
  }

  // ---------- Combinations of devices are chosen by index ----------

  /** The elements at the given positions. */
  function Pick<T>(s: seq<T>, ix: seq<nat>): seq<T> {
    if ix == [] then [] else (if ix[0] < |s| then [s[ix[0]]] else []) + Pick(s, ix[1..])
  }

  lemma {:induction false} PickAt<T>(s: seq<T>, ix: seq<nat>)
    requires forall i :: 0 <= i < |ix| ==> ix[i] < |s|
    ensures |Pick(s, ix)| == |ix| && forall i :: 0 <= i < |ix| ==> Pick(s, ix)[i] == s[ix[i]]
  {
    if ix == [] {
    } else {
      PickAt(s, ix[1..]);
    }
  }

  function PickEach<T>(s: seq<T>, ixs: seq<seq<nat>>): seq<seq<T>> {
    seq(|ixs|, i requires 0 <= i < |ixs| => Pick(s, ixs[i]))
  }

  function Select<T>(avail: Avail<T>, c: Choice): Avail<T> {
    map s | s in c :: Pick(At(avail, s), c[s])
  }

  function SelectEach<T>(avail: Avail<T>, cs: seq<Choice>): seq<Avail<T>> {
    seq(|cs|, i requires 0 <= i < |cs| => Select(avail, cs[i]))
  }

  lemma {:induction false} SubsPick<T>(s: seq<T>, ix: seq<nat>, k: nat)
    requires forall i :: 0 <= i < |ix| ==> ix[i] < |s|
    ensures Subs(Pick(s, ix), k) == PickEach(s, Subs(ix, k))
  {
    if k > 0 && ix != [] {
      SubsPick(s, ix[1..], k - 1);
      SubsPick(s, ix[1..], k);
      var a, b := Subs(ix[1..], k - 1), Subs(ix[1..], k);
    }
  }

  lemma PicksByIndex<T>(s: seq<T>, count: int)
    ensures Picks(s, count) == PickEach(s, Picks(Range(0, |s|), count))
  {
    PickAt(s, Range(0, |s|));
    assert Pick(s, Range(0, |s|)) == s;
    if count > 0 {
      SubsPick(s, Range(0, |s|), count);
    }
  }

  lemma {:induction false} ExtendSelect<T>(avail: Avail<T>, source: string, picks: seq<seq<nat>>, subs: seq<Choice>)
    ensures Extend(source, PickEach(At(avail, source), picks), SelectEach(avail, subs))
         == SelectEach(avail, Extend(source, picks, subs))
  {
    if picks == [] {
    } else {
      ExtendSelect(avail, source, picks[1..], subs);
      assert PickEach(At(avail, source), picks)[1..] == PickEach(At(avail, source), picks[1..]);
      WithPickSelect(avail, source, picks[0], subs);
    }
  }

  lemma WithPickSelect<T>(avail: Avail<T>, source: string, pick: seq<nat>, subs: seq<Choice>)
    ensures WithPick(source, Pick(At(avail, source), pick), SelectEach(avail, subs)) == SelectEach(avail, WithPick(source, pick, subs))
  {
    var l, r := WithPick(source, Pick(At(avail, source), pick), SelectEach(avail, subs)), SelectEach(avail, WithPick(source, pick, subs));
    assert forall i :: 0 <= i < |subs| ==> l[i] == r[i];
  }

  /** One combination per choice, in the order of the choices. */
  lemma {:induction false} CombosByChoice<T>(ms: Members, avail: Avail<T>)
    ensures Combos(ms, avail) == SelectEach(avail, Choices(ms, avail))
  {
    if ms == [] {
      assert Select(avail, map[]) == map[];
    } else {
      CombosByChoice(ms[1..], avail);
      PicksByIndex(At(avail, ms[0].source), ms[0].count);
      ExtendSelect(avail, ms[0].source, Picks(At(Indices(avail), ms[0].source), ms[0].count), Choices(ms[1..], avail));
    }
  }
}
