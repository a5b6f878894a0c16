/**
 What matchAttribute matches: the values of an attribute compared as they are typed, not
 as the text by which the pairer groups them.
 */
module AttributeMatching {

  import opened Options
  import opened Seqs
  import opened Combinations
  import opened Text
  import opened DeviceModel
  import opened Pairing
  import opened MatchPairing
  import opened FilterPairing
  import opened Pairer
  import opened Compositions
  import opened UniqueNames
  import opened SecondConstraint
  import Config

  // ---------- Values ----------

  /** An attribute holds a string, a number or a flag; one that holds none has no value. */
  predicate Valued(a: Attribute) {
    a.str.Some? || a.num.Some? || a.flag.Some?
  }

  /** A string equals another value if it is how that value is written. */
  predicate WrittenAs(a: Attribute, s: string) {
    if a.str.Some? then a.str.value == s
    else if a.num.Some? then Spells(s, a.num.value)
    else a.flag.Some? && s == (if a.flag.value then "true" else "false")
  }

  /** Equal values: equal strings, equal numbers or equal flags.  A number never equals a
      flag; either equals a string that spells it. */
  predicate SameValue(a: Attribute, b: Attribute) {
    if a.str.Some? then WrittenAs(b, a.str.value)
    else if b.str.Some? then WrittenAs(a, b.str.value)
    else if a.num.Some? then b.num.Some? && a.num.value == b.num.value
    else a.flag.Some? && b.num.None? && b.flag.Some? && a.flag.value == b.flag.value
  }

  /** Two devices of one group. */
  predicate Matching(key: string, d: Device, e: Device) {
    && key in d.attrs && Valued(d.attrs[key])
    && key in e.attrs && Valued(e.attrs[key])
    && SameValue(d.attrs[key], e.attrs[key])
  }

  // ---------- The text of a value ----------

  /** Devices are grouped by an attribute exactly if they hold a value of it, and two of
      them are in one group exactly if the values are equal. */
  lemma GroupedByValue(d: Device, e: Device, key: string)
    ensures (exists v :: HasValue(key, v)("", d)) <==> key in d.attrs && Valued(d.attrs[key])
    ensures (exists v :: HasValue(key, v)("", d) && HasValue(key, v)("", e)) <==> Matching(key, d, e)
  {
    assert AttributeString(d.attrs, key).Some? ==> HasValue(key, AttributeString(d.attrs, key).value)("", d);
    if key in d.attrs && Valued(d.attrs[key]) && key in e.attrs && Valued(e.attrs[key]) {
      var a, b := d.attrs[key], e.attrs[key];
      var s, t := AttributeString(d.attrs, key).value, AttributeString(e.attrs, key).value;
      WrittenExactly(a, t, d, key);
      WrittenExactly(b, s, e, key);
      if a.str.None? && b.str.None? {
        NoMixing(a, b);
      }
      assert s == t <==> SameValue(a, b);
      assert s == t ==> HasValue(key, s)("", d) && HasValue(key, s)("", e);
    }
  }

  lemma WrittenExactly(a: Attribute, s: string, d: Device, key: string)
    requires key in d.attrs && d.attrs[key] == a
    ensures WrittenAs(a, s) <==> AttributeString(d.attrs, key) == Some(s)
  {
    if a.num.Some? {
      SpellsExactly(s, a.num.value);
    }
  }

  lemma NoMixing(a: Attribute, b: Attribute)
    ensures a.num.Some? ==> FormatInt(a.num.value) != "true" && FormatInt(a.num.value) != "false"
    ensures b.num.Some? ==> FormatInt(b.num.value) != "true" && FormatInt(b.num.value) != "false"
    ensures a.num.Some? && b.num.Some? ==> (FormatInt(a.num.value) == FormatInt(b.num.value) <==> a.num.value == b.num.value)
  {
    if a.num.Some? {
      FormatSpells(a.num.value);
    }
    if b.num.Some? {
      FormatSpells(b.num.value);
    }
  }

  // ---------- Combinations whose devices agree ----------

  /** Any two devices of a combination match. */
  predicate Agree(key: string, c: Avail<Device>) {
    forall s, t, i, j :: s in c && t in c && 0 <= i < |c[s]| && 0 <= j < |c[t]| ==> Matching(key, c[s][i], c[t][j])
  }

  function Agreeing(key: string): Avail<Device> -> bool {
    c => Agree(key, c)
  }

  /** Combinations choose a device: members exist and ask for at least one. */
  lemma CombosNotEmpty(ms: Members, avail: Avail<Device>, c: Avail<Device>)
    requires ms != [] && DistinctSources(ms) && PositiveCounts(ms) && c in Combos(ms, avail)
    ensures ms[0].source in c && |c[ms[0].source]| > 0 && c[ms[0].source][0] in At(avail, ms[0].source)
  {
    CombosByChoice(ms, avail);
    var i :| 0 <= i < |Combos(ms, avail)| && Combos(ms, avail)[i] == c;
    var ch := Choices(ms, avail)[i];
    ChoicesExact(ms, avail, ch);
    assert ValidPick(ms[0], avail, ch);
    PickAt(At(avail, ms[0].source), ch[ms[0].source]);
  }

  /** A combination agrees exactly if all its devices hold the value of its first one. */
  lemma AgreeByValue(key: string, c: Avail<Device>, s: string, v: string)
    requires s in c && |c[s]| > 0 && HasValue(key, v)("", c[s][0])
    ensures EveryIn(c, HasValue(key, v)) <==> Agree(key, c)
  {
    if Agree(key, c) {
      forall t | t in c ensures Every(c[t], ForSource(HasValue(key, v), t)) {
        forall j | 0 <= j < |c[t]| ensures HasValue(key, v)(t, c[t][j]) {
          assert Matching(key, c[s][0], c[t][j]);
          GroupedByValue(c[s][0], c[t][j], key);
        }
      }
    }
    if EveryIn(c, HasValue(key, v)) {
      forall t, u, i, j | t in c && u in c && 0 <= i < |c[t]| && 0 <= j < |c[u]| ensures Matching(key, c[t][i], c[u][j]) {
        assert ForSource(HasValue(key, v), t)(c[t][i]) && ForSource(HasValue(key, v), u)(c[u][j]);
        assert HasValue(key, v)("", c[t][i]) && HasValue(key, v)("", c[u][j]);
        GroupedByValue(c[t][i], c[u][j], key);
      }
    }
  }

  // ---------- Every combination is in one group ----------

  lemma {:induction false} SplitFilter<A, B>(s: seq<A>, p: A -> bool, q: A -> bool, both: A -> bool, h: A -> B)
    requires forall x :: x in s ==> (both(x) <==> p(x) || q(x)) && !(p(x) && q(x))
    ensures multiset(Map(Filter(s, both), h)) == multiset(Map(Filter(s, p), h)) + multiset(Map(Filter(s, q), h))
  {
    if s == [] {
    } else {
      SplitFilter(s[1..], p, q, both, h);
      MapFilterHead(s, both, h);
      MapFilterHead(s, p, h);
      MapFilterHead(s, q, h);
    }
  }

  lemma MapFilterHead<A, B>(s: seq<A>, p: A -> bool, h: A -> B)
    requires s != []
    ensures multiset(Map(Filter(s, p), h)) == multiset(if p(s[0]) then [h(s[0])] else []) + multiset(Map(Filter(s[1..], p), h))
  {
    var front := if p(s[0]) then [s[0]] else [];
    MapAppend(front, Filter(s[1..], p), h);
    assert Map(front, h) == if p(s[0]) then [h(s[0])] else [];
  }

  /** The elements with one of the listed keys, grouped by key. */
  lemma {:induction false} ByKey<K, A, B>(order: seq<K>, s: seq<A>, p: K -> A -> bool, h: A -> B, f: K -> seq<B>, any: A -> bool)
    requires NoDup(order) && forall k :: k in order ==> f(k) == Map(Filter(s, p(k)), h)
    requires forall x :: x in s ==> (any(x) <==> exists k :: k in order && p(k)(x))
    requires forall x, k, l :: x in s && k in order && l in order && p(k)(x) && p(l)(x) ==> k == l
    ensures multiset(FlatMap(order, f)) == multiset(Map(Filter(s, any), h))
  {
    if order == [] {
      FilterNone(s, any);
    } else {
      var rest := order[1..];
      var later := (x: A) => any(x) && !p(order[0])(x);
      forall x | x in s ensures later(x) <==> exists k :: k in rest && p(k)(x) {
        if k :| k in rest && p(k)(x) {
          assert k in order && k != order[0];
        }
        if later(x) {
          var k :| k in order && p(k)(x);
          assert k in rest;
        }
      }
      ByKey(rest, s, p, h, f, later);
      assert order[0] in order;
      SplitFilter(s, p(order[0]), later, any, h);
    }
  }

  lemma {:induction false} FilterNone<A>(s: seq<A>, p: A -> bool)
    requires forall x :: x in s ==> !p(x)
    ensures Filter(s, p) == []
  {
    if s == [] {
    } else {
      FilterNone(s[1..], p);
    }
  }

  // ---------- The composite devices of a composition ----------

  /** The test by which the group of a value selects among all combinations. */
  function InGroupOf(attr: string): string -> Avail<Device> -> bool {
    v => ComboPasses(HasValue(attr, v))
  }

  lemma GroupCombos(ms: Members, devs: Avail<Device>, attr: string, v: string)
    requires DistinctSources(ms)
    ensures Combos(ms, Group(ms, devs, attr, v)) == Filter(Combos(ms, devs), InGroupOf(attr)(v))
  {
    forall i | 0 <= i < |ms|
      ensures At(Group(ms, devs, attr, v), ms[i].source) == Passing(At(devs, ms[i].source), ms[i].source, HasValue(attr, v))
    {
      GroupIs(ms, devs, attr, v, ms[i].source);
    }
    CombosFilter(ms, devs, Group(ms, devs, attr, v), HasValue(attr, v));
  }

  lemma OneGroup(ms: Members, devs: Avail<Device>, attr: string, order: seq<string>, c: Avail<Device>)
    requires ms != [] && DistinctSources(ms) && PositiveCounts(ms)
    requires IsOrder(ms, devs, attr, order) && c in Combos(ms, devs)
    ensures Agree(attr, c) <==> exists v :: v in order && InGroupOf(attr)(v)(c)
    ensures forall v, w :: InGroupOf(attr)(v)(c) && InGroupOf(attr)(w)(c) ==> v == w
  {
    CombosNotEmpty(ms, devs, c);
    var s := ms[0].source;
    var d := c[s][0];
    forall v | InGroupOf(attr)(v)(c) ensures HasValue(attr, v)("", d) && Agree(attr, c) && v in order {
      assert Every(c[s], ForSource(HasValue(attr, v), s));
      assert ForSource(HasValue(attr, v), s)(d);
      AgreeByValue(attr, c, s, v);
      assert Occurs(ms, devs, attr, v);
    }
    if Agree(attr, c) {
      assert Matching(attr, d, d);
      GroupedByValue(d, d, attr);
      var v :| HasValue(attr, v)("", d);
      AgreeByValue(attr, c, s, v);
      assert InGroupOf(attr)(v)(c);
    }
  }

  lemma MatchedAgree(srcs: Sources, comp: Config.Composition, devs: Avail<Device>, attr: string, order: seq<string>)
    requires comp.members != [] && DistinctSources(comp.members) && PositiveCounts(comp.members)
    requires IsOrder(comp.members, devs, attr, order)
    ensures multiset(Matched(srcs, comp, devs, attr, order))
         == multiset(Map(Filter(Combos(comp.members, devs), Agreeing(attr)), Builder(srcs, comp)))
  {
    var ms := comp.members;
    forall v ensures Piece(srcs, comp, devs, attr)(v) == Map(Filter(Combos(ms, devs), InGroupOf(attr)(v)), Builder(srcs, comp)) {
      GroupCombos(ms, devs, attr, v);
    }
    forall c | c in Combos(ms, devs)
      ensures Agreeing(attr)(c) <==> exists v :: v in order && InGroupOf(attr)(v)(c)
      ensures forall v, w :: InGroupOf(attr)(v)(c) && InGroupOf(attr)(w)(c) ==> v == w
    {
      OneGroup(ms, devs, attr, order, c);
    }
    ByKey(order, Combos(ms, devs), InGroupOf(attr), Builder(srcs, comp), Piece(srcs, comp, devs, attr), Agreeing(attr));
  }

  /** The composite devices of a matchAttribute composition are those of all combinations
      of its filtered devices in which any two devices agree on the typed value. */
  lemma MatchedByTypedValue(st: Setting, comp: Config.Composition, devs: Avail<Device>, result: seq<CompositeDevice>)
    requires Usable(st.srcs, comp) && comp.members != [] && DistinctSources(comp.members)
    requires !comp.Explicit() && comp.constraints != [] && IsPairing(st, comp, devs, result)
    ensures var fewer := Filtered(comp.members, devs, FilterTest(comp.filters, st.cel));
      multiset(result) == multiset(Map(Filter(Combos(comp.members, fewer), Agreeing(comp.constraints[0].attribute)), Builder(st.srcs, comp)))
  {
    var fewer, attr := Filtered(comp.members, devs, FilterTest(comp.filters, st.cel)), comp.constraints[0].attribute;
    var order :| IsOrder(comp.members, fewer, attr, order) && multiset(result) == multiset(Matched(st.srcs, comp, fewer, attr, order));
    MatchedAgree(st.srcs, comp, fewer, attr, order);
  }

  // ---------- Agreement, with repeated sources as well ----------

  /** The group of a value holds only devices of that value. */
  lemma {:induction false} GroupHolds(ms: Members, devs: Avail<Device>, attr: string, v: string, s: string, d: Device)
    requires d in At(Group(ms, devs, attr, v), s)
    ensures HasValue(attr, v)("", d)
  {
    if ms != [] {
      var n := |ms| - 1;
      if d in At(Group(ms[..n], devs, attr, v), s) {
        GroupHolds(ms[..n], devs, attr, v, s, d);
      } else {
        FilterMember(At(devs, s), ForSource(HasValue(attr, v), s), d);
        assert HasValue(attr, v)(s, d);
      }
    }
  }

  lemma {:induction false} ComboFrom(ms: Members, avail: Avail<Device>, c: Avail<Device>, s: string, d: Device)
    requires c in Combos(ms, avail) && s in c && d in c[s]
    ensures d in At(avail, s)
  {
    if ms != [] {
      var m := ms[0];
      var p, sub := ExtendOnly(m.source, Picks(At(avail, m.source), m.count), Combos(ms[1..], avail), c);
      if s == m.source {
        SubsDrawn(At(avail, s), m.count, p);
      } else {
        ComboFrom(ms[1..], avail, sub, s, d);
      }
    }
  }

  lemma GroupComboHas(ms: Members, devs: Avail<Device>, attr: string, v: string, c: Avail<Device>)
    requires c in Combos(ms, Group(ms, devs, attr, v))
    ensures EveryIn(c, HasValue(attr, v))
  {
    forall s | s in c ensures Every(c[s], ForSource(HasValue(attr, v), s)) {
      forall i | 0 <= i < |c[s]| ensures ForSource(HasValue(attr, v), s)(c[s][i]) {
        ComboFrom(ms, Group(ms, devs, attr, v), c, s, c[s][i]);
        GroupHolds(ms, devs, attr, v, s, c[s][i]);
        assert HasValue(attr, v)("", c[s][i]);
      }
    }
  }

  lemma BuiltAgree(srcs: Sources, comp: Config.Composition, devs: Avail<Device>, attr: string, v: string, c: Avail<Device>, i: nat, j: nat)
    requires Indexed(srcs) && Known(srcs, comp.members) && c in Combos(comp.members, Group(comp.members, devs, attr, v))
    requires var ds := Build(srcs, comp, c).mapping.members; i < |ds| && j < |ds|
    ensures var ds := Build(srcs, comp, c).mapping.members; Matching(attr, ds[i].device, ds[j].device)
  {
    var ms, ds := comp.members, Build(srcs, comp, c).mapping.members;
    GroupComboHas(ms, devs, attr, v, c);
    CombosKeys(ms, Group(ms, devs, attr, v), c);
    ComboPassesByMembers(ms, c, HasValue(attr, v));
    BuiltPasses(srcs, ms, c, HasValue(attr, v));
    assert HasValue(attr, v)(ds[i].source, ds[i].device) && HasValue(attr, v)(ds[j].source, ds[j].device);
    assert HasValue(attr, v)("", ds[i].device) && HasValue(attr, v)("", ds[j].device);
    GroupedByValue(ds[i].device, ds[j].device, attr);
  }

  /** All members of a composite device agree on the value of the first constraint, also
      where a source is used twice. */
  lemma MembersAgree(st: Setting, comp: Config.Composition, devs: Avail<Device>, result: seq<CompositeDevice>, cd: CompositeDevice, i: nat, j: nat)
    requires Indexed(st.srcs) && Usable(st.srcs, comp)
    requires !comp.Explicit() && comp.constraints != [] && IsPairing(st, comp, devs, result)
    requires cd in result && i < |cd.mapping.members| && j < |cd.mapping.members|
    ensures Matching(comp.constraints[0].attribute, cd.mapping.members[i].device, cd.mapping.members[j].device)
  {
    var fewer, attr := Filtered(comp.members, devs, FilterTest(comp.filters, st.cel)), comp.constraints[0].attribute;
    var order :| IsOrder(comp.members, fewer, attr, order) && multiset(result) == multiset(Matched(st.srcs, comp, fewer, attr, order));
    assert cd in multiset(result);
    var v, c := MatchedFrom(st.srcs, comp, fewer, attr, order, cd);
    BuiltAgree(st.srcs, comp, fewer, attr, v, c, i, j);
  }
}
