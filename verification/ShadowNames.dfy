/**
 When shadow claim names are apart.  A name is "shadow-", eight characters of hash, the
 member's source and its device, joined by hyphens and cut to 63 characters; sources and
 devices may contain hyphens themselves.
 */
module ShadowNames {

  import opened Options
  import opened Kubernetes
  import opened Text
  import opened DeviceModel
  import opened ShadowMachine
  import opened WorkList

  const HASH := 8

  /** What the name tells of the member, and how much of it fits. */
  function Suffix(m: DeviceMember): string { m.source + "-" + m.device.name }

  const ROOM := MAX_NAME - HASH - 8

  function Cut(s: string): string {
    if |s| > ROOM then s[..ROOM] else s
  }

  predicate Fits(m: DeviceMember) { |Suffix(m)| <= ROOM }

  function Head(hash: string -> string, claim: string): string {
    "shadow-" + hash(claim) + "-"
  }

  lemma NameSplit(hash: string -> string, claim: string, m: DeviceMember)
    requires |hash(claim)| == HASH
    ensures |Head(hash, claim)| == MAX_NAME - ROOM
    ensures ShadowName(hash, claim, m) == Head(hash, claim) + Cut(Suffix(m))
  {
    var head := Head(hash, claim);
    assert "shadow-" + hash(claim) + "-" + m.source + "-" + m.device.name == head + Suffix(m);
    if |Suffix(m)| > ROOM {
      assert (head + Suffix(m))[..MAX_NAME] == head + Suffix(m)[..ROOM];
    }
  }

  lemma HeadInjective(hash: string -> string, claim: string, other: string)
    requires Head(hash, claim) == Head(hash, other) && |hash(claim)| == |hash(other)| == HASH
    ensures hash(claim) == hash(other)
  {
    assert Head(hash, claim)[7..7 + HASH] == hash(claim) && Head(hash, other)[7..7 + HASH] == hash(other);
  }

  /** Two shadow names are equal exactly if hashes and cut suffixes are. */
  lemma NamesEqualExactly(hash: string -> string, claim: string, a: DeviceMember, other: string, b: DeviceMember)
    requires |hash(claim)| == |hash(other)| == HASH
    ensures ShadowName(hash, claim, a) == ShadowName(hash, other, b) <==> hash(claim) == hash(other) && Cut(Suffix(a)) == Cut(Suffix(b))
  {
    NameSplit(hash, claim, a);
    NameSplit(hash, other, b);
    if ShadowName(hash, claim, a) == ShadowName(hash, other, b) {
      var n := MAX_NAME - ROOM;
      assert ShadowName(hash, claim, a)[..n] == Head(hash, claim) && ShadowName(hash, other, b)[..n] == Head(hash, other);
      assert ShadowName(hash, claim, a)[n..] == Cut(Suffix(a)) && ShadowName(hash, other, b)[n..] == Cut(Suffix(b));
      HeadInjective(hash, claim, other);
    }
  }

  // ---------- Two sources ----------

  /** One source is the other, or the other and a hyphen and more. */
  predicate Extends(s: string, t: string) { s + "-" <= t + "-" }

  lemma PrefixOfOne(s: string, t: string, d: string, e: string)
    requires s + "-" + d == t + "-" + e && |s| <= |t|
    ensures Extends(s, t)
  {
    var x := s + "-" + d;
    assert x[..|s| + 1] == s + "-" && x[..|t| + 1] == t + "-";
    assert (t + "-")[..|s| + 1] == x[..|t| + 1][..|s| + 1] == x[..|s| + 1];
  }

  lemma ExtensionCollides(s: string, t: string) returns (d: string, e: string)
    requires Extends(s, t)
    ensures d != "" && e != "" && s + "-" + d == t + "-" + e && |d| == |t| - |s| + 1 && |e| == 1
  {
    e := "0";
    d := (t + "-")[|s| + 1..] + e;
    assert t + "-" == (s + "-") + (t + "-")[|s| + 1..];
  }

  function MemberNamed(source: string, device: string): DeviceMember {
    DeviceMember(source, "", "", Device("", device, map[]))
  }

  /** Exactly which pairs of sources have devices, with names that need no cut, whose shadow
      names collide: those of which one extends the other by a hyphen. */
  lemma SourcesCollideExactly(hash: string -> string, claim: string, s: string, t: string)
    requires |hash(claim)| == HASH && |s| <= ROOM - 2 && |t| <= ROOM - 2
    ensures (exists a: DeviceMember, b: DeviceMember :: && a.source == s && b.source == t && a.device.name != "" && b.device.name != "" && Fits(a) && Fits(b)
                                           && ShadowName(hash, claim, a) == ShadowName(hash, claim, b))
       <==> Extends(s, t) || Extends(t, s)
  {
    if a: DeviceMember, b: DeviceMember :| a.source == s && b.source == t && Fits(a) && Fits(b) && ShadowName(hash, claim, a) == ShadowName(hash, claim, b) {
      NamesEqualExactly(hash, claim, a, claim, b);
      if |s| <= |t| {
        PrefixOfOne(s, t, a.device.name, b.device.name);
      } else {
        PrefixOfOne(t, s, b.device.name, a.device.name);
      }
    }
    if Extends(s, t) {
      var d, e := ExtensionCollides(s, t);
      var a, b := MemberNamed(s, d), MemberNamed(t, e);
      NamesEqualExactly(hash, claim, a, claim, b);
      assert Fits(a) && Fits(b);
    } else if Extends(t, s) {
      var e, d := ExtensionCollides(t, s);
      var a, b := MemberNamed(s, d), MemberNamed(t, e);
      NamesEqualExactly(hash, claim, a, claim, b);
      assert Fits(a) && Fits(b);
    }
  }

  /** No source extends another by a hyphen. */
  ghost predicate SourcesApart(sources: set<string>) {
    forall s, t :: s in sources && t in sources && Extends(s, t) ==> s == t
  }

  /** Then a suffix determines source and device. */
  lemma SuffixInjective(sources: set<string>, a: DeviceMember, b: DeviceMember)
    requires SourcesApart(sources) && a.source in sources && b.source in sources && Suffix(a) == Suffix(b)
    ensures a.source == b.source && a.device.name == b.device.name
  {
    if |a.source| <= |b.source| {
      PrefixOfOne(a.source, b.source, a.device.name, b.device.name);
    } else {
      PrefixOfOne(b.source, a.source, b.device.name, a.device.name);
    }
    assert Suffix(a)[|a.source| + 1..] == a.device.name && Suffix(b)[|b.source| + 1..] == b.device.name;
  }

  // ---------- All claims ----------

  /** What every claim asks of the driver, by UID. */
  datatype Requests = Requests(driver: string, hash: string -> string, store: Lookup, all: map<string, Request>)

  function MineOf(rqs: Requests, u: string): seq<Allocation>
    requires u in rqs.all
  {
    Mine(rqs.driver, rqs.all[u].results)
  }

  /** The claims' work lists are those that prepareClaim builds. */
  ghost predicate BuiltFrom(ctx: Context, rqs: Requests) {
    && ctx.claims.Keys == rqs.all.Keys
    && (forall u :: u in rqs.all ==> |rqs.hash(rqs.all[u].name)| == HASH && AllKnown(rqs.store, MineOf(rqs, u)))
    && (forall u :: u in rqs.all ==> ctx.claims[u].work == WorkFor(rqs.hash, rqs.all[u], rqs.store, MineOf(rqs, u)))
  }

  /** The members of a claim's composite devices, in work order. */
  function Needed(store: Lookup, mine: seq<Allocation>): seq<DeviceMember>
    requires AllKnown(store, mine)
  {
    if mine == [] then [] else Needed(store, mine[..|mine| - 1]) + MembersOf(store, mine[|mine| - 1])
  }

  lemma {:induction false} WorkKeys(hash: string -> string, rq: Request, store: Lookup, mine: seq<Allocation>)
    requires AllKnown(store, mine)
    ensures |WorkFor(hash, rq, store, mine)| == |Needed(store, mine)|
    ensures forall j :: 0 <= j < |Needed(store, mine)| ==>
      WorkFor(hash, rq, store, mine)[j].key == Key(rq.ns, ShadowName(hash, rq.name, Needed(store, mine)[j]))
  {
    if mine == [] {
    } else {
      WorkKeys(hash, rq, store, mine[..|mine| - 1]);
    }
  }

  function NeededBy(rqs: Requests, u: string): seq<DeviceMember>
    requires u in rqs.all && AllKnown(rqs.store, MineOf(rqs, u))
  {
    Needed(rqs.store, MineOf(rqs, u))
  }

  ghost predicate ShareSuffix(a: seq<DeviceMember>, b: seq<DeviceMember>) {
    exists i, j :: 0 <= i < |a| && 0 <= j < |b| && Cut(Suffix(a[i])) == Cut(Suffix(b[j]))
  }

  /** Two claims of one namespace whose names have the same hash need members of one cut
      suffix. */
  ghost predicate Clash(rqs: Requests, u: string, v: string)
    requires u in rqs.all && v in rqs.all && AllKnown(rqs.store, MineOf(rqs, u)) && AllKnown(rqs.store, MineOf(rqs, v))
  {
    && rqs.all[u].ns == rqs.all[v].ns && rqs.hash(rqs.all[u].name) == rqs.hash(rqs.all[v].name)
    && ShareSuffix(NeededBy(rqs, u), NeededBy(rqs, v))
  }

  lemma KeysOf(ctx: Context, rqs: Requests, u: string)
    requires BuiltFrom(ctx, rqs) && u in ctx.claims
    ensures |ctx.claims[u].work| == |NeededBy(rqs, u)|
    ensures forall j :: 0 <= j < |NeededBy(rqs, u)| ==>
      ctx.claims[u].work[j].key == Key(rqs.all[u].ns, ShadowName(rqs.hash, rqs.all[u].name, NeededBy(rqs, u)[j]))
  {
    WorkKeys(rqs.hash, rqs.all[u], rqs.store, MineOf(rqs, u));
  }

  lemma SharedNameClashes(ctx: Context, rqs: Requests, u: string, v: string, k: Key)
    requires BuiltFrom(ctx, rqs) && u in ctx.claims && v in ctx.claims && ctx.claims[u].Owns(k) && ctx.claims[v].Owns(k)
    ensures Clash(rqs, u, v)
  {
    var i :| 0 <= i < |ctx.claims[u].work| && ctx.claims[u].work[i].key == k;
    var j :| 0 <= j < |ctx.claims[v].work| && ctx.claims[v].work[j].key == k;
    KeysOf(ctx, rqs, u);
    KeysOf(ctx, rqs, v);
    NamesEqualExactly(rqs.hash, rqs.all[u].name, NeededBy(rqs, u)[i], rqs.all[v].name, NeededBy(rqs, v)[j]);
  }

  lemma ClashSharesName(ctx: Context, rqs: Requests, u: string, v: string) returns (k: Key)
    requires BuiltFrom(ctx, rqs) && u in ctx.claims && v in ctx.claims && Clash(rqs, u, v)
    ensures ctx.claims[u].Owns(k) && ctx.claims[v].Owns(k)
  {
    var a, b := NeededBy(rqs, u), NeededBy(rqs, v);
    var i, j :| 0 <= i < |a| && 0 <= j < |b| && Cut(Suffix(a[i])) == Cut(Suffix(b[j]));
    KeysOf(ctx, rqs, u);
    KeysOf(ctx, rqs, v);
    NamesEqualExactly(rqs.hash, rqs.all[u].name, a[i], rqs.all[v].name, b[j]);
    k := ctx.claims[u].work[i].key;
  }

  /** No two claims share a shadow name if and only if no two clash: in particular if the
      hashes differ within a namespace, however long or hyphenated the members' names are. */
  lemma NamesApartExactly(ctx: Context, rqs: Requests)
    requires BuiltFrom(ctx, rqs)
    ensures NamesApart(ctx) <==> forall u, v :: u in rqs.all && v in rqs.all && u != v ==> !Clash(rqs, u, v)
  {
    if NamesApart(ctx) {
      forall u, v | u in rqs.all && v in rqs.all && u != v ensures !Clash(rqs, u, v) {
        if Clash(rqs, u, v) {
          var k := ClashSharesName(ctx, rqs, u, v);
          assert false;
        }
      }
    } else {
      var u, v, k :| u in ctx.claims && v in ctx.claims && ctx.claims[u].Owns(k) && ctx.claims[v].Owns(k) && u != v;
      SharedNameClashes(ctx, rqs, u, v, k);
    }
  }

  // ---------- Members of one claim ----------

  /** The member names are short and no source extends another. */
  ghost predicate Readable(ms: seq<DeviceMember>) {
    && SourcesApart(set i | 0 <= i < |ms| :: ms[i].source)
    && forall i :: 0 <= i < |ms| ==> Fits(ms[i])
  }

  predicate SameDevice(a: DeviceMember, b: DeviceMember) {
    a.source == b.source && a.device.name == b.device.name
  }

  /** Then members of one claim share a shadow name exactly if they are one device. */
  lemma SharedByDeviceExactly(ctx: Context, rqs: Requests, u: string, i: nat, j: nat)
    requires BuiltFrom(ctx, rqs) && u in ctx.claims && i < |ctx.claims[u].work| && j < |ctx.claims[u].work|
    ensures |NeededBy(rqs, u)| == |ctx.claims[u].work|
    ensures Readable(NeededBy(rqs, u)) ==>
      (ctx.claims[u].work[i].key == ctx.claims[u].work[j].key <==> SameDevice(NeededBy(rqs, u)[i], NeededBy(rqs, u)[j]))
  {
    var ms := NeededBy(rqs, u);
    KeysOf(ctx, rqs, u);
    NamesEqualExactly(rqs.hash, rqs.all[u].name, ms[i], rqs.all[u].name, ms[j]);
    if Readable(ms) && Suffix(ms[i]) == Suffix(ms[j]) {
      SuffixInjective(set x | 0 <= x < |ms| :: ms[x].source, ms[i], ms[j]);
    }
  }

  /** So every member gets its own CDI IDs if its device occurs once in the claim, and in
      general exactly if a device gets the same in all its places. */
  lemma OwnAnswersExactly(ctx: Context, rqs: Requests, u: string)
    requires BuiltFrom(ctx, rqs) && u in ctx.claims && Readable(NeededBy(rqs, u))
    ensures |NeededBy(rqs, u)| == |ctx.claims[u].work|
    ensures SameAnswers(ctx.cdi, ctx.claims[u]) <==>
      forall i, j :: 0 <= i < |ctx.claims[u].work| && 0 <= j < |ctx.claims[u].work| && SameDevice(NeededBy(rqs, u)[i], NeededBy(rqs, u)[j]) ==>
        ctx.cdi(ctx.claims[u].work[i].target) == ctx.cdi(ctx.claims[u].work[j].target)
  {
    KeysOf(ctx, rqs, u);
    forall i, j | 0 <= i < |ctx.claims[u].work| && 0 <= j < |ctx.claims[u].work|
      ensures ctx.claims[u].work[i].key == ctx.claims[u].work[j].key <==> SameDevice(NeededBy(rqs, u)[i], NeededBy(rqs, u)[j])
    {
      SharedByDeviceExactly(ctx, rqs, u, i, j);
    }
  }
}
