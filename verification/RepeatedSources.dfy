/**
 A composition may name a source twice: validation allows it, but a later member's pick is
 then overwritten by an earlier one's.  When this repeats combinations, and when not.
 */
module RepeatedSources {

  import opened Options
  import opened Seqs
  import opened Combinations
  import opened DeviceModel
  import opened Pairing
  import Config

  /** Member j takes a source that an earlier member, or one of `gone`, has. */
  ghost predicate Repeated(ms: Members, gone: set<string>, j: nat)
    requires j < |ms|
  {
    ms[j].source in gone || exists i :: 0 <= i < j && ms[i].source == ms[j].source
  }

  function PickCount<T>(m: Config.Member, avail: Avail<T>): nat {
    if m.count <= 0 then 0 else Binomial(|At(avail, m.source)|, m.count)
  }

  ghost predicate OnePickEach<T>(ms: Members, gone: set<string>, avail: Avail<T>) {
    forall j :: 0 <= j < |ms| && Repeated(ms, gone, j) ==> PickCount(ms[j], avail) == 1
  }

  function Less(gone: set<string>): Choice -> Choice {
    (c: Choice) => c - gone
  }

  lemma RepeatedSplit<T>(ms: Members, gone: set<string>, avail: Avail<T>)
    requires ms != []
    ensures OnePickEach(ms, gone, avail) <==>
      (ms[0].source in gone ==> PickCount(ms[0], avail) == 1) && OnePickEach(ms[1..], gone + {ms[0].source}, avail)
  {
    var rest, more := ms[1..], gone + {ms[0].source};
    forall j | 0 <= j < |rest| ensures Repeated(rest, more, j) <==> Repeated(ms, gone, j + 1) {
      if i :| 0 <= i < j + 1 && ms[i].source == ms[j + 1].source {
        if i > 0 {
          assert rest[i - 1].source == rest[j].source;
        }
      }
      if i :| 0 <= i < j && rest[i].source == rest[j].source {
        assert ms[i + 1].source == ms[j + 1].source;
      }
    }
    assert Repeated(ms, gone, 0) <==> ms[0].source in gone;
    if OnePickEach(rest, more, avail) && (ms[0].source in gone ==> PickCount(ms[0], avail) == 1) {
      forall j | 0 <= j < |ms| && Repeated(ms, gone, j) ensures PickCount(ms[j], avail) == 1 {
        if j > 0 {
          assert Repeated(rest, more, j - 1);
        }
      }
    }
    if OnePickEach(ms, gone, avail) {
      forall j | 0 <= j < |rest| && Repeated(rest, more, j) ensures PickCount(rest[j], avail) == 1 {
        assert Repeated(ms, gone, j + 1);
      }
    }
  }

  /** An overwritten source leaves the rest of the choices as they are. */
  lemma LessPick(subs: seq<Choice>, source: string, pick: seq<nat>, gone: set<string>)
    ensures source in gone ==> Map(WithPick(source, pick, subs), Less(gone)) == Map(subs, Less(gone))
    ensures source !in gone ==> Map(WithPick(source, pick, subs), Less(gone)) == WithPick(source, pick, Map(subs, Less(gone + {source})))
  {
    forall i | 0 <= i < |subs| ensures
      && (source in gone ==> subs[i][source := pick] - gone == subs[i] - gone)
      && (source !in gone ==> subs[i][source := pick] - gone == (subs[i] - (gone + {source}))[source := pick])
    {
    }
  }

  lemma {:induction false} LessExtend(subs: seq<Choice>, source: string, picks: seq<seq<nat>>, gone: set<string>)
    requires source !in gone
    ensures Map(Extend(source, picks, subs), Less(gone)) == Extend(source, picks, Map(subs, Less(gone + {source})))
  {
    if picks == [] {
    } else {
      LessExtend(subs, source, picks[1..], gone);
      LessPick(subs, source, picks[0], gone);
      MapAppend(WithPick(source, picks[0], subs), Extend(source, picks[1..], subs), Less(gone));
    }
  }

  lemma GonePick(subs: seq<Choice>, source: string, picks: seq<seq<nat>>, gone: set<string>)
    requires source in gone && picks != []
    ensures Map(Extend(source, picks, subs), Less(gone)) == Map(subs, Less(gone)) + Map(Extend(source, picks[1..], subs), Less(gone))
  {
    LessPick(subs, source, picks[0], gone);
    MapAppend(WithPick(source, picks[0], subs), Extend(source, picks[1..], subs), Less(gone));
  }

  lemma RepeatNoDup<T>(a: seq<T>, b: seq<T>)
    requires a != []
    ensures !NoDup(a + (a + b))
  {
    var c := a + (a + b);
    assert c[0] == c[|a|];
  }

  /** Picks for a source that is gone repeat the same choices. */
  lemma GonePicks(subs: seq<Choice>, source: string, picks: seq<seq<nat>>, gone: set<string>)
    requires source in gone && picks != [] && subs != []
    ensures NoDup(Map(Extend(source, picks, subs), Less(gone))) <==> |picks| == 1 && NoDup(Map(subs, Less(gone)))
  {
    GonePick(subs, source, picks, gone);
    if |picks| > 1 {
      GonePick(subs, source, picks[1..], gone);
      RepeatNoDup(Map(subs, Less(gone)), Map(Extend(source, picks[1..][1..], subs), Less(gone)));
    } else {
      assert Extend(source, picks[1..], subs) == [];
      var a := Map(subs, Less(gone));
      assert a + [] == a;
    }
  }

  lemma ExtendNoDupExactly(source: string, picks: seq<seq<nat>>, subs: seq<Choice>)
    requires NoDup(picks) && forall s :: s in subs ==> source !in s
    ensures NoDup(Extend(source, picks, subs)) <==> picks == [] || NoDup(subs)
  {
    if NoDup(subs) {
      ExtendNoDup(source, picks, subs);
    } else if picks != [] {
      var i, j :| 0 <= i < j < |subs| && subs[i] == subs[j];
      var all := Extend(source, picks, subs);
      assert all[i] == subs[i][source := picks[0]] && all[j] == subs[j][source := picks[0]];
    }
  }

  lemma NoDupStep(subs: seq<Choice>, source: string, picks: seq<seq<nat>>, gone: set<string>)
    requires NoDup(picks) && picks != [] && subs != []
    ensures NoDup(Map(Extend(source, picks, subs), Less(gone))) <==>
      (source in gone ==> |picks| == 1) && NoDup(Map(subs, Less(gone + {source})))
  {
    if source in gone {
      assert gone + {source} == gone;
      GonePicks(subs, source, picks, gone);
    } else {
      LessExtend(subs, source, picks, gone);
      var fewer := Map(subs, Less(gone + {source}));
      forall s | s in fewer ensures source !in s {
        var i :| 0 <= i < |fewer| && fewer[i] == s;
        assert s == subs[i] - (gone + {source});
      }
      ExtendNoDupExactly(source, picks, fewer);
    }
  }

  lemma {:induction false} NoDupLess<T>(ms: Members, avail: Avail<T>, gone: set<string>)
    ensures NoDup(Map(Choices(ms, avail), Less(gone))) <==> Choices(ms, avail) == [] || OnePickEach(ms, gone, avail)
  {
    if ms == [] {
    } else {
      var m, subs := ms[0], Choices(ms[1..], avail);
      var picks := Picks(At(Indices(avail), m.source), m.count);
      NoDupLess(ms[1..], avail, gone + {m.source});
      RepeatedSplit(ms, gone, avail);
      PickFacts(m, avail);
      ExtendCount(m.source, picks, subs);
      if picks != [] && subs != [] {
        NoDupStep(subs, m.source, picks, gone);
        assert |picks| * |subs| > 0;
      } else {
        assert Choices(ms, avail) == [];
      }
    }
  }

  lemma PickFacts<T>(m: Config.Member, avail: Avail<T>)
    ensures var picks := Picks(Range(0, |At(avail, m.source)|), m.count); NoDup(picks) && |picks| == PickCount(m, avail)
  {
    if m.count > 0 {
      ChooseSorted(0, |At(avail, m.source)|, m.count);
      SubsCount(Range(0, |At(avail, m.source)|), m.count);
    }
  }

  // ---------- In terms of the numbers of devices ----------

  lemma {:induction false} BinomialPositive(n: nat, k: nat)
    ensures Binomial(n, k) == 0 <==> n < k
  {
    if 0 < k && 0 < n {
      BinomialPositive(n - 1, k - 1);
      BinomialPositive(n - 1, k);
    }
  }

  lemma {:induction false} BinomialOne(n: nat, k: nat)
    requires k >= 1
    ensures Binomial(n, k) == 1 <==> n == k
  {
    if n >= 1 {
      BinomialPositive(n - 1, k - 1);
      BinomialPositive(n - 1, k);
      if k > 1 {
        BinomialOne(n - 1, k - 1);
      }
    }
  }

  ghost predicate SomeTooFew<T>(ms: Members, avail: Avail<T>) {
    exists j :: 0 <= j < |ms| && |At(avail, ms[j].source)| < ms[j].count
  }

  lemma {:induction false} NoChoices<T>(ms: Members, avail: Avail<T>)
    requires PositiveCounts(ms)
    ensures Choices(ms, avail) == [] <==> SomeTooFew(ms, avail)
  {
    if ms == [] {
    } else {
      NoChoices(ms[1..], avail);
      PickFacts(ms[0], avail);
      BinomialPositive(|At(avail, ms[0].source)|, ms[0].count);
      ExtendCount(ms[0].source, Picks(At(Indices(avail), ms[0].source), ms[0].count), Choices(ms[1..], avail));
      if SomeTooFew(ms[1..], avail) {
        var j :| 0 <= j < |ms[1..]| && |At(avail, ms[1..][j].source)| < ms[1..][j].count;
        assert ms[j + 1] == ms[1..][j];
      }
      if j :| 0 <= j < |ms| && |At(avail, ms[j].source)| < ms[j].count {
        if j > 0 {
          assert ms[1..][j - 1] == ms[j];
        }
      }
    }
  }

  /** A composition's combinations are all different exactly if some member has too few
      devices, so that there are none, or every member that repeats an earlier member's
      source asks for all devices of it. */
  lemma DuplicateFreeExactly<T>(ms: Members, avail: Avail<T>)
    requires PositiveCounts(ms)
    ensures NoDup(Choices(ms, avail)) <==>
      SomeTooFew(ms, avail) || forall j :: 0 <= j < |ms| && Repeated(ms, {}, j) ==> |At(avail, ms[j].source)| == ms[j].count
  {
    var cs := Choices(ms, avail);
    NoDupLess(ms, avail, {});
    assert Map(cs, Less({})) == cs by {
      assert forall i :: 0 <= i < |cs| ==> cs[i] - {} == cs[i];
    }
    NoChoices(ms, avail);
    forall j | 0 <= j < |ms| ensures PickCount(ms[j], avail) == 1 <==> |At(avail, ms[j].source)| == ms[j].count {
      BinomialOne(|At(avail, ms[j].source)|, ms[j].count);
    }
  }

  /** An accepted configuration whose pairing emits the same combination twice. */
  lemma AcceptedConfigWithDuplicates() returns (cfg: Config.Config, avail: Avail<bool>)
    ensures Config.WellFormed(cfg) && |cfg.compositions| == 1
    ensures !NoDup(Choices(cfg.compositions[0].members, avail))
  {
    var ms := [Config.Member("gpu", 1), Config.Member("gpu", 1)];
    var comp := Config.Composition("pair", ms, [], map[], "auto", "auto", "", "", []);
    cfg := Config.Config("composite", [Config.Source("gpu", "gpu.example.com", "gpu")], [comp], None);
    avail := map["gpu" := [false, true]];
    assert cfg.sources[0].name == "gpu";
    assert Config.CompositionOk(cfg, comp);
    DuplicateFreeExactly(ms, avail);
    assert ms[0].source == ms[1].source;
    assert Repeated(ms, {}, 1);
  }
}
