/** The driver configuration and its validation. */
module Config {

  import opened Options

  datatype Source = Source(name: string, driver: string, deviceClass: string)
  datatype Member = Member(source: string, count: int)
  datatype Constraint = Constraint(kind: string, attribute: string)
  datatype ExplicitPair = ExplicitPair(selectors: map<string, string>, rail: int, numa: int)
  datatype NodePool = NodePool(name: string, pairs: seq<ExplicitPair>)

  datatype Composition = Composition(
    name: string, members: seq<Member>, constraints: seq<Constraint>, filters: map<string, string>,
    pairingMode: string, transportMode: string, deviceClass: string,
    nodePoolLabelKey: string, nodePools: seq<NodePool>)
  {
    function EffectiveDeviceClass(): string {
      if deviceClass != "" then deviceClass else "composite-" + name
    }

    predicate HasMember(source: string) {
      exists i :: 0 <= i < |members| && members[i].source == source
    }

    predicate Explicit() {
      pairingMode == "explicit"
    }
  }

  datatype Config = Config(driver: string, sources: seq<Source>, compositions: seq<Composition>, deviceParams: Option<string>) {
    predicate HasSource(name: string) {
      exists i :: 0 <= i < |sources| && sources[i].name == name
    }
  }

  // ---------- Well-formedness, declaratively ----------

  predicate SourceOk(cfg: Config, s: Source) {
    s.name != "" && s.driver != "" && s.deviceClass != "" && s.driver != cfg.driver
  }

  ghost predicate SourcesOk(cfg: Config) {
    && (forall i :: 0 <= i < |cfg.sources| ==> SourceOk(cfg, cfg.sources[i]))
    && (forall i, j :: 0 <= i < j < |cfg.sources| ==> cfg.sources[i].name != cfg.sources[j].name)
  }

  /** Selectors exactly for the member sources, none empty. */
  ghost predicate PairOk(c: Composition, p: ExplicitPair) {
    && (forall s :: s in p.selectors <==> c.HasMember(s))
    && (forall s :: s in p.selectors ==> p.selectors[s] != "")
    && p.rail >= 0 && p.numa >= 0
  }

  ghost predicate PoolOk(c: Composition, np: NodePool) {
    np.name != "" && np.pairs != [] && forall i :: 0 <= i < |np.pairs| ==> PairOk(c, np.pairs[i])
  }

  ghost predicate PoolsOk(c: Composition) {
    && c.nodePools != [] && c.nodePoolLabelKey != "" && c.constraints == []
    && (forall i :: 0 <= i < |c.nodePools| ==> PoolOk(c, c.nodePools[i]))
    && (forall i, j :: 0 <= i < j < |c.nodePools| ==> c.nodePools[i].name != c.nodePools[j].name)
  }

  ghost predicate OneSource(c: Composition) {
    forall i, j :: 0 <= i < |c.members| && 0 <= j < |c.members| ==> c.members[i].source == c.members[j].source
  }

  ghost predicate MembersOk(cfg: Config, c: Composition) {
    c.members != [] && forall i :: 0 <= i < |c.members| ==> cfg.HasSource(c.members[i].source) && c.members[i].count >= 1
  }

  predicate ConstraintOk(k: Constraint) {
    k.kind == "matchAttribute" && k.attribute != ""
  }

  predicate ModesOk(c: Composition) {
    && (c.pairingMode == "" || c.pairingMode == "auto" || c.pairingMode == "explicit")
    && (c.transportMode == "" || c.transportMode == "auto" || c.transportMode == "ethernet" || c.transportMode == "infiniband")
  }

  ghost predicate CompositionOk(cfg: Config, c: Composition) {
    && c.name != ""
    && MembersOk(cfg, c)
    && (forall i :: 0 <= i < |c.constraints| ==> ConstraintOk(c.constraints[i]))
    && (forall s :: s in c.filters ==> cfg.HasSource(s))
    && ModesOk(c)
    && (if c.Explicit() then PoolsOk(c) else c.nodePools == [] && (c.constraints == [] ==> OneSource(c)))
  }

  predicate Apart(c: Composition, d: Composition) {
    c.name != d.name && c.EffectiveDeviceClass() != d.EffectiveDeviceClass()
  }

  ghost predicate WellFormed(cfg: Config) {
    && cfg.driver != "" && cfg.sources != [] && cfg.compositions != []
    && SourcesOk(cfg)
    && (forall i :: 0 <= i < |cfg.compositions| ==> CompositionOk(cfg, cfg.compositions[i]))
    && (forall i, j :: 0 <= i < j < |cfg.compositions| ==> Apart(cfg.compositions[i], cfg.compositions[j]))
    && cfg.deviceParams != Some("")
  }

  // ---------- The validator ----------

  method CheckSources(cfg: Config) returns (ok: bool, names: set<string>)
    ensures ok <==> SourcesOk(cfg)
    ensures ok ==> forall s :: s in names <==> cfg.HasSource(s)
  {
    names := {};
    for i := 0 to |cfg.sources|
      invariant forall j :: 0 <= j < i ==> SourceOk(cfg, cfg.sources[j])
      invariant forall j, k :: 0 <= j < k < i ==> cfg.sources[j].name != cfg.sources[k].name
      invariant forall s :: s in names <==> exists j :: 0 <= j < i && cfg.sources[j].name == s
    {
      var src := cfg.sources[i];
      if src.name == "" || src.name in names || src.driver == "" || src.deviceClass == "" || src.driver == cfg.driver {
        return false, names;
      }
      names := names + {src.name};
    }
    ok := true;
  }

  method CheckMembers(cfg: Config, c: Composition, names: set<string>) returns (ok: bool, sources: set<string>)
    requires forall s :: s in names <==> cfg.HasSource(s)
    ensures ok <==> MembersOk(cfg, c)
    ensures ok ==> forall s :: s in sources <==> c.HasMember(s)
  {
    sources := {};
    for j := 0 to |c.members|
      invariant forall k :: 0 <= k < j ==> cfg.HasSource(c.members[k].source) && c.members[k].count >= 1
      invariant forall s :: s in sources <==> exists k :: 0 <= k < j && c.members[k].source == s
    {
      if c.members[j].source !in names || c.members[j].count < 1 {
        return false, sources;
      }
      sources := sources + {c.members[j].source};
    }
    ok := c.members != [];
  }

  /** The loops over the selectors of one explicit pair, in any map order. */
  method CheckPair(cfg: Config, c: Composition, p: ExplicitPair, names: set<string>, sources: set<string>) returns (ok: bool)
    requires forall s :: s in names <==> cfg.HasSource(s)
    requires forall s :: s in sources <==> c.HasMember(s)
    requires sources <= names
    ensures ok <==> PairOk(c, p)
  {
    var left := p.selectors.Keys;
    while left != {}
      invariant left <= p.selectors.Keys
      invariant forall s :: s in p.selectors && s !in left ==> s in names && s in sources && p.selectors[s] != ""
      decreases left
    {
      var s :| s in left;
      if s !in names || s !in sources || p.selectors[s] == "" {
        return false;
      }
      left := left - {s};
    }
    left := sources;
    while left != {}
      invariant left <= sources && forall s :: s in sources && s !in left ==> s in p.selectors
      decreases left
    {
      var s :| s in left;
      if s !in p.selectors {
        return false;
      }
      left := left - {s};
    }
    ok := p.rail >= 0 && p.numa >= 0;
  }

  method CheckPools(cfg: Config, c: Composition, names: set<string>, sources: set<string>) returns (ok: bool)
    requires forall s :: s in names <==> cfg.HasSource(s)
    requires forall s :: s in sources <==> c.HasMember(s)
    requires sources <= names
    ensures ok <==> PoolsOk(c)
  {
    if c.nodePools == [] || c.nodePoolLabelKey == "" || c.constraints != [] {
      return false;
    }
    var seen: set<string> := {};
    for j := 0 to |c.nodePools|
      invariant forall i :: 0 <= i < j ==> PoolOk(c, c.nodePools[i])
      invariant forall i, k :: 0 <= i < k < j ==> c.nodePools[i].name != c.nodePools[k].name
      invariant forall s :: s in seen <==> exists i :: 0 <= i < j && c.nodePools[i].name == s
    {
      var np := c.nodePools[j];
      if np.name == "" || np.name in seen || np.pairs == [] {
        return false;
      }
      seen := seen + {np.name};
      for k := 0 to |np.pairs|
        invariant forall i :: 0 <= i < k ==> PairOk(c, np.pairs[i])
      {
        var good := CheckPair(cfg, c, np.pairs[k], names, sources);
        if !good {
          return false;
        }
      }
    }
    ok := true;
  }

  lemma OneSourceCounted(c: Composition, sources: set<string>)
    requires forall s :: s in sources <==> c.HasMember(s)
    ensures |sources| <= 1 <==> OneSource(c)
  {
    if |sources| > 1 {
      var a :| a in sources;
      assert |sources - {a}| > 0;
      var b :| b in sources - {a};
      var i :| 0 <= i < |c.members| && c.members[i].source == a;
      var j :| 0 <= j < |c.members| && c.members[j].source == b;
    } else {
      forall i, j | 0 <= i < |c.members| && 0 <= j < |c.members| ensures c.members[i].source == c.members[j].source {
        var a, b := c.members[i].source, c.members[j].source;
        assert a in sources && b in sources;
        assert |sources - {a}| == |sources| - 1;
        assert b !in sources - {a};
      }
    }
  }

  method CheckComposition(cfg: Config, c: Composition, names: set<string>) returns (ok: bool)
    requires forall s :: s in names <==> cfg.HasSource(s)
    ensures ok <==> CompositionOk(cfg, c)
  {
    var good, sources := CheckMembers(cfg, c, names);
    if c.name == "" || !good {
      return false;
    }
    for j := 0 to |c.constraints|
      invariant forall i :: 0 <= i < j ==> ConstraintOk(c.constraints[i])
    {
      if c.constraints[j].kind != "matchAttribute" || c.constraints[j].attribute == "" {
        return false;
      }
    }
    var left := c.filters.Keys;
    while left != {}
      invariant left <= c.filters.Keys && forall s :: s in c.filters && s !in left ==> cfg.HasSource(s)
      decreases left
    {
      var s :| s in left;
      if s !in names {
        return false;
      }
      left := left - {s};
    }
    OneSourceCounted(c, sources);
    if c.pairingMode !in {"", "auto", "explicit"} || c.transportMode !in {"", "auto", "ethernet", "infiniband"} {
      return false;
    }
    if c.pairingMode != "explicit" && c.constraints == [] && |sources| > 1 {
      return false;
    }
    if c.pairingMode == "explicit" {
      ok := CheckPools(cfg, c, names, sources);
    } else {
      ok := c.nodePools == [];
    }
  }

  method CheckCompositions(cfg: Config, names: set<string>) returns (ok: bool)
    requires forall s :: s in names <==> cfg.HasSource(s)
    ensures ok <==>
      && (forall i :: 0 <= i < |cfg.compositions| ==> CompositionOk(cfg, cfg.compositions[i]))
      && (forall i, j :: 0 <= i < j < |cfg.compositions| ==> Apart(cfg.compositions[i], cfg.compositions[j]))
  {
    var compNames: set<string>, classes: set<string> := {}, {};
    for i := 0 to |cfg.compositions|
      invariant forall j :: 0 <= j < i ==> CompositionOk(cfg, cfg.compositions[j])
      invariant forall j, k :: 0 <= j < k < i ==> Apart(cfg.compositions[j], cfg.compositions[k])
      invariant compNames == set j | 0 <= j < i :: cfg.compositions[j].name
      invariant classes == set j | 0 <= j < i :: cfg.compositions[j].EffectiveDeviceClass()
    {
      var c := cfg.compositions[i];
      var class' := if c.deviceClass == "" then "composite-" + c.name else c.deviceClass;
      if c.name in compNames || class' in classes {
        ghost var j :| 0 <= j < i && (cfg.compositions[j].name == c.name || cfg.compositions[j].EffectiveDeviceClass() == c.EffectiveDeviceClass());
        assert !Apart(cfg.compositions[j], cfg.compositions[i]);
        return false;
      }
      compNames, classes := compNames + {c.name}, classes + {class'};
      var good := CheckComposition(cfg, c, names);
      if !good {
        return false;
      }
    }
    ok := true;
  }

  /** Validate accepts exactly the well-formed configurations. */
  method Validate(cfg: Config) returns (ok: bool)
    ensures ok <==> WellFormed(cfg)
  {
    if cfg.driver == "" || cfg.sources == [] || cfg.compositions == [] {
      return false;
    }
    var good, names := CheckSources(cfg);
    if good {
      good := CheckCompositions(cfg, names);
    }
    ok := good && cfg.deviceParams != Some("");
  }
}
