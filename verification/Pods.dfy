/**
 Pods as the webhook reads them and as JSON, and what each kind of patch operation the
 webhook emits does to them.
 */
module Pods {

  import opened Options
  import opened Text
  import opened JsonPatch

  type Fields = map<string, Json>

  /** A quantity: its JSON text and what Quantity.AsInt64 makes of it. */
  datatype Quantity = Quantity(text: string, asInt64: Option<int>)

  type Amounts = map<string, Quantity>

  /** None is an absent field; `rest` holds all other fields. */
  datatype Resources = Resources(requests: Option<Amounts>, limits: Option<Amounts>, claims: Option<seq<Json>>, rest: Fields)
  datatype Container = Container(resources: Option<Resources>, rest: Fields)
  datatype Pod = Pod(annotations: Option<map<string, string>>, meta: Fields,
                     containers: seq<Container>, resourceClaims: Option<seq<Json>>, spec: Fields, rest: Fields)
  {
    /** A string member of the metadata; absent or of another kind reads as "". */
    function MetaString(key: string): string {
      if key in meta && meta[key].Str? then meta[key].str else ""
    }
  }

  // ---------- As JSON ----------

  function With(fields: Fields, key: string, value: Option<Json>): Fields {
    if value.Some? then fields[key := value.value] else fields - {key}
  }

  function EncodeAmounts(a: Amounts): Json {
    Obj(map k | k in a :: Str(a[k].text))
  }

  function EncodeStrings(a: map<string, string>): Json {
    Obj(map k | k in a :: Str(a[k]))
  }

  function OptAmounts(a: Option<Amounts>): Option<Json> {
    if a.Some? then Some(EncodeAmounts(a.value)) else None
  }

  function OptArr(a: Option<seq<Json>>): Option<Json> {
    if a.Some? then Some(Arr(a.value)) else None
  }

  function ResourceFields(r: Resources): Fields {
    With(With(With(r.rest, "requests", OptAmounts(r.requests)), "limits", OptAmounts(r.limits)), "claims", OptArr(r.claims))
  }

  function ContainerFields(c: Container): Fields {
    With(c.rest, "resources", if c.resources.Some? then Some(Obj(ResourceFields(c.resources.value))) else None)
  }

  function EncodeContainers(cs: seq<Container>): seq<Json> {
    seq(|cs|, i requires 0 <= i < |cs| => Obj(ContainerFields(cs[i])))
  }

  function MetaFields(p: Pod): Fields {
    With(p.meta, "annotations", if p.annotations.Some? then Some(EncodeStrings(p.annotations.value)) else None)
  }

  function SpecFields(p: Pod): Fields {
    With(With(p.spec, "containers", Some(Arr(EncodeContainers(p.containers)))), "resourceClaims", OptArr(p.resourceClaims))
  }

  function PodFields(p: Pod): Fields {
    p.rest["metadata" := Obj(MetaFields(p))]["spec" := Obj(SpecFields(p))]
  }

  function Encode(p: Pod): Json {
    Obj(PodFields(p))
  }

  /** The fields are those of `rest`, but for the keys named. */
  predicate Beside(fields: Fields, rest: Fields, keys: set<string>) {
    && (forall k :: k in fields && k !in keys ==> k in rest && fields[k] == rest[k])
    && (forall k :: k in rest && k !in keys ==> k in fields)
  }

  predicate HoldsStrings(fields: Fields, key: string, a: Option<map<string, string>>) {
    if a.None? then key !in fields
    else key in fields && fields[key].Obj? && fields[key].fields.Keys == a.value.Keys && forall r :: r in a.value ==> fields[key].fields[r] == Str(a.value[r])
  }

  predicate HoldsAmounts(fields: Fields, key: string, a: Option<Amounts>) {
    HoldsStrings(fields, key, if a.Some? then Some(map r | r in a.value :: a.value[r].text) else None)
  }

  predicate HoldsList(fields: Fields, key: string, list: Option<seq<Json>>) {
    if list.Some? then key in fields && fields[key] == Arr(list.value) else key !in fields
  }

  predicate HoldsContainer(json: Json, c: Container) {
    && json.Obj? && Beside(json.fields, c.rest, {"resources"})
    && (c.resources.None? ==> "resources" !in json.fields)
    && (c.resources.Some? ==> "resources" in json.fields && HoldsResources(json.fields["resources"], c.resources.value))
  }

  predicate HoldsResources(json: Json, r: Resources) {
    && json.Obj? && Beside(json.fields, r.rest, {"requests", "limits", "claims"})
    && HoldsAmounts(json.fields, "requests", r.requests) && HoldsAmounts(json.fields, "limits", r.limits)
    && HoldsList(json.fields, "claims", r.claims)
  }

  /** The JSON of a pod holds each of its parts where the Kubernetes API has it. */
  lemma EncodeHolds(p: Pod, i: nat)
    ensures Encode(p).Obj? && Beside(Encode(p).fields, p.rest, {"metadata", "spec"})
    ensures var top := Encode(p).fields;
      && "metadata" in top && top["metadata"].Obj? && Beside(top["metadata"].fields, p.meta, {"annotations"})
      && "spec" in top && top["spec"].Obj? && Beside(top["spec"].fields, p.spec, {"containers", "resourceClaims"})
    ensures HoldsStrings(Encode(p).fields["metadata"].fields, "annotations", p.annotations)
    ensures var spec := Encode(p).fields["spec"].fields;
      && HoldsList(spec, "resourceClaims", p.resourceClaims)
      && "containers" in spec && spec["containers"].Arr? && |spec["containers"].items| == |p.containers|
      && (i < |p.containers| ==> HoldsContainer(spec["containers"].items[i], p.containers[i]))
  {
    if i < |p.containers| && p.containers[i].resources.Some? {
      ResourcesHeld(p.containers[i].resources.value);
    }
  }

  lemma ResourcesHeld(r: Resources)
    ensures HoldsResources(Obj(ResourceFields(r)), r)
  {
  }

  // ---------- The webhook's operations ----------

  /** A patch operation in terms of the pod. */
  datatype Edit =
    | Annotate(key: string, value: string)
    | DropRequest(container: nat, resource: string)
    | DropLimit(container: nat, resource: string)
    | AddPodClaim(entry: Json)
    | SetClaims(container: nat, refs: seq<Json>)
    | AppendClaim(container: nat, ref: Json)

  predicate HasResources(p: Pod, i: nat) {
    i < |p.containers| && p.containers[i].resources.Some?
  }

  function ResourcesOf(p: Pod, i: nat): Resources
    requires HasResources(p, i)
  {
    p.containers[i].resources.value
  }

  predicate Lists(a: Option<Amounts>, resource: string) {
    a.Some? && resource in a.value
  }

  predicate Possible(p: Pod, e: Edit) {
    match e
    case DropRequest(i, r) => HasResources(p, i) && Lists(ResourcesOf(p, i).requests, r)
    case DropLimit(i, r) => HasResources(p, i) && Lists(ResourcesOf(p, i).limits, r)
    case SetClaims(i, _) => HasResources(p, i)
    case AppendClaim(i, _) => HasResources(p, i) && ResourcesOf(p, i).claims.Some?
    case _ => true
  }

  function SetResources(p: Pod, i: nat, r: Resources): Pod
    requires i < |p.containers|
  {
    p.(containers := p.containers[i := p.containers[i].(resources := Some(r))])
  }

  function Do(p: Pod, e: Edit): Pod
    requires Possible(p, e)
  {
    match e
    case Annotate(key, value) =>
      p.(annotations := Some((if p.annotations.Some? then p.annotations.value else map[])[key := value]))
    case DropRequest(i, r) =>
      var was := ResourcesOf(p, i);
      SetResources(p, i, was.(requests := Some(was.requests.value - {r})))
    case DropLimit(i, r) =>
      var was := ResourcesOf(p, i);
      SetResources(p, i, was.(limits := Some(was.limits.value - {r})))
    case AddPodClaim(entry) =>
      p.(resourceClaims := Some((if p.resourceClaims.Some? then p.resourceClaims.value else []) + [entry]))
    case SetClaims(i, refs) => SetResources(p, i, ResourcesOf(p, i).(claims := Some(refs)))
    case AppendClaim(i, ref) =>
      var was := ResourcesOf(p, i);
      SetResources(p, i, was.(claims := Some(was.claims.value + [ref])))
  }

  function ResourceField(i: nat, field: string): string {
    "/spec/containers/" + Decimal(i) + "/resources/" + field
  }

  /** The operation that buildPatches writes for an edit of a pod. */
  function PatchFor(p: Pod, e: Edit): Op {
    match e
    case Annotate(key, value) =>
      if p.annotations.None? then Add("/metadata/annotations", EncodeStrings(map[key := value]))
      else Add("/metadata/annotations" + "/" + Escape(key), Str(value))
    case DropRequest(i, r) => Remove(ResourceField(i, "requests") + "/" + Escape(r))
    case DropLimit(i, r) => Remove(ResourceField(i, "limits") + "/" + Escape(r))
    case AddPodClaim(entry) =>
      if p.resourceClaims.None? then Add("/spec/resourceClaims", Arr([entry]))
      else Add("/spec/resourceClaims" + "/-", entry)
    case SetClaims(i, refs) => Add(ResourceField(i, "claims"), Arr(refs))
    case AppendClaim(i, ref) => Add(ResourceField(i, "claims") + "/-", ref)
  }

  // ---------- Paths ----------

  lemma PathTokens(parts: seq<string>, names: seq<string>)
    requires parts != [] && |names| == |parts|
    requires forall i :: 0 <= i < |parts| ==> '/' !in parts[i] && Unescape(parts[i]) == names[i]
    ensures Tokens(Pointer(parts)) == Some(names)
  {
    TokensOfPointer(parts);
    assert UnescapeAll(parts) == names;
  }

  lemma Pointer2(a: string, b: string)
    ensures Pointer([a, b]) == "/" + a + "/" + b
  {
    assert [a, b][1..] == [b] && [b][1..] == [];
    assert Pointer([b]) == "/" + b;
  }

  lemma Pointer3(a: string, b: string, c: string)
    ensures Pointer([a, b, c]) == "/" + a + "/" + b + "/" + c
  {
    assert [a, b, c][1..] == [b, c];
    Pointer2(b, c);
    assert Pointer([a, b, c]) == "/" + a + ("/" + b + "/" + c);
  }

  lemma Pointer5(a: string, b: string, c: string, d: string, e: string)
    ensures Pointer([a, b, c, d, e]) == "/" + a + "/" + b + "/" + c + "/" + d + "/" + e
  {
    assert [a, b, c, d, e][1..] == [b, c, d, e] && [b, c, d, e][1..] == [c, d, e];
    Pointer3(c, d, e);
    assert Pointer([b, c, d, e]) == "/" + b + ("/" + c + "/" + d + "/" + e);
    assert Pointer([a, b, c, d, e]) == "/" + a + ("/" + b + ("/" + c + "/" + d + "/" + e));
  }

  lemma Pointer6(a: string, b: string, c: string, d: string, e: string, f: string)
    ensures Pointer([a, b, c, d, e, f]) == "/" + a + "/" + b + "/" + c + "/" + d + "/" + e + "/" + f
  {
    assert [a, b, c, d, e, f][1..] == [b, c, d, e, f];
    Pointer5(b, c, d, e, f);
    assert Pointer([a, b, c, d, e, f]) == "/" + a + ("/" + b + "/" + c + "/" + d + "/" + e + "/" + f);
  }

  /** A token that stands for itself. */
  predicate Bare(t: string) {
    '/' !in t && '~' !in t
  }

  lemma Regroup(a: string, b: string, c: string, d: string, e: string)
    ensures "/" + a + "/" + b + "/" + c + "/" + d + "/" + e == ("/" + a + "/" + b + "/") + c + ("/" + d + "/") + e
  {
  }

  lemma Literals()
    ensures "/" + "spec" + "/" + "containers" + "/" == "/spec/containers/"
    ensures "/" + "resources" + "/" == "/resources/"
    ensures Bare("spec") && Bare("containers") && Bare("resources")
  {
  }

  lemma PathOf5(a: string, b: string, c: string, d: string, e: string)
    requires Bare(a) && Bare(b) && Bare(c) && Bare(d) && Bare(e)
    ensures Tokens(("/" + a + "/" + b + "/") + c + ("/" + d + "/") + e) == Some([a, b, c, d, e])
  {
    var parts := [a, b, c, d, e];
    forall k | 0 <= k < 5 ensures Unescape(parts[k]) == parts[k] && '/' !in parts[k] {
      PlainToken(parts[k]);
    }
    Pointer5(a, b, c, d, e);
    Regroup(a, b, c, d, e);
    PathTokens(parts, parts);
  }

  lemma PathOf6(a: string, b: string, c: string, d: string, e: string, raw: string, f: string)
    requires Bare(a) && Bare(b) && Bare(c) && Bare(d) && Bare(e) && '/' !in raw && Unescape(raw) == f
    ensures Tokens(("/" + a + "/" + b + "/") + c + ("/" + d + "/") + e + "/" + raw) == Some([a, b, c, d, e, f])
  {
    var parts, names := [a, b, c, d, e, raw], [a, b, c, d, e, f];
    forall k | 0 <= k < 6 ensures Unescape(parts[k]) == names[k] && '/' !in parts[k] {
      if k < 5 {
        PlainToken(parts[k]);
      }
    }
    Pointer6(a, b, c, d, e, raw);
    Regroup(a, b, c, d, e);
    PathTokens(parts, names);
  }

  /** A path to a field of a container's resources. */
  lemma ResourcePath(i: nat, field: string)
    requires Bare(field)
    ensures Tokens(ResourceField(i, field)) == Some(["spec", "containers", Decimal(i), "resources", field])
  {
    DecimalPosition(i);
    Literals();
    PathOf5("spec", "containers", Decimal(i), "resources", field);
  }

  /** A path to an entry of such a field. */
  lemma EntryPath(i: nat, field: string, raw: string, entry: string)
    requires Bare(field) && '/' !in raw && Unescape(raw) == entry
    ensures Tokens(ResourceField(i, field) + "/" + raw)
         == Some(["spec", "containers", Decimal(i), "resources", field, entry])
  {
    DecimalPosition(i);
    Literals();
    PathOf6("spec", "containers", Decimal(i), "resources", field, raw, entry);
  }

  lemma MetadataLiterals()
    ensures "/" + "metadata" + "/" + "annotations" == "/metadata/annotations"
    ensures Bare("metadata") && Bare("annotations")
  {
  }

  lemma SpecLiterals()
    ensures "/" + "spec" + "/" + "resourceClaims" == "/spec/resourceClaims"
    ensures Bare("spec") && Bare("resourceClaims")
  {
  }

  lemma PathOf2(a: string, b: string)
    requires Bare(a) && Bare(b)
    ensures Tokens("/" + a + "/" + b) == Some([a, b])
  {
    PlainToken(a);
    PlainToken(b);
    Pointer2(a, b);
    PathTokens([a, b], [a, b]);
  }

  lemma PathOf3(a: string, b: string, raw: string, c: string)
    requires Bare(a) && Bare(b) && '/' !in raw && Unescape(raw) == c
    ensures Tokens("/" + a + "/" + b + "/" + raw) == Some([a, b, c])
  {
    PlainToken(a);
    PlainToken(b);
    Pointer3(a, b, raw);
    PathTokens([a, b, raw], [a, b, c]);
  }

  // ---------- Changes, seen in the encoding ----------

  lemma RequestsField(r: Resources, x: Amounts)
    ensures ResourceFields(r.(requests := Some(x))) == ResourceFields(r)["requests" := EncodeAmounts(x)]
  {
  }

  lemma LimitsField(r: Resources, x: Amounts)
    ensures ResourceFields(r.(limits := Some(x))) == ResourceFields(r)["limits" := EncodeAmounts(x)]
  {
  }

  lemma ClaimsField(r: Resources, x: seq<Json>)
    ensures ResourceFields(r.(claims := Some(x))) == ResourceFields(r)["claims" := Arr(x)]
  {
  }

  lemma AmountsWithout(a: Amounts, k: string)
    ensures EncodeAmounts(a - {k}).fields == EncodeAmounts(a).fields - {k}
  {
  }

  lemma ContainersField(p: Pod, cs: seq<Container>)
    ensures SpecFields(p.(containers := cs)) == SpecFields(p)["containers" := Arr(EncodeContainers(cs))]
    ensures "containers" in SpecFields(p) && SpecFields(p)["containers"] == Arr(EncodeContainers(p.containers))
  {
  }

  lemma SpecField(p: Pod, q: Pod)
    requires p.annotations == q.annotations && p.meta == q.meta && p.rest == q.rest
    ensures PodFields(q) == PodFields(p)["spec" := Obj(SpecFields(q))]
    ensures "spec" in PodFields(p) && PodFields(p)["spec"] == Obj(SpecFields(p))
  {
  }

  lemma InResources(c: Container, rest: seq<string>, change: Change, r: Resources)
    requires c.resources.Some? && rest != []
    requires ChangeAt(Obj(ResourceFields(c.resources.value)), rest, change) == Some(Obj(ResourceFields(r)))
    ensures ChangeAt(Obj(ContainerFields(c)), ["resources"] + rest, change) == Some(Obj(ContainerFields(c.(resources := Some(r)))))
  {
    InObject(ContainerFields(c), "resources", rest, change, Obj(ResourceFields(r)));
    assert ContainerFields(c)["resources" := Obj(ResourceFields(r))] == ContainerFields(c.(resources := Some(r)));
  }

  lemma InContainers(cs: seq<Container>, i: nat, path: seq<string>, change: Change, c: Container)
    requires i < |cs| && path != [] && ChangeAt(Obj(ContainerFields(cs[i])), path, change) == Some(Obj(ContainerFields(c)))
    ensures ChangeAt(Arr(EncodeContainers(cs)), [Decimal(i)] + path, change) == Some(Arr(EncodeContainers(cs[i := c])))
  {
    InArray(EncodeContainers(cs), i, path, change, Obj(ContainerFields(c)));
    assert EncodeContainers(cs)[i := Obj(ContainerFields(c))] == EncodeContainers(cs[i := c]);
  }

  lemma InSpec(p: Pod, cs: seq<Container>, path: seq<string>, change: Change)
    requires path != [] && ChangeAt(Arr(EncodeContainers(p.containers)), path, change) == Some(Arr(EncodeContainers(cs)))
    ensures ChangeAt(Encode(p), ["spec"] + (["containers"] + path), change) == Some(Encode(p.(containers := cs)))
  {
    ContainersField(p, cs);
    InObject(SpecFields(p), "containers", path, change, Arr(EncodeContainers(cs)));
    SpecField(p, p.(containers := cs));
    InObject(PodFields(p), "spec", ["containers"] + path, change, Obj(SpecFields(p.(containers := cs))));
  }

  /** A change of a container's resources is a change of the pod's encoding. */
  lemma InContainer(p: Pod, i: nat, rest: seq<string>, change: Change, r: Resources)
    requires HasResources(p, i) && rest != []
    requires ChangeAt(Obj(ResourceFields(ResourcesOf(p, i))), rest, change) == Some(Obj(ResourceFields(r)))
    ensures ChangeAt(Encode(p), ["spec", "containers", Decimal(i), "resources"] + rest, change) == Some(Encode(SetResources(p, i, r)))
  {
    var path, c := ["resources"] + rest, p.containers[i].(resources := Some(r));
    InResources(p.containers[i], rest, change, r);
    InContainers(p.containers, i, path, change, c);
    InSpec(p, p.containers[i := c], [Decimal(i)] + path, change);
    assert ["spec", "containers", Decimal(i), "resources"] + rest == ["spec"] + (["containers"] + ([Decimal(i)] + path));
  }

  lemma DropFrom(fields: Fields, key: string, a: Amounts, r: string)
    requires key in fields && fields[key] == EncodeAmounts(a) && r in a
    ensures ChangeAt(Obj(fields), [key, r], Drop) == Some(Obj(fields[key := EncodeAmounts(a - {r})]))
  {
    AmountsWithout(a, r);
    assert ChangeAt(EncodeAmounts(a), [r], Drop) == Some(EncodeAmounts(a - {r}));
    InObject(fields, key, [r], Drop, EncodeAmounts(a - {r}));
    assert [key] + [r] == [key, r];
  }

  lemma DropRequestApplies(p: Pod, i: nat, r: string)
    requires Possible(p, DropRequest(i, r))
    ensures Apply(Encode(p), PatchFor(p, DropRequest(i, r))) == Some(Encode(Do(p, DropRequest(i, r))))
  {
    var was := ResourcesOf(p, i);
    UnescapeEscape(r);
    EscapeHasNoSlash(r);
    EntryPath(i, "requests", Escape(r), r);
    DropFrom(ResourceFields(was), "requests", was.requests.value, r);
    RequestsField(was, was.requests.value - {r});
    InContainer(p, i, ["requests", r], Drop, was.(requests := Some(was.requests.value - {r})));
    assert ["spec", "containers", Decimal(i), "resources"] + ["requests", r] == ["spec", "containers", Decimal(i), "resources", "requests", r];
  }

  lemma DropLimitApplies(p: Pod, i: nat, r: string)
    requires Possible(p, DropLimit(i, r))
    ensures Apply(Encode(p), PatchFor(p, DropLimit(i, r))) == Some(Encode(Do(p, DropLimit(i, r))))
  {
    var was := ResourcesOf(p, i);
    UnescapeEscape(r);
    EscapeHasNoSlash(r);
    EntryPath(i, "limits", Escape(r), r);
    DropFrom(ResourceFields(was), "limits", was.limits.value, r);
    LimitsField(was, was.limits.value - {r});
    InContainer(p, i, ["limits", r], Drop, was.(limits := Some(was.limits.value - {r})));
    assert ["spec", "containers", Decimal(i), "resources"] + ["limits", r] == ["spec", "containers", Decimal(i), "resources", "limits", r];
  }

  lemma SetClaimsApplies(p: Pod, i: nat, refs: seq<Json>)
    requires Possible(p, SetClaims(i, refs))
    ensures Apply(Encode(p), PatchFor(p, SetClaims(i, refs))) == Some(Encode(Do(p, SetClaims(i, refs))))
  {
    var was := ResourcesOf(p, i);
    ResourcePath(i, "claims");
    ClaimsField(was, refs);
    InContainer(p, i, ["claims"], Put(Arr(refs)), was.(claims := Some(refs)));
    assert ["spec", "containers", Decimal(i), "resources"] + ["claims"] == ["spec", "containers", Decimal(i), "resources", "claims"];
  }

  lemma AppendClaimApplies(p: Pod, i: nat, ref: Json)
    requires Possible(p, AppendClaim(i, ref))
    ensures Apply(Encode(p), PatchFor(p, AppendClaim(i, ref))) == Some(Encode(Do(p, AppendClaim(i, ref))))
  {
    var was := ResourcesOf(p, i);
    PlainToken("-");
    EntryPath(i, "claims", "-", "-");
    assert ResourceField(i, "claims") + "/-" == ResourceField(i, "claims") + "/" + "-";
    ClaimsField(was, was.claims.value + [ref]);
    InContainer(p, i, ["claims", "-"], Put(ref), was.(claims := Some(was.claims.value + [ref])));
    assert ["spec", "containers", Decimal(i), "resources"] + ["claims", "-"] == ["spec", "containers", Decimal(i), "resources", "claims", "-"];
  }

  lemma MetaField(p: Pod, q: Pod)
    requires q == p.(annotations := q.annotations) && q.annotations.Some?
    ensures PodFields(q) == PodFields(p)["metadata" := Obj(MetaFields(q))]
    ensures "metadata" in PodFields(p) && PodFields(p)["metadata"] == Obj(MetaFields(p))
    ensures MetaFields(q) == MetaFields(p)["annotations" := EncodeStrings(q.annotations.value)]
  {
  }

  lemma FirstAnnotation(p: Pod, key: string, value: string)
    requires p.annotations.None?
    ensures Apply(Encode(p), PatchFor(p, Annotate(key, value))) == Some(Encode(Do(p, Annotate(key, value))))
  {
    var q := Do(p, Annotate(key, value));
    MetadataLiterals();
    MetaField(p, q);
    PathOf2("metadata", "annotations");
    InObject(PodFields(p), "metadata", ["annotations"], Put(EncodeStrings(map[key := value])), Obj(MetaFields(q)));
    assert ["metadata"] + ["annotations"] == ["metadata", "annotations"];
  }

  lemma StringsWith(a: map<string, string>, key: string, value: string)
    ensures ChangeAt(EncodeStrings(a), [key], Put(Str(value))) == Some(EncodeStrings(a[key := value]))
  {
    assert EncodeStrings(a[key := value]).fields == EncodeStrings(a).fields[key := Str(value)];
  }

  lemma MoreAnnotations(p: Pod, key: string, value: string)
    requires p.annotations.Some?
    ensures Apply(Encode(p), PatchFor(p, Annotate(key, value))) == Some(Encode(Do(p, Annotate(key, value))))
  {
    var q, all := Do(p, Annotate(key, value)), p.annotations.value;
    MetadataLiterals();
    MetaField(p, q);
    UnescapeEscape(key);
    EscapeHasNoSlash(key);
    PathOf3("metadata", "annotations", Escape(key), key);
    StringsWith(all, key, value);
    InObject(MetaFields(p), "annotations", [key], Put(Str(value)), EncodeStrings(all[key := value]));
    InObject(PodFields(p), "metadata", ["annotations"] + [key], Put(Str(value)), Obj(MetaFields(q)));
    assert ["metadata"] + (["annotations"] + [key]) == ["metadata", "annotations", key];
  }

  lemma AddPodClaimApplies(p: Pod, entry: Json)
    ensures Apply(Encode(p), PatchFor(p, AddPodClaim(entry))) == Some(Encode(Do(p, AddPodClaim(entry))))
  {
    var q := Do(p, AddPodClaim(entry));
    SpecLiterals();
    SpecField(p, q);
    var list := q.resourceClaims.value;
    assert SpecFields(q) == SpecFields(p)["resourceClaims" := Arr(list)];
    if p.resourceClaims.None? {
      PathOf2("spec", "resourceClaims");
      assert [] + [entry] == [entry];
      InObject(PodFields(p), "spec", ["resourceClaims"], Put(Arr([entry])), Obj(SpecFields(q)));
      assert ["spec"] + ["resourceClaims"] == ["spec", "resourceClaims"];
    } else {
      PlainToken("-");
      PathOf3("spec", "resourceClaims", "-", "-");
      assert "/spec/resourceClaims" + "/-" == "/" + "spec" + "/" + "resourceClaims" + "/" + "-";
      InObject(PodFields(p), "spec", ["resourceClaims", "-"], Put(entry), Obj(SpecFields(q)));
      assert ["spec"] + ["resourceClaims", "-"] == ["spec", "resourceClaims", "-"];
    }
  }

  /** Every operation the webhook writes succeeds and does to the pod what it stands for. */
  lemma PatchApplies(p: Pod, e: Edit)
    requires Possible(p, e)
    ensures Apply(Encode(p), PatchFor(p, e)) == Some(Encode(Do(p, e)))
  {
    match e
    case Annotate(key, value) => if p.annotations.None? { FirstAnnotation(p, key, value); } else { MoreAnnotations(p, key, value); }
    case DropRequest(i, r) => DropRequestApplies(p, i, r);
    case DropLimit(i, r) => DropLimitApplies(p, i, r);
    case AddPodClaim(entry) => AddPodClaimApplies(p, entry);
    case SetClaims(i, refs) => SetClaimsApplies(p, i, refs);
    case AppendClaim(i, ref) => AppendClaimApplies(p, i, ref);
  }
}
