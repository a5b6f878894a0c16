/**
 Garbage collection of claim templates as a timed step machine: templates are created by
 admissions, pods are stored and removed, and the reconciler's list, clock, pod-list and
 delete calls happen at any moments in between.
 */
module TemplateGc {

  import opened Options
  import opened Kubernetes

  /** Whether the webhook made it, and its creation time stamp. */
  datatype Template = Template(managed: bool, stamp: int)

  /** A stored pod: the template names of its claims, and since when it is stored. */
  datatype Pod = Pod(claims: seq<Option<string>>, since: int)

  datatype Listing = Listing(ns: string, referenced: set<string>)

  /** The reconciler: the listed templates not yet visited, its clock reading, the pods of
      the namespace it is at. */
  datatype Pass =
    | Idle
    | Listed(items: map<Key, Template>)
    | Running(items: map<Key, Template>, now: int, at: Option<Listing>)

  /** `created` remembers the stamp of the latest template of each key. */
  datatype State = State(clock: int, templates: map<Key, Template>, pods: map<Key, Pod>, created: map<Key, int>, pass: Pass)

  datatype Action =
    | Tick(d: nat)
    | Create(key: Key, managed: bool, stamp: int)
    | StorePod(pod: Key, claims: seq<Option<string>>)
    | RemovePod(pod: Key)
    | OthersDelete(key: Key)
    | ListTemplates(ok: bool)
    | ReadClock
    | ListPods(ns: string, ok: bool)
    | Visit(key: Key, ok: bool)
    | Finish

  predicate Names(claims: seq<Option<string>>, name: string) {
    exists i :: 0 <= i < |claims| && claims[i] == Some(name)
  }

  /** The template names that the pods of a namespace refer to. */
  ghost function NamedIn(pods: map<Key, Pod>, ns: string): set<string> {
    set p, i | p in pods && p.ns == ns && 0 <= i < |pods[p].claims| && pods[p].claims[i].Some? :: pods[p].claims[i].value
  }

  ghost function RefsIn(s: State, ns: string): set<string> {
    NamedIn(s.pods, ns)
  }

  function Managed(templates: map<Key, Template>): map<Key, Template> {
    map k | k in templates && templates[k].managed :: templates[k]
  }

  predicate Enabled(s: State, a: Action) {
    match a
    case Create(_, _, stamp) => stamp <= s.clock
    case ListTemplates(_) => s.pass.Idle?
    case ReadClock => s.pass.Listed?
    case ListPods(_, _) => s.pass.Running?
    case Visit(k, _) => s.pass.Running? && k in s.pass.items && s.pass.at.Some? && s.pass.at.value.ns == k.ns
    case Finish => !s.pass.Idle?
    case _ => true
  }

  /** The test of the reconciler on a template it visits. */
  predicate Orphaned(pass: Pass, k: Key, grace: int)
    requires pass.Running? && pass.at.Some? && k in pass.items
  {
    k.name !in pass.at.value.referenced && pass.now - pass.items[k].stamp >= grace
  }

  ghost function Do(s: State, a: Action, grace: int): State
    requires Enabled(s, a)
  {
    match a
    case Tick(d) => s.(clock := s.clock + d)
    case Create(k, managed, stamp) =>
      if k in s.templates then s
      else s.(templates := s.templates[k := Template(managed, stamp)], created := s.created[k := stamp])
    case StorePod(p, claims) => s.(pods := s.pods[p := Pod(claims, s.clock)])
    case RemovePod(p) => s.(pods := s.pods - {p})
    case OthersDelete(k) => s.(templates := s.templates - {k})
    case ListTemplates(ok) => if ok then s.(pass := Listed(Managed(s.templates))) else s
    case ReadClock => s.(pass := Running(s.pass.items, s.clock, None))
    case ListPods(ns, ok) => s.(pass := s.pass.(at := if ok then Some(Listing(ns, RefsIn(s, ns))) else None))
    case Visit(k, ok) =>
      var t := s.(pass := s.pass.(items := s.pass.items - {k}));
      if Orphaned(s.pass, k, grace) && ok then t.(templates := s.templates - {k}) else t
    case Finish => s.(pass := Idle)
  }

  function Init(clock: int): State {
    State(clock, map[], map[], map[], Idle)
  }

  ghost predicate Legal(s: State, run: seq<Action>, grace: int)
    decreases |run|, 0
  {
    run == [] || (Legal(s, run[..|run| - 1], grace) && Enabled(After(s, run[..|run| - 1], grace), run[|run| - 1]))
  }

  ghost function After(s: State, run: seq<Action>, grace: int): State
    requires Legal(s, run, grace)
    decreases |run|, 1
  {
    if run == [] then s else Do(After(s, run[..|run| - 1], grace), run[|run| - 1], grace)
  }

  lemma RunNext(s: State, run: seq<Action>, a: Action, grace: int)
    requires Legal(s, run, grace) && Enabled(After(s, run, grace), a)
    ensures Legal(s, run + [a], grace) && After(s, run + [a], grace) == Do(After(s, run, grace), a, grace)
  {
    assert (run + [a])[..|run|] == run;
  }

  // ---------- Safety ----------

  /** A live pod of the template's namespace that refers to it. */
  predicate Refers(s: State, p: Key, k: Key) {
    p in s.pods && p.ns == k.ns && Names(s.pods[p].claims, k.name)
  }

  /** Every live pod that was stored before the grace period of the template was over
      still has its template. */
  ghost predicate Safe(s: State, k: Key, grace: int) {
    k in s.created ==> forall p :: Refers(s, p, k) && s.pods[p].since < s.created[k] + grace ==> k in s.templates
  }

  /** A listed template that is still to be visited is still the same one. */
  predicate Fresh(s: State, k: Key) {
    !s.pass.Idle? && k in s.pass.items ==> k in s.templates && k in s.created && s.created[k] == s.pass.items[k].stamp
  }

  /** The reconciler knows all references of pods stored before its clock reading. */
  ghost predicate Informed(s: State) {
    s.pass.Running? ==>
      && s.pass.now <= s.clock
      && (s.pass.at.Some? ==> forall p :: p in s.pods && p.ns == s.pass.at.value.ns && s.pods[p].since < s.pass.now ==>
            forall name :: Names(s.pods[p].claims, name) ==> name in s.pass.at.value.referenced)
  }

  predicate Stamped(s: State, k: Key) {
    k in s.templates ==> k in s.created && s.created[k] == s.templates[k].stamp
  }

  /** A template goes only after its grace period. */
  predicate GoneLate(s: State, k: Key, grace: int) {
    k in s.created && k !in s.templates ==> s.created[k] + grace <= s.clock
  }

  ghost predicate Inv(s: State, k: Key, grace: int) {
    Safe(s, k, grace) && GoneLate(s, k, grace) && Fresh(s, k) && Stamped(s, k) && Informed(s)
  }

  lemma StepKeeps(s: State, a: Action, k: Key, grace: int)
    requires Inv(s, k, grace) && Enabled(s, a) && a != OthersDelete(k)
    ensures Inv(Do(s, a, grace), k, grace)
  {
    var t := Do(s, a, grace);
    assert t.pods == s.pods ==> forall p :: Refers(t, p, k) <==> Refers(s, p, k);
  }

  lemma {:induction false} RunKeeps(s: State, run: seq<Action>, k: Key, grace: int)
    requires Inv(s, k, grace) && Legal(s, run, grace) && OthersDelete(k) !in run
    ensures Inv(After(s, run, grace), k, grace)
  {
    if run == [] {
    } else {
      var n := |run| - 1;
      assert run[n] in run && forall a :: a in run[..n] ==> a in run;
      RunKeeps(s, run[..n], k, grace);
      StepKeeps(After(s, run[..n], grace), run[n], k, grace);
    }
  }

  /** Template collection is safe.  In every run in which nobody else deletes template k,
      however its steps interleave, k is there as long as a pod lives that refers to it
      and was stored before the grace period of k was over. */
  lemma CollectionSafe(clock: int, run: seq<Action>, k: Key, p: Key, grace: int)
    requires Legal(Init(clock), run, grace) && OthersDelete(k) !in run
    requires var s := After(Init(clock), run, grace); k in s.created && Refers(s, p, k) && s.pods[p].since < s.created[k] + grace
    ensures k in After(Init(clock), run, grace).templates
  {
    RunKeeps(Init(clock), run, k, grace);
  }

  // ---------- Where safety ends ----------

  lemma NoPodsNoRefs(s: State, ns: string)
    requires s.pods == map[]
    ensures RefsIn(s, ns) == {}
  {
  }

  lemma Extend(s0: State, run: seq<Action>, s: State, a: Action, grace: int) returns (run': seq<Action>, s': State)
    requires Legal(s0, run, grace) && After(s0, run, grace) == s && Enabled(s, a)
    ensures run' == run + [a] && Legal(s0, run', grace) && s' == After(s0, run', grace) == Do(s, a, grace)
  {
    RunNext(s0, run, a, grace);
    run', s' := run + [a], Do(s, a, grace);
  }

  /** Template k, created at 0, seen by a pass at time delay when there are no pods. */
  function SeenOld(k: Key, delay: nat): State {
    var items := map[k := Template(true, 0)];
    State(delay, items, map[], map[k := 0], Running(items, delay, Some(Listing(k.ns, {}))))
  }

  lemma ReachSeenOld(k: Key, grace: nat, delay: nat) returns (run: seq<Action>)
    ensures Legal(Init(0), run, grace) && OthersDelete(k) !in run && After(Init(0), run, grace) == SeenOld(k, delay)
  {
    var s := Init(0);
    run := [];
    run, s := Extend(Init(0), run, s, Create(k, true, 0), grace);
    run, s := Extend(Init(0), run, s, Tick(delay), grace);
    var items := map[k := Template(true, 0)];
    assert s == State(delay, items, map[], map[k := 0], Idle);
    run, s := Extend(Init(0), run, s, ListTemplates(true), grace);
    assert Managed(items) == items;
    run, s := Extend(Init(0), run, s, ReadClock, grace);
    NoPodsNoRefs(s, k.ns);
    run, s := Extend(Init(0), run, s, ListPods(k.ns, true), grace);
  }

  /** The bound is exact: for every delay of at least the grace period there is a run in
      which a later admission reuses the template, stores its pod after that delay, and
      the reconciler, whose pod list is older, deletes the template under the living pod. */
  lemma ReusedTemplateDeleted(k: Key, p: Key, grace: nat, delay: nat) returns (run: seq<Action>)
    requires p.ns == k.ns && delay >= grace
    ensures Legal(Init(0), run, grace) && OthersDelete(k) !in run
    ensures var s := After(Init(0), run, grace);
      k in s.created && Refers(s, p, k) && s.pods[p].since == s.created[k] + delay && k !in s.templates
  {
    run := ReachSeenOld(k, grace, delay);
    var s := SeenOld(k, delay);
    run, s := Extend(Init(0), run, s, Create(k, true, delay), grace);
    assert s == SeenOld(k, delay);
    run, s := Extend(Init(0), run, s, StorePod(p, [Some(k.name)]), grace);
    run, s := Extend(Init(0), run, s, Visit(k, true), grace);
    assert s.pods[p].claims[0] == Some(k.name);
  }

  /** Deletion is by name: if someone else deletes a listed template and an admission
      creates it anew, the reconciler deletes the new one, its pod notwithstanding. */
  lemma RecreatedTemplateDeleted(k: Key, p: Key, grace: nat) returns (run: seq<Action>)
    requires p.ns == k.ns && grace > 0
    ensures Legal(Init(0), run, grace)
    ensures var s := After(Init(0), run, grace);
      k in s.created && Refers(s, p, k) && s.pods[p].since == s.created[k] && k !in s.templates
  {
    run := ReachSeenOld(k, grace, grace);
    var s := SeenOld(k, grace);
    run, s := Extend(Init(0), run, s, OthersDelete(k), grace);
    run, s := Extend(Init(0), run, s, Create(k, true, grace), grace);
    run, s := Extend(Init(0), run, s, StorePod(p, [Some(k.name)]), grace);
    run, s := Extend(Init(0), run, s, Visit(k, true), grace);
    assert s.pods[p].claims[0] == Some(k.name);
  }
}
