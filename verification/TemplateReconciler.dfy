/** A pass of the template reconciler, as the steps of the machine that its loops take. */
module TemplateReconcilers {

  import opened Options
  import opened Kubernetes
  import opened Seqs
  import opened TemplateGc

  // ---------- The loops that only read ----------

  method ReferencedBy(claims: seq<Option<string>>, before: set<string>) returns (referenced: set<string>)
    ensures forall n :: n in referenced <==> n in before || Names(claims, n)
  {
    referenced := before;
    for i := 0 to |claims|
      invariant forall n :: n in referenced <==> n in before || Names(claims[..i], n)
    {
      if claims[i].Some? {
        referenced := referenced + {claims[i].value};
      }
    }
    assert claims[..|claims|] == claims;
  }

  /** The names that some of the pods refer to. */
  ghost predicate NamedBy(pods: map<Key, Pod>, some: set<Key>, n: string) {
    exists p :: p in some && p in pods && Names(pods[p].claims, n)
  }

  /** The set of template names that the pods of a namespace refer to, the pods in any order. */
  method BuildReferenced(pods: map<Key, Pod>, ns: string) returns (referenced: set<string>)
    ensures forall n :: n in referenced <==> exists p :: p in pods && p.ns == ns && Names(pods[p].claims, n)
    ensures referenced == NamedIn(pods, ns)
  {
    referenced := {};
    var left := set p | p in pods && p.ns == ns;
    ghost var all, done := left, {};
    while left != {}
      invariant left + done == all && left !! done
      invariant forall n :: n in referenced <==> NamedBy(pods, done, n)
      decreases left
    {
      var p :| p in left;
      referenced := ReferencedBy(pods[p].claims, referenced);
      left, done := left - {p}, done + {p};
    }
    forall n ensures n in referenced <==> exists p :: p in pods && p.ns == ns && Names(pods[p].claims, n) {
      if n in referenced {
        var p :| p in done && p in pods && Names(pods[p].claims, n);
      }
      if p :| p in pods && p.ns == ns && Names(pods[p].claims, n) {
        assert p in all;
        assert NamedBy(pods, done, n);
      }
    }
    NamedMeans(pods, ns, referenced);
  }

  lemma NamedMeans(pods: map<Key, Pod>, ns: string, names: set<string>)
    requires forall n :: n in names <==> exists p :: p in pods && p.ns == ns && Names(pods[p].claims, n)
    ensures names == NamedIn(pods, ns)
  {
    forall n ensures n in names <==> n in NamedIn(pods, ns) {
      if p :| p in pods && p.ns == ns && Names(pods[p].claims, n) {
        var i :| 0 <= i < |pods[p].claims| && pods[p].claims[i] == Some(n);
      }
    }
  }

  /** The grouping of the listed templates by namespace. */
  method GroupByNamespace(items: set<Key>) returns (groups: map<string, set<Key>>)
    ensures IsPartition(groups, items)
  {
    groups := map[];
    var left := items;
    while left != {}
      invariant left <= items
      invariant forall k :: k in items && k !in left ==> k.ns in groups
      invariant forall ns :: ns in groups ==> forall k :: k in groups[ns] <==> k in items && k !in left && k.ns == ns
      decreases left
    {
      var k :| k in left;
      groups := groups[k.ns := (if k.ns in groups then groups[k.ns] else {}) + {k}];
      left := left - {k};
    }
  }

  // ---------- What a pass does ----------

  /** Some live pod of the namespace refers to the template. */
  ghost predicate Referenced(s: State, k: Key) {
    exists p :: Refers(s, p, k)
  }

  /** A managed template of at least the grace age that no live pod refers to. */
  ghost predicate Garbage(s: State, k: Key, grace: int) {
    k in s.templates && s.templates[k].managed && s.clock - s.templates[k].stamp >= grace && !Referenced(s, k)
  }

  /** The calls that fail in a pass. */
  datatype Faults = Faults(list: bool, pods: set<string>, deletes: set<Key>) {
    predicate Spare(k: Key) { list || k.ns in pods || k in deletes }
  }

  ghost function Doomed(s: State, grace: int, faults: Faults): set<Key> {
    set k | k in s.templates && Garbage(s, k, grace) && !faults.Spare(k)
  }

  /** The state in the middle of a pass that began in s: `done` has been visited. */
  ghost function Mid(s: State, grace: int, faults: Faults, done: set<Key>, items: map<Key, Template>, at: Option<Listing>): State {
    s.(templates := s.templates - (Doomed(s, grace, faults) * done), pass := Running(items, s.clock, at))
  }

  /** A visit deletes exactly the garbage whose deletion does not fail. */
  lemma VisitIsExact(s: State, grace: int, faults: Faults, done: set<Key>, items: map<Key, Template>, k: Key)
    requires k in items && k !in done && k.ns !in faults.pods && !faults.list
    requires k in s.templates && s.templates[k] == items[k] && items[k].managed
    ensures var mid := Mid(s, grace, faults, done, items, Some(Listing(k.ns, RefsIn(s, k.ns))));
      && Enabled(mid, Visit(k, k !in faults.deletes))
      && Do(mid, Visit(k, k !in faults.deletes), grace)
           == Mid(s, grace, faults, done + {k}, items - {k}, Some(Listing(k.ns, RefsIn(s, k.ns))))
  {
    var mid := Mid(s, grace, faults, done, items, Some(Listing(k.ns, RefsIn(s, k.ns))));
    assert Referenced(s, k) <==> k.name in RefsIn(s, k.ns) by {
      if p :| p in s.pods && p.ns == k.ns && Names(s.pods[p].claims, k.name) {
        assert Refers(s, p, k);
      }
    }
    assert Orphaned(mid.pass, k, grace) && k !in faults.deletes <==> k in Doomed(s, grace, faults);
    var doomed := Doomed(s, grace, faults);
    if k in doomed {
      assert s.templates - (doomed * (done + {k})) == s.templates - (doomed * done) - {k};
    } else {
      assert doomed * (done + {k}) == doomed * done;
    }
  }

  lemma VisitedOneMore(done: set<Key>, items: map<Key, Template>, group: set<Key>, left: set<Key>, k: Key)
    requires left <= group && k in left
    ensures done + (group - left) + {k} == done + (group - (left - {k}))
    ensures items - (group - left) - {k} == items - (group - (left - {k}))
  {
    assert group - left + {k} == group - (left - {k});
  }

  class TemplateReconciler {
    var s: State

    constructor (s: State)
      ensures this.s == s
    {
      this.s := s;
    }

    /** One template: deleted if it is orphaned and the call works. */
    method VisitOne(grace: int, faults: Faults, k: Key, ghost t: State, ghost done: set<Key>, ghost items: map<Key, Template>, referenced: set<string>)
      requires k in items && k !in done && k.ns !in faults.pods && !faults.list
      requires k in t.templates && t.templates[k] == items[k] && items[k].managed
      requires referenced == RefsIn(t, k.ns) && s == Mid(t, grace, faults, done, items, Some(Listing(k.ns, referenced)))
      modifies this
      ensures s == Mid(t, grace, faults, done + {k}, items - {k}, Some(Listing(k.ns, referenced)))
      ensures Enabled(old(s), Visit(k, k !in faults.deletes)) && s == Do(old(s), Visit(k, k !in faults.deletes), grace)
    {
      VisitIsExact(t, grace, faults, done, items, k);
      var age := s.pass.now - s.pass.items[k].stamp;
      var deletes := k.name !in referenced && age >= grace && k !in faults.deletes;
      s := s.(pass := s.pass.(items := s.pass.items - {k}), templates := if deletes then s.templates - {k} else s.templates);
    }

    /** The loop over the templates of one namespace. */
    method VisitNamespace(grace: int, faults: Faults, ns: string, group: set<Key>, ghost t: State, ghost done: set<Key>, ghost items: map<Key, Template>,
                          referenced: set<string>, ghost run: seq<Action>)
      returns (ghost run': seq<Action>)
      requires group <= items.Keys && group !! done && ns !in faults.pods && !faults.list
      requires forall k :: k in group ==> k.ns == ns && k in t.templates && t.templates[k] == items[k] && items[k].managed
      requires referenced == RefsIn(t, ns) && s == Mid(t, grace, faults, done, items, Some(Listing(ns, referenced)))
      requires Legal(t, run, grace) && After(t, run, grace) == s
      modifies this
      ensures s == Mid(t, grace, faults, done + group, items - group, Some(Listing(ns, referenced)))
      ensures Legal(t, run', grace) && After(t, run', grace) == s
    {
      run' := run;
      var left := group;
      ghost var now, rest := done, items;
      while left != {}
        invariant left <= group && left !! now && now == done + (group - left) && rest == items - (group - left)
        invariant s == Mid(t, grace, faults, now, rest, Some(Listing(ns, referenced)))
        invariant Legal(t, run', grace) && After(t, run', grace) == s
        decreases left
      {
        var k :| k in left;
        VisitOne(grace, faults, k, t, now, rest, referenced);
        RunNext(t, run', Visit(k, k !in faults.deletes), grace);
        run' := run' + [Visit(k, k !in faults.deletes)];
        VisitedOneMore(done, items, group, left, k);
        left, now, rest := left - {k}, now + {k}, rest - {k};
      }
      assert group - left == group;
    }

    /** One namespace: list its pods, and unless that fails visit its templates. */
    method ReconcileNamespace(grace: int, faults: Faults, ns: string, group: set<Key>, ghost t: State, ghost done: set<Key>, ghost items: map<Key, Template>,
                              ghost at: Option<Listing>, ghost run: seq<Action>)
      returns (ghost at': Option<Listing>, ghost run': seq<Action>)
      requires group <= items.Keys && group !! done && !faults.list
      requires forall k :: k in group ==> k.ns == ns && k in t.templates && t.templates[k] == items[k] && items[k].managed
      requires s == Mid(t, grace, faults, done, items, at) && Legal(t, run, grace) && After(t, run, grace) == s
      modifies this
      ensures var more := if ns in faults.pods then {} else group; s == Mid(t, grace, faults, done + more, items - more, at')
      ensures Legal(t, run', grace) && After(t, run', grace) == s
    {
      RunNext(t, run, ListPods(ns, ns !in faults.pods), grace);
      run' := run + [ListPods(ns, ns !in faults.pods)];
      if ns in faults.pods {
        s := s.(pass := s.pass.(at := None));
        assert done + {} == done && items - {} == items;
        return None, run';
      }
      var referenced := BuildReferenced(s.pods, ns);
      s := s.(pass := s.pass.(at := Some(Listing(ns, referenced))));
      run' := VisitNamespace(grace, faults, ns, group, t, done, items, referenced, run');
      at' := Some(Listing(ns, referenced));
    }

    /** reconcileTemplates.  A pass deletes exactly the garbage, in every namespace, except
        where one of its calls fails; and it is a run of the machine. */
    method ReconcileTemplates(grace: int, faults: Faults) returns (ghost run: seq<Action>)
      requires s.pass.Idle?
      modifies this
      ensures s == old(s).(templates := old(s).templates - Doomed(old(s), grace, faults))
      ensures Legal(old(s), run, grace) && After(old(s), run, grace) == s
    {
      ghost var t := s;
      run := [];
      RunNext(t, run, ListTemplates(!faults.list), grace);
      run := run + [ListTemplates(!faults.list)];
      if faults.list {
        assert Doomed(t, grace, faults) == {};
        assert t.templates - {} == t.templates;
        return;
      }
      var items := Managed(s.templates);
      s := s.(pass := Listed(items));
      if items == map[] {
        NothingManaged(t, grace, faults);
        RunNext(t, run, Finish, grace);
        s := s.(pass := Idle);
        return run + [Finish];
      }
      var groups := GroupByNamespace(items.Keys);
      RunNext(t, run, ReadClock, grace);
      run := run + [ReadClock];
      s := s.(pass := Running(items, s.clock, None));
      run := ReconcileAll(grace, faults, groups, t, items, run);
      RunNext(t, run, Finish, grace);
      run := run + [Finish];
      s := s.(pass := Idle);
    }

    /** The loop over the namespaces, in any order. */
    method ReconcileAll(grace: int, faults: Faults, groups: map<string, set<Key>>, ghost t: State, items: map<Key, Template>, ghost run: seq<Action>)
      returns (ghost run': seq<Action>)
      requires items == Managed(t.templates) && IsPartition(groups, items.Keys) && !faults.list
      requires s == t.(pass := Running(items, t.clock, None)) && Legal(t, run, grace) && After(t, run, grace) == s
      modifies this
      ensures s.pass.Running? && s == t.(templates := t.templates - Doomed(t, grace, faults), pass := s.pass)
      ensures Legal(t, run', grace) && After(t, run', grace) == s
    {
      run' := run;
      var left := groups.Keys;
      ghost var done: set<Key>, rest, at := {}, items, None;
      while left != {}
        invariant left <= groups.Keys && Visited(items.Keys, groups.Keys - left, faults.pods, done) && rest == items - done
        invariant s == Mid(t, grace, faults, done, rest, at)
        invariant Legal(t, run', grace) && After(t, run', grace) == s
        decreases left
      {
        var ns :| ns in left;
        at, run' := ReconcileNamespace(grace, faults, ns, groups[ns], t, done, rest, at, run');
        ghost var more := if ns in faults.pods then {} else groups[ns];
        assert groups.Keys - (left - {ns}) == groups.Keys - left + {ns};
        DropTwice(items, done, more);
        left, done, rest := left - {ns}, done + more, rest - more;
      }
    }
  }

  ghost predicate IsPartition(groups: map<string, set<Key>>, items: set<Key>) {
    && (forall k :: k in items ==> k.ns in groups)
    && (forall ns :: ns in groups ==> forall k :: k in groups[ns] <==> k in items && k.ns == ns)
  }

  /** `done` are the items of the visited namespaces whose pods could be listed. */
  ghost predicate Visited(items: set<Key>, namespaces: set<string>, failing: set<string>, done: set<Key>) {
    forall k :: k in done <==> k in items && k.ns in namespaces && k.ns !in failing
  }

  lemma DropTwice<T>(items: map<Key, T>, a: set<Key>, b: set<Key>)
    ensures items - a - b == items - (a + b)
  {
  }

  lemma NothingManaged(t: State, grace: int, faults: Faults)
    requires Managed(t.templates) == map[]
    ensures t.templates - Doomed(t, grace, faults) == t.templates
  {
    assert Doomed(t, grace, faults) <= Managed(t.templates).Keys;
    assert Doomed(t, grace, faults) == {};
  }

  /** A pass without faults leaves no garbage, and nothing but garbage is missing. */
  lemma NoGarbageLeft(s: State, grace: int, k: Key)
    ensures var s' := s.(templates := s.templates - Doomed(s, grace, Faults(false, {}, {})));
      !Garbage(s', k, grace) && (k in s.templates && k !in s'.templates <==> Garbage(s, k, grace))
  {
    var s' := s.(templates := s.templates - Doomed(s, grace, Faults(false, {}, {})));
    assert Referenced(s', k) <==> Referenced(s, k) by {
      assert forall p :: Refers(s', p, k) <==> Refers(s, p, k);
    }
  }
}
