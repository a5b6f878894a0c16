/**
 What stays prepared at the underlying drivers: nothing that the plugin does not remember,
 as long as no step makes it forget; and what is once forgotten stays prepared for ever.
 */
module ShadowDrivers {

  import opened Options
  import opened ShadowMachine
  import opened ShadowSafety
  import opened ShadowAtomicity

  /** A driver and the UID of a shadow claim prepared there. */
  type Hold = (string, nat)

  function HoldOf(r: Record): Hold { (r.driver, r.uid) }

  ghost predicate Among(rs: seq<Record>, h: Hold) {
    exists j :: 0 <= j < |rs| && HoldOf(rs[j]) == h
  }

  ghost predicate InSlots(c: Claim, slots: seq<Slot>, h: Hold) {
    exists i :: 0 <= i < |slots| && i < |c.work| && slots[i].Shadowed? && (c.work[i].target.driver, slots[i].uid) == h
  }

  /** The records whose driver call is still to come. */
  function Pending(todo: seq<Record>, deleteNext: bool): seq<Record> {
    if deleteNext && todo != [] then todo[1..] else todo
  }

  /** The plugin remembers the hold, in its records or in a call in flight. */
  ghost predicate Remembers(c: Claim, l: Local, h: Hold) {
    || (l.mem.Some? && Among(l.mem.value, h))
    || (l.call.Preparing? && (l.call.phase == Creating || l.call.phase == Delegating) && InSlots(c, l.call.slots, h))
    || (l.call.Preparing? && l.call.phase.Cleaning? && Among(Pending(l.call.phase.todo, l.call.phase.deleteNext), h))
    || (l.call.Unpreparing? && l.call.stage.Releasing? && Among(Pending(l.call.stage.todo, l.call.stage.deleteNext), h))
  }

  ghost predicate Remembered(ctx: Context, s: State, h: Hold) {
    exists u :: u in ctx.claims && u in s.locals && Remembers(ctx.claims[u], s.locals[u], h)
  }

  ghost predicate AllRemembered(ctx: Context, s: State) {
    forall h :: h in s.world.prepared ==> Remembered(ctx, s, h)
  }

  // ---------- Steps that forget nothing ----------

  /** An Unprepare that is lost concerns nothing that is prepared and not recorded
      otherwise, and a new record drops no UID that is still prepared. */
  ghost predicate CarefulStep(c: Claim, w: World, l: Local, p: Step)
    requires CanStep(c, l, p)
  {
    match p
    case CleanNext(o) =>
      var h := HoldOf(l.call.phase.todo[0]);
      o == Lost && !l.call.phase.deleteNext && h in w.prepared ==> l.mem.Some? && Among(l.mem.value, h)
    case ReleaseNext(o) =>
      o == Lost && !l.call.stage.deleteNext ==> HoldOf(l.call.stage.todo[0]) !in w.prepared
    case Join =>
      l.call.phase == Delegating && AllAnswered(l.call.slots) && l.mem.Some? ==>
        forall h :: h in w.prepared && Among(l.mem.value, h) ==> InSlots(c, l.call.slots, h)
    case _ => true
  }

  /** A crash forgets nothing if the database can be read and holds all that is prepared. */
  ghost predicate Careful(ctx: Context, s: State, a: Action)
    requires Enabled(ctx, s, a)
  {
    match a
    case Of(u, p) => CarefulStep(ctx.claims[u], s.world, s.locals[u], p)
    case CrashRestart(readOk) => s.world.prepared != {} ==> readOk && forall h :: h in s.world.prepared ==> OnDisk(ctx, s, h)
    case _ => true
  }

  ghost predicate OnDisk(ctx: Context, s: State, h: Hold) {
    exists u :: u in ctx.claims && u in s.locals && s.locals[u].disk.Some? && Among(Restored(s.locals[u].disk.value), h)
  }

  lemma SlotsInRecords(c: Claim, slots: seq<Slot>, h: Hold)
    requires |slots| == |c.work|
    ensures InSlots(c, slots, h) <==> Among(Records(c, c.work, slots), h)
  {
    var rs := Records(c, c.work, slots);
    if InSlots(c, slots, h) {
      var i :| 0 <= i < |slots| && slots[i].Shadowed? && (c.work[i].target.driver, slots[i].uid) == h;
      RecordsFrom(c, c.work, slots, RecordOf(c, c.work[i], slots[i].uid));
      var j :| 0 <= j < |rs| && rs[j] == RecordOf(c, c.work[i], slots[i].uid);
    }
    if Among(rs, h) {
      var j :| 0 <= j < |rs| && HoldOf(rs[j]) == h;
      RecordsFrom(c, c.work, slots, rs[j]);
    }
  }

  /** What a claim remembers it still does after its own careful step, if it is still
      prepared. */
  lemma StillRemembers(ctx: Context, u: string, w: World, l: Local, p: Step, h: Hold)
    requires u in ctx.claims && CanStep(ctx.claims[u], l, p) && CarefulStep(ctx.claims[u], w, l, p)
    requires Bookkeeping(ctx.claims[u], u, l) && Remembers(ctx.claims[u], l, h)
    requires h in w.prepared && h in Stepped(ctx, u, w, l, p).0.prepared
    ensures Remembers(ctx.claims[u], Stepped(ctx, u, w, l, p).1, h)
  {
    var c := ctx.claims[u];
    match p
    case Advance(i, o) =>
      if j :| 0 <= j < |l.call.slots| && l.call.slots[j].Shadowed? && (c.work[j].target.driver, l.call.slots[j].uid) == h {
        var slots := Stepped(ctx, u, w, l, p).1.call.slots;
        assert slots[j].Shadowed? && slots[j].uid == l.call.slots[j].uid;
      }
    case Join => SlotsInRecords(c, l.call.slots, h);
    case _ =>
  }

  /** A driver is asked only for a shadow that the call holds in a slot. */
  lemma NewHoldRemembered(ctx: Context, u: string, w: World, l: Local, p: Step, h: Hold)
    requires u in ctx.claims && CanStep(ctx.claims[u], l, p)
    requires h !in w.prepared && h in Stepped(ctx, u, w, l, p).0.prepared
    ensures Remembers(ctx.claims[u], Stepped(ctx, u, w, l, p).1, h)
  {
    assert p.Advance?;
    var slots := Stepped(ctx, u, w, l, p).1.call.slots;
    assert slots[p.i].Shadowed? && (ctx.claims[u].work[p.i].target.driver, slots[p.i].uid) == h;
  }

  lemma StepRemembers(ctx: Context, s: State, u: string, p: Step)
    requires Inv(ctx, s) && AllRemembered(ctx, s) && Enabled(ctx, s, Of(u, p)) && Careful(ctx, s, Of(u, p))
    ensures AllRemembered(ctx, Do(ctx, s, Of(u, p)))
  {
    var t := Do(ctx, s, Of(u, p));
    forall h | h in t.world.prepared ensures Remembered(ctx, t, h) {
      if h in s.world.prepared {
        var v :| v in ctx.claims && v in s.locals && Remembers(ctx.claims[v], s.locals[v], h);
        if v == u {
          StillRemembers(ctx, u, s.world, s.locals[u], p, h);
        } else {
          assert t.locals[v] == s.locals[v];
        }
      } else {
        NewHoldRemembered(ctx, u, s.world, s.locals[u], p, h);
      }
    }
  }

  /** After a restart the plugin remembers all that is prepared exactly if the crash was
      careful. */
  lemma CrashRemembersExactly(ctx: Context, s: State, readOk: bool)
    ensures AllRemembered(ctx, Do(ctx, s, CrashRestart(readOk))) <==> Careful(ctx, s, CrashRestart(readOk))
  {
    var t := Do(ctx, s, CrashRestart(readOk));
    forall h ensures Remembered(ctx, t, h) <==> readOk && OnDisk(ctx, s, h) {
      if readOk && OnDisk(ctx, s, h) {
        var u :| u in ctx.claims && u in s.locals && s.locals[u].disk.Some? && Among(Restored(s.locals[u].disk.value), h);
        assert Remembers(ctx.claims[u], t.locals[u], h);
      }
    }
  }

  lemma ActionRemembers(ctx: Context, s: State, a: Action)
    requires Inv(ctx, s) && AllRemembered(ctx, s) && Enabled(ctx, s, a) && Careful(ctx, s, a)
    ensures AllRemembered(ctx, Do(ctx, s, a))
  {
    match a
    case Of(u, p) => StepRemembers(ctx, s, u, p);
    case CrashRestart(readOk) => CrashRemembersExactly(ctx, s, readOk);
    case _ =>
      forall h | h in s.world.prepared ensures Remembered(ctx, Do(ctx, s, a), h) {
        assert Remembered(ctx, s, h);
      }
  }

  ghost predicate CarefulRun(ctx: Context, s: State, run: seq<Action>)
    requires Legal(ctx, s, run)
    decreases |run|
  {
    run == [] || (Careful(ctx, s, run[0]) && CarefulRun(ctx, Do(ctx, s, run[0]), run[1..]))
  }

  lemma {:induction false} RunRemembers(ctx: Context, s: State, run: seq<Action>)
    requires WellFormed(ctx) && Inv(ctx, s) && AllRemembered(ctx, s) && Legal(ctx, s, run) && CarefulRun(ctx, s, run)
    ensures AllRemembered(ctx, After(ctx, s, run))
    decreases |run|
  {
    if run == [] {
    } else {
      ActionKeepsInv(ctx, s, run[0]);
      ActionRemembers(ctx, s, run[0]);
      RunRemembers(ctx, Do(ctx, s, run[0]), run[1..]);
    }
  }

  /** Nothing stays prepared at the drivers.  In every run whose steps forget nothing: once
      no call is in flight and no claim has a record, no driver holds a shadow claim. */
  lemma DriversHoldNothing(ctx: Context, s: State, run: seq<Action>)
    requires WellFormed(ctx) && Init(ctx, s) && Legal(ctx, s, run) && CarefulRun(ctx, s, run)
    requires forall u :: u in After(ctx, s, run).locals ==>
      var l := After(ctx, s, run).locals[u]; l.call.NoCall? && (l.mem.Some? ==> l.mem.value == [])
    ensures After(ctx, s, run).world.prepared == {}
  {
    RunRemembers(ctx, s, run);
    var t := After(ctx, s, run);
    forall h ensures h !in t.world.prepared {
      assert h in t.world.prepared ==> Remembered(ctx, t, h);
    }
  }

  // ---------- Which crashes are careful ----------

  /** An unprepare in flight still has on disk what it has yet to release. */
  ghost predicate BackedUp(l: Local) {
    l.call.Unpreparing? && l.call.stage.Releasing? && !l.diskFault ==>
      l.disk.Some? && forall r :: r in l.call.stage.todo ==> r in Restored(l.disk.value)
  }

  ghost predicate AllBackedUp(ctx: Context, s: State) {
    forall u :: u in ctx.claims && u in s.locals ==> BackedUp(s.locals[u])
  }

  lemma StepBackedUp(ctx: Context, u: string, w: World, l: Local, p: Step)
    requires u in ctx.claims && CanStep(ctx.claims[u], l, p) && Bookkeeping(ctx.claims[u], u, l) && BackedUp(l)
    ensures BackedUp(Stepped(ctx, u, w, l, p).1)
  {
  }

  lemma {:induction false} RunBackedUp(ctx: Context, s: State, run: seq<Action>)
    requires WellFormed(ctx) && Inv(ctx, s) && AllBackedUp(ctx, s) && Legal(ctx, s, run)
    ensures AllBackedUp(ctx, After(ctx, s, run))
    decreases |run|
  {
    if run == [] {
    } else {
      ActionKeepsInv(ctx, s, run[0]);
      if run[0].Of? {
        StepBackedUp(ctx, run[0].u, s.world, s.locals[run[0].u], run[0].p);
      }
      RunBackedUp(ctx, Do(ctx, s, run[0]), run[1..]);
    }
  }

  lemma RememberedOnDisk(c: Claim, u: string, l: Local, h: Hold)
    requires Bookkeeping(c, u, l) && BackedUp(l) && !l.diskFault && !l.call.Preparing? && Remembers(c, l, h)
    ensures l.disk.Some? && Among(Restored(l.disk.value), h)
  {
    if l.call.Unpreparing? {
      var todo := Pending(l.call.stage.todo, l.call.stage.deleteNext);
      var j :| 0 <= j < |todo| && HoldOf(todo[j]) == h;
      assert todo[j] in l.call.stage.todo;
      var i :| 0 <= i < |Restored(l.disk.value)| && Restored(l.disk.value)[i] == todo[j];
    }
  }

  /** A crash is careful at every moment at which no prepare is in flight, if the database
      has never failed: unprepares may be anywhere in their loops. */
  lemma CrashOutsidePrepareIsCareful(ctx: Context, s: State, run: seq<Action>)
    requires WellFormed(ctx) && Init(ctx, s) && Legal(ctx, s, run) && CarefulRun(ctx, s, run)
    requires forall u :: u in After(ctx, s, run).locals ==>
      var l := After(ctx, s, run).locals[u]; !l.diskFault && !l.call.Preparing?
    ensures Careful(ctx, After(ctx, s, run), CrashRestart(true))
  {
    RunRemembers(ctx, s, run);
    RunKeepsInv(ctx, s, run);
    RunBackedUp(ctx, s, run);
    var t := After(ctx, s, run);
    forall h | h in t.world.prepared ensures OnDisk(ctx, t, h) {
      var u :| u in ctx.claims && u in t.locals && Remembers(ctx.claims[u], t.locals[u], h);
      RememberedOnDisk(ctx.claims[u], u, t.locals[u], h);
    }
  }

  // ---------- What is forgotten stays prepared ----------

  /** No record, on disk or in memory, and no goroutine knows the UID. */
  ghost predicate NoTrace(l: Local, h: Hold) {
    && (l.mem.Some? ==> !Among(l.mem.value, h))
    && (l.disk.Some? ==> !Among(Restored(l.disk.value), h))
    && (l.call.Preparing? ==> forall i :: 0 <= i < |l.call.slots| && l.call.slots[i].Shadowed? ==> l.call.slots[i].uid != h.1)
    && (l.call.Preparing? && l.call.phase.Cleaning? ==> !Among(l.call.phase.todo, h))
    && (l.call.Unpreparing? && l.call.stage.Releasing? ==> !Among(l.call.stage.todo, h))
  }

  /** Prepared at a driver for a shadow claim that no longer exists and nobody remembers. */
  ghost predicate Forgotten(ctx: Context, s: State, h: Hold) {
    && h in s.world.prepared && h.1 < s.world.nextUid && Gone(s.world, h.1)
    && forall u :: u in ctx.claims && u in s.locals ==> NoTrace(s.locals[u], h)
  }

  lemma PrepareLeavesNoTrace(ctx: Context, u: string, w: World, l: Local, p: Step, h: Hold)
    requires u in ctx.claims && CanStep(ctx.claims[u], l, p) && OfPrepare(p) && Gone(w, h.1) && h in w.prepared && NoTrace(l, h)
    ensures NoTrace(PrepareStep(ctx, u, w, l, p).1, h) && h in PrepareStep(ctx, u, w, l, p).0.prepared
  {
    var c := ctx.claims[u];
    match p
    case Join => SlotsInRecords(c, l.call.slots, h);
    case Persist(_) =>
      SlotsInRecords(c, l.call.slots, h);
      PersistRestoreIdentity(u, c, Records(c, c.work, l.call.slots));
    case _ =>
  }

  lemma ActionKeepsForgotten(ctx: Context, s: State, a: Action, h: Hold)
    requires Forgotten(ctx, s, h) && Enabled(ctx, s, a)
    ensures Forgotten(ctx, Do(ctx, s, a), h)
  {
    match a
    case Of(u, p) =>
      StepGrows(ctx, u, s.world, s.locals[u], p);
      if OfPrepare(p) {
        PrepareLeavesNoTrace(ctx, u, s.world, s.locals[u], p, h);
      }
    case _ =>
  }

  /** Whatever happens next, a forgotten hold is never released. */
  lemma {:induction false} ForgottenForEver(ctx: Context, s: State, run: seq<Action>, h: Hold)
    requires Forgotten(ctx, s, h) && Legal(ctx, s, run)
    ensures h in After(ctx, s, run).world.prepared
    decreases |run|
  {
    if run == [] {
    } else {
      ActionKeepsForgotten(ctx, s, run[0], h);
      ForgottenForEver(ctx, Do(ctx, s, run[0]), run[1..], h);
    }
  }

  // ---------- Whose hold it is ----------

  ghost predicate Mentions(rs: seq<Record>, uid: nat) {
    exists j :: 0 <= j < |rs| && rs[j].uid == uid
  }

  /** The UID is in a record of the claim or in the hands of its call. */
  ghost predicate Knows(l: Local, uid: nat) {
    || (l.mem.Some? && Mentions(l.mem.value, uid))
    || (l.disk.Some? && Mentions(Restored(l.disk.value), uid))
    || (l.call.Preparing? && exists i :: 0 <= i < |l.call.slots| && l.call.slots[i].Shadowed? && l.call.slots[i].uid == uid)
    || (l.call.Preparing? && l.call.phase.Cleaning? && Mentions(l.call.phase.todo, uid))
    || (l.call.Unpreparing? && l.call.stage.Releasing? && Mentions(l.call.stage.todo, uid))
  }

  /** Claims of that UID are under names of u. */
  ghost predicate UnderNamesOf(ctx: Context, w: World, u: string, uid: nat)
    requires u in ctx.claims
  {
    uid < w.nextUid && forall k :: k in w.api && w.api[k].uid == uid ==> ctx.claims[u].Owns(k)
  }

  /** Under the shadow names of a claim there are only its own shadow claims. */
  ghost predicate NamesLabelled(ctx: Context, w: World) {
    forall u, k :: u in ctx.claims && ctx.claims[u].Owns(k) && k in w.api ==> w.api[k].owner == Some(u)
  }

  /** What the plugin knows for a claim are that claim's shadow claims, and no other's. */
  ghost predicate Provenance(ctx: Context, s: State) {
    && s.locals.Keys == ctx.claims.Keys
    && NamesLabelled(ctx, s.world)
    && (forall u, uid :: u in ctx.claims && Knows(s.locals[u], uid) ==> UnderNamesOf(ctx, s.world, u, uid))
    && (forall u, v, uid :: u in ctx.claims && v in ctx.claims && Knows(s.locals[u], uid) && Knows(s.locals[v], uid) ==> u == v)
  }

  /** A step comes to know only the UID of a claim that stands under a name of its own. */
  ghost predicate Meets(c: Claim, w: World, uid: nat) {
    exists k :: c.Owns(k) && k in w.api && w.api[k].uid == uid
  }

  lemma SlotsMentioned(c: Claim, slots: seq<Slot>, uid: nat)
    requires |slots| == |c.work| && Mentions(Records(c, c.work, slots), uid)
    ensures exists i :: 0 <= i < |slots| && slots[i].Shadowed? && slots[i].uid == uid
  {
    var rs := Records(c, c.work, slots);
    var j :| 0 <= j < |rs| && rs[j].uid == uid;
    RecordsFrom(c, c.work, slots, rs[j]);
  }

  lemma StepMeets(ctx: Context, u: string, w: World, l: Local, p: Step, uid: nat)
    requires u in ctx.claims && CanStep(ctx.claims[u], l, p) && Knows(Stepped(ctx, u, w, l, p).1, uid)
    ensures Knows(l, uid) || Meets(ctx.claims[u], w, uid)
  {
    var c := ctx.claims[u];
    if p.Advance? {
      assert c.Owns(c.work[p.i].key);
    } else if p.Join? {
      if Mentions(Records(c, c.work, l.call.slots), uid) {
        SlotsMentioned(c, l.call.slots, uid);
      }
    } else if p.Persist? {
      PersistRestoreIdentity(u, c, Records(c, c.work, l.call.slots));
      if Mentions(Records(c, c.work, l.call.slots), uid) {
        SlotsMentioned(c, l.call.slots, uid);
      }
    }
  }

  lemma UnderNamesKept(ctx: Context, actor: Option<string>, w: World, w': World, u: string, uid: nat)
    requires u in ctx.claims && Grows(ctx, actor, w, w') && UnderNamesOf(ctx, w, u, uid)
    ensures UnderNamesOf(ctx, w', u, uid)
  {
  }

  lemma NamesLabelledKept(ctx: Context, actor: Option<string>, w: World, w': World)
    requires NamesApart(ctx) && Grows(ctx, actor, w, w') && NamesLabelled(ctx, w)
    ensures NamesLabelled(ctx, w')
  {
  }

  /** One claim acts; the locals of the others stay. */
  lemma StepProvenance(ctx: Context, s: State, u: string, p: Step)
    requires NamesApart(ctx) && UidsUnique(s.world) && Provenance(ctx, s) && Enabled(ctx, s, Of(u, p))
    ensures Provenance(ctx, Do(ctx, s, Of(u, p)))
  {
    var t := Do(ctx, s, Of(u, p));
    StepGrows(ctx, u, s.world, s.locals[u], p);
    NamesLabelledKept(ctx, Some(u), s.world, t.world);
    forall v, uid | v in ctx.claims && Knows(t.locals[v], uid)
      ensures UnderNamesOf(ctx, t.world, v, uid)
      ensures v == u || !Knows(t.locals[u], uid)
    {
      if v == u {
        StepMeets(ctx, u, s.world, s.locals[u], p, uid);
      }
      assert UnderNamesOf(ctx, s.world, v, uid);
      UnderNamesKept(ctx, Some(u), s.world, t.world, v, uid);
      if v != u && Knows(t.locals[u], uid) {
        StepMeets(ctx, u, s.world, s.locals[u], p, uid);
      }
    }
  }

  lemma ActionProvenance(ctx: Context, s: State, a: Action)
    requires NamesApart(ctx) && UidsUnique(s.world) && Provenance(ctx, s) && Enabled(ctx, s, a)
    ensures Provenance(ctx, Do(ctx, s, a))
  {
    var t := Do(ctx, s, a);
    match a
    case Of(u, p) => StepProvenance(ctx, s, u, p);
    case CrashRestart(readOk) =>
      forall v, uid | v in ctx.claims && Knows(t.locals[v], uid) ensures Knows(s.locals[v], uid) {
      }
    case _ =>
      assert Grows(ctx, None, s.world, t.world);
      NamesLabelledKept(ctx, None, s.world, t.world);
      forall v, uid | v in ctx.claims && Knows(t.locals[v], uid) ensures UnderNamesOf(ctx, t.world, v, uid) {
        UnderNamesKept(ctx, None, s.world, t.world, v, uid);
      }
  }

  lemma {:induction false} RunProvenance(ctx: Context, s: State, run: seq<Action>)
    requires NamesApart(ctx) && AtomicInv(ctx, s) && Provenance(ctx, s) && Legal(ctx, s, run)
    ensures Provenance(ctx, After(ctx, s, run))
    decreases |run|
  {
    if run == [] {
    } else {
      ActionKeepsAtomic(ctx, s, run[0]);
      ActionProvenance(ctx, s, run[0]);
      RunProvenance(ctx, Do(ctx, s, run[0]), run[1..]);
    }
  }

  lemma ReachableProvenance(ctx: Context, t: State)
    requires NamesApart(ctx) && Reachable(ctx, t)
    ensures Provenance(ctx, t)
  {
    var s, run :| Init(ctx, s) && Legal(ctx, s, run) && After(ctx, s, run) == t;
    RunProvenance(ctx, s, run);
  }

  // ---------- Unprepare after a crash ----------

  /** Prepared for a shadow claim of u: one that the plugin knows for u, or one in the API
      server that bears the label of u. */
  ghost predicate HeldFor(ctx: Context, s: State, u: string, h: Hold) {
    && h in s.world.prepared && u in s.locals
    && (Knows(s.locals[u], h.1) || exists k :: s.world.Labelled(u, k) && s.world.api[k].uid == h.1)
  }

  function HoldsOf(record: Option<seq<Record>>): set<Hold> {
    if record.None? then {} else set r | r in record.value :: HoldOf(r)
  }

  /** What an unprepare of u does when none of its calls fails. */
  ghost predicate CleanUnprepare(u: string, s: State, t: State) {
    && t.locals.Keys == s.locals.Keys && u in t.locals
    && (forall v :: v in t.locals && v != u ==> t.locals[v] == s.locals[v])
    && t.locals[u].mem.None? && t.locals[u].disk.None? && t.locals[u].call.NoCall?
    && t.world.nextUid == s.world.nextUid
    && t.world.prepared == s.world.prepared - HoldsOf(s.locals[u].mem)
    && (forall k :: k in t.world.api <==> k in s.world.api && !s.world.Labelled(u, k))
    && (forall k :: k in t.world.api ==> t.world.api[k] == s.world.api[k])
  }

  /** The database names the hold for u. */
  ghost predicate NamedOnDisk(l: Local, h: Hold) {
    l.disk.Some? && Among(Restored(l.disk.value), h)
  }

  /** Nothing has happened since s but that the plugin may have lost knowledge. */
  ghost predicate NoNewKnowledge(s: State, s': State) {
    s'.world == s.world && s'.locals.Keys == s.locals.Keys && forall v, uid :: v in s.locals && Knows(s'.locals[v], uid) ==> Knows(s.locals[v], uid)
  }

  /** A hold of u concerns no claim in the API server but one labelled u, and nothing that
      is known for another claim. */
  lemma HoldIsOwn(ctx: Context, s: State, u: string, h: Hold)
    requires WellFormed(ctx) && NamesApart(ctx) && Reachable(ctx, s) && u in ctx.claims && HeldFor(ctx, s, u, h)
    ensures s.locals.Keys == ctx.claims.Keys && h.1 < s.world.nextUid
    ensures forall k :: k in s.world.api && s.world.api[k].uid == h.1 ==> s.world.Labelled(u, k)
    ensures forall v :: v in ctx.claims && v != u ==> !Knows(s.locals[v], h.1)
  {
    ReachableInv(ctx, s);
    ReachableAtomic(ctx, s);
    ReachableProvenance(ctx, s);
    if !Knows(s.locals[u], h.1) {
      var m :| s.world.Labelled(u, m) && s.world.api[m].uid == h.1;
      assert Bound(s.world, m, h.1) && ctx.claims[u].Owns(m);
      forall v | v in ctx.claims && Knows(s.locals[v], h.1) ensures v == u {
        assert UnderNamesOf(ctx, s.world, v, h.1);
      }
    } else {
      assert UnderNamesOf(ctx, s.world, u, h.1);
    }
  }

  /** After a clean unprepare nothing of a hold of u is left but the hold. */
  lemma LeftHoldForgotten(ctx: Context, s: State, s': State, t: State, u: string, h: Hold)
    requires WellFormed(ctx) && NamesApart(ctx) && Reachable(ctx, s) && u in ctx.claims
    requires HeldFor(ctx, s, u, h) && NoNewKnowledge(s, s') && CleanUnprepare(u, s', t) && h in t.world.prepared
    ensures Forgotten(ctx, t, h)
  {
    HoldIsOwn(ctx, s, u, h);
    assert forall k :: k in t.world.api && t.world.api[k].uid == h.1 ==> t.world.Labelled(u, k);
    forall v | v in ctx.claims && v in t.locals ensures NoTrace(t.locals[v], h) {
      assert v != u ==> !Knows(t.locals[v], h.1);
    }
  }

  /** A crash at any moment, then a fault-free unprepare of u: a hold of u stays prepared if
      and only if the database could not be read or does not name it, and it is then
      forgotten, so it stays for ever. */
  lemma CrashThenUnprepareExactly(ctx: Context, s: State, readOk: bool, t: State, u: string, h: Hold)
    requires WellFormed(ctx) && NamesApart(ctx) && Reachable(ctx, s) && u in ctx.claims && u in s.locals
    requires CleanUnprepare(u, Do(ctx, s, CrashRestart(readOk)), t) && HeldFor(ctx, s, u, h)
    ensures h in t.world.prepared <==> !readOk || !NamedOnDisk(s.locals[u], h)
    ensures h in t.world.prepared ==> Forgotten(ctx, t, h)
  {
    var s' := Do(ctx, s, CrashRestart(readOk));
    assert h in HoldsOf(s'.locals[u].mem) <==> readOk && NamedOnDisk(s.locals[u], h);
    if h in t.world.prepared {
      LeftHoldForgotten(ctx, s, s', t, u, h);
    }
  }

  // ---------- A crash that forgets ----------

  /** The run has come to world w and local part l of claim u, the other claims untouched. */
  ghost predicate Comes(ctx: Context, s: State, u: string, w: World, l: Local) {
    Reachable(ctx, State(w, s.locals[u := l]))
  }

  lemma Next(ctx: Context, s: State, u: string, w: World, l: Local, p: Step, w': World, l': Local)
    requires Comes(ctx, s, u, w, l) && u in ctx.claims && CanStep(ctx.claims[u], l, p) && Stepped(ctx, u, w, l, p) == (w', l')
    ensures Comes(ctx, s, u, w', l')
  {
    var t := State(w, s.locals[u := l]);
    ReachableStep(ctx, t, Of(u, p));
    assert Do(ctx, t, Of(u, p)) == State(w', s.locals[u := l']);
  }

  function InPrepare(w: World, slot: Slot, phase: Phase): Local {
    Local(None, None, Preparing([slot], phase, Snapshot(None, None, w.nextUid)), false, false)
  }

  function WithShadow(c: Claim, u: string, w: World, alloc: Option<Allocation>): World
    requires |c.work| == 1
  {
    w.(api := w.api[c.work[0].key := ApiClaim(w.nextUid, Some(u), alloc, None)], nextUid := w.nextUid + 1)
  }

  lemma ShadowMade(ctx: Context, s: State, u: string)
    requires Init(ctx, s) && u in ctx.claims && |ctx.claims[u].work| == 1
    ensures var c, w := ctx.claims[u], s.world;
      c.work[0].key !in w.api
      && Comes(ctx, s, u, WithShadow(c, u, w, Some(c.work[0].target)), InPrepare(w, Shadowed(w.nextUid, Waiting), Creating))
  {
    var c, w, l := ctx.claims[u], s.world, s.locals[u];
    assert c.Owns(c.work[0].key);
    assert Legal(ctx, s, []) && After(ctx, s, []) == s && s == State(w, s.locals[u := l]);
    assert seq(1, _ => Idle) == [Idle];
    Next(ctx, s, u, w, l, StartPrepare, w, InPrepare(w, Idle, Creating));
    assert [Idle][0 := Created(w.nextUid)] == [Created(w.nextUid)];
    Next(ctx, s, u, w, InPrepare(w, Idle, Creating), Advance(0, Works), WithShadow(c, u, w, None), InPrepare(w, Created(w.nextUid), Creating));
    var made := WithShadow(c, u, w, Some(c.work[0].target));
    assert WithShadow(c, u, w, None).api[c.work[0].key := made.api[c.work[0].key]] == made.api;
    assert Advanced(ctx, u, c.work[0], WithShadow(c, u, w, None), Created(w.nextUid), Works) == (made, Shadowed(w.nextUid, Waiting));
    assert [Created(w.nextUid)][0 := Shadowed(w.nextUid, Waiting)] == [Shadowed(w.nextUid, Waiting)];
    Next(ctx, s, u, WithShadow(c, u, w, None), InPrepare(w, Created(w.nextUid), Creating), Advance(0, Works),
         made, InPrepare(w, Shadowed(w.nextUid, Waiting), Creating));
  }

  /** The moment at which the driver has prepared the shadow claim and has not answered all. */
  lemma PreparedAtDriver(ctx: Context, s: State, u: string) returns (l: Local)
    requires Init(ctx, s) && u in ctx.claims && |ctx.claims[u].work| == 1
    ensures var c, w := ctx.claims[u], s.world;
      Comes(ctx, s, u, WithShadow(c, u, w, Some(c.work[0].target)).(prepared := {(c.work[0].target.driver, w.nextUid)}), l)
    ensures l == Local(None, None, l.call, false, false)
  {
    var c, w := ctx.claims[u], s.world;
    var made, h := WithShadow(c, u, w, Some(c.work[0].target)), (c.work[0].target.driver, w.nextUid);
    ShadowMade(ctx, s, u);
    Next(ctx, s, u, made, InPrepare(w, Shadowed(w.nextUid, Waiting), Creating), Join, made, InPrepare(w, Shadowed(w.nextUid, Waiting), Delegating));
    var slot := Shadowed(w.nextUid, Answered(ctx.cdi(c.work[0].target)));
    assert {} + {h} == {h};
    assert Advanced(ctx, u, c.work[0], made, Shadowed(w.nextUid, Waiting), Works) == (made.(prepared := {h}), slot);
    assert [Shadowed(w.nextUid, Waiting)][0 := slot] == [slot];
    l := InPrepare(w, slot, Delegating);
    Next(ctx, s, u, made, InPrepare(w, Shadowed(w.nextUid, Waiting), Delegating), Advance(0, Works), made.(prepared := {h}), l);
  }

  function InUnprepare(stage: Stage): Local {
    Local(None, None, Unpreparing(stage, true), false, false)
  }

  /** An unprepare without a record deletes the shadow claim by its label. */
  lemma SweptByLabel(ctx: Context, s: State, u: string, w: World)
    requires WellFormed(ctx) && Init(ctx, s) && u in ctx.claims && |ctx.claims[u].work| == 1
    requires Comes(ctx, s, u, w, Local(None, None, NoCall, false, false))
    requires w == WithShadow(ctx.claims[u], u, s.world, Some(ctx.claims[u].work[0].target)).(prepared := w.prepared)
    ensures Comes(ctx, s, u, w.(api := w.api - {ctx.claims[u].work[0].key}), Local(None, None, NoCall, true, false))
  {
    var k := ctx.claims[u].work[0].key;
    var w' := w.(api := w.api - {k});
    Next(ctx, s, u, w, Local(None, None, NoCall, false, false), StartUnprepare, w, InUnprepare(Listing));
    assert (set m | m in w.api && m.ns == ctx.claims[u].ns && w.api[m].owner == Some(u)) == {k};
    Next(ctx, s, u, w, InUnprepare(Listing), List(Works), w, InUnprepare(Sweeping({k})));
    assert {k} - {k} == {};
    Next(ctx, s, u, w, InUnprepare(Sweeping({k})), SweepNext(k, Works), w', InUnprepare(Sweeping({})));
    Next(ctx, s, u, w', InUnprepare(Sweeping({})), LoopEnd, w', InUnprepare(Forgetting));
    Next(ctx, s, u, w', InUnprepare(Forgetting), Forget(true), w', Local(None, None, NoCall, true, false));
  }

  lemma Crashes(ctx: Context, s: State, u: string, w: World, l: Local)
    requires Init(ctx, s) && u in ctx.claims && Comes(ctx, s, u, w, l) && l == Local(None, None, l.call, false, false)
    ensures Comes(ctx, s, u, w, Local(None, None, NoCall, false, false))
  {
    var t := State(w, s.locals[u := l]);
    ReachableStep(ctx, t, CrashRestart(true));
    var t' := State(w, s.locals[u := Local(None, None, NoCall, false, false)]);
    assert Do(ctx, t, CrashRestart(true)).locals == t'.locals;
  }

  /** A crash after the drivers have answered and before the record is written: the later
      unprepare, all of whose calls work, goes by label, asks no driver, and leaves the
      shadow claim's device prepared for ever. */
  lemma CrashLeavesDevicePrepared(ctx: Context, s: State, u: string) returns (t: State, h: Hold)
    requires WellFormed(ctx) && Init(ctx, s) && u in ctx.claims && |ctx.claims[u].work| == 1
    ensures Reachable(ctx, t) && u in t.locals && t.locals[u].released && t.locals[u].call.NoCall?
    ensures Forgotten(ctx, t, h)
  {
    var c := ctx.claims[u];
    h := (c.work[0].target.driver, s.world.nextUid);
    var w := WithShadow(c, u, s.world, Some(c.work[0].target)).(prepared := {h});
    var l := PreparedAtDriver(ctx, s, u);
    Crashes(ctx, s, u, w, l);
    SweptByLabel(ctx, s, u, w);
    t := State(w.(api := w.api - {c.work[0].key}), s.locals[u := Local(None, None, NoCall, true, false)]);
  }
}
