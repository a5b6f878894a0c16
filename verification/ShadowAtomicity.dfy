/**
 A prepare is all or nothing, and its answer does not depend on the order in which its
 goroutines finish.  Both need shadow names that no two claims share.
 */
module ShadowAtomicity {

  import opened Options
  import opened Kubernetes
  import opened ShadowMachine
  import opened ShadowSafety

  // ---------- Invariants of the world ----------

  ghost predicate Gone(w: World, uid: nat) {
    forall k :: k in w.api ==> w.api[k].uid != uid
  }

  /** No claim of that UID exists under another name, nor will one. */
  ghost predicate Bound(w: World, k: Key, uid: nat) {
    uid < w.nextUid && forall m :: m in w.api && w.api[m].uid == uid ==> m == k
  }

  ghost predicate UidsUnique(w: World) {
    forall k :: k in w.api ==> Bound(w, k, w.api[k].uid)
  }

  /** A claim under a shadow name has no allocation or one that a member of that name asks for. */
  ghost predicate AllocsRight(ctx: Context, w: World) {
    forall u, k :: u in ctx.claims && ctx.claims[u].Owns(k) ==> AllocRight(ctx.claims[u], w, k)
  }

  ghost predicate AllocRight(c: Claim, w: World, k: Key) {
    k in w.api && w.api[k].alloc.Some? ==> c.Wants(k, w.api[k].alloc.value)
  }

  // ---------- Invariants of a prepare call ----------

  /** The CDI IDs are those of a member under that shadow name. */
  ghost predicate AnswerFor(cdi: Allocation -> seq<string>, c: Claim, k: Key, ids: seq<string>) {
    exists a :: c.Wants(k, a) && ids == cdi(a)
  }

  ghost predicate SlotOk(ctx: Context, c: Claim, w: World, k: Key, slot: Slot) {
    match slot
    case Created(uid) => Bound(w, k, uid)
    case Undo(uid) => Bound(w, k, uid)
    case Shadowed(uid, reply) => Bound(w, k, uid) && (reply.Answered? ==> AnswerFor(ctx.cdi, c, k, reply.cdi))
    case Undone(uid, took) => Bound(w, k, uid) && (took ==> Gone(w, uid))
    case _ => true
  }

  /** The claim that the goroutine has made and not come to use. */
  function Made(slot: Slot): Option<nat> {
    match slot
    case Created(uid) => Some(uid)
    case Undo(uid) => Some(uid)
    case Undone(uid, _) => Some(uid)
    case Failed(stray) => stray
    case _ => None
  }

  /** It is a claim of this call, as long as it exists. */
  ghost predicate MadeOk(u: string, w: World, k: Key, slot: Slot, since: nat) {
    Made(slot).Some? ==>
      since <= Made(slot).value && Bound(w, k, Made(slot).value) && (!Gone(w, Made(slot).value) ==> w.Labelled(u, k))
  }

  /** The slot accounts for a claim of that UID under its name. */
  predicate Holds(slot: Slot, uid: nat) {
    || ((slot.Created? || slot.Undo? || slot.Shadowed?) && slot.uid == uid)
    || slot == Undone(uid, false)
    || slot == Failed(Some(uid))
  }

  ghost predicate HeldBySome(c: Claim, slots: seq<Slot>, k: Key, uid: nat) {
    exists i :: 0 <= i < |slots| && i < |c.work| && c.work[i].key == k && Holds(slots[i], uid)
  }

  /** A claim made since the call began, still carrying the label of its composite claim. */
  ghost predicate LeftBehind(w: World, u: string, since: nat, k: Key) {
    w.Labelled(u, k) && since <= w.api[k].uid
  }

  /** A claim that this call has made is accounted for by a slot of its name. */
  ghost predicate Accounted(u: string, c: Claim, w: World, slots: seq<Slot>, since: nat) {
    since <= w.nextUid && forall k :: LeftBehind(w, u, since, k) ==> HeldBySome(c, slots, k, w.api[k].uid)
  }

  ghost predicate SlotsOk(ctx: Context, u: string, w: World, l: Local)
    requires u in ctx.claims
  {
    l.call.Preparing? ==>
      && |l.call.slots| == |ctx.claims[u].work|
      && Accounted(u, ctx.claims[u], w, l.call.slots, l.call.before.nextUid)
      && forall i :: 0 <= i < |l.call.slots| ==> OneSlotOk(ctx, u, w, l, i)
  }

  ghost predicate OneSlotOk(ctx: Context, u: string, w: World, l: Local, i: nat)
    requires u in ctx.claims && l.call.Preparing? && i < |l.call.slots| == |ctx.claims[u].work|
  {
    && SlotOk(ctx, ctx.claims[u], w, ctx.claims[u].work[i].key, l.call.slots[i])
    && MadeOk(u, w, ctx.claims[u].work[i].key, l.call.slots[i], l.call.before.nextUid)
  }

  ghost predicate RecordFrom(c: Claim, slots: seq<Slot>, r: Record) {
    exists i :: 0 <= i < |slots| && i < |c.work| && slots[i].Shadowed? && r == RecordOf(c, c.work[i], slots[i].uid)
  }

  ghost predicate Cleared(w: World, r: Record) {
    Gone(w, r.uid) && (r.driver, r.uid) !in w.prepared
  }

  /** cleanupShadows: what is no longer on the list is gone, here and at the driver. */
  ghost predicate CleaningOk(ctx: Context, u: string, w: World, l: Local)
    requires u in ctx.claims
  {
    l.call.Preparing? && l.call.phase.Cleaning? ==>
      && (forall r :: r in l.call.phase.todo ==> RecordFrom(ctx.claims[u], l.call.slots, r))
      && (l.call.phase.took ==>
            && (l.call.phase.deleteNext ==>
                  l.call.phase.todo != [] && (l.call.phase.todo[0].driver, l.call.phase.todo[0].uid) !in w.prepared)
            && (forall r :: RecordFrom(ctx.claims[u], l.call.slots, r) ==> r in l.call.phase.todo || Cleared(w, r)))
  }

  ghost predicate AtomicInv(ctx: Context, s: State) {
    && s.locals.Keys == ctx.claims.Keys
    && UidsUnique(s.world)
    && AllocsRight(ctx, s.world)
    && (forall u :: u in ctx.claims ==> SlotsOk(ctx, u, s.world, s.locals[u]))
    && (forall u :: u in ctx.claims ==> CleaningOk(ctx, u, s.world, s.locals[u]))
  }

  // ---------- What the others do ----------

  /** Drivers are asked only for claims that exist under a name of the acting claim. */
  ghost predicate AsksOwn(ctx: Context, u: Option<string>, w: World, w': World) {
    forall p :: p in w'.prepared && p !in w.prepared ==>
      && u.Some? && u.value in ctx.claims
      && exists k :: k in w.api && ctx.claims[u.value].Owns(k) && w.api[k].uid == p.1
  }

  lemma GrowthKeepsUids(ctx: Context, u: Option<string>, w: World, w': World)
    requires Grows(ctx, u, w, w') && UidsUnique(w)
    ensures UidsUnique(w')
    ensures forall uid: nat :: uid < w.nextUid && Gone(w, uid) ==> Gone(w', uid)
    ensures forall k, uid: nat :: Bound(w, k, uid) ==> Bound(w', k, uid)
  {
  }

  lemma SlotsStable(ctx: Context, u: string, actor: Option<string>, w: World, w': World, l: Local)
    requires u in ctx.claims && actor != Some(u) && Grows(ctx, actor, w, w') && UidsUnique(w) && SlotsOk(ctx, u, w, l)
    ensures SlotsOk(ctx, u, w', l)
  {
    if l.call.Preparing? {
      forall k | LeftBehind(w', u, l.call.before.nextUid, k) ensures HeldBySome(ctx.claims[u], l.call.slots, k, w'.api[k].uid) {
        assert LeftBehind(w, u, l.call.before.nextUid, k);
      }
      forall i | 0 <= i < |l.call.slots| ensures OneSlotOk(ctx, u, w', l, i) {
        SlotStable(ctx, u, actor, w, w', l, i);
      }
    }
  }

  lemma CleaningStable(ctx: Context, u: string, actor: Option<string>, w: World, w': World, l: Local)
    requires NamesApart(ctx) && u in ctx.claims && actor != Some(u)
    requires Grows(ctx, actor, w, w') && AsksOwn(ctx, actor, w, w') && UidsUnique(w)
    requires SlotsOk(ctx, u, w, l) && CleaningOk(ctx, u, w, l)
    ensures CleaningOk(ctx, u, w', l)
  {
    if l.call.Preparing? && l.call.phase.Cleaning? && l.call.phase.took {
      GrowthKeepsUids(ctx, actor, w, w');
      forall r | RecordFrom(ctx.claims[u], l.call.slots, r)
        ensures (r.driver, r.uid) in w'.prepared ==> (r.driver, r.uid) in w.prepared
        ensures r in l.call.phase.todo || Cleared(w', r)
      {
        var i :| 0 <= i < |l.call.slots| && l.call.slots[i].Shadowed? && r == RecordOf(ctx.claims[u], ctx.claims[u].work[i], l.call.slots[i].uid);
        assert OneSlotOk(ctx, u, w, l, i) && ctx.claims[u].Owns(ctx.claims[u].work[i].key);
      }
      if l.call.phase.deleteNext {
        assert RecordFrom(ctx.claims[u], l.call.slots, l.call.phase.todo[0]);
      }
    }
  }

  // ---------- What a step does for its own claim ----------

  lemma {:induction false} RecordsFrom(c: Claim, work: seq<Work>, slots: seq<Slot>, r: Record)
    requires |work| == |slots|
    ensures r in Records(c, work, slots) <==>
            exists i :: 0 <= i < |slots| && slots[i].Shadowed? && r == RecordOf(c, work[i], slots[i].uid)
  {
    if work == [] {
    } else {
      RecordsFrom(c, work[1..], slots[1..], r);
      if i :| 0 <= i < |slots| && slots[i].Shadowed? && r == RecordOf(c, work[i], slots[i].uid) {
        if i > 0 {
          assert slots[1..][i - 1].Shadowed? && r == RecordOf(c, work[1..][i - 1], slots[1..][i - 1].uid);
        }
      }
    }
  }

  /** One external call of a goroutine keeps the invariants of its own slot. */
  lemma AdvanceOk(ctx: Context, u: string, c: Claim, i: nat, w: World, slot: Slot, o: Outcome, since: nat)
    requires i < |c.work| && since <= w.nextUid && UidsUnique(w) && AllocRight(c, w, c.work[i].key)
    requires SlotOk(ctx, c, w, c.work[i].key, slot) && MadeOk(u, w, c.work[i].key, slot, since) && !slot.Failed? && !slot.Undone?
    ensures var (w', slot') := Advanced(ctx, u, c.work[i], w, slot, o);
      && SlotOk(ctx, c, w', c.work[i].key, slot') && MadeOk(u, w', c.work[i].key, slot', since)
      && AllocRight(c, w', c.work[i].key)
  {
    assert c.Wants(c.work[i].key, c.work[i].target);
  }

  /** What the world does to the other slots of the call. */
  lemma SlotStable(ctx: Context, u: string, actor: Option<string>, w: World, w': World, l: Local, i: nat)
    requires Grows(ctx, actor, w, w') && UidsUnique(w) && u in ctx.claims
    requires l.call.Preparing? && i < |l.call.slots| == |ctx.claims[u].work| && OneSlotOk(ctx, u, w, l, i)
    ensures OneSlotOk(ctx, u, w', l, i)
  {
    GrowthKeepsUids(ctx, actor, w, w');
  }

  /** A goroutine's call keeps every claim of its prepare accounted for. */
  lemma AdvanceAccounted(ctx: Context, u: string, w: World, l: Local, i: nat, o: Outcome)
    requires u in ctx.claims && CanStep(ctx.claims[u], l, Advance(i, o)) && UidsUnique(w) && SlotsOk(ctx, u, w, l)
    ensures var (w', l') := Stepped(ctx, u, w, l, Advance(i, o));
      Accounted(u, ctx.claims[u], w', l'.call.slots, l.call.before.nextUid)
  {
    var c, since := ctx.claims[u], l.call.before.nextUid;
    var (w', l') := Stepped(ctx, u, w, l, Advance(i, o));
    assert OneSlotOk(ctx, u, w, l, i);
    forall k | LeftBehind(w', u, since, k) ensures HeldBySome(c, l'.call.slots, k, w'.api[k].uid) {
      var uid := w'.api[k].uid;
      if LeftBehind(w, u, since, k) && w.api[k].uid == uid {
        var j :| 0 <= j < |l.call.slots| && c.work[j].key == k && Holds(l.call.slots[j], uid);
        assert Holds(l'.call.slots[j], uid);
      } else {
        assert c.work[i].key == k && Holds(l'.call.slots[i], uid);
      }
    }
  }

  lemma AdvanceSlotsOk(ctx: Context, u: string, w: World, l: Local, i: nat, o: Outcome)
    requires NamesApart(ctx) && u in ctx.claims && CanStep(ctx.claims[u], l, Advance(i, o))
    requires UidsUnique(w) && AllocsRight(ctx, w) && SlotsOk(ctx, u, w, l)
    ensures var (w', l') := Stepped(ctx, u, w, l, Advance(i, o)); SlotsOk(ctx, u, w', l') && AllocsRight(ctx, w')
  {
    var c := ctx.claims[u];
    var (w', l') := Stepped(ctx, u, w, l, Advance(i, o));
    assert OneSlotOk(ctx, u, w, l, i) && c.Owns(c.work[i].key);
    AdvanceOk(ctx, u, c, i, w, l.call.slots[i], o, l.call.before.nextUid);
    AdvanceGrows(ctx, u, i, w, l.call.slots[i], o);
    AdvanceAccounted(ctx, u, w, l, i, o);
    forall j | 0 <= j < |c.work| ensures OneSlotOk(ctx, u, w', l', j) {
      if j != i {
        SlotStable(ctx, u, Some(u), w, w', l, j);
      }
    }
    AllocsKept(ctx, u, w, w', c.work[i].key);
  }

  /** Only the allocation under one name of u has changed. */
  lemma AllocsKept(ctx: Context, u: string, w: World, w': World, key: Key)
    requires NamesApart(ctx) && u in ctx.claims && ctx.claims[u].Owns(key)
    requires AllocsRight(ctx, w) && AllocRight(ctx.claims[u], w', key)
    requires forall k :: k != key && k in w'.api ==> k in w.api && w'.api[k] == w.api[k]
    ensures AllocsRight(ctx, w')
  {
    forall v, k | v in ctx.claims && ctx.claims[v].Owns(k) ensures AllocRight(ctx.claims[v], w', k) {
      assert AllocRight(ctx.claims[v], w, k);
    }
  }

  /** Steps other than a goroutine's call do not touch slots, but Deletes remove claims. */
  lemma OtherStepSlotsOk(ctx: Context, u: string, w: World, l: Local, p: Step)
    requires u in ctx.claims && CanStep(ctx.claims[u], l, p) && !p.Advance?
    requires UidsUnique(w) && AllocsRight(ctx, w) && SlotsOk(ctx, u, w, l)
    ensures var (w', l') := Stepped(ctx, u, w, l, p);
      && SlotsOk(ctx, u, w', l') && AllocsRight(ctx, w')
      && w'.prepared <= w.prepared
  {
    var (w', l') := Stepped(ctx, u, w, l, p);
    assert w'.api.Keys <= w.api.Keys && w'.nextUid == w.nextUid;
    assert forall k :: k in w'.api ==> w'.api[k] == w.api[k];
    forall v, k | v in ctx.claims && ctx.claims[v].Owns(k) ensures AllocRight(ctx.claims[v], w', k) {
      assert AllocRight(ctx.claims[v], w, k);
    }
    if l'.call.Preparing? && l.call.Preparing? {
      forall k | LeftBehind(w', u, l.call.before.nextUid, k) ensures HeldBySome(ctx.claims[u], l'.call.slots, k, w'.api[k].uid) {
        assert LeftBehind(w, u, l.call.before.nextUid, k);
      }
      forall i | 0 <= i < |l'.call.slots| ensures OneSlotOk(ctx, u, w', l', i) {
        assert OneSlotOk(ctx, u, w, l, i);
      }
    }
  }

  lemma JoinCleaningOk(ctx: Context, u: string, w: World, l: Local)
    requires u in ctx.claims && CanStep(ctx.claims[u], l, Join)
    ensures CleaningOk(ctx, u, w, Joined(ctx.claims[u], l))
  {
    var c := ctx.claims[u];
    forall r ensures r in Records(c, c.work, l.call.slots) <==> RecordFrom(c, l.call.slots, r) {
      RecordsFrom(c, c.work, l.call.slots, r);
    }
  }

  lemma CleanNextOk(ctx: Context, u: string, w: World, l: Local, o: Outcome)
    requires u in ctx.claims && CanStep(ctx.claims[u], l, CleanNext(o))
    requires SlotsOk(ctx, u, w, l) && CleaningOk(ctx, u, w, l)
    ensures var (w', l') := Stepped(ctx, u, w, l, CleanNext(o)); CleaningOk(ctx, u, w', l')
  {
    var (w', l') := Stepped(ctx, u, w, l, CleanNext(o));
    var todo := l.call.phase.todo;
    forall r | RecordFrom(ctx.claims[u], l.call.slots, r) && l'.call.phase.took
      ensures r in l'.call.phase.todo || Cleared(w', r)
    {
      var i :| 0 <= i < |l.call.slots| && l.call.slots[i].Shadowed? && r == RecordOf(ctx.claims[u], ctx.claims[u].work[i], l.call.slots[i].uid);
      assert OneSlotOk(ctx, u, w, l, i);
    }
  }

  lemma StepAtomic(ctx: Context, u: string, w: World, l: Local, p: Step)
    requires NamesApart(ctx) && u in ctx.claims && CanStep(ctx.claims[u], l, p)
    requires UidsUnique(w) && AllocsRight(ctx, w) && SlotsOk(ctx, u, w, l) && CleaningOk(ctx, u, w, l)
    ensures var (w', l') := Stepped(ctx, u, w, l, p);
      AllocsRight(ctx, w') && SlotsOk(ctx, u, w', l') && CleaningOk(ctx, u, w', l') && AsksOwn(ctx, Some(u), w, w')
  {
    if p.Advance? {
      AdvanceSlotsOk(ctx, u, w, l, p.i, p.o);
      assert ctx.claims[u].Owns(ctx.claims[u].work[p.i].key);
    } else {
      OtherStepSlotsOk(ctx, u, w, l, p);
      if p.Join? {
        JoinCleaningOk(ctx, u, w, l);
      } else if p.CleanNext? {
        CleanNextOk(ctx, u, w, l, p.o);
      }
    }
  }

  lemma OneClaimActsAtomic(ctx: Context, s: State, actor: Option<string>, t: State)
    requires NamesApart(ctx) && AtomicInv(ctx, s) && t.locals.Keys == s.locals.Keys
    requires Grows(ctx, actor, s.world, t.world) && AsksOwn(ctx, actor, s.world, t.world) && AllocsRight(ctx, t.world)
    requires forall v :: v in ctx.claims && actor != Some(v) ==> t.locals[v] == s.locals[v]
    requires actor.Some? && actor.value in ctx.claims ==>
               SlotsOk(ctx, actor.value, t.world, t.locals[actor.value]) && CleaningOk(ctx, actor.value, t.world, t.locals[actor.value])
    ensures AtomicInv(ctx, t)
  {
    GrowthKeepsUids(ctx, actor, s.world, t.world);
    forall v | v in ctx.claims && actor != Some(v)
      ensures SlotsOk(ctx, v, t.world, t.locals[v]) && CleaningOk(ctx, v, t.world, t.locals[v])
    {
      SlotsStable(ctx, v, actor, s.world, t.world, s.locals[v]);
      CleaningStable(ctx, v, actor, s.world, t.world, s.locals[v]);
    }
  }

  lemma ActionKeepsAtomic(ctx: Context, s: State, a: Action)
    requires NamesApart(ctx) && AtomicInv(ctx, s) && Enabled(ctx, s, a)
    ensures AtomicInv(ctx, Do(ctx, s, a))
  {
    match a
    case Of(u, p) =>
      StepAtomic(ctx, u, s.world, s.locals[u], p);
      StepGrows(ctx, u, s.world, s.locals[u], p);
      OneClaimActsAtomic(ctx, s, Some(u), Do(ctx, s, a));
    case OthersDelete(k) =>
      OneClaimActsAtomic(ctx, s, None, Do(ctx, s, a));
    case OthersCreate(k, _, _) =>
      OneClaimActsAtomic(ctx, s, None, Do(ctx, s, a));
    case CrashRestart(_) =>
  }

  lemma {:induction false} RunKeepsAtomic(ctx: Context, s: State, run: seq<Action>)
    requires NamesApart(ctx) && AtomicInv(ctx, s) && Legal(ctx, s, run)
    ensures AtomicInv(ctx, After(ctx, s, run))
    decreases |run|
  {
    if run == [] {
    } else {
      ActionKeepsAtomic(ctx, s, run[0]);
      RunKeepsAtomic(ctx, Do(ctx, s, run[0]), run[1..]);
    }
  }

  lemma ReachableAtomic(ctx: Context, t: State)
    requires NamesApart(ctx) && Reachable(ctx, t)
    ensures AtomicInv(ctx, t)
  {
    var s, run :| Init(ctx, s) && Legal(ctx, s, run) && After(ctx, s, run) == t;
    RunKeepsAtomic(ctx, s, run);
  }

  // ---------- Theorems over whole runs ----------

  /** prepareClaim is about to return an error ... */
  predicate Failing(l: Local) {
    l.call.Preparing? && l.call.phase.Cleaning? && l.call.phase.todo == []
  }

  /** ... and all its compensating calls took effect. */
  predicate FailingCleanly(l: Local) {
    Failing(l) && l.call.phase.took && forall i :: 0 <= i < |l.call.slots| && l.call.slots[i].Undone? ==> l.call.slots[i].took
  }

  /** A failed prepare is all or nothing.  Whichever calls failed and in whatever order the
      goroutines finished: the records in memory and on disk are what the call found ... */
  lemma FailedPrepareKeepsRecords(ctx: Context, t: State, u: string)
    requires WellFormed(ctx) && Reachable(ctx, t) && u in t.locals && Failing(t.locals[u])
    ensures t.locals[u].mem == t.locals[u].call.before.mem && t.locals[u].disk == t.locals[u].call.before.disk
  {
    ReachableInv(ctx, t);
  }

  /** ... and when the compensating calls took effect, no shadow claim that the call created
      or adopted exists any more, and none is prepared at its driver. */
  lemma CompensationClears(ctx: Context, t: State, u: string, i: nat)
    requires NamesApart(ctx) && Reachable(ctx, t) && u in ctx.claims && u in t.locals && FailingCleanly(t.locals[u])
    requires i < |t.locals[u].call.slots| && (t.locals[u].call.slots[i].Shadowed? || t.locals[u].call.slots[i].Undone?)
    ensures Gone(t.world, t.locals[u].call.slots[i].uid)
    ensures i < |ctx.claims[u].work|
    ensures t.locals[u].call.slots[i].Shadowed? ==>
              (ctx.claims[u].work[i].target.driver, t.locals[u].call.slots[i].uid) !in t.world.prepared
  {
    ReachableAtomic(ctx, t);
    var c, slots := ctx.claims[u], t.locals[u].call.slots;
    if slots[i].Shadowed? {
      assert RecordFrom(c, slots, RecordOf(c, c.work[i], slots[i].uid));
    } else {
      assert OneSlotOk(ctx, u, t.world, t.locals[u], i);
    }
  }

  // ---------- The same from the outcomes of the calls alone ----------

  /** No Create takes effect and reports an error, and no compensating Delete is lost. */
  predicate BenignCall(slot: Slot, o: Outcome) {
    (slot.Idle? ==> o != Late) && (slot.Undo? ==> o != Lost)
  }

  predicate BenignStep(c: Claim, l: Local, p: Step)
    requires CanStep(c, l, p)
  {
    (p.Advance? ==> BenignCall(l.call.slots[p.i], p.o)) && (p.CleanNext? ==> p.o != Lost)
  }

  /** Every call that u makes for compensation takes effect; all others, of u and of other
      claims, fail freely. */
  ghost predicate BenignRun(ctx: Context, u: string, s: State, run: seq<Action>)
    requires Legal(ctx, s, run)
    decreases |run|
  {
    run == [] || ((run[0].Of? && run[0].u == u ==> BenignStep(ctx.claims[u], s.locals[u], run[0].p))
                  && BenignRun(ctx, u, Do(ctx, s, run[0]), run[1..]))
  }

  /** The call has compensated for whatever it has undone so far. */
  predicate Compensating(l: Local) {
    l.call.Preparing? ==>
      && (l.call.phase.Cleaning? ==> l.call.phase.took)
      && forall i :: 0 <= i < |l.call.slots| ==>
           (l.call.slots[i].Undone? ==> l.call.slots[i].took) && (l.call.slots[i].Failed? ==> l.call.slots[i].stray.None?)
  }

  lemma BenignCompensates(ctx: Context, u: string, w: World, l: Local, p: Step)
    requires u in ctx.claims && CanStep(ctx.claims[u], l, p) && Compensating(l) && BenignStep(ctx.claims[u], l, p)
    ensures Compensating(Stepped(ctx, u, w, l, p).1)
  {
  }

  /** Of the shadow claims of u, those that are older than the call are as it found them. */
  ghost predicate OldUntouched(u: string, w0: World, w: World) {
    forall k :: w.Labelled(u, k) && w.api[k].uid < w0.nextUid ==> k in w0.api && w.api[k] == w0.api[k]
  }

  lemma StepLeavesOld(ctx: Context, u: string, w0: World, w: World, l: Local, p: Step)
    requires u in ctx.claims && CanStep(ctx.claims[u], l, p) && SlotsOk(ctx, u, w, l) && OldUntouched(u, w0, w)
    requires w0.nextUid <= w.nextUid && (l.call.Preparing? ==> l.call.before.nextUid == w0.nextUid)
    ensures OldUntouched(u, w0, Stepped(ctx, u, w, l, p).0)
  {
    if p.Advance? {
      assert OneSlotOk(ctx, u, w, l, p.i);
    }
  }

  /** A goroutine changes an allocation only under a name of its own claim. */
  lemma OtherStepLeavesLabelled(ctx: Context, u: string, v: string, w: World, l: Local, p: Step, k: Key)
    requires NamesApart(ctx) && LabelsAtOwnNames(ctx, w) && u in ctx.claims && v in ctx.claims && u != v && CanStep(ctx.claims[v], l, p)
    requires Stepped(ctx, v, w, l, p).0.Labelled(u, k)
    ensures w.Labelled(u, k) && Stepped(ctx, v, w, l, p).0.api[k] == w.api[k]
  {
    StepGrows(ctx, v, w, l, p);
    LabelsKept(ctx, Some(v), w, Stepped(ctx, v, w, l, p).0);
    if p.Advance? {
      assert ctx.claims[v].Owns(ctx.claims[v].work[p.i].key);
    }
  }

  lemma OthersLeaveOld(ctx: Context, u: string, s: State, a: Action, w0: World)
    requires NamesApart(ctx) && Inv(ctx, s) && u in ctx.claims && Enabled(ctx, s, a) && OldUntouched(u, w0, s.world)
    requires a.Of? ==> a.u != u
    ensures OldUntouched(u, w0, Do(ctx, s, a).world)
  {
    var w' := Do(ctx, s, a).world;
    forall k | w'.Labelled(u, k) ensures s.world.Labelled(u, k) && w'.api[k] == s.world.api[k] {
      if a.Of? {
        OtherStepLeavesLabelled(ctx, u, a.u, s.world, s.locals[a.u], a.p, k);
      }
    }
  }

  /** The middle of the prepare of u that began in s. */
  ghost predicate During(ctx: Context, u: string, s: State, t: State) {
    && u in s.locals && u in t.locals && s.world.nextUid <= t.world.nextUid && OldUntouched(u, s.world, t.world)
    && (t.locals[u].call.Preparing? ==>
          t.locals[u].call.before == Snapshot(s.locals[u].mem, s.locals[u].disk, s.world.nextUid) && Compensating(t.locals[u]))
  }

  lemma DuringNext(ctx: Context, u: string, s: State, t: State, a: Action)
    requires NamesApart(ctx) && AtomicInv(ctx, t) && Inv(ctx, t) && u in ctx.claims && During(ctx, u, s, t)
    requires Enabled(ctx, t, a) && a != Of(u, StartPrepare)
    requires a.Of? && a.u == u ==> BenignStep(ctx.claims[u], t.locals[u], a.p)
    ensures During(ctx, u, s, Do(ctx, t, a))
  {
    if a.Of? {
      StepGrows(ctx, a.u, t.world, t.locals[a.u], a.p);
    }
    if a.Of? && a.u == u {
      StepLeavesOld(ctx, u, s.world, t.world, t.locals[u], a.p);
      BenignCompensates(ctx, u, t.world, t.locals[u], a.p);
    } else {
      OthersLeaveOld(ctx, u, t, a, s.world);
    }
  }

  lemma {:induction false} RunDuring(ctx: Context, u: string, s: State, t: State, run: seq<Action>)
    requires WellFormed(ctx) && NamesApart(ctx) && AtomicInv(ctx, t) && Inv(ctx, t) && u in ctx.claims && During(ctx, u, s, t)
    requires Legal(ctx, t, run) && BenignRun(ctx, u, t, run) && Of(u, StartPrepare) !in run
    ensures During(ctx, u, s, After(ctx, t, run))
    decreases |run|
  {
    if run == [] {
    } else {
      ActionKeepsInv(ctx, t, run[0]);
      ActionKeepsAtomic(ctx, t, run[0]);
      DuringNext(ctx, u, s, t, run[0]);
      RunDuring(ctx, u, s, Do(ctx, t, run[0]), run[1..]);
    }
  }

  /** All or nothing, from the outcomes of the calls.  A prepare of u begins in any reachable
      state s and comes to its error return after any run in which its compensating calls
      take effect and its Creates do not fail late.  Then the records are those of s, every
      shadow claim of u stands exactly as in s, and of those that the call has made or
      adopted none exists or is prepared at its driver. */
  lemma FailedPrepareLeavesNothing(ctx: Context, s: State, run: seq<Action>, u: string)
    requires WellFormed(ctx) && NamesApart(ctx) && Reachable(ctx, s) && u in ctx.claims && Enabled(ctx, s, Of(u, StartPrepare))
    requires Legal(ctx, Do(ctx, s, Of(u, StartPrepare)), run) && BenignRun(ctx, u, Do(ctx, s, Of(u, StartPrepare)), run)
    requires Of(u, StartPrepare) !in run
    requires var t := After(ctx, Do(ctx, s, Of(u, StartPrepare)), run); u in t.locals && Failing(t.locals[u])
    ensures var t := After(ctx, Do(ctx, s, Of(u, StartPrepare)), run);
      && t.locals[u].mem == s.locals[u].mem && t.locals[u].disk == s.locals[u].disk
      && (forall k :: t.world.Labelled(u, k) ==> k in s.world.api && t.world.api[k] == s.world.api[k])
      && |t.locals[u].call.slots| == |ctx.claims[u].work|
      && (forall i :: 0 <= i < |t.locals[u].call.slots| && t.locals[u].call.slots[i].Shadowed? ==>
            && Gone(t.world, t.locals[u].call.slots[i].uid)
            && (ctx.claims[u].work[i].target.driver, t.locals[u].call.slots[i].uid) !in t.world.prepared)
  {
    var s1 := Do(ctx, s, Of(u, StartPrepare));
    var t := After(ctx, s1, run);
    ReachableStep(ctx, s, Of(u, StartPrepare));
    ReachableInv(ctx, s1);
    ReachableAtomic(ctx, s1);
    RunDuring(ctx, u, s, s1, run);
    ReachableRun(ctx, s1, run);
    ReachableInv(ctx, t);
    ReachableAtomic(ctx, t);
    forall k | t.world.Labelled(u, k) ensures t.world.api[k].uid < s.world.nextUid {
      if s.world.nextUid <= t.world.api[k].uid {
        var i := OnlyStraysRemain(ctx, t, u, k);
      }
    }
    forall i | 0 <= i < |t.locals[u].call.slots| && t.locals[u].call.slots[i].Shadowed?
      ensures Gone(t.world, t.locals[u].call.slots[i].uid)
      ensures (ctx.claims[u].work[i].target.driver, t.locals[u].call.slots[i].uid) !in t.world.prepared
    {
      CompensationClears(ctx, t, u, i);
    }
  }

  /** What such a failed prepare can leave behind: only claims that a Create made although
      it reported an error.  Nothing compensates for those. */
  lemma OnlyStraysRemain(ctx: Context, t: State, u: string, k: Key) returns (i: nat)
    requires WellFormed(ctx) && NamesApart(ctx) && Reachable(ctx, t) && u in t.locals && FailingCleanly(t.locals[u])
    requires LeftBehind(t.world, u, t.locals[u].call.before.nextUid, k)
    ensures i < |t.locals[u].call.slots| && t.locals[u].call.slots[i] == Failed(Some(t.world.api[k].uid))
  {
    ReachableInv(ctx, t);
    ReachableAtomic(ctx, t);
    assert HeldBySome(ctx.claims[u], t.locals[u].call.slots, k, t.world.api[k].uid);
    i :| 0 <= i < |t.locals[u].call.slots| && ctx.claims[u].work[i].key == k && Holds(t.locals[u].call.slots[i], t.world.api[k].uid);
    if t.locals[u].call.slots[i].Shadowed? || t.locals[u].call.slots[i].Undone? {
      CompensationClears(ctx, t, u, i);
    }
  }

  /** Exactly when a failed prepare leaves nothing: its compensating calls given, no shadow
      claim made since it began remains if and only if every claim that a Create made
      while reporting an error is gone. */
  lemma LeavesNothingExactly(ctx: Context, t: State, u: string)
    requires WellFormed(ctx) && NamesApart(ctx) && Reachable(ctx, t) && u in t.locals && FailingCleanly(t.locals[u])
    ensures (forall k :: !LeftBehind(t.world, u, t.locals[u].call.before.nextUid, k)) <==>
      forall i :: 0 <= i < |t.locals[u].call.slots| && t.locals[u].call.slots[i].Failed? && t.locals[u].call.slots[i].stray.Some? ==>
        Gone(t.world, t.locals[u].call.slots[i].stray.value)
  {
    ReachableInv(ctx, t);
    ReachableAtomic(ctx, t);
    var slots, since := t.locals[u].call.slots, t.locals[u].call.before.nextUid;
    if k :| LeftBehind(t.world, u, since, k) {
      var i := OnlyStraysRemain(ctx, t, u, k);
      assert !Gone(t.world, slots[i].stray.value);
    }
    forall i | 0 <= i < |slots| && slots[i].Failed? && slots[i].stray.Some? && !Gone(t.world, slots[i].stray.value)
      ensures LeftBehind(t.world, u, since, ctx.claims[u].work[i].key)
    {
      assert OneSlotOk(ctx, u, t.world, t.locals[u], i);
    }
  }

  /** A successful prepare got, for every member, the CDI IDs that a driver answers for a
      member of that shadow name, whatever the order of completion and the faults on the
      way; the member's own, if those under one name agree. */
  lemma AnswersAreScheduleIndependent(ctx: Context, t: State, u: string, i: nat)
    requires WellFormed(ctx) && NamesApart(ctx) && Reachable(ctx, t) && u in ctx.claims && u in t.locals
    requires t.locals[u].call.Preparing? && t.locals[u].call.phase == Committing && i < |ctx.claims[u].work|
    ensures i < |t.locals[u].call.slots| && t.locals[u].call.slots[i].Shadowed? && t.locals[u].call.slots[i].reply.Answered?
    ensures AnswerFor(ctx.cdi, ctx.claims[u], ctx.claims[u].work[i].key, t.locals[u].call.slots[i].reply.cdi)
    ensures SameAnswers(ctx.cdi, ctx.claims[u]) ==> t.locals[u].call.slots[i].reply.cdi == ctx.cdi(ctx.claims[u].work[i].target)
  {
    ReachableInv(ctx, t);
    ReachableAtomic(ctx, t);
    assert Bookkeeping(ctx.claims[u], u, t.locals[u]);
    assert OneSlotOk(ctx, u, t.world, t.locals[u], i);
  }

  // ---------- Where the promise ends ----------

  /** A Create that takes effect but reports an error: the prepare of a one-member claim
      fails with nothing to compensate, and its shadow claim stays. */
  lemma LateCreateLeavesStray(ctx: Context, t: State, u: string) returns (t': State)
    requires Reachable(ctx, t) && u in ctx.claims && u in t.locals && t.locals[u].call.NoCall?
    requires |ctx.claims[u].work| == 1 && ctx.claims[u].work[0].key !in t.world.api
    ensures Reachable(ctx, t') && u in t'.locals && FailingCleanly(t'.locals[u])
    ensures t'.world.Labelled(u, ctx.claims[u].work[0].key)
  {
    var t1 := Do(ctx, t, Of(u, StartPrepare));
    ReachableStep(ctx, t, Of(u, StartPrepare));
    var t2 := Do(ctx, t1, Of(u, Advance(0, Late)));
    ReachableStep(ctx, t1, Of(u, Advance(0, Late)));
    var slots := t2.locals[u].call.slots;
    assert slots == [Failed(Some(t.world.nextUid))];
    assert !slots[0].Shadowed? && Records(ctx.claims[u], ctx.claims[u].work[1..], slots[1..]) == [];
    t' := Do(ctx, t2, Of(u, Join));
    ReachableStep(ctx, t2, Of(u, Join));
  }
}
