/**
 Invariants of every run of the shadow-claim protocol, and the theorems that rest on them:
 an unprepare whose API calls work leaves no shadow claim behind, and memory agrees with
 the state database.
 */
module ShadowSafety {

  import opened Options
  import opened Kubernetes
  import opened ShadowMachine

  // ---------- Records ----------

  ghost predicate KeyIn(k: Key, rs: seq<Record>) {
    exists j :: 0 <= j < |rs| && rs[j].key == k
  }

  /** The records name every shadow claim of c. */
  ghost predicate Covers(c: Claim, rs: seq<Record>) {
    forall k :: c.Owns(k) ==> KeyIn(k, rs)
  }

  /** With every member shadowed, the record list is the work list, position by position. */
  lemma {:induction false} RecordsAligned(c: Claim, work: seq<Work>, slots: seq<Slot>)
    requires |work| == |slots| && AllShadowed(slots)
    ensures |Records(c, work, slots)| == |work|
    ensures forall i :: 0 <= i < |work| ==> Records(c, work, slots)[i] == RecordOf(c, work[i], slots[i].uid)
  {
    if work == [] {
    } else {
      RecordsAligned(c, work[1..], slots[1..]);
      forall i | 0 <= i < |work|
        ensures Records(c, work, slots)[i] == RecordOf(c, work[i], slots[i].uid)
      {
        if i > 0 {
          assert Records(c, work, slots)[i] == Records(c, work[1..], slots[1..])[i - 1];
        }
      }
    }
  }

  lemma AllShadowedCovers(c: Claim, slots: seq<Slot>)
    requires |c.work| == |slots| && AllShadowed(slots)
    ensures Covers(c, Records(c, c.work, slots))
  {
    RecordsAligned(c, c.work, slots);
    forall k | c.Owns(k) ensures KeyIn(k, Records(c, c.work, slots)) {
      var i :| 0 <= i < |c.work| && c.work[i].key == k;
      assert Records(c, c.work, slots)[i].key == k;
    }
  }

  /** The records are of shadow claims of c. */
  ghost predicate OwnRecords(c: Claim, rs: seq<Record>) {
    forall j :: 0 <= j < |rs| ==> c.Owns(rs[j].key)
  }

  lemma {:induction false} RecordKeys(c: Claim, work: seq<Work>, slots: seq<Slot>, j: nat)
    requires |work| == |slots| && j < |Records(c, work, slots)|
    ensures exists i :: 0 <= i < |work| && work[i].key == Records(c, work, slots)[j].key
  {
    var n := if slots[0].Shadowed? then 1 else 0;
    if j < n {
      assert work[0].key == Records(c, work, slots)[j].key;
    } else {
      RecordKeys(c, work[1..], slots[1..], j - n);
      var i :| 0 <= i < |work[1..]| && work[1..][i].key == Records(c, work[1..], slots[1..])[j - n].key;
      assert work[i + 1].key == Records(c, work, slots)[j].key;
    }
  }

  lemma RecordsOwn(c: Claim, slots: seq<Slot>)
    requires |c.work| == |slots|
    ensures OwnRecords(c, Records(c, c.work, slots))
  {
    forall j | 0 <= j < |Records(c, c.work, slots)| ensures c.Owns(Records(c, c.work, slots)[j].key) {
      RecordKeys(c, c.work, slots, j);
    }
  }

  /** Writing records to the database and reading them back is the identity. */
  lemma PersistRestoreIdentity(u: string, c: Claim, rs: seq<Record>)
    ensures Restored(Persisted(u, c, rs)) == rs
  {
    var d := Persisted(u, c, rs);
    forall i | 0 <= i < |rs| ensures Restored(d)[i] == rs[i] {
      assert Decode(Encode(rs[i])) == rs[i];
    }
  }

  // ---------- Invariants ----------

  /** Shadow claims labelled with a claim's UID bear one of that claim's shadow names. */
  ghost predicate LabelsAtOwnNames(ctx: Context, w: World) {
    forall k :: k in w.api && w.api[k].owner.Some? ==>
      w.api[k].owner.value in ctx.claims && ctx.claims[w.api[k].owner.value].Owns(k)
  }

  /** Non-empty records, in memory and on disk, name every shadow claim; calls in flight
      have the shape of their phase; outside the gap between the two updates of a call,
      memory is what a restart would rebuild. */
  ghost predicate Bookkeeping(c: Claim, u: string, l: Local) {
    && (l.mem.Some? ==> l.mem.value == [] || Covers(c, l.mem.value))
    && (l.disk.Some? ==> l.disk.value.claimUid == u && (Restored(l.disk.value) == [] || Covers(c, Restored(l.disk.value))))
    && (l.call.Preparing? ==>
          && |l.call.slots| == |c.work|
          && (l.call.phase != Creating ==> Settled(l.call.slots))
          && (l.call.phase == Delegating ==> AllShadowed(l.call.slots))
          && (l.call.phase == Committing ==>
                AllAnswered(l.call.slots) && l.mem == Some(Records(c, c.work, l.call.slots)))
          && (l.call.phase != Committing ==> l.mem == l.call.before.mem)
          && l.disk == l.call.before.disk)
    && (l.call.Unpreparing? ==> l.mem.None?)
    && (Quiet(l) && !l.diskFault ==> l.mem == Reload(l.disk))
  }

  /** No call is between its change of memory and its change of the database. */
  predicate Quiet(l: Local) {
    l.call.NoCall? || (l.call.Preparing? && l.call.phase != Committing)
  }

  /** Whatever the records and the call in flight name are shadow claims of c, and no other's. */
  ghost predicate OwnKeys(c: Claim, l: Local) {
    && (l.mem.Some? ==> OwnRecords(c, l.mem.value))
    && (l.disk.Some? ==> OwnRecords(c, Restored(l.disk.value)))
    && (l.call.Preparing? && l.call.phase.Cleaning? ==> OwnRecords(c, l.call.phase.todo))
    && (l.call.Unpreparing? && l.call.stage.Releasing? ==> OwnRecords(c, l.call.stage.todo))
    && (l.call.Unpreparing? && l.call.stage.Sweeping? ==> forall k :: k in l.call.stage.left ==> c.Owns(k))
  }

  /** What a clean unprepare has still to delete includes all labelled shadow claims, and
      after it there are none until the next prepare. */
  ghost predicate NothingOverlooked(u: string, w: World, l: Local) {
    && (l.released ==> !l.call.Preparing? && forall k :: !w.Labelled(u, k))
    && (l.call.Unpreparing? && l.call.clean ==>
          match l.call.stage
          case Releasing(todo, _) => forall k :: w.Labelled(u, k) ==> KeyIn(k, todo)
          case Listing => true
          case Sweeping(left) => forall k :: w.Labelled(u, k) ==> k in left
          case Forgetting => forall k :: !w.Labelled(u, k))
  }

  ghost predicate Inv(ctx: Context, s: State) {
    && s.locals.Keys == ctx.claims.Keys
    && LabelsAtOwnNames(ctx, s.world)
    && (forall u :: u in ctx.claims ==> Bookkeeping(ctx.claims[u], u, s.locals[u]))
    && (forall u :: u in ctx.claims ==> OwnKeys(ctx.claims[u], s.locals[u]))
    && (forall u :: u in ctx.claims ==> NothingOverlooked(u, s.world, s.locals[u]))
  }

  // ---------- What an action does to the shared world ----------

  /** Claims keep UID and label; at most one is new, and it has a fresh UID and, if it
      is labelled, the label of the acting claim and one of that claim's shadow names. */
  ghost predicate Grows(ctx: Context, u: Option<string>, w: World, w': World) {
    && w.nextUid <= w'.nextUid
    && (forall k, m :: k in w'.api && k !in w.api && m in w'.api && m !in w.api ==> k == m)
    && forall k :: k in w'.api ==>
      || (k in w.api && w.api[k].uid == w'.api[k].uid && w.api[k].owner == w'.api[k].owner)
      || (&& k !in w.api && w'.api[k].uid == w.nextUid < w'.nextUid && w'.api[k].alloc.None?
          && u.Some? && u.value in ctx.claims && w'.api[k].owner == u && ctx.claims[u.value].Owns(k))
      || (&& k !in w.api && w'.api[k].uid == w.nextUid < w'.nextUid && w'.api[k].owner == None
          && forall v :: v in ctx.claims ==> !ctx.claims[v].Owns(k))
  }

  lemma AdvanceGrows(ctx: Context, u: string, i: nat, w: World, slot: Slot, o: Outcome)
    requires u in ctx.claims && i < |ctx.claims[u].work|
    ensures Grows(ctx, Some(u), w, Advanced(ctx, u, ctx.claims[u].work[i], w, slot, o).0)
  {
    assert ctx.claims[u].Owns(ctx.claims[u].work[i].key);
  }

  lemma StepGrows(ctx: Context, u: string, w: World, l: Local, p: Step)
    requires u in ctx.claims && CanStep(ctx.claims[u], l, p)
    ensures Grows(ctx, Some(u), w, Stepped(ctx, u, w, l, p).0)
  {
    if p.Advance? {
      AdvanceGrows(ctx, u, p.i, w, l.call.slots[p.i], p.o);
    }
  }

  lemma LabelsKept(ctx: Context, u: Option<string>, w: World, w': World)
    requires LabelsAtOwnNames(ctx, w) && Grows(ctx, u, w, w')
    ensures LabelsAtOwnNames(ctx, w')
    ensures forall v, k :: u != Some(v) && w'.Labelled(v, k) ==> w.Labelled(v, k)
  {
  }

  // ---------- Every step keeps the invariants of its claim ----------

  lemma BookkeepingKept(ctx: Context, u: string, w: World, l: Local, p: Step)
    requires u in ctx.claims && CanStep(ctx.claims[u], l, p) && Bookkeeping(ctx.claims[u], u, l)
    ensures Bookkeeping(ctx.claims[u], u, Stepped(ctx, u, w, l, p).1)
  {
    var c := ctx.claims[u];
    match p
    case Join =>
      if l.call.phase == Delegating && AllAnswered(l.call.slots) {
        AllShadowedCovers(c, l.call.slots);
      }
    case Persist(ok) =>
      PersistRestoreIdentity(u, c, Records(c, c.work, l.call.slots));
    case _ =>
  }

  lemma OwnKeysKept(ctx: Context, u: string, w: World, l: Local, p: Step)
    requires u in ctx.claims && CanStep(ctx.claims[u], l, p) && LabelsAtOwnNames(ctx, w) && OwnKeys(ctx.claims[u], l)
    ensures OwnKeys(ctx.claims[u], Stepped(ctx, u, w, l, p).1)
  {
    var c := ctx.claims[u];
    match p
    case Join => RecordsOwn(c, l.call.slots);
    case Persist(_) =>
      RecordsOwn(c, l.call.slots);
      PersistRestoreIdentity(u, c, Records(c, c.work, l.call.slots));
    case _ =>
  }

  lemma PrepareOverlooksNothing(ctx: Context, u: string, w: World, l: Local, p: Step)
    requires u in ctx.claims && CanStep(ctx.claims[u], l, p) && OfPrepare(p)
    requires NothingOverlooked(u, w, l)
    ensures NothingOverlooked(u, Stepped(ctx, u, w, l, p).0, Stepped(ctx, u, w, l, p).1)
  {
  }

  lemma UnprepareOverlooksNothing(ctx: Context, u: string, w: World, l: Local, p: Step)
    requires u in ctx.claims && CanStep(ctx.claims[u], l, p) && !OfPrepare(p) && WellFormed(ctx)
    requires LabelsAtOwnNames(ctx, w) && Bookkeeping(ctx.claims[u], u, l) && NothingOverlooked(u, w, l)
    ensures NothingOverlooked(u, Stepped(ctx, u, w, l, p).0, Stepped(ctx, u, w, l, p).1)
  {
    assert forall k :: Stepped(ctx, u, w, l, p).0.Labelled(u, k) ==> w.Labelled(u, k);
    if p.ReleaseNext? && l.call.stage.deleteNext {
      var todo := l.call.stage.todo;
      forall k | KeyIn(k, todo) && k != todo[0].key ensures KeyIn(k, todo[1..]) {
        var j :| 0 <= j < |todo| && todo[j].key == k;
        assert todo[1..][j - 1].key == k;
      }
    }
  }

  /** Only the world changes under the claims that do not act. */
  lemma OneClaimActs(ctx: Context, s: State, u: string, w: World, l: Local)
    requires Inv(ctx, s) && u in ctx.claims && Grows(ctx, Some(u), s.world, w)
    requires Bookkeeping(ctx.claims[u], u, l) && OwnKeys(ctx.claims[u], l) && NothingOverlooked(u, w, l)
    ensures Inv(ctx, State(w, s.locals[u := l]))
  {
    LabelsKept(ctx, Some(u), s.world, w);
    forall v | v in ctx.claims && v != u ensures NothingOverlooked(v, w, s.locals[v]) {
      assert NothingOverlooked(v, s.world, s.locals[v]);
    }
  }

  lemma StepKeepsInv(ctx: Context, s: State, u: string, p: Step)
    requires WellFormed(ctx) && Inv(ctx, s) && u in ctx.claims && CanStep(ctx.claims[u], s.locals[u], p)
    ensures var (w, l) := Stepped(ctx, u, s.world, s.locals[u], p); Inv(ctx, State(w, s.locals[u := l]))
  {
    var (w, l) := Stepped(ctx, u, s.world, s.locals[u], p);
    StepGrows(ctx, u, s.world, s.locals[u], p);
    BookkeepingKept(ctx, u, s.world, s.locals[u], p);
    OwnKeysKept(ctx, u, s.world, s.locals[u], p);
    if OfPrepare(p) {
      PrepareOverlooksNothing(ctx, u, s.world, s.locals[u], p);
    } else {
      UnprepareOverlooksNothing(ctx, u, s.world, s.locals[u], p);
    }
    OneClaimActs(ctx, s, u, w, l);
  }

  lemma ActionKeepsInv(ctx: Context, s: State, a: Action)
    requires WellFormed(ctx) && Inv(ctx, s) && Enabled(ctx, s, a)
    ensures Inv(ctx, Do(ctx, s, a))
  {
    match a
    case Of(u, p) => StepKeepsInv(ctx, s, u, p);
    case OthersDelete(k) => LabelsKept(ctx, None, s.world, Do(ctx, s, a).world);
    case OthersCreate(k, _, _) => LabelsKept(ctx, None, s.world, Do(ctx, s, a).world);
    case CrashRestart(_) =>
  }

  lemma {:induction false} RunKeepsInv(ctx: Context, s: State, run: seq<Action>)
    requires WellFormed(ctx) && Inv(ctx, s) && Legal(ctx, s, run)
    ensures Inv(ctx, After(ctx, s, run))
    decreases |run|
  {
    if run == [] {
    } else {
      ActionKeepsInv(ctx, s, run[0]);
      RunKeepsInv(ctx, Do(ctx, s, run[0]), run[1..]);
    }
  }

  lemma ReachableInv(ctx: Context, t: State)
    requires WellFormed(ctx) && Reachable(ctx, t)
    ensures Inv(ctx, t)
  {
    var s, run :| Init(ctx, s) && Legal(ctx, s, run) && After(ctx, s, run) == t;
    RunKeepsInv(ctx, s, run);
  }

  // ---------- Theorems over whole runs ----------

  /** Leak freedom.  Whatever prepares, failed prepares, disk faults, foreign deletions and
      crashes a run holds: once an unprepare of u whose API calls worked has returned, and
      already when it is about to, no shadow claim labelled u exists until the next prepare
      of u begins. */
  lemma NoShadowLeft(ctx: Context, t: State, u: string, k: Key)
    requires WellFormed(ctx) && Reachable(ctx, t) && u in t.locals
    requires t.locals[u].released || t.locals[u].call == Unpreparing(Forgetting, true)
    ensures !t.world.Labelled(u, k)
  {
    ReachableInv(ctx, t);
  }

  /** Memory/disk agreement.  In every reachable state, on every claim whose disk accesses
      never failed and with no call between its two updates, memory is exactly what a
      restart would rebuild; in particular right after a crash at any point. */
  lemma MemoryEqualsDisk(ctx: Context, t: State, u: string)
    requires WellFormed(ctx) && Reachable(ctx, t) && u in t.locals
    requires Quiet(t.locals[u]) && !t.locals[u].diskFault
    ensures t.locals[u].mem == Reload(t.locals[u].disk)
  {
    ReachableInv(ctx, t);
  }
}
