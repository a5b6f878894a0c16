/**
 `prepareClaim` and `unprepareClaim` as they are written: loops over goroutines and
 records, here executed as actions of the protocol machine under any schedule.
 */
module ShadowPlugin {

  import opened Options
  import opened Kubernetes
  import opened ShadowMachine
  import opened ShadowSafety
  import opened ShadowAtomicity
  import opened ShadowDrivers
  import opened ShadowFrame
  import opened WorkList

  // ---------- Termination of a phase ----------

  function Rank(slot: Slot): nat {
    match slot
    case Idle => 4
    case Created(_) => 3
    case Undo(_) => 1
    case Exists => 2
    case Shadowed(_, Waiting) => 1
    case _ => 0
  }

  function Ranks(slots: seq<Slot>): nat {
    if slots == [] then 0 else Rank(slots[0]) + Ranks(slots[1..])
  }

  lemma {:induction false} RanksUpdate(slots: seq<Slot>, i: nat, slot: Slot)
    requires i < |slots|
    ensures Ranks(slots[i := slot]) == Ranks(slots) - Rank(slots[i]) + Rank(slot)
  {
    if i == 0 {
      assert slots[0 := slot][1..] == slots[1..];
    } else {
      RanksUpdate(slots[1..], i - 1, slot);
      assert slots[i := slot][1..] == slots[1..][i - 1 := slot];
    }
  }

  lemma AdvanceRanks(ctx: Context, u: string, w: World, l: Local, i: nat, o: Outcome)
    requires u in ctx.claims && CanStep(ctx.claims[u], l, Advance(i, o))
    ensures var l' := Stepped(ctx, u, w, l, Advance(i, o)).1;
      l'.call.Preparing? && Ranks(l'.call.slots) < Ranks(l.call.slots)
  {
    RanksUpdate(l.call.slots, i, Advanced(ctx, u, ctx.claims[u].work[i], w, l.call.slots[i], o).1);
  }

  // ---------- Which calls fail ----------

  /** How a prepare call may be disturbed: not at all; freely, except that compensating calls
      take effect and no Create does so and reports an error; or in any way. */
  datatype Faults = NoFaults | Compensable | AnyFaults

  predicate Allows(f: Faults, slot: Slot, o: Outcome) {
    match f
    case NoFaults => o == Works
    case Compensable => BenignCall(slot, o)
    case AnyFaults => true
  }

  function Taking(o: Outcome): Outcome {
    if o == Lost then Works else o
  }

  // ---------- What a prepare adds ----------

  /** Nothing in the API server is new or changed, and no driver holds anything new. */
  ghost predicate NothingAdded(w0: World, w: World) {
    && w.prepared <= w0.prepared
    && forall k :: k in w.api ==> k in w0.api && w.api[k] == w0.api[k]
  }

  /** The middle of a call that found world w0: only its own shadow claims have come, and
      drivers hold nothing new but those. */
  ghost predicate AddsOwn(u: string, c: Claim, w0: World, w: World, slots: seq<Slot>) {
    && (forall k :: k in w.api ==> (k in w0.api && w.api[k] == w0.api[k]) || LeftBehind(w, u, w0.nextUid, k))
    && (forall h :: h in w.prepared ==> h in w0.prepared || InSlots(c, slots, h))
  }

  lemma AdvanceAddsOwn(ctx: Context, u: string, w0: World, w: World, l: Local, i: nat, o: Outcome)
    requires u in ctx.claims && CanStep(ctx.claims[u], l, Advance(i, o)) && SlotsOk(ctx, u, w, l)
    requires l.call.before.nextUid == w0.nextUid && AddsOwn(u, ctx.claims[u], w0, w, l.call.slots)
    ensures var (w', l') := Stepped(ctx, u, w, l, Advance(i, o)); AddsOwn(u, ctx.claims[u], w0, w', l'.call.slots)
  {
    var c := ctx.claims[u];
    var (w', l') := Stepped(ctx, u, w, l, Advance(i, o));
    assert OneSlotOk(ctx, u, w, l, i);
    forall h | h in w'.prepared && h !in w0.prepared ensures InSlots(c, l'.call.slots, h) {
      if h in w.prepared {
        var j :| 0 <= j < |l.call.slots| && l.call.slots[j].Shadowed? && (c.work[j].target.driver, l.call.slots[j].uid) == h;
        assert l'.call.slots[j].Shadowed? && l'.call.slots[j].uid == l.call.slots[j].uid;
      } else {
        assert l'.call.slots[i].Shadowed? && (c.work[i].target.driver, l'.call.slots[i].uid) == h;
      }
    }
  }

  /** The shadow claim of a member: labelled, allocated as a member of its name asks, and
      prepared at the member's driver. */
  ghost predicate Stands(u: string, c: Claim, w: World, wk: Work, uid: nat) {
    && w.Labelled(u, wk.key) && w.api[wk.key].uid == uid
    && w.api[wk.key].alloc.Some? && c.Wants(wk.key, w.api[wk.key].alloc.value)
    && (wk.target.driver, uid) in w.prepared
  }

  ghost predicate AnsweredStand(u: string, c: Claim, w: World, call: Call) {
    && call.Preparing? && |call.slots| == |c.work|
    && forall i :: 0 <= i < |call.slots| && call.slots[i].Shadowed? && call.slots[i].reply.Answered? ==>
         call.phase != Creating && Stands(u, c, w, c.work[i], call.slots[i].uid)
  }

  lemma AdvanceStands(ctx: Context, u: string, w: World, l: Local, i: nat, o: Outcome)
    requires u in ctx.claims && CanStep(ctx.claims[u], l, Advance(i, o)) && AnsweredStand(u, ctx.claims[u], w, l.call)
    requires AllocsRight(ctx, w) && NamesLabelled(ctx, w)
    requires l.call.phase == Creating || AllShadowed(l.call.slots)
    ensures var (w', l') := Stepped(ctx, u, w, l, Advance(i, o)); AnsweredStand(u, ctx.claims[u], w', l'.call)
  {
    var c := ctx.claims[u];
    assert c.Owns(c.work[i].key);
  }

  // ---------- What happens when no call fails ----------

  /** A goroutine has created the claim of that name and not yet updated it. */
  ghost predicate InTheMaking(c: Claim, slots: seq<Slot>, k: Key) {
    exists i :: 0 <= i < |slots| && i < |c.work| && c.work[i].key == k && slots[i].Created?
  }

  /** How a shadow name stands in w, relative to the world w0 that the call found, when no
      call has failed: taken as it was, or free, or a claim of this call. */
  ghost predicate NameMirrors(w0: World, w: World, c: Claim, slots: seq<Slot>, k: Key) {
    && (k in w0.api ==> Find(w.api, k) == Find(w0.api, k))
    && (k in w.api && k !in w0.api ==> w.api[k].alloc.Some? || InTheMaking(c, slots, k))
  }

  ghost predicate SlotMirrors(w0: World, w: World, k: Key, slot: Slot) {
    match slot
    case Idle => true
    case Created(uid) => k !in w0.api && k in w.api && w.api[k].uid == uid && w.api[k].alloc.None?
    case Exists => k in w.api
    case Shadowed(uid, reply) =>
      && k in w.api && w.api[k].uid == uid
      && (reply.Refused? ==> !Prefilled(w0, k))
      && (reply.Answered? ==> Prefilled(w0, k))
    case _ => false
  }

  ghost predicate Mirrors(w0: World, w: World, c: Claim, slots: seq<Slot>, i: nat)
    requires i < |slots| == |c.work|
  {
    NameMirrors(w0, w, c, slots, c.work[i].key) && SlotMirrors(w0, w, c.work[i].key, slots[i])
  }

  /** The shadow name is free, or taken by a claim with an allocation. */
  predicate Prefilled(w: World, k: Key) {
    k in w.api ==> w.api[k].alloc.Some?
  }

  ghost predicate AllMirror(w0: World, w: World, c: Claim, slots: seq<Slot>) {
    && |slots| == |c.work|
    && (forall i :: 0 <= i < |slots| ==> Mirrors(w0, w, c, slots, i))
    && (forall i, j :: 0 <= i < j < |slots| && slots[i].Created? && slots[j].Created? ==> c.work[i].key != c.work[j].key)
  }

  /** A fault-free call of one goroutine, seen by its own slot. */
  lemma OwnMirrors(ctx: Context, u: string, w0: World, w: World, l: Local, i: nat)
    requires u in ctx.claims && CanStep(ctx.claims[u], l, Advance(i, Works)) && AllMirror(w0, w, ctx.claims[u], l.call.slots)
    requires l.call.phase == Delegating ==> AllShadowed(l.call.slots)
    ensures var (w', l') := Stepped(ctx, u, w, l, Advance(i, Works)); Mirrors(w0, w', ctx.claims[u], l'.call.slots, i)
  {
    var c := ctx.claims[u];
    var (w', l') := Stepped(ctx, u, w, l, Advance(i, Works));
    assert Mirrors(w0, w, c, l.call.slots, i);
    if l.call.slots[i].Idle? && c.work[i].key !in w.api {
      assert l'.call.slots[i].Created?;
    } else if !l.call.slots[i].Created? && InTheMaking(c, l.call.slots, c.work[i].key) {
      var j :| 0 <= j < |c.work| && c.work[j].key == c.work[i].key && l.call.slots[j].Created?;
      assert l'.call.slots[j].Created?;
    }
  }

  /** The same step, seen by another slot, which may have the same name. */
  lemma OtherMirrors(ctx: Context, u: string, w0: World, w: World, l: Local, i: nat, j: nat)
    requires u in ctx.claims && CanStep(ctx.claims[u], l, Advance(i, Works)) && AllMirror(w0, w, ctx.claims[u], l.call.slots)
    requires j < |ctx.claims[u].work| && j != i
    requires Mirrors(w0, Stepped(ctx, u, w, l, Advance(i, Works)).0, ctx.claims[u], Stepped(ctx, u, w, l, Advance(i, Works)).1.call.slots, i)
    ensures var (w', l') := Stepped(ctx, u, w, l, Advance(i, Works)); Mirrors(w0, w', ctx.claims[u], l'.call.slots, j)
  {
    var c := ctx.claims[u];
    var (w', l') := Stepped(ctx, u, w, l, Advance(i, Works));
    assert Mirrors(w0, w, c, l.call.slots, i) && Mirrors(w0, w, c, l.call.slots, j);
    if c.work[j].key != c.work[i].key && InTheMaking(c, l.call.slots, c.work[j].key) {
      var m :| 0 <= m < |c.work| && c.work[m].key == c.work[j].key && l.call.slots[m].Created?;
      assert l'.call.slots[m].Created?;
    }
  }

  lemma MirrorStep(ctx: Context, u: string, w0: World, w: World, l: Local, i: nat)
    requires u in ctx.claims && CanStep(ctx.claims[u], l, Advance(i, Works)) && AllMirror(w0, w, ctx.claims[u], l.call.slots)
    requires l.call.phase == Delegating ==> AllShadowed(l.call.slots)
    ensures var (w', l') := Stepped(ctx, u, w, l, Advance(i, Works)); AllMirror(w0, w', ctx.claims[u], l'.call.slots)
  {
    var c := ctx.claims[u];
    var (w', l') := Stepped(ctx, u, w, l, Advance(i, Works));
    OwnMirrors(ctx, u, w0, w, l, i);
    forall j | 0 <= j < |c.work| ensures Mirrors(w0, w', c, l'.call.slots, j) {
      if j != i {
        OtherMirrors(ctx, u, w0, w, l, i, j);
      }
    }
    forall j | 0 <= j < |c.work| && j != i && l'.call.slots[j].Created? && l'.call.slots[i].Created?
      ensures c.work[j].key != c.work[i].key
    {
      assert Mirrors(w0, w, c, l.call.slots, j) && Mirrors(w0, w, c, l.call.slots, i);
    }
  }

  lemma StartMirrors(w: World, c: Claim, slots: seq<Slot>)
    requires |slots| == |c.work| && forall i :: 0 <= i < |slots| ==> slots[i].Idle?
    ensures AllMirror(w, w, c, slots)
  {
  }

  /** When no goroutine of phase 1 can go on, all are done. */
  lemma CreatingSettled(slots: seq<Slot>)
    requires forall i :: 0 <= i < |slots| ==> !CanAdvance(Creating, slots[i])
    ensures Settled(slots)
  {
  }

  lemma SettledShadowed(w0: World, w: World, c: Claim, slots: seq<Slot>)
    requires AllMirror(w0, w, c, slots) && Settled(slots)
    ensures AllShadowed(slots)
  {
    forall i | 0 <= i < |slots| ensures slots[i].Shadowed? {
      assert Mirrors(w0, w, c, slots, i);
    }
  }

  function CleanAll(c: Claim, slots: seq<Slot>): Phase
    requires |slots| == |c.work|
  {
    Cleaning(Records(c, c.work, slots), false, true)
  }

  ghost predicate AllPrefilled(w: World, c: Claim) {
    forall i :: 0 <= i < |c.work| ==> Prefilled(w, c.work[i].key)
  }

  lemma NothingInTheWay(w: World, c: Claim)
    requires forall k :: c.Owns(k) ==> k !in w.api
    ensures AllPrefilled(w, c)
  {
    assert forall i :: 0 <= i < |c.work| ==> c.Owns(c.work[i].key);
  }

  /** Without faults the drivers refuse exactly the claims found without an allocation. */
  lemma RefusalExplained(c: Claim, w0: World, w: World, slots: seq<Slot>)
    requires AllMirror(w0, w, c, slots) && AllReplied(slots)
    ensures AllAnswered(slots) <==> AllPrefilled(w0, c)
  {
    forall i | 0 <= i < |c.work| ensures slots[i].reply.Answered? <==> Prefilled(w0, c.work[i].key) {
      assert Mirrors(w0, w, c, slots, i);
    }
  }

  lemma FailedPrepareBookkeeping(ctx: Context, t: State, u: string)
    requires WellFormed(ctx) && Reachable(ctx, t) && u in t.locals && u in ctx.claims
    requires t.locals[u].call.Preparing? && t.locals[u].call.phase != Committing
    ensures t.locals[u].mem == t.locals[u].call.before.mem && t.locals[u].disk == t.locals[u].call.before.disk
  {
    ReachableInv(ctx, t);
    assert Bookkeeping(ctx.claims[u], u, t.locals[u]);
  }

  lemma AskedShadowed(ctx: Context, t: State, u: string)
    requires WellFormed(ctx) && Reachable(ctx, t) && u in t.locals && u in ctx.claims
    requires t.locals[u].call.Preparing? && t.locals[u].call.phase == Delegating
    ensures AllShadowed(t.locals[u].call.slots)
  {
    ReachableInv(ctx, t);
    assert Bookkeeping(ctx.claims[u], u, t.locals[u]);
  }

  /** The device store, once loaded, still maps the claim's devices to the members that its
      shadow claims are made for. */
  ghost predicate MappingUnchanged(ctx: Context, u: string, hash: string -> string, driver: string, rq: Request, store: Lookup)
    requires u in ctx.claims
  {
    AllKnown(store, Mine(driver, rq.results)) ==> ctx.claims[u].work == WorkFor(hash, rq, store, Mine(driver, rq.results))
  }

  ghost predicate AnswersByName(cdi: Allocation -> seq<string>, c: Claim, cdis: seq<seq<string>>) {
    |cdis| == |c.work| && forall i :: 0 <= i < |cdis| ==> AnswerFor(cdi, c, c.work[i].key, cdis[i])
  }

  /** The devices carry, member by member, the CDI IDs of a member of the same shadow name;
      so they are what the claim asks for if members under one name have the same. */
  ghost predicate IsAnswer(cdi: Allocation -> seq<string>, c: Claim, store: Lookup, mine: seq<Allocation>, devices: seq<KubeletDevice>)
    requires AllKnown(store, mine)
  {
    && (exists cdis :: AnswersByName(cdi, c, cdis) && devices == Devices(mine, c.work, cdis))
    && (SameAnswers(cdi, c) ==> devices == Expected(cdi, store, mine))
  }

  /** Claims have only gone, and drivers have only released. */
  ghost predicate Shrinks(w0: World, w: World) {
    w.nextUid == w0.nextUid && NothingAdded(w0, w)
  }

  /** The drivers were asked to release these records and no others; if all went well, they
      have, and the shadow claims are gone. */
  ghost predicate ReleasedOf(rs: seq<Record>, w0: World, w: World, well: bool) {
    && w0.prepared - HoldsOf(Some(rs)) <= w.prepared
    && (well ==> forall r :: r in rs ==> r.key !in w.api && HoldOf(r) !in w.prepared)
  }

  lemma ReleasedNext(rs: seq<Record>, r: Record, w0: World, w: World, w': World, well: bool, next: bool)
    requires Shrinks(w0, w) && ReleasedOf(rs, w0, w, well) && Shrinks(w, w')
    requires w.prepared - {HoldOf(r)} <= w'.prepared && (next ==> r.key !in w'.api && HoldOf(r) !in w'.prepared)
    ensures Shrinks(w0, w') && ReleasedOf(rs + [r], w0, w', well && next)
  {
    assert forall x :: x in rs ==> HoldOf(x) in HoldsOf(Some(rs + [r]));
    assert r in rs + [r] && HoldOf(r) in HoldsOf(Some(rs + [r]));
  }

  /** Each record finds its shadow claim, also after those before it are deleted. */
  ghost predicate Deletable(rs: seq<Record>, w: World) {
    && (forall i :: 0 <= i < |rs| ==> rs[i].key in w.api)
    && (forall i, j :: 0 <= i < j < |rs| ==> rs[i].key != rs[j].key)
  }

  function KeysOf(rs: seq<Record>): set<Key> {
    set i | 0 <= i < |rs| :: rs[i].key
  }

  ghost predicate DeletedOf(rs: seq<Record>, w0: World, w: World, ok: bool) {
    w.api.Keys == w0.api.Keys - KeysOf(rs) && (ok <==> Deletable(rs, w0))
  }

  lemma DeletedNext(rs: seq<Record>, r: Record, w0: World, w: World, w': World, ok: bool, one: bool)
    requires DeletedOf(rs, w0, w, ok) && w'.api.Keys == w.api.Keys - {r.key} && (one <==> r.key in w.api)
    ensures DeletedOf(rs + [r], w0, w', ok && one)
  {
    var all := rs + [r];
    assert all[|rs|] == r && forall i :: 0 <= i < |rs| ==> all[i] == rs[i];
    assert KeysOf(all) == KeysOf(rs) + {r.key};
    if ok && !one && r.key in w0.api {
      assert r.key in KeysOf(rs);
    }
  }

  function OwnerKey(c: Claim): Key {
    Key(c.ns, c.name)
  }

  /** The claim carries the driver's label: a shadow claim of this node or another. */
  predicate Managed(a: ApiClaim) {
    a.owner.Some? || a.remote.Some?
  }

  /** The composite claim that a managed claim names as its owner. */
  function CompositeOf(ctx: Context, a: ApiClaim): Option<Key> {
    if a.owner.None? then a.remote else if a.owner.value in ctx.claims then Some(OwnerKey(ctx.claims[a.owner.value])) else None
  }

  predicate OwnerPresent(ctx: Context, w: World, a: ApiClaim) {
    CompositeOf(ctx, a).Some? && CompositeOf(ctx, a).value in w.api
  }

  /** The composite claims themselves do not carry the driver's label. */
  ghost predicate CompositesUnmanaged(ctx: Context, w: World) {
    forall k :: k in w.api && Managed(w.api[k]) && OwnerPresent(ctx, w, w.api[k]) ==> !Managed(w.api[CompositeOf(ctx, w.api[k]).value])
  }

  /** A managed shadow claim whose composite claim is missing.  The owner is looked up by
      name, so a new claim of the same name passes for it. */
  ghost predicate Orphan(ctx: Context, w: World, k: Key) {
    k in w.api && Managed(w.api[k]) && !OwnerPresent(ctx, w, w.api[k])
  }

  /** The middle of a pass of the reconciler that found world w0: `left` is to be visited. */
  ghost predicate Reconciling(ctx: Context, w0: World, w: World, left: set<Key>, faultFree: bool) {
    && (forall k :: k in w.api ==> Find(w.api, k) == Find(w0.api, k))
    && (forall k :: k in w0.api && k !in w.api ==> Managed(w0.api[k]) && k !in left)
    && (forall k :: k in left ==> k in w.api && Managed(w.api[k]))
    && (faultFree ==> forall k :: k in w0.api && k !in left ==> (k !in w.api <==> Orphan(ctx, w0, k)))
  }

  lemma ReconcileNext(ctx: Context, w0: World, w: World, left: set<Key>, faultFree: bool, k: Key, drops: bool)
    requires CompositesUnmanaged(ctx, w0) && Reconciling(ctx, w0, w, left, faultFree) && k in left
    requires faultFree ==> (drops <==> !OwnerPresent(ctx, w, w.api[k]))
    ensures Reconciling(ctx, w0, if drops then w.(api := w.api - {k}) else w, left - {k}, faultFree)
  {
    assert Find(w.api, k) == Find(w0.api, k);
    var owner := CompositeOf(ctx, w.api[k]);
    if owner.Some? && owner.value in w.api {
      assert Find(w.api, owner.value) == Find(w0.api, owner.value);
    }
    assert OwnerPresent(ctx, w, w.api[k]) <==> OwnerPresent(ctx, w0, w0.api[k]);
  }

  // ---------- One goroutine's call, for the loop ----------

  /** What the loop over the goroutines keeps. */
  ghost predicate PrepareKeeps(ctx: Context, u: string, faults: Faults, w0: World, w: World, l: Local)
    requires u in ctx.claims
  {
    && l.call.Preparing? && |l.call.slots| == |ctx.claims[u].work|
    && AddsOwn(u, ctx.claims[u], w0, w, l.call.slots) && AnsweredStand(u, ctx.claims[u], w, l.call)
    && (!faults.AnyFaults? ==> Compensating(l))
    && (faults.NoFaults? ==> AllMirror(w0, w, ctx.claims[u], l.call.slots))
  }

  lemma AdvanceFacts(ctx: Context, u: string, faults: Faults, w0: World, s: State, i: nat, o: Outcome)
    requires WellFormed(ctx) && NamesApart(ctx) && Reachable(ctx, s) && Enabled(ctx, s, Of(u, Advance(i, o)))
    requires Allows(faults, s.locals[u].call.slots[i], o) && s.locals[u].call.before.nextUid == w0.nextUid
    requires PrepareKeeps(ctx, u, faults, w0, s.world, s.locals[u])
    ensures var (w, l) := Stepped(ctx, u, s.world, s.locals[u], Advance(i, o));
      PrepareKeeps(ctx, u, faults, w0, w, l) && Ranks(l.call.slots) < Ranks(s.locals[u].call.slots)
  {
    ReachableInv(ctx, s);
    ReachableAtomic(ctx, s);
    ReachableProvenance(ctx, s);
    assert Bookkeeping(ctx.claims[u], u, s.locals[u]);
    AdvanceAddsOwn(ctx, u, w0, s.world, s.locals[u], i, o);
    AdvanceStands(ctx, u, s.world, s.locals[u], i, o);
    AdvanceRanks(ctx, u, s.world, s.locals[u], i, o);
    if !faults.AnyFaults? {
      BenignCompensates(ctx, u, s.world, s.locals[u], Advance(i, o));
    }
    if faults.NoFaults? {
      MirrorStep(ctx, u, w0, s.world, s.locals[u], i);
    }
  }

  /** The shadow claims that a call has made its own are gone, at the drivers too. */
  ghost predicate ShadowsGone(c: Claim, slots: seq<Slot>, w: World) {
    |slots| == |c.work| && forall i :: 0 <= i < |slots| && slots[i].Shadowed? ==>
      Gone(w, slots[i].uid) && (c.work[i].target.driver, slots[i].uid) !in w.prepared
  }

  lemma NothingRemains(ctx: Context, s: State, u: string, w0: World)
    requires WellFormed(ctx) && NamesApart(ctx) && Reachable(ctx, s) && u in ctx.claims && u in s.locals
    requires Failing(s.locals[u]) && Compensating(s.locals[u]) && |s.locals[u].call.slots| == |ctx.claims[u].work|
    requires s.locals[u].call.before.nextUid == w0.nextUid && AddsOwn(u, ctx.claims[u], w0, s.world, s.locals[u].call.slots)
    ensures NothingAdded(w0, s.world) && ShadowsGone(ctx.claims[u], s.locals[u].call.slots, s.world)
  {
    var slots := s.locals[u].call.slots;
    forall i | 0 <= i < |slots| && slots[i].Shadowed?
      ensures Gone(s.world, slots[i].uid) && (ctx.claims[u].work[i].target.driver, slots[i].uid) !in s.world.prepared
    {
      CompensationClears(ctx, s, u, i);
    }
    LeavesNothingExactly(ctx, s, u);
  }

  /** The records of a claim, member by member: its driver, its composition, and the shadow
      claim that stands for it. */
  ghost predicate Recorded(u: string, c: Claim, w: World, rs: seq<Record>) {
    |rs| == |c.work| && forall i :: 0 <= i < |rs| ==>
      && rs[i].driver == c.work[i].target.driver && rs[i].composition == c.composition && rs[i].key == c.work[i].key
      && Stands(u, c, w, c.work[i], rs[i].uid)
  }

  lemma CommitRecords(ctx: Context, s: State, u: string)
    requires WellFormed(ctx) && NamesApart(ctx) && Reachable(ctx, s) && u in ctx.claims && u in s.locals
    requires Ready(ctx.claims[u], s.locals[u].call) && s.locals[u].call.phase == Committing
    requires AnsweredStand(u, ctx.claims[u], s.world, s.locals[u].call)
    ensures s.locals[u].mem == Some(Records(ctx.claims[u], ctx.claims[u].work, s.locals[u].call.slots))
    ensures Recorded(u, ctx.claims[u], s.world, s.locals[u].mem.value)
  {
    ReachableInv(ctx, s);
    assert Bookkeeping(ctx.claims[u], u, s.locals[u]);
    RecordsAligned(ctx.claims[u], ctx.claims[u].work, s.locals[u].call.slots);
  }

  /** If others are spared and no claim of u is left, exactly the claims of u are gone. */
  lemma OnlyOwnGone(u: string, s: State, t: State)
    requires SparesOthers(u, s, t) && NothingAdded(s.world, t.world) && forall k :: !t.world.Labelled(u, k)
    ensures forall k :: k in t.world.api <==> k in s.world.api && !s.world.Labelled(u, k)
  {
    forall k ensures k in t.world.api <==> k in s.world.api && !s.world.Labelled(u, k) {
      assert !t.world.Labelled(u, k);
      assert k in OthersClaims(u, t.world) <==> k in OthersClaims(u, s.world);
    }
  }

  // ---------- The plugin ----------

  class CompositePlugin {
    const ctx: Context
    const driver: string
    const hash: string -> string
    var s: State

    /** The state is one that a run of the protocol reaches. */
    ghost predicate Valid()
      reads this
    {
      WellFormed(ctx) && NamesApart(ctx) && Reachable(ctx, s) && s.locals.Keys == ctx.claims.Keys
    }

    /** All other claims are as before: what the plugin holds for them, their shadow claims,
        and what the drivers hold for them. */
    twostate predicate OnlyTouches(u: string)
      reads this
    {
      && s.locals.Keys == old(s.locals.Keys)
      && (forall v :: v in s.locals && v != u ==> s.locals[v] == old(s.locals)[v])
      && SparesOthers(u, old(s), s)
    }

    /** NewCompositePlugin: a process starts on what an earlier run left, with memory rebuilt
        from the database if it can be read. */
    constructor (ctx: Context, driver: string, hash: string -> string, left: State, readOk: bool)
      requires WellFormed(ctx) && NamesApart(ctx) && Reachable(ctx, left)
      ensures Valid() && this.ctx == ctx && this.driver == driver && this.hash == hash
      ensures s.world == left.world && forall u :: u in s.locals ==> u in left.locals && s.locals[u] == Restarted(left.locals[u], readOk)
    {
      this.ctx, this.driver, this.hash := ctx, driver, hash;
      s := left.(locals := map u | u in left.locals :: Restarted(left.locals[u], readOk));
      new;
      ReachableInv(ctx, left);
      ReachableStep(ctx, left, CrashRestart(readOk));
    }

    /** One action of the machine. */
    method Take(u: string, p: Step)
      requires Valid() && u in ctx.claims && CanStep(ctx.claims[u], s.locals[u], p)
      modifies this
      ensures Valid() && OnlyTouches(u)
      ensures (s.world, s.locals[u]) == Stepped(ctx, u, old(s.world), old(s.locals)[u], p)
    {
      ReachableStep(ctx, s, Of(u, p));
      StepSparesOthers(ctx, s, u, p);
      var (w, l) := Stepped(ctx, u, s.world, s.locals[u], p);
      s := State(w, s.locals[u := l]);
    }

    /** The next external call of goroutine i. */
    method AdvanceOne(u: string, i: nat, faults: Faults, ghost w0: World)
      requires Valid() && u in ctx.claims && CanStep(ctx.claims[u], s.locals[u], Advance(i, Works))
      requires s.locals[u].call.before.nextUid == w0.nextUid && PrepareKeeps(ctx, u, faults, w0, s.world, s.locals[u])
      modifies this
      ensures Valid() && OnlyTouches(u) && s.locals[u].call.Preparing?
      ensures s.locals[u] == old(s.locals)[u].(call := old(s.locals)[u].call.(slots := s.locals[u].call.slots))
      ensures PrepareKeeps(ctx, u, faults, w0, s.world, s.locals[u])
      ensures Ranks(s.locals[u].call.slots) < Ranks(old(s.locals)[u].call.slots)
    {
      var o: Outcome := *;
      if !Allows(faults, s.locals[u].call.slots[i], o) {
        o := Works;
      }
      AdvanceFacts(ctx, u, faults, w0, s, i, o);
      Take(u, Advance(i, o));
    }

    /** The goroutines of a phase, advanced one external call at a time in any order. */
    method RunGoroutines(u: string, faults: Faults, ghost w0: World)
      requires Valid() && u in ctx.claims && s.locals[u].call.Preparing?
      requires |s.locals[u].call.slots| == |ctx.claims[u].work| && s.locals[u].call.before.nextUid == w0.nextUid
      requires s.locals[u].call.phase == Creating || AllShadowed(s.locals[u].call.slots)
      requires PrepareKeeps(ctx, u, faults, w0, s.world, s.locals[u])
      modifies this
      ensures Valid() && OnlyTouches(u) && s.locals[u].call.Preparing?
      ensures s.locals[u] == old(s.locals)[u].(call := old(s.locals)[u].call.(slots := s.locals[u].call.slots))
      ensures |s.locals[u].call.slots| == |ctx.claims[u].work|
      ensures forall i :: 0 <= i < |s.locals[u].call.slots| ==> !CanAdvance(s.locals[u].call.phase, s.locals[u].call.slots[i])
      // Whatever fails, only shadow claims of u come and go, and each answer stands for one.
      ensures PrepareKeeps(ctx, u, faults, w0, s.world, s.locals[u])
    {
      while exists i :: 0 <= i < |s.locals[u].call.slots| && CanAdvance(s.locals[u].call.phase, s.locals[u].call.slots[i])
        invariant Valid() && OnlyTouches(u) && u in s.locals && s.locals[u].call.Preparing?
        invariant s.locals[u] == old(s.locals)[u].(call := old(s.locals)[u].call.(slots := s.locals[u].call.slots))
        invariant |s.locals[u].call.slots| == |ctx.claims[u].work|
        invariant PrepareKeeps(ctx, u, faults, w0, s.world, s.locals[u])
        decreases Ranks(s.locals[u].call.slots)
      {
        var i :| 0 <= i < |s.locals[u].call.slots| && CanAdvance(s.locals[u].call.phase, s.locals[u].call.slots[i]);
        AdvanceOne(u, i, faults, w0);
      }
    }

    /** One call of cleanupShadows. */
    method CleanupCall(u: string, o: Outcome)
      requires Valid() && u in ctx.claims && Ready(ctx.claims[u], s.locals[u].call)
      requires s.locals[u].call.phase.Cleaning? && s.locals[u].call.phase.todo != []
      modifies this
      ensures Valid() && OnlyTouches(u)
      ensures var phase := old(s.locals)[u].call.phase;
        var (w, todo, deleteNext) := Dropped(old(s.world), phase.todo, phase.deleteNext, o);
        && s.world == w
        && s.locals[u] == old(s.locals)[u].(call := old(s.locals)[u].call.(phase := Cleaning(todo, deleteNext, phase.took && o != Lost)))
    {
      Take(u, CleanNext(o));
    }

    /** One round of cleanupShadows. */
    method CleanupOne(u: string, effective: bool)
      requires Valid() && u in ctx.claims && Ready(ctx.claims[u], s.locals[u].call)
      requires s.locals[u].call.phase.Cleaning? && !s.locals[u].call.phase.deleteNext && s.locals[u].call.phase.todo != []
      modifies this
      ensures Valid() && OnlyTouches(u) && Ready(ctx.claims[u], s.locals[u].call)
      ensures s.locals[u] == old(s.locals)[u].(call := old(s.locals)[u].call.(phase := s.locals[u].call.phase))
      ensures s.locals[u].call.phase.Cleaning? && !s.locals[u].call.phase.deleteNext
      ensures s.locals[u].call.phase.todo == old(s.locals)[u].call.phase.todo[1..]
      ensures effective && old(s.locals)[u].call.phase.took ==> s.locals[u].call.phase.took
      ensures Shrinks(old(s.world), s.world)
      ensures effective ==> old(s.locals)[u].call.phase.todo[0].key !in s.world.api
    {
      var o1: Outcome, o2: Outcome := *, *;
      if effective {
        o1, o2 := Taking(o1), Taking(o2);
      }
      CleanupCall(u, o1);
      CleanupCall(u, o2);
    }

    /** cleanupShadows; its errors are ignored, so all that counts is whether the calls take
        effect. */
    method CleanupShadows(u: string, effective: bool)
      requires Valid() && u in ctx.claims && Ready(ctx.claims[u], s.locals[u].call)
      requires s.locals[u].call.phase.Cleaning? && !s.locals[u].call.phase.deleteNext
      modifies this
      ensures Valid() && OnlyTouches(u) && Ready(ctx.claims[u], s.locals[u].call)
      ensures s.locals[u] == old(s.locals)[u].(call := old(s.locals)[u].call.(phase := s.locals[u].call.phase))
      ensures s.locals[u].call.phase.Cleaning? && s.locals[u].call.phase.todo == []
      ensures effective && old(s.locals)[u].call.phase.took ==> s.locals[u].call.phase.took
      ensures Shrinks(old(s.world), s.world)
      ensures effective ==> forall r :: r in old(s.locals)[u].call.phase.todo ==> r.key !in s.world.api
    {
      ghost var all := s.locals[u].call.phase.todo;
      ghost var n := 0;
      while s.locals[u].call.phase.todo != []
        invariant Valid() && OnlyTouches(u) && u in s.locals && Ready(ctx.claims[u], s.locals[u].call)
        invariant s.locals[u].call.phase.Cleaning? && !s.locals[u].call.phase.deleteNext
        invariant s.locals[u] == old(s.locals)[u].(call := old(s.locals)[u].call.(phase := s.locals[u].call.phase))
        invariant n <= |all| && s.locals[u].call.phase.todo == all[n..]
        invariant effective && old(s.locals)[u].call.phase.took ==> s.locals[u].call.phase.took
        invariant Shrinks(old(s.world), s.world)
        invariant effective ==> forall m :: 0 <= m < n ==> all[m].key !in s.world.api
        decreases |s.locals[u].call.phase.todo|
      {
        CleanupOne(u, effective);
        n := n + 1;
      }
    }

    /** The error return of prepareClaim in the middle of its work. */
    method GiveUp(u: string, faults: Faults, ghost w0: World)
      requires Valid() && u in ctx.claims && Ready(ctx.claims[u], s.locals[u].call)
      requires s.locals[u].call.phase == CleanAll(ctx.claims[u], s.locals[u].call.slots)
      requires s.locals[u].call.before.nextUid == w0.nextUid && PrepareKeeps(ctx, u, faults, w0, s.world, s.locals[u])
      modifies this
      ensures Valid() && OnlyTouches(u) && s.locals[u].call.NoCall?
      ensures s.locals[u].mem == old(s.locals)[u].call.before.mem && s.locals[u].disk == old(s.locals)[u].call.before.disk
      ensures !faults.AnyFaults? ==> NothingAdded(w0, s.world) && ShadowsGone(ctx.claims[u], old(s.locals)[u].call.slots, s.world)
      ensures !faults.AnyFaults? && AllShadowed(old(s.locals)[u].call.slots) ==> forall k :: ctx.claims[u].Owns(k) ==> k !in s.world.api
    {
      if AllShadowed(s.locals[u].call.slots) {
        AllShadowedCovers(ctx.claims[u], s.locals[u].call.slots);
      }
      CleanupShadows(u, !faults.AnyFaults?);
      ReturnError(u, faults, w0);
    }

    /** prepareClaim returns its error after the cleanup. */
    method ReturnError(u: string, faults: Faults, ghost w0: World)
      requires Valid() && u in ctx.claims && Ready(ctx.claims[u], s.locals[u].call) && Failing(s.locals[u])
      requires !faults.AnyFaults? ==> Compensating(s.locals[u])
      requires s.locals[u].call.before.nextUid == w0.nextUid
      requires !faults.AnyFaults? ==> AddsOwn(u, ctx.claims[u], w0, s.world, s.locals[u].call.slots)
      modifies this
      ensures Valid() && OnlyTouches(u) && s.locals[u].call.NoCall? && s.world == old(s.world)
      ensures s.locals[u].mem == old(s.locals)[u].call.before.mem && s.locals[u].disk == old(s.locals)[u].call.before.disk
      ensures !faults.AnyFaults? ==> NothingAdded(w0, s.world) && ShadowsGone(ctx.claims[u], old(s.locals)[u].call.slots, s.world)
    {
      FailedPrepareBookkeeping(ctx, s, u);
      if !faults.AnyFaults? {
        NothingRemains(ctx, s, u, w0);
      }
      Take(u, FailReturn);
    }

    /** The decision after phase 1: go on if every member has its shadow claim. */
    method JoinCreating(u: string)
      requires Valid() && u in ctx.claims && Ready(ctx.claims[u], s.locals[u].call)
      requires s.locals[u].call.phase == Creating && Settled(s.locals[u].call.slots)
      modifies this
      ensures Valid() && OnlyTouches(u) && s.world == old(s.world)
      ensures s.locals[u] == old(s.locals)[u].(call := old(s.locals)[u].call.(phase :=
                if AllShadowed(old(s.locals)[u].call.slots) then Delegating else CleanAll(ctx.claims[u], old(s.locals)[u].call.slots)))
    {
      Take(u, Join);
    }

    /** Phase 1 of prepareClaim, up to the decision whether to go on. */
    method CreateShadows(u: string, faults: Faults)
      requires Valid() && u in ctx.claims && s.locals[u].call.NoCall?
      modifies this
      ensures Valid() && OnlyTouches(u) && Ready(ctx.claims[u], s.locals[u].call)
      ensures s.locals[u].call.before == Snapshot(old(s.locals)[u].mem, old(s.locals)[u].disk, old(s.world).nextUid)
      ensures s.locals[u].call.phase == if AllShadowed(s.locals[u].call.slots) then Delegating
                                        else CleanAll(ctx.claims[u], s.locals[u].call.slots)
      ensures faults.NoFaults? ==> AllShadowed(s.locals[u].call.slots)
      ensures PrepareKeeps(ctx, u, faults, old(s.world), s.world, s.locals[u])
    {
      Take(u, StartPrepare);
      StartMirrors(s.world, ctx.claims[u], s.locals[u].call.slots);
      RunGoroutines(u, faults, old(s.world));
      CreatingSettled(s.locals[u].call.slots);
      if faults.NoFaults? {
        SettledShadowed(old(s.world), s.world, ctx.claims[u], s.locals[u].call.slots);
      }
      JoinCreating(u);
    }

    /** Phase 2 of prepareClaim, up to the decision whether to commit. */
    method AskDrivers(u: string, faults: Faults, ghost w0: World)
      requires Valid() && u in ctx.claims && Ready(ctx.claims[u], s.locals[u].call)
      requires s.locals[u].call.phase == Delegating && AllShadowed(s.locals[u].call.slots)
      requires s.locals[u].call.before.nextUid == w0.nextUid && PrepareKeeps(ctx, u, faults, w0, s.world, s.locals[u])
      modifies this
      ensures Valid() && OnlyTouches(u) && Ready(ctx.claims[u], s.locals[u].call)
      ensures s.locals[u].call.before == old(s.locals)[u].call.before && AllShadowed(s.locals[u].call.slots)
      ensures s.locals[u].call.phase == if AllAnswered(s.locals[u].call.slots) then Committing
                                        else CleanAll(ctx.claims[u], s.locals[u].call.slots)
      ensures faults.NoFaults? ==> (AllAnswered(s.locals[u].call.slots) <==> AllPrefilled(w0, ctx.claims[u]))
      ensures PrepareKeeps(ctx, u, faults, w0, s.world, s.locals[u])
    {
      RunGoroutines(u, faults, w0);
      AskedShadowed(ctx, s, u);
      if faults.NoFaults? {
        RefusalExplained(ctx.claims[u], w0, s.world, s.locals[u].call.slots);
      }
      Take(u, Join);
    }

    /** prepareClaim after its work list is built. */
    method Attempt(u: string, rq: Request, store: Lookup, work: seq<Work>, pairs: nat, faults: Faults)
      returns (r: Option<seq<KubeletDevice>>, ghost slots: seq<Slot>)
      requires Valid() && u in ctx.claims && s.locals[u].call.NoCall?
      requires AllKnown(store, Mine(driver, rq.results)) && pairs == |Mine(driver, rq.results)|
      requires work == ctx.claims[u].work == WorkFor(hash, rq, store, Mine(driver, rq.results))
      modifies this
      ensures Valid() && OnlyTouches(u) && s.locals[u].call.NoCall?
      ensures r.None? ==> s.locals[u].mem == old(s.locals)[u].mem && s.locals[u].disk == old(s.locals)[u].disk
      ensures r.None? && !faults.AnyFaults? ==> NothingAdded(old(s.world), s.world) && ShadowsGone(ctx.claims[u], slots, s.world)
      ensures r.Some? ==> IsAnswer(ctx.cdi, ctx.claims[u], store, Mine(driver, rq.results), r.value)
      ensures r.Some? ==> s.locals[u].mem.Some? && Recorded(u, ctx.claims[u], s.world, s.locals[u].mem.value)
      ensures r.Some? && faults.NoFaults? ==> s.locals[u].mem == Reload(s.locals[u].disk)
      ensures faults.NoFaults? ==> (r.Some? <==> AllPrefilled(old(s.world), ctx.claims[u]))
      ensures faults.NoFaults? && r.None? ==> forall k :: ctx.claims[u].Owns(k) ==> k !in s.world.api
    {
      CreateShadows(u, faults);
      if s.locals[u].call.phase == Delegating {
        AskDrivers(u, faults, old(s.world));
      }
      slots := s.locals[u].call.slots;
      if s.locals[u].call.phase == Committing {
        r := Commit(u, rq, store, work, pairs, faults);
      } else {
        GiveUp(u, faults, old(s.world));
        r := None;
      }
    }

    /** prepareClaim.  None is an error return.  `scheduled` and `store` are the claim's
        allocation status and the device store at the time of the call; `slots` is how its
        goroutines ended. */
    method PrepareClaim(u: string, rq: Request, scheduled: bool, store: Lookup, faults: Faults)
      returns (r: Option<seq<KubeletDevice>>, ghost slots: seq<Slot>)
      requires Valid() && u in ctx.claims && s.locals[u].call.NoCall?
      requires MappingUnchanged(ctx, u, hash, driver, rq, store)
      modifies this
      // Whatever fails, nothing happens to other claims.
      ensures Valid() && OnlyTouches(u) && s.locals[u].call.NoCall?
      // Without an allocation or a mapping nothing happens at all.
      ensures !scheduled || !AllKnown(store, Mine(driver, rq.results)) ==> r.None? && s == old(s)
      // On failure the records are as before.
      ensures r.None? ==> s.locals[u].mem == old(s.locals)[u].mem && s.locals[u].disk == old(s.locals)[u].disk
      // If compensating calls take effect and no Create fails late, a failure adds nothing,
      // and of the shadow claims that it created or adopted none is left.
      ensures r.None? && !faults.AnyFaults? ==> NothingAdded(old(s.world), s.world)
      ensures r.None? && !faults.AnyFaults? && scheduled && AllKnown(store, Mine(driver, rq.results)) ==>
        ShadowsGone(ctx.claims[u], slots, s.world)
      // On success the answer is what the claim asks for, and the records are complete: each
      // names a shadow claim that stands and is prepared at its driver.
      ensures r.Some? ==> AllKnown(store, Mine(driver, rq.results)) && IsAnswer(ctx.cdi, ctx.claims[u], store, Mine(driver, rq.results), r.value)
      ensures r.Some? ==> s.locals[u].mem.Some? && Recorded(u, ctx.claims[u], s.world, s.locals[u].mem.value)
      ensures r.Some? && faults.NoFaults? ==> s.locals[u].mem == Reload(s.locals[u].disk)
      // Without faults it succeeds unless a half-made shadow claim is in the way, and then
      // it removes every shadow claim of the composite claim.
      ensures faults.NoFaults? && scheduled && AllKnown(store, Mine(driver, rq.results)) ==>
        && (r.Some? <==> AllPrefilled(old(s.world), ctx.claims[u]))
        && (r.None? ==> forall k :: ctx.claims[u].Owns(k) ==> k !in s.world.api)
    {
      slots := [];
      if !scheduled {
        return None, slots;
      }
      var work, pairs := BuildWork(hash, driver, rq, store);
      if work.None? {
        return None, slots;
      }
      r, slots := Attempt(u, rq, store, work.value, pairs, faults);
    }

    /** The end of a successful prepareClaim: assemble the devices and write the records. */
    method Commit(u: string, rq: Request, store: Lookup, work: seq<Work>, pairs: nat, faults: Faults)
      returns (r: Option<seq<KubeletDevice>>)
      requires Valid() && u in ctx.claims && Ready(ctx.claims[u], s.locals[u].call) && s.locals[u].call.phase == Committing
      requires AllKnown(store, Mine(driver, rq.results)) && pairs == |Mine(driver, rq.results)|
      requires work == ctx.claims[u].work == WorkFor(hash, rq, store, Mine(driver, rq.results))
      requires AnsweredStand(u, ctx.claims[u], s.world, s.locals[u].call)
      modifies this
      ensures Valid() && OnlyTouches(u) && s.locals[u].call.NoCall? && s.world == old(s.world)
      ensures r.Some? && IsAnswer(ctx.cdi, ctx.claims[u], store, Mine(driver, rq.results), r.value)
      ensures s.locals[u].mem.Some? && Recorded(u, ctx.claims[u], s.world, s.locals[u].mem.value)
      ensures faults.NoFaults? ==> s.locals[u].mem == Reload(s.locals[u].disk)
    {
      ghost var mine := Mine(driver, rq.results);
      var slots := s.locals[u].call.slots;
      ghost var c := ctx.claims[u];
      forall i | 0 <= i < |work|
        ensures slots[i].Shadowed? && slots[i].reply.Answered? && AnswerFor(ctx.cdi, c, work[i].key, slots[i].reply.cdi)
        ensures SameAnswers(ctx.cdi, c) ==> slots[i].reply.cdi == ctx.cdi(work[i].target)
      {
        AnswersAreScheduleIndependent(ctx, s, u, i);
      }
      var cdis := seq(|slots|, i requires 0 <= i < |slots| => slots[i].reply.cdi);
      assert AnswersByName(ctx.cdi, c, cdis);
      WorkNumbered(hash, rq, store, mine);
      var devices := Assemble(mine, work, cdis, pairs);
      if SameAnswers(ctx.cdi, c) {
        assert cdis == Answers(ctx.cdi, work);
        DevicesExpected(hash, rq, store, mine, ctx.cdi, |mine|);
        assert mine[..|mine|] == mine;
      }
      CommitRecords(ctx, s, u);
      PersistRestoreIdentity(u, c, Records(c, work, slots));
      var ok: bool := *;
      Take(u, Persist(ok || faults.NoFaults?));
      r := Some(devices);
    }

    /** Self-healing: from every state that crashes and faults can lead to, at most two
        fault-free prepares are needed once the device mapping is loaded. */
    method PrepareUntilReady(u: string, rq: Request, store: Lookup) returns (devices: seq<KubeletDevice>)
      requires Valid() && u in ctx.claims && s.locals[u].call.NoCall?
      requires AllKnown(store, Mine(driver, rq.results))
      requires ctx.claims[u].work == WorkFor(hash, rq, store, Mine(driver, rq.results))
      modifies this
      ensures Valid() && OnlyTouches(u)
      ensures IsAnswer(ctx.cdi, ctx.claims[u], store, Mine(driver, rq.results), devices)
      ensures s.locals[u].mem.Some? && Recorded(u, ctx.claims[u], s.world, s.locals[u].mem.value)
    {
      ghost var slots;
      var r;
      r, slots := PrepareClaim(u, rq, true, store, NoFaults);
      if r.None? {
        NothingInTheWay(s.world, ctx.claims[u]);
        r, slots := PrepareClaim(u, rq, true, store, NoFaults);
      }
      devices := r.value;
    }

    /** One round of the unprepare loop; `ok` is false if it met an error, which includes a
        shadow claim that is already gone. */
    method ReleaseOne(u: string, faultFree: bool) returns (ok: bool)
      requires Valid() && u in ctx.claims && s.locals[u].call.Unpreparing?
      requires s.locals[u].call.stage.Releasing? && !s.locals[u].call.stage.deleteNext && s.locals[u].call.stage.todo != []
      modifies this
      ensures Valid() && OnlyTouches(u)
      ensures s.locals[u] == old(s.locals)[u].(call := s.locals[u].call) && s.locals[u].call.Unpreparing?
      ensures s.locals[u].call.stage == Releasing(old(s.locals)[u].call.stage.todo[1..], false)
      ensures faultFree && old(s.locals)[u].call.clean ==> s.locals[u].call.clean
      ensures Shrinks(old(s.world), s.world)
      ensures var r := old(s.locals)[u].call.stage.todo[0];
        && old(s.world).prepared - {HoldOf(r)} <= s.world.prepared <= old(s.world).prepared
        && (ok || faultFree ==> r.key !in s.world.api && HoldOf(r) !in s.world.prepared)
        && (faultFree ==> s.world.api.Keys == old(s.world).api.Keys - {r.key} && (ok <==> r.key in old(s.world).api))
    {
      var o1: Outcome, o2: Outcome := *, *;
      if faultFree {
        o1, o2 := Works, Works;
      }
      var found := s.locals[u].call.stage.todo[0].key in s.world.api;
      Take(u, ReleaseNext(o1));
      Take(u, ReleaseNext(o2));
      ok := o1 == Works && o2 == Works && found;
    }

    /** The loop of unprepareClaim over the records; `ok` is false if it collected an error. */
    method ReleaseRecords(u: string, faultFree: bool) returns (ok: bool)
      requires Valid() && u in ctx.claims && s.locals[u].call.Unpreparing?
      requires s.locals[u].call.stage.Releasing? && !s.locals[u].call.stage.deleteNext
      modifies this
      ensures Valid() && OnlyTouches(u)
      ensures s.locals[u] == old(s.locals)[u].(call := s.locals[u].call)
      ensures s.locals[u].call.Unpreparing? && s.locals[u].call.stage == Releasing([], false)
      ensures faultFree && old(s.locals)[u].call.clean ==> s.locals[u].call.clean
      ensures Shrinks(old(s.world), s.world)
      ensures ReleasedOf(old(s.locals)[u].call.stage.todo, old(s.world), s.world, ok || faultFree)
      ensures faultFree ==> (ok <==> Deletable(old(s.locals)[u].call.stage.todo, old(s.world)))
    {
      ok := true;
      ghost var all := s.locals[u].call.stage.todo;
      ghost var n := 0;
      while s.locals[u].call.stage.todo != []
        invariant Valid() && OnlyTouches(u) && u in s.locals
        invariant s.locals[u].call.Unpreparing? && s.locals[u].call.stage.Releasing? && !s.locals[u].call.stage.deleteNext
        invariant s.locals[u] == old(s.locals)[u].(call := s.locals[u].call)
        invariant n <= |all| && s.locals[u].call.stage.todo == all[n..]
        invariant faultFree && old(s.locals)[u].call.clean ==> s.locals[u].call.clean
        invariant Shrinks(old(s.world), s.world) && ReleasedOf(all[..n], old(s.world), s.world, ok || faultFree)
        invariant faultFree ==> DeletedOf(all[..n], old(s.world), s.world, ok)
        decreases |s.locals[u].call.stage.todo|
      {
        ghost var w := s.world;
        var one := ReleaseOne(u, faultFree);
        ReleasedNext(all[..n], all[n], old(s.world), w, s.world, ok || faultFree, one || faultFree);
        if faultFree {
          DeletedNext(all[..n], all[n], old(s.world), w, s.world, ok, one);
        }
        assert all[..n + 1] == all[..n] + [all[n]];
        ok := ok && one;
        n := n + 1;
      }
      assert all[..n] == all;
    }

    /** DeleteForCompositeClaim. */
    method Sweep(u: string, faultFree: bool)
      requires Valid() && u in ctx.claims && s.locals[u].call.Unpreparing? && s.locals[u].call.stage.Listing?
      modifies this
      ensures Valid() && OnlyTouches(u)
      ensures s.locals[u] == old(s.locals)[u].(call := s.locals[u].call)
      ensures Shrinks(old(s.world), s.world) && s.world.prepared == old(s.world).prepared
      ensures s.locals[u].call.Unpreparing? && s.locals[u].call.stage == Forgetting
      ensures faultFree && old(s.locals)[u].call.clean ==> s.locals[u].call.clean
    {
      var o: Outcome := *;
      if faultFree {
        o := Works;
      }
      Take(u, List(o));
      if s.locals[u].call.stage.Sweeping? {
        while s.locals[u].call.stage.left != {}
          invariant Valid() && OnlyTouches(u) && u in s.locals
          invariant s.locals[u] == old(s.locals)[u].(call := s.locals[u].call)
          invariant Shrinks(old(s.world), s.world) && s.world.prepared == old(s.world).prepared
          invariant s.locals[u].call.Unpreparing? && s.locals[u].call.stage.Sweeping?
          invariant faultFree && old(s.locals)[u].call.clean ==> s.locals[u].call.clean
          decreases s.locals[u].call.stage.left
        {
          var k :| k in s.locals[u].call.stage.left;
          o := *;
          if faultFree {
            o := Works;
          }
          Take(u, SweepNext(k, o));
        }
        Take(u, LoopEnd);
      }
    }

    /** The end of unprepareClaim: the database record goes. */
    method Finish(u: string, faultFree: bool)
      requires Valid() && u in ctx.claims && s.locals[u].call.Unpreparing? && s.locals[u].call.stage.Forgetting?
      modifies this
      ensures Valid() && OnlyTouches(u) && s.locals[u].call.NoCall? && s.world == old(s.world)
      ensures s.locals[u].mem == old(s.locals)[u].mem && (faultFree ==> s.locals[u].disk.None?)
      ensures old(s.locals)[u].call.clean ==> forall k :: !s.world.Labelled(u, k)
    {
      if s.locals[u].call.clean {
        forall k ensures !s.world.Labelled(u, k) {
          NoShadowLeft(ctx, s, u, k);
        }
      }
      var forgot: bool := *;
      Take(u, Forget(forgot || faultFree));
    }

    /** unprepareClaim; `ok` is false for an error return. */
    method UnprepareClaim(u: string, faultFree: bool) returns (ok: bool)
      requires Valid() && u in ctx.claims && s.locals[u].call.NoCall?
      modifies this
      ensures Valid() && OnlyTouches(u) && s.locals[u].call.NoCall?
      // Success or not, the memory record is dropped, and without faults the disk record.
      ensures s.locals[u].mem.None? && (faultFree ==> s.locals[u].disk.None?)
      // Drivers are asked for what is recorded and nothing else; so a retry, which finds no
      // record, makes no driver call, whatever is still prepared.
      ensures old(s.world).prepared - HoldsOf(old(s.locals)[u].mem) <= s.world.prepared <= old(s.world).prepared
      ensures old(s.locals)[u].mem.None? ==> ok
      // Without faults it fails if and only if a recorded shadow claim is already gone, or
      // two members share one, which the second then does not find.
      ensures faultFree && old(s.locals)[u].mem.Some? ==> (ok <==> Deletable(old(s.locals)[u].mem.value, old(s.world)))
      // Success means that every recorded shadow is released and deleted.
      ensures ok && old(s.locals)[u].mem.Some? ==> forall r :: r in old(s.locals)[u].mem.value ==>
        r.key !in s.world.api && HoldOf(r) !in s.world.prepared
      // Without faults exactly the recorded holds are gone, and no shadow claim of u is
      // left, recorded or not.
      ensures faultFree ==> CleanUnprepare(u, old(s), s)
    {
      ok := true;
      Take(u, StartUnprepare);
      if s.locals[u].call.stage.Releasing? {
        ok := ReleaseRecords(u, faultFree);
        Take(u, LoopEnd);
      } else {
        Sweep(u, faultFree);
      }
      Finish(u, faultFree);
      if faultFree {
        OnlyOwnGone(u, old(s), s);
      }
    }

    /** Crash and restart. */
    method Restart(readOk: bool)
      requires Valid()
      modifies this
      ensures Valid() && s.world == old(s.world) && s.locals.Keys == old(s.locals.Keys)
      ensures forall u :: u in s.locals ==> s.locals[u] == Restarted(old(s.locals)[u], readOk)
    {
      ReachableStep(ctx, s, CrashRestart(readOk));
      s := s.(locals := map u | u in s.locals :: Restarted(s.locals[u], readOk));
    }

    /** A crash at any moment and a fault-free unprepare of u after the restart: what is then
        still prepared for u is exactly what the database did not give back, and nothing
        will ever release it. */
    method RestartAndUnprepare(u: string, readOk: bool)
      requires Valid() && u in ctx.claims
      modifies this
      ensures Valid() && s.locals[u].call.NoCall? && forall k :: !s.world.Labelled(u, k)
      ensures forall h :: HeldFor(ctx, old(s), u, h) ==>
        && (h in s.world.prepared <==> !readOk || !NamedOnDisk(old(s.locals)[u], h))
        && (h in s.world.prepared ==> Forgotten(ctx, s, h))
    {
      ghost var before := s;
      Restart(readOk);
      assert s == Do(ctx, before, CrashRestart(readOk));
      var ok := UnprepareClaim(u, true);
      forall h | HeldFor(ctx, before, u, h)
        ensures (h in s.world.prepared <==> !readOk || !NamedOnDisk(before.locals[u], h)) && (h in s.world.prepared ==> Forgotten(ctx, s, h))
      {
        CrashThenUnprepareExactly(ctx, before, readOk, s, u, h);
      }
    }

    /** Somebody deletes a claim from the API server. */
    method Drop(k: Key)
      requires Valid()
      modifies this
      ensures Valid() && s.locals == old(s.locals) && s.world == old(s.world).(api := old(s.world).api - {k})
    {
      ReachableStep(ctx, s, OthersDelete(k));
      s := s.(world := DeleteKey(s.world, k, Works));
    }

    /** reconcileOrphans, for one listing: a shadow claim goes if its composite claim cannot
        be fetched.  A fetch that merely fails counts as a missing owner. */
    method ReconcileOrphans(faultFree: bool)
      requires Valid() && CompositesUnmanaged(ctx, s.world)
      modifies this
      ensures Valid() && s.locals == old(s.locals) && s.world.prepared == old(s.world).prepared
      ensures forall k :: k in s.world.api ==> Find(s.world.api, k) == Find(old(s.world).api, k)
      // Claims without the driver's label stay, whatever fails.
      ensures forall k :: k in old(s.world).api && old(s.world).api[k].owner.None? && old(s.world).api[k].remote.None? ==> k in s.world.api
      // Without faults a shadow claim of this node goes if and only if no claim stands under
      // the name of its composite claim, and so does one of another node.
      ensures faultFree ==> forall u, k :: u in ctx.claims && old(s.world).Labelled(u, k) ==>
        (k !in s.world.api <==> Key(ctx.claims[u].ns, ctx.claims[u].name) !in old(s.world).api)
      ensures faultFree ==> forall k :: k in old(s.world).api && old(s.world).api[k].owner.None? && old(s.world).api[k].remote.Some? ==>
        (k !in s.world.api <==> old(s.world).api[k].remote.value !in old(s.world).api)
    {
      var left := set k | k in s.world.api && Managed(s.world.api[k]);
      while left != {}
        invariant Valid() && s.locals == old(s.locals) && s.world.prepared == old(s.world).prepared
        invariant Reconciling(ctx, old(s.world), s.world, left, faultFree)
        decreases left
      {
        var k :| k in left;
        var fetched: bool, deleted: bool := *, *;
        var ownerExists := OwnerPresent(ctx, s.world, s.world.api[k]) && (fetched || faultFree);
        var drops := !ownerExists && (deleted || faultFree);
        ReconcileNext(ctx, old(s.world), s.world, left, faultFree, k, drops);
        if drops {
          Drop(k);
        }
        left := left - {k};
      }
    }
  }
}
