/**
 The shadow-claim protocol of the kubelet plugin as a small-step machine.

 One action is one external call (API server, underlying driver, state database) or one
 synchronisation point of `prepareClaim` and `unprepareClaim`.  Any number of calls for
 different composite claims may be in flight; the goroutines of one prepare advance in
 any order; any external call may fail before or after it took effect; the process may
 crash and restart between any two actions; and other actors may delete shadow claims at
 any time.
 */
module ShadowMachine {

  import opened Options
  import opened Kubernetes

  // ---------- What the environment fixes ----------

  /** An allocation result: one device of one driver, for one request. */
  datatype Allocation = Allocation(request: string, driver: string, pool: string, device: string)

  /** The inputs of one `memberWork`: the ordinal and the allocation result of the composite
      device it belongs to, the name of its shadow claim and the allocation that claim carries. */
  datatype Work = Work(pair: nat, result: Allocation, key: Key, target: Allocation)

  /** A composite claim together with the work list that its device mapping yields. */
  datatype Claim = Claim(ns: string, name: string, composition: string, work: seq<Work>) {
    ghost predicate Owns(k: Key) {
      exists i :: 0 <= i < |work| && work[i].key == k
    }

    /** Some member under that shadow name asks for the allocation. */
    ghost predicate Wants(k: Key, a: Allocation) {
      exists i :: 0 <= i < |work| && work[i].key == k && work[i].target == a
    }
  }

  /** The claims by UID, and the CDI IDs that a driver answers for an allocation. */
  datatype Context = Context(claims: map<string, Claim>, cdi: Allocation -> seq<string>)

  /** `Create` puts every shadow claim in the namespace of its composite claim. */
  ghost predicate WellFormed(ctx: Context) {
    forall u, i :: u in ctx.claims && 0 <= i < |ctx.claims[u].work| ==> ctx.claims[u].work[i].key.ns == ctx.claims[u].ns
  }

  /** No two claims share a shadow name.  Two members of one claim may: composite devices
      overlap, and the second goroutine then adopts the claim of the first. */
  ghost predicate NamesApart(ctx: Context) {
    forall u, v, k :: u in ctx.claims && v in ctx.claims && ctx.claims[u].Owns(k) && ctx.claims[v].Owns(k) ==> u == v
  }

  /** Members under one shadow name get the same CDI IDs: there are none such, or they are
      the same device. */
  ghost predicate SameAnswers(cdi: Allocation -> seq<string>, c: Claim) {
    forall i, j :: 0 <= i < |c.work| && 0 <= j < |c.work| && c.work[i].key == c.work[j].key ==>
      cdi(c.work[i].target) == cdi(c.work[j].target)
  }

  // ---------- State ----------

  /** A ResourceClaim in the API server; `owner` is the composite-claim-uid label of this
      node's shadow claims, and `remote` the composite claim of another node's. */
  datatype ApiClaim = ApiClaim(uid: nat, owner: Option<string>, alloc: Option<Allocation>, remote: Option<Key>)

  /** An entry of `shadowClaims`, and what the state database holds for it. */
  datatype Record = Record(driver: string, composition: string, key: Key, uid: nat)
  datatype Entry = Entry(driver: string, ns: string, name: string, uid: nat, composition: string)
  datatype Stored = Stored(claimUid: string, ns: string, entries: seq<Entry>)

  datatype Reply = Waiting | Answered(cdi: seq<string>) | Refused

  /** Where the goroutine of one member is. */
  datatype Slot =
    | Idle                             // Create not sent yet
    | Created(uid: nat)                // Create answered, UpdateStatus next
    | Undo(uid: nat)                   // UpdateStatus failed, compensating Delete next
    | Exists                           // Create said AlreadyExists, Get next
    | Shadowed(uid: nat, reply: Reply) // w.shadow is set
    | Failed(stray: Option<nat>)       // w.err is set; the UID of a claim it made unknowingly
    | Undone(uid: nat, took: bool)     // w.err is set after the compensating Delete

  datatype Phase =
    | Creating
    | Delegating
    | Cleaning(todo: seq<Record>, deleteNext: bool, took: bool)
    | Committing

  datatype Stage =
    | Releasing(todo: seq<Record>, deleteNext: bool)
    | Listing
    | Sweeping(left: set<Key>)
    | Forgetting

  /** What a prepare call found when it began. */
  datatype Snapshot = Snapshot(mem: Option<seq<Record>>, disk: Option<Stored>, nextUid: nat)

  /** A call in flight.  History variables: `before` is the state at the start, `took` and
      `clean` tell whether all compensating calls, and all API calls, had their effect. */
  datatype Call =
    | NoCall
    | Preparing(slots: seq<Slot>, phase: Phase, before: Snapshot)
    | Unpreparing(stage: Stage, clean: bool)

  /** The API server and the underlying drivers, shared by all calls. */
  datatype World = World(api: map<Key, ApiClaim>, nextUid: nat, prepared: set<(string, nat)>) {
    predicate Labelled(u: string, k: Key) {
      k in api && api[k].owner == Some(u)
    }
  }

  /** What the plugin holds under one claim UID: its entry of `shadowClaims`, its record in
      the state database and the call in flight.  `released` remembers that the last call was
      an unprepare whose API calls worked, `diskFault` that a disk access for it failed. */
  datatype Local = Local(mem: Option<seq<Record>>, disk: Option<Stored>, call: Call, released: bool, diskFault: bool)

  datatype State = State(world: World, locals: map<string, Local>)

  // ---------- Records ----------

  function RecordOf(c: Claim, w: Work, uid: nat): Record {
    Record(w.target.driver, c.composition, w.key, uid)
  }

  /** The `shadows` list: the records of the members that have a shadow, in work order. */
  function Records(c: Claim, work: seq<Work>, slots: seq<Slot>): seq<Record>
    requires |work| == |slots|
  {
    if work == [] then []
    else
      (if slots[0].Shadowed? then [RecordOf(c, work[0], slots[0].uid)] else [])
      + Records(c, work[1..], slots[1..])
  }

  /** What `persistShadows` writes and what `restoreFromState` rebuilds. */
  function Encode(r: Record): Entry {
    Entry(r.driver, r.key.ns, r.key.name, r.uid, r.composition)
  }

  function Decode(e: Entry): Record {
    Record(e.driver, e.composition, Key(e.ns, e.name), e.uid)
  }

  function Persisted(u: string, c: Claim, records: seq<Record>): Stored {
    Stored(u, c.ns, seq(|records|, i requires 0 <= i < |records| => Encode(records[i])))
  }

  function Restored(d: Stored): seq<Record> {
    seq(|d.entries|, i requires 0 <= i < |d.entries| => Decode(d.entries[i]))
  }

  /** The memory entry that a restart rebuilds from the database. */
  function Reload(disk: Option<Stored>): Option<seq<Record>> {
    if disk.None? then None else Some(Restored(disk.value))
  }

  // ---------- One external call ----------

  /** How an external call ends: it works, it fails without an effect, or it takes effect
      and the caller still sees an error. */
  datatype Outcome = Works | Lost | Late

  /** Deletion in the API server is by name, whoever owns the claim found there. */
  function DeleteKey(w: World, k: Key, o: Outcome): World {
    if o == Lost then w else w.(api := w.api - {k})
  }

  function Release(w: World, r: Record, o: Outcome): World {
    if o == Lost then w else w.(prepared := w.prepared - {(r.driver, r.uid)})
  }

  function AddClaim(w: World, k: Key, owner: Option<string>, alloc: Option<Allocation>, remote: Option<Key>): World {
    w.(api := w.api[k := ApiClaim(w.nextUid, owner, alloc, remote)], nextUid := w.nextUid + 1)
  }

  /** An underlying driver accepts exactly the claims that exist under the given UID and
      carry an allocation. */
  predicate Acceptable(w: World, k: Key, uid: nat) {
    k in w.api && w.api[k].uid == uid && w.api[k].alloc.Some?
  }

  function DoCreate(u: string, k: Key, w: World, o: Outcome): (World, Slot) {
    match o
    case Lost => (w, Failed(None))
    case Late => if k in w.api then (w, Failed(None)) else (AddClaim(w, k, Some(u), None, None), Failed(Some(w.nextUid)))
    case Works => if k in w.api then (w, Exists) else (AddClaim(w, k, Some(u), None, None), Created(w.nextUid))
  }

  function DoUpdate(wk: Work, uid: nat, w: World, o: Outcome): (World, Slot) {
    var there := wk.key in w.api && w.api[wk.key].uid == uid;
    (if there && o != Lost then w.(api := w.api[wk.key := w.api[wk.key].(alloc := Some(wk.target))]) else w,
     if there && o == Works then Shadowed(uid, Waiting) else Undo(uid))
  }

  function DoGet(k: Key, w: World, o: Outcome): (World, Slot) {
    (w, if o == Works && k in w.api then Shadowed(w.api[k].uid, Waiting) else Failed(None))
  }

  function DoAsk(cdi: Allocation -> seq<string>, wk: Work, uid: nat, w: World, o: Outcome): (World, Slot) {
    var ok := Acceptable(w, wk.key, uid);
    (if ok && o != Lost then w.(prepared := w.prepared + {(wk.target.driver, uid)}) else w,
     Shadowed(uid, if ok && o == Works then Answered(cdi(w.api[wk.key].alloc.value)) else Refused))
  }

  /** The goroutine of one member still has an external call to make in this phase. */
  predicate CanAdvance(phase: Phase, slot: Slot) {
    if phase == Creating then slot.Idle? || slot.Created? || slot.Undo? || slot.Exists?
    else phase == Delegating && slot.Shadowed? && slot.reply.Waiting?
  }

  /** The next external call of one goroutine. */
  function Advanced(ctx: Context, u: string, wk: Work, w: World, slot: Slot, o: Outcome): (World, Slot) {
    match slot
    case Idle => DoCreate(u, wk.key, w, o)
    case Created(uid) => DoUpdate(wk, uid, w, o)
    case Undo(uid) => (DeleteKey(w, wk.key, o), Undone(uid, o != Lost))
    case Exists => DoGet(wk.key, w, o)
    case Shadowed(uid, _) => DoAsk(ctx.cdi, wk, uid, w, o)
    case _ => (w, slot)
  }

  // ---------- Steps of the calls on one claim ----------

  datatype Step =
    | StartPrepare
    | Advance(i: nat, o: Outcome)   // goroutine i makes its next external call
    | Join                          // all goroutines of the phase are done
    | Persist(ok: bool)             // SaveShadows, and prepareClaim returns its devices
    | CleanNext(o: Outcome)         // the next call of cleanupShadows
    | FailReturn                    // prepareClaim returns its error
    | StartUnprepare
    | ReleaseNext(o: Outcome)       // the next call of the unprepare loop
    | List(o: Outcome)              // the label query of DeleteForCompositeClaim
    | SweepNext(k: Key, o: Outcome) // one deletion of DeleteForCompositeClaim
    | LoopEnd
    | Forget(ok: bool)              // DeleteShadows, and unprepareClaim returns

  predicate Settled(slots: seq<Slot>) {
    forall i :: 0 <= i < |slots| ==> slots[i].Shadowed? || slots[i].Failed? || slots[i].Undone?
  }

  predicate AllShadowed(slots: seq<Slot>) {
    forall i :: 0 <= i < |slots| ==> slots[i].Shadowed?
  }

  predicate AllReplied(slots: seq<Slot>) {
    forall i :: 0 <= i < |slots| ==> slots[i].Shadowed? && !slots[i].reply.Waiting?
  }

  predicate AllAnswered(slots: seq<Slot>) {
    forall i :: 0 <= i < |slots| ==> slots[i].Shadowed? && slots[i].reply.Answered?
  }

  predicate Ready(c: Claim, call: Call) {
    call.Preparing? && |call.slots| == |c.work|
  }

  predicate CanStep(c: Claim, l: Local, p: Step) {
    match p
    case StartPrepare => l.call.NoCall?
    case Advance(i, _) => Ready(c, l.call) && i < |l.call.slots| && CanAdvance(l.call.phase, l.call.slots[i])
    case Join =>
      && Ready(c, l.call)
      && ((l.call.phase == Creating && Settled(l.call.slots)) || (l.call.phase == Delegating && AllReplied(l.call.slots)))
    case Persist(_) => Ready(c, l.call) && l.call.phase == Committing
    case CleanNext(_) => Ready(c, l.call) && l.call.phase.Cleaning? && l.call.phase.todo != []
    case FailReturn => Ready(c, l.call) && l.call.phase.Cleaning? && l.call.phase.todo == []
    case StartUnprepare => l.call.NoCall?
    case ReleaseNext(_) => l.call.Unpreparing? && l.call.stage.Releasing? && l.call.stage.todo != []
    case List(_) => l.call.Unpreparing? && l.call.stage.Listing?
    case SweepNext(k, _) => l.call.Unpreparing? && l.call.stage.Sweeping? && k in l.call.stage.left
    case LoopEnd =>
      l.call.Unpreparing? && ((l.call.stage.Releasing? && l.call.stage.todo == []) || l.call.stage == Sweeping({}))
    case Forget(_) => l.call.Unpreparing? && l.call.stage.Forgetting?
  }

  function Joined(c: Claim, l: Local): Local
    requires CanStep(c, l, Join)
  {
    var records := Records(c, c.work, l.call.slots);
    if l.call.phase == Creating && AllShadowed(l.call.slots) then
      l.(call := l.call.(phase := Delegating))
    else if l.call.phase == Delegating && AllAnswered(l.call.slots) then
      l.(mem := Some(records), call := l.call.(phase := Committing))
    else
      l.(call := l.call.(phase := Cleaning(records, false, true)))
  }

  /** cleanupShadows and the unprepare loop: unprepare at the driver, then delete. */
  function Dropped(w: World, todo: seq<Record>, deleteNext: bool, o: Outcome): (World, seq<Record>, bool)
    requires todo != []
  {
    if deleteNext then (DeleteKey(w, todo[0].key, o), todo[1..], false) else (Release(w, todo[0], o), todo, true)
  }

  function PrepareStep(ctx: Context, u: string, w: World, l: Local, p: Step): (World, Local)
    requires u in ctx.claims && CanStep(ctx.claims[u], l, p)
  {
    var c := ctx.claims[u];
    match p
    case StartPrepare =>
      (w, l.(released := false, call := Preparing(seq(|c.work|, _ => Idle), Creating, Snapshot(l.mem, l.disk, w.nextUid))))
    case Advance(i, o) =>
      var (w', slot) := Advanced(ctx, u, c.work[i], w, l.call.slots[i], o);
      (w', l.(call := l.call.(slots := l.call.slots[i := slot])))
    case Join => (w, Joined(c, l))
    case Persist(ok) =>
      (w, if ok then l.(call := NoCall, disk := Some(Persisted(u, c, Records(c, c.work, l.call.slots))))
          else l.(call := NoCall, diskFault := true))
    case CleanNext(o) =>
      var (w', todo, deleteNext) := Dropped(w, l.call.phase.todo, l.call.phase.deleteNext, o);
      (w', l.(call := l.call.(phase := Cleaning(todo, deleteNext, l.call.phase.took && o != Lost))))
    case FailReturn => (w, l.(call := NoCall))
    case _ => (w, l)
  }

  function UnprepareStep(ctx: Context, u: string, w: World, l: Local, p: Step): (World, Local)
    requires u in ctx.claims && CanStep(ctx.claims[u], l, p)
  {
    var c := ctx.claims[u];
    match p
    case StartUnprepare =>
      (w, l.(mem := None, call := Unpreparing(if l.mem.None? || l.mem.value == [] then Listing
                                              else Releasing(l.mem.value, false), true)))
    case ReleaseNext(o) =>
      var (w', todo, deleteNext) := Dropped(w, l.call.stage.todo, l.call.stage.deleteNext, o);
      var deleted := l.call.stage.deleteNext;
      (w', l.(call := Unpreparing(Releasing(todo, deleteNext), l.call.clean && !(deleted && o == Lost))))
    case List(o) =>
      (w, l.(call := if o == Works
                     then Unpreparing(Sweeping(set k | k in w.api && k.ns == c.ns && w.api[k].owner == Some(u)), l.call.clean)
                     else Unpreparing(Forgetting, false)))
    case SweepNext(k, o) =>
      (DeleteKey(w, k, o), l.(call := Unpreparing(Sweeping(l.call.stage.left - {k}), l.call.clean && o != Lost)))
    case LoopEnd => (w, l.(call := Unpreparing(Forgetting, l.call.clean)))
    case Forget(ok) =>
      var done := l.(call := NoCall, released := l.call.clean || l.released);
      (w, if ok then done.(disk := None) else done.(diskFault := true))
    case _ => (w, l)
  }

  // ---------- Actions ----------

  predicate OfPrepare(p: Step) {
    p.StartPrepare? || p.Advance? || p.Join? || p.Persist? || p.CleanNext? || p.FailReturn?
  }

  function Stepped(ctx: Context, u: string, w: World, l: Local, p: Step): (World, Local)
    requires u in ctx.claims && CanStep(ctx.claims[u], l, p)
  {
    if OfPrepare(p) then PrepareStep(ctx, u, w, l, p) else UnprepareStep(ctx, u, w, l, p)
  }

  datatype Action =
    | Of(u: string, p: Step)
    | OthersDelete(k: Key)                             // reconciler, garbage collector, users
    | OthersCreate(k: Key, alloc: Option<Allocation>, remote: Option<Key>) // a claim, or another node's shadow claim
    | CrashRestart(readOk: bool)

  ghost predicate Enabled(ctx: Context, s: State, a: Action) {
    match a
    case Of(u, p) => u in ctx.claims && u in s.locals && CanStep(ctx.claims[u], s.locals[u], p)
    case OthersDelete(_) => true
    case OthersCreate(k, _, _) => k !in s.world.api && forall u :: u in ctx.claims ==> !ctx.claims[u].Owns(k)
    case CrashRestart(_) => true
  }

  /** The process dies and `restoreFromState` rebuilds memory from the database. */
  function Restarted(l: Local, readOk: bool): Local {
    l.(call := NoCall, mem := if readOk then Reload(l.disk) else None, diskFault := l.diskFault || !readOk)
  }

  ghost function Do(ctx: Context, s: State, a: Action): State
    requires Enabled(ctx, s, a)
  {
    match a
    case Of(u, p) =>
      var (w, l) := Stepped(ctx, u, s.world, s.locals[u], p);
      State(w, s.locals[u := l])
    case OthersDelete(k) => s.(world := DeleteKey(s.world, k, Works))
    case OthersCreate(k, alloc, remote) => s.(world := AddClaim(s.world, k, None, alloc, remote))
    case CrashRestart(readOk) => s.(locals := map u | u in s.locals :: Restarted(s.locals[u], readOk))
  }

  // ---------- Runs ----------

  /** A fresh node: nothing recorded, nothing prepared, and no shadow claim, nor a claim
      under the name of one, in the API server. */
  ghost predicate Init(ctx: Context, s: State) {
    && s.locals == (map u | u in ctx.claims :: Local(None, None, NoCall, false, false))
    && s.world.prepared == {}
    && (forall k :: k in s.world.api ==> s.world.api[k].owner == None && s.world.api[k].uid < s.world.nextUid)
    && (forall k, u :: k in s.world.api && u in ctx.claims ==> !ctx.claims[u].Owns(k))
    && (forall k, m :: k in s.world.api && m in s.world.api && s.world.api[k].uid == s.world.api[m].uid ==> k == m)
  }

  ghost predicate Legal(ctx: Context, s: State, run: seq<Action>)
    decreases |run|
  {
    run == [] || (Enabled(ctx, s, run[0]) && Legal(ctx, Do(ctx, s, run[0]), run[1..]))
  }

  ghost function After(ctx: Context, s: State, run: seq<Action>): State
    requires Legal(ctx, s, run)
    decreases |run|
  {
    if run == [] then s else After(ctx, Do(ctx, s, run[0]), run[1..])
  }

  ghost predicate Reachable(ctx: Context, t: State) {
    exists s, run :: Init(ctx, s) && Legal(ctx, s, run) && After(ctx, s, run) == t
  }

  /** The last action of a run, for callers that extend runs at the end. */
  lemma {:induction false} ExtendRun(ctx: Context, s: State, run: seq<Action>, a: Action)
    requires Legal(ctx, s, run) && Enabled(ctx, After(ctx, s, run), a)
    ensures Legal(ctx, s, run + [a]) && After(ctx, s, run + [a]) == Do(ctx, After(ctx, s, run), a)
    decreases |run|
  {
    if run == [] {
      assert Legal(ctx, Do(ctx, s, a), []);
      assert ([] + [a])[1..] == [];
    } else {
      ExtendRun(ctx, Do(ctx, s, run[0]), run[1..], a);
      assert (run + [a])[1..] == run[1..] + [a];
    }
  }

  lemma ReachableStep(ctx: Context, t: State, a: Action)
    requires Reachable(ctx, t) && Enabled(ctx, t, a)
    ensures Reachable(ctx, Do(ctx, t, a))
  {
    var s, run :| Init(ctx, s) && Legal(ctx, s, run) && After(ctx, s, run) == t;
    ExtendRun(ctx, s, run, a);
  }

  lemma {:induction false} ReachableRun(ctx: Context, t: State, run: seq<Action>)
    requires Reachable(ctx, t) && Legal(ctx, t, run)
    ensures Reachable(ctx, After(ctx, t, run))
    decreases |run|
  {
    if run == [] {
    } else {
      ReachableStep(ctx, t, run[0]);
      ReachableRun(ctx, Do(ctx, t, run[0]), run[1..]);
    }
  }
}
