/**
 What the calls on one claim leave alone: whatever fails, the shadow claims of all other
 claims, and what the drivers hold for them, stay as they are.
 */
module ShadowFrame {

  import opened Options
  import opened Kubernetes
  import opened ShadowMachine
  import opened ShadowSafety
  import opened ShadowAtomicity
  import opened ShadowDrivers

  /** The claims in the API server that do not bear the label of u. */
  ghost function OthersClaims(u: string, w: World): map<Key, ApiClaim> {
    map k | k in w.api && w.api[k].owner != Some(u) :: w.api[k]
  }

  /** The plugin knows the hold for another claim, or it concerns a claim without that label. */
  ghost predicate OfAnother(u: string, s: State, h: Hold) {
    || (exists v :: v in s.locals && v != u && Knows(s.locals[v], h.1))
    || (exists k :: k in s.world.api && s.world.api[k].owner != Some(u) && s.world.api[k].uid == h.1)
  }

  ghost function OthersHolds(u: string, s: State): set<Hold> {
    set h | h in s.world.prepared && OfAnother(u, s, h)
  }

  ghost predicate SparesOthers(u: string, s: State, t: State) {
    OthersClaims(u, t.world) == OthersClaims(u, s.world) && OthersHolds(u, t) == OthersHolds(u, s)
  }

  /** A driver is asked to release only what a record of the claim names. */
  lemma ReleasesKnown(ctx: Context, u: string, w: World, l: Local, p: Step, h: Hold)
    requires u in ctx.claims && CanStep(ctx.claims[u], l, p)
    requires h in w.prepared && h !in Stepped(ctx, u, w, l, p).0.prepared
    ensures Knows(l, h.1)
  {
  }

  /** Every API call of a claim goes to a name of its own. */
  lemma TouchesOwnNames(ctx: Context, u: string, w: World, l: Local, p: Step, k: Key)
    requires u in ctx.claims && CanStep(ctx.claims[u], l, p) && OwnKeys(ctx.claims[u], l) && !ctx.claims[u].Owns(k)
    ensures Find(Stepped(ctx, u, w, l, p).0.api, k) == Find(w.api, k)
  {
    if p.Advance? {
      assert ctx.claims[u].Owns(ctx.claims[u].work[p.i].key);
    }
  }

  lemma OwnNamesAreOwn(ctx: Context, u: string, w: World, w': World)
    requires u in ctx.claims && NamesLabelled(ctx, w) && NamesLabelled(ctx, w')
    requires forall k :: !ctx.claims[u].Owns(k) ==> Find(w'.api, k) == Find(w.api, k)
    ensures OthersClaims(u, w') == OthersClaims(u, w)
  {
    forall k ensures k in OthersClaims(u, w') <==> k in OthersClaims(u, w)
      ensures k in OthersClaims(u, w') ==> w'.api[k] == w.api[k]
    {
      if ctx.claims[u].Owns(k) {
      } else {
        assert Find(w'.api, k) == Find(w.api, k);
      }
    }
  }

  lemma StepSparesClaims(ctx: Context, s: State, u: string, p: Step)
    requires WellFormed(ctx) && NamesApart(ctx) && Reachable(ctx, s) && u in ctx.claims && Enabled(ctx, s, Of(u, p))
    ensures OthersClaims(u, Do(ctx, s, Of(u, p)).world) == OthersClaims(u, s.world)
  {
    ReachableInv(ctx, s);
    ReachableProvenance(ctx, s);
    var w' := Stepped(ctx, u, s.world, s.locals[u], p).0;
    StepGrows(ctx, u, s.world, s.locals[u], p);
    NamesLabelledKept(ctx, Some(u), s.world, w');
    forall k | !ctx.claims[u].Owns(k) ensures Find(w'.api, k) == Find(s.world.api, k) {
      TouchesOwnNames(ctx, u, s.world, s.locals[u], p, k);
    }
    OwnNamesAreOwn(ctx, u, s.world, w');
  }

  /** A driver is asked to prepare only a claim that stands under a name of its own. */
  lemma PreparesMet(ctx: Context, u: string, w: World, l: Local, p: Step, h: Hold)
    requires u in ctx.claims && CanStep(ctx.claims[u], l, p)
    requires h !in w.prepared && h in Stepped(ctx, u, w, l, p).0.prepared
    ensures Meets(ctx.claims[u], w, h.1)
  {
    assert p.Advance?;
    var k := ctx.claims[u].work[p.i].key;
    assert ctx.claims[u].Owns(k) && k in w.api && w.api[k].uid == h.1;
  }

  lemma KnownIsOwn(ctx: Context, s: State, u: string, h: Hold)
    requires Provenance(ctx, s) && u in ctx.claims && Knows(s.locals[u], h.1)
    ensures !OfAnother(u, s, h)
  {
    assert UnderNamesOf(ctx, s.world, u, h.1);
  }

  lemma MetIsOwn(ctx: Context, s: State, u: string, h: Hold)
    requires Provenance(ctx, s) && UidsUnique(s.world) && NamesApart(ctx) && u in ctx.claims && Meets(ctx.claims[u], s.world, h.1)
    ensures !OfAnother(u, s, h)
  {
    var k :| ctx.claims[u].Owns(k) && k in s.world.api && s.world.api[k].uid == h.1;
    assert Bound(s.world, k, h.1);
    forall v | v in s.locals && Knows(s.locals[v], h.1) ensures v == u {
      assert UnderNamesOf(ctx, s.world, v, h.1);
    }
  }

  /** What u releases or has prepared is of u and of no other. */
  lemma StepHoldsOwn(ctx: Context, s: State, u: string, p: Step, h: Hold)
    requires WellFormed(ctx) && NamesApart(ctx) && Reachable(ctx, s) && u in ctx.claims && Enabled(ctx, s, Of(u, p))
    requires (h in s.world.prepared) != (h in Do(ctx, s, Of(u, p)).world.prepared)
    ensures !OfAnother(u, s, h)
  {
    ReachableProvenance(ctx, s);
    if h in s.world.prepared {
      ReleasesKnown(ctx, u, s.world, s.locals[u], p, h);
      KnownIsOwn(ctx, s, u, h);
    } else {
      PreparesMet(ctx, u, s.world, s.locals[u], p, h);
      ReachableAtomic(ctx, s);
      MetIsOwn(ctx, s, u, h);
    }
  }

  lemma SameOthers(u: string, s: State, t: State)
    requires OthersClaims(u, t.world) == OthersClaims(u, s.world)
    requires t.locals.Keys == s.locals.Keys && forall v :: v in s.locals && v != u ==> t.locals[v] == s.locals[v]
    ensures forall h :: OfAnother(u, t, h) <==> OfAnother(u, s, h)
  {
    forall h | OfAnother(u, s, h) ensures OfAnother(u, t, h) {
      SameOthersOneWay(u, s, t, h);
    }
    forall h | OfAnother(u, t, h) ensures OfAnother(u, s, h) {
      SameOthersOneWay(u, t, s, h);
    }
  }

  lemma SameOthersOneWay(u: string, s: State, t: State, h: Hold)
    requires OthersClaims(u, t.world) == OthersClaims(u, s.world) && OfAnother(u, s, h)
    requires t.locals.Keys == s.locals.Keys && forall v :: v in s.locals && v != u ==> t.locals[v] == s.locals[v]
    ensures OfAnother(u, t, h)
  {
    if v :| v in s.locals && v != u && Knows(s.locals[v], h.1) {
      assert v in t.locals && t.locals[v] == s.locals[v];
    } else {
      var k :| k in s.world.api && s.world.api[k].owner != Some(u) && s.world.api[k].uid == h.1;
      assert k in OthersClaims(u, s.world) && OthersClaims(u, s.world)[k] == s.world.api[k];
      assert k in OthersClaims(u, t.world) && OthersClaims(u, t.world)[k] == t.world.api[k];
    }
  }

  /** Frame of every step, whatever its outcome. */
  lemma StepSparesOthers(ctx: Context, s: State, u: string, p: Step)
    requires WellFormed(ctx) && NamesApart(ctx) && Reachable(ctx, s) && u in ctx.claims && Enabled(ctx, s, Of(u, p))
    ensures SparesOthers(u, s, Do(ctx, s, Of(u, p)))
  {
    var t := Do(ctx, s, Of(u, p));
    StepSparesClaims(ctx, s, u, p);
    SameOthers(u, s, t);
    forall h ensures h in OthersHolds(u, t) <==> h in OthersHolds(u, s) {
      if (h in s.world.prepared) != (h in t.world.prepared) {
        StepHoldsOwn(ctx, s, u, p, h);
      }
    }
  }
}
