/** The third parcels detector: a parcel without a geometry says so, once, for as long as it has none. */
module Gaps {
  import opened Schema
  import opened Ledger
  import opened Exceptions
  import opened ParcelsModel
  import opened ParcelsLists
  import opened ParcelsReconcile
  import opened ParcelsWrites
  import opened ParcelsKeep
  import opened ParcelsTheorems
  import opened Invariants
  import opened Runs
  import C = Centroids
  import P = Permits
  import PM = PermitMatch
  import PT = PermitsTheorems
  import Z = ZoningEffect
  import ZM = ZoningModel

  /** A parcel's declared gaps: none while it has a geometry, one reason otherwise. */
  ghost predicate GapsOf(pairs: Pairs, p: ParcelId, geometry: Option<Value>) {
    AtMostOne(pairs, p) && (geometry.Some? <==> !Mentions(pairs, p))
  }

  ghost predicate GapMirrored(t: Tables, f: FeatureId)
    requires f in t.identities
  {
    GapsOf(OpenPairs(t.exceptions, GEOMETRY_DECLARED_GAP), t.identities[f].parcel, LiveGeometry(t.facts, t.identities[f]))
  }

  ghost predicate GapsMirrored(t: Tables) {
    forall f :: f in t.identities ==> GapMirrored(t, f)
  }

  // ------------------------------------------------------------------ a reconcile

  /** A reconcile opens a gap for each new feature that declares one, and closes none. */
  lemma GapsAfter(a: Tables, b: Tables, staging: Staging, cite: Citation, m: Moments) returns (plan: Plan)
    requires Reconciled(a, b, staging, cite, m)
    ensures ReconciledBy(a, b, staging, cite, m, plan)
    ensures OpenPairs(b.exceptions, GEOMETRY_DECLARED_GAP) ==
      GapPairs(plan.minted, staging) + OpenPairs(a.exceptions, GEOMETRY_DECLARED_GAP)
  {
    plan := ThePlan(a, b, staging, cite, m);
    PairsAfterLifecycle(a.exceptions, plan.changes, m.closedApn, m.closedGone, GEOMETRY_DECLARED_GAP);
  }

  lemma KnownDeclareNothing(t: Tables, staging: Staging, minted: map<FeatureId, ParcelId>, p: ParcelId)
    requires Minted(t, staging, minted) && p in t.parcels
    ensures !Mentions(GapPairs(minted, staging), p)
  {
  }

  lemma OnlyTheOldOnes(found: Pairs, was: Pairs, p: ParcelId, geometry: Option<Value>, geometry': Option<Value>)
    requires GapsOf(was, p, geometry) && !Mentions(found, p) && (geometry.Some? <==> geometry'.Some?)
    ensures GapsOf(found + was, p, geometry')
  {
    assert forall r: Option<Reason> :: (p, r) in found + was <==> (p, r) in was;
  }

  lemma Compared(t: Tables, staging: Staging, f: FeatureId)
    requires KnownPolygonal(t, staging) && f in t.identities && Decided(t, staging, f)
    ensures Supported(f, staging[f], GeometryField).Some?
  {
    assert f in VisibleIds(t, staging);
  }

  /** A known parcel neither gains nor loses a geometry: what is compared is polygonal. */
  lemma KnownGeometry(a: Tables, now: Time, b: Tables, staging: Staging, cite: Citation, m: Moments, f: FeatureId)
    requires Settled(a, now) && Reconciled(a, b, staging, cite, m) && KnownPolygonal(a, staging) && f in a.identities
    ensures f in b.identities && b.identities[f].parcel == a.identities[f].parcel
    ensures LiveGeometry(b.facts, b.identities[f]).Some? <==> LiveGeometry(a.facts, a.identities[f]).Some?
  {
    OneIdentityGrows(a, now, b, staging, cite, m, f);
    if Decided(a, staging, f) {
      DiffIsRebuild(a, now, b, staging, cite, m, f);
      HoldsMeans(b.facts, b.identities[f], f, staging[f]);
      Compared(a, staging, f);
    } else {
      GeometryStays(a, now, b, staging, cite, m, f);
    }
  }

  lemma KnownGap(a: Tables, now: Time, b: Tables, staging: Staging, cite: Citation, m: Moments, plan: Plan, f: FeatureId)
    requires Settled(a, now) && Reconciled(a, b, staging, cite, m) && ReconciledBy(a, b, staging, cite, m, plan)
    requires f in a.identities && a.identities[f].parcel in a.parcels && GapMirrored(a, f)
    requires OpenPairs(b.exceptions, GEOMETRY_DECLARED_GAP) ==
      GapPairs(plan.minted, staging) + OpenPairs(a.exceptions, GEOMETRY_DECLARED_GAP)
    ensures f in b.identities && GapMirrored(b, f)
  {
    KnownGeometry(a, now, b, staging, cite, m, f);
    KnownDeclareNothing(a, staging, plan.minted, a.identities[f].parcel);
    OnlyTheOldOnes(GapPairs(plan.minted, staging), OpenPairs(a.exceptions, GEOMETRY_DECLARED_GAP), a.identities[f].parcel,
                   LiveGeometry(a.facts, a.identities[f]), LiveGeometry(b.facts, b.identities[f]));
  }

  lemma DeclaredByOne(minted: map<FeatureId, ParcelId>, staging: Staging, was: Pairs, f: FeatureId, geometry: Option<Value>)
    requires Injective(minted) && f in minted && f in staging && !Mentions(was, minted[f])
    requires geometry == Supported(f, staging[f], GeometryField)
    ensures GapsOf(GapPairs(minted, staging) + was, minted[f], geometry)
  {
    var p, reason := minted[f], UnresolvableGeometry(staging[f].geometry);
    assert forall r: Option<Reason> :: (p, r) in GapPairs(minted, staging) <==> reason.Some? && r == reason;
    if reason.Some? { assert (p, reason) in GapPairs(minted, staging) + was; }
  }

  lemma NewGap(a: Tables, now: Time, b: Tables, staging: Staging, cite: Citation, m: Moments, plan: Plan, f: FeatureId)
    requires Kept(a, now) && ReconciledBy(a, b, staging, cite, m, plan) && f in b.identities && f !in a.identities
    requires OpenPairs(b.exceptions, GEOMETRY_DECLARED_GAP) ==
      GapPairs(plan.minted, staging) + OpenPairs(a.exceptions, GEOMETRY_DECLARED_GAP)
    ensures GapMirrored(b, f)
  {
    ParcelAfter(a, staging, cite, plan, m.at, f);
    AllParcelsInjective(a, staging, plan.minted);
    StillWellRecorded(a, now, staging, cite, plan, m, f);
    StrangersAreClosed(a.exceptions, a.parcels, GEOMETRY_DECLARED_GAP, plan.minted[f]);
    DeclaredByOne(plan.minted, staging, OpenPairs(a.exceptions, GEOMETRY_DECLARED_GAP), f, LiveGeometry(b.facts, b.identities[f]));
  }

  lemma ReconcileKeepsGaps(a: Tables, now: Time, b: Tables, staging: Staging, cite: Citation, m: Moments)
    requires Settled(a, now) && Reconciled(a, b, staging, cite, m) && GapsMirrored(a)
    ensures GapsMirrored(b)
  {
    SettledIsKept(a, now);
    var plan := GapsAfter(a, b, staging, cite, m);
    forall f | f in b.identities ensures GapMirrored(b, f) {
      if f in a.identities { KnownGap(a, now, b, staging, cite, m, plan, f); }
      else { NewGap(a, now, b, staging, cite, m, plan, f); }
    }
  }

  // ------------------------------------------------------------------ the other loaders

  lemma ZoningOpensNoGap(a: Tables, now: Time, b: Tables, pg: C.PostGis, districts: ZM.Districts, cite: Citation, m: Z.ZoneMoments)
    requires Settled(a, now) && Z.Zoned(a, b, pg, districts, cite, m)
    ensures OpenPairs(b.exceptions, GEOMETRY_DECLARED_GAP) == OpenPairs(a.exceptions, GEOMETRY_DECLARED_GAP)
  {
    var plan := Z.ZonedWith(a, b, pg, districts, cite, m);
    SettledParts(a, now, now);
    Z.PairsAfterRun(a, C.Recomputed(pg, a.parcels), Z.BadOf(pg, a), Z.ClassesIn(pg, districts, a), cite, plan, m,
                    GEOMETRY_DECLARED_GAP);
  }

  lemma PermitsOpenNoGap(a: Tables, b: Tables, matches: PM.Matches, cite: Citation, m: P.PermitMoments)
    requires PT.Permitted(a, b, matches, cite, m)
    ensures OpenPairs(b.exceptions, GEOMETRY_DECLARED_GAP) == OpenPairs(a.exceptions, GEOMETRY_DECLARED_GAP)
  {
    var plan := PT.PermittedWith(a, b, matches, cite, m);
    P.PairsAfterPermits(a.exceptions, plan.exceptions, plan.confirmed, m.closed,
                        plan.lost - OpenParcels(a.exceptions, PERMIT_ATTRIBUTION_LOST), GEOMETRY_DECLARED_GAP);
  }

  lemma OtherRunsOpenNoGap(a: State, run: Run, b: State)
    requires Settled(a.tables, a.time) && Ran(a, run, b) && !run.Parcels?
    ensures OpenPairs(b.tables.exceptions, GEOMETRY_DECLARED_GAP) == OpenPairs(a.tables.exceptions, GEOMETRY_DECLARED_GAP)
  {
    SeenSettles(a, run);
    match run {
      case Nothing =>
      case Zoning(pg, districts, cite, m, _) => ZoningOpensNoGap(Seen(a, run), a.time, Seen(b, run), pg, districts, cite, m);
      case Permits(matches, cite, m, _) => PermitsOpenNoGap(Seen(a, run), Seen(b, run), matches, cite, m);
    }
  }

  lemma ViewKeepsGaps(a: Tables, b: Tables)
    requires SameParcelsView(a, b) && GapsMirrored(a)
    requires OpenPairs(b.exceptions, GEOMETRY_DECLARED_GAP) == OpenPairs(a.exceptions, GEOMETRY_DECLARED_GAP)
    ensures GapsMirrored(b)
  {
    forall f | f in b.identities ensures GapMirrored(b, f) {
      assert GapMirrored(a, f);
      assert FieldKey(b.identities[f].parcel, GeometryField).source == ParcelsSource;
    }
  }

  // ------------------------------------------------------------------ over a history

  lemma StepKeepsGaps(a: State, run: Run, b: State)
    requires Settled(a.tables, a.time) && Ran(a, run, b) && GapsMirrored(a.tables)
    ensures GapsMirrored(b.tables)
  {
    if run.Parcels? {
      SeenSettles(a, run);
      ReconcileKeepsGaps(Seen(a, run), a.time, Seen(b, run), run.staging, run.cite, run.m);
    } else {
      OtherRunsKeepTheView(a, run, b);
      OtherRunsOpenNoGap(a, run, b);
      ViewKeepsGaps(a.tables, b.tables);
    }
  }

  lemma {:induction false} GapsAlwaysMirrored(states: seq<State>, runs: seq<Run>, n: nat)
    requires History(states, runs) && n < |states| && GapsMirrored(states[0].tables)
    ensures GapsMirrored(states[n].tables)
  {
    if n > 0 {
      GapsAlwaysMirrored(states, runs, n - 1);
      AlwaysSettled(states, runs, n - 1);
      HistoryStep(states, runs, n - 1);
      StepKeepsGaps(states[n - 1], runs[n - 1], states[n]);
    }
  }

  /** At every point of every history that starts so (as empty tables do), a known parcel has
      a live geometry, or exactly one open exception that declares the gap. */
  lemma GeometryOrOneGap(states: seq<State>, runs: seq<Run>, n: nat, f: FeatureId)
    requires History(states, runs) && n < |states| && GapsMirrored(states[0].tables) && f in states[n].tables.identities
    ensures var t := states[n].tables;
      |OpenRows(t.exceptions, GEOMETRY_DECLARED_GAP, t.identities[f].parcel)| ==
        (if LiveGeometry(t.facts, t.identities[f]).Some? then 0 else 1)
  {
    var t := states[n].tables;
    GapsAlwaysMirrored(states, runs, n);
    AlwaysSettled(states, runs, n);
    SettledParts(t, states[n].time, states[n].time);
    assert GapMirrored(t, f);
    OneRow(t.exceptions, GEOMETRY_DECLARED_GAP, t.identities[f].parcel);
  }
}
