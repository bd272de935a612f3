/** What one committed zoning run does to the tables, and what that keeps. */
module ZoningEffect {
  import opened Schema
  import opened Ledger
  import opened Exceptions
  import opened Centroids
  import opened Diff
  import opened Findings
  import opened ZoningModel
  import opened Zoning
  import opened Invariants
  import opened ParcelsModel

  datatype ZoneMoments = ZoneMoments(started: Time, centroids: Time, at: Time, closed: Time)

  datatype ZonePlan = ZonePlan(centroidRows: seq<NewException>, retire: set<nat>, rows: seq<NewFact>, exceptions: seq<NewException>)

  /** Insert, then close by exclusion; never relinked. */
  function CentroidLifecycle(rows: Rows, added: seq<NewException>, bad: set<ParcelId>, at: Time): Rows {
    var r := Append(rows, added);
    Close(r, NotStillTrue(r, CENTROID_NOT_INTERIOR, BadPairs(bad)), ConditionCleared, ByDetector(CentroidNotInterior), at)
  }

  /** Close by exclusion, then insert and relink. */
  function ZoneLifecycle(rows: Rows, stillTrue: set<(ParcelId, Reason)>, added: seq<NewException>, at: Time): Rows {
    var r := Close(rows, NotStillTrue(rows, ZONING_UNRESOLVABLE, stillTrue), ConditionCleared, ByDetector(ZoningUnresolvable), at);
    if added == [] then r else Relink(Append(r, added), ZONING_UNRESOLVABLE)
  }

  ghost function ZoneTarget(parcels: map<ParcelId, Parcel>, classes: Classes): Target {
    TargetOver(ZoneKeys(Scope(parcels)), WantedZoning(classes))
  }

  function BadOf(pg: PostGis, t: Tables): set<ParcelId> {
    StillNotInterior(pg, Recomputed(pg, t.parcels))
  }

  function ClassesIn(pg: PostGis, districts: Districts, t: Tables): Classes {
    ClassesOf(Recomputed(pg, t.parcels), BadOf(pg, t), districts)
  }

  ghost predicate ZonePlanned(t: Tables, parcels: map<ParcelId, Parcel>, bad: set<ParcelId>, classes: Classes, cite: Citation, plan: ZonePlan) {
    && Lists(plan.centroidRows, CENTROID_NOT_INTERIOR, WithReason(BadPairs(bad - OpenParcels(t.exceptions, CENTROID_NOT_INTERIOR))))
    && PlannedOver(t.facts, ZoneKeys(Scope(parcels)), WantedZoning(classes), cite, plan.retire, plan.rows)
    && Lists(plan.exceptions, ZONING_UNRESOLVABLE, WithReason(StillTrue(classes)) - OpenPairs(t.exceptions, ZONING_UNRESOLVABLE))
  }

  function LifecycleOf(rows: Rows, bad: set<ParcelId>, classes: Classes, plan: ZonePlan, m: ZoneMoments): Rows {
    ZoneLifecycle(CentroidLifecycle(rows, plan.centroidRows, bad, m.centroids), StillTrue(classes), plan.exceptions, m.closed)
  }

  function AfterZoning(t: Tables, parcels: map<ParcelId, Parcel>, bad: set<ParcelId>, classes: Classes, plan: ZonePlan, m: ZoneMoments): Tables {
    Tables(Write(t.facts, plan.retire, plan.rows, m.started, m.at), LifecycleOf(t.exceptions, bad, classes, plan, m),
           t.identities, parcels, t.jobs)
  }

  ghost predicate ZonedBy(a: Tables, b: Tables, pg: PostGis, districts: Districts, cite: Citation, m: ZoneMoments, plan: ZonePlan) {
    var parcels, bad, classes := Recomputed(pg, a.parcels), BadOf(pg, a), ClassesIn(pg, districts, a);
    ZonePlanned(a, parcels, bad, classes, cite, plan) && b == AfterZoning(a, parcels, bad, classes, plan, m)
  }

  // ------------------------------------------------------------------ open findings afterwards

  lemma InWithReason(pairs: set<(ParcelId, Reason)>, p: ParcelId, r: Option<Reason>)
    ensures (p, r) in WithReason(pairs) <==> r.Some? && (p, r.value) in pairs
  {
    if r.Some? && (p, r.value) in pairs { assert (p, r.value).0 == p; }
  }

  lemma CentroidPairsAfter(rows: Rows, added: seq<NewException>, bad: set<ParcelId>, at: Time, d: Detector)
    requires Lists(added, CENTROID_NOT_INTERIOR, WithReason(BadPairs(bad - OpenParcels(rows, CENTROID_NOT_INTERIOR)))) && OwnReasons(rows)
    ensures OpenPairs(CentroidLifecycle(rows, added, bad, at), d) ==
      if d == CENTROID_NOT_INTERIOR then WithReason(BadPairs(bad)) else OpenPairs(rows, d)
  {
    var r := Append(rows, added);
    PairsAfterAppend(rows, added, d);
    PairsAfterCloseByExclusion(r, CENTROID_NOT_INTERIOR, BadPairs(bad), ConditionCleared, ByDetector(CentroidNotInterior), at, d);
    if d == CENTROID_NOT_INTERIOR {
      forall p: ParcelId, reason: Option<Reason>
        ensures (p, reason) in OpenPairs(CentroidLifecycle(rows, added, bad, at), d) <==> (p, reason) in WithReason(BadPairs(bad))
      {
        OneCentroidPair(rows, bad, p, reason);
      }
    } else {
      OtherPairsAdded(added, CENTROID_NOT_INTERIOR, d);
    }
  }

  lemma OtherPairsAdded(added: seq<NewException>, d: Detector, e: Detector)
    requires FindingsOnly(added, d) && e != d
    ensures AddedPairs(added, e) == {}
  {
  }

  /** A pair is wanted exactly when it is open already or newly listed, and is not excluded. */
  lemma OneCentroidPair(rows: Rows, bad: set<ParcelId>, p: ParcelId, reason: Option<Reason>)
    requires OwnReasons(rows)
    ensures var listed := WithReason(BadPairs(bad - OpenParcels(rows, CENTROID_NOT_INTERIOR)));
      (p, reason) in WithReason(BadPairs(bad)) <==>
        ((p, reason) in OpenPairs(rows, CENTROID_NOT_INTERIOR) || (p, reason) in listed)
        && (reason.None? || (p, reason.value) in BadPairs(bad))
  {
    InWithReason(BadPairs(bad), p, reason);
    InWithReason(BadPairs(bad - OpenParcels(rows, CENTROID_NOT_INTERIOR)), p, reason);
    OpenMeansOpenParcel(rows, CENTROID_NOT_INTERIOR, p);
    var own := Some(CentroidNotInteriorAfterFallback);
    assert forall r: Option<Reason> :: (p, r) in OpenPairs(rows, CENTROID_NOT_INTERIOR) ==> r == own;
  }

  lemma ZonePairsAfter(rows: Rows, stillTrue: set<(ParcelId, Reason)>, added: seq<NewException>, at: Time, known: Pairs, d: Detector)
    requires Lists(added, ZONING_UNRESOLVABLE, WithReason(stillTrue) - known) && known == OpenPairs(rows, ZONING_UNRESOLVABLE)
    requires forall p, r: Option<Reason> :: (p, r) in known ==> r.Some?
    ensures OpenPairs(ZoneLifecycle(rows, stillTrue, added, at), d) ==
      if d == ZONING_UNRESOLVABLE then WithReason(stillTrue) else OpenPairs(rows, d)
  {
    var r := Close(rows, NotStillTrue(rows, ZONING_UNRESOLVABLE, stillTrue), ConditionCleared, ByDetector(ZoningUnresolvable), at);
    PairsAfterCloseByExclusion(rows, ZONING_UNRESOLVABLE, stillTrue, ConditionCleared, ByDetector(ZoningUnresolvable), at, d);
    PairsAfterAppend(r, added, d);
    PairsAfterRelink(Append(r, added), ZONING_UNRESOLVABLE, d);
    forall p: ParcelId, reason: Option<Reason> ensures (p, reason) in WithReason(stillTrue) <==> reason.Some? && (p, reason.value) in stillTrue {
      InWithReason(stillTrue, p, reason);
    }
    if d != ZONING_UNRESOLVABLE { OtherPairsAdded(added, ZONING_UNRESOLVABLE, d); }
  }

  // ------------------------------------------------------------------ the lifecycle's invariants

  lemma CentroidHolds(rows: Rows, now: Time, added: seq<NewException>, bad: set<ParcelId>, at: Time)
    requires ExceptionsHold(rows, now) && now < at
    requires Lists(added, CENTROID_NOT_INTERIOR, WithReason(BadPairs(bad - OpenParcels(rows, CENTROID_NOT_INTERIOR))))
    ensures CanAdd(rows, added) && ExceptionsHold(CentroidLifecycle(rows, added, bad, at), at)
  {
    forall p: ParcelId, reason: Option<Reason>
      ensures !((p, reason) in AddedPairs(added, CENTROID_NOT_INTERIOR) && (p, reason) in OpenPairs(rows, CENTROID_NOT_INTERIOR))
    {
      InWithReason(BadPairs(bad - OpenParcels(rows, CENTROID_NOT_INTERIOR)), p, reason);
      OpenMeansOpenParcel(rows, CENTROID_NOT_INTERIOR, p);
    }
    FindingsCanBeAdded(rows, added, CENTROID_NOT_INTERIOR);
    AddHolds(rows, now, added, CENTROID_NOT_INTERIOR);
    var r := Append(rows, added);
    CloseHolds(r, now, NotStillTrue(r, CENTROID_NOT_INTERIOR, BadPairs(bad)), ConditionCleared, ByDetector(CentroidNotInterior), at);
  }

  lemma ZoneHolds(rows: Rows, now: Time, stillTrue: set<(ParcelId, Reason)>, added: seq<NewException>, at: Time)
    requires ExceptionsHold(rows, now) && now < at
    requires Lists(added, ZONING_UNRESOLVABLE, WithReason(stillTrue) - OpenPairs(rows, ZONING_UNRESOLVABLE))
    ensures CanAdd(Close(rows, NotStillTrue(rows, ZONING_UNRESOLVABLE, stillTrue), ConditionCleared, ByDetector(ZoningUnresolvable), at), added)
    ensures ExceptionsHold(ZoneLifecycle(rows, stillTrue, added, at), at)
  {
    var r := Close(rows, NotStillTrue(rows, ZONING_UNRESOLVABLE, stillTrue), ConditionCleared, ByDetector(ZoningUnresolvable), at);
    CloseHolds(rows, now, NotStillTrue(rows, ZONING_UNRESOLVABLE, stillTrue), ConditionCleared, ByDetector(ZoningUnresolvable), at);
    PairsAfterCloseByExclusion(rows, ZONING_UNRESOLVABLE, stillTrue, ConditionCleared, ByDetector(ZoningUnresolvable), at, ZONING_UNRESOLVABLE);
    FindingsCanBeAdded(r, added, ZONING_UNRESOLVABLE);
    AddAndRelinkHolds(r, at, added, ZONING_UNRESOLVABLE);
  }

  ghost predicate SameSubjects(rows: Rows, added: seq<NewException>, r: Rows) {
    |r| == |rows| + |added| && forall i {:trigger r[i]} :: 0 <= i < |r| ==>
      r[i].parcel == if i < |rows| then rows[i].parcel else added[i - |rows|].parcel
  }

  lemma CentroidSubjects(rows: Rows, added: seq<NewException>, bad: set<ParcelId>, at: Time)
    ensures SameSubjects(rows, added, CentroidLifecycle(rows, added, bad, at))
  {
  }

  lemma RelinkedSubjects(rows: Rows, added: seq<NewException>, d: Detector)
    ensures SameSubjects(rows, added, Relink(Append(rows, added), d))
  {
  }

  lemma ClosedSubjects(rows: Rows, hit: set<nat>, outcome: Outcome, actor: Actor, at: Time)
    ensures SameSubjects(rows, [], Close(rows, hit, outcome, actor, at))
  {
  }

  lemma SubjectsThrough(rows: Rows, closed: Rows, added: seq<NewException>, r: Rows)
    requires SameSubjects(rows, [], closed) && SameSubjects(closed, added, r)
    ensures SameSubjects(rows, added, r)
  {
  }

  lemma ZoneSubjects(rows: Rows, stillTrue: set<(ParcelId, Reason)>, added: seq<NewException>, at: Time)
    ensures SameSubjects(rows, added, ZoneLifecycle(rows, stillTrue, added, at))
  {
    var hit := NotStillTrue(rows, ZONING_UNRESOLVABLE, stillTrue);
    ClosedSubjects(rows, hit, ConditionCleared, ByDetector(ZoningUnresolvable), at);
    RelinkedSubjects(Close(rows, hit, ConditionCleared, ByDetector(ZoningUnresolvable), at), added, ZONING_UNRESOLVABLE);
    SubjectsThrough(rows, Close(rows, hit, ConditionCleared, ByDetector(ZoningUnresolvable), at), added,
                    ZoneLifecycle(rows, stillTrue, added, at));
  }

  lemma ReferAfter(rows: Rows, added: seq<NewException>, r: Rows, d: Detector, pairs: Pairs, parcels: map<ParcelId, Parcel>)
    requires ExceptionsRefer(rows, parcels) && SameSubjects(rows, added, r) && Lists(added, d, pairs)
    requires forall x :: x in pairs ==> x.0 in parcels
    ensures ExceptionsRefer(r, parcels)
  {
    forall j | 0 <= j < |added| ensures added[j].parcel in parcels {
      assert (added[j].parcel, added[j].reason) in AddedPairs(added, d);
    }
  }

  // ------------------------------------------------------------------ a committed run keeps everything

  lemma ScopeIsKnown(pg: PostGis, t: Tables)
    ensures SameButCentroid(t.parcels, Recomputed(pg, t.parcels))
    ensures forall p :: p in Scope(Recomputed(pg, t.parcels)) || p in BadOf(pg, t) ==> p in t.parcels
  {
    RecomputedIsStable(pg, t.parcels);
  }

  lemma TargetIsZoning(parcels: map<ParcelId, Parcel>, classes: Classes)
    ensures forall k :: k in ZoneTarget(parcels, classes) ==>
      k.source == ZoningSource && k.field in ZONING_FIELDS && k.parcel in Scope(parcels) && k == ZoneKey(k.parcel, k.field)
    ensures forall p, field :: p in Scope(parcels) && field in ZONING_FIELDS ==> ZoneKey(p, field) in ZoneTarget(parcels, classes)
  {
    forall p, field | p in Scope(parcels) && field in ZONING_FIELDS ensures ZoneKey(p, field) in ZoneKeys(Scope(parcels)) {
    }
  }

  lemma ZonedRefreshes(t: Tables, parcels: map<ParcelId, Parcel>, bad: set<ParcelId>, classes: Classes, cite: Citation,
                       plan: ZonePlan, m: ZoneMoments)
    requires ZonePlanned(t, parcels, bad, classes, cite, plan)
    ensures Refreshed(t.facts, AfterZoning(t, parcels, bad, classes, plan, m).facts, ZoneTarget(parcels, classes), cite, m.started, m.at)
  {
    assert Planned(t.facts, ZoneTarget(parcels, classes), plan.retire, plan.rows) && Cites(plan.rows, cite);
  }

  lemma ReasonsAreOfScope(pg: PostGis, t: Tables, districts: Districts)
    ensures forall x :: x in WithReason(StillTrue(ClassesIn(pg, districts, t))) ==> x.0 in t.parcels
    ensures forall x, open :: x in WithReason(BadPairs(BadOf(pg, t) - open)) ==> x.0 in t.parcels
  {
  }

  /** The open findings after a run: exactly what the run found true, for both
      detectors, and everything as it was for every other. */
  lemma PairsAfterRun(t: Tables, parcels: map<ParcelId, Parcel>, bad: set<ParcelId>, classes: Classes, cite: Citation,
                      plan: ZonePlan, m: ZoneMoments, d: Detector)
    requires OwnReasons(t.exceptions) && ZonePlanned(t, parcels, bad, classes, cite, plan)
    ensures OpenPairs(LifecycleOf(t.exceptions, bad, classes, plan, m), d) ==
      if d == ZONING_UNRESOLVABLE then WithReason(StillTrue(classes))
      else if d == CENTROID_NOT_INTERIOR then WithReason(BadPairs(bad))
      else OpenPairs(t.exceptions, d)
  {
    var half := CentroidLifecycle(t.exceptions, plan.centroidRows, bad, m.centroids);
    CentroidPairsAfter(t.exceptions, plan.centroidRows, bad, m.centroids, d);
    CentroidPairsAfter(t.exceptions, plan.centroidRows, bad, m.centroids, ZONING_UNRESOLVABLE);
    ZonePairsAfter(half, StillTrue(classes), plan.exceptions, m.closed, OpenPairs(half, ZONING_UNRESOLVABLE), d);
  }

  lemma LifecycleHolds(t: Tables, now: Time, parcels: map<ParcelId, Parcel>, bad: set<ParcelId>, classes: Classes, cite: Citation,
                       plan: ZonePlan, m: ZoneMoments)
    requires ExceptionsHold(t.exceptions, now) && OwnReasons(t.exceptions) && ZonePlanned(t, parcels, bad, classes, cite, plan)
    requires now < m.centroids < m.closed
    ensures ExceptionsHold(LifecycleOf(t.exceptions, bad, classes, plan, m), m.closed)
  {
    var half := CentroidLifecycle(t.exceptions, plan.centroidRows, bad, m.centroids);
    CentroidHolds(t.exceptions, now, plan.centroidRows, bad, m.centroids);
    CentroidPairsAfter(t.exceptions, plan.centroidRows, bad, m.centroids, ZONING_UNRESOLVABLE);
    ZoneHolds(half, m.centroids, StillTrue(classes), plan.exceptions, m.closed);
  }

  lemma ReasonsAfterRun(t: Tables, parcels: map<ParcelId, Parcel>, bad: set<ParcelId>, classes: Classes, cite: Citation,
                        plan: ZonePlan, m: ZoneMoments)
    requires OwnReasons(t.exceptions) && ZonePlanned(t, parcels, bad, classes, cite, plan)
    ensures OwnReasons(LifecycleOf(t.exceptions, bad, classes, plan, m))
  {
    PairsAfterRun(t, parcels, bad, classes, cite, plan, m, ZONING_UNRESOLVABLE);
    PairsAfterRun(t, parcels, bad, classes, cite, plan, m, CENTROID_NOT_INTERIOR);
    forall p: ParcelId, r: Option<Reason>
      ensures (p, r) in WithReason(StillTrue(classes)) ==> r.Some?
      ensures (p, r) in WithReason(BadPairs(bad)) ==> r == Some(CentroidNotInteriorAfterFallback)
    {
      InWithReason(StillTrue(classes), p, r);
      InWithReason(BadPairs(bad), p, r);
    }
  }

  lemma SubjectsAfterRun(t: Tables, parcels: map<ParcelId, Parcel>, bad: set<ParcelId>, classes: Classes, cite: Citation,
                         plan: ZonePlan, m: ZoneMoments)
    requires ZonePlanned(t, parcels, bad, classes, cite, plan) && ExceptionsRefer(t.exceptions, parcels)
    requires forall x :: x in WithReason(StillTrue(classes)) ==> x.0 in parcels
    requires forall x :: x in WithReason(BadPairs(bad - OpenParcels(t.exceptions, CENTROID_NOT_INTERIOR))) ==> x.0 in parcels
    ensures ExceptionsRefer(LifecycleOf(t.exceptions, bad, classes, plan, m), parcels)
  {
    var half := CentroidLifecycle(t.exceptions, plan.centroidRows, bad, m.centroids);
    CentroidSubjects(t.exceptions, plan.centroidRows, bad, m.centroids);
    ReferAfter(t.exceptions, plan.centroidRows, half, CENTROID_NOT_INTERIOR,
               WithReason(BadPairs(bad - OpenParcels(t.exceptions, CENTROID_NOT_INTERIOR))), parcels);
    ZoneSubjects(half, StillTrue(classes), plan.exceptions, m.closed);
    ReferAfter(half, plan.exceptions, ZoneLifecycle(half, StillTrue(classes), plan.exceptions, m.closed), ZONING_UNRESOLVABLE,
               WithReason(StillTrue(classes)) - OpenPairs(t.exceptions, ZONING_UNRESOLVABLE), parcels);
  }

  /** A committed zoning run keeps every invariant. */
  lemma ZonedKeeps(a: Tables, now: Time, b: Tables, pg: PostGis, districts: Districts, cite: Citation, m: ZoneMoments, plan: ZonePlan)
    requires Kept(a, now) && ZonedBy(a, b, pg, districts, cite, m, plan)
    requires now <= m.started < m.centroids < m.at < m.closed
    ensures Kept(b, m.closed)
  {
    var parcels, bad, classes := Recomputed(pg, a.parcels), BadOf(pg, a), ClassesIn(pg, districts, a);
    ScopeIsKnown(pg, a);
    TargetIsZoning(parcels, classes);
    ReasonsAreOfScope(pg, a, districts);
    ZonedRefreshes(a, parcels, bad, classes, cite, plan, m);
    PairsAfterRun(a, parcels, bad, classes, cite, plan, m, APN_UNRESOLVABLE);
    PairsAfterRun(a, parcels, bad, classes, cite, plan, m, PARCEL_DISAPPEARED);
    PairsAfterRun(a, parcels, bad, classes, cite, plan, m, PERMIT_ATTRIBUTION_LOST);
    LifecycleHolds(a, now, parcels, bad, classes, cite, plan, m);
    SubjectsAfterRun(a, parcels, bad, classes, cite, plan, m);
    ReasonsAfterRun(a, parcels, bad, classes, cite, plan, m);
    PermitsUnmoved(a.facts, b.facts, a.exceptions, b.exceptions, ZoneTarget(parcels, classes), cite, m.started, m.at);
    OtherLoaderKeeps(a, now, b, m.closed, ZoneTarget(parcels, classes), cite, m.started, m.at);
  }

  /** `b` is `a` after a committed zoning run.  Only proofs that mention `Inside` look further. */
  ghost predicate Zoned(a: Tables, b: Tables, pg: PostGis, districts: Districts, cite: Citation, m: ZoneMoments) {
    forall u {:trigger Inside(u)} :: Inside(u) && u == a ==> exists plan :: ZonedBy(u, b, pg, districts, cite, m, plan)
  }

  lemma ZonedWith(a: Tables, b: Tables, pg: PostGis, districts: Districts, cite: Citation, m: ZoneMoments) returns (plan: ZonePlan)
    requires Zoned(a, b, pg, districts, cite, m)
    ensures ZonedBy(a, b, pg, districts, cite, m, plan)
  {
    assert Inside(a);
    plan :| ZonedBy(a, b, pg, districts, cite, m, plan);
  }

  lemma ZonedSettles(a: Tables, now: Time, b: Tables, pg: PostGis, districts: Districts, cite: Citation, m: ZoneMoments)
    requires Settled(a, now) && Zoned(a, b, pg, districts, cite, m)
    requires now <= m.started < m.centroids < m.at < m.closed
    ensures Settled(b, m.closed)
  {
    SettledIsKept(a, now);
    var plan := ZonedWith(a, b, pg, districts, cite, m);
    ZonedKeeps(a, now, b, pg, districts, cite, m, plan);
    SettledIsKept(b, m.closed);
  }

  lemma CentroidExtends(rows: Rows, added: seq<NewException>, bad: set<ParcelId>, at: Time)
    ensures RowsExtend(rows, CentroidLifecycle(rows, added, bad, at))
  {
    var r := Append(rows, added);
    AppendExtends(rows, added);
    CloseExtends(r, NotStillTrue(r, CENTROID_NOT_INTERIOR, BadPairs(bad)), ConditionCleared, ByDetector(CentroidNotInterior), at);
    RowsThrough(rows, r, CentroidLifecycle(rows, added, bad, at));
  }

  lemma ZoneExtends(rows: Rows, now: Time, stillTrue: set<(ParcelId, Reason)>, added: seq<NewException>, at: Time)
    requires ExceptionsHold(rows, now) && now < at
    requires Lists(added, ZONING_UNRESOLVABLE, WithReason(stillTrue) - OpenPairs(rows, ZONING_UNRESOLVABLE))
    ensures RowsExtend(rows, ZoneLifecycle(rows, stillTrue, added, at))
  {
    var hit := NotStillTrue(rows, ZONING_UNRESOLVABLE, stillTrue);
    var r := Close(rows, hit, ConditionCleared, ByDetector(ZoningUnresolvable), at);
    ZoneHolds(rows, now, stillTrue, added, at);
    CloseHolds(rows, now, hit, ConditionCleared, ByDetector(ZoningUnresolvable), at);
    CloseExtends(rows, hit, ConditionCleared, ByDetector(ZoningUnresolvable), at);
    RelinkExtends(r, added, ZONING_UNRESOLVABLE, at);
    if added != [] { RowsThrough(rows, r, Relink(Append(r, added), ZONING_UNRESOLVABLE)); }
  }

  lemma ZonedExtends(a: Tables, now: Time, b: Tables, pg: PostGis, districts: Districts, cite: Citation, m: ZoneMoments)
    requires Settled(a, now) && Zoned(a, b, pg, districts, cite, m) && now <= m.started < m.centroids < m.at < m.closed
    ensures RowsExtend(a.exceptions, b.exceptions)
  {
    var plan := ZonedWith(a, b, pg, districts, cite, m);
    var bad, classes := BadOf(pg, a), ClassesIn(pg, districts, a);
    var half := CentroidLifecycle(a.exceptions, plan.centroidRows, bad, m.centroids);
    SettledParts(a, now, now);
    CentroidExtends(a.exceptions, plan.centroidRows, bad, m.centroids);
    CentroidHolds(a.exceptions, now, plan.centroidRows, bad, m.centroids);
    CentroidPairsAfter(a.exceptions, plan.centroidRows, bad, m.centroids, ZONING_UNRESOLVABLE);
    ZoneExtends(half, m.centroids, StillTrue(classes), plan.exceptions, m.closed);
    RowsThrough(a.exceptions, half, b.exceptions);
  }
}
