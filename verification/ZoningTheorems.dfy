/** What a committed zoning run means. */
module ZoningTheorems {
  import opened Schema
  import opened Ledger
  import opened Exceptions
  import opened Classification
  import opened Centroids
  import opened Diff
  import opened Findings
  import opened ZoningModel
  import opened Zoning
  import opened ZoningEffect
  import opened Invariants

  /** A parcel in scope holds the fresh classification of its point, or nothing when that
      is none or the point is known to be outside; the open findings are exactly the fresh ones. */
  lemma ReachesFreshClassification(a: Tables, now: Time, b: Tables, pg: PostGis, districts: Districts, cite: Citation,
                                   m: ZoneMoments, plan: ZonePlan, p: ParcelId, field: Field)
    requires Kept(a, now) && ZonedBy(a, b, pg, districts, cite, m, plan)
    requires p in Scope(b.parcels) && field in ZONING_FIELDS
    ensures LiveValue(b.facts, ZoneKey(p, field)) ==
      if p in StillNotInterior(pg, b.parcels) then None else ZoningValue(districts(b.parcels[p].centroid.value), field)
  {
    var parcels, bad, classes := Recomputed(pg, a.parcels), BadOf(pg, a), ClassesIn(pg, districts, a);
    TargetIsZoning(parcels, classes);
    ZonedRefreshes(a, parcels, bad, classes, cite, plan, m);
    RefreshReaches(a.facts, b.facts, ZoneTarget(parcels, classes), cite, m.started, m.at);
    assert ZoneKey(p, field) in ZoneTarget(parcels, classes);
  }

  lemma FindingsAreFresh(a: Tables, now: Time, b: Tables, pg: PostGis, districts: Districts, cite: Citation, m: ZoneMoments, plan: ZonePlan)
    requires Kept(a, now) && ZonedBy(a, b, pg, districts, cite, m, plan)
    ensures OpenPairs(b.exceptions, ZONING_UNRESOLVABLE)
         == WithReason(StillTrue(ClassesOf(b.parcels, StillNotInterior(pg, b.parcels), districts)))
    ensures OpenPairs(b.exceptions, CENTROID_NOT_INTERIOR) == WithReason(BadPairs(StillNotInterior(pg, b.parcels)))
  {
    var parcels, bad, classes := Recomputed(pg, a.parcels), BadOf(pg, a), ClassesIn(pg, districts, a);
    PairsAfterRun(a, parcels, bad, classes, cite, plan, m, ZONING_UNRESOLVABLE);
    PairsAfterRun(a, parcels, bad, classes, cite, plan, m, CENTROID_NOT_INTERIOR);
  }

  /** A parcel without a centroid is out of scope: whatever zoning facts it had, it keeps. */
  lemma OutOfScopeKeepsItsFacts(a: Tables, now: Time, b: Tables, pg: PostGis, districts: Districts, cite: Citation,
                                m: ZoneMoments, plan: ZonePlan, p: ParcelId, field: Field)
    requires Kept(a, now) && ZonedBy(a, b, pg, districts, cite, m, plan) && p !in Scope(b.parcels)
    ensures LiveId(b.facts, ZoneKey(p, field)) == LiveId(a.facts, ZoneKey(p, field))
    ensures LiveValue(b.facts, ZoneKey(p, field)) == LiveValue(a.facts, ZoneKey(p, field))
  {
    var parcels, bad, classes := Recomputed(pg, a.parcels), BadOf(pg, a), ClassesIn(pg, districts, a);
    TargetIsZoning(parcels, classes);
    ZonedRefreshes(a, parcels, bad, classes, cite, plan, m);
    RefreshLeaves(a.facts, b.facts, ZoneTarget(parcels, classes), cite, m.started, m.at, ZoneKey(p, field));
  }

  /** Facts of every other source, and exceptions of every other detector, are the same rows. */
  lemma ZoningIsLocal(a: Tables, b: Tables, pg: PostGis, districts: Districts, cite: Citation, m: ZoneMoments, plan: ZonePlan)
    requires ZonedBy(a, b, pg, districts, cite, m, plan)
    ensures forall i {:trigger b.facts[i]} :: 0 <= i < |b.facts| && b.facts[i].key.source != ZoningSource ==>
      i < |a.facts| && b.facts[i] == a.facts[i]
    ensures SameFor(a.exceptions, b.exceptions, {ZONING_UNRESOLVABLE, CENTROID_NOT_INTERIOR})
  {
    var parcels, bad, classes := Recomputed(pg, a.parcels), BadOf(pg, a), ClassesIn(pg, districts, a);
    TargetIsZoning(parcels, classes);
    ZonedRefreshes(a, parcels, bad, classes, cite, plan, m);
    RefreshIsLocal(a.facts, b.facts, ZoneTarget(parcels, classes), cite, m.started, m.at, ZoningSource);
    LifecycleIsLocal(a.exceptions, bad, classes, plan, m);
  }

  lemma LifecycleIsLocal(rows: Rows, bad: set<ParcelId>, classes: Classes, plan: ZonePlan, m: ZoneMoments)
    requires FindingsOnly(plan.centroidRows, CENTROID_NOT_INTERIOR) && FindingsOnly(plan.exceptions, ZONING_UNRESOLVABLE)
    ensures SameFor(rows, LifecycleOf(rows, bad, classes, plan, m), {ZONING_UNRESOLVABLE, CENTROID_NOT_INTERIOR})
  {
    var ours := {ZONING_UNRESOLVABLE, CENTROID_NOT_INTERIOR};
    var more := Append(rows, plan.centroidRows);
    var half := CentroidLifecycle(rows, plan.centroidRows, bad, m.centroids);
    AppendIsLocal(rows, plan.centroidRows, ours);
    CloseIsLocal(more, NotStillTrue(more, CENTROID_NOT_INTERIOR, BadPairs(bad)), ConditionCleared, ByDetector(CentroidNotInterior),
                 m.centroids, ours);
    SameThrough(rows, more, half, ours);
    ZoneLifecycleIsLocal(half, StillTrue(classes), plan.exceptions, m.closed, ours);
    SameThrough(rows, half, LifecycleOf(rows, bad, classes, plan, m), ours);
  }

  lemma ZoneLifecycleIsLocal(rows: Rows, stillTrue: set<(ParcelId, Reason)>, added: seq<NewException>, at: Time, ours: set<Detector>)
    requires FindingsOnly(added, ZONING_UNRESOLVABLE) && ZONING_UNRESOLVABLE in ours
    ensures SameFor(rows, ZoneLifecycle(rows, stillTrue, added, at), ours)
  {
    var hit := NotStillTrue(rows, ZONING_UNRESOLVABLE, stillTrue);
    var r := Close(rows, hit, ConditionCleared, ByDetector(ZoningUnresolvable), at);
    CloseIsLocal(rows, hit, ConditionCleared, ByDetector(ZoningUnresolvable), at, ours);
    AppendIsLocal(r, added, ours);
    RelinkIsLocal(Append(r, added), ZONING_UNRESOLVABLE, ours);
    SameThrough(rows, r, Append(r, added), ours);
    SameThrough(rows, Append(r, added), Relink(Append(r, added), ZONING_UNRESOLVABLE), ours);
  }

  // ------------------------------------------------------------------ a second run on the same snapshot

  lemma NoneToClose(rows: Rows, d: Detector, stillTrue: set<(ParcelId, Reason)>)
    requires OpenPairs(rows, d) <= WithReason(stillTrue)
    ensures NotStillTrue(rows, d, stillTrue) == {}
  {
    forall i: nat | i < |rows| && IsOpen(rows, i) && rows[i].detector == d && rows[i].reason.Some?
      ensures (rows[i].parcel, rows[i].reason.value) in stillTrue
    {
      assert (rows[i].parcel, rows[i].reason) in OpenPairs(rows, d);
      InWithReason(stillTrue, rows[i].parcel, rows[i].reason);
    }
  }

  lemma NothingLeftToBad(rows: Rows, bad: set<ParcelId>)
    requires OpenPairs(rows, CENTROID_NOT_INTERIOR) == WithReason(BadPairs(bad))
    ensures WithReason(BadPairs(bad - OpenParcels(rows, CENTROID_NOT_INTERIOR))) == {}
  {
    forall p | p in bad ensures p in OpenParcels(rows, CENTROID_NOT_INTERIOR) {
      assert (p, CentroidNotInteriorAfterFallback) in BadPairs(bad);
      InWithReason(BadPairs(bad), p, Some(CentroidNotInteriorAfterFallback));
      OpenMeansOpenParcel(rows, CENTROID_NOT_INTERIOR, p);
    }
    assert bad - OpenParcels(rows, CENTROID_NOT_INTERIOR) == {};
    assert BadPairs({}) == {};
  }

  /** The lifecycle of findings that are all open already changes no row. */
  lemma IdleLifecycle(rows: Rows, bad: set<ParcelId>, classes: Classes, plan: ZonePlan, m: ZoneMoments)
    requires OpenPairs(rows, ZONING_UNRESOLVABLE) == WithReason(StillTrue(classes))
    requires OpenPairs(rows, CENTROID_NOT_INTERIOR) == WithReason(BadPairs(bad))
    requires plan.centroidRows == [] && plan.exceptions == []
    ensures LifecycleOf(rows, bad, classes, plan, m) == rows
  {
    assert Append(rows, []) == rows;
    NoneToClose(rows, CENTROID_NOT_INTERIOR, BadPairs(bad));
    NoneToClose(rows, ZONING_UNRESOLVABLE, StillTrue(classes));
    assert Close(rows, {}, ConditionCleared, ByDetector(CentroidNotInterior), m.centroids) == rows;
    assert Close(rows, {}, ConditionCleared, ByDetector(ZoningUnresolvable), m.closed) == rows;
  }

  /** What is written does not depend on what other sources hold, even for the same parcel and field. */
  lemma ForeignFactsDoNotMatter(a: Tables, a': Tables, b: Tables, b': Tables, pg: PostGis, districts: Districts, cite: Citation,
                                m: ZoneMoments, m': ZoneMoments, plan: ZonePlan, plan': ZonePlan, k: Key, v: Value)
    requires ZonedBy(a, b, pg, districts, cite, m, plan) && ZonedBy(a', b', pg, districts, cite, m', plan')
    requires a'.parcels == a.parcels
    requires forall x: Key :: x.source == ZoningSource ==> LiveValue(a'.facts, x) == LiveValue(a.facts, x)
    ensures Writes(plan.rows, k, v) <==> Writes(plan'.rows, k, v)
  {
    var parcels, classes := Recomputed(pg, a.parcels), ClassesIn(pg, districts, a);
    assert ClassesIn(pg, districts, a') == classes;
    TargetIsZoning(parcels, classes);
    Ledger.ForeignFactsDoNotMatter(a.facts, a'.facts, ZoneTarget(parcels, classes), ZoningSource,
                                   plan.retire, plan'.retire, plan.rows, plan'.rows, k, v);
  }

  /** Running the same snapshot again, with nothing run in between, changes nothing at all. */
  lemma SecondRunIsIdle(a: Tables, now: Time, b: Tables, later: Time, c: Tables, pg: PostGis, districts: Districts, cite: Citation,
                        m: ZoneMoments, plan: ZonePlan, cite': Citation, m': ZoneMoments, plan': ZonePlan)
    requires Kept(a, now) && ZonedBy(a, b, pg, districts, cite, m, plan)
    requires Kept(b, later) && ZonedBy(b, c, pg, districts, cite', m', plan')
    ensures c == b
  {
    RecomputedIsStable(pg, a.parcels);
    var parcels, bad, classes := b.parcels, BadOf(pg, b), ClassesIn(pg, districts, b);
    FindingsAreFresh(a, now, b, pg, districts, cite, m, plan);
    NothingLeftToBad(b.exceptions, bad);
    NoPairs(plan'.centroidRows, CENTROID_NOT_INTERIOR);
    NoPairs(plan'.exceptions, ZONING_UNRESOLVABLE);
    IdleLifecycle(b.exceptions, bad, classes, plan', m');
    ZonedRefreshes(b, parcels, bad, classes, cite', plan', m');
    TargetIsZoning(parcels, classes);
    forall k | k in ZoneTarget(parcels, classes) ensures ZoneTarget(parcels, classes)[k] == LiveValue(b.facts, k) {
      ReachesFreshClassification(a, now, b, pg, districts, cite, m, plan, k.parcel, k.field);
    }
    RefreshIsIdle(b.facts, c.facts, ZoneTarget(parcels, classes), cite', m'.started, m'.at);
  }
}
