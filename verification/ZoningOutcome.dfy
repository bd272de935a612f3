/** What a committed zoning load leaves in each table, in terms of the features and the tables before. */
module ZoningOutcome {
  import opened Schema
  import opened Ledger
  import opened Exceptions
  import opened Identifiers
  import opened Classification
  import opened Centroids
  import opened Diff
  import opened Findings
  import opened ZoningModel
  import opened Zoning
  import opened ZoningEffect
  import opened ZoningTheorems
  import opened Invariants
  import ParcelsOutcome

  // ------------------------------------------------------------------ what the features say about a point

  /** The repaired geometry of the feature contains the point. */
  ghost predicate Contains(pg: PostGis, f: ZoneFeature, point: Point) {
    f.geometry.Present? && pg.contains(pg.repaired(f.geometry.geometry), point)
  }

  ghost predicate NonBlank(s: Option<string>) {
    s.Some? && exists i :: 0 <= i < |s.value| && !IsSpace(s.value[i])
  }

  /** Some containing feature has this value. */
  ghost predicate Zones(pg: PostGis, features: seq<ZoneFeature>, point: Point, z: string) {
    exists i :: 0 <= i < |features| && Contains(pg, features[i], point) && features[i].zoning == Some(z) && NonBlank(features[i].zoning)
  }

  /** The one value any containing feature has. */
  ghost predicate OneZone(pg: PostGis, features: seq<ZoneFeature>, point: Point, z: string) {
    Zones(pg, features, point, z) && forall z' :: Zones(pg, features, point, z') ==> z' == z
  }

  /** Every containing feature that has the value gives this string beside it. */
  ghost predicate Unanimous(pg: PostGis, features: seq<ZoneFeature>, point: Point, z: string, v: string) {
    forall i :: 0 <= i < |features| && Contains(pg, features[i], point) && features[i].zoning == Some(z) ==>
      features[i].verbatim == Some(v)
  }

  ghost predicate TwoContain(pg: PostGis, features: seq<ZoneFeature>, point: Point) {
    exists i, j :: 0 <= i < j < |features| && Contains(pg, features[i], point) && Contains(pg, features[j], point)
  }

  lemma BlankIsNot(s: Option<string>)
    ensures NonBlank(s) <==> !IsBlank(s)
  {
    BlankMeans(s);
  }

  lemma {:induction false} CandidatesAre(pg: PostGis, features: seq<ZoneFeature>, point: Point, c: Candidate)
    requires Stageable(features)
    ensures c in CandidatesAt(pg, features, point) <==>
      exists i :: 0 <= i < |features| && Contains(pg, features[i], point)
                  && c == Candidate(features[i].facility, features[i].zoning, features[i].verbatim)
    decreases |features|
  {
    if features != [] {
      var n := |features| - 1;
      CandidatesAre(pg, features[..n], point, c);
      if i :| 0 <= i < |features| && Contains(pg, features[i], point)
              && c == Candidate(features[i].facility, features[i].zoning, features[i].verbatim) {
        if i < n { assert features[..n][i] == features[i]; }
      }
      if i :| 0 <= i < n && Contains(pg, features[..n][i], point)
              && c == Candidate(features[..n][i].facility, features[..n][i].zoning, features[..n][i].verbatim) {
        assert features[i] == features[..n][i];
      }
    }
  }

  ghost predicate SomeContains(pg: PostGis, features: seq<ZoneFeature>, point: Point) {
    exists i :: 0 <= i < |features| && Contains(pg, features[i], point)
  }

  /** A load takes exactly a file in which every feature has a geometry that is not null. */
  lemma StageableExactly(features: seq<ZoneFeature>)
    ensures Stageable(features) <==>
      forall i :: 0 <= i < |features| ==> features[i].geometry != Missing && features[i].geometry != Null
  {
    forall i | 0 <= i < |features|
      ensures features[i].geometry.Present? <==> features[i].geometry != Missing && features[i].geometry != Null
    {
    }
  }

  /** More than one candidate is more than one containing feature. */
  lemma {:induction false} CandidatesCount(pg: PostGis, features: seq<ZoneFeature>, point: Point)
    requires Stageable(features)
    ensures CandidatesAt(pg, features, point) != [] <==> SomeContains(pg, features, point)
    ensures |CandidatesAt(pg, features, point)| > 1 <==> TwoContain(pg, features, point)
    decreases |features|
  {
    if features != [] {
      CandidatesCount(pg, features[..|features| - 1], point);
      OneMoreContains(pg, features, point);
    }
  }

  lemma OneMoreContains(pg: PostGis, features: seq<ZoneFeature>, point: Point)
    requires features != []
    ensures var n := |features| - 1;
      && (SomeContains(pg, features, point) <==> SomeContains(pg, features[..n], point) || Contains(pg, features[n], point))
      && (TwoContain(pg, features, point) <==>
            TwoContain(pg, features[..n], point) || (Contains(pg, features[n], point) && SomeContains(pg, features[..n], point)))
  {
    var n := |features| - 1;
    var before := features[..n];
    if i :| 0 <= i < |features| && Contains(pg, features[i], point) { if i < n { assert before[i] == features[i]; } }
    if i :| 0 <= i < n && Contains(pg, before[i], point) { assert Contains(pg, features[i], point); }
    if i, j :| 0 <= i < j < |features| && Contains(pg, features[i], point) && Contains(pg, features[j], point) {
      assert before[i] == features[i];
      if j < n { assert before[j] == features[j]; }
    }
    if i, j :| 0 <= i < j < n && Contains(pg, before[i], point) && Contains(pg, before[j], point) {
      assert Contains(pg, features[i], point) && Contains(pg, features[j], point);
    }
  }

  lemma ZonesAreValues(pg: PostGis, features: seq<ZoneFeature>, point: Point, z: string)
    requires Stageable(features)
    ensures z in NonBlankZoning(CandidatesAt(pg, features, point)) <==> Zones(pg, features, point, z)
  {
    var cs := CandidatesAt(pg, features, point);
    if z in NonBlankZoning(cs) {
      var c := Voter(cs, z);
      CandidatesAre(pg, features, point, c);
      BlankIsNot(c.zoning);
    }
    if i :| 0 <= i < |features| && Contains(pg, features[i], point) && features[i].zoning == Some(z) && NonBlank(features[i].zoning) {
      var c := Candidate(features[i].facility, features[i].zoning, features[i].verbatim);
      CandidatesAre(pg, features, point, c);
      BlankIsNot(c.zoning);
    }
  }

  /** The classification of a point, feature by feature. */
  lemma ClassifiedBy(pg: PostGis, features: seq<ZoneFeature>, point: Point)
    requires Stageable(features)
    ensures var c := Classify(CandidatesAt(pg, features, point));
      && (c.ZeroMatch? <==> forall z :: !Zones(pg, features, point, z))
      && (c.Ambiguous? <==> exists z, z' :: Zones(pg, features, point, z) && Zones(pg, features, point, z') && z != z')
      && (forall z :: c.Matched? && c.zoning == z <==> OneZone(pg, features, point, z))
      && (c.Matched? ==> (c.anomaly.Some? <==> TwoContain(pg, features, point)))
  {
    var cs := CandidatesAt(pg, features, point);
    var values := NonBlankZoning(cs);
    forall z ensures z in values <==> Zones(pg, features, point, z) { ZonesAreValues(pg, features, point, z); }
    AtLeastTwo(values);
    CandidatesCount(pg, features, point);
    if |values| == 1 { OnlyElement(values); }
    forall z ensures Classify(cs).Matched? && Classify(cs).zoning == z <==> OneZone(pg, features, point, z) {
      if OneZone(pg, features, point, z) { assert values == {z}; }
      if |values| == 1 { assert Only(values) in values; }
    }
    assert |values| == 0 <==> values == {};
  }

  lemma VerbatimBy(pg: PostGis, features: seq<ZoneFeature>, point: Point, z: string, v: string)
    requires Stageable(features) && OneZone(pg, features, point, z)
    ensures Classify(CandidatesAt(pg, features, point)).Matched?
    ensures Classify(CandidatesAt(pg, features, point)).verbatim == Some(v) <==> Unanimous(pg, features, point, z, v)
  {
    var cs := CandidatesAt(pg, features, point);
    ClassifiedBy(pg, features, point);
    VerbatimIsUnanimous(cs, v);
    if Unanimous(pg, features, point, z, v) {
      forall c | c in cs && c.zoning == Some(z) ensures c.verbatim == Some(v) { CandidatesAre(pg, features, point, c); }
    } else {
      var i :| 0 <= i < |features| && Contains(pg, features[i], point) && features[i].zoning == Some(z) && features[i].verbatim != Some(v);
      var c := Candidate(features[i].facility, features[i].zoning, features[i].verbatim);
      CandidatesAre(pg, features, point, c);
    }
  }

  // ------------------------------------------------------------------ parcel

  /** The geometry a point is looked for in: the parcel's own when it is valid, its repair otherwise, if that is
      valid and not empty. */
  ghost predicate Searchable(pg: PostGis, p: Parcel, g: Geometry) {
    && p.jurisdiction == SanJose && p.geom.Some?
    && g == (if pg.isValid(p.geom.value) then p.geom.value else pg.repaired(p.geom.value))
    && pg.isValid(g) && !pg.isEmpty(g)
  }

  /** Every parcel stays, and only its centroid may move: it is kept while it lies inside, and otherwise becomes the
      geometry's own centroid if that lies inside, or else a point on its surface. */
  lemma CentroidAfter(a: Tables, b: Tables, pg: PostGis, districts: Districts, cite: Citation, m: ZoneMoments, p: ParcelId)
    requires Zoned(a, b, pg, districts, cite, m)
    ensures b.parcels.Keys == a.parcels.Keys
    ensures p in a.parcels ==>
      && b.parcels[p] == a.parcels[p].(centroid := b.parcels[p].centroid)
      && (forall g :: Searchable(pg, a.parcels[p], g) ==>
            b.parcels[p].centroid ==
              if a.parcels[p].centroid.Some? && pg.contains(g, a.parcels[p].centroid.value) then a.parcels[p].centroid
              else if pg.contains(g, pg.centroid(g)) then Some(pg.centroid(g)) else Some(pg.onSurface(g)))
      && ((forall g :: !Searchable(pg, a.parcels[p], g)) ==> b.parcels[p] == a.parcels[p])
  {
    var plan := ZonedWith(a, b, pg, districts, cite, m);
    if p in a.parcels && a.parcels[p].geom.Some? {
      var geom := a.parcels[p].geom.value;
      var g := if pg.isValid(geom) then geom else pg.repaired(geom);
      assert UsableOf(pg, a.parcels[p]).Some? ==> Searchable(pg, a.parcels[p], g);
    }
  }

  /** A geometry of the jurisdiction, and no point known to be inside it. */
  ghost predicate LeftOver(pg: PostGis, p: Parcel) {
    p.jurisdiction == SanJose && p.geom.Some?
    && forall g :: Searchable(pg, p, g) ==> p.centroid.None? || !pg.contains(g, p.centroid.value)
  }

  lemma LeftOverIs(pg: PostGis, parcels: map<ParcelId, Parcel>, p: ParcelId)
    ensures p in StillNotInterior(pg, parcels) <==> p in parcels && LeftOver(pg, parcels[p])
  {
    if p in parcels && parcels[p].geom.Some? {
      var geom := parcels[p].geom.value;
      var g := if pg.isValid(geom) then geom else pg.repaired(geom);
      assert UsableOf(pg, parcels[p]).Some? ==> Searchable(pg, parcels[p], g);
    }
  }

  /** The parcels that are classified. */
  ghost predicate Placed(pg: PostGis, p: Parcel) {
    p.jurisdiction == SanJose && p.centroid.Some? && !LeftOver(pg, p)
  }

  // ------------------------------------------------------------------ fact

  /** After a load a placed parcel's district is the one non-blank value of the features around its point, if there is
      one, and the string beside it is written exactly when all features with that value agree on it. */
  lemma DistrictAfter(a: Tables, now: Time, b: Tables, pg: PostGis, features: seq<ZoneFeature>, cite: Citation, m: ZoneMoments,
                      p: ParcelId, v: Value)
    requires Settled(a, now) && Stageable(features) && Zoned(a, b, pg, DistrictsOf(pg, features), cite, m)
    requires p in b.parcels && Placed(pg, b.parcels[p])
    ensures var point := b.parcels[p].centroid.value;
      && (LiveValue(b.facts, Key(p, ZoningDistrict, ZoningSource)) == Some(v) <==> v.Text? && OneZone(pg, features, point, v.text))
      && (LiveValue(b.facts, Key(p, ZoningVerbatim, ZoningSource)) == Some(v) <==>
            v.Text? && exists z :: OneZone(pg, features, point, z) && Unanimous(pg, features, point, z, v.text))
  {
    SettledIsKept(a, now);
    var plan := ZonedWith(a, b, pg, DistrictsOf(pg, features), cite, m);
    LeftOverIs(pg, b.parcels, p);
    ReachesFreshClassification(a, now, b, pg, DistrictsOf(pg, features), cite, m, plan, p, ZoningDistrict);
    ReachesFreshClassification(a, now, b, pg, DistrictsOf(pg, features), cite, m, plan, p, ZoningVerbatim);
    ValueOfPoint(pg, features, b.parcels[p].centroid.value, v);
    assert ZoneKey(p, ZoningDistrict) == Key(p, ZoningDistrict, ZoningSource);
    assert ZoneKey(p, ZoningVerbatim) == Key(p, ZoningVerbatim, ZoningSource);
  }

  lemma ValueOfPoint(pg: PostGis, features: seq<ZoneFeature>, point: Point, v: Value)
    requires Stageable(features)
    ensures var c := Classify(CandidatesAt(pg, features, point));
      && (ZoningValue(c, ZoningDistrict) == Some(v) <==> v.Text? && OneZone(pg, features, point, v.text))
      && (ZoningValue(c, ZoningVerbatim) == Some(v) <==>
            v.Text? && exists z :: OneZone(pg, features, point, z) && Unanimous(pg, features, point, z, v.text))
  {
    var c := Classify(CandidatesAt(pg, features, point));
    ClassifiedBy(pg, features, point);
    if v.Text? {
      forall z | OneZone(pg, features, point, z) ensures c.Matched? && (c.verbatim == Some(v.text) <==> Unanimous(pg, features, point, z, v.text)) {
        VerbatimBy(pg, features, point, z, v.text);
      }
      if c.Matched? { assert OneZone(pg, features, point, c.zoning); }
    }
  }

  /** A parcel that is left over holds neither. */
  lemma LeftOverHoldsNothing(a: Tables, now: Time, b: Tables, pg: PostGis, features: seq<ZoneFeature>, cite: Citation, m: ZoneMoments,
                             p: ParcelId)
    requires Settled(a, now) && Stageable(features) && Zoned(a, b, pg, DistrictsOf(pg, features), cite, m)
    requires p in b.parcels && LeftOver(pg, b.parcels[p]) && b.parcels[p].centroid.Some?
    ensures LiveValue(b.facts, Key(p, ZoningDistrict, ZoningSource)).None?
    ensures LiveValue(b.facts, Key(p, ZoningVerbatim, ZoningSource)).None?
  {
    SettledIsKept(a, now);
    var plan := ZonedWith(a, b, pg, DistrictsOf(pg, features), cite, m);
    LeftOverIs(pg, b.parcels, p);
    ReachesFreshClassification(a, now, b, pg, DistrictsOf(pg, features), cite, m, plan, p, ZoningDistrict);
    ReachesFreshClassification(a, now, b, pg, DistrictsOf(pg, features), cite, m, plan, p, ZoningVerbatim);
    assert ZoneKey(p, ZoningDistrict) == Key(p, ZoningDistrict, ZoningSource);
    assert ZoneKey(p, ZoningVerbatim) == Key(p, ZoningVerbatim, ZoningSource);
  }

  /** A new fact is about one of the two fields, cites the run, replaces what was live, and carries no string of its own. */
  lemma NewFactAfter(a: Tables, now: Time, b: Tables, pg: PostGis, districts: Districts, cite: Citation, m: ZoneMoments, i: nat)
    requires Settled(a, now) && Zoned(a, b, pg, districts, cite, m) && |a.facts| <= i < |b.facts|
    ensures var row := b.facts[i];
      && row.key.source == ZoningSource && row.key.field in {ZoningDistrict, ZoningVerbatim}
      && LiveValue(b.facts, row.key) == Some(row.value) != LiveValue(a.facts, row.key)
      && row == Fact(row.key, row.value, cite.snapshot, cite.retrievedAt, None, m.started, LiveId(a.facts, row.key), None)
  {
    SettledIsSound(a, now);
    var plan := ZonedWith(a, b, pg, districts, cite, m);
    var parcels, bad, classes := Recomputed(pg, a.parcels), BadOf(pg, a), ClassesIn(pg, districts, a);
    TargetIsZoning(parcels, classes);
    ZonedRefreshes(a, parcels, bad, classes, cite, plan, m);
    RefreshReaches(a.facts, b.facts, ZoneTarget(parcels, classes), cite, m.started, m.at);
    NewRowAfter(a.facts, ZoneTarget(parcels, classes), plan.retire, plan.rows, cite, m.started, m.at, i);
  }

  /** An old fact is as it was, or had another value than the load finds, and has its end. */
  lemma OldFactAfter(a: Tables, now: Time, b: Tables, pg: PostGis, districts: Districts, cite: Citation, m: ZoneMoments, i: nat)
    requires Settled(a, now) && Zoned(a, b, pg, districts, cite, m) && i < |a.facts|
    ensures i < |b.facts|
    ensures b.facts[i] == a.facts[i] ||
      (a.facts[i].supersededAt.None? && b.facts[i] == a.facts[i].(supersededAt := Some(m.at))
       && LiveValue(b.facts, a.facts[i].key) != Some(a.facts[i].value))
  {
    SettledIsSound(a, now);
    var plan := ZonedWith(a, b, pg, districts, cite, m);
    var parcels, bad, classes := Recomputed(pg, a.parcels), BadOf(pg, a), ClassesIn(pg, districts, a);
    ZonedRefreshes(a, parcels, bad, classes, cite, plan, m);
    RefreshReaches(a.facts, b.facts, ZoneTarget(parcels, classes), cite, m.started, m.at);
    OldRowAfter(a.facts, ZoneTarget(parcels, classes), plan.retire, plan.rows, m.started, m.at, i);
  }

  // ------------------------------------------------------------------ parcel_exception

  /** Why a placed parcel has an open finding. */
  ghost predicate JoinFinding(pg: PostGis, features: seq<ZoneFeature>, point: Point, r: Option<Reason>) {
    || (r == Some(NoContainingDistrict) && forall z :: !Zones(pg, features, point, z))
    || (r == Some(MultipleContainingDistricts)
        && exists z, z' :: Zones(pg, features, point, z) && Zones(pg, features, point, z') && z != z')
    || (r == Some(MultiplePolygonsAgree) && TwoContain(pg, features, point) && exists z :: OneZone(pg, features, point, z))
  }

  lemma ReasonBy(pg: PostGis, features: seq<ZoneFeature>, point: Point, r: Option<Reason>)
    requires Stageable(features)
    ensures r.Some? && r == ReasonOf(Classify(CandidatesAt(pg, features, point))) <==> JoinFinding(pg, features, point, r)
  {
    ClassifiedBy(pg, features, point);
    var c := Classify(CandidatesAt(pg, features, point));
    if c.Matched? { assert OneZone(pg, features, point, c.zoning); }
    if z :| OneZone(pg, features, point, z) { assert c.Matched?; }
  }

  /** The open join findings are exactly, for each placed parcel, that nothing zones it, that its features disagree, or
      that several contain it and agree; the open centroid findings are exactly the parcels left over. */
  lemma FindingsAfter(a: Tables, now: Time, b: Tables, pg: PostGis, features: seq<ZoneFeature>, cite: Citation, m: ZoneMoments,
                      p: ParcelId, r: Option<Reason>)
    requires Settled(a, now) && Stageable(features) && Zoned(a, b, pg, DistrictsOf(pg, features), cite, m)
    ensures ParcelsOutcome.Finds(b, Detector(ZoningUnresolvable, Version(2, 0)), p, r) <==>
      p in b.parcels && Placed(pg, b.parcels[p]) && JoinFinding(pg, features, b.parcels[p].centroid.value, r)
    ensures ParcelsOutcome.Finds(b, Detector(CentroidNotInterior, Version(1, 0)), p, r) <==>
      p in b.parcels && LeftOver(pg, b.parcels[p]) && r == Some(CentroidNotInteriorAfterFallback)
  {
    SettledIsKept(a, now);
    var districts := DistrictsOf(pg, features);
    var plan := ZonedWith(a, b, pg, districts, cite, m);
    FindingsAreFresh(a, now, b, pg, districts, cite, m, plan);
    ParcelsOutcome.FindsIsOpen(b, ZONING_UNRESOLVABLE, p, r);
    ParcelsOutcome.FindsIsOpen(b, CENTROID_NOT_INTERIOR, p, r);
    FreshMeans(pg, features, b.parcels, p, r);
  }

  lemma FreshMeans(pg: PostGis, features: seq<ZoneFeature>, parcels: map<ParcelId, Parcel>, p: ParcelId, r: Option<Reason>)
    requires Stageable(features)
    ensures (p, r) in WithReason(StillTrue(ClassesOf(parcels, StillNotInterior(pg, parcels), DistrictsOf(pg, features)))) <==>
      p in parcels && Placed(pg, parcels[p]) && JoinFinding(pg, features, parcels[p].centroid.value, r)
    ensures (p, r) in WithReason(BadPairs(StillNotInterior(pg, parcels))) <==>
      p in parcels && LeftOver(pg, parcels[p]) && r == Some(CentroidNotInteriorAfterFallback)
  {
    var bad := StillNotInterior(pg, parcels);
    var classes := ClassesOf(parcels, bad, DistrictsOf(pg, features));
    LeftOverIs(pg, parcels, p);
    InWithReason(StillTrue(classes), p, r);
    InWithReason(BadPairs(bad), p, r);
    assert p in classes <==> p in parcels && Placed(pg, parcels[p]);
    if p in classes { ReasonBy(pg, features, parcels[p].centroid.value, r); }
    if r.Some? { assert (p, r.value) in StillTrue(classes) <==> p in classes && ReasonOf(classes[p]) == r; }
  }

  /** A row that was there is as it was, unless it is open, gives a reason, and that is no longer so: then it is closed,
      by its own detector, at that statement's time. */
  lemma OldExceptionAfter(a: Tables, now: Time, b: Tables, pg: PostGis, features: seq<ZoneFeature>, cite: Citation, m: ZoneMoments, i: nat)
    requires Settled(a, now) && Stageable(features) && Zoned(a, b, pg, DistrictsOf(pg, features), cite, m) && i < |a.exceptions|
    requires now <= m.started < m.centroids < m.at < m.closed
    ensures i < |b.exceptions|
    ensures var was := a.exceptions[i];
      b.exceptions[i] ==
        if was.status.Open? && was.detector == Detector(CentroidNotInterior, Version(1, 0)) && was.reason.Some?
           && !(was.parcel in b.parcels && LeftOver(pg, b.parcels[was.parcel]) && was.reason == Some(CentroidNotInteriorAfterFallback))
        then was.(status := Closed(ConditionCleared, m.centroids, ByDetector(CentroidNotInterior)))
        else if was.status.Open? && was.detector == Detector(ZoningUnresolvable, Version(2, 0)) && was.reason.Some?
           && !(was.parcel in b.parcels && Placed(pg, b.parcels[was.parcel])
                && JoinFinding(pg, features, b.parcels[was.parcel].centroid.value, was.reason))
        then was.(status := Closed(ConditionCleared, m.closed, ByDetector(ZoningUnresolvable)))
        else was
  {
    ZonedExtends(a, now, b, pg, DistrictsOf(pg, features), cite, m);
    var plan := ZonedWith(a, b, pg, DistrictsOf(pg, features), cite, m);
    var was := a.exceptions[i];
    FreshMeans(pg, features, b.parcels, was.parcel, was.reason);
    StatusAfter(a.exceptions, BadOf(pg, a), ClassesIn(pg, DistrictsOf(pg, features), a), plan, m, i);
  }

  lemma StatusAfter(rows: Rows, bad: set<ParcelId>, classes: Classes, plan: ZonePlan, m: ZoneMoments, i: nat)
    requires i < |rows| <= |LifecycleOf(rows, bad, classes, plan, m)|
    ensures LifecycleOf(rows, bad, classes, plan, m)[i].status ==
      if rows[i].status.Open? && rows[i].detector == CENTROID_NOT_INTERIOR && rows[i].reason.Some?
         && (rows[i].parcel, rows[i].reason) !in WithReason(BadPairs(bad))
      then Closed(ConditionCleared, m.centroids, ByDetector(CentroidNotInterior))
      else if rows[i].status.Open? && rows[i].detector == ZONING_UNRESOLVABLE && rows[i].reason.Some?
         && (rows[i].parcel, rows[i].reason) !in WithReason(StillTrue(classes))
      then Closed(ConditionCleared, m.closed, ByDetector(ZoningUnresolvable))
      else rows[i].status
  {
    var half := CentroidLifecycle(rows, plan.centroidRows, bad, m.centroids);
    InWithReason(BadPairs(bad), rows[i].parcel, rows[i].reason);
    InWithReason(StillTrue(classes), rows[i].parcel, rows[i].reason);
    assert Append(rows, plan.centroidRows)[i] == rows[i];
    assert half[i] == rows[i].(status := half[i].status);
    LaterStatus(half, StillTrue(classes), plan.exceptions, m.closed, i);
  }

  lemma LaterStatus(rows: Rows, stillTrue: set<(ParcelId, Reason)>, added: seq<NewException>, at: Time, i: nat)
    requires i < |rows|
    ensures i < |ZoneLifecycle(rows, stillTrue, added, at)|
    ensures ZoneLifecycle(rows, stillTrue, added, at)[i].status ==
      if i in NotStillTrue(rows, ZONING_UNRESOLVABLE, stillTrue) then Closed(ConditionCleared, at, ByDetector(ZoningUnresolvable))
      else rows[i].status
  {
  }

  /** A row that is added is open, gives a reason, and is of its detector's type; a centroid finding is never linked. */
  ghost predicate IsNewFinding(row: ExceptionRow) {
    && row.status == Open && row.reason.Some?
    && (|| (row.detector == Detector(CentroidNotInterior, Version(1, 0)) && row.kind == RecordToGround && row.reopenedFrom.None?)
        || (row.detector == Detector(ZoningUnresolvable, Version(2, 0)) && row.kind == CoverageGap))
  }

  lemma NewExceptionAfter(a: Tables, b: Tables, pg: PostGis, districts: Districts, cite: Citation, m: ZoneMoments, i: nat)
    requires Zoned(a, b, pg, districts, cite, m) && |a.exceptions| <= i < |b.exceptions|
    ensures IsNewFinding(b.exceptions[i])
  {
    var plan := ZonedWith(a, b, pg, districts, cite, m);
    AddedAfter(a.exceptions, BadOf(pg, a), StillTrue(ClassesIn(pg, districts, a)), plan.centroidRows, plan.exceptions, m, i);
  }

  lemma AddedAfter(rows: Rows, bad: set<ParcelId>, stillTrue: set<(ParcelId, Reason)>, centroids: seq<NewException>,
                   added: seq<NewException>, m: ZoneMoments, i: nat)
    requires Lists(centroids, CENTROID_NOT_INTERIOR, WithReason(BadPairs(bad - OpenParcels(rows, CENTROID_NOT_INTERIOR))))
    requires FindingsOnly(added, ZONING_UNRESOLVABLE)
    requires |rows| <= i < |ZoneLifecycle(CentroidLifecycle(rows, centroids, bad, m.centroids), stillTrue, added, m.closed)|
    ensures IsNewFinding(ZoneLifecycle(CentroidLifecycle(rows, centroids, bad, m.centroids), stillTrue, added, m.closed)[i])
  {
    var half := CentroidLifecycle(rows, centroids, bad, m.centroids);
    if i < |half| {
      CentroidAdded(rows, bad, centroids, m.centroids, i);
      OthersStay(half, stillTrue, added, m.closed, i);
    } else {
      ZoneAdded(half, stillTrue, added, m.closed, i);
    }
  }

  lemma CentroidAdded(rows: Rows, bad: set<ParcelId>, added: seq<NewException>, at: Time, i: nat)
    requires Lists(added, CENTROID_NOT_INTERIOR, WithReason(BadPairs(bad - OpenParcels(rows, CENTROID_NOT_INTERIOR))))
    requires |rows| <= i < |CentroidLifecycle(rows, added, bad, at)|
    ensures IsNewFinding(CentroidLifecycle(rows, added, bad, at)[i])
    ensures CentroidLifecycle(rows, added, bad, at)[i].detector == CENTROID_NOT_INTERIOR
  {
    var k := i - |rows|;
    assert Append(rows, added)[i] == Detected(added[k]);
    ListedIsBad(added, bad, OpenParcels(rows, CENTROID_NOT_INTERIOR), k);
    assert i !in NotStillTrue(Append(rows, added), CENTROID_NOT_INTERIOR, BadPairs(bad));
  }

  /** Rows of other detectors stay. */
  lemma OthersStay(rows: Rows, stillTrue: set<(ParcelId, Reason)>, added: seq<NewException>, at: Time, i: nat)
    requires i < |rows| && rows[i].detector != ZONING_UNRESOLVABLE
    ensures i < |ZoneLifecycle(rows, stillTrue, added, at)| && ZoneLifecycle(rows, stillTrue, added, at)[i] == rows[i]
  {
  }

  lemma ZoneAdded(rows: Rows, stillTrue: set<(ParcelId, Reason)>, added: seq<NewException>, at: Time, i: nat)
    requires FindingsOnly(added, ZONING_UNRESOLVABLE) && |rows| <= i < |ZoneLifecycle(rows, stillTrue, added, at)|
    ensures IsNewFinding(ZoneLifecycle(rows, stillTrue, added, at)[i])
  {
    var row := added[i - |rows|];
  }

  lemma ListedIsBad(added: seq<NewException>, bad: set<ParcelId>, open: set<ParcelId>, k: nat)
    requires Lists(added, CENTROID_NOT_INTERIOR, WithReason(BadPairs(bad - open))) && k < |added|
    ensures added[k].reason.Some? && (added[k].parcel, added[k].reason.value) in BadPairs(bad)
  {
    assert (added[k].parcel, added[k].reason) in AddedPairs(added, CENTROID_NOT_INTERIOR);
    InWithReason(BadPairs(bad - open), added[k].parcel, added[k].reason);
  }
}
