/** A concrete run after which a parcel keeps a zoning fact that nothing supports. */
module ZoningWitness {
  import opened Schema
  import opened Ledger
  import opened Identifiers
  import CL = Classification
  import opened Centroids
  import opened ParcelsModel
  import opened ParcelsLists
  import opened ParcelsReconcile
  import opened ParcelsWrites
  import opened ParcelsKeep
  import opened ParcelsTheorems
  import opened ParcelsRun
  import opened ParcelsShortcut
  import opened Invariants
  import opened Database
  import opened Witnesses
  import Z = ZoningModel
  import ZE = ZoningEffect
  import ZT = ZoningTheorems
  import ZR = ZoningRun
  import ZV = Zoning
  import R = Runs

  /** A square is valid and holds every point; a circle is invalid and has no usable repair. */
  const PG := PostGis(g => g == SQUARE, g => g != SQUARE, g => g, g => Point("c"), g => Point("c"), (g, p) => true)

  const ZONES := [Z.ZoneFeature("z", Some("R"), None, Present(SQUARE))]
  const ZONE_CITE := Citation(SnapshotId(ZoningSource, "z"), 0)

  lemma ZonesStage()
    ensures Z.Stageable(ZONES)
  {
  }

  lemma {:induction false} EverywhereIsR(point: Point)
    ensures Z.Stageable(ZONES)
    ensures ZV.ZoningValue(Z.DistrictsOf(PG, ZONES)(point), ZoningDistrict) == Some(Text("R"))
  {
    var candidates := Z.CandidatesAt(PG, ZONES, point);
    assert ZONES[..0] == [] && Z.CandidatesAt(PG, ZONES[..0], point) == [];
    assert candidates == [CL.Candidate("z", Some("R"), None)];
    assert "R" == [] + "R" + [] && !IsSpace('R');
    StripFinds("R", [], "R", []);
    assert candidates[0].zoning == Some("R") && candidates[0] in candidates;
    CL.KindIsDecidedByTheValues(candidates);
  }

  /** Zoning a parcel with the square. */
  lemma ZonedSquare(t: Tables, now: Time, after: Tables, cite: Citation, m: ZE.ZoneMoments, p: ParcelId)
    requires Settled(t, now) && Z.Stageable(ZONES) && ZE.Zoned(t, after, PG, Z.DistrictsOf(PG, ZONES), cite, m)
    requires p in t.parcels && t.parcels[p].jurisdiction == SanJose && t.parcels[p].geom == Some(SQUARE)
    ensures p in after.parcels && after.parcels[p].(centroid := None) == t.parcels[p].(centroid := None)
    ensures LiveValue(after.facts, ZV.ZoneKey(p, ZoningDistrict)) == Some(Text("R"))
    ensures after.identities == t.identities
  {
    SettledIsKept(t, now);
    var plan := ZE.ZonedWith(t, after, PG, Z.DistrictsOf(PG, ZONES), cite, m);
    ZT.ReachesFreshClassification(t, now, after, PG, Z.DistrictsOf(PG, ZONES), cite, m, plan, p, ZoningDistrict);
    EverywhereIsR(after.parcels[p].centroid.value);
  }

  /** Zoning a parcel with the circle and no centroid. */
  lemma ZonedCircle(t: Tables, now: Time, after: Tables, cite: Citation, m: ZE.ZoneMoments, p: ParcelId)
    requires Settled(t, now) && Z.Stageable(ZONES) && ZE.Zoned(t, after, PG, Z.DistrictsOf(PG, ZONES), cite, m)
    requires p in t.parcels && t.parcels[p].geom == Some(CIRCLE) && t.parcels[p].centroid.None?
    ensures p in after.parcels && after.parcels[p] == t.parcels[p]
    ensures LiveValue(after.facts, ZV.ZoneKey(p, ZoningDistrict)) == LiveValue(t.facts, ZV.ZoneKey(p, ZoningDistrict))
  {
    SettledIsKept(t, now);
    var plan := ZE.ZonedWith(t, after, PG, Z.DistrictsOf(PG, ZONES), cite, m);
    ZT.OutOfScopeKeepsItsFacts(t, now, after, PG, Z.DistrictsOf(PG, ZONES), cite, m, plan, p, ZoningDistrict);
  }

  /** Reconciling the square's feature with the circle drops its parcel's centroid and nothing of its zoning. */
  lemma BecomesACircle(t: Tables, now: Time, after: Tables, cite: Citation, m: Moments, later: Time)
    requires Settled(t, now) && "a" in t.identities && LiveGeometry(t.facts, t.identities["a"]) == Some(Shape(SQUARE))
    requires Reconciled(t, after, Only(Some(CIRCLE)), cite, m)
    requires now <= m.started <= m.at < m.closedApn < m.closedGone <= later
    ensures "a" in after.identities && after.identities["a"].parcel == t.identities["a"].parcel
    ensures var p := t.identities["a"].parcel;
      && p in t.parcels && p in after.parcels && after.parcels[p].jurisdiction == t.parcels[p].jurisdiction
      && after.parcels[p].geom == Some(CIRCLE) && after.parcels[p].centroid.None?
      && LiveValue(after.facts, ZV.ZoneKey(p, ZoningDistrict)) == LiveValue(t.facts, ZV.ZoneKey(p, ZoningDistrict))
  {
    SettledIsSound(t, now);
    var p := t.identities["a"].parcel;
    var run := R.Parcels(Only(Some(CIRCLE)), cite, m, t.jobs);
    IdentitiesOnlyGrow(t, now, after, Only(Some(CIRCLE)), cite, m);
    CircledParcel(t, now, after, cite, m);
    R.PhaseEIsARun(t, now, t, after, after, later, false, Only(Some(CIRCLE)), cite, m);
    R.OtherSourceKeeps(R.State(t, now), run, R.State(after, later), ZV.ZoneKey(p, ZoningDistrict));
  }

  lemma CircledParcel(t: Tables, now: Time, after: Tables, cite: Citation, m: Moments)
    requires Settled(t, now) && "a" in t.identities && LiveGeometry(t.facts, t.identities["a"]) == Some(Shape(SQUARE))
    requires Reconciled(t, after, Only(Some(CIRCLE)), cite, m)
    ensures var p := t.identities["a"].parcel;
      && p in t.parcels && p in after.parcels && after.parcels[p].jurisdiction == t.parcels[p].jurisdiction
      && after.parcels[p].geom == Some(CIRCLE) && after.parcels[p].centroid.None?
  {
    SettledIsKept(t, now);
    var plan := ThePlan(t, after, Only(Some(CIRCLE)), cite, m);
    PlannedParcels(t, Only(Some(CIRCLE)), cite, m, after, plan);
    KnownParcelAfter(t, Only(Some(CIRCLE)), cite, plan, "a");
    assert "a" in VisibleIds(t, Only(Some(CIRCLE)));
  }

  lemma ZoningKeepsGeometry(t: Tables, now: Time, after: Tables, cite: Citation, m: ZE.ZoneMoments, id: Identity)
    requires Settled(t, now) && Z.Stageable(ZONES) && ZE.Zoned(t, after, PG, Z.DistrictsOf(PG, ZONES), cite, m)
    requires now <= m.started < m.centroids < m.at < m.closed
    ensures LiveGeometry(after.facts, id) == LiveGeometry(t.facts, id)
  {
    var run := R.Zoning(PG, Z.DistrictsOf(PG, ZONES), cite, m, t.jobs);
    R.LoadZoningIsARun(t, now, t, after, after, m.closed, PG, Z.DistrictsOf(PG, ZONES), cite, m);
    R.OtherSourceKeeps(R.State(t, now), run, R.State(after, m.closed), FieldKey(id.parcel, GeometryField));
  }

  /** One load of the zoning district. */
  method Zone(conn: Connection) returns (end: Ending, ghost t: Tables, ghost now: Time, ghost m: ZE.ZoneMoments, ghost after: Tables)
    requires Steady(conn)
    modifies conn
    ensures Steady(conn) && end.Committed? && Z.Stageable(ZONES)
    ensures PreviousSuccessful(conn.jobs, ParcelsSource) == old(PreviousSuccessful(conn.jobs, ParcelsSource))
    ensures t == old(conn.Image()).(jobs := t.jobs) && Settled(t, now) && now <= m.started < m.centroids < m.at < m.closed
    ensures ZE.Zoned(t, after, PG, Z.DistrictsOf(PG, ZONES), ZONE_CITE, m) && conn.Image() == after.(jobs := conn.jobs)
  {
    ghost var jobs, image := conn.jobs, conn.Image();
    now := conn.clock;
    ZonesStage();
    end, t, m, after := ZR.LoadZoning(conn, PG, ZONES, ZONE_CITE, NoFault);
    SettledLater(image, t.jobs, now, now);
    var row := conn.jobs[|jobs|];
    OthersKeepTheAnchor(jobs, row, ParcelsSource);
    assert AnchoredBefore(jobs + [row], ParcelsSource, conn.clock + 1);
    var plan := ZE.ZonedWith(t, after, PG, Z.DistrictsOf(PG, ZONES), ZONE_CITE, m);
  }

  /** The square, zoned: its parcel holds the district's value. */
  method ZonedParcel() returns (conn: Connection, first: Ending, zoned: Ending)
    ensures fresh(conn) && Steady(conn) && first.Committed? && zoned.Committed?
    ensures PreviousSuccessful(conn.jobs, ParcelsSource) == Some(FIRST)
    ensures conn.identities.Keys == {"a"} && conn.identities["a"] == NewIdentity(conn.identities["a"].parcel, Citation(FIRST, 0))
    ensures LiveGeometry(conn.facts, conn.identities["a"]) == Some(Shape(SQUARE))
    ensures LiveValue(conn.facts, ZV.ZoneKey(conn.identities["a"].parcel, ZoningDistrict)) == Some(Text("R"))
  {
    conn, first := LoadedWith(Present(SQUARE));
    ghost var id := conn.identities["a"];
    ghost var t, now, m, after;
    zoned, t, now, m, after := Zone(conn);
    ZonedSquare(t, now, after, ZONE_CITE, m, id.parcel);
    ZoningKeepsGeometry(t, now, after, ZONE_CITE, m, id);
  }

  lemma CircleFits(t: Tables, at: Time)
    requires OneLive(t.facts) && t.identities.Keys == {"a"} && t.identities["a"].firstSeenAt == 0
    ensures Loadable(t, Only(Some(CIRCLE)), Citation(SECOND, 0), at)
  {
  }

  /** The parcel is zoned, its geometry becomes one no point can be found in, and it is zoned again: it has
      no centroid, and still the zoning of the place it was. */
  method NullCentroidKeepsZoning() returns (p: ParcelId, after: Tables,
                                            first: Ending, zoned: Ending, second: Ending, rezoned: Ending)
    ensures first.Committed? && zoned.Committed? && second.Committed? && rezoned.Committed?
    ensures p in after.parcels && after.parcels[p].geom == Some(CIRCLE) && after.parcels[p].centroid.None?
    ensures LiveValue(after.facts, ZV.ZoneKey(p, ZoningDistrict)) == Some(Text("R"))
  {
    var conn;
    conn, first, zoned := ZonedParcel();
    p := conn.identities["a"].parcel;
    NamedStages(Present(CIRCLE));
    ghost var t, now, m, zm, zonedTables;
    second, t, now, m := Load(conn, [Named(Present(CIRCLE))], SECOND, Only(Some(CIRCLE)));
    CircleFits(t, m.at);
    BecomesACircle(t, now, conn.Image().(jobs := t.jobs), Citation(SECOND, 0), m, m.closedGone);
    rezoned, t, now, zm, zonedTables := Zone(conn);
    ZonedCircle(t, now, zonedTables, ZONE_CITE, zm, p);
    after := conn.Image();
  }
}
