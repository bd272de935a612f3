/** Concrete runs of the loaders that end where their documentation says they cannot. */
module Witnesses {
  import opened Schema
  import opened Ledger
  import opened Identifiers
  import opened ParcelsModel
  import opened ParcelsLists
  import opened ParcelsReconcile
  import opened ParcelsWrites
  import opened ParcelsKeep
  import opened ParcelsTheorems
  import opened ParcelsRun
  import opened ParcelsShortcut
  import opened Invariants
  import opened Database

  const SQUARE := Geometry(Polygon, "square")
  const CIRCLE := Geometry(Polygon, "circle")

  const FIRST := SnapshotId(ParcelsSource, "1")
  const SECOND := SnapshotId(ParcelsSource, "2")
  const THIRD := SnapshotId(ParcelsSource, "3")

  /** The one feature of these snapshots; its parcel never has a number. */
  function Named(g: GeometryProperty): Feature {
    Feature(Some("a"), None, g)
  }

  function Only(g: Option<Geometry>): Staging {
    map["a" := Staged(None, g)]
  }

  lemma {:induction false} NamedStages(g: GeometryProperty)
    requires !g.Missing?
    ensures Stageable([Named(g)]) && StagingOf([Named(g)]) == Only(GeometryParam(g))
  {
    assert "a" == [] + "a" + [] && !IsSpace('a');
    StripFinds("a", [], "a", []);
    var features := [Named(g)];
    StagedAt(features, 0);
    forall id | id in StagingOf(features) ensures id == "a" { var i := StagedFrom(features, id); }
  }

  /** Every anchor is in the past. */
  ghost predicate Steady(conn: Connection)
    reads conn
  {
    && conn.Idle() && Settled(conn.Image(), conn.clock) && Fresh(conn)
    && AnchoredBefore(conn.jobs, ParcelsSource, conn.clock + 1)
  }

  /** One full load of a new snapshot, fetched at time zero. */
  method Load(conn: Connection, features: seq<Feature>, s: SnapshotId, ghost staging: Staging)
    returns (end: Ending, ghost before: Tables, ghost now: Time, ghost m: Moments)
    requires Steady(conn) && Stageable(features) && staging == StagingOf(features)
    requires PreviousSuccessful(conn.jobs, ParcelsSource) != Some(s)
    modifies conn
    ensures Steady(conn)
    ensures before == old(conn.Image()).(jobs := before.jobs) && Settled(before, now)
    ensures OneLive(before.facts) && now <= m.started <= m.at < m.closedApn < m.closedGone
    ensures end.Committed? <==> Loadable(before, staging, Citation(s, 0), m.at)
    ensures end.Committed? ==> Reconciled(before, conn.Image().(jobs := before.jobs), staging, Citation(s, 0), m)
    ensures end.Committed? ==> PreviousSuccessful(conn.jobs, ParcelsSource) == Some(s)
    ensures !end.Committed? ==> conn.Image() == before.(jobs := conn.jobs)
  {
    ghost var jobs, clock := conn.jobs, conn.clock;
    ghost var same, staged, after;
    now := conn.clock;
    SettledIsSound(conn.Image(), now);
    end, before, same, staged, m, after := PhaseE(conn, features, Citation(s, 0), NoFault, false);
    SettledLater(old(conn.Image()), before.jobs, now, now);
    var row := conn.jobs[|jobs|];
    if end.Committed? {
      ItIsTheSame(before, after, conn.Image(), staging, Citation(s, 0), m);
      LatestSuccessIsTheAnchor(jobs, row);
    }
    assert AnchoredBefore(jobs + [row], ParcelsSource, conn.clock + 1);
  }

  lemma ItIsTheSame(before: Tables, after: Tables, image: Tables, staging: Staging, cite: Citation, m: Moments)
    requires Reconciled(before, after, staging, cite, m) && image == after.(jobs := image.jobs)
    ensures Reconciled(before, image.(jobs := before.jobs), staging, cite, m)
  {
    var plan := ThePlan(before, after, staging, cite, m);
    assert after == image.(jobs := before.jobs);
  }

  // ------------------------------------------------------------------ one load at a time

  lemma FirstFits(t: Tables, g: Option<Geometry>, cite: Citation, at: Time)
    requires OneLive(t.facts) && t.identities == map[]
    ensures Loadable(t, Only(g), cite, at)
  {
  }

  lemma PlannedIdentities(t: Tables, s: Staging, cite: Citation, m: Moments, after: Tables, plan: Plan)
    requires ReconciledBy(t, after, s, cite, m, plan)
    ensures IdentityPlan(t, s, cite, plan) && after.identities == IdentitiesAfter(t.identities, plan, cite, m.at)
  {
  }

  lemma FirstIdentityOf(t: Tables, s: Staging, cite: Citation, plan: Plan, at: Time)
    requires IdentityPlan(t, s, cite, plan) && t.identities == map[] && s.Keys == {"a"}
    ensures var r := IdentitiesAfter(t.identities, plan, cite, at);
      r.Keys == {"a"} && r["a"] == NewIdentity(r["a"].parcel, cite)
  {
    IdentityAfter(t, s, cite, plan, at, "a");
  }

  lemma FirstIdentity(t: Tables, s: Staging, cite: Citation, m: Moments, after: Tables)
    requires OneLive(t.facts) && t.identities == map[] && s.Keys == {"a"} && Reconciled(t, after, s, cite, m)
    ensures after.identities.Keys == {"a"}
    ensures after.identities["a"] == NewIdentity(after.identities["a"].parcel, cite)
  {
    var plan := ThePlan(t, after, s, cite, m);
    PlannedIdentities(t, s, cite, m, after, plan);
    FirstIdentityOf(t, s, cite, plan, m.at);
  }

  lemma PlannedParcels(t: Tables, s: Staging, cite: Citation, m: Moments, after: Tables, plan: Plan)
    requires ReconciledBy(t, after, s, cite, m, plan)
    ensures after.parcels == ParcelsAfter(t.parcels, plan) && Minted(t, s, plan.minted)
    ensures NewRowsPlanned(s, cite, plan.minted, plan.parcelRows, plan.identityRows)
    ensures UpdatesPlan(Observed(t.facts, t.identities, s, cite), VisibleIds(t, s), plan.changes)
  {
  }

  lemma FirstParcel(t: Tables, now: Time, s: Staging, cite: Citation, m: Moments, after: Tables)
    requires Settled(t, now) && t.identities == map[] && s.Keys == {"a"} && Reconciled(t, after, s, cite, m)
    ensures "a" in after.identities && after.identities["a"].parcel in after.parcels
    ensures after.parcels[after.identities["a"].parcel] == NewParcel(s["a"])
  {
    SettledIsSound(t, now);
    SettledParts(t, now, now);
    var plan := ThePlan(t, after, s, cite, m);
    PlannedIdentities(t, s, cite, m, after, plan);
    PlannedParcels(t, s, cite, m, after, plan);
    IdentityAfter(t, s, cite, plan, m.at, "a");
    NewParcelAfter(t, s, cite, plan, "a");
  }

  lemma FirstGeometry(t: Tables, now: Time, s: Staging, cite: Citation, m: Moments, after: Tables)
    requires Settled(t, now) && t.identities == map[] && s.Keys == {"a"} && Reconciled(t, after, s, cite, m)
    ensures "a" in after.identities
    ensures LiveGeometry(after.facts, after.identities["a"]) == Supported("a", s["a"], GeometryField)
  {
    DiffIsRebuild(t, now, after, s, cite, m, "a");
    HeldGeometry(after.facts, after.identities["a"], s["a"]);
  }

  lemma HeldGeometry(facts: seq<Fact>, id: Identity, s: Staged)
    requires HoldsFeature(facts, id.parcel, "a", s)
    ensures LiveGeometry(facts, id) == Supported("a", s, GeometryField)
  {
    assert FieldKey(id.parcel, GeometryField).field == GeometryField;
  }

  /** A database holding the first load of the feature. */
  method LoadedWith(g: GeometryProperty) returns (conn: Connection, end: Ending)
    requires !g.Missing?
    ensures fresh(conn) && Steady(conn) && end.Committed? && PreviousSuccessful(conn.jobs, ParcelsSource) == Some(FIRST)
    ensures conn.identities.Keys == {"a"} && conn.identities["a"] == NewIdentity(conn.identities["a"].parcel, Citation(FIRST, 0))
    ensures LiveGeometry(conn.facts, conn.identities["a"]) == Supported("a", Staged(None, GeometryParam(g)), GeometryField)
    ensures conn.identities["a"].parcel in conn.parcels
    ensures conn.parcels[conn.identities["a"].parcel] == NewParcel(Staged(None, GeometryParam(g)))
  {
    conn := new Connection(EMPTY, 0, 0);
    EmptyIsSettled();
    NamedStages(g);
    ghost var before, now, m;
    end, before, now, m := Load(conn, [Named(g)], FIRST, Only(GeometryParam(g)));
    FirstFits(before, GeometryParam(g), Citation(FIRST, 0), m.at);
    FirstIdentity(before, Only(GeometryParam(g)), Citation(FIRST, 0), m, conn.Image().(jobs := before.jobs));
    FirstGeometry(before, now, Only(GeometryParam(g)), Citation(FIRST, 0), m, conn.Image().(jobs := before.jobs));
    FirstParcel(before, now, Only(GeometryParam(g)), Citation(FIRST, 0), m, conn.Image().(jobs := before.jobs));
  }

  // ------------------------------------------------------------------ the shortcut after a fetch

  lemma ChangeIsLost(t: Tables, now: Time)
    requires Settled(t, now) && "a" in t.identities && LiveGeometry(t.facts, t.identities["a"]) == Some(Shape(SQUARE))
    ensures forall full, m :: Reconciled(t, full, Only(Some(CIRCLE)), Citation(SECOND, 0), m) ==> full != t
  {
    SettledIsKept(t, now);
    assert "a" in VisibleIds(t, Only(Some(CIRCLE))) && !AgreesWith(t, Only(Some(CIRCLE)), "a");
    forall full, m | Reconciled(t, full, Only(Some(CIRCLE)), Citation(SECOND, 0), m) ensures full != t {
      SkippingIsSoundIffConverged(t, now, full, Only(Some(CIRCLE)), Citation(SECOND, 0), m);
    }
  }

  method Refetch(conn: Connection)
    requires Steady(conn)
    modifies conn
    ensures Steady(conn) && conn.Image() == old(conn.Image()).(jobs := conn.jobs)
    ensures PreviousSuccessful(conn.jobs, ParcelsSource) == Some(SECOND)
  {
    ghost var loaded, clock := conn.Image(), conn.clock;
    var job := RecordFetch(conn, SECOND);
    LatestSuccessIsTheAnchor(loaded.jobs, conn.jobs[job]);
    SettledLater(loaded, conn.jobs, clock, conn.clock);
  }

  /** The same snapshot is fetched again, changed; the load that follows skips it, and so does every
      later one, though the anchor is by then a full load. */
  method FetchedChangeIsSkipped() returns (skipped: Tables, first: Ending, second: Ending, third: Ending)
    ensures first.Committed? && second.Committed? && third.Committed?
    ensures PreviousSuccessful(skipped.jobs, ParcelsSource) == Some(SECOND)
    ensures skipped.jobs != [] && skipped.jobs[|skipped.jobs| - 1].key == FullLoad
    ensures "a" in skipped.identities
    ensures LiveGeometry(skipped.facts, skipped.identities["a"]) == Some(Shape(SQUARE))
    ensures forall full, m :: Reconciled(skipped, full, Only(Some(CIRCLE)), Citation(SECOND, 0), m) ==> full != skipped
  {
    var conn;
    conn, first := LoadedWith(Present(SQUARE));
    ghost var loaded := conn.Image();
    Refetch(conn);
    NamedStages(Present(CIRCLE));
    second := Skip(conn, loaded);
    third := Skip(conn, loaded);
    skipped := conn.Image();
    ChangeIsLost(skipped, conn.clock);
  }

  method Skip(conn: Connection, ghost loaded: Tables) returns (end: Ending)
    requires Steady(conn) && PreviousSuccessful(conn.jobs, ParcelsSource) == Some(SECOND)
    requires conn.Image() == loaded.(jobs := conn.jobs) && Stageable([Named(Present(CIRCLE))])
    requires "a" in loaded.identities && loaded.identities["a"].retiredAt.None?
    modifies conn
    ensures Steady(conn) && PreviousSuccessful(conn.jobs, ParcelsSource) == Some(SECOND)
    ensures conn.Image() == loaded.(jobs := conn.jobs) && end.Committed?
    ensures conn.jobs != [] && conn.jobs[|conn.jobs| - 1].key == FullLoad
  {
    ghost var jobs := conn.jobs;
    ghost var t, same, staging, m, after;
    assert Parses([Named(Present(CIRCLE))][0]);
    end, t, same, staging, m, after := PhaseE(conn, [Named(Present(CIRCLE))], Citation(SECOND, 0), NoFault, false);
    var row := conn.jobs[|jobs|];
    LatestSuccessIsTheAnchor(jobs, row);
    assert AnchoredBefore(jobs + [row], ParcelsSource, conn.clock + 1);
  }

  // ------------------------------------------------------------------ a feature first seen without a geometry

  /** Known, and without a live geometry. */
  ghost predicate Untracked(t: Tables) {
    t.identities.Keys == {"a"} && LiveGeometry(t.facts, t.identities["a"]).None?
  }

  lemma NothingStages()
    ensures Stageable([]) && StagingOf([]) == map[]
  {
  }

  lemma UntrackedFits(t: Tables, s: Staging, cite: Citation, at: Time)
    requires OneLive(t.facts) && Untracked(t) && (t.identities["a"].retiredAt.None? ==> t.identities["a"].lastSeenAt <= at)
    ensures Loadable(t, s, cite, at)
  {
    ChangedAreVisible(t, s);
    assert VisibleIds(t, s) == {};
  }

  lemma UntrackedStays(t: Tables, now: Time, s: Staging, cite: Citation, m: Moments, after: Tables)
    requires Settled(t, now) && Untracked(t) && s.Keys <= {"a"} && Reconciled(t, after, s, cite, m)
    ensures Untracked(after)
    ensures after.identities["a"].retiredAt.Some? <==> "a" !in s || t.identities["a"].retiredAt.Some?
  {
    UnseenForEver(t, now, after, s, cite, m, "a");
    IdentitiesOnlyGrow(t, now, after, s, cite, m);
    TheRestIsLeftAlone(t, now, after, s, cite, m, "a");
  }

  /** A null geometry, an absence, a polygon: the feature is in the last snapshot, the load succeeded,
      and the feature is still retired and without a geometry.  Loading that snapshot once more takes
      the shortcut, which refuses it. */
  method StrandedForGood() returns (after: Tables, first: Ending, second: Ending, third: Ending, fourth: Ending)
    ensures first.Committed? && second.Committed? && third.Committed? && !fourth.Committed?
    ensures Stranded(after, "a") && LiveFeatures(after) != Only(Some(SQUARE)).Keys
    ensures !HoldsFeature(after.facts, after.identities["a"].parcel, "a", Staged(None, Some(SQUARE)))
  {
    var conn;
    conn, first := LoadedWith(Null);
    ghost var before, now, m;
    NothingStages();
    second, before, now, m := Load(conn, [], SECOND, map[]);
    UntrackedFits(before, map[], Citation(SECOND, 0), m.at);
    UntrackedStays(before, now, map[], Citation(SECOND, 0), m, conn.Image().(jobs := before.jobs));
    NamedStages(Present(SQUARE));
    third, before, now, m := Load(conn, [Named(Present(SQUARE))], THIRD, Only(Some(SQUARE)));
    UntrackedFits(before, Only(Some(SQUARE)), Citation(THIRD, 0), m.at);
    UntrackedStays(before, now, Only(Some(SQUARE)), Citation(THIRD, 0), m, conn.Image().(jobs := before.jobs));
    after := conn.Image();
    NotHeld(after);
    fourth := Refused(conn);
  }

  lemma NotHeld(t: Tables)
    requires Untracked(t) && t.identities["a"].retiredAt.Some?
    ensures Stranded(t, "a") && "a" !in LiveFeatures(t)
    ensures !HoldsFeature(t.facts, t.identities["a"].parcel, "a", Staged(None, Some(SQUARE)))
  {
    if HoldsFeature(t.facts, t.identities["a"].parcel, "a", Staged(None, Some(SQUARE))) {
      HeldGeometry(t.facts, t.identities["a"], Staged(None, Some(SQUARE)));
    }
  }

  method Refused(conn: Connection) returns (end: Ending)
    requires Steady(conn) && PreviousSuccessful(conn.jobs, ParcelsSource) == Some(THIRD)
    requires "a" in conn.identities && conn.identities["a"].retiredAt.Some?
    modifies conn
    ensures !end.Committed?
  {
    ghost var t, same, staging, m, after;
    assert [Named(Present(SQUARE))][0].parcelId.value == "a";
    end, t, same, staging, m, after := PhaseE(conn, [Named(Present(SQUARE))], Citation(THIRD, 0), NoFault, false);
  }

  // ------------------------------------------------------------------ a known feature whose geometry goes bad

  /** A polygon, then a null geometry: the second run cannot commit, and nothing of it is kept. */
  method BadGeometryStopsTheRun() returns (first: Ending, second: Ending, before: Tables, after: Tables)
    ensures first.Committed? && !second.Committed? && after == before.(jobs := after.jobs)
  {
    var conn;
    conn, first := LoadedWith(Present(SQUARE));
    before := conn.Image();
    NamedStages(Null);
    ghost var t, now, m;
    second, t, now, m := Load(conn, [Named(Null)], SECOND, Only(None));
    assert "a" in VisibleIds(t, Only(None));
    after := conn.Image();
  }

  // ------------------------------------------------------------------ an instant with two facts

  const NUMBER := Key(0, Apn, ParcelsSource)
  const OLD_FACT := Fact(NUMBER, Text("1"), FIRST, 0, None, 1, None, None)
  const NEW_ROW := NewFact(NUMBER, Text("2"), SECOND, 0, None, Some(0), {})

  /** The transaction starts at five and retires the old number at seven: at six both are in force. */
  lemma BothNumbersAtSix(after: seq<Fact>)
    requires after == Write([OLD_FACT], {0}, [NEW_ROW], 5, 7)
    ensures Refreshed([OLD_FACT], after, map[NUMBER := Some(Text("2"))], Citation(SECOND, 0), 5, 7)
    ensures after[1].supersedes == Some(0) && 0 in AsOf(after, 6) && 1 in AsOf(after, 6)
  {
    var before, target := [OLD_FACT], map[NUMBER := Some(Text("2"))];
    LiveIdIs(before, 0);
    NothingPlanned(before);
    PlanStep(before, map[], {}, [], NUMBER, Some(Text("2")), {0}, [NEW_ROW]);
    assert target == map[][NUMBER := Some(Text("2"))];
    assert Cites([NEW_ROW], Citation(SECOND, 0));
    ReplacedAndSuccessorOverlap(before, after, target, Citation(SECOND, 0), 5, 7, 6, 0, 1);
  }
}
