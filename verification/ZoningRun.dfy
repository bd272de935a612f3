/** `load_zoning` as one transaction on a connection. */
module ZoningRun {
  import opened Schema
  import opened Ledger
  import opened Exceptions
  import opened Classification
  import opened Centroids
  import opened Diff
  import opened Findings
  import opened ZoningModel
  import opened Zoning
  import opened ZoningEffect
  import opened Invariants
  import opened Database

  // ------------------------------------------------------------------ writing

  /** The parcels left without an interior point: open what is new, close what is over. */
  method WriteCentroids(conn: Connection, bad: set<ParcelId>, ghost before: Rows, ghost at: Time, fault: Fault, step: nat)
    returns (p: Progress, added: seq<NewException>)
    requires before == conn.exceptions && at == conn.clock + 1 && ExceptionsHold(before, conn.clock)
    modifies conn`exceptions, conn`clock
    ensures conn.clock >= old(conn.clock)
    ensures Lists(added, CENTROID_NOT_INTERIOR, WithReason(BadPairs(bad - OpenParcels(before, CENTROID_NOT_INTERIOR))))
    ensures p.Going? <==> fault.Spares(step, step + 2)
    ensures p.Going? ==> conn.clock == at && conn.exceptions == CentroidLifecycle(before, added, bad, at)
  {
    added := ListCentroids(bad, OpenParcels(conn.exceptions, CENTROID_NOT_INTERIOR));
    CentroidHolds(before, conn.clock, added, bad, at);
    p := fault.At(step);
    if p != Going { return; }
    if added != [] {
      var r := conn.InsertExceptions(added);
      if r != WriteResult.Done { p := Raised; return; }
    }
    p := fault.At(step + 1);
    if p != Going { return; }
    var closed := conn.CloseResolvedExceptions(CENTROID_NOT_INTERIOR, BadPairs(bad));
  }

  /** The findings about the join itself: close what is over, open what is new, link. */
  method WriteZoneFindings(conn: Connection, stillTrue: set<(ParcelId, Reason)>, added: seq<NewException>, ghost before: Rows,
                           ghost at: Time, fault: Fault, step: nat) returns (p: Progress)
    requires before == conn.exceptions && at == conn.clock + 1 && ExceptionsHold(before, conn.clock)
    requires Lists(added, ZONING_UNRESOLVABLE, WithReason(stillTrue) - OpenPairs(before, ZONING_UNRESOLVABLE))
    modifies conn`exceptions, conn`clock
    ensures conn.clock >= old(conn.clock)
    ensures p.Going? <==> fault.Spares(step, step + 3)
    ensures p.Going? ==> conn.clock == at && conn.exceptions == ZoneLifecycle(before, stillTrue, added, at)
  {
    ZoneHolds(before, conn.clock, stillTrue, added, at);
    p := fault.At(step);
    if p != Going { return; }
    var closed := conn.CloseResolvedExceptions(ZONING_UNRESOLVABLE, stillTrue);
    p := fault.At(step + 1);
    if p != Going { return; }
    if added != [] {
      var r := conn.InsertExceptions(added);
      if r != WriteResult.Done { p := Raised; return; }
    }
    p := fault.At(step + 2);
    if p != Going { return; }
    if added != [] { conn.RelinkReopenedExceptions(ZONING_UNRESOLVABLE); }
  }

  // ------------------------------------------------------------------ planning

  lemma GroupsClassifyAlike(pg: PostGis, features: seq<ZoneFeature>, parcels: map<ParcelId, Parcel>, bad: set<ParcelId>,
                            rows: seq<JoinRow>, groups: Groups)
    requires Stageable(features) && Joined(rows, pg, features, parcels, Scope(parcels) - bad)
    requires forall p :: multiset(GroupOf(groups, p)) == BagOf(rows, p)
    ensures var classes := ClassesOf(parcels, bad, DistrictsOf(pg, features));
      && classes.Keys == Scope(parcels) - bad
      && forall p :: p in classes ==> Classify(GroupOf(groups, p)) == classes[p]
  {
    forall p | p in Scope(parcels) - bad
      ensures Classify(GroupOf(groups, p)) == DistrictsOf(pg, features)(parcels[p].centroid.value)
    {
      ClassifyDependsOnTheBag(GroupOf(groups, p), CandidatesAt(pg, features, parcels[p].centroid.value));
    }
  }

  /** Join, group, classify, diff, list: everything between the centroids and the writes. */
  method PlanZoning(pg: PostGis, features: seq<ZoneFeature>, parcels: map<ParcelId, Parcel>, bad: set<ParcelId>,
                    facts: seq<Fact>, known: Pairs, cite: Citation)
    returns (retire: set<nat>, rows: seq<NewFact>, exceptions: seq<NewException>, stillTrue: set<(ParcelId, Reason)>)
    requires Stageable(features) && OneLive(facts)
    ensures var classes := ClassesOf(parcels, bad, DistrictsOf(pg, features));
      && PlannedOver(facts, ZoneKeys(Scope(parcels)), WantedZoning(classes), cite, retire, rows)
      && Lists(exceptions, ZONING_UNRESOLVABLE, WithReason(StillTrue(classes)) - known)
      && stillTrue == StillTrue(classes)
  {
    var pairs := Join(pg, features, parcels, bad);
    var groups := GroupByParcel(pairs);
    GroupsClassifyAlike(pg, features, parcels, bad, pairs, groups);
    ghost var classes := ClassesOf(parcels, bad, DistrictsOf(pg, features));
    var matched, zero, ambiguous := ClassifyAll(Scope(parcels), bad, groups, classes);
    retire, rows := DiffZoning(facts, Scope(parcels), matched, cite, classes, zero, ambiguous);
    exceptions, stillTrue := ListZoning(matched, zero, ambiguous, known, classes);
  }

  // ------------------------------------------------------------------ one run

  /** Steps 1 to 3: the points, and the findings about them. */
  method CentroidStage(conn: Connection, pg: PostGis, ghost t: Tables, ghost m: ZoneMoments, fault: Fault)
    returns (p: Progress, bad: set<ParcelId>, ghost added: seq<NewException>)
    requires t == conn.Image() && Settled(t, conn.clock) && m.centroids == conn.clock + 1
    modifies conn`parcels, conn`exceptions, conn`clock
    ensures conn.clock >= old(conn.clock) && bad == BadOf(pg, t)
    ensures Lists(added, CENTROID_NOT_INTERIOR, WithReason(BadPairs(bad - OpenParcels(t.exceptions, CENTROID_NOT_INTERIOR))))
    ensures p.Going? <==> fault.Spares(1, 4)
    ensures p.Going? ==> conn.clock == m.centroids && conn.parcels == Recomputed(pg, t.parcels)
    ensures p.Going? ==> conn.exceptions == CentroidLifecycle(t.exceptions, added, bad, m.centroids)
  {
    SettledParts(t, conn.clock, conn.clock);
    var parcels := Recomputed(pg, conn.parcels);
    bad := StillNotInterior(pg, parcels);
    added := ListCentroids(bad, OpenParcels(conn.exceptions, CENTROID_NOT_INTERIOR));
    p := fault.At(1);
    if p != Going { return; }
    conn.parcels := parcels;
    var rows;
    p, rows := WriteCentroids(conn, bad, t.exceptions, m.centroids, fault, 2);
    added := rows;
  }

  /** Steps 4 to 8: the facts, and the findings about the join. */
  method DiffStage(conn: Connection, pg: PostGis, features: seq<ZoneFeature>, bad: set<ParcelId>, cite: Citation, started: Time,
                   fault: Fault, ghost t: Tables, ghost now: Time, ghost m: ZoneMoments, ghost parcels: map<ParcelId, Parcel>,
                   ghost centroidRows: seq<NewException>, ghost half: Rows, ghost classes: Classes)
    returns (p: Progress, ghost retire: set<nat>, ghost rows: seq<NewFact>, ghost exceptions: seq<NewException>)
    requires t.facts == conn.facts && parcels == conn.parcels && half == conn.exceptions && Stageable(features)
    requires Settled(t, now) && half == CentroidLifecycle(t.exceptions, centroidRows, bad, m.centroids) && now < conn.clock
    requires m.started == started && m.centroids == conn.clock && m.at == conn.clock + 1 && m.closed == conn.clock + 2
    requires Lists(centroidRows, CENTROID_NOT_INTERIOR, WithReason(BadPairs(bad - OpenParcels(t.exceptions, CENTROID_NOT_INTERIOR))))
    requires classes == ClassesOf(parcels, bad, DistrictsOf(pg, features))
    modifies conn`exceptions, conn`facts, conn`clock
    ensures conn.clock >= old(conn.clock)
    ensures p.Going? <==> fault.Spares(4, 9)
    ensures PlannedOver(t.facts, ZoneKeys(Scope(parcels)), WantedZoning(classes), cite, retire, rows)
    ensures Lists(exceptions, ZONING_UNRESOLVABLE, WithReason(StillTrue(classes)) - OpenPairs(half, ZONING_UNRESOLVABLE))
    ensures p.Going? ==> conn.clock == m.closed && conn.facts == Write(t.facts, retire, rows, m.started, m.at)
    ensures p.Going? ==> conn.exceptions == ZoneLifecycle(half, StillTrue(classes), exceptions, m.closed)
  {
    SettledParts(t, now, now);
    HalfHolds(t, now, bad, centroidRows, m.centroids);
    var someFacts, added, stillTrue, someIds;
    someIds, someFacts, added, stillTrue :=
      PlanZoning(pg, features, conn.parcels, bad, conn.facts, OpenPairs(conn.exceptions, ZONING_UNRESOLVABLE), cite);
    retire, rows, exceptions := someIds, someFacts, added;
    var moment := conn.Now();
    assert moment == m.at;
    HoldsLater(half, m.centroids, moment);
    p := WriteFacts(conn, ZoneTarget(parcels, classes), someIds, someFacts, started, moment, fault, 4, t.facts);
    if p != Going { return; }
    p := WriteZoneFindings(conn, stillTrue, added, half, m.closed, fault, 6);
  }

  lemma HoldsLater(rows: Rows, now: Time, later: Time)
    requires ExceptionsHold(rows, now) && now <= later
    ensures ExceptionsHold(rows, later)
  {
  }

  /** The two stages together are one zoning run. */
  lemma StagesMakeARun(t: Tables, now: Time, pg: PostGis, districts: Districts, cite: Citation, m: ZoneMoments, plan: ZonePlan,
                       half: Rows, b: Tables)
    requires Settled(t, now) && half == CentroidLifecycle(t.exceptions, plan.centroidRows, BadOf(pg, t), m.centroids)
    requires Lists(plan.centroidRows, CENTROID_NOT_INTERIOR,
                   WithReason(BadPairs(BadOf(pg, t) - OpenParcels(t.exceptions, CENTROID_NOT_INTERIOR))))
    requires PlannedOver(t.facts, ZoneKeys(Scope(Recomputed(pg, t.parcels))), WantedZoning(ClassesIn(pg, districts, t)), cite,
                         plan.retire, plan.rows)
    requires Lists(plan.exceptions, ZONING_UNRESOLVABLE, WithReason(StillTrue(ClassesIn(pg, districts, t))) - OpenPairs(half, ZONING_UNRESOLVABLE))
    requires b.facts == Write(t.facts, plan.retire, plan.rows, m.started, m.at)
    requires b.exceptions == ZoneLifecycle(half, StillTrue(ClassesIn(pg, districts, t)), plan.exceptions, m.closed)
    requires b.parcels == Recomputed(pg, t.parcels) && b.identities == t.identities && b.jobs == t.jobs
    ensures Zoned(t, b, pg, districts, cite, m)
  {
    SettledParts(t, now, now);
    CentroidPairsAfter(t.exceptions, plan.centroidRows, BadOf(pg, t), m.centroids, ZONING_UNRESOLVABLE);
    assert ZonedBy(t, b, pg, districts, cite, m, plan);
  }

  lemma HalfHolds(t: Tables, now: Time, bad: set<ParcelId>, added: seq<NewException>, at: Time)
    requires ExceptionsHold(t.exceptions, now) && now < at
    requires Lists(added, CENTROID_NOT_INTERIOR, WithReason(BadPairs(bad - OpenParcels(t.exceptions, CENTROID_NOT_INTERIOR))))
    ensures ExceptionsHold(CentroidLifecycle(t.exceptions, added, bad, at), at)
  {
    CentroidHolds(t.exceptions, now, added, bad, at);
  }

  /** The second half of the run, from the tables its first half left. */
  method WriteDiff(conn: Connection, pg: PostGis, features: seq<ZoneFeature>, bad: set<ParcelId>, cite: Citation, started: Time,
                   fault: Fault, ghost t: Tables, ghost now: Time, ghost m: ZoneMoments, ghost centroidRows: seq<NewException>)
    returns (p: Progress)
    requires Stageable(features) && Settled(t, now) && bad == BadOf(pg, t) && now < conn.clock
    requires conn.Image() == t.(parcels := Recomputed(pg, t.parcels),
                                exceptions := CentroidLifecycle(t.exceptions, centroidRows, bad, m.centroids))
    requires m.started == started && m.centroids == conn.clock && m.at == conn.clock + 1 && m.closed == conn.clock + 2
    requires Lists(centroidRows, CENTROID_NOT_INTERIOR, WithReason(BadPairs(bad - OpenParcels(t.exceptions, CENTROID_NOT_INTERIOR))))
    modifies conn`exceptions, conn`facts, conn`clock
    ensures conn.clock >= old(conn.clock)
    ensures p.Going? <==> fault.Spares(4, 9)
    ensures p.Going? ==> conn.clock == m.closed && Zoned(t, conn.Image(), pg, DistrictsOf(pg, features), cite, m)
  {
    ghost var half, districts := conn.exceptions, DistrictsOf(pg, features);
    ghost var retire, rows, exceptions;
    p, retire, rows, exceptions := DiffStage(conn, pg, features, bad, cite, started, fault, t, now, m, conn.parcels, centroidRows,
                                             half, ClassesIn(pg, districts, t));
    if p == Going {
      StagesMakeARun(t, now, pg, districts, cite, m, ZonePlan(centroidRows, retire, rows, exceptions), half, conn.Image());
    }
  }

  /** The eight writing statements; nothing is committed here. */
  method WriteZoning(conn: Connection, pg: PostGis, features: seq<ZoneFeature>, cite: Citation, started: Time, fault: Fault,
                     ghost t: Tables) returns (p: Progress, ghost m: ZoneMoments, ghost after: Tables)
    requires t == conn.Image() && Settled(t, conn.clock) && Stageable(features)
    modifies conn`parcels, conn`exceptions, conn`facts, conn`clock
    ensures conn.clock >= old(conn.clock)
    ensures m == ZoneMoments(started, old(conn.clock) + 1, old(conn.clock) + 2, old(conn.clock) + 3)
    ensures p.Going? <==> fault.Spares(1, 9)
    ensures p.Going? ==> m.closed == conn.clock && conn.Image() == after && Zoned(t, after, pg, DistrictsOf(pg, features), cite, m)
  {
    m, after := ZoneMoments(started, conn.clock + 1, conn.clock + 2, conn.clock + 3), t;
    ghost var now := conn.clock;
    var bad;
    ghost var centroidRows;
    p, bad, centroidRows := CentroidStage(conn, pg, t, m, fault);
    if p != Going { return; }
    p := WriteDiff(conn, pg, features, bad, cite, started, fault, t, now, m, centroidRows);
    after := conn.Image();
  }

  method ZoneTransaction(conn: Connection, job: nat, pg: PostGis, features: seq<ZoneFeature>, cite: Citation, started: Time,
                         fault: Fault, ghost t: Tables) returns (p: Progress, ghost m: ZoneMoments, ghost after: Tables)
    requires t == conn.Image() == conn.saved && Settled(t, conn.clock) && job < |conn.jobs|
    modifies conn
    ensures conn.clock >= old(conn.clock) && conn.uuids == old(conn.uuids) && conn.currentFact == old(conn.currentFact)
    ensures m == ZoneMoments(started, old(conn.clock) + 1, old(conn.clock) + 2, old(conn.clock) + 3)
    ensures p.Going? <==> fault.Spares(0, 11) && Stageable(features)
    ensures !p.Going? ==> conn.saved == t
    ensures p.Going? ==> conn.Idle() && m.closed < conn.clock
    ensures p.Going? ==> Stageable(features) && Zoned(t, after, pg, DistrictsOf(pg, features), cite, m)
    ensures p.Going? ==> conn.saved == after.(jobs := Succeeds(t.jobs, job, cite.snapshot, conn.clock))
  {
    m, after := ZoneMoments(started, conn.clock + 1, conn.clock + 2, conn.clock + 3), t;
    p := fault.At(0);
    if p != Going { return; }
    if !Stageable(features) { p := Raised; return; }
    p, m, after := WriteZoning(conn, pg, features, cite, started, fault, t);
    if p != Going { return; }
    p := fault.At(9);
    if p != Going { return; }
    conn.FinishJob(job, Succeeded, Some(cite.snapshot));
    p := fault.At(10);
    if p != Going { return; }
    conn.Commit();
  }

  lemma SettledAtTheEnd(t: Tables, now: Time, p: Progress, after: Tables, pg: PostGis, districts: Districts, cite: Citation,
                        m: ZoneMoments, image: Tables, later: Time)
    requires Settled(t, now) && now <= m.started < m.centroids < m.at < m.closed && now <= later
    requires p.Going? ==> Zoned(t, after, pg, districts, cite, m) && m.closed <= later && image == after.(jobs := image.jobs)
    requires !p.Going? ==> image == t.(jobs := image.jobs)
    ensures Settled(image, later)
  {
    if p.Going? {
      ZonedSettles(t, now, after, pg, districts, cite, m);
      SettledLater(after, image.jobs, m.closed, later);
    } else {
      SettledLater(t, image.jobs, now, later);
    }
  }

  /** `load_zoning`. */
  method LoadZoning(conn: Connection, pg: PostGis, features: seq<ZoneFeature>, cite: Citation, fault: Fault)
    returns (end: Ending, ghost t: Tables, ghost m: ZoneMoments, ghost after: Tables)
    requires conn.Idle() && Settled(conn.Image(), conn.clock)
    modifies conn
    ensures conn.Idle() && Settled(conn.Image(), conn.clock) && conn.uuids == old(conn.uuids)
    ensures conn.clock >= old(conn.clock) && conn.currentFact == old(conn.currentFact)
    ensures t == old(conn.Image()).(jobs := t.jobs)
    ensures m == ZoneMoments(old(conn.clock) + 2, old(conn.clock) + 3, old(conn.clock) + 4, old(conn.clock) + 5)
    ensures end.Committed? <==> fault.Spares(0, 11) && Stageable(features)
    ensures !end.Committed? ==> conn.Image() == old(conn.Image()).(jobs := conn.jobs)
    ensures end.Committed? ==> Stageable(features) && Zoned(t, after, pg, DistrictsOf(pg, features), cite, m)
    ensures end.Committed? ==> m.closed <= conn.clock && conn.Image() == after.(jobs := conn.jobs)
    ensures conn.jobs == old(conn.jobs) +
      [JobRun(ZoningLoad, ZoningSource, match end { case Committed => Succeeded case MarkedFailed => JobStatus.Failed case Dead => Running },
              if end.Committed? then Some(cite.snapshot) else None, old(conn.clock) + 1, if end.Dead? then None else Some(conn.clock))]
  {
    var job := conn.StartJob(ZoningLoad, ZoningSource);
    var started := conn.Now();
    t := conn.Image();
    SettledLater(old(conn.Image()), conn.jobs, old(conn.clock), started);
    var p;
    p, m, after := ZoneTransaction(conn, job, pg, features, cite, started, fault, t);
    end := Conclude(conn, job, p, t);
    SettledAtTheEnd(t, started, p, after, pg, if Stageable(features) then DistrictsOf(pg, features) else _ => ZeroMatch,
                    cite, m, conn.Image(), conn.clock);
  }
}
