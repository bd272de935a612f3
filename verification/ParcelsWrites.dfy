/** The statements of the parcels reconcile's transaction, in their fixed order. */
module ParcelsWrites {
  import opened Schema
  import opened Ledger
  import opened Exceptions
  import opened ParcelsModel
  import opened ParcelsLists
  import opened ParcelsReconcile
  import opened Invariants
  import opened Database

  // ------------------------------------------------------------------ what each statement does

  function WithApn(parcels: map<ParcelId, Parcel>, cache: map<ParcelId, Option<string>>): map<ParcelId, Parcel> {
    map p | p in parcels :: if p in cache then parcels[p].(apn := cache[p]) else parcels[p]
  }

  /** The centroid is dropped with the geometry it was derived from. */
  function WithGeometry(parcels: map<ParcelId, Parcel>, cache: map<ParcelId, Option<Geometry>>): map<ParcelId, Parcel> {
    map p | p in parcels :: if p in cache then parcels[p].(geom := cache[p], centroid := None) else parcels[p]
  }

  function Retired(id: Identity, snapshot: SnapshotId, at: Time): Identity {
    id.(retiredSnapshot := Some(snapshot), retiredAt := Some(at), retirementReason := Some(RETIREMENT_REASON))
  }

  function RetireAll(identities: map<FeatureId, Identity>, gone: set<FeatureId>, snapshot: SnapshotId, at: Time):
    map<FeatureId, Identity>
  {
    map f | f in identities :: if f in gone then Retired(identities[f], snapshot, at) else identities[f]
  }

  /** `last_seen` always; the three retirement columns only for a feature that came back. */
  function Touched(id: Identity, cite: Citation, reappearing: bool): Identity {
    var seen := id.(lastSeenSnapshot := cite.snapshot, lastSeenAt := cite.retrievedAt);
    if reappearing then seen.(retiredSnapshot := None, retiredAt := None, retirementReason := None) else seen
  }

  function TouchAll(identities: map<FeatureId, Identity>, touches: map<FeatureId, bool>, cite: Citation):
    map<FeatureId, Identity>
  {
    map f | f in identities :: if f in touches then Touched(identities[f], cite, touches[f]) else identities[f]
  }

  /** `source_feature_identity_retired_after_seen`. */
  predicate RetiredAfterSeen(identities: map<FeatureId, Identity>) {
    forall f :: f in identities && identities[f].retiredAt.Some? ==> identities[f].lastSeenAt <= identities[f].retiredAt.value
  }

  /** `source_feature_identity_seen_order`. */
  predicate SeenInOrder(identities: map<FeatureId, Identity>) {
    forall f :: f in identities ==> identities[f].firstSeenAt <= identities[f].lastSeenAt
  }

  /** The two targeted closings. */
  function ClosedAfter(rows: Rows, c: Changes, closedApn: Time, closedGone: Time): Rows {
    var r := Close(rows, OfParcels(rows, APN_UNRESOLVABLE, c.resolved), ConditionCleared, ByDetector(ApnUnresolvable), closedApn);
    Close(r, OfParcels(r, PARCEL_DISAPPEARED, c.reappeared), ConditionCleared, ByDetector(ParcelDisappeared), closedGone)
  }

  function Reopened(rows: Rows, added: seq<NewException>): Rows {
    if added == [] then rows else Relink(Relink(Append(rows, added), APN_UNRESOLVABLE), PARCEL_DISAPPEARED)
  }

  /** Close, close, insert, relink, relink; a statement with nothing to do is not issued. */
  function LifecycleAfter(rows: Rows, c: Changes, closedApn: Time, closedGone: Time): Rows {
    Reopened(ClosedAfter(rows, c, closedApn, closedGone), c.exceptions)
  }

  function IdentitiesAfter(identities: map<FeatureId, Identity>, plan: Plan, cite: Citation, at: Time): map<FeatureId, Identity> {
    TouchAll(RetireAll(identities + plan.identityRows, plan.gone, cite.snapshot, at), plan.changes.touches, cite)
  }

  function ParcelsAfter(parcels: map<ParcelId, Parcel>, plan: Plan): map<ParcelId, Parcel> {
    WithGeometry(WithApn(parcels + plan.parcelRows, plan.changes.apnCache), plan.changes.geomCache)
  }

  /** When the statements of one run happened. */
  datatype Moments = Moments(started: Time, at: Time, closedApn: Time, closedGone: Time)

  function AfterWrites(t: Tables, plan: Plan, cite: Citation, m: Moments): Tables {
    var c := plan.changes;
    Tables(
      Write(t.facts, c.retire, c.rows, m.started, m.at),
      LifecycleAfter(t.exceptions, c, m.closedApn, m.closedGone),
      IdentitiesAfter(t.identities, plan, cite, m.at),
      ParcelsAfter(t.parcels, plan),
      t.jobs)
  }

  // ------------------------------------------------------------------ the statements

  method InsertParcels(conn: Connection, rows: map<ParcelId, Parcel>)
    modifies conn`parcels
    ensures conn.parcels == old(conn.parcels) + rows
  {
    conn.parcels := conn.parcels + rows;
  }

  method InsertIdentities(conn: Connection, rows: map<FeatureId, Identity>)
    modifies conn`identities
    ensures conn.identities == old(conn.identities) + rows
  {
    conn.identities := conn.identities + rows;
  }

  method UpdateApnCache(conn: Connection, cache: map<ParcelId, Option<string>>)
    modifies conn`parcels
    ensures conn.parcels == WithApn(old(conn.parcels), cache)
  {
    conn.parcels := WithApn(conn.parcels, cache);
  }

  /** `ST_GeomFromGeoJSON` raises on `null`, and the column takes no other kind than a multipolygon. */
  method UpdateGeomCache(conn: Connection, cache: map<ParcelId, Option<Geometry>>) returns (ok: bool)
    modifies conn`parcels
    ensures ok <==> GeometryAccepted(cache)
    ensures conn.parcels == if ok then WithGeometry(old(conn.parcels), cache) else old(conn.parcels)
    // Parcel by parcel: every geometry must be polygonal, or nothing moves; the parcels named get theirs and lose
    // their centroid, and no other parcel moves.
    ensures ok <==> forall p :: p in cache ==>
      cache[p].Some? && (cache[p].value.kind.Polygon? || cache[p].value.kind.MultiPolygon?)
    ensures conn.parcels.Keys == old(conn.parcels).Keys
    ensures forall p :: p in conn.parcels ==>
      var was := old(conn.parcels)[p];
      conn.parcels[p] == if ok && p in cache then Parcel(was.jurisdiction, was.apn, cache[p], None) else was
  {
    ok := GeometryAccepted(cache);
    if ok { conn.parcels := WithGeometry(conn.parcels, cache); }
  }

  method RetireIdentities(conn: Connection, gone: set<FeatureId>, snapshot: SnapshotId, at: Time) returns (ok: bool)
    modifies conn`identities
    ensures ok <==> RetiredAfterSeen(RetireAll(old(conn.identities), gone, snapshot, at))
    ensures conn.identities == if ok then RetireAll(old(conn.identities), gone, snapshot, at) else old(conn.identities)
  {
    var r := RetireAll(conn.identities, gone, snapshot, at);
    ok := RetiredAfterSeen(r);
    if ok { conn.identities := r; }
  }

  method TouchIdentities(conn: Connection, touches: map<FeatureId, bool>, cite: Citation) returns (ok: bool)
    modifies conn`identities
    ensures var r := TouchAll(old(conn.identities), touches, cite);
      && (ok <==> SeenInOrder(r) && RetiredAfterSeen(r))
      && conn.identities == if ok then r else old(conn.identities)
  {
    var r := TouchAll(conn.identities, touches, cite);
    ok := SeenInOrder(r) && RetiredAfterSeen(r);
    if ok { conn.identities := r; }
  }

  /** No row of the exceptions to be added is refused. */
  ghost predicate Addable(rows: Rows, added: seq<NewException>) {
    OneOpen(rows) && Regular(added) && CanAdd(rows, added)
  }

  method CloseForParcels(conn: Connection, d: Detector, parcels: set<ParcelId>)
    modifies conn`exceptions, conn`clock
    ensures conn.clock == old(conn.clock) + 1
    ensures conn.exceptions ==
      Close(old(conn.exceptions), OfParcels(old(conn.exceptions), d, parcels), ConditionCleared, ByDetector(d.key), conn.clock)
  {
    if parcels != {} {
      var closed := conn.CloseExceptionsForParcels(d, parcels);
    } else {
      var t := conn.Now();
      CloseNothing(conn.exceptions, ConditionCleared, ByDetector(d.key), conn.clock);
      assert OfParcels(conn.exceptions, d, parcels) == {};
    }
  }

  method AddAndRelink(conn: Connection, added: seq<NewException>, fault: Fault, step: nat) returns (p: Progress)
    modifies conn`exceptions
    ensures p.Going? ==> fault.Spares(step, step + 3) && conn.exceptions == Reopened(old(conn.exceptions), added)
    ensures fault.Spares(step, step + 3) && Addable(old(conn.exceptions), added) ==> p.Going?
  {
    p := fault.At(step);
    if p != Going { return; }
    if added != [] {
      var r := conn.InsertExceptions(added);
      if r != WriteResult.Done { return Raised; }
    }
    p := fault.At(step + 1);
    if p != Going { return; }
    if added != [] { conn.RelinkReopenedExceptions(APN_UNRESOLVABLE); }
    p := fault.At(step + 2);
    if p != Going { return; }
    if added != [] { conn.RelinkReopenedExceptions(PARCEL_DISAPPEARED); }
  }

  method WriteLifecycle(conn: Connection, c: Changes, ghost before: Rows, ghost m: Moments, fault: Fault, step: nat)
    returns (p: Progress)
    requires before == conn.exceptions && m.closedApn == conn.clock + 1 && m.closedGone == conn.clock + 2
    modifies conn`exceptions, conn`clock
    ensures conn.clock >= old(conn.clock)
    ensures p.Going? ==>
      && fault.Spares(step, step + 5) && m.closedGone <= conn.clock
      && conn.exceptions == LifecycleAfter(before, c, m.closedApn, m.closedGone)
    ensures fault.Spares(step, step + 5) && Addable(ClosedAfter(before, c, m.closedApn, m.closedGone), c.exceptions)
      ==> p.Going?
  {
    p := fault.At(step);
    if p != Going { return; }
    CloseForParcels(conn, APN_UNRESOLVABLE, c.resolved);
    p := fault.At(step + 1);
    if p != Going { return; }
    CloseForParcels(conn, PARCEL_DISAPPEARED, c.reappeared);
    p := AddAndRelink(conn, c.exceptions, fault, step + 2);
  }

  /** The row checks on `source_feature_identity` pass. */
  predicate IdentitiesAccepted(identities: map<FeatureId, Identity>, plan: Plan, cite: Citation, at: Time) {
    var retired := RetireAll(identities + plan.identityRows, plan.gone, cite.snapshot, at);
    var touched := TouchAll(retired, plan.changes.touches, cite);
    RetiredAfterSeen(retired) && SeenInOrder(touched) && RetiredAfterSeen(touched)
  }

  ghost predicate RowsAccepted(t: Tables, plan: Plan, target: Target, m: Moments) {
    var c := plan.changes;
    && Sound(t.facts) && Planned(t.facts, target, c.retire, c.rows) && Writable(c.rows)
    && Addable(ClosedAfter(t.exceptions, c, m.closedApn, m.closedGone), c.exceptions)
  }

  /** No statement of the transaction is refused by the database. */
  ghost predicate Accepted(t: Tables, plan: Plan, cite: Citation, target: Target, m: Moments) {
    && RowsAccepted(t, plan, target, m)
    && GeometryAccepted(plan.changes.geomCache) && IdentitiesAccepted(t.identities, plan, cite, m.at)
  }

  /** `fits` says whether the database takes every statement, and `after` is what they leave. */
  ghost predicate Ready(t: Tables, plan: Plan, cite: Citation, target: Target, m: Moments, fits: bool, after: Tables) {
    forall u {:trigger Inside(u)} :: Inside(u) && u == t ==>
      && (fits ==> Accepted(u, plan, cite, target, m))
      && (GeometryAccepted(plan.changes.geomCache) && IdentitiesAccepted(u.identities, plan, cite, m.at) ==> fits)
      && after == AfterWrites(u, plan, cite, m)
  }

  lemma ReadyRows(t: Tables, plan: Plan, cite: Citation, target: Target, m: Moments, fits: bool, after: Tables)
    requires Ready(t, plan, cite, target, m, fits, after)
    ensures after.facts == Write(t.facts, plan.changes.retire, plan.changes.rows, m.started, m.at)
    ensures after.exceptions == LifecycleAfter(t.exceptions, plan.changes, m.closedApn, m.closedGone)
    ensures fits ==> RowsAccepted(t, plan, target, m)
  {
    assert Inside(t);
  }

  lemma ReadyUpdates(t: Tables, plan: Plan, cite: Citation, target: Target, m: Moments, fits: bool, after: Tables)
    requires Ready(t, plan, cite, target, m, fits, after)
    ensures after.parcels == ParcelsAfter(t.parcels, plan) && after.identities == IdentitiesAfter(t.identities, plan, cite, m.at)
    ensures after.jobs == t.jobs
    ensures fits <==> GeometryAccepted(plan.changes.geomCache) && IdentitiesAccepted(t.identities, plan, cite, m.at)
  {
    assert Inside(t);
  }

  /** The rows of new features. */
  method WriteNew(conn: Connection, plan: Plan, fault: Fault, step: nat) returns (p: Progress)
    modifies conn`identities, conn`parcels
    ensures p.Going? <==> fault.Spares(step, step + 2)
    ensures p.Going? ==> conn.parcels == old(conn.parcels) + plan.parcelRows && conn.identities == old(conn.identities) + plan.identityRows
  {
    p := fault.At(step);
    if p != Going { return; }
    InsertParcels(conn, plan.parcelRows);
    p := fault.At(step + 1);
    if p != Going { return; }
    InsertIdentities(conn, plan.identityRows);
  }

  /** The first nine statements: rows in, facts over, exceptions along. */
  method WriteRows(conn: Connection, plan: Plan, ghost cite: Citation, started: Time, at: Time, fault: Fault,
                   ghost t: Tables, ghost target: Target, ghost m: Moments, ghost fits: bool, ghost after: Tables) returns (p: Progress)
    requires t == conn.Image() && m == Moments(started, at, conn.clock + 1, conn.clock + 2)
    requires Ready(t, plan, cite, target, m, fits, after)
    modifies conn`facts, conn`exceptions, conn`identities, conn`parcels, conn`clock
    ensures conn.clock >= old(conn.clock)
    ensures p.Going? ==> fault.Spares(1, 10) && m.closedGone <= conn.clock
    ensures p.Going? ==> conn.facts == after.facts && conn.exceptions == after.exceptions
    ensures p.Going? ==> conn.parcels == t.parcels + plan.parcelRows && conn.identities == t.identities + plan.identityRows
    ensures fault.Spares(1, 10) && fits ==> p.Going?
  {
    ReadyRows(t, plan, cite, target, m, fits, after);
    p := WriteNew(conn, plan, fault, 1);
    if p != Going { return; }
    p := WriteFacts(conn, target, plan.changes.retire, plan.changes.rows, started, at, fault, 3, t.facts);
    if p != Going { return; }
    p := WriteLifecycle(conn, plan.changes, t.exceptions, m, fault, 5);
  }

  /** The last four: both caches, then both identity updates. */
  method WriteUpdates(conn: Connection, plan: Plan, cite: Citation, at: Time, fault: Fault,
                      ghost t: Tables, ghost target: Target, ghost m: Moments, ghost fits: bool, ghost after: Tables) returns (p: Progress)
    requires conn.parcels == t.parcels + plan.parcelRows && conn.identities == t.identities + plan.identityRows && at == m.at
    requires Ready(t, plan, cite, target, m, fits, after)
    modifies conn`identities, conn`parcels
    ensures p.Going? <==> fault.Spares(10, 14) && fits
    ensures p.Going? ==> conn.parcels == after.parcels && conn.identities == after.identities && after.jobs == t.jobs
  {
    ReadyUpdates(t, plan, cite, target, m, fits, after);
    p := fault.At(10);
    if p != Going { return; }
    UpdateApnCache(conn, plan.changes.apnCache);
    p := fault.At(11);
    if p != Going { return; }
    var ok := UpdateGeomCache(conn, plan.changes.geomCache);
    if !ok { p := Raised; return; }
    p := WriteIdentities(conn, plan, t.identities, cite, at, fault, 12);
  }

  method WriteIdentities(conn: Connection, plan: Plan, ghost before: map<FeatureId, Identity>, cite: Citation, at: Time,
                         fault: Fault, step: nat) returns (p: Progress)
    requires conn.identities == before + plan.identityRows
    modifies conn`identities
    ensures p.Going? <==> fault.Spares(step, step + 2) && IdentitiesAccepted(before, plan, cite, at)
    ensures p.Going? ==> conn.identities == IdentitiesAfter(before, plan, cite, at)
  {
    p := fault.At(step);
    if p != Going { return; }
    var ok := RetireIdentities(conn, plan.gone, cite.snapshot, at);
    if !ok { return Raised; }
    p := fault.At(step + 1);
    if p != Going { return; }
    ok := TouchIdentities(conn, plan.changes.touches, cite);
    if !ok { return Raised; }
  }

  /** The whole write sequence, the run's status and the commit. */
  method WriteAndCommit(conn: Connection, job: nat, plan: Plan, cite: Citation, ghost target: Target, started: Time, at: Time,
                        fault: Fault, ghost t: Tables, ghost m: Moments, ghost fits: bool, ghost after: Tables) returns (p: Progress)
    requires t == conn.Image() == conn.saved && job < |conn.jobs| && m == Moments(started, at, conn.clock + 1, conn.clock + 2)
    requires Ready(t, plan, cite, target, m, fits, after)
    modifies conn
    ensures conn.clock >= old(conn.clock) && conn.uuids == old(conn.uuids) && conn.currentFact == old(conn.currentFact)
    ensures p.Going? <==> fault.Spares(1, 16) && fits
    ensures !p.Going? ==> conn.saved == t
    ensures p.Going? ==> conn.Idle() && m.closedGone < conn.clock
    ensures p.Going? ==> conn.saved == after.(jobs := Succeeds(t.jobs, job, cite.snapshot, conn.clock))
  {
    p := WriteRows(conn, plan, cite, started, at, fault, t, target, m, fits, after);
    if p != Going { return; }
    p := WriteUpdates(conn, plan, cite, at, fault, t, target, m, fits, after);
    if p != Going { return; }
    p := fault.At(14);
    if p != Going { return; }
    conn.FinishJob(job, Succeeded, Some(cite.snapshot));
    p := fault.At(15);
    if p != Going { return; }
    conn.Commit();
  }
}
