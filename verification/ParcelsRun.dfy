/** The parcels reconcile itself: stage, plan, write, commit. */
module ParcelsRun {
  import opened Schema
  import opened Ledger
  import opened Exceptions
  import opened Identifiers
  import opened ParcelsModel
  import opened ParcelsLists
  import opened ParcelsPlan
  import opened ParcelsReconcile
  import opened ParcelsWrites
  import opened ParcelsKeep
  import opened Invariants
  import opened Database

  // ------------------------------------------------------------------ planning

  lemma NewPlanIsApart(t: Tables, now: Time, staging: Staging, minted: map<FeatureId, ParcelId>, first: ParcelId,
                       next: ParcelId, listed: seq<NewException>)
    requires Kept(t, now) && (forall p :: p in t.parcels ==> p < first)
    requires minted.Keys <= staging.Keys && FreshIds(minted, first, next) && FreshRows(listed, first, next)
    ensures ApartFrom(TargetOf(minted, SupportedBy(staging), minted.Keys), t.identities)
    ensures forall f, d :: f in t.identities ==> !Mentions(AddedPairs(listed, d), t.identities[f].parcel)
    ensures Regular(listed)
  {
    var base := TargetOf(minted, SupportedBy(staging), minted.Keys);
    forall k, f | k in base && f in t.identities ensures k.parcel != t.identities[f].parcel {
      var g := OnlyTarget(minted, SupportedBy(staging), minted.Keys, k);
    }
    forall f, d | f in t.identities ensures !Mentions(AddedPairs(listed, d), t.identities[f].parcel) {
      assert t.identities[f].parcel < first;
    }
  }

  lemma UpdatesAreRight(t: Tables, now: Time, staging: Staging, cite: Citation, c: Changes)
    requires Kept(t, now)
    requires var o, changed := Observed(t.facts, t.identities, staging, cite), ChangedIds(t.facts, staging, t.identities);
      CanCompare(o, changed) && ChangedCaches(o, changed, c)
    ensures UpdatesPlan(Observed(t.facts, t.identities, staging, cite), VisibleIds(t, staging), c)
  {
    var o, visible, changed := Observed(t.facts, t.identities, staging, cite), VisibleIds(t, staging),
      ChangedIds(t.facts, staging, t.identities);
    CanCompareVisible(t, now, staging, cite);
    ChangedAreVisible(t, staging);
    UnchangedAreIdle(t, staging, cite);
    SameMovers(o, visible, changed);
    SameLifecycle(o, visible, changed);
  }

  lemma ExceptionsAreRight(t: Tables, now: Time, staging: Staging, cite: Citation, listed: seq<NewException>,
                           first: ParcelId, next: ParcelId, c: Changes, plan: Plan)
    requires Kept(t, now) && NewExceptionsPlanned(staging, first, next, plan.minted, listed)
    requires ChangedExceptions(Observed(t.facts, t.identities, staging, cite), listed,
                               ChangedIds(t.facts, staging, t.identities), c)
    requires var added := plan.changes.exceptions;
      && NoRepeats(added) && Regular(added)
      && AddedPairs(added, PARCEL_DISAPPEARED)
           == GonePairs(t.identities, plan.gone, OpenParcels(t.exceptions, PARCEL_DISAPPEARED))
      && forall d :: d != PARCEL_DISAPPEARED ==> AddedPairs(added, d) == AddedPairs(c.exceptions, d)
    ensures ExceptionsPlan(Observed(t.facts, t.identities, staging, cite), t.exceptions, VisibleIds(t, staging), plan)
  {
    CanCompareVisible(t, now, staging, cite);
    ChangedAreVisible(t, staging);
    UnchangedAreIdle(t, staging, cite);
    SameLifecycle(Observed(t.facts, t.identities, staging, cite), VisibleIds(t, staging), ChangedIds(t.facts, staging, t.identities));
  }

  method PlanReconcile(t: Tables, ghost now: Time, staging: Staging, cite: Citation, first: ParcelId)
    returns (plan: Plan, next: ParcelId)
    requires Kept(t, now) && forall p :: p in t.parcels ==> p < first
    ensures first <= next && plan.minted.Keys == NewIds(staging, t.identities)
    ensures forall f :: f in plan.minted ==> first <= plan.minted[f] < next
    ensures GeometryAccepted(plan.changes.geomCache) ==> RightPlan(t, staging, cite, plan)
    ensures UpdatesPlan(Observed(t.facts, t.identities, staging, cite), VisibleIds(t, staging), plan.changes)
    ensures IdentityPlan(t, staging, cite, plan)
  {
    var newIds, gone := NewIds(staging, t.identities), GoneIds(staging, t.identities);
    var changed := ChangedIds(t.facts, staging, t.identities);
    var o := Observed(t.facts, t.identities, staging, cite);
    var minted, parcelRows, identityRows, rows, listed, n := PlanNew(newIds, staging, cite, first, t.facts);
    next := n;
    NewPlanIsApart(t, now, staging, minted, first, next, listed);
    CanCompareVisible(t, now, staging, cite);
    ghost var all := AllParcels(t.identities, minted);
    AllParcelsInjective(t, staging, minted);
    VerbatimGrows(rows, staging, minted, all);
    var c := PlanChanged(o, changed, rows, listed, TargetOf(minted, SupportedBy(staging), minted.Keys), all);
    assert AddedPairs(c.exceptions, PARCEL_DISAPPEARED) == {};
    var exceptions := PlanGone(t.identities, gone, OpenParcels(t.exceptions, PARCEL_DISAPPEARED), c.exceptions);
    plan := Plan(minted, parcelRows, identityRows, c.(exceptions := exceptions), gone);
    UpdatesAreRight(t, now, staging, cite, plan.changes);
    ExceptionsAreRight(t, now, staging, cite, listed, first, next, c, plan);
    if GeometryAccepted(c.geomCache) { WidenFacts(t, now, staging, minted, c.retire, c.rows); }
  }

  // ------------------------------------------------------------------ reading the snapshot

  /** Parse every feature into the staging table: a blank identifier, a feature without a
      geometry member, or the same identifier twice, and the whole run fails. */
  method Stage(features: seq<Feature>) returns (staging: Option<Staging>)
    ensures staging.Some? <==> Stageable(features)
    ensures staging.Some? ==> staging.value == StagingOf(features)
  {
    var table: Staging := map[];
    for i := 0 to |features|
      invariant Stageable(features[..i]) && table == StagingOf(features[..i])
    {
      var f := features[i];
      if !Parses(f) {
        return None;
      }
      if f.parcelId.value in table {
        RepeatFails(features, i);
        return None;
      }
      StageOne(features, i);
      table := table[f.parcelId.value := StagedOf(f)];
    }
    assert features[..|features|] == features;
    return Some(table);
  }

  lemma {:induction false} RepeatFails(features: seq<Feature>, i: nat)
    requires i < |features| && Identified(features[..i])
    requires features[i].parcelId.Some? && features[i].parcelId.value in StagingOf(features[..i])
    ensures !Stageable(features)
  {
    var j := StagedFrom(features[..i], features[i].parcelId.value);
    assert features[..i][j] == features[j];
  }

  lemma {:induction false} NewIsApart(less: seq<Feature>, f: Feature)
    requires Identified(less) && f.parcelId.Some? && f.parcelId.value !in StagingOf(less)
    ensures Identified(less + [f])
  {
    forall j | 0 <= j < |less| ensures less[j].parcelId != f.parcelId { StagedAt(less, j); }
  }

  lemma {:induction false} StageOne(features: seq<Feature>, i: nat)
    requires i < |features| && Stageable(features[..i])
    requires Parses(features[i]) && features[i].parcelId.value !in StagingOf(features[..i])
    ensures Stageable(features[..i + 1])
    ensures StagingOf(features[..i + 1]) == StagingOf(features[..i])[features[i].parcelId.value := StagedOf(features[i])]
  {
    NewIsApart(features[..i], features[i]);
    StagingGrows(features[..i], features[i]);
    assert features[..i + 1] == features[..i] + [features[i]];
  }

  lemma {:induction false} StagingGrows(less: seq<Feature>, f: Feature)
    requires Identified(less) && Identified(less + [f]) && f.parcelId.Some?
    ensures StagingOf(less + [f]) == StagingOf(less)[f.parcelId.value := StagedOf(f)]
  {
    var more := less + [f];
    StagedAt(more, |less|);
    forall id | id in StagingOf(less) ensures id in StagingOf(more) && StagingOf(more)[id] == StagingOf(less)[id] {
      var j := StagedFrom(less, id);
      StagedAt(less, j);
      StagedAt(more, j);
    }
    forall id | id in StagingOf(more) ensures id in StagingOf(less) || id == f.parcelId.value {
      var j := StagedFrom(more, id);
      if j < |less| { StagedAt(less, j); }
    }
  }

  /** Every feature of the snapshot has a live identity. */
  predicate AllKnown(features: seq<Feature>, identities: map<FeatureId, Identity>) {
    forall i :: 0 <= i < |features| ==>
      && !IsBlank(features[i].parcelId)
      && features[i].parcelId.value in identities && identities[features[i].parcelId.value].retiredAt.None?
  }

  /** All the fast path checks. */
  method VerifyUnchanged(features: seq<Feature>, identities: map<FeatureId, Identity>) returns (ok: bool)
    ensures ok <==> AllKnown(features, identities)
  {
    for i := 0 to |features|
      invariant AllKnown(features[..i], identities)
    {
      var pid := features[i].parcelId;
      if IsBlank(pid) { return false; }
      if pid.value !in identities || identities[pid.value].retiredAt.Some? { return false; }
    }
    return true;
  }

  // ------------------------------------------------------------------ the anchor

  predicate Anchors(job: JobRun, source: Source) {
    job.source == source && job.status.Succeeded? && job.snapshot.Some?
  }

  predicate Later(a: JobRun, b: JobRun) {
    match (a.finishedAt, b.finishedAt)
    case (None, None) => a.startedAt > b.startedAt
    case (None, Some(_)) => true
    case (Some(_), None) => false
    case (Some(x), Some(y)) => x > y || (x == y && a.startedAt > b.startedAt)
  }

  /** `ORDER BY finished_at DESC, started_at DESC LIMIT 1` over the succeeded runs of the
      source, whichever job they were runs of. */
  function PreviousRun(jobs: seq<JobRun>, source: Source, n: nat): (r: Option<nat>)
    requires n <= |jobs|
    ensures r.None? <==> forall i :: 0 <= i < n ==> !Anchors(jobs[i], source)
    ensures r.Some? ==> r.value < n && Anchors(jobs[r.value], source)
    ensures r.Some? ==> forall i :: 0 <= i < n && Anchors(jobs[i], source) ==> !Later(jobs[i], jobs[r.value])
  {
    if n == 0 then None
    else
      var best := PreviousRun(jobs, source, n - 1);
      if Anchors(jobs[n - 1], source) && (best.None? || Later(jobs[n - 1], jobs[best.value])) then Some(n - 1) else best
  }

  function PreviousSuccessful(jobs: seq<JobRun>, source: Source): Option<SnapshotId> {
    var r := PreviousRun(jobs, source, |jobs|);
    if r.Some? then jobs[r.value].snapshot else None
  }

  // ------------------------------------------------------------------ one run

  /** The fast path hands the writing statements nothing to write. */
  const NOTHING := Plan(map[], map[], map[], Changes({}, [], [], map[], map[], map[], {}, {}), {})

  lemma NothingIsWritten(t: Tables, cite: Citation, m: Moments)
    ensures AfterWrites(t, NOTHING, cite, m) == t
  {
    var closed := Close(t.exceptions, OfParcels(t.exceptions, APN_UNRESOLVABLE, {}), ConditionCleared, ByDetector(ApnUnresolvable), m.closedApn);
    assert OfParcels(t.exceptions, APN_UNRESOLVABLE, {}) == {};
    assert closed == t.exceptions;
    assert OfParcels(t.exceptions, PARCEL_DISAPPEARED, {}) == {};
    assert LifecycleAfter(t.exceptions, NOTHING.changes, m.closedApn, m.closedGone) == t.exceptions;
    assert Write(t.facts, {}, [], m.started, m.at) == t.facts;
    assert t.identities + map[] == t.identities && t.parcels + map[] == t.parcels;
  }

  /** The staged features can be reconciled with these tables at this time. */
  ghost predicate Loadable(t: Tables, staging: Staging, cite: Citation, at: Time)
    requires OneLive(t.facts)
  {
    KnownPolygonal(t, staging) && SeenBefore(t, staging, cite.retrievedAt) && GoneSeenBy(t, staging, at)
  }

  /** The tables are fit for this path. */
  ghost predicate Fits(t: Tables, same: bool, staging: Staging, cite: Citation, at: Time) {
    same || (OneLive(t.facts) && Loadable(t, staging, cite, at))
  }

  /** What the run makes of the tables. */
  ghost predicate Achieved(before: Tables, after: Tables, same: bool, staging: Staging, cite: Citation, m: Moments) {
    if same then after == before else Reconciled(before, after, staging, cite, m)
  }

  /** Nothing has a parcel identifier that could be handed out again. */
  ghost predicate Fresh(conn: Connection)
    reads conn
  {
    forall p :: p in conn.parcels ==> p < conn.uuids
  }

  /** What the writing statements are given: nothing on the fast path, a right plan otherwise. */
  ghost predicate Prepared(t: Tables, same: bool, staging: Staging, cite: Citation, plan: Plan)
    requires OneLive(t.facts)
  {
    if same then plan == NOTHING
    else
      && (GeometryAccepted(plan.changes.geomCache) <==> KnownPolygonal(t, staging))
      && (KnownPolygonal(t, staging) ==> RightPlan(t, staging, cite, plan))
      && forall at :: IdentitiesAccepted(t.identities, plan, cite, at) <==>
           SeenBefore(t, staging, cite.retrievedAt) && GoneSeenBy(t, staging, at)
  }

  lemma RowsAreMinted(t: Tables, staging: Staging, cite: Citation, plan: Plan)
    requires IdentityPlan(t, staging, cite, plan)
    ensures plan.parcelRows.Keys == plan.minted.Values
  {
  }

  lemma PlanIsPrepared(t: Tables, now: Time, staging: Staging, cite: Citation, plan: Plan)
    requires Kept(t, now) && IdentityPlan(t, staging, cite, plan)
    requires UpdatesPlan(Observed(t.facts, t.identities, staging, cite), VisibleIds(t, staging), plan.changes)
    requires GeometryAccepted(plan.changes.geomCache) ==> RightPlan(t, staging, cite, plan)
    ensures Prepared(t, false, staging, cite, plan)
  {
    AcceptedIffPolygonal(t, now, staging, cite, plan.changes);
    forall at ensures IdentitiesAccepted(t.identities, plan, cite, at) <==>
      SeenBefore(t, staging, cite.retrievedAt) && GoneSeenBy(t, staging, at)
    {
      IdentitiesAcceptedIff(t, staging, cite, plan, at);
    }
  }

  method PrepareLists(conn: Connection, same: bool, staging: Staging, cite: Citation, ghost t: Tables) returns (plan: Plan)
    requires t == conn.Image() && Kept(t, conn.clock) && Fresh(conn)
    modifies conn`uuids
    ensures Prepared(t, same, staging, cite, plan)
    ensures conn.uuids >= old(conn.uuids) && forall p :: p in plan.parcelRows ==> p < conn.uuids
  {
    plan := NOTHING;
    if !same {
      var next;
      plan, next := PlanReconcile(conn.Image(), conn.clock, staging, cite, conn.uuids);
      RowsAreMinted(t, staging, cite, plan);
      PlanIsPrepared(t, conn.clock, staging, cite, plan);
      conn.uuids := next;
    }
  }

  ghost function RunTarget(t: Tables, same: bool, staging: Staging, plan: Plan): Target {
    if !same && Injective(AllParcels(t.identities, plan.minted)) then FullTarget(t, staging, plan.minted) else map[]
  }

  lemma NoIdentityMoves(identities: map<FeatureId, Identity>, parcels: map<ParcelId, Parcel>, cite: Citation, at: Time)
    requires IdentitiesHold(identities, parcels)
    ensures IdentitiesAccepted(identities, NOTHING, cite, at)
  {
    assert identities + map[] == identities;
    assert RetireAll(identities, {}, cite.snapshot, at) == identities;
    assert TouchAll(identities, map[], cite) == identities;
  }

  lemma NothingIsAccepted(t: Tables, cite: Citation, m: Moments, now: Time)
    requires Sound(t.facts) && ExceptionsHold(t.exceptions, now) && IdentitiesHold(t.identities, t.parcels)
    requires now < m.closedApn < m.closedGone
    ensures Accepted(t, NOTHING, cite, map[], m)
  {
    NothingPlanned(t.facts);
    ClosedAfterKeeps(t.exceptions, now, NOTHING.changes, m.closedApn, m.closedGone);
    NoIdentityMoves(t.identities, t.parcels, cite, m.at);
  }

  /** The database accepts the writes exactly when the snapshot fits. */
  lemma FittingIsAccepted(t: Tables, now: Time, same: bool, staging: Staging, cite: Citation, plan: Plan, m: Moments)
    requires Kept(t, now) && Prepared(t, same, staging, cite, plan) && now < m.closedApn < m.closedGone
    ensures Fits(t, same, staging, cite, m.at) ==>
      Accepted(t, plan, cite, RunTarget(t, same, staging, plan), m)
      && Achieved(t, AfterWrites(t, plan, cite, m), same, staging, cite, m)
    ensures GeometryAccepted(plan.changes.geomCache) && IdentitiesAccepted(t.identities, plan, cite, m.at) ==>
      Fits(t, same, staging, cite, m.at)
  {
    if same {
      NothingIsAccepted(t, cite, m, now);
      NothingIsWritten(t, cite, m);
    } else if KnownPolygonal(t, staging) {
      RowsAreAccepted(t, now, staging, cite, plan, m);
      if GeometryAccepted(plan.changes.geomCache) && IdentitiesAccepted(t.identities, plan, cite, m.at) {
        APlan(t, AfterWrites(t, plan, cite, m), staging, cite, m, plan);
      }
    }
  }

  lemma AchievedKeeps(t: Tables, now: Time, after: Tables, same: bool, staging: Staging, cite: Citation, m: Moments)
    requires Settled(t, now) && Achieved(t, after, same, staging, cite, m)
    requires now <= m.started <= m.at < m.closedApn < m.closedGone
    ensures Settled(after, m.closedGone)
  {
    if same { SettledLater(t, t.jobs, now, m.closedGone); }
    else { ReconciledSettles(t, now, after, staging, cite, m); }
  }

  /** Everything before the first statement that writes, and whether the database will take what follows. */
  method Prepare(conn: Connection, same: bool, staging: Staging, cite: Citation, ghost t: Tables, ghost m: Moments)
    returns (plan: Plan, ghost target: Target, ghost fits: bool, ghost after: Tables)
    requires t == conn.Image() && Settled(t, conn.clock) && Fresh(conn) && conn.clock < m.closedApn < m.closedGone
    modifies conn`uuids
    ensures conn.uuids >= old(conn.uuids) && forall q :: q in after.parcels ==> q < conn.uuids
    ensures fits <==> Fits(t, same, staging, cite, m.at)
    ensures Ready(t, plan, cite, target, m, fits, after)
    ensures fits ==> Achieved(t, after, same, staging, cite, m)
  {
    SettledIsKept(t, conn.clock);
    plan := PrepareLists(conn, same, staging, cite, t);
    fits := Fits(t, same, staging, cite, m.at);
    target := RunTarget(t, same, staging, plan);
    after := AfterWrites(t, plan, cite, m);
    FittingIsAccepted(t, conn.clock, same, staging, cite, plan, m);
  }

  /** One transaction: plan, write, mark the run succeeded, commit.  Nothing before
      the commit is durable, and the run's status is part of it. */
  method RunTransaction(conn: Connection, job: nat, same: bool, staging: Staging, cite: Citation, started: Time, at: Time,
                        fault: Fault, ghost t: Tables, ghost m: Moments) returns (p: Progress, ghost after: Tables)
    requires t == conn.Image() == conn.saved && Settled(t, conn.clock) && Fresh(conn) && job < |conn.jobs|
    requires m == Moments(started, at, conn.clock + 1, conn.clock + 2)
    modifies conn
    ensures conn.clock >= old(conn.clock) && conn.uuids >= old(conn.uuids) && conn.currentFact == old(conn.currentFact)
    ensures p.Going? <==> fault.Spares(1, 16) && Fits(t, same, staging, cite, m.at)
    ensures !p.Going? ==> conn.saved == t
    ensures p.Going? ==> conn.Idle() && m.closedGone < conn.clock && Achieved(t, after, same, staging, cite, m)
    ensures p.Going? ==> conn.saved == after.(jobs := Succeeds(t.jobs, job, cite.snapshot, conn.clock))
    ensures p.Going? ==> forall q :: q in conn.parcels ==> q < conn.uuids
  {
    var plan;
    ghost var target, fits;
    plan, target, fits, after := Prepare(conn, same, staging, cite, t, m);
    p := WriteAndCommit(conn, job, plan, cite, target, started, at, fault, t, m, fits, after);
  }

  /** The file can be read on this path. */
  predicate Readable(same: bool, features: seq<Feature>, identities: map<FeatureId, Identity>) {
    if same then AllKnown(features, identities) else Stageable(features)
  }

  method ReadSnapshot(same: bool, features: seq<Feature>, identities: map<FeatureId, Identity>)
    returns (ok: bool, staging: Staging)
    ensures ok <==> Readable(same, features, identities)
    ensures ok && !same ==> Identified(features) && staging == StagingOf(features)
  {
    staging := map[];
    if same {
      ok := VerifyUnchanged(features, identities);
    } else {
      var staged := Stage(features);
      ok := staged.Some?;
      if ok { staging := staged.value; }
    }
  }

  lemma SettledAfter(t: Tables, now: Time, after: Tables, same: bool, staging: Staging, cite: Citation, m: Moments,
                  jobs: seq<JobRun>, later: Time)
    requires Settled(t, now) && Achieved(t, after, same, staging, cite, m)
    requires now <= m.started <= m.at < m.closedApn < m.closedGone <= later
    ensures Settled(after.(jobs := jobs), later)
  {
    AchievedKeeps(t, now, after, same, staging, cite, m);
    SettledLater(after, jobs, m.closedGone, later);
  }

  /** The `try` block. */
  method Attempt(conn: Connection, job: nat, same: bool, features: seq<Feature>, cite: Citation, started: Time, at: Time,
                 fault: Fault, ghost t: Tables, ghost staging: Staging, ghost m: Moments)
    returns (p: Progress, ghost after: Tables)
    requires t == conn.Image() == conn.saved && Settled(t, conn.clock) && Fresh(conn) && job < |conn.jobs|
    requires m == Moments(started, at, conn.clock + 1, conn.clock + 2)
    requires !same && Identified(features) ==> staging == StagingOf(features)
    modifies conn
    ensures conn.clock >= old(conn.clock) && conn.uuids >= old(conn.uuids) && conn.currentFact == old(conn.currentFact)
    ensures p.Going? <==> fault.Spares(0, 16) && Readable(same, features, t.identities) && Fits(t, same, staging, cite, m.at)
    ensures !p.Going? ==> conn.saved == t
    ensures p.Going? ==> conn.Idle() && m.closedGone < conn.clock && Achieved(t, after, same, staging, cite, m)
    ensures p.Going? ==> conn.saved == after.(jobs := Succeeds(t.jobs, job, cite.snapshot, conn.clock))
    ensures p.Going? ==> forall q :: q in conn.parcels ==> q < conn.uuids
  {
    after := t;
    p := fault.At(0);
    if p != Going { return; }
    var ok, table := ReadSnapshot(same, features, conn.identities);
    if !ok { p := Raised; return; }
    p, after := RunTransaction(conn, job, same, if same then map[] else table, cite, started, at, fault, t, m);
  }

  /** The invariants at the end of a run, however it ended. */
  lemma SettledAtTheEnd(t: Tables, now: Time, p: Progress, after: Tables, same: bool, staging: Staging, cite: Citation, m: Moments,
                     image: Tables, later: Time)
    requires Settled(t, now) && now <= m.started <= m.at < m.closedApn < m.closedGone && now <= later
    requires p.Going? ==> Achieved(t, after, same, staging, cite, m) && m.closedGone <= later && image == after.(jobs := image.jobs)
    requires !p.Going? ==> image == t.(jobs := image.jobs)
    ensures Settled(image, later)
  {
    if p.Going? { SettledAfter(t, now, after, same, staging, cite, m, image.jobs, later); }
    else { SettledLater(t, image.jobs, now, later); }
  }

  /** From the `try` block to the refresh of the read model. */
  method RunJob(conn: Connection, job: nat, same: bool, features: seq<Feature>, cite: Citation, started: Time, at: Time, fault: Fault,
                refreshFails: bool, ghost t: Tables, ghost staging: Staging, ghost m: Moments)
    returns (end: Ending, ghost after: Tables)
    requires t == conn.Image() == conn.saved && Settled(t, started) && Fresh(conn) && job < |t.jobs|
    requires m == Moments(started, at, conn.clock + 1, conn.clock + 2) && started <= at <= conn.clock
    requires !same && Identified(features) ==> staging == StagingOf(features)
    modifies conn
    ensures conn.clock >= old(conn.clock) && conn.Idle() && Settled(conn.Image(), conn.clock) && Fresh(conn)
    ensures end.Committed? <==> fault.Spares(0, 16) && Readable(same, features, t.identities) && Fits(t, same, staging, cite, m.at)
    ensures !end.Committed? ==> conn.Image() == t.(jobs := conn.jobs)
    ensures end.Committed? ==> m.closedGone <= conn.clock && Achieved(t, after, same, staging, cite, m)
    ensures end.Committed? ==> conn.Image() == after.(jobs := conn.jobs)
    ensures conn.jobs == t.jobs[job := Recorded(t.jobs[job], end, cite.snapshot, conn.clock)]
    ensures conn.currentFact == if end.Committed? && fault.At(16) != Died && !refreshFails then conn.facts else old(conn.currentFact)
  {
    SettledLater(t, t.jobs, started, conn.clock);
    var p;
    p, after := Attempt(conn, job, same, features, cite, started, at, fault, t, staging, m);
    end := Conclude(conn, job, p, t);
    SettledAtTheEnd(t, started, p, after, same, staging, cite, m, conn.Image(), conn.clock);
    if p == Going && fault.At(16) != Died { conn.RefreshCurrentFact(refreshFails); }
  }

  /** `phase_e`, from the lookup of the anchor on. */
  method PhaseE(conn: Connection, features: seq<Feature>, cite: Citation, fault: Fault, refreshFails: bool)
    returns (end: Ending, ghost t: Tables, ghost same: bool, ghost staging: Staging, ghost m: Moments, ghost after: Tables)
    requires conn.Idle() && Settled(conn.Image(), conn.clock) && Fresh(conn)
    modifies conn
    ensures conn.Idle() && Settled(conn.Image(), conn.clock) && Fresh(conn) && conn.clock > old(conn.clock)
    ensures same <==> PreviousSuccessful(old(conn.jobs), ParcelsSource) == Some(cite.snapshot)
    ensures m == Moments(old(conn.clock) + 2, old(conn.clock) + 3, old(conn.clock) + 4, old(conn.clock) + 5)
    ensures staging == if Identified(features) then StagingOf(features) else map[]
    ensures t == old(conn.Image()).(jobs := t.jobs)
    ensures end.Committed? <==> fault.Spares(0, 16) && Readable(same, features, t.identities) && Fits(t, same, staging, cite, m.at)
    ensures !end.Committed? ==> conn.Image() == old(conn.Image()).(jobs := conn.jobs)
    ensures end.Committed? ==> m.closedGone <= conn.clock && Achieved(t, after, same, staging, cite, m)
    ensures end.Committed? ==> conn.Image() == after.(jobs := conn.jobs)
    ensures conn.jobs == old(conn.jobs) +
      [JobRun(FullLoad, ParcelsSource, match end { case Committed => Succeeded case MarkedFailed => JobStatus.Failed case Dead => Running },
              if end.Committed? then Some(cite.snapshot) else None, old(conn.clock) + 1, if end.Dead? then None else Some(conn.clock))]
    ensures conn.currentFact == if end.Committed? && fault.At(16) != Died && !refreshFails then conn.facts else old(conn.currentFact)
  {
    var shortcut := PreviousSuccessful(conn.jobs, ParcelsSource) == Some(cite.snapshot);
    var job := conn.StartJob(FullLoad, ParcelsSource);
    var started := conn.Now();
    var at := conn.Now();
    same, staging, t := shortcut, if Identified(features) then StagingOf(features) else map[], conn.Image();
    m := Moments(started, at, conn.clock + 1, conn.clock + 2);
    SettledLater(old(conn.Image()), conn.jobs, old(conn.clock), started);
    end, after := RunJob(conn, job, shortcut, features, cite, started, at, fault, refreshFails, t, staging, m);
  }
}
