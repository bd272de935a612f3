/** What a committed parcels reconcile means, for every state any history can reach. */
module ParcelsTheorems {
  import opened Schema
  import opened Ledger
  import opened Exceptions
  import opened Identifiers
  import opened ParcelsModel
  import opened ParcelsLists
  import opened ParcelsReconcile
  import opened ParcelsWrites
  import opened ParcelsKeep
  import opened Invariants

  // ------------------------------------------------------------------ the diff is a rebuild

  /** The feature's parcel holds, for each field the source supplies, what the feature supports. */
  ghost predicate HoldsFeature(facts: seq<Fact>, p: ParcelId, f: FeatureId, s: Staged) {
    Holds(facts, p, field => Supported(f, s, field))
  }

  /** From any state, a reconcile leaves every feature it can compare exactly as a ledger
      built from the snapshot alone would have it, identity live, whatever came before. */
  lemma DiffIsRebuild(a: Tables, now: Time, b: Tables, staging: Staging, cite: Citation, m: Moments, f: FeatureId)
    requires Settled(a, now) && Reconciled(a, b, staging, cite, m) && Decided(a, staging, f)
    ensures f in b.identities && b.identities[f].retiredAt.None?
    ensures HoldsFeature(b.facts, b.identities[f].parcel, f, staging[f])
  {
    SettledIsKept(a, now);
    var plan := ThePlan(a, b, staging, cite, m);
    IdentityAfter(a, staging, cite, plan, m.at, f);
    IdentityParcels(a, staging, cite, plan, m.at);
    assert b.identities[f].parcel == ParcelsOf(b.identities)[f];
    ValuesAfter(a, now, staging, cite, plan, m, f);
    if f in a.identities { KnownRetired(a, staging, cite, plan, m.at, f); }
  }

  /** A known feature outside the snapshot, or one the change query cannot see, keeps every value it had. */
  lemma TheRestIsLeftAlone(a: Tables, now: Time, b: Tables, staging: Staging, cite: Citation, m: Moments, f: FeatureId)
    requires Settled(a, now) && Reconciled(a, b, staging, cite, m) && f in a.identities && !Decided(a, staging, f)
    ensures f in b.identities && b.identities[f].parcel == a.identities[f].parcel
    ensures b.identities[f].retiredAt.Some? <==> f !in staging || a.identities[f].retiredAt.Some?
    ensures Holds(b.facts, b.identities[f].parcel, field => LiveValue(a.facts, FieldKey(a.identities[f].parcel, field)))
  {
    SettledIsKept(a, now);
    var plan := ThePlan(a, b, staging, cite, m);
    KnownRetired(a, staging, cite, plan, m.at, f);
    IdentityParcels(a, staging, cite, plan, m.at);
    ValuesAfter(a, now, staging, cite, plan, m, f);
  }

  /** So one feature of the snapshot ends up as a rebuild would have it exactly when the reconcile
      could compare it, or its parcel said so already. */
  lemma RebuiltExactlyWhen(a: Tables, now: Time, b: Tables, staging: Staging, cite: Citation, m: Moments, f: FeatureId)
    requires Settled(a, now) && Reconciled(a, b, staging, cite, m) && f in staging
    ensures f in b.identities
    ensures HoldsFeature(b.facts, b.identities[f].parcel, f, staging[f]) <==>
      f in a.identities && LiveGeometry(a.facts, a.identities[f]).None? ==>
        HoldsFeature(a.facts, a.identities[f].parcel, f, staging[f])
  {
    if Decided(a, staging, f) {
      DiffIsRebuild(a, now, b, staging, cite, m, f);
    } else {
      TheRestIsLeftAlone(a, now, b, staging, cite, m, f);
      var p := a.identities[f].parcel;
      assert forall field :: field in PARCEL_FIELDS ==>
        LiveValue(b.facts, FieldKey(p, field)) == LiveValue(a.facts, FieldKey(p, field));
    }
  }

  ghost function LiveFeatures(t: Tables): set<FeatureId> {
    set f | f in t.identities && t.identities[f].retiredAt.None?
  }

  /** A retired identity whose parcel holds no live geometry: nothing can bring it back. */
  ghost predicate Stranded(t: Tables, f: FeatureId) {
    f in t.identities && t.identities[f].retiredAt.Some? && LiveGeometry(t.facts, t.identities[f]).None?
  }

  /** The live identities are the snapshot's features, except the stranded ones among
      them; so they are exactly the snapshot's features when, and only when, it has none. */
  lemma LiveIdentitiesAreTheSnapshot(a: Tables, now: Time, b: Tables, staging: Staging, cite: Citation, m: Moments)
    requires Settled(a, now) && Reconciled(a, b, staging, cite, m)
    ensures forall f :: f in LiveFeatures(b) <==> f in staging && !Stranded(a, f)
    ensures LiveFeatures(b) == staging.Keys <==> forall f :: f in staging ==> !Stranded(a, f)
  {
    forall f ensures f in LiveFeatures(b) <==> f in staging && !Stranded(a, f) {
      OneIsLive(a, now, b, staging, cite, m, f);
    }
    AllOrSome(a, LiveFeatures(b), staging);
  }

  lemma AllOrSome(a: Tables, live: set<FeatureId>, staging: Staging)
    requires forall f :: f in live <==> f in staging && !Stranded(a, f)
    ensures live == staging.Keys <==> forall f :: f in staging ==> !Stranded(a, f)
  {
    if live == staging.Keys {
      forall f | f in staging ensures !Stranded(a, f) { assert f in live; }
    }
  }

  lemma OneIsLive(a: Tables, now: Time, b: Tables, staging: Staging, cite: Citation, m: Moments, f: FeatureId)
    requires Settled(a, now) && Reconciled(a, b, staging, cite, m)
    ensures f in LiveFeatures(b) <==> f in staging && !Stranded(a, f)
  {
    if Decided(a, staging, f) {
      DiffIsRebuild(a, now, b, staging, cite, m, f);
    } else if f in a.identities {
      TheRestIsLeftAlone(a, now, b, staging, cite, m, f);
    } else {
      IdentitiesOnlyGrow(a, now, b, staging, cite, m);
    }
  }

  /** A database no loader has run on. */
  const EMPTY := Tables([], [], map[], map[], [])

  /** The diff against any history and the rebuild from nothing give a feature the same
      values, each under its own parcel. */
  lemma AnyHistoryAgreesWithARebuild(a: Tables, now: Time, b: Tables, rebuilt: Tables, staging: Staging, cite: Citation,
                                     cite': Citation, m: Moments, m': Moments, f: FeatureId, field: Field)
    requires Settled(a, now) && Reconciled(a, b, staging, cite, m) && Reconciled(EMPTY, rebuilt, staging, cite', m')
    requires Decided(a, staging, f) && field in PARCEL_FIELDS
    ensures f in b.identities && f in rebuilt.identities
    ensures LiveValue(b.facts, FieldKey(b.identities[f].parcel, field))
         == LiveValue(rebuilt.facts, FieldKey(rebuilt.identities[f].parcel, field))
  {
    EmptyIsSettled();
    DiffIsRebuild(a, now, b, staging, cite, m, f);
    DiffIsRebuild(EMPTY, 0, rebuilt, staging, cite', m', f);
    assert FieldKey(b.identities[f].parcel, field).field == FieldKey(rebuilt.identities[f].parcel, field).field == field;
  }

  lemma EmptyIsSettled()
    ensures Settled(EMPTY, 0)
  {
    SettledIsKept(EMPTY, 0);
  }

  /** Every known parcel holds a live geometry: the change query sees everything. */
  ghost predicate Tracked(t: Tables) {
    forall f :: f in t.identities ==> LiveGeometry(t.facts, t.identities[f]).Some?
  }

  predicate AllPolygonal(staging: Staging) {
    forall f :: f in staging ==> UnresolvableGeometry(staging[f].geometry).None?
  }

  /** Polygonal snapshots keep it so, and then nothing is ever missed: the live identities
      are the snapshot's features and each holds exactly what the snapshot supports. */
  lemma PolygonalHistoriesMissNothing(a: Tables, now: Time, b: Tables, staging: Staging, cite: Citation, m: Moments)
    requires Settled(a, now) && Reconciled(a, b, staging, cite, m) && Tracked(a) && AllPolygonal(staging)
    ensures Tracked(b) && LiveFeatures(b) == staging.Keys
    ensures forall f :: f in staging ==> f in b.identities && HoldsFeature(b.facts, b.identities[f].parcel, f, staging[f])
  {
    LiveIdentitiesAreTheSnapshot(a, now, b, staging, cite, m);
    forall f | f in staging
      ensures f in b.identities && HoldsFeature(b.facts, b.identities[f].parcel, f, staging[f])
      ensures LiveGeometry(b.facts, b.identities[f]).Some?
    {
      DiffIsRebuild(a, now, b, staging, cite, m, f);
      HoldsMeans(b.facts, b.identities[f], f, staging[f]);
    }
    forall f | f in b.identities && f !in staging ensures LiveGeometry(b.facts, b.identities[f]).Some? {
      OneIdentityGrows(a, now, b, staging, cite, m, f);
      GeometryStays(a, now, b, staging, cite, m, f);
    }
  }

  lemma GeometryStays(a: Tables, now: Time, b: Tables, staging: Staging, cite: Citation, m: Moments, f: FeatureId)
    requires Settled(a, now) && Reconciled(a, b, staging, cite, m) && f in a.identities && !Decided(a, staging, f)
    ensures f in b.identities && LiveGeometry(b.facts, b.identities[f]) == LiveGeometry(a.facts, a.identities[f])
  {
    TheRestIsLeftAlone(a, now, b, staging, cite, m, f);
    assert FieldKey(b.identities[f].parcel, GeometryField).field == GeometryField;
  }

  /** A parcel first seen without a storable geometry never gets a geometry or a new
      number from any later snapshot, and once retired it stays retired. */
  lemma UnseenForEver(a: Tables, now: Time, b: Tables, staging: Staging, cite: Citation, m: Moments, f: FeatureId)
    requires Settled(a, now) && Reconciled(a, b, staging, cite, m)
    requires f in a.identities && LiveGeometry(a.facts, a.identities[f]).None?
    ensures f in b.identities && LiveGeometry(b.facts, b.identities[f]).None?
    ensures LiveApn(b.facts, b.identities[f]) == LiveApn(a.facts, a.identities[f])
    ensures a.identities[f].retiredAt.Some? ==> b.identities[f].retiredAt.Some?
  {
    TheRestIsLeftAlone(a, now, b, staging, cite, m, f);
    assert FieldKey(b.identities[f].parcel, GeometryField).field == GeometryField;
    assert FieldKey(b.identities[f].parcel, Apn).field == Apn;
  }

  // ------------------------------------------------------------------ identities

  ghost predicate SameIdentity(was: Identity, id: Identity) {
    id.parcel == was.parcel && id.firstSeenSnapshot == was.firstSeenSnapshot && id.firstSeenAt == was.firstSeenAt
  }

  lemma OneIdentityGrows(a: Tables, now: Time, b: Tables, staging: Staging, cite: Citation, m: Moments, f: FeatureId)
    requires Settled(a, now) && Reconciled(a, b, staging, cite, m)
    ensures f in b.identities <==> f in a.identities || f in staging
    ensures f in a.identities ==> SameIdentity(a.identities[f], b.identities[f])
    ensures f in staging && f !in a.identities ==> b.identities[f].parcel !in a.parcels
  {
    SettledIsKept(a, now);
    var plan := ThePlan(a, b, staging, cite, m);
    IdentityParcels(a, staging, cite, plan, m.at);
    AllParcelsInjective(a, staging, plan.minted);
    assert f in b.identities <==> f in ParcelsOf(b.identities);
    if f in a.identities || f in staging { IdentityAfter(a, staging, cite, plan, m.at, f); }
  }

  /** The map from features to parcels only grows, stays injective, and gains exactly the
      snapshot's new features; a known feature keeps its parcel and its first sighting. */
  lemma IdentitiesOnlyGrow(a: Tables, now: Time, b: Tables, staging: Staging, cite: Citation, m: Moments)
    requires Settled(a, now) && Reconciled(a, b, staging, cite, m)
    ensures b.identities.Keys == a.identities.Keys + staging.Keys && Injective(ParcelsOf(b.identities))
    ensures forall f :: f in a.identities ==> SameIdentity(a.identities[f], b.identities[f])
    ensures forall f :: f in staging && f !in a.identities ==> b.identities[f].parcel !in a.parcels
  {
    forall f
      ensures f in b.identities <==> f in a.identities || f in staging
      ensures f in a.identities ==> SameIdentity(a.identities[f], b.identities[f])
      ensures f in staging && f !in a.identities ==> b.identities[f].parcel !in a.parcels
    {
      OneIdentityGrows(a, now, b, staging, cite, m, f);
    }
    ReconciledKeeps(a, now, b, staging, cite, m);
  }

  lemma ReconciledKeeps(a: Tables, now: Time, b: Tables, staging: Staging, cite: Citation, m: Moments)
    requires Settled(a, now) && Reconciled(a, b, staging, cite, m)
    ensures IdentitiesHold(b.identities, b.parcels)
  {
    SettledIsKept(a, now);
    var plan := ThePlan(a, b, staging, cite, m);
    IdentitiesStillHold(a, staging, cite, plan, m.at);
  }

  // ------------------------------------------------------------------ a second run on the same snapshot

  ghost predicate AgreesWith(t: Tables, staging: Staging, f: FeatureId)
    requires f in t.identities && f in staging
  {
    var id, s := t.identities[f], staging[f];
    && id.retiredAt.None?
    && LiveApn(t.facts, id) == ApnJson(StoredApn(s))
    && LiveGeometry(t.facts, id) == Some(GeometryJson(s.geometry)) && UnresolvableGeometry(s.geometry).None?
  }

  /** Nothing about the snapshot is left to write, except what `last_seen` says already. */
  ghost predicate Converged(t: Tables, staging: Staging, cite: Citation)
    requires OneLive(t.facts)
  {
    && staging.Keys <= t.identities.Keys && GoneIds(staging, t.identities) == {}
    && (forall f :: f in VisibleIds(t, staging) ==> AgreesWith(t, staging, f))
    && (forall f :: f in ChangedIds(t.facts, staging, t.identities) ==>
          t.identities[f].lastSeenSnapshot == cite.snapshot && t.identities[f].lastSeenAt == cite.retrievedAt)
  }

  /** The change query still returns a feature that was just reconciled only when the
      canonical form of its number is the empty string. */
  lemma StillChanged(t: Tables, staging: Staging, f: FeatureId)
    requires OneLive(t.facts) && f in ChangedIds(t.facts, staging, t.identities) && f in VisibleIds(t, staging)
    requires AgreesWith(t, staging, f) && WellRecorded(t.facts, f, t.identities[f])
    ensures Canonicalize(staging[f].apn) == Some("") && LiveApn(t.facts, t.identities[f]).None?
  {
    LiveRowsInRange(t.facts);
    SqlFilterIsWider(staging[f].apn);
  }

  /** And the query returned it in the first place. */
  lemma BlankIsChanged(t: Tables, staging: Staging, f: FeatureId)
    requires OneLive(t.facts) && f in VisibleIds(t, staging) && WellRecorded(t.facts, f, t.identities[f])
    requires Canonicalize(staging[f].apn) == Some("")
    ensures f in ChangedIds(t.facts, staging, t.identities)
  {
    LiveRowsInRange(t.facts);
    SqlFilterIsWider(staging[f].apn);
    BlankIsEmpty("");
  }

  lemma HoldsMeans(facts: seq<Fact>, id: Identity, f: FeatureId, s: Staged)
    requires HoldsFeature(facts, id.parcel, f, s)
    ensures LiveApn(facts, id) == ApnJson(StoredApn(s)) && LiveGeometry(facts, id) == Supported(f, s, GeometryField)
    ensures WellRecorded(facts, f, id)
  {
    SupportedIsWellRecorded(facts, f, id, s);
  }

  lemma UnseenStaysUnseen(a: Tables, now: Time, b: Tables, staging: Staging, cite: Citation, m: Moments, f: FeatureId)
    requires Settled(a, now) && Reconciled(a, b, staging, cite, m) && f in a.identities && !Decided(a, staging, f) && f in staging
    ensures f in b.identities && LiveGeometry(b.facts, b.identities[f]).None?
  {
    TheRestIsLeftAlone(a, now, b, staging, cite, m, f);
    assert FieldKey(b.identities[f].parcel, GeometryField).field == GeometryField;
  }

  lemma OneAgrees(a: Tables, now: Time, b: Tables, staging: Staging, cite: Citation, m: Moments, f: FeatureId)
    requires Settled(a, now) && Reconciled(a, b, staging, cite, m) && f in VisibleIds(b, staging)
    ensures AgreesWith(b, staging, f) && Decided(a, staging, f) && WellRecorded(b.facts, f, b.identities[f])
  {
    if Decided(a, staging, f) {
      DiffIsRebuild(a, now, b, staging, cite, m, f);
      HoldsMeans(b.facts, b.identities[f], f, staging[f]);
    } else {
      UnseenStaysUnseen(a, now, b, staging, cite, m, f);
    }
  }

  lemma LastSeenAlready(a: Tables, now: Time, b: Tables, staging: Staging, cite: Citation, m: Moments, f: FeatureId)
    requires Settled(a, now) && Reconciled(a, b, staging, cite, m)
    requires f in staging && Decided(a, staging, f) && Canonicalize(staging[f].apn) == Some("")
    ensures f in b.identities && b.identities[f].lastSeenSnapshot == cite.snapshot && b.identities[f].lastSeenAt == cite.retrievedAt
  {
    SettledIsKept(a, now);
    var plan := ThePlan(a, b, staging, cite, m);
    if f in a.identities { BlankIsChanged(a, staging, f); }
    IdentityAfter(a, staging, cite, plan, m.at, f);
  }

  /** A reconcile converges. */
  lemma ReconciledConverges(a: Tables, now: Time, b: Tables, staging: Staging, cite: Citation, m: Moments)
    requires Settled(a, now) && Reconciled(a, b, staging, cite, m) && OneLive(b.facts)
    ensures Converged(b, staging, cite)
  {
    IdentitiesOnlyGrow(a, now, b, staging, cite, m);
    LiveIdentitiesAreTheSnapshot(a, now, b, staging, cite, m);
    ConvergedFrom(a, now, b, staging, cite, m);
    assert GoneIds(staging, b.identities) == {} by {
      forall f | f in b.identities && b.identities[f].retiredAt.None? ensures f in staging { assert f in LiveFeatures(b); }
    }
  }

  lemma ConvergedFrom(a: Tables, now: Time, b: Tables, staging: Staging, cite: Citation, m: Moments)
    requires Settled(a, now) && Reconciled(a, b, staging, cite, m) && OneLive(b.facts)
    ensures forall f :: f in VisibleIds(b, staging) ==> AgreesWith(b, staging, f)
    ensures forall f :: f in ChangedIds(b.facts, staging, b.identities) ==>
      b.identities[f].lastSeenSnapshot == cite.snapshot && b.identities[f].lastSeenAt == cite.retrievedAt
  {
    ChangedAreVisible(b, staging);
    forall f | f in VisibleIds(b, staging) ensures AgreesWith(b, staging, f) {
      OneAgrees(a, now, b, staging, cite, m, f);
    }
    forall f | f in ChangedIds(b.facts, staging, b.identities)
      ensures b.identities[f].lastSeenSnapshot == cite.snapshot && b.identities[f].lastSeenAt == cite.retrievedAt
    {
      OneAgrees(a, now, b, staging, cite, m, f);
      StillChanged(b, staging, f);
      LastSeenAlready(a, now, b, staging, cite, m, f);
    }
  }

  lemma NothingMoves(t: Tables, staging: Staging, cite: Citation)
    requires OneLive(t.facts) && Converged(t, staging, cite)
    ensures var o, visible := Observed(t.facts, t.identities, staging, cite), VisibleIds(t, staging);
      ResolvedParcels(o, visible) == {} && ReappearedParcels(o, visible) == {} && DegradedPairs(o, visible) == {}
  {
    var o, visible := Observed(t.facts, t.identities, staging, cite), VisibleIds(t, staging);
    forall f | f in visible ensures !o.Resolves(f) && !o.Degrades(f) && o.identities[f].retiredAt.None? {
      assert AgreesWith(t, staging, f);
    }
  }

  lemma NothingOpens(t: Tables, staging: Staging, cite: Citation, plan: Plan)
    requires OneLive(t.facts) && Converged(t, staging, cite)
    requires plan.minted.Keys == NewIds(staging, t.identities) && plan.gone == GoneIds(staging, t.identities)
    requires ExceptionsPlan(Observed(t.facts, t.identities, staging, cite), t.exceptions, VisibleIds(t, staging), plan)
    ensures plan.minted == map[] && plan.gone == {} && plan.changes.exceptions == []
  {
    NothingMoves(t, staging, cite);
    assert plan.minted.Keys == {};
    if plan.changes.exceptions != [] { AddedPair(t, staging, cite, plan, 0); }
  }

  lemma NothingInTheLifecycle(rows: Rows, c: Changes, closedApn: Time, closedGone: Time)
    requires c.exceptions == [] && c.resolved == {} && c.reappeared == {}
    ensures LifecycleAfter(rows, c, closedApn, closedGone) == rows
  {
    assert OfParcels(rows, APN_UNRESOLVABLE, {}) == {} && OfParcels(rows, PARCEL_DISAPPEARED, {}) == {};
    assert Close(rows, {}, ConditionCleared, ByDetector(ApnUnresolvable), closedApn) == rows;
    assert Close(rows, {}, ConditionCleared, ByDetector(ParcelDisappeared), closedGone) == rows;
  }

  lemma AgreedField(t: Tables, staging: Staging, f: FeatureId, field: Field)
    requires f in t.identities && f in staging && AgreesWith(t, staging, f) && WellRecorded(t.facts, f, t.identities[f])
    requires field in PARCEL_FIELDS
    ensures SupportedBy(staging)(f, field) == LiveValue(t.facts, FieldKey(t.identities[f].parcel, field))
  {
  }

  lemma AgreedKey(t: Tables, staging: Staging, cite: Citation, minted: map<FeatureId, ParcelId>, k: Key)
    requires OneLive(t.facts) && Converged(t, staging, cite) && minted == map[] && Injective(AllParcels(t.identities, minted))
    requires forall f :: f in t.identities ==> WellRecorded(t.facts, f, t.identities[f])
    requires k in FullTarget(t, staging, minted)
    ensures FullTarget(t, staging, minted)[k] == LiveValue(t.facts, k)
  {
    var all := AllParcels(t.identities, minted);
    var f := OnlyTarget(all, SupportedBy(staging), minted.Keys + VisibleIds(t, staging), k);
    VisibleAgrees(t, staging, cite, f);
    assert all[f] == t.identities[f].parcel;
    AgreedField(t, staging, f, k.field);
  }

  lemma VisibleAgrees(t: Tables, staging: Staging, cite: Citation, f: FeatureId)
    requires OneLive(t.facts) && Converged(t, staging, cite) && f in VisibleIds(t, staging)
    ensures AgreesWith(t, staging, f)
  {
  }

  lemma NothingInTheLedger(t: Tables, after: seq<Fact>, staging: Staging, cite: Citation, plan: Plan, m: Moments)
    requires OneLive(t.facts) && Converged(t, staging, cite) && plan.minted == map[]
    requires Injective(AllParcels(t.identities, plan.minted))
    requires forall f :: f in t.identities ==> WellRecorded(t.facts, f, t.identities[f])
    requires Refreshed(t.facts, after, FullTarget(t, staging, plan.minted), cite, m.started, m.at)
    ensures after == t.facts
  {
    var target := FullTarget(t, staging, plan.minted);
    forall k | k in target ensures target[k] == LiveValue(t.facts, k) {
      AgreedKey(t, staging, cite, plan.minted, k);
    }
    RefreshIsIdle(t.facts, after, target, cite, m.started, m.at);
  }

  lemma NothingInTheIdentities(t: Tables, staging: Staging, cite: Citation, plan: Plan, at: Time)
    requires OneLive(t.facts) && Converged(t, staging, cite) && plan.minted == map[] && plan.gone == {}
    requires NewRowsPlanned(staging, cite, plan.minted, plan.parcelRows, plan.identityRows)
    requires plan.changes.touches ==
      map f | f in ChangedIds(t.facts, staging, t.identities) :: t.identities[f].retiredAt.Some?
    ensures IdentitiesAfter(t.identities, plan, cite, at) == t.identities
  {
    var r := IdentitiesAfter(t.identities, plan, cite, at);
    assert plan.identityRows.Keys == {};
    ChangedAreVisible(t, staging);
    forall f | f in t.identities ensures f in r && r[f] == t.identities[f] {
      if f in plan.changes.touches { assert AgreesWith(t, staging, f); }
    }
    assert r.Keys == t.identities.Keys;
  }

  lemma NothingInTheParcels(t: Tables, staging: Staging, cite: Citation, plan: Plan)
    requires OneLive(t.facts) && Converged(t, staging, cite) && plan.minted == map[]
    requires NewRowsPlanned(staging, cite, plan.minted, plan.parcelRows, plan.identityRows)
    requires UpdatesPlan(Observed(t.facts, t.identities, staging, cite), VisibleIds(t, staging), plan.changes)
    ensures ParcelsAfter(t.parcels, plan) == t.parcels
  {
    var o, visible := Observed(t.facts, t.identities, staging, cite), VisibleIds(t, staging);
    forall f | f in visible ensures !ApnMoves(o.facts, o.identities[f], staging[f]) && !GeometryMoves(o.facts, o.identities[f], staging[f]) {
      assert AgreesWith(t, staging, f);
    }
    assert ApnMovers(o, visible) == {} && GeometryMovers(o, visible) == {};
    assert plan.changes.apnCache == map[] && plan.changes.geomCache == map[];
    assert plan.parcelRows.Keys == {};
    var r := ParcelsAfter(t.parcels, plan);
    assert forall p :: p in t.parcels ==> r[p] == t.parcels[p];
    assert r.Keys == t.parcels.Keys;
  }

  /** A full reconcile of converged tables changes nothing: it is the shortcut. */
  lemma ConvergedIsFixed(t: Tables, now: Time, after: Tables, staging: Staging, cite: Citation, m: Moments)
    requires Kept(t, now) && Converged(t, staging, cite) && Reconciled(t, after, staging, cite, m)
    ensures after == t
  {
    var plan := ThePlan(t, after, staging, cite, m);
    NothingOpens(t, staging, cite, plan);
    NothingMoves(t, staging, cite);
    FactsAreRefreshed(t, staging, cite, plan, m);
    NothingInTheLedger(t, after.facts, staging, cite, plan, m);
    NothingInTheLifecycle(t.exceptions, plan.changes, m.closedApn, m.closedGone);
    NothingInTheIdentities(t, staging, cite, plan, m.at);
    NothingInTheParcels(t, staging, cite, plan);
  }

  /** Reconciling the snapshot just reconciled adds no fact, supersession, exception,
      closing, link, parcel, retirement or sighting. */
  lemma SecondRunIsIdle(a: Tables, now: Time, b: Tables, c: Tables, later: Time, staging: Staging, cite: Citation,
                        m: Moments, m': Moments)
    requires Settled(a, now) && Reconciled(a, b, staging, cite, m)
    requires Settled(b, later) && Reconciled(b, c, staging, cite, m')
    ensures c == b
  {
    SettledIsKept(b, later);
    ReconciledConverges(a, now, b, staging, cite, m);
    ConvergedIsFixed(b, later, c, staging, cite, m');
  }

  // ------------------------------------------------------------------ isolation

  /** Rows that are not about the parcels source are the same rows afterwards. */
  lemma OtherFactsAreUntouched(a: Tables, b: Tables, staging: Staging, cite: Citation, m: Moments)
    requires Reconciled(a, b, staging, cite, m)
    ensures |a.facts| <= |b.facts|
    ensures forall i {:trigger b.facts[i]} :: 0 <= i < |b.facts| && b.facts[i].key.source != ParcelsSource ==>
      i < |a.facts| && b.facts[i] == a.facts[i]
  {
    var plan := ThePlan(a, b, staging, cite, m);
    var all, features := AllParcels(a.identities, plan.minted), plan.minted.Keys + VisibleIds(a, staging);
    FactsAreRefreshed(a, staging, cite, plan, m);
    TargetIsParcels(all, SupportedBy(staging), features);
    RefreshIsLocal(a.facts, b.facts, FullTarget(a, staging, plan.minted), cite, m.started, m.at, ParcelsSource);
  }

  const PARCEL_DETECTORS := {APN_UNRESOLVABLE, GEOMETRY_DECLARED_GAP, PARCEL_DISAPPEARED}

  lemma AddedAreOurs(t: Tables, staging: Staging, cite: Citation, plan: Plan)
    requires ExceptionsPlan(Observed(t.facts, t.identities, staging, cite), t.exceptions, VisibleIds(t, staging), plan)
    ensures forall j :: 0 <= j < |plan.changes.exceptions| ==>
      plan.changes.exceptions[j].detector in PARCEL_DETECTORS
  {
    forall j | 0 <= j < |plan.changes.exceptions|
      ensures plan.changes.exceptions[j].detector in PARCEL_DETECTORS
    {
      AddedPair(t, staging, cite, plan, j);
    }
  }

  /** So are the exception rows of every other detector. */
  lemma OtherExceptionsAreUntouched(a: Tables, b: Tables, staging: Staging, cite: Citation, m: Moments)
    requires Reconciled(a, b, staging, cite, m)
    ensures SameFor(a.exceptions, b.exceptions, PARCEL_DETECTORS)
  {
    var plan := ThePlan(a, b, staging, cite, m);
    AddedAreOurs(a, staging, cite, plan);
    OtherLifecycle(a.exceptions, plan.changes, m.closedApn, m.closedGone);
  }

  lemma OtherLifecycle(rows: Rows, c: Changes, closedApn: Time, closedGone: Time)
    requires forall j :: 0 <= j < |c.exceptions| ==>
      c.exceptions[j].detector in PARCEL_DETECTORS
    ensures SameFor(rows, LifecycleAfter(rows, c, closedApn, closedGone), PARCEL_DETECTORS)
  {
    var ours := PARCEL_DETECTORS;
    var closed := ClosedAfter(rows, c, closedApn, closedGone);
    var half := Close(rows, OfParcels(rows, APN_UNRESOLVABLE, c.resolved), ConditionCleared, ByDetector(ApnUnresolvable), closedApn);
    assert SameFor(rows, half, ours) && SameFor(half, closed, ours);
    SameThrough(rows, half, closed, ours);
    OtherReopened(closed, c.exceptions, ours);
    SameThrough(rows, closed, Reopened(closed, c.exceptions), ours);
  }

  lemma OtherReopened(rows: Rows, added: seq<NewException>, ours: set<Detector>)
    requires APN_UNRESOLVABLE in ours && PARCEL_DISAPPEARED in ours
    requires forall j :: 0 <= j < |added| ==> added[j].detector in ours
    ensures SameFor(rows, Reopened(rows, added), ours)
  {
    var more := Append(rows, added);
    assert SameFor(rows, more, ours);
    assert SameFor(more, Relink(more, APN_UNRESOLVABLE), ours);
    assert SameFor(Relink(more, APN_UNRESOLVABLE), Relink(Relink(more, APN_UNRESOLVABLE), PARCEL_DISAPPEARED), ours);
  }

  /** What is written does not depend on what other sources hold, even for the same parcel and field. */
  lemma ForeignFactsDoNotMatter(a: Tables, a': Tables, staging: Staging, cite: Citation, plan: Plan, plan': Plan, k: Key, v: Value)
    requires RightPlan(a, staging, cite, plan) && RightPlan(a', staging, cite, plan')
    requires a'.identities == a.identities && plan'.minted == plan.minted
    requires forall k: Key :: k.source == ParcelsSource ==> LiveValue(a'.facts, k) == LiveValue(a.facts, k)
    ensures Writes(plan.changes.rows, k, v) <==> Writes(plan'.changes.rows, k, v)
  {
    var all := AllParcels(a.identities, plan.minted);
    SameVisible(a, a', staging);
    TargetIsParcels(all, SupportedBy(staging), plan.minted.Keys + VisibleIds(a, staging));
    Ledger.ForeignFactsDoNotMatter(a.facts, a'.facts, FullTarget(a, staging, plan.minted), ParcelsSource,
                                   plan.changes.retire, plan'.changes.retire, plan.changes.rows, plan'.changes.rows, k, v);
  }

  lemma SameVisible(a: Tables, a': Tables, staging: Staging)
    requires a'.identities == a.identities
    requires forall k: Key :: k.source == ParcelsSource ==> LiveValue(a'.facts, k) == LiveValue(a.facts, k)
    ensures VisibleIds(a', staging) == VisibleIds(a, staging)
  {
    forall f | f in a.identities ensures LiveGeometry(a'.facts, a.identities[f]) == LiveGeometry(a.facts, a.identities[f]) {
      assert FieldKey(a.identities[f].parcel, GeometryField).source == ParcelsSource;
    }
  }

  // ------------------------------------------------------------------ the exceptions mirror the ledger, row by row

  function OpenRows(rows: Rows, d: Detector, p: ParcelId): set<int> {
    set i: int | 0 <= i < |rows| && IsOpen(rows, i) && rows[i].detector == d && rows[i].parcel == p
  }

  lemma OneRow(rows: Rows, d: Detector, p: ParcelId)
    requires OneOpen(rows) && AtMostOne(OpenPairs(rows, d), p)
    ensures |OpenRows(rows, d, p)| == if Mentions(OpenPairs(rows, d), p) then 1 else 0
  {
    if reason: Option<Reason> :| (p, reason) in OpenPairs(rows, d) {
      var i :| 0 <= i < |rows| && IsOpen(rows, i) && rows[i].detector == d && (rows[i].parcel, rows[i].reason) == (p, reason);
      forall j | j in OpenRows(rows, d, p) ensures j == i {
        assert (p, rows[j].reason) in OpenPairs(rows, d);
        assert SameIndexKey(rows[i], rows[j]);
      }
      assert OpenRows(rows, d, p) == {i};
    } else {
      forall j ensures j !in OpenRows(rows, d, p) {
        if j in OpenRows(rows, d, p) { OpenIsMentioned(rows, j); }
      }
      assert OpenRows(rows, d, p) == {};
    }
  }

  /** A parcel the source knows has a live number or exactly one open exception saying why
      not, never both; and its identity is retired exactly while exactly one open
      exception says it disappeared. */
  lemma ExceptionsMirrorTheLedger(t: Tables, now: Time, f: FeatureId)
    requires Kept(t, now) && f in t.identities
    ensures var id := t.identities[f];
      && |OpenRows(t.exceptions, APN_UNRESOLVABLE, id.parcel)| == (if LiveApn(t.facts, id).Some? then 0 else 1)
      && |OpenRows(t.exceptions, PARCEL_DISAPPEARED, id.parcel)| == (if id.retiredAt.Some? then 1 else 0)
  {
    var id := t.identities[f];
    assert AtMostOne(OpenPairs(t.exceptions, APN_UNRESOLVABLE), id.parcel);
    assert AtMostOne(OpenPairs(t.exceptions, PARCEL_DISAPPEARED), id.parcel);
    assert Mirrored(t.facts, t.exceptions, id);
    OneRow(t.exceptions, APN_UNRESOLVABLE, id.parcel);
    OneRow(t.exceptions, PARCEL_DISAPPEARED, id.parcel);
  }
}
