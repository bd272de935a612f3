/** What a committed parcels reconcile leaves in each table, in terms of the snapshot and the tables before. */
module ParcelsOutcome {
  import opened Schema
  import opened Ledger
  import opened Exceptions
  import opened Identifiers
  import opened ParcelsModel
  import opened ParcelsLists
  import opened ParcelsReconcile
  import opened ParcelsWrites
  import opened ParcelsKeep
  import opened ParcelsTheorems
  import opened ParcelsRun
  import opened Invariants
  import opened Gaps

  // ------------------------------------------------------------------ what a feature says

  /** A raw number that can be recorded, and what is recorded for it. */
  ghost predicate IsNumber(raw: Option<string>, n: string) {
    raw.Some? && n == Canonical(raw.value) && n != "" && '?' !in n
  }

  ghost predicate HasNumber(raw: Option<string>) {
    raw.Some? && IsNumber(raw, Canonical(raw.value))
  }

  /** Why there is no number. */
  ghost predicate NoNumberBecause(raw: Option<string>, r: Option<Reason>) {
    || (r == Some(BlankApn) && (raw.None? || Canonical(raw.value) == ""))
    || (r == Some(PlaceholderApn) && raw.Some? && Canonical(raw.value) != "" && '?' in Canonical(raw.value))
  }

  /** Why there is no geometry. */
  ghost predicate NoGeometryBecause(g: Option<Geometry>, r: Option<Reason>) {
    || (r == Some(NullGeometry) && g.None?)
    || (g.Some? && g.value.kind.OtherType? && r == Some(NonPolygonal(g.value.kind.name)))
  }

  ghost predicate IsPolygonal(g: Option<Geometry>) {
    g.Some? && (g.value.kind.Polygon? || g.value.kind.MultiPolygon?)
  }

  /** The value a staged feature gives a field. */
  ghost predicate Gives(f: FeatureId, s: Staged, field: Field, v: Value) {
    match field
    case SourceParcelId => v == Text(f)
    case Apn => v.Text? && IsNumber(s.apn, v.text)
    case GeometryField => v.Shape? && s.geometry == Some(v.shape) && IsPolygonal(s.geometry)
    case _ => false
  }

  lemma NumberIsStored(s: Staged)
    ensures forall n :: StoredApn(s) == Some(n) <==> IsNumber(s.apn, n)
    ensures StoredApn(s).Some? <==> HasNumber(s.apn)
    ensures UnresolvableApn(s.apn).None? <==> HasNumber(s.apn)
  {
    WhyUnresolvable(s.apn);
  }

  lemma ReasonIsWhy(raw: Option<string>)
    ensures forall r: Option<Reason> :: r.Some? && r == UnresolvableApn(raw) <==> NoNumberBecause(raw, r)
    ensures UnresolvableApn(raw).Some? <==> !HasNumber(raw)
  {
    WhyUnresolvable(raw);
    forall r: Option<Reason> ensures r.Some? && r == UnresolvableApn(raw) <==> NoNumberBecause(raw, r) {
    }
  }

  lemma GapIsWhy(g: Option<Geometry>)
    ensures forall r: Option<Reason> :: r.Some? && r == UnresolvableGeometry(g) <==> NoGeometryBecause(g, r)
    ensures UnresolvableGeometry(g).None? <==> IsPolygonal(g)
  {
    WhyNoGeometry(g);
  }

  lemma GivenIsSupported(f: FeatureId, s: Staged, field: Field, v: Value)
    ensures Supported(f, s, field) == Some(v) <==> Gives(f, s, field, v)
  {
    NumberIsStored(s);
    GapIsWhy(s.geometry);
  }

  /** The feature and the row it is staged as. */
  lemma StagedFeature(features: seq<Feature>, i: nat) returns (f: FeatureId)
    requires Stageable(features) && i < |features|
    ensures features[i].parcelId == Some(f) && f in StagingOf(features)
    ensures StagingOf(features)[f].apn == features[i].apn
    ensures StagingOf(features)[f].geometry == match features[i].geometry { case Present(g) => Some(g) case _ => None }
  {
    f := features[i].parcelId.value;
    StagedAt(features, i);
  }

  /** The reconcile compares a feature that is new, or whose parcel holds a live geometry. */
  ghost predicate Compared(t: Tables, staging: Staging, f: FeatureId) {
    f in staging && (f in t.identities ==> LiveValue(t.facts, Key(t.identities[f].parcel, GeometryField, ParcelsSource)).Some?)
  }

  lemma ComparedIsDecided(t: Tables, staging: Staging, f: FeatureId)
    ensures Compared(t, staging, f) <==> Decided(t, staging, f)
  {
  }

  // ------------------------------------------------------------------ fact

  /** A compared feature's parcel holds, field by field, exactly what the feature gives. */
  lemma FactsSayTheFeature(a: Tables, now: Time, b: Tables, staging: Staging, cite: Citation, m: Moments, f: FeatureId, v: Value)
    requires Settled(a, now) && Reconciled(a, b, staging, cite, m) && Compared(a, staging, f)
    ensures f in b.identities
    ensures var p := b.identities[f].parcel;
      && LiveValue(b.facts, Key(p, SourceParcelId, ParcelsSource)) == Some(Text(f))
      && (LiveValue(b.facts, Key(p, Apn, ParcelsSource)) == Some(v) <==> v.Text? && IsNumber(staging[f].apn, v.text))
      && (LiveValue(b.facts, Key(p, GeometryField, ParcelsSource)) == Some(v) <==>
            v.Shape? && staging[f].geometry == Some(v.shape) && IsPolygonal(staging[f].geometry))
  {
    DiffIsRebuild(a, now, b, staging, cite, m, f);
    var p, s := b.identities[f].parcel, staging[f];
    GivenIsSupported(f, s, SourceParcelId, Text(f));
    GivenIsSupported(f, s, Apn, v);
    GivenIsSupported(f, s, GeometryField, v);
    assert FieldKey(p, SourceParcelId) == Key(p, SourceParcelId, ParcelsSource);
    assert FieldKey(p, Apn) == Key(p, Apn, ParcelsSource) && FieldKey(p, GeometryField) == Key(p, GeometryField, ParcelsSource);
  }

  type Ids = map<FeatureId, Identity>

  /** A key about one of the three fields of a compared feature's parcel. */
  ghost predicate Wants(a: Tables, after: Ids, staging: Staging, k: Key, f: FeatureId) {
    && Compared(a, staging, f) && f in after && k.parcel == after[f].parcel
    && k.source == ParcelsSource && k.field in {Apn, GeometryField, SourceParcelId}
  }

  /** The part of a plan that decides the facts, and the identities it leaves. */
  ghost predicate DecidesFacts(a: Tables, staging: Staging, cite: Citation, plan: Plan, after: Ids) {
    && Injective(AllParcels(a.identities, plan.minted))
    && Planned(a.facts, FullTarget(a, staging, plan.minted), plan.changes.retire, plan.changes.rows) && Cites(plan.changes.rows, cite)
    && AllParcels(a.identities, plan.minted) == ParcelsOf(after)
    && (forall f :: f in plan.minted.Keys + VisibleIds(a, staging) <==> Compared(a, staging, f))
  }

  /** The same, guarded. */
  ghost predicate FactsPart(a: Tables, staging: Staging, cite: Citation, plan: Plan, after: Ids) {
    forall t {:trigger Inside(t)} :: Inside(t) && t == a ==> DecidesFacts(t, staging, cite, plan, after)
  }

  /** Each planned row quotes its feature.  Only proofs that mention `Inside` look further. */
  ghost predicate QuotesPart(a: Tables, staging: Staging, plan: Plan) {
    forall t {:trigger Inside(t)} :: Inside(t) && t == a ==>
      AllVerbatim(plan.changes.rows, staging, AllParcels(t.identities, plan.minted))
  }

  lemma FactsPartOf(a: Tables, now: Time, b: Tables, staging: Staging, cite: Citation, m: Moments) returns (plan: Plan)
    requires Settled(a, now) && Reconciled(a, b, staging, cite, m)
    ensures FactsPart(a, staging, cite, plan, b.identities) && QuotesPart(a, staging, plan)
    ensures b.facts == Write(a.facts, plan.changes.retire, plan.changes.rows, m.started, m.at)
  {
    plan := ThePlan(a, b, staging, cite, m);
    PlanDecides(a, staging, cite, plan, m.at);
  }

  lemma PlanDecides(a: Tables, staging: Staging, cite: Citation, plan: Plan, at: Time)
    requires FactsPlan(a, staging, cite, plan) && IdentityPlan(a, staging, cite, plan)
    ensures FactsPart(a, staging, cite, plan, IdentitiesAfter(a.identities, plan, cite, at)) && QuotesPart(a, staging, plan)
  {
    IdentityParcels(a, staging, cite, plan, at);
    ComparedAreThese(a, staging, plan.minted);
    assert DecidesFacts(a, staging, cite, plan, IdentitiesAfter(a.identities, plan, cite, at));
  }

  lemma ComparedAreThese(t: Tables, staging: Staging, minted: map<FeatureId, ParcelId>)
    requires minted.Keys == NewIds(staging, t.identities)
    ensures forall f :: f in minted.Keys + VisibleIds(t, staging) <==> Compared(t, staging, f)
  {
  }

  lemma TargetSays(a: Tables, after: Ids, staging: Staging, cite: Citation, plan: Plan, k: Key, f: FeatureId)
    requires FactsPart(a, staging, cite, plan, after) && Wants(a, after, staging, k, f)
    ensures Injective(AllParcels(a.identities, plan.minted))
    ensures var target := FullTarget(a, staging, plan.minted); k in target && target[k] == Supported(f, staging[f], k.field)
  {
    assert Inside(a);
    assert ParcelsOf(after)[f] == k.parcel;
    HasTarget(AllParcels(a.identities, plan.minted), SupportedBy(staging), plan.minted.Keys + VisibleIds(a, staging), f, k.field);
  }

  lemma TargetComesFrom(a: Tables, after: Ids, staging: Staging, cite: Citation, plan: Plan, k: Key) returns (f: FeatureId)
    requires FactsPart(a, staging, cite, plan, after) && Injective(AllParcels(a.identities, plan.minted))
    requires k in FullTarget(a, staging, plan.minted)
    ensures Wants(a, after, staging, k, f) && FullTarget(a, staging, plan.minted)[k] == Supported(f, staging[f], k.field)
  {
    assert Inside(a);
    f := OnlyTarget(AllParcels(a.identities, plan.minted), SupportedBy(staging), plan.minted.Keys + VisibleIds(a, staging), k);
    assert f in ParcelsOf(after) && Compared(a, staging, f);
    assert SupportedBy(staging)(f, k.field) == Supported(f, staging[f], k.field);
    FieldIsOurs(ParcelsOf(after)[f], k);
  }

  lemma FieldIsOurs(p: ParcelId, k: Key)
    requires k == FieldKey(p, k.field) && k.field in PARCEL_FIELDS
    ensures k.parcel == p && k.source == ParcelsSource && k.field in {Apn, GeometryField, SourceParcelId}
  {
  }

  /** An old fact is as it was, unless it is live and about a compared feature that now gives another value or none:
      then it has its end. */
  lemma OldFactAfter(a: Tables, now: Time, b: Tables, staging: Staging, cite: Citation, m: Moments, i: nat)
    requires Settled(a, now) && Reconciled(a, b, staging, cite, m) && i < |a.facts|
    ensures i < |b.facts|
    ensures var was := a.facts[i];
      b.facts[i] ==
        if was.supersededAt.None? && exists f :: Wants(a, b.identities, staging, was.key, f) && !Gives(f, staging[f], was.key.field, was.value)
        then was.(supersededAt := Some(m.at)) else was
  {
    var plan := FactsPartOf(a, now, b, staging, cite, m);
    PartPlans(a, b.identities, staging, cite, plan);
    var was, target := a.facts[i], FullTarget(a, staging, plan.minted);
    OldRowAfter(a.facts, target, plan.changes.retire, plan.changes.rows, m.started, m.at, i);
    ContradictedBy(a, b.identities, staging, cite, plan, was.key, was.value);
  }

  lemma ContradictedBy(a: Tables, after: Ids, staging: Staging, cite: Citation, plan: Plan, k: Key, v: Value)
    requires FactsPart(a, staging, cite, plan, after) && Injective(AllParcels(a.identities, plan.minted))
    ensures var target := FullTarget(a, staging, plan.minted);
      k in target && target[k] != Some(v) <==> exists f :: Wants(a, after, staging, k, f) && !Gives(f, staging[f], k.field, v)
  {
    if k in FullTarget(a, staging, plan.minted) {
      var f := TargetComesFrom(a, after, staging, cite, plan, k);
      GivenIsSupported(f, staging[f], k.field, v);
    }
    if f :| Wants(a, after, staging, k, f) && !Gives(f, staging[f], k.field, v) {
      TargetSays(a, after, staging, cite, plan, k, f);
      GivenIsSupported(f, staging[f], k.field, v);
    }
  }

  /** A fact that cites the run, replaces what was live, says what its feature gives, which the ledger did not say
      before, and keeps the feature's own string beside a number and nothing beside anything else. */
  ghost predicate IsNews(a: Tables, after: Ids, staging: Staging, cite: Citation, started: Time, row: Fact, f: FeatureId) {
    && Wants(a, after, staging, row.key, f) && Gives(f, staging[f], row.key.field, row.value)
    && LiveValue(a.facts, row.key) != Some(row.value)
    && row == Fact(row.key, row.value, cite.snapshot, cite.retrievedAt,
                   if row.key.field == Apn then staging[f].apn else None, started, LiveId(a.facts, row.key), None)
  }

  lemma NewFactAfter(a: Tables, now: Time, b: Tables, staging: Staging, cite: Citation, m: Moments, i: nat)
    returns (f: FeatureId)
    requires Settled(a, now) && Reconciled(a, b, staging, cite, m) && |a.facts| <= i < |b.facts|
    ensures IsNews(a, b.identities, staging, cite, m.started, b.facts[i], f)
  {
    var plan := StampsOf(a, now, b, staging, cite, m, i);
    f := RowComesFrom(a, b.identities, staging, cite, plan, i - |a.facts|);
    ItIsNews(a, b.identities, staging, cite, m.started, plan.changes.rows[i - |a.facts|], b.facts[i], f);
  }

  /** The fact a planned row becomes. */
  ghost predicate Stamped(before: seq<Fact>, row: NewFact, fact: Fact, cite: Citation, started: Time) {
    && fact == Fact(row.key, row.value, cite.snapshot, cite.retrievedAt, row.verbatim, started, LiveId(before, row.key), None)
    && LiveValue(before, row.key) != Some(row.value)
  }

  lemma StampsOf(a: Tables, now: Time, b: Tables, staging: Staging, cite: Citation, m: Moments, i: nat) returns (plan: Plan)
    requires Settled(a, now) && Reconciled(a, b, staging, cite, m) && |a.facts| <= i < |b.facts|
    ensures FactsPart(a, staging, cite, plan, b.identities) && QuotesPart(a, staging, plan)
    ensures i < |a.facts| + |plan.changes.rows|
    ensures Stamped(a.facts, plan.changes.rows[i - |a.facts|], b.facts[i], cite, m.started)
  {
    plan := FactsPartOf(a, now, b, staging, cite, m);
    PartStamps(a, b.identities, b.facts, staging, cite, plan, m, i);
  }

  /** What is known of a planned row. */
  ghost predicate Grounded(a: Tables, after: Ids, staging: Staging, row: NewFact, f: FeatureId) {
    && Wants(a, after, staging, row.key, f) && Gives(f, staging[f], row.key.field, row.value)
    && row.verbatim == if row.key.field == Apn then staging[f].apn else None
  }

  lemma ItIsNews(a: Tables, after: Ids, staging: Staging, cite: Citation, started: Time, row: NewFact, fact: Fact, f: FeatureId)
    requires Grounded(a, after, staging, row, f) && Stamped(a.facts, row, fact, cite, started)
    ensures IsNews(a, after, staging, cite, started, fact, f)
  {
  }

  lemma PartPlans(a: Tables, after: Ids, staging: Staging, cite: Citation, plan: Plan)
    requires FactsPart(a, staging, cite, plan, after)
    ensures Injective(AllParcels(a.identities, plan.minted)) && Cites(plan.changes.rows, cite)
    ensures Planned(a.facts, FullTarget(a, staging, plan.minted), plan.changes.retire, plan.changes.rows)
  {
    assert Inside(a);
  }

  lemma PartHasATarget(a: Tables, after: Ids, staging: Staging, cite: Citation, plan: Plan) returns (target: Target)
    requires FactsPart(a, staging, cite, plan, after)
    ensures Planned(a.facts, target, plan.changes.retire, plan.changes.rows) && Cites(plan.changes.rows, cite)
  {
    PartPlans(a, after, staging, cite, plan);
    target := FullTarget(a, staging, plan.minted);
  }

  lemma PartStamps(a: Tables, after: Ids, facts: seq<Fact>, staging: Staging, cite: Citation, plan: Plan, m: Moments, i: nat)
    requires FactsPart(a, staging, cite, plan, after)
    requires facts == Write(a.facts, plan.changes.retire, plan.changes.rows, m.started, m.at) && |a.facts| <= i < |facts|
    ensures Stamped(a.facts, plan.changes.rows[i - |a.facts|], facts[i], cite, m.started)
  {
    var target := PartHasATarget(a, after, staging, cite, plan);
    RowIsStamped(a.facts, facts, target, cite, plan.changes, m, i);
  }

  lemma RowIsStamped(before: seq<Fact>, facts: seq<Fact>, target: Target, cite: Citation, c: Changes, m: Moments, i: nat)
    requires Planned(before, target, c.retire, c.rows) && Cites(c.rows, cite)
    requires facts == Write(before, c.retire, c.rows, m.started, m.at) && |before| <= i < |facts|
    ensures Stamped(before, c.rows[i - |before|], facts[i], cite, m.started)
  {
    NewRowIsNews(before, target, c.retire, c.rows, cite, m.started, m.at, i);
  }

  lemma RowComesFrom(a: Tables, after: Ids, staging: Staging, cite: Citation, plan: Plan, j: nat) returns (f: FeatureId)
    requires FactsPart(a, staging, cite, plan, after) && QuotesPart(a, staging, plan) && j < |plan.changes.rows|
    ensures Grounded(a, after, staging, plan.changes.rows[j], f)
  {
    var row := plan.changes.rows[j];
    PartPlans(a, after, staging, cite, plan);
    assert RowFits(a.facts, FullTarget(a, staging, plan.minted), row);
    f := TargetComesFrom(a, after, staging, cite, plan, row.key);
    GivenIsSupported(f, staging[f], row.key.field, row.value);
    QuotesItsFeature(a, after, staging, cite, plan, j, f);
  }

  lemma QuotesItsFeature(a: Tables, after: Ids, staging: Staging, cite: Citation, plan: Plan, j: nat, f: FeatureId)
    requires FactsPart(a, staging, cite, plan, after) && QuotesPart(a, staging, plan) && j < |plan.changes.rows|
    requires Wants(a, after, staging, plan.changes.rows[j].key, f)
    ensures var row := plan.changes.rows[j]; row.verbatim == if row.key.field == Apn then staging[f].apn else None
  {
    var all, row := AllParcels(a.identities, plan.minted), plan.changes.rows[j];
    assert Inside(a);
    assert Quotes(row, staging, all);
    var g :| KeepsVerbatim(staging, all, row.key, row.verbatim, g);
    assert ParcelsOf(after) == all && all[f] == all[g];
  }

  // ------------------------------------------------------------------ parcel

  /** A compared feature's parcel carries, in its cache columns, the number and the geometry the feature gives. */
  lemma ParcelSaysTheFeature(a: Tables, now: Time, b: Tables, staging: Staging, cite: Citation, m: Moments, f: FeatureId)
    requires Settled(a, now) && Reconciled(a, b, staging, cite, m) && Compared(a, staging, f)
    requires now <= m.started <= m.at < m.closedApn < m.closedGone
    ensures f in b.identities && b.identities[f].parcel in b.parcels
    ensures var row, s := b.parcels[b.identities[f].parcel], staging[f];
      && row.jurisdiction == SanJose
      && row.apn == (if HasNumber(s.apn) then Some(Canonical(s.apn.value)) else None)
      && row.geom == (if IsPolygonal(s.geometry) then s.geometry else None)
  {
    var p := IdentityAndCache(a, now, b, staging, cite, m, f);
    CacheSays(a, now, b, staging, cite, m, f, p);
  }

  lemma IdentityAndCache(a: Tables, now: Time, b: Tables, staging: Staging, cite: Citation, m: Moments, f: FeatureId) returns (p: ParcelId)
    requires Settled(a, now) && Reconciled(a, b, staging, cite, m) && Compared(a, staging, f)
    requires now <= m.started <= m.at < m.closedApn < m.closedGone
    ensures f in b.identities && b.identities[f].parcel == p && p in b.parcels && CacheHolds(b.facts, b.identities[f], b.parcels[p])
  {
    ReconciledSettles(a, now, b, staging, cite, m);
    SettledIsKept(b, m.closedGone);
    DiffIsRebuild(a, now, b, staging, cite, m, f);
    p := b.identities[f].parcel;
  }

  lemma CacheSays(a: Tables, now: Time, b: Tables, staging: Staging, cite: Citation, m: Moments, f: FeatureId, p: ParcelId)
    requires Settled(a, now) && Reconciled(a, b, staging, cite, m) && Compared(a, staging, f)
    requires f in b.identities && b.identities[f].parcel == p && p in b.parcels && CacheHolds(b.facts, b.identities[f], b.parcels[p])
    ensures var row, s := b.parcels[p], staging[f];
      && row.jurisdiction == SanJose
      && row.apn == (if HasNumber(s.apn) then Some(Canonical(s.apn.value)) else None)
      && row.geom == (if IsPolygonal(s.geometry) then s.geometry else None)
  {
    var row := b.parcels[p];
    if row.apn.Some? { FactsSayTheFeature(a, now, b, staging, cite, m, f, Text(row.apn.value)); }
    if row.geom.Some? { FactsSayTheFeature(a, now, b, staging, cite, m, f, Shape(row.geom.value)); }
    if HasNumber(staging[f].apn) { FactsSayTheFeature(a, now, b, staging, cite, m, f, Text(Canonical(staging[f].apn.value))); }
    if IsPolygonal(staging[f].geometry) { FactsSayTheFeature(a, now, b, staging, cite, m, f, Shape(staging[f].geometry.value)); }
  }

  /** A parcel that was there stays.  It loses its centroid exactly when its geometry is replaced, and one without a
      compared feature is as it was. */
  lemma OldParcelAfter(a: Tables, now: Time, b: Tables, staging: Staging, cite: Citation, m: Moments, p: ParcelId, f: FeatureId)
    requires Settled(a, now) && Reconciled(a, b, staging, cite, m) && p in a.parcels
    ensures p in b.parcels
    ensures f in a.identities && a.identities[f].parcel == p && Compared(a, staging, f) ==>
      b.parcels[p].centroid ==
        (if LiveValue(a.facts, Key(p, GeometryField, ParcelsSource)) == (if staging[f].geometry.Some? then Some(Shape(staging[f].geometry.value)) else None)
         then a.parcels[p].centroid else None)
    ensures (forall g :: g in a.identities && a.identities[g].parcel == p ==> !Compared(a, staging, g)) ==> b.parcels[p] == a.parcels[p]
  {
    SettledIsKept(a, now);
    var plan := ThePlan(a, b, staging, cite, m);
    ParcelsGrow(a, staging, cite, plan);
    if f in a.identities && a.identities[f].parcel == p && Compared(a, staging, f) {
      KnownParcelAfter(a, staging, cite, plan, f);
      GeometryMovesMeans(a.facts, a.identities[f], staging[f]);
    }
    if forall g :: g in a.identities && a.identities[g].parcel == p ==> !Compared(a, staging, g) {
      UntouchedParcel(a, staging, cite, plan, p);
    }
  }

  lemma GeometryMovesMeans(facts: seq<Fact>, id: Identity, s: Staged)
    requires LiveGeometry(facts, id).Some? && (LiveGeometry(facts, id).value != JsonNull)
    ensures !GeometryMoves(facts, id, s) <==>
      LiveValue(facts, Key(id.parcel, GeometryField, ParcelsSource)) == (if s.geometry.Some? then Some(Shape(s.geometry.value)) else None)
  {
    assert FieldKey(id.parcel, GeometryField) == Key(id.parcel, GeometryField, ParcelsSource);
  }

  lemma UntouchedParcel(t: Tables, staging: Staging, cite: Citation, plan: Plan, p: ParcelId)
    requires p in t.parcels && Injective(ParcelsOf(t.identities)) && Minted(t, staging, plan.minted)
    requires NewRowsPlanned(staging, cite, plan.minted, plan.parcelRows, plan.identityRows)
    requires UpdatesPlan(Observed(t.facts, t.identities, staging, cite), VisibleIds(t, staging), plan.changes)
    requires forall g :: g in t.identities && t.identities[g].parcel == p ==> !Compared(t, staging, g)
    ensures p in ParcelsAfter(t.parcels, plan) && ParcelsAfter(t.parcels, plan)[p] == t.parcels[p]
  {
    var o, visible := Observed(t.facts, t.identities, staging, cite), VisibleIds(t, staging);
    NotCached(o, ApnMovers(o, visible), StoredApnIn(staging), p);
    NotCached(o, GeometryMovers(o, visible), GeometryIn(staging), p);
  }

  lemma NotCached<V>(o: Observed, features: set<FeatureId>, value: FeatureId -> V, p: ParcelId)
    requires features <= o.identities.Keys && Injective(ParcelsOf(o.identities))
    requires forall f :: f in features ==> o.identities[f].parcel != p
    ensures p !in CacheOf(ParcelsOf(o.identities), features, value)
  {
    if p in CacheOf(ParcelsOf(o.identities), features, value) { CacheSource(ParcelsOf(o.identities), features, value, p); }
  }

  /** Every parcel that was not there is a new feature's, and has no centroid yet. */
  lemma NewParcelAfter(a: Tables, now: Time, b: Tables, staging: Staging, cite: Citation, m: Moments, p: ParcelId) returns (f: FeatureId)
    requires Settled(a, now) && Reconciled(a, b, staging, cite, m) && p in b.parcels && p !in a.parcels
    ensures f in staging && f !in a.identities && f in b.identities && b.identities[f].parcel == p
    ensures b.parcels[p].centroid.None?
  {
    SettledIsKept(a, now);
    var plan := ThePlan(a, b, staging, cite, m);
    ParcelsGrow(a, staging, cite, plan);
    f :| f in plan.minted && plan.minted[f] == p;
    ParcelsKeep.NewParcelAfter(a, staging, cite, plan, f);
    IdentityAfter(a, staging, cite, plan, m.at, f);
  }

  // ------------------------------------------------------------------ source_feature_identity

  /** What the change query asks of a feature it can see: retired, another number or none, another geometry, or
      a number whose canonical form is empty. */
  ghost predicate Differs(t: Tables, staging: Staging, f: FeatureId)
    requires f in t.identities && f in staging
  {
    var id, s := t.identities[f], staging[f];
    var apn, geometry := LiveValue(t.facts, Key(id.parcel, Apn, ParcelsSource)), LiveValue(t.facts, Key(id.parcel, GeometryField, ParcelsSource));
    || id.retiredAt.Some?
    || apn != (if HasNumber(s.apn) then Some(Text(Canonical(s.apn.value))) else None)
    || (apn.None? && s.apn.Some? && Canonical(s.apn.value) == "")
    || geometry != (if s.geometry.Some? then Some(Shape(s.geometry.value)) else None)
  }

  lemma ChangedExactly(t: Tables, now: Time, staging: Staging, f: FeatureId)
    requires Kept(t, now)
    ensures f in ChangedIds(t.facts, staging, t.identities) <==>
      f in staging && f in t.identities && Compared(t, staging, f) && Differs(t, staging, f)
  {
    LiveRowsInRange(t.facts);
    if f in staging && f in t.identities {
      assert WellRecorded(t.facts, f, t.identities[f]);
      OneChangedExactly(t.facts, t.identities[f], staging[f], f);
    }
  }

  lemma OneChangedExactly(facts: seq<Fact>, id: Identity, s: Staged, f: FeatureId)
    requires OneLive(facts) && WellRecorded(facts, f, id)
    requires forall k :: k in LiveParcelFacts(facts) ==> LiveParcelFacts(facts)[k] < |facts|
    ensures var apn, geometry := LiveValue(facts, Key(id.parcel, Apn, ParcelsSource)), LiveValue(facts, Key(id.parcel, GeometryField, ParcelsSource));
      SqlChanged(facts, LiveParcelFacts(facts), id, s) <==>
        geometry.Some? && (
          || id.retiredAt.Some?
          || apn != (if HasNumber(s.apn) then Some(Text(Canonical(s.apn.value))) else None)
          || (apn.None? && s.apn.Some? && Canonical(s.apn.value) == "")
          || geometry != (if s.geometry.Some? then Some(Shape(s.geometry.value)) else None))
  {
    var k, g := FieldKey(id.parcel, Apn), FieldKey(id.parcel, GeometryField);
    var live := LiveParcelFacts(facts);
    assert k.source == ParcelsSource && k.field == Apn && g.field == GeometryField && g.source == ParcelsSource;
    NumberIsStored(s);
    WhyUnresolvable(s.apn);
    if k in live { NumberIsClean(facts[live[k]].value); }
  }

  lemma NumberIsClean(v: Value)
    requires ResolvableValue(v)
    ensures v.Text? && '?' !in v.text && Strip(v.text) != []
  {
  }

  /** What becomes of each identity: a new feature gets one under a parcel that did not exist, an absent one is
      retired, one that differs is seen again and is live, and every other is as it was. */
  lemma IdentityRowAfter(a: Tables, now: Time, b: Tables, staging: Staging, cite: Citation, m: Moments, f: FeatureId)
    requires Settled(a, now) && Reconciled(a, b, staging, cite, m) && (f in a.identities || f in staging)
    ensures f in b.identities
    ensures var row := b.identities[f];
      if f !in a.identities then
        && row == Identity(row.parcel, cite.snapshot, cite.retrievedAt, cite.snapshot, cite.retrievedAt, None, None, None)
        && row.parcel !in a.parcels
      else if f !in staging then
        row == (if a.identities[f].retiredAt.Some? then a.identities[f]
                else a.identities[f].(retiredSnapshot := Some(cite.snapshot), retiredAt := Some(m.at),
                                      retirementReason := Some("parcel_absent_from_bulk_parcels_snapshot")))
      else if Compared(a, staging, f) && Differs(a, staging, f) then
        row == Identity(a.identities[f].parcel, a.identities[f].firstSeenSnapshot, a.identities[f].firstSeenAt,
                        cite.snapshot, cite.retrievedAt, None, None, None)
      else row == a.identities[f]
  {
    SettledIsKept(a, now);
    var plan := ThePlan(a, b, staging, cite, m);
    IdentityAfter(a, staging, cite, plan, m.at, f);
    ChangedExactly(a, now, staging, f);
    if f in a.identities { assert IdentityHolds(a.identities[f]); }
  }

  // ------------------------------------------------------------------ parcel_exception

  /** The open findings of a detector about one parcel. */
  ghost predicate Finds(t: Tables, d: Detector, p: ParcelId, r: Option<Reason>) {
    exists i :: 0 <= i < |t.exceptions| && t.exceptions[i].status.Open? && t.exceptions[i].detector == d
                && t.exceptions[i].parcel == p && t.exceptions[i].reason == r
  }

  lemma FindsIsOpen(t: Tables, d: Detector, p: ParcelId, r: Option<Reason>)
    ensures Finds(t, d, p, r) <==> (p, r) in OpenPairs(t.exceptions, d)
  {
    if (p, r) in OpenPairs(t.exceptions, d) {
      var i :| 0 <= i < |t.exceptions| && IsOpen(t.exceptions, i) && t.exceptions[i].detector == d
               && (t.exceptions[i].parcel, t.exceptions[i].reason) == (p, r);
      assert t.exceptions[i].parcel == p;
    }
    if i :| 0 <= i < |t.exceptions| && t.exceptions[i].status.Open? && t.exceptions[i].detector == d
            && t.exceptions[i].parcel == p && t.exceptions[i].reason == r { assert IsOpen(t.exceptions, i); }
  }

  /** A new feature's parcel says why it has no number and why it has no geometry, and nothing else. */
  ghost predicate NewFinds(b: Tables, p: ParcelId, s: Staged, r: Option<Reason>) {
    && (Finds(b, Detector(ApnUnresolvable, Version(1, 0)), p, r) <==> NoNumberBecause(s.apn, r))
    && (Finds(b, Detector(GeometryDeclaredGap, Version(1, 0)), p, r) <==> NoGeometryBecause(s.geometry, r))
    && !Finds(b, Detector(ParcelDisappeared, Version(1, 0)), p, r)
  }

  lemma NewFeatureFindings(a: Tables, now: Time, b: Tables, staging: Staging, cite: Citation, m: Moments, f: FeatureId, r: Option<Reason>)
    requires Settled(a, now) && Reconciled(a, b, staging, cite, m) && f in staging && f !in a.identities
    ensures f in b.identities && NewFinds(b, b.identities[f].parcel, staging[f], r)
  {
    SettledIsKept(a, now);
    var plan := GapsAfter(a, b, staging, cite, m);
    IdentityAfter(a, staging, cite, plan, m.at, f);
    assert f in plan.minted;
    NewFindings(a, staging, cite, plan, f);
    NewGapSays(a, plan.minted, staging, f, r);
    PairsAfterLifecycle(a.exceptions, plan.changes, m.closedApn, m.closedGone, APN_UNRESOLVABLE);
    PairsAfterLifecycle(a.exceptions, plan.changes, m.closedApn, m.closedGone, PARCEL_DISAPPEARED);
    NewFindingsSay(a, b, staging, plan, m, f, r);
  }

  lemma NewFindingsSay(a: Tables, b: Tables, staging: Staging, plan: Plan, m: Moments, f: FeatureId, r: Option<Reason>)
    requires f in staging && f in plan.minted
    requires OpenPairs(b.exceptions, APN_UNRESOLVABLE) == ApnPairsAfter(a.exceptions, plan.changes)
    requires OpenPairs(b.exceptions, PARCEL_DISAPPEARED) == GonePairsAfter(a.exceptions, plan.changes)
    requires OpenPairs(b.exceptions, GEOMETRY_DECLARED_GAP) == GapPairs(plan.minted, staging) + OpenPairs(a.exceptions, GEOMETRY_DECLARED_GAP)
    requires forall r: Option<Reason> :: (plan.minted[f], r) in ApnPairsAfter(a.exceptions, plan.changes) <==>
      r.Some? && r == UnresolvableApn(staging[f].apn)
    requires !Mentions(GonePairsAfter(a.exceptions, plan.changes), plan.minted[f])
    requires (plan.minted[f], r) in GapPairs(plan.minted, staging) + OpenPairs(a.exceptions, GEOMETRY_DECLARED_GAP) <==>
      NoGeometryBecause(staging[f].geometry, r)
    ensures NewFinds(b, plan.minted[f], staging[f], r)
  {
    var p := plan.minted[f];
    ReasonIsWhy(staging[f].apn);
    FindsIsOpen(b, Detector(ApnUnresolvable, Version(1, 0)), p, r);
    FindsIsOpen(b, Detector(GeometryDeclaredGap, Version(1, 0)), p, r);
    FindsIsOpen(b, Detector(ParcelDisappeared, Version(1, 0)), p, r);
  }

  lemma NewGapSays(a: Tables, minted: map<FeatureId, ParcelId>, staging: Staging, f: FeatureId, r: Option<Reason>)
    requires ExceptionsRefer(a.exceptions, a.parcels) && Minted(a, staging, minted) && f in minted && f in staging
    ensures (minted[f], r) in GapPairs(minted, staging) + OpenPairs(a.exceptions, GEOMETRY_DECLARED_GAP) <==>
      NoGeometryBecause(staging[f].geometry, r)
  {
    var p := minted[f];
    StrangersAreClosed(a.exceptions, a.parcels, GEOMETRY_DECLARED_GAP, p);
    GapIsWhy(staging[f].geometry);
    forall g | g in minted && minted[g] == p ensures g == f { }
  }

  /** A known parcel's findings: a number that comes back closes what said it was missing, and one that is lost opens
      why; a number that was missing already keeps the reason it was first missing for.  The declared gap never
      moves.  An absent feature says so, and one compared again no longer does. */
  ghost predicate KnownFinds(a: Tables, b: Tables, staging: Staging, f: FeatureId, r: Option<Reason>)
    requires f in a.identities
  {
    var p := a.identities[f].parcel;
    && (Finds(b, Detector(ApnUnresolvable, Version(1, 0)), p, r) <==>
          if !Compared(a, staging, f) then Finds(a, Detector(ApnUnresolvable, Version(1, 0)), p, r)
          else if HasNumber(staging[f].apn) then false
          else if LiveValue(a.facts, Key(p, Apn, ParcelsSource)).Some? then NoNumberBecause(staging[f].apn, r)
          else Finds(a, Detector(ApnUnresolvable, Version(1, 0)), p, r))
    && (Finds(b, Detector(GeometryDeclaredGap, Version(1, 0)), p, r) <==> Finds(a, Detector(GeometryDeclaredGap, Version(1, 0)), p, r))
    && (Finds(b, Detector(ParcelDisappeared, Version(1, 0)), p, r) <==>
          if f !in staging && a.identities[f].retiredAt.None? then r == Some(AbsentFromSnapshot)
          else if Compared(a, staging, f) then false
          else Finds(a, Detector(ParcelDisappeared, Version(1, 0)), p, r))
  }

  lemma KnownFeatureFindings(a: Tables, now: Time, b: Tables, staging: Staging, cite: Citation, m: Moments, f: FeatureId, r: Option<Reason>)
    requires Settled(a, now) && Reconciled(a, b, staging, cite, m) && f in a.identities
    ensures KnownFinds(a, b, staging, f, r)
  {
    SettledIsKept(a, now);
    var plan := GapsAfter(a, b, staging, cite, m);
    assert Mirrored(a.facts, a.exceptions, a.identities[f]);
    KnownApnFindings(a, staging, cite, plan, f);
    KnownGoneFindings(a, staging, cite, plan, f);
    KnownDeclareNothing(a, staging, plan.minted, a.identities[f].parcel);
    PairsAfterLifecycle(a.exceptions, plan.changes, m.closedApn, m.closedGone, APN_UNRESOLVABLE);
    PairsAfterLifecycle(a.exceptions, plan.changes, m.closedApn, m.closedGone, PARCEL_DISAPPEARED);
    KnownFindingsSay(a, b, staging, cite, plan.changes, GapPairs(plan.minted, staging), f, r);
  }

  lemma KnownFindingsSay(a: Tables, b: Tables, staging: Staging, cite: Citation, c: Changes, gaps: Pairs, f: FeatureId, r: Option<Reason>)
    requires f in a.identities && Mirrored(a.facts, a.exceptions, a.identities[f])
    requires OpenPairs(b.exceptions, APN_UNRESOLVABLE) == ApnPairsAfter(a.exceptions, c)
    requires OpenPairs(b.exceptions, PARCEL_DISAPPEARED) == GonePairsAfter(a.exceptions, c)
    requires OpenPairs(b.exceptions, GEOMETRY_DECLARED_GAP) == gaps + OpenPairs(a.exceptions, GEOMETRY_DECLARED_GAP)
    requires !Mentions(gaps, a.identities[f].parcel)
    requires var o, decided := Observed(a.facts, a.identities, staging, cite), Decided(a, staging, f);
      FindingsOf(ApnPairsAfter(a.exceptions, c), OpenPairs(a.exceptions, APN_UNRESOLVABLE), a.identities[f].parcel,
                 decided && o.Degrades(f), if decided then UnresolvableApn(staging[f].apn) else None, decided && o.Resolves(f))
    requires var gone := f !in staging && a.identities[f].retiredAt.None?;
      FindingsOf(GonePairsAfter(a.exceptions, c), OpenPairs(a.exceptions, PARCEL_DISAPPEARED), a.identities[f].parcel,
                 gone, Some(AbsentFromSnapshot), Decided(a, staging, f) && a.identities[f].retiredAt.Some?)
    ensures KnownFinds(a, b, staging, f, r)
  {
    var p := a.identities[f].parcel;
    ComparedIsDecided(a, staging, f);
    if f in staging { ReasonIsWhy(staging[f].apn); }
    FindsIsOpen(a, APN_UNRESOLVABLE, p, r);
    FindsIsOpen(b, APN_UNRESOLVABLE, p, r);
    FindsIsOpen(a, PARCEL_DISAPPEARED, p, r);
    FindsIsOpen(b, PARCEL_DISAPPEARED, p, r);
    FindsIsOpen(a, GEOMETRY_DECLARED_GAP, p, r);
    FindsIsOpen(b, GEOMETRY_DECLARED_GAP, p, r);
    assert !Mentions(OpenPairs(a.exceptions, APN_UNRESOLVABLE), p) ==> (p, r) !in OpenPairs(a.exceptions, APN_UNRESOLVABLE);
    assert !Mentions(OpenPairs(a.exceptions, PARCEL_DISAPPEARED), p) ==> (p, r) !in OpenPairs(a.exceptions, PARCEL_DISAPPEARED);
    assert FieldKey(p, Apn) == Key(p, Apn, ParcelsSource);
  }

  /** A row that was there is as it was, unless it is open and what it says is over: its parcel has a number again,
      or its feature, retired, is compared again.  Then it is closed, by its own detector, at that statement's time. */
  lemma OldExceptionAfter(a: Tables, now: Time, b: Tables, staging: Staging, cite: Citation, m: Moments, i: nat)
    requires Settled(a, now) && Reconciled(a, b, staging, cite, m) && i < |a.exceptions|
    requires now <= m.started <= m.at < m.closedApn < m.closedGone
    ensures i < |b.exceptions|
    ensures var was := a.exceptions[i];
      b.exceptions[i] ==
        if was.status.Open? && was.detector == Detector(ApnUnresolvable, Version(1, 0)) && NumberIsBack(a, staging, was.parcel)
        then was.(status := Closed(ConditionCleared, m.closedApn, ByDetector(ApnUnresolvable)))
        else if was.status.Open? && was.detector == Detector(ParcelDisappeared, Version(1, 0)) && FeatureIsBack(a, staging, was.parcel)
        then was.(status := Closed(ConditionCleared, m.closedGone, ByDetector(ParcelDisappeared)))
        else was
  {
    SettledIsKept(a, now);
    var plan := ThePlan(a, b, staging, cite, m);
    RowsAreAccepted(a, now, staging, cite, plan, m);
    ClosedAfterKeeps(a.exceptions, now, plan.changes, m.closedApn, m.closedGone);
    ReopenedExtends(ClosedAfter(a.exceptions, plan.changes, m.closedApn, m.closedGone), plan.changes.exceptions, m.closedGone);
    ReopenedKeepsOld(ClosedAfter(a.exceptions, plan.changes, m.closedApn, m.closedGone), plan.changes.exceptions, i);
    ClosedSays(a, staging, cite, plan.changes, m, i);
  }

  /** The parcel's number was missing, and its feature, which can be compared, gives one. */
  ghost predicate NumberIsBack(a: Tables, staging: Staging, p: ParcelId) {
    exists f :: f in a.identities && a.identities[f].parcel == p && Compared(a, staging, f)
                && LiveValue(a.facts, Key(p, Apn, ParcelsSource)).None? && HasNumber(staging[f].apn)
  }

  /** The parcel's feature was retired, and can be compared. */
  ghost predicate FeatureIsBack(a: Tables, staging: Staging, p: ParcelId) {
    exists f :: f in a.identities && a.identities[f].parcel == p && Compared(a, staging, f) && a.identities[f].retiredAt.Some?
  }

  lemma BackMeans(a: Tables, staging: Staging, cite: Citation, p: ParcelId)
    ensures var o := Observed(a.facts, a.identities, staging, cite);
      && (p in ResolvedParcels(o, VisibleIds(a, staging)) <==> NumberIsBack(a, staging, p))
      && (p in ReappearedParcels(o, VisibleIds(a, staging)) <==> FeatureIsBack(a, staging, p))
  {
    var o := Observed(a.facts, a.identities, staging, cite);
    assert FieldKey(p, Apn) == Key(p, Apn, ParcelsSource);
    forall f | f in a.identities && f in staging
      ensures o.Knows(f) && (o.Resolves(f) <==> LiveApn(a.facts, a.identities[f]).None? && HasNumber(staging[f].apn))
    {
      ReasonIsWhy(staging[f].apn);
    }
    if p in ResolvedParcels(o, VisibleIds(a, staging)) {
      var f :| f in VisibleIds(a, staging) && o.Knows(f) && o.Resolves(f) && o.identities[f].parcel == p;
      assert Compared(a, staging, f);
    }
    if p in ReappearedParcels(o, VisibleIds(a, staging)) {
      var f :| f in VisibleIds(a, staging) && o.Knows(f) && o.identities[f].retiredAt.Some? && o.identities[f].parcel == p;
      assert Compared(a, staging, f);
    }
  }

  lemma ClosedSays(a: Tables, staging: Staging, cite: Citation, c: Changes, m: Moments, i: nat)
    requires i < |a.exceptions|
    requires var o := Observed(a.facts, a.identities, staging, cite);
      c.resolved == ResolvedParcels(o, VisibleIds(a, staging)) && c.reappeared == ReappearedParcels(o, VisibleIds(a, staging))
    ensures var was := a.exceptions[i];
      ClosedAfter(a.exceptions, c, m.closedApn, m.closedGone)[i] ==
        if was.status.Open? && was.detector == Detector(ApnUnresolvable, Version(1, 0)) && NumberIsBack(a, staging, was.parcel)
        then was.(status := Closed(ConditionCleared, m.closedApn, ByDetector(ApnUnresolvable)))
        else if was.status.Open? && was.detector == Detector(ParcelDisappeared, Version(1, 0)) && FeatureIsBack(a, staging, was.parcel)
        then was.(status := Closed(ConditionCleared, m.closedGone, ByDetector(ParcelDisappeared)))
        else was
  {
    BackMeans(a, staging, cite, a.exceptions[i].parcel);
  }

  /** Adding and relinking keep the rows that were there, whose links are right. */
  lemma ReopenedKeepsOld(rows: Rows, added: seq<NewException>, i: nat)
    requires i < |rows| && RowsExtend(rows, Reopened(rows, added))
    ensures Reopened(rows, added)[i] == rows[i]
  {
  }

  /** A row that is added is open, gives a reason, and is of its detector's type. */
  ghost predicate IsNewFinding(row: ExceptionRow) {
    && row.status == Open && row.reason.Some?
    && (|| (row.detector == Detector(ApnUnresolvable, Version(1, 0)) && row.kind == CoverageGap)
        || (row.detector == Detector(GeometryDeclaredGap, Version(1, 0)) && row.kind == CoverageGap && row.reopenedFrom.None?)
        || (row.detector == Detector(ParcelDisappeared, Version(1, 0)) && row.kind == RecordToGround))
  }

  lemma NewExceptionAfter(a: Tables, now: Time, b: Tables, staging: Staging, cite: Citation, m: Moments, i: nat)
    requires Settled(a, now) && Reconciled(a, b, staging, cite, m) && |a.exceptions| <= i < |b.exceptions|
    ensures IsNewFinding(b.exceptions[i])
  {
    var rows, added := WhatIsAdded(a, b, staging, cite, m);
    AddedRowIsNew(rows, added, i);
  }

  /** Rows of the three detectors, each with a reason and of its detector's type. */
  ghost predicate AllFindings(added: seq<NewException>) {
    forall j {:trigger added[j]} :: 0 <= j < |added| ==>
      && added[j].reason.Some? && added[j].kind == KindOf(added[j].detector.key)
      && added[j].detector in {APN_UNRESOLVABLE, GEOMETRY_DECLARED_GAP, PARCEL_DISAPPEARED}
  }

  lemma WhatIsAdded(a: Tables, b: Tables, staging: Staging, cite: Citation, m: Moments) returns (rows: Rows, added: seq<NewException>)
    requires Reconciled(a, b, staging, cite, m)
    ensures |rows| == |a.exceptions| && AllFindings(added) && b.exceptions == Reopened(rows, added)
  {
    var plan := ThePlan(a, b, staging, cite, m);
    rows, added := ClosedAfter(a.exceptions, plan.changes, m.closedApn, m.closedGone), plan.changes.exceptions;
    AddedAreFindings(a, staging, cite, plan);
  }

  lemma AddedAreFindings(a: Tables, staging: Staging, cite: Citation, plan: Plan)
    requires ExceptionsPlan(Observed(a.facts, a.identities, staging, cite), a.exceptions, VisibleIds(a, staging), plan)
    ensures AllFindings(plan.changes.exceptions)
  {
    var added := plan.changes.exceptions;
    forall j | 0 <= j < |added|
      ensures added[j].reason.Some? && added[j].kind == KindOf(added[j].detector.key)
      ensures added[j].detector in {APN_UNRESOLVABLE, GEOMETRY_DECLARED_GAP, PARCEL_DISAPPEARED}
    {
      AddedRowSays(a, staging, cite, plan, j);
    }
  }

  lemma AddedRowIsNew(rows: Rows, added: seq<NewException>, i: nat)
    requires |rows| <= i < |Reopened(rows, added)| && AllFindings(added)
    ensures IsNewFinding(Reopened(rows, added)[i])
  {
    AddedStays(rows, added, i);
  }

  lemma AddedRowSays(a: Tables, staging: Staging, cite: Citation, plan: Plan, j: nat)
    requires ExceptionsPlan(Observed(a.facts, a.identities, staging, cite), a.exceptions, VisibleIds(a, staging), plan)
    requires j < |plan.changes.exceptions|
    ensures var row := plan.changes.exceptions[j];
      && row.reason.Some? && row.kind == KindOf(row.detector.key)
      && row.detector in {APN_UNRESOLVABLE, GEOMETRY_DECLARED_GAP, PARCEL_DISAPPEARED}
  {
    AddedPair(a, staging, cite, plan, j);
  }

  lemma AddedStays(rows: Rows, added: seq<NewException>, i: nat)
    requires |rows| <= i < |rows| + |added|
    ensures var row, r := added[i - |rows|], Reopened(rows, added)[i];
      && r == ExceptionRow(row.parcel, row.detector, row.kind, row.reason, Open, r.reopenedFrom)
      && (row.detector !in {APN_UNRESOLVABLE, PARCEL_DISAPPEARED} ==> r.reopenedFrom.None?)
  {
  }

  // ------------------------------------------------------------------ whether it commits

  /** The database takes a full reconcile exactly when every geometry that is compared is a polygon, nothing seen
      again was first seen after this snapshot, and nothing absent was last seen in the future. */
  lemma FitsExactly(t: Tables, now: Time, staging: Staging, cite: Citation, at: Time)
    requires Settled(t, now)
    ensures Fits(t, false, staging, cite, at) <==>
      && (forall f :: f in t.identities && Compared(t, staging, f) ==> IsPolygonal(staging[f].geometry))
      && (forall f :: f in t.identities && Compared(t, staging, f) && Differs(t, staging, f) ==> t.identities[f].firstSeenAt <= cite.retrievedAt)
      && (forall f :: f in t.identities && t.identities[f].retiredAt.None? && f !in staging ==> t.identities[f].lastSeenAt <= at)
  {
    SettledIsKept(t, now);
    forall f ensures f in ChangedIds(t.facts, staging, t.identities) <==>
      f in staging && f in t.identities && Compared(t, staging, f) && Differs(t, staging, f)
    {
      ChangedExactly(t, now, staging, f);
    }
    forall f | f in staging ensures UnresolvableGeometry(staging[f].geometry).None? <==> IsPolygonal(staging[f].geometry) {
      GapIsWhy(staging[f].geometry);
    }
    FitsParts(t, staging, cite, at);
  }

  lemma FitsParts(t: Tables, staging: Staging, cite: Citation, at: Time)
    requires OneLive(t.facts)
    requires forall f :: f in staging ==> (UnresolvableGeometry(staging[f].geometry).None? <==> IsPolygonal(staging[f].geometry))
    requires forall f :: f in ChangedIds(t.facts, staging, t.identities) <==>
      f in staging && f in t.identities && Compared(t, staging, f) && Differs(t, staging, f)
    ensures KnownPolygonal(t, staging) <==> forall f :: f in t.identities && Compared(t, staging, f) ==> IsPolygonal(staging[f].geometry)
    ensures SeenBefore(t, staging, cite.retrievedAt) <==>
      forall f :: f in t.identities && Compared(t, staging, f) && Differs(t, staging, f) ==> t.identities[f].firstSeenAt <= cite.retrievedAt
    ensures GoneSeenBy(t, staging, at) <==>
      forall f :: f in t.identities && t.identities[f].retiredAt.None? && f !in staging ==> t.identities[f].lastSeenAt <= at
  {
    assert forall f :: f in VisibleIds(t, staging) <==> f in t.identities && Compared(t, staging, f);
    assert forall f :: f in GoneIds(staging, t.identities) <==> f in t.identities && t.identities[f].retiredAt.None? && f !in staging;
  }

  /** A file can be read in full exactly when each feature has an identifier that is not all whitespace and a geometry
      member, and no identifier repeats; on the shortcut, exactly when each has an identifier that is known and live. */
  lemma ReadableExactly(features: seq<Feature>, identities: map<FeatureId, Identity>)
    ensures Readable(false, features, identities) <==>
      && (forall i :: 0 <= i < |features| ==>
            features[i].parcelId.Some? && !AllSpace(features[i].parcelId.value) && features[i].geometry != Missing)
      && (forall i, j :: 0 <= i < j < |features| ==> features[i].parcelId != features[j].parcelId)
    ensures Readable(true, features, identities) <==>
      forall i :: 0 <= i < |features| ==>
        && features[i].parcelId.Some? && !AllSpace(features[i].parcelId.value)
        && features[i].parcelId.value in identities && identities[features[i].parcelId.value].retiredAt.None?
  {
    forall i | 0 <= i < |features| ensures IsBlank(features[i].parcelId) <==>
      features[i].parcelId.None? || AllSpace(features[i].parcelId.value)
    {
      BlankMeans(features[i].parcelId);
    }
  }
}
