/** The lists the parcels reconcile fills before it writes anything: what each must
    hold for the features done so far, and why one more feature keeps that. */
module ParcelsLists {
  import opened Schema
  import opened Ledger
  import opened Exceptions
  import opened Identifiers
  import opened ParcelsModel

  function NewParcel(s: Staged): Parcel {
    Parcel(SanJose, StoredApn(s), StoredGeometry(s), None)
  }

  function NewIdentity(p: ParcelId, cite: Citation): Identity {
    Identity(p, cite.snapshot, cite.retrievedAt, cite.snapshot, cite.retrievedAt, None, None, None)
  }

  function ParcelFact(p: ParcelId, field: Field, v: Value, verbatim: Option<string>, supersedes: Option<nat>,
                      cite: Citation): NewFact {
    NewFact(FieldKey(p, field), v, cite.snapshot, cite.retrievedAt, verbatim, supersedes, {})
  }

  function ParcelException(p: ParcelId, detector: Detector, kind: ExceptionType, reason: Reason): NewException {
    NewException(p, detector, kind, Some(reason), None)
  }

  type ParcelMap = map<FeatureId, ParcelId>

  /** The feature's own string is kept beside its canonical number (`local_verbatim`), and beside nothing else. */
  predicate KeepsVerbatim(staging: Staging, all: ParcelMap, key: Key, verbatim: Option<string>, f: FeatureId) {
    f in staging && f in all && key.parcel == all[f] && verbatim == if key.field == Apn then staging[f].apn else None
  }

  ghost predicate Quotes(row: NewFact, staging: Staging, all: ParcelMap) {
    exists f :: KeepsVerbatim(staging, all, row.key, row.verbatim, f)
  }

  ghost predicate AllVerbatim(rows: seq<NewFact>, staging: Staging, all: ParcelMap) {
    forall j {:trigger rows[j]} :: 0 <= j < |rows| ==> Quotes(rows[j], staging, all)
  }

  lemma VerbatimGrows(rows: seq<NewFact>, staging: Staging, all: ParcelMap, more: ParcelMap)
    requires AllVerbatim(rows, staging, all) && forall f :: f in all ==> f in more && more[f] == all[f]
    ensures AllVerbatim(rows, staging, more)
  {
    forall j | 0 <= j < |rows| ensures Quotes(rows[j], staging, more) {
      var row := rows[j];
      assert Quotes(row, staging, all);
      var f :| KeepsVerbatim(staging, all, row.key, row.verbatim, f);
      assert KeepsVerbatim(staging, more, row.key, row.verbatim, f);
    }
  }

  lemma VerbatimOneMore(rows: seq<NewFact>, staging: Staging, all: ParcelMap, row: NewFact, f: FeatureId)
    requires AllVerbatim(rows, staging, all) && KeepsVerbatim(staging, all, row.key, row.verbatim, f)
    ensures AllVerbatim(rows + [row], staging, all)
  {
    assert Quotes(row, staging, all);
    var more := rows + [row];
    forall j | 0 <= j < |more| ensures Quotes(more[j], staging, all) {
      if j < |rows| { assert more[j] == rows[j]; }
    }
  }

  ghost function ApnPairs(parcelOf: map<FeatureId, ParcelId>, staging: Staging): set<(ParcelId, Option<Reason>)> {
    set f | f in parcelOf && f in staging && UnresolvableApn(staging[f].apn).Some?
      :: (parcelOf[f], UnresolvableApn(staging[f].apn))
  }

  ghost function GapPairs(parcelOf: map<FeatureId, ParcelId>, staging: Staging): set<(ParcelId, Option<Reason>)> {
    set f | f in parcelOf && f in staging && UnresolvableGeometry(staging[f].geometry).Some?
      :: (parcelOf[f], UnresolvableGeometry(staging[f].geometry))
  }

  ghost predicate NewFactsPlanned(ledger: seq<Fact>, staging: Staging, cite: Citation,
                                  minted: map<FeatureId, ParcelId>, rows: seq<NewFact>)
    requires minted.Keys <= staging.Keys && Injective(minted)
  {
    && Planned(ledger, TargetOf(minted, SupportedBy(staging), minted.Keys), {}, rows)
    && Cites(rows, cite) && AllVerbatim(rows, staging, minted)
  }

  ghost predicate ParcelRowsPlanned(staging: Staging, minted: map<FeatureId, ParcelId>, rows: map<ParcelId, Parcel>)
    requires minted.Keys <= staging.Keys
  {
    rows.Keys == minted.Values && forall f :: f in minted ==> rows[minted[f]] == NewParcel(staging[f])
  }

  ghost predicate IdentityRowsPlanned(cite: Citation, minted: map<FeatureId, ParcelId>, rows: map<FeatureId, Identity>) {
    rows.Keys == minted.Keys && forall f :: f in minted ==> rows[f] == NewIdentity(minted[f], cite)
  }

  ghost predicate NewRowsPlanned(staging: Staging, cite: Citation, minted: map<FeatureId, ParcelId>,
                                 parcelRows: map<ParcelId, Parcel>, identityRows: map<FeatureId, Identity>)
    requires minted.Keys <= staging.Keys
  {
    ParcelRowsPlanned(staging, minted, parcelRows) && IdentityRowsPlanned(cite, minted, identityRows)
  }

  ghost predicate FreshRows(added: seq<NewException>, first: ParcelId, next: ParcelId) {
    forall j {:trigger added[j]} :: 0 <= j < |added| ==>
      added[j].rulesetVersion.None? && added[j].kind == KindOf(added[j].detector.key) && first <= added[j].parcel < next
  }

  ghost predicate NewExceptionsPlanned(staging: Staging, first: ParcelId, next: ParcelId,
                                       minted: map<FeatureId, ParcelId>, exceptionRows: seq<NewException>)
  {
    && NoRepeats(exceptionRows) && FreshRows(exceptionRows, first, next)
    && AddedPairs(exceptionRows, APN_UNRESOLVABLE) == ApnPairs(minted, staging)
    && AddedPairs(exceptionRows, GEOMETRY_DECLARED_GAP) == GapPairs(minted, staging)
    && (forall d :: d != APN_UNRESOLVABLE && d != GEOMETRY_DECLARED_GAP ==> AddedPairs(exceptionRows, d) == {})
  }

  /** Parcel identifiers are fresh and never shared. */
  ghost predicate FreshIds(minted: map<FeatureId, ParcelId>, first: ParcelId, next: ParcelId) {
    Injective(minted) && first <= next && forall f :: f in minted ==> first <= minted[f] < next
  }

  lemma SameTarget(a: map<FeatureId, ParcelId>, b: map<FeatureId, ParcelId>, values: Values, features: set<FeatureId>)
    requires features <= a.Keys && features <= b.Keys && Injective(a) && Injective(b)
    requires forall f :: f in features ==> a[f] == b[f]
    ensures TargetOf(a, values, features) == TargetOf(b, values, features)
  {
    var s, t := TargetOf(a, values, features), TargetOf(b, values, features);
    forall k | k in s ensures k in t && s[k] == t[k] {
      var f := OnlyTarget(a, values, features, k);
      HasTarget(b, values, features, f, k.field);
    }
    forall k | k in t ensures k in s {
      var f := OnlyTarget(b, values, features, k);
      HasTarget(a, values, features, f, k.field);
    }
  }

  lemma PairsGrow(minted: map<FeatureId, ParcelId>, staging: Staging, f: FeatureId, p: ParcelId)
    requires f in staging && f !in minted
    ensures ApnPairs(minted[f := p], staging) == ApnPairs(minted, staging) +
      if UnresolvableApn(staging[f].apn).Some? then {(p, UnresolvableApn(staging[f].apn))} else {}
    ensures GapPairs(minted[f := p], staging) == GapPairs(minted, staging) +
      if UnresolvableGeometry(staging[f].geometry).Some? then {(p, UnresolvableGeometry(staging[f].geometry))} else {}
  {
    var grown := minted[f := p];
    assert forall g :: g in grown <==> g == f || g in minted;
  }

  lemma FreshIsUnmentioned(added: seq<NewException>, first: ParcelId, next: ParcelId, d: Detector)
    requires FreshRows(added, first, next)
    ensures !Mentions(AddedPairs(added, d), next)
  {
  }

  lemma ParcelRowsGrow(staging: Staging, minted: map<FeatureId, ParcelId>, rows: map<ParcelId, Parcel>, f: FeatureId, p: ParcelId)
    requires minted.Keys <= staging.Keys && f in staging && f !in minted && p !in minted.Values
    requires ParcelRowsPlanned(staging, minted, rows)
    ensures ParcelRowsPlanned(staging, minted[f := p], rows[p := NewParcel(staging[f])])
  {
    var grown, more := minted[f := p], rows[p := NewParcel(staging[f])];
    ValuesGrow(minted, f, p);
    assert more.Keys == grown.Values;
    assert forall g :: g in minted ==> minted[g] in minted.Values;
  }

  lemma IdentityRowsGrow(cite: Citation, minted: map<FeatureId, ParcelId>, rows: map<FeatureId, Identity>, f: FeatureId, p: ParcelId)
    requires f !in minted && IdentityRowsPlanned(cite, minted, rows)
    ensures IdentityRowsPlanned(cite, minted[f := p], rows[f := NewIdentity(p, cite)])
  {
  }

  lemma RowsGrow(staging: Staging, cite: Citation, minted: map<FeatureId, ParcelId>,
                 parcelRows: map<ParcelId, Parcel>, identityRows: map<FeatureId, Identity>, f: FeatureId, p: ParcelId)
    requires minted.Keys <= staging.Keys && f in staging && f !in minted && p !in minted.Values
    requires NewRowsPlanned(staging, cite, minted, parcelRows, identityRows)
    ensures NewRowsPlanned(staging, cite, minted[f := p],
                           parcelRows[p := NewParcel(staging[f])], identityRows[f := NewIdentity(p, cite)])
  {
    ParcelRowsGrow(staging, minted, parcelRows, f, p);
    IdentityRowsGrow(cite, minted, identityRows, f, p);
  }

  lemma ValuesGrow(minted: map<FeatureId, ParcelId>, f: FeatureId, p: ParcelId)
    requires f !in minted
    ensures minted[f := p].Values == minted.Values + {p}
  {
    var grown := minted[f := p];
    forall v | v in minted.Values ensures v in grown.Values {
      var g :| g in minted && minted[g] == v;
      assert grown[g] == v;
    }
    assert grown[f] == p;
  }

  // ------------------------------------------------------------------ CHANGED

  ghost function ParcelsOf(identities: map<FeatureId, Identity>): map<FeatureId, ParcelId> {
    map f | f in identities :: identities[f].parcel
  }

  ghost function LiveApn(facts: seq<Fact>, id: Identity): Option<Value> {
    LiveValue(facts, FieldKey(id.parcel, Apn))
  }

  ghost function LiveGeometry(facts: seq<Fact>, id: Identity): Option<Value> {
    LiveValue(facts, FieldKey(id.parcel, GeometryField))
  }

  predicate ResolvableValue(v: Value) {
    v.Text? && UnresolvableCanonical(Some(v.text)).None?
  }

  predicate PolygonalValue(v: Value) {
    v.Shape? && UnresolvableGeometry(Some(v.shape)).None?
  }

  /** What every reconcile has left in the ledger about one identity. */
  ghost predicate WellRecorded(facts: seq<Fact>, f: FeatureId, id: Identity) {
    && LiveValue(facts, FieldKey(id.parcel, SourceParcelId)) == Some(Text(f))
    && (LiveApn(facts, id).Some? ==> ResolvableValue(LiveApn(facts, id).value))
    && (LiveGeometry(facts, id).Some? ==> PolygonalValue(LiveGeometry(facts, id).value))
  }

  /** The live number is not the one the feature supports. */
  ghost predicate ApnMoves(facts: seq<Fact>, id: Identity, s: Staged) {
    LiveApn(facts, id) != ApnJson(StoredApn(s))
  }

  ghost predicate GeometryMoves(facts: seq<Fact>, id: Identity, s: Staged) {
    LiveGeometry(facts, id) != Some(GeometryJson(s.geometry))
  }

  /** The loop's own test, with its two cases, against that. */
  lemma ApnTestIsExact(facts: seq<Fact>, f: FeatureId, id: Identity, s: Staged)
    requires WellRecorded(facts, f, id)
    ensures ApnMoves(facts, id, s) <==>
      if LiveApn(facts, id).Some? then LiveApn(facts, id) != ApnJson(Canonicalize(s.apn)) else UnresolvableApn(s.apn).None?
  {
  }

  lemma GeometryTestIsExact(facts: seq<Fact>, f: FeatureId, id: Identity, s: Staged)
    requires WellRecorded(facts, f, id) && LiveGeometry(facts, id).Some?
    ensures UnresolvableGeometry(s.geometry).None? ==> Supported(f, s, GeometryField) == Some(GeometryJson(s.geometry))
    ensures !GeometryMoves(facts, id, s) ==> UnresolvableGeometry(s.geometry).None?
  {
  }

  /** The lists the CHANGED loop fills. */
  datatype Changes = Changes(
    retire: set<nat>,
    rows: seq<NewFact>,
    exceptions: seq<NewException>,
    apnCache: map<ParcelId, Option<string>>,
    geomCache: map<ParcelId, Option<Geometry>>,
    touches: map<FeatureId, bool>,
    resolved: set<ParcelId>,
    reappeared: set<ParcelId>)

  /** Everything the loop reads. */
  datatype Observed = Observed(facts: seq<Fact>, identities: map<FeatureId, Identity>, staging: Staging, cite: Citation) {
    predicate Knows(f: FeatureId) {
      f in identities && f in staging
    }

    ghost predicate Degrades(f: FeatureId)
      requires Knows(f)
    {
      LiveApn(facts, identities[f]).Some? && UnresolvableApn(staging[f].apn).Some?
    }

    ghost predicate Resolves(f: FeatureId)
      requires Knows(f)
    {
      LiveApn(facts, identities[f]).None? && UnresolvableApn(staging[f].apn).None?
    }
  }

  ghost predicate CanCompare(o: Observed, changed: set<FeatureId>) {
    && OneLive(o.facts) && Injective(ParcelsOf(o.identities))
    && forall f :: f in changed ==>
         o.Knows(f) && WellRecorded(o.facts, f, o.identities[f]) && LiveGeometry(o.facts, o.identities[f]).Some?
  }

  /** PostGIS accepts every geometry about to be stored. */
  predicate GeometryAccepted(cache: map<ParcelId, Option<Geometry>>) {
    forall p :: p in cache ==> UnresolvableGeometry(cache[p]).None?
  }

  /** The facts part: right as long as the geometries can be stored. */
  ghost predicate ChangedFacts(o: Observed, base: Target, all: ParcelMap, done: set<FeatureId>, c: Changes)
    requires CanCompare(o, done)
  {
    && Cites(c.rows, o.cite) && AllVerbatim(c.rows, o.staging, all)
    && (GeometryAccepted(c.geomCache) ==>
          Planned(o.facts, base + TargetOf(ParcelsOf(o.identities), SupportedBy(o.staging), done), c.retire, c.rows))
  }

  /** A cache update per feature, keyed by its parcel. */
  ghost function CacheOf<V>(parcelOf: map<FeatureId, ParcelId>, features: set<FeatureId>, value: FeatureId -> V): map<ParcelId, V>
    requires features <= parcelOf.Keys && Injective(parcelOf)
  {
    map f | f in features :: parcelOf[f] := value(f)
  }

  lemma CacheGrows<V>(parcelOf: map<FeatureId, ParcelId>, features: set<FeatureId>, value: FeatureId -> V, f: FeatureId)
    requires features + {f} <= parcelOf.Keys && Injective(parcelOf) && f !in features
    ensures CacheOf(parcelOf, features + {f}, value) == CacheOf(parcelOf, features, value)[parcelOf[f] := value(f)]
    ensures parcelOf[f] !in CacheOf(parcelOf, features, value)
  {
  }

  function StoredApnIn(staging: Staging): FeatureId -> Option<string> {
    f => if f in staging then StoredApn(staging[f]) else None
  }

  function GeometryIn(staging: Staging): FeatureId -> Option<Geometry> {
    f => if f in staging then staging[f].geometry else None
  }

  ghost function ApnMovers(o: Observed, features: set<FeatureId>): set<FeatureId> {
    set f | f in features && o.Knows(f) && ApnMoves(o.facts, o.identities[f], o.staging[f])
  }

  ghost function GeometryMovers(o: Observed, features: set<FeatureId>): set<FeatureId> {
    set f | f in features && o.Knows(f) && GeometryMoves(o.facts, o.identities[f], o.staging[f])
  }

  ghost function ResolvedParcels(o: Observed, features: set<FeatureId>): set<ParcelId> {
    set f | f in features && o.Knows(f) && o.Resolves(f) :: o.identities[f].parcel
  }

  ghost function ReappearedParcels(o: Observed, features: set<FeatureId>): set<ParcelId> {
    set f | f in features && o.Knows(f) && o.identities[f].retiredAt.Some? :: o.identities[f].parcel
  }

  ghost predicate ApnCacheRight(o: Observed, done: set<FeatureId>, cache: map<ParcelId, Option<string>>)
    requires CanCompare(o, done)
  {
    cache == CacheOf(ParcelsOf(o.identities), ApnMovers(o, done), StoredApnIn(o.staging))
  }

  ghost predicate GeomCacheRight(o: Observed, done: set<FeatureId>, cache: map<ParcelId, Option<Geometry>>)
    requires CanCompare(o, done)
  {
    cache == CacheOf(ParcelsOf(o.identities), GeometryMovers(o, done), GeometryIn(o.staging))
  }

  ghost predicate SetsRight(o: Observed, done: set<FeatureId>, c: Changes)
    requires CanCompare(o, done)
  {
    && c.touches == (map f | f in done :: o.identities[f].retiredAt.Some?)
    && c.resolved == ResolvedParcels(o, done)
    && c.reappeared == ReappearedParcels(o, done)
  }

  ghost predicate ChangedCaches(o: Observed, done: set<FeatureId>, c: Changes)
    requires CanCompare(o, done)
  {
    ApnCacheRight(o, done, c.apnCache) && GeomCacheRight(o, done, c.geomCache) && SetsRight(o, done, c)
  }

  /** No key of the NEW features' target belongs to a parcel already known. */
  ghost predicate ApartFrom(base: Target, identities: map<FeatureId, Identity>) {
    forall k: Key, f :: k in base && f in identities ==> k.parcel != identities[f].parcel
  }

  lemma ChangedTargetGrows(o: Observed, base: Target, done: set<FeatureId>, f: FeatureId)
    requires CanCompare(o, done + {f}) && f !in done && ApartFrom(base, o.identities)
    ensures var values, p := SupportedBy(o.staging), o.identities[f].parcel;
      var target := base + TargetOf(ParcelsOf(o.identities), values, done);
      && FieldKey(p, Apn) !in target && FieldKey(p, GeometryField) !in target && FieldKey(p, SourceParcelId) !in target
      && base + TargetOf(ParcelsOf(o.identities), values, done + {f}) ==
           target[FieldKey(p, Apn) := values(f, Apn)]
                 [FieldKey(p, GeometryField) := values(f, GeometryField)]
                 [FieldKey(p, SourceParcelId) := values(f, SourceParcelId)]
  {
    var values, p, parcelOf := SupportedBy(o.staging), o.identities[f].parcel, ParcelsOf(o.identities);
    var known := TargetOf(parcelOf, values, done);
    TargetGrows(parcelOf, values, done, f);
    forall k | k in known ensures k.parcel != p {
      var g := OnlyTarget(parcelOf, values, done, k);
    }
    MergeThree(base, known, FieldKey(p, Apn), values(f, Apn), FieldKey(p, GeometryField), values(f, GeometryField),
               FieldKey(p, SourceParcelId), values(f, SourceParcelId));
  }

  lemma MergeThree(base: Target, m: Target, a: Key, va: Option<Value>, g: Key, vg: Option<Value>,
                   s: Key, vs: Option<Value>)
    requires a != g && a != s && g != s
    ensures base + m[g := vg][s := vs][a := va] == (base + m)[a := va][g := vg][s := vs]
  {
  }

  ghost function DegradedPairs(o: Observed, done: set<FeatureId>): set<(ParcelId, Option<Reason>)> {
    set f | f in done && o.Knows(f) && o.Degrades(f) :: (o.identities[f].parcel, UnresolvableApn(o.staging[f].apn))
  }

  /** The exceptions part, on top of what the NEW loop listed. */
  ghost predicate ChangedExceptions(o: Observed, listed: seq<NewException>, done: set<FeatureId>, c: Changes) {
    && NoRepeats(c.exceptions) && Regular(c.exceptions)
    && AddedPairs(c.exceptions, APN_UNRESOLVABLE) == AddedPairs(listed, APN_UNRESOLVABLE) + DegradedPairs(o, done)
    && forall d :: d != APN_UNRESOLVABLE ==> AddedPairs(c.exceptions, d) == AddedPairs(listed, d)
  }

  ghost predicate NewParcelsOnly(o: Observed, listed: seq<NewException>) {
    forall f, d :: f in o.identities ==> !Mentions(AddedPairs(listed, d), o.identities[f].parcel)
  }

  lemma NotYetMentioned(o: Observed, listed: seq<NewException>, done: set<FeatureId>, c: Changes, f: FeatureId)
    requires CanCompare(o, done + {f}) && f !in done
    requires ChangedExceptions(o, listed, done, c) && NewParcelsOnly(o, listed)
    ensures !Mentions(AddedPairs(c.exceptions, APN_UNRESOLVABLE), o.identities[f].parcel)
  {
    var p := o.identities[f].parcel;
    assert ParcelsOf(o.identities)[f] == p;
    forall g | g in done ensures o.identities[g].parcel != p {
      assert ParcelsOf(o.identities)[g] == o.identities[g].parcel;
    }
  }

  /** A number that may move, a geometry that may move, and an identifier that does not. */
  lemma ThreeStepsPlan(ledger: seq<Fact>, target: Target, p: ParcelId, apn: Option<Value>, geometry: Option<Value>,
                       identifier: Option<Value>, retire: set<nat>, rows: seq<NewFact>, retire1: set<nat>, rows1: seq<NewFact>,
                       retire2: set<nat>, rows2: seq<NewFact>)
    requires OneLive(ledger) && Planned(ledger, target, retire, rows)
    requires FieldKey(p, Apn) !in target && FieldKey(p, GeometryField) !in target && FieldKey(p, SourceParcelId) !in target
    requires FieldStep(ledger, FieldKey(p, Apn), apn, retire, rows, retire1, rows1)
    requires FieldStep(ledger, FieldKey(p, GeometryField), geometry, retire1, rows1, retire2, rows2)
    requires FieldStep(ledger, FieldKey(p, SourceParcelId), identifier, retire2, rows2, retire2, rows2)
    ensures Planned(ledger, target[FieldKey(p, Apn) := apn][FieldKey(p, GeometryField) := geometry]
                                  [FieldKey(p, SourceParcelId) := identifier], retire2, rows2)
  {
    FieldStepPlans(ledger, target, FieldKey(p, Apn), apn, retire, rows, retire1, rows1);
    var target1 := target[FieldKey(p, Apn) := apn];
    FieldStepPlans(ledger, target1, FieldKey(p, GeometryField), geometry, retire1, rows1, retire2, rows2);
    var target2 := target1[FieldKey(p, GeometryField) := geometry];
    FieldStepPlans(ledger, target2, FieldKey(p, SourceParcelId), identifier, retire2, rows2, retire2, rows2);
  }

  lemma FactsGrow(o: Observed, base: Target, all: ParcelMap, done: set<FeatureId>, c: Changes, f: FeatureId,
                  retire1: set<nat>, rows1: seq<NewFact>, c': Changes)
    requires CanCompare(o, done + {f}) && f !in done && ApartFrom(base, o.identities)
    requires ChangedFacts(o, base, all, done, c)
    requires FieldStep(o.facts, FieldKey(o.identities[f].parcel, Apn), ApnJson(StoredApn(o.staging[f])),
                       c.retire, c.rows, retire1, rows1)
    requires FieldStep(o.facts, FieldKey(o.identities[f].parcel, GeometryField), Some(GeometryJson(o.staging[f].geometry)),
                       retire1, rows1, c'.retire, c'.rows)
    requires Cites(c'.rows, o.cite) && AllVerbatim(c'.rows, o.staging, all)
    requires GeometryAccepted(c'.geomCache) ==>
      GeometryAccepted(c.geomCache) && UnresolvableGeometry(o.staging[f].geometry).None?
    ensures ChangedFacts(o, base, all, done + {f}, c')
  {
    if GeometryAccepted(c'.geomCache) {
      var values, p := SupportedBy(o.staging), o.identities[f].parcel;
      var target := base + TargetOf(ParcelsOf(o.identities), values, done);
      ChangedTargetGrows(o, base, done, f);
      GeometryTestIsExact(o.facts, f, o.identities[f], o.staging[f]);
      ThreeStepsPlan(o.facts, target, p, values(f, Apn), values(f, GeometryField), values(f, SourceParcelId),
                     c.retire, c.rows, retire1, rows1, c'.retire, c'.rows);
    }
  }

  lemma OneMoreListed(added: seq<NewException>, row: NewException)
    ensures AddedPairs(added + [row], row.detector) == AddedPairs(added, row.detector) + {(row.parcel, row.reason)}
    ensures forall d :: d != row.detector ==> AddedPairs(added + [row], d) == AddedPairs(added, d)
    ensures Regular(added) && row.rulesetVersion.None? && row.kind == KindOf(row.detector.key) ==> Regular(added + [row])
  {
    PlanException(added, row, row.detector);
    forall d | d != row.detector ensures AddedPairs(added + [row], d) == AddedPairs(added, d) {
      PlanException(added, row, d);
    }
  }

  lemma ExceptionsGrow(o: Observed, listed: seq<NewException>, done: set<FeatureId>, c: Changes, f: FeatureId, c': Changes)
    requires CanCompare(o, done + {f}) && f !in done && ChangedExceptions(o, listed, done, c)
    requires NoRepeats(c'.exceptions) && c'.exceptions == c.exceptions +
      if o.Degrades(f)
      then [ParcelException(o.identities[f].parcel, APN_UNRESOLVABLE, CoverageGap, UnresolvableApn(o.staging[f].apn).value)]
      else []
    ensures ChangedExceptions(o, listed, done + {f}, c')
  {
    DegradedGrow(o, done, f);
    if o.Degrades(f) {
      var row := ParcelException(o.identities[f].parcel, APN_UNRESOLVABLE, CoverageGap, UnresolvableApn(o.staging[f].apn).value);
      OneMoreListed(c.exceptions, row);
    } else {
      assert c'.exceptions == c.exceptions;
    }
  }

  lemma DegradedGrow(o: Observed, done: set<FeatureId>, f: FeatureId)
    requires o.Knows(f)
    ensures DegradedPairs(o, done + {f}) == DegradedPairs(o, done) +
      if o.Degrades(f) then {(o.identities[f].parcel, UnresolvableApn(o.staging[f].apn))} else {}
  {
  }

  /** The lists after one more feature. */
  function After(c: Changes, id: Identity, s: Staged, f: FeatureId, retire: set<nat>, rows: seq<NewFact>,
                 exceptions: seq<NewException>, apnMoved: bool, had: bool, geometryMoved: bool): Changes
  {
    Changes(
      retire, rows, exceptions,
      if apnMoved then c.apnCache[id.parcel := StoredApn(s)] else c.apnCache,
      if geometryMoved then c.geomCache[id.parcel := s.geometry] else c.geomCache,
      c.touches[f := id.retiredAt.Some?],
      if apnMoved && !had then c.resolved + {id.parcel} else c.resolved,
      if id.retiredAt.Some? then c.reappeared + {id.parcel} else c.reappeared)
  }

  lemma ApnCacheGrows(o: Observed, done: set<FeatureId>, cache: map<ParcelId, Option<string>>, f: FeatureId, moved: bool)
    requires CanCompare(o, done + {f}) && f !in done && ApnCacheRight(o, done, cache)
    requires moved <==> ApnMoves(o.facts, o.identities[f], o.staging[f])
    ensures ApnCacheRight(o, done + {f},
                          if moved then cache[o.identities[f].parcel := StoredApn(o.staging[f])] else cache)
  {
    assert ApnMovers(o, done + {f}) == ApnMovers(o, done) + if moved then {f} else {};
    if moved { CacheGrows(ParcelsOf(o.identities), ApnMovers(o, done), StoredApnIn(o.staging), f); }
  }

  lemma GeomCacheGrows(o: Observed, done: set<FeatureId>, cache: map<ParcelId, Option<Geometry>>, f: FeatureId, moved: bool)
    requires CanCompare(o, done + {f}) && f !in done && GeomCacheRight(o, done, cache)
    requires moved <==> GeometryMoves(o.facts, o.identities[f], o.staging[f])
    ensures GeomCacheRight(o, done + {f},
                           if moved then cache[o.identities[f].parcel := o.staging[f].geometry] else cache)
  {
    assert GeometryMovers(o, done + {f}) == GeometryMovers(o, done) + if moved then {f} else {};
    if moved { CacheGrows(ParcelsOf(o.identities), GeometryMovers(o, done), GeometryIn(o.staging), f); }
  }

  lemma CachesGrow(o: Observed, done: set<FeatureId>, c: Changes, f: FeatureId, retire: set<nat>, rows: seq<NewFact>,
                   exceptions: seq<NewException>, apnMoved: bool, had: bool, geometryMoved: bool)
    requires CanCompare(o, done + {f}) && f !in done && ChangedCaches(o, done, c)
    requires apnMoved <==> ApnMoves(o.facts, o.identities[f], o.staging[f])
    requires geometryMoved <==> GeometryMoves(o.facts, o.identities[f], o.staging[f])
    requires had <==> LiveApn(o.facts, o.identities[f]).Some?
    ensures ChangedCaches(o, done + {f},
              After(c, o.identities[f], o.staging[f], f, retire, rows, exceptions, apnMoved, had, geometryMoved))
  {
    ApnCacheGrows(o, done, c.apnCache, f, apnMoved);
    GeomCacheGrows(o, done, c.geomCache, f, geometryMoved);
    SetsRightGrow(o, done, c, f, retire, rows, exceptions, apnMoved, had, geometryMoved);
  }

  lemma SetsRightGrow(o: Observed, done: set<FeatureId>, c: Changes, f: FeatureId, retire: set<nat>, rows: seq<NewFact>,
                      exceptions: seq<NewException>, apnMoved: bool, had: bool, geometryMoved: bool)
    requires CanCompare(o, done + {f}) && f !in done && SetsRight(o, done, c)
    requires apnMoved <==> ApnMoves(o.facts, o.identities[f], o.staging[f])
    requires had <==> LiveApn(o.facts, o.identities[f]).Some?
    ensures SetsRight(o, done + {f},
              After(c, o.identities[f], o.staging[f], f, retire, rows, exceptions, apnMoved, had, geometryMoved))
  {
    ResolvedGrow(o, done, c.resolved, f, apnMoved, had);
    ReappearedGrow(o, done, c.reappeared, f);
    TouchesGrow(o.identities, done, f);
  }

  lemma TouchesGrow(identities: map<FeatureId, Identity>, done: set<FeatureId>, f: FeatureId)
    requires done + {f} <= identities.Keys
    ensures (map g | g in done + {f} :: identities[g].retiredAt.Some?)
         == (map g | g in done :: identities[g].retiredAt.Some?)[f := identities[f].retiredAt.Some?]
  {
  }

  lemma ReappearedGrow(o: Observed, done: set<FeatureId>, reappeared: set<ParcelId>, f: FeatureId)
    requires CanCompare(o, done + {f}) && reappeared == ReappearedParcels(o, done)
    ensures (if o.identities[f].retiredAt.Some? then reappeared + {o.identities[f].parcel} else reappeared)
         == ReappearedParcels(o, done + {f})
  {
  }

  lemma ResolvedGrow(o: Observed, done: set<FeatureId>, resolved: set<ParcelId>, f: FeatureId, apnMoved: bool, had: bool)
    requires CanCompare(o, done + {f}) && resolved == ResolvedParcels(o, done)
    requires apnMoved <==> ApnMoves(o.facts, o.identities[f], o.staging[f])
    requires had <==> LiveApn(o.facts, o.identities[f]).Some?
    ensures (if apnMoved && !had then resolved + {o.identities[f].parcel} else resolved) == ResolvedParcels(o, done + {f})
  {
    ApnTestIsExact(o.facts, f, o.identities[f], o.staging[f]);
    assert o.Resolves(f) <==> apnMoved && !had;
  }

  lemma AcceptedShrinks(o: Observed, done: set<FeatureId>, c: Changes, f: FeatureId, geometryMoved: bool, c': Changes)
    requires CanCompare(o, done + {f}) && f !in done && ChangedCaches(o, done, c)
    requires geometryMoved <==> GeometryMoves(o.facts, o.identities[f], o.staging[f])
    requires c'.geomCache ==
      if geometryMoved then c.geomCache[o.identities[f].parcel := o.staging[f].geometry] else c.geomCache
    ensures GeometryAccepted(c'.geomCache) ==>
      GeometryAccepted(c.geomCache) && UnresolvableGeometry(o.staging[f].geometry).None?
  {
    CacheGrows(ParcelsOf(o.identities), GeometryMovers(o, done), GeometryIn(o.staging), f);
    GeometryTestIsExact(o.facts, f, o.identities[f], o.staging[f]);
    var p := o.identities[f].parcel;
    if GeometryAccepted(c'.geomCache) && geometryMoved { assert p in c'.geomCache; }
    if GeometryAccepted(c'.geomCache) {
      forall q | q in c.geomCache ensures UnresolvableGeometry(c.geomCache[q]).None? {
        assert q in c'.geomCache && c'.geomCache[q] == c.geomCache[q];
      }
    }
  }

  ghost predicate ChangedSoFar(o: Observed, base: Target, all: ParcelMap, listed: seq<NewException>, done: set<FeatureId>, c: Changes)
    requires CanCompare(o, done)
  {
    ChangedFacts(o, base, all, done, c) && ChangedCaches(o, done, c) && ChangedExceptions(o, listed, done, c)
  }

  lemma Untouched(o: Observed, base: Target, all: ParcelMap, rows: seq<NewFact>, listed: seq<NewException>)
    requires CanCompare(o, {})
    requires Planned(o.facts, base, {}, rows) && Cites(rows, o.cite) && AllVerbatim(rows, o.staging, all)
    requires NoRepeats(listed) && Regular(listed)
    ensures ChangedSoFar(o, base, all, listed, {}, Changes({}, rows, listed, map[], map[], map[], {}, {}))
  {
    assert TargetOf(ParcelsOf(o.identities), SupportedBy(o.staging), {}) == map[];
    assert base + map[] == base;
    assert ApnMovers(o, {}) == {} && GeometryMovers(o, {}) == {};
  }

  // ------------------------------------------------------------------ DISAPPEARED

  ghost function GonePairs(identities: map<FeatureId, Identity>, gone: set<FeatureId>, open: set<ParcelId>):
    set<(ParcelId, Option<Reason>)>
  {
    set f | f in gone && f in identities && identities[f].parcel !in open
      :: (identities[f].parcel, Some(AbsentFromSnapshot))
  }

  lemma GonePairsGrow(identities: map<FeatureId, Identity>, done: set<FeatureId>, open: set<ParcelId>, f: FeatureId)
    requires done + {f} <= identities.Keys && f !in done && Injective(ParcelsOf(identities))
    ensures GonePairs(identities, done + {f}, open) == GonePairs(identities, done, open) +
      if identities[f].parcel in open then {} else {(identities[f].parcel, Some(AbsentFromSnapshot))}
    ensures !Mentions(GonePairs(identities, done, open), identities[f].parcel)
  {
    assert ParcelsOf(identities)[f] == identities[f].parcel;
    forall g | g in done ensures identities[g].parcel != identities[f].parcel {
      assert ParcelsOf(identities)[g] == identities[g].parcel;
    }
  }
}
