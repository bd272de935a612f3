/** What a parcels snapshot says, and what reconciling it against the tables means. */
module ParcelsModel {
  import opened Schema
  import opened Ledger
  import opened Exceptions
  import opened Identifiers

  const APN_UNRESOLVABLE := Detector(ApnUnresolvable, Version(1, 0))
  const GEOMETRY_DECLARED_GAP := Detector(GeometryDeclaredGap, Version(1, 0))
  const PARCEL_DISAPPEARED := Detector(ParcelDisappeared, Version(1, 0))

  const RETIREMENT_REASON := "parcel_absent_from_bulk_parcels_snapshot"

  // ------------------------------------------------------------------ the snapshot

  datatype Feature = Feature(parcelId: Option<string>, apn: Option<string>, geometry: GeometryProperty)

  /** One row of the staging table, with the raw number kept beside it. */
  datatype Staged = Staged(apn: Option<string>, geometry: Option<Geometry>)

  type Staging = map<FeatureId, Staged>

  function GeometryParam(g: GeometryProperty): Option<Geometry> {
    if g.Present? then Some(g.geometry) else None
  }

  function StagedOf(f: Feature): Staged {
    Staged(f.apn, GeometryParam(f.geometry))
  }

  /** A feature the parsing loop can stage: it has an identifier, and a `geometry`
      member, though that may be null (a missing member is a `KeyError`). */
  predicate Parses(f: Feature) {
    !IsBlank(f.parcelId) && !f.geometry.Missing?
  }

  predicate Identified(features: seq<Feature>) {
    && (forall i :: 0 <= i < |features| ==> features[i].parcelId.Some?)
    && (forall i, j :: 0 <= i < j < |features| ==> features[i].parcelId != features[j].parcelId)
  }

  predicate Stageable(features: seq<Feature>) {
    Identified(features) && forall i :: 0 <= i < |features| ==> Parses(features[i])
  }

  /** The staging table: each feature under its identifier, and nothing else. */
  function StagingOf(features: seq<Feature>): Staging
    requires Identified(features)
  {
    map i | 0 <= i < |features| :: features[i].parcelId.value := StagedOf(features[i])
  }

  lemma {:induction false} StagedAt(features: seq<Feature>, i: nat)
    requires Identified(features) && i < |features|
    ensures features[i].parcelId.value in StagingOf(features)
    ensures StagingOf(features)[features[i].parcelId.value] == StagedOf(features[i])
  {
  }

  lemma {:induction false} StagedFrom(features: seq<Feature>, id: FeatureId) returns (i: nat)
    requires Identified(features) && id in StagingOf(features)
    ensures i < |features| && features[i].parcelId == Some(id)
  {
    i :| i < |features| && features[i].parcelId.value == id;
  }

  // ------------------------------------------------------------------ what a feature supports

  function UnresolvableGeometry(g: Option<Geometry>): Option<Reason> {
    if g.None? then Some(NullGeometry)
    else match g.value.kind
      case Polygon => None
      case MultiPolygon => None
      case OtherType(name) => Some(NonPolygonal(name))
  }

  /** Why a geometry cannot be recorded: it is null, or of a kind that is no polygon. */
  lemma WhyNoGeometry(g: Option<Geometry>)
    ensures UnresolvableGeometry(g) == Some(NullGeometry) <==> g.None?
    ensures forall kind :: UnresolvableGeometry(g) == Some(NonPolygonal(kind)) <==> g.Some? && g.value.kind == OtherType(kind)
    ensures UnresolvableGeometry(g) == None <==> g.Some? && g.value.kind in {Polygon, MultiPolygon}
  {
  }

  function StoredApn(s: Staged): Option<string> {
    if UnresolvableApn(s.apn).Some? then None else Canonicalize(s.apn)
  }

  function StoredGeometry(s: Staged): Option<Geometry> {
    if UnresolvableGeometry(s.geometry).Some? then None else s.geometry
  }

  function ApnJson(canonical: Option<string>): Option<Value> {
    if canonical.Some? then Some(Text(canonical.value)) else None
  }

  /** A null geometry is the JSON value `null`, not an SQL NULL. */
  function GeometryJson(g: Option<Geometry>): Value {
    if g.Some? then Shape(g.value) else JsonNull
  }

  const PARCEL_FIELDS: set<Field> := {Apn, GeometryField, SourceParcelId}

  /** The value one feature supports for one of the three fields the source supplies. */
  function Supported(f: FeatureId, s: Staged, field: Field): Option<Value> {
    match field
    case Apn => ApnJson(StoredApn(s))
    case GeometryField => if StoredGeometry(s).Some? then Some(Shape(StoredGeometry(s).value)) else None
    case SourceParcelId => Some(Text(f))
    case _ => None
  }

  type Values = (FeatureId, Field) -> Option<Value>

  function SupportedBy(staging: Staging): Values {
    (f, field) => if f in staging then Supported(f, staging[f], field) else None
  }

  function FieldKey(p: ParcelId, field: Field): Key {
    Key(p, field, ParcelsSource)
  }

  ghost predicate Injective(parcelOf: map<FeatureId, ParcelId>) {
    forall f, g :: f in parcelOf && g in parcelOf && parcelOf[f] == parcelOf[g] ==> f == g
  }

  /** What a ledger built from these features alone would hold. */
  ghost function TargetOf(parcelOf: map<FeatureId, ParcelId>, values: Values, features: set<FeatureId>): Target
    requires features <= parcelOf.Keys && Injective(parcelOf)
  {
    map f, field | f in features && field in PARCEL_FIELDS :: FieldKey(parcelOf[f], field) := values(f, field)
  }

  lemma HasTarget(parcelOf: map<FeatureId, ParcelId>, values: Values, features: set<FeatureId>, f: FeatureId, field: Field)
    requires features <= parcelOf.Keys && Injective(parcelOf)
    requires f in features && field in PARCEL_FIELDS
    ensures var target, k := TargetOf(parcelOf, values, features), FieldKey(parcelOf[f], field);
      k in target && target[k] == values(f, field)
  {
  }

  lemma OnlyTarget(parcelOf: map<FeatureId, ParcelId>, values: Values, features: set<FeatureId>, k: Key)
    returns (f: FeatureId)
    requires features <= parcelOf.Keys && Injective(parcelOf)
    requires k in TargetOf(parcelOf, values, features)
    ensures f in features && k.field in PARCEL_FIELDS && k == FieldKey(parcelOf[f], k.field)
    ensures TargetOf(parcelOf, values, features)[k] == values(f, k.field)
  {
    f :| f in features && k == FieldKey(parcelOf[f], k.field) && k.field in PARCEL_FIELDS;
  }

  lemma TargetGrows(parcelOf: map<FeatureId, ParcelId>, values: Values, features: set<FeatureId>, f: FeatureId)
    requires features + {f} <= parcelOf.Keys && Injective(parcelOf) && f !in features
    ensures var target, p := TargetOf(parcelOf, values, features), parcelOf[f];
      && FieldKey(p, Apn) !in target && FieldKey(p, GeometryField) !in target && FieldKey(p, SourceParcelId) !in target
      && TargetOf(parcelOf, values, features + {f}) ==
           target[FieldKey(p, GeometryField) := values(f, GeometryField)]
                 [FieldKey(p, SourceParcelId) := values(f, SourceParcelId)]
                 [FieldKey(p, Apn) := values(f, Apn)]
  {
    var p := parcelOf[f];
    var before, after := TargetOf(parcelOf, values, features), TargetOf(parcelOf, values, features + {f});
    var grown := before[FieldKey(p, GeometryField) := values(f, GeometryField)]
                       [FieldKey(p, SourceParcelId) := values(f, SourceParcelId)]
                       [FieldKey(p, Apn) := values(f, Apn)];
    HasTarget(parcelOf, values, features + {f}, f, Apn);
    HasTarget(parcelOf, values, features + {f}, f, GeometryField);
    HasTarget(parcelOf, values, features + {f}, f, SourceParcelId);
    forall k | k in before ensures k in after && after[k] == before[k] && k.parcel != p {
      var g := OnlyTarget(parcelOf, values, features, k);
      HasTarget(parcelOf, values, features + {f}, g, k.field);
    }
    forall k | k in after ensures k in grown {
      var g := OnlyTarget(parcelOf, values, features + {f}, k);
      if g != f { HasTarget(parcelOf, values, features, g, k.field); }
    }
  }

  // ------------------------------------------------------------------ the three queries

  /** The `SELECT` lists of the change query, as a run of Python sees them. */
  function LiveParcelFacts(facts: seq<Fact>): map<Key, nat>
    requires OneLive(facts)
  {
    LiveRows(facts, ParcelsSource, {Apn, GeometryField})
  }

  /** NEW: no identity row at all, ever. */
  function NewIds(staging: Staging, identities: map<FeatureId, Identity>): set<FeatureId> {
    staging.Keys - identities.Keys
  }

  /** DISAPPEARED: a live identity row with no incoming feature. */
  function GoneIds(staging: Staging, identities: map<FeatureId, Identity>): set<FeatureId> {
    set f | f in identities && identities[f].retiredAt.None? && f !in staging
  }

  /** The `WHERE` clause of the change query. */
  predicate SqlChanged(facts: seq<Fact>, live: map<Key, nat>, id: Identity, s: Staged)
    requires forall k :: k in live ==> live[k] < |facts|
  {
    var a, g := FieldKey(id.parcel, Apn), FieldKey(id.parcel, GeometryField);
    g in live &&
    ( || id.retiredAt.Some?
      || (if a in live then Some(facts[live[a]].value) != ApnJson(Canonicalize(s.apn))
          else SqlResolvable(Canonicalize(s.apn)))
      || facts[live[g]].value != GeometryJson(s.geometry))
  }

  /** EXISTING_OR_REAPPEARING: the geometry fact is an inner join, the apn fact an outer one. */
  function ChangedIds(facts: seq<Fact>, staging: Staging, identities: map<FeatureId, Identity>): set<FeatureId>
    requires OneLive(facts)
  {
    var live := LiveParcelFacts(facts);
    LiveRowsInRange(facts);
    set f | f in staging && f in identities && SqlChanged(facts, live, identities[f], staging[f])
  }

  lemma LiveRowsInRange(facts: seq<Fact>)
    requires OneLive(facts)
    ensures forall k :: k in LiveParcelFacts(facts) ==>
      LiveParcelFacts(facts)[k] < |facts| && LiveId(facts, k) == Some(LiveParcelFacts(facts)[k])
  {
  }
}
