/** What holds of the tables between any two runs of any loader. */
module Invariants {
  import opened Schema
  import opened Ledger
  import opened Exceptions
  import opened ParcelsModel
  import opened ParcelsLists

  const ZONING_UNRESOLVABLE := Detector(ZoningUnresolvable, Version(2, 0))
  const CENTROID_NOT_INTERIOR := Detector(CentroidNotInterior, Version(1, 0))
  const PERMIT_ATTRIBUTION_LOST := Detector(PermitAttributionLost, Version(1, 0))

  /** The detectors whose callers relink after they insert. */
  predicate Relinks(d: Detector) {
    d == APN_UNRESOLVABLE || d == PARCEL_DISAPPEARED || d == ZONING_UNRESOLVABLE || d == PERMIT_ATTRIBUTION_LOST
  }

  // ------------------------------------------------------------------ foreign keys

  ghost predicate FactsRefer(facts: seq<Fact>, parcels: map<ParcelId, Parcel>) {
    forall i {:trigger facts[i]} :: 0 <= i < |facts| ==> facts[i].key.parcel in parcels
  }

  ghost predicate ExceptionsRefer(rows: Rows, parcels: map<ParcelId, Parcel>) {
    forall i {:trigger rows[i]} :: 0 <= i < |rows| ==> rows[i].parcel in parcels
  }

  // ------------------------------------------------------------------ source_feature_identity

  /** 0043's three checks on a row. */
  predicate IdentityHolds(id: Identity) {
    && (id.retiredAt.Some? <==> id.retiredSnapshot.Some?) && (id.retiredAt.Some? <==> id.retirementReason.Some?)
    && id.firstSeenAt <= id.lastSeenAt
    && (id.retiredAt.Some? ==> id.lastSeenAt <= id.retiredAt.value)
  }

  ghost predicate IdentitiesHold(identities: map<FeatureId, Identity>, parcels: map<ParcelId, Parcel>) {
    && Injective(ParcelsOf(identities))
    && forall f :: f in identities ==> identities[f].parcel in parcels && IdentityHolds(identities[f])
  }

  // ------------------------------------------------------------------ parcel_exception

  ghost predicate ExceptionsHold(rows: Rows, now: Time) {
    OneOpen(rows) && Ordered(rows) && ClosedBy(rows, now) && forall d :: Relinks(d) ==> Linked(rows, d)
  }

  lemma CloseHolds(rows: Rows, now: Time, hit: set<nat>, outcome: Outcome, actor: Actor, at: Time)
    requires ExceptionsHold(rows, now) && now < at && OnlyOpen(rows, hit)
    ensures ExceptionsHold(Close(rows, hit, outcome, actor, at), at)
  {
    CloseKeeps(rows, hit, outcome, actor, now, at);
    forall d | Relinks(d) ensures Linked(Close(rows, hit, outcome, actor, at), d) {
      CloseKeepsLinks(rows, hit, outcome, actor, at, d, |rows|);
    }
  }

  /** A detector that never relinks adds its rows. */
  lemma AddHolds(rows: Rows, now: Time, added: seq<NewException>, d: Detector)
    requires ExceptionsHold(rows, now) && CanAdd(rows, added) && FindingsOnly(added, d) && !Relinks(d)
    ensures ExceptionsHold(Append(rows, added), now)
  {
    AppendKeeps(rows, added, now);
    forall e | Relinks(e) ensures Linked(Append(rows, added), e) { AppendKeepsLinks(rows, added, e); }
  }

  /** A detector that relinks adds its rows and links them. */
  lemma AddAndRelinkHolds(rows: Rows, now: Time, added: seq<NewException>, d: Detector)
    requires ExceptionsHold(rows, now) && CanAdd(rows, added) && FindingsOnly(added, d) && Relinks(d)
    ensures ExceptionsHold(Relink(Append(rows, added), d), now)
  {
    var r := Append(rows, added);
    AppendKeeps(rows, added, now);
    RelinkKeeps(r, d, now);
    forall e | Relinks(e) ensures Linked(Relink(r, d), e) {
      AppendKeepsLinks(rows, added, e);
      if e == d { RelinkCompletes(r, d, |rows|); } else { RelinkKeepsOtherLinks(r, d, e, |r|); }
    }
  }

  type Pairs = set<(ParcelId, Option<Reason>)>

  ghost predicate AtMostOne(pairs: Pairs, p: ParcelId) {
    forall r: Option<Reason>, r': Option<Reason> :: (p, r) in pairs && (p, r') in pairs ==> r == r'
  }

  ghost predicate AtMostOneEach(pairs: Pairs) {
    forall p :: AtMostOne(pairs, p)
  }

  // ------------------------------------------------------------------ the exceptions mirror the ledger

  /** The cache columns repeat the ledger (0034). */
  ghost predicate CacheHolds(facts: seq<Fact>, id: Identity, p: Parcel) {
    && p.jurisdiction == SanJose
    && ApnJson(p.apn) == LiveApn(facts, id)
    && (if p.geom.Some? then Some(Shape(p.geom.value)) else None) == LiveGeometry(facts, id)
  }

  /** A known parcel has a live number, or an open exception saying why not; and its
      identity is retired exactly while an open exception says it disappeared. */
  ghost predicate MirroredBy(facts: seq<Fact>, noApn: Pairs, disappeared: Pairs, id: Identity) {
    && (LiveApn(facts, id).Some? <==> !Mentions(noApn, id.parcel))
    && (id.retiredAt.Some? <==> Mentions(disappeared, id.parcel))
  }

  ghost predicate Mirrored(facts: seq<Fact>, rows: Rows, id: Identity) {
    MirroredBy(facts, OpenPairs(rows, APN_UNRESOLVABLE), OpenPairs(rows, PARCEL_DISAPPEARED), id)
  }

  ghost predicate IdentitiesMirrored(t: Tables)
    requires forall f :: f in t.identities ==> t.identities[f].parcel in t.parcels
  {
    && AtMostOneEach(OpenPairs(t.exceptions, APN_UNRESOLVABLE))
    && AtMostOneEach(OpenPairs(t.exceptions, PARCEL_DISAPPEARED))
    && forall f :: f in t.identities ==>
         && WellRecorded(t.facts, f, t.identities[f])
         && CacheHolds(t.facts, t.identities[f], t.parcels[t.identities[f].parcel])
         && Mirrored(t.facts, t.exceptions, t.identities[f])
  }

  // ------------------------------------------------------------------ permits

  function PermitKey(p: ParcelId, field: Field): Key {
    Key(p, field, PermitsSource)
  }

  ghost predicate HasLivePermit(facts: seq<Fact>, p: ParcelId) {
    || LiveValue(facts, PermitKey(p, PermitsActive)).Some?
    || LiveValue(facts, PermitKey(p, PermitsEarliest)).Some?
  }

  /** An open attribution-lost exception is about a parcel that still has a live permit fact. */
  ghost predicate PermitsMirrored(facts: seq<Fact>, rows: Rows) {
    forall p, r: Option<Reason> :: (p, r) in OpenPairs(rows, PERMIT_ATTRIBUTION_LOST) ==>
      r == Some(NoFreshApnMatch) && HasLivePermit(facts, p)
  }

  /** A run of another source that opens and closes nothing here keeps it. */
  lemma PermitsUnmoved(before: seq<Fact>, after: seq<Fact>, rows: Rows, rows': Rows, target: Target, cite: Citation,
                       started: Time, at: Time)
    requires Sound(before) && Refreshed(before, after, target, cite, started, at) && PermitsMirrored(before, rows)
    requires forall k :: k in target ==> k.source != PermitsSource
    requires OpenPairs(rows', PERMIT_ATTRIBUTION_LOST) <= OpenPairs(rows, PERMIT_ATTRIBUTION_LOST)
    ensures PermitsMirrored(after, rows')
  {
    forall p, r: Option<Reason> | (p, r) in OpenPairs(rows', PERMIT_ATTRIBUTION_LOST)
      ensures r == Some(NoFreshApnMatch) && HasLivePermit(after, p)
    {
      RefreshLeaves(before, after, target, cite, started, at, PermitKey(p, PermitsActive));
      RefreshLeaves(before, after, target, cite, started, at, PermitKey(p, PermitsEarliest));
    }
  }

  // ------------------------------------------------------------------ zoning

  /** The two zoning detectors name a reason in every open row, the second always the same one. */
  ghost predicate OwnReasons(rows: Rows) {
    && (forall p, r: Option<Reason> :: (p, r) in OpenPairs(rows, ZONING_UNRESOLVABLE) ==> r.Some?)
    && (forall p, r: Option<Reason> :: (p, r) in OpenPairs(rows, CENTROID_NOT_INTERIOR) ==> r == Some(CentroidNotInteriorAfterFallback))
  }

  // ------------------------------------------------------------------ all of it

  ghost predicate Kept(t: Tables, now: Time) {
    && Sound(t.facts) && Timed(t.facts, now)
    && FactsRefer(t.facts, t.parcels) && ExceptionsRefer(t.exceptions, t.parcels)
    && IdentitiesHold(t.identities, t.parcels)
    && ExceptionsHold(t.exceptions, now)
    && IdentitiesMirrored(t)
    && PermitsMirrored(t.facts, t.exceptions) && OwnReasons(t.exceptions)
  }

  // ------------------------------------------------------------------ loaders of other sources

  /** Parcels keep everything but their centroid. */
  ghost predicate SameButCentroid(before: map<ParcelId, Parcel>, after: map<ParcelId, Parcel>) {
    before.Keys == after.Keys && forall p :: p in before ==> after[p] == before[p].(centroid := after[p].centroid)
  }

  /** What a run of another source leaves of one identity. */
  lemma IdentityUnmoved(before: seq<Fact>, after: seq<Fact>, target: Target, cite: Citation, started: Time, at: Time,
                        rows: Rows, rows': Rows, f: FeatureId, id: Identity, p: Parcel, p': Parcel)
    requires Sound(before) && Refreshed(before, after, target, cite, started, at)
    requires forall k :: k in target ==> k.source != ParcelsSource
    requires OpenPairs(rows', APN_UNRESOLVABLE) == OpenPairs(rows, APN_UNRESOLVABLE)
    requires OpenPairs(rows', PARCEL_DISAPPEARED) == OpenPairs(rows, PARCEL_DISAPPEARED)
    requires WellRecorded(before, f, id) && CacheHolds(before, id, p) && Mirrored(before, rows, id)
    requires p' == p.(centroid := p'.centroid)
    ensures WellRecorded(after, f, id) && CacheHolds(after, id, p') && Mirrored(after, rows', id)
  {
    RefreshLeaves(before, after, target, cite, started, at, FieldKey(id.parcel, Apn));
    RefreshLeaves(before, after, target, cite, started, at, FieldKey(id.parcel, GeometryField));
    RefreshLeaves(before, after, target, cite, started, at, FieldKey(id.parcel, SourceParcelId));
  }

  lemma IdentitiesUnmoved(t: Tables, b: Tables, target: Target, cite: Citation, started: Time, at: Time)
    requires Sound(t.facts) && Refreshed(t.facts, b.facts, target, cite, started, at)
    requires forall k :: k in target ==> k.source != ParcelsSource
    requires OpenPairs(b.exceptions, APN_UNRESOLVABLE) == OpenPairs(t.exceptions, APN_UNRESOLVABLE)
    requires OpenPairs(b.exceptions, PARCEL_DISAPPEARED) == OpenPairs(t.exceptions, PARCEL_DISAPPEARED)
    requires b.identities == t.identities && SameButCentroid(t.parcels, b.parcels)
    requires IdentitiesHold(t.identities, t.parcels) && IdentitiesMirrored(t)
    ensures IdentitiesHold(b.identities, b.parcels) && IdentitiesMirrored(b)
  {
    forall f | f in b.identities
      ensures WellRecorded(b.facts, f, b.identities[f])
      ensures CacheHolds(b.facts, b.identities[f], b.parcels[b.identities[f].parcel])
      ensures Mirrored(b.facts, b.exceptions, b.identities[f])
    {
      var id := t.identities[f];
      IdentityUnmoved(t.facts, b.facts, target, cite, started, at, t.exceptions, b.exceptions, f, id,
                      t.parcels[id.parcel], b.parcels[id.parcel]);
    }
  }

  lemma FactsReferStill(before: seq<Fact>, after: seq<Fact>, target: Target, cite: Citation, started: Time, at: Time,
                        parcels: map<ParcelId, Parcel>, parcels': map<ParcelId, Parcel>)
    requires Refreshed(before, after, target, cite, started, at) && FactsRefer(before, parcels)
    requires SameButCentroid(parcels, parcels') && forall k :: k in target ==> k.parcel in parcels
    ensures FactsRefer(after, parcels')
  {
    RefreshExtends(before, after, target, cite, started, at);
    forall i | 0 <= i < |after| ensures after[i].key.parcel in parcels' {
      if i < |before| { assert before[i].key.parcel in parcels; }
    }
  }

  /** A committed run of another source keeps everything, given what it does to the exceptions. */
  lemma OtherLoaderKeeps(t: Tables, now: Time, b: Tables, later: Time, target: Target, cite: Citation, started: Time, at: Time)
    requires Kept(t, now) && now <= started <= at <= later
    requires Refreshed(t.facts, b.facts, target, cite, started, at)
    requires forall k :: k in target ==> k.source != ParcelsSource && k.parcel in t.parcels
    requires b.identities == t.identities && SameButCentroid(t.parcels, b.parcels)
    requires OpenPairs(b.exceptions, APN_UNRESOLVABLE) == OpenPairs(t.exceptions, APN_UNRESOLVABLE)
    requires OpenPairs(b.exceptions, PARCEL_DISAPPEARED) == OpenPairs(t.exceptions, PARCEL_DISAPPEARED)
    requires ExceptionsHold(b.exceptions, later) && ExceptionsRefer(b.exceptions, b.parcels)
    requires PermitsMirrored(b.facts, b.exceptions) && OwnReasons(b.exceptions)
    ensures Kept(b, later)
  {
    RefreshReaches(t.facts, b.facts, target, cite, started, at);
    RefreshExtends(t.facts, b.facts, target, cite, started, at);
    FactsReferStill(t.facts, b.facts, target, cite, started, at, t.parcels, b.parcels);
    IdentitiesUnmoved(t, b, target, cite, started, at);
  }

  // ------------------------------------------------------------------ between runs

  /** Mentioned by a proof that looks into a predicate guarded by it. */
  ghost predicate Inside(t: Tables) {
    true
  }

  /** `Kept`, guarded: what every run is given and gives back. */
  ghost predicate Settled(t: Tables, now: Time) {
    forall u {:trigger Inside(u)} :: Inside(u) && u == t ==> Kept(u, now)
  }

  lemma SettledIsKept(t: Tables, now: Time)
    ensures Settled(t, now) <==> Kept(t, now)
  {
    assert Inside(t);
  }

  lemma SettledIsSound(t: Tables, now: Time)
    requires Settled(t, now)
    ensures Sound(t.facts)
  {
    SettledIsKept(t, now);
  }

  /** What a loader's statements rely on. */
  lemma SettledParts(t: Tables, now: Time, later: Time)
    requires Settled(t, now) && now <= later
    ensures Sound(t.facts) && ExceptionsHold(t.exceptions, later) && OwnReasons(t.exceptions)
  {
    SettledIsKept(t, now);
  }

  /** The invariants hold later if they hold now, and say nothing about `job_run`. */
  lemma SettledLater(t: Tables, jobs: seq<JobRun>, now: Time, later: Time)
    requires Settled(t, now) && now <= later
    ensures Settled(t.(jobs := jobs), later)
  {
    SettledIsKept(t, now);
    SettledIsKept(t.(jobs := jobs), later);
  }
}
