/** What a committed permits run means. */
module PermitsTheorems {
  import opened Schema
  import opened Ledger
  import opened Exceptions
  import opened Diff
  import opened Findings
  import opened PermitMatch
  import opened Permits
  import opened Invariants
  import opened ParcelsModel

  lemma InLostPairs(parcels: set<ParcelId>, p: ParcelId, r: Option<Reason>)
    ensures (p, r) in LostPairs(parcels) <==> p in parcels && r == Some(NoFreshApnMatch)
  {
  }

  /** After a run the open attribution-lost exceptions are exactly the parcels with a live
      permit fact and no match in this file. */
  lemma OpenIsExactlyUnattributed(a: Tables, now: Time, b: Tables, matches: Matches, cite: Citation, m: PermitMoments,
                                  plan: PermitPlan, p: ParcelId, r: Option<Reason>)
    requires Kept(a, now) && PermittedBy(a, b, matches, cite, m, plan)
    ensures (p, r) in OpenPairs(b.exceptions, PERMIT_ATTRIBUTION_LOST) <==>
      r == Some(NoFreshApnMatch) && HasLivePermit(b.facts, p) && p !in matches
  {
    var known := OpenParcels(a.exceptions, PERMIT_ATTRIBUTION_LOST);
    PairsAfterPermits(a.exceptions, plan.exceptions, plan.confirmed, m.closed, plan.lost - known, PERMIT_ATTRIBUTION_LOST);
    InLostPairs(plan.lost - known, p, r);
    OpenMeansOpenParcel(a.exceptions, PERMIT_ATTRIBUTION_LOST, p);
    HasPermitAfter(a, b, matches, cite, m, plan, p);
    assert PermitsMirrored(a.facts, a.exceptions);
    if p in known {
      var r': Option<Reason> :| (p, r') in OpenPairs(a.exceptions, PERMIT_ATTRIBUTION_LOST);
    }
  }

  /** New permit facts are about matched parcels only; a parcel without a match keeps every
      permit fact it has, as the same rows; and once a permit is active it is never
      anything else. */
  lemma AbsenceNeverAsserts(a: Tables, now: Time, b: Tables, matches: Matches, cite: Citation, m: PermitMoments, plan: PermitPlan, p: ParcelId)
    requires Kept(a, now) && PermittedBy(a, b, matches, cite, m, plan)
    ensures forall i {:trigger b.facts[i]} :: |a.facts| <= i < |b.facts| ==> b.facts[i].key.parcel in matches
    ensures p !in matches ==> forall field :: field in PERMIT_FIELDS ==> LiveId(b.facts, PermitKey(p, field)) == LiveId(a.facts, PermitKey(p, field))
    ensures LiveValue(b.facts, PermitKey(p, PermitsActive)) ==
      if p in matches then Some(Flag(true)) else LiveValue(a.facts, PermitKey(p, PermitsActive))
  {
    PermitsRefresh(a, matches, cite, plan, m);
    TargetIsPermits(matches);
    RefreshExtends(a.facts, b.facts, PermitTarget(matches), cite, m.started, m.at);
    forall field | field in PERMIT_FIELDS
      ensures p !in matches ==> LiveId(b.facts, PermitKey(p, field)) == LiveId(a.facts, PermitKey(p, field))
    {
      PermitFactsAfter(a, b, matches, cite, m, plan, p, field);
    }
    PermitFactsAfter(a, b, matches, cite, m, plan, p, PermitsActive);
  }

  /** Facts of every other source, and exceptions of every other detector, are the same rows. */
  lemma PermitsAreLocal(a: Tables, b: Tables, matches: Matches, cite: Citation, m: PermitMoments, plan: PermitPlan)
    requires PermittedBy(a, b, matches, cite, m, plan)
    ensures forall i {:trigger b.facts[i]} :: 0 <= i < |b.facts| && b.facts[i].key.source != PermitsSource ==>
      i < |a.facts| && b.facts[i] == a.facts[i]
    ensures SameFor(a.exceptions, b.exceptions, {PERMIT_ATTRIBUTION_LOST})
  {
    PermitsRefresh(a, matches, cite, plan, m);
    TargetIsPermits(matches);
    RefreshIsLocal(a.facts, b.facts, PermitTarget(matches), cite, m.started, m.at, PermitsSource);
    PermitLifecycleIsLocal(a.exceptions, plan.exceptions, plan.confirmed, m.closed);
  }

  lemma PermitLifecycleIsLocal(rows: Rows, added: seq<NewException>, confirmed: set<ParcelId>, at: Time)
    requires FindingsOnly(added, PERMIT_ATTRIBUTION_LOST)
    ensures SameFor(rows, PermitLifecycle(rows, added, confirmed, at), {PERMIT_ATTRIBUTION_LOST})
  {
    var ours := {PERMIT_ATTRIBUTION_LOST};
    var r := if added == [] then rows else Relink(Append(rows, added), PERMIT_ATTRIBUTION_LOST);
    AppendIsLocal(rows, added, ours);
    RelinkIsLocal(Append(rows, added), PERMIT_ATTRIBUTION_LOST, ours);
    if added != [] { SameThrough(rows, Append(rows, added), r, ours); }
    CloseIsLocal(r, OfParcels(r, PERMIT_ATTRIBUTION_LOST, confirmed), ConditionCleared, ByDetector(PermitAttributionLost), at, ours);
    SameThrough(rows, r, PermitLifecycle(rows, added, confirmed, at), ours);
  }

  // ------------------------------------------------------------------ what a run keeps

  lemma PermitSubjects(rows: Rows, added: seq<NewException>, confirmed: set<ParcelId>, at: Time, pairs: Pairs, parcels: map<ParcelId, Parcel>)
    requires ExceptionsRefer(rows, parcels) && Lists(added, PERMIT_ATTRIBUTION_LOST, pairs) && forall x :: x in pairs ==> x.0 in parcels
    ensures ExceptionsRefer(PermitLifecycle(rows, added, confirmed, at), parcels)
  {
    forall j | 0 <= j < |added| ensures added[j].parcel in parcels {
      assert (added[j].parcel, added[j].reason) in AddedPairs(added, PERMIT_ATTRIBUTION_LOST);
    }
    assert ExceptionsRefer(Append(rows, added), parcels);
    assert ExceptionsRefer(Relink(Append(rows, added), PERMIT_ATTRIBUTION_LOST), parcels);
  }

  lemma PermitsStayMirrored(a: Tables, now: Time, b: Tables, matches: Matches, cite: Citation, m: PermitMoments, plan: PermitPlan)
    requires Kept(a, now) && PermittedBy(a, b, matches, cite, m, plan)
    ensures PermitsMirrored(b.facts, b.exceptions)
  {
    forall p: ParcelId, r: Option<Reason> | (p, r) in OpenPairs(b.exceptions, PERMIT_ATTRIBUTION_LOST)
      ensures r == Some(NoFreshApnMatch) && HasLivePermit(b.facts, p)
    {
      OpenIsExactlyUnattributed(a, now, b, matches, cite, m, plan, p, r);
    }
  }

  lemma LostAreParcels(facts: seq<Fact>, parcels: map<ParcelId, Parcel>, p: ParcelId)
    requires FactsRefer(facts, parcels) && HasLivePermit(facts, p)
    ensures p in parcels
  {
  }

  /** A committed permits run keeps every invariant. */
  lemma PermittedKeeps(a: Tables, now: Time, b: Tables, matches: Matches, cite: Citation, m: PermitMoments, plan: PermitPlan)
    requires Kept(a, now) && PermittedBy(a, b, matches, cite, m, plan) && matches.Keys <= a.parcels.Keys
    requires now <= m.started < m.at < m.closed
    ensures Kept(b, m.closed)
  {
    var lost := plan.lost - OpenParcels(a.exceptions, PERMIT_ATTRIBUTION_LOST);
    PermitsRefresh(a, matches, cite, plan, m);
    TargetIsPermits(matches);
    PairsAfterPermits(a.exceptions, plan.exceptions, plan.confirmed, m.closed, lost, APN_UNRESOLVABLE);
    PairsAfterPermits(a.exceptions, plan.exceptions, plan.confirmed, m.closed, lost, PARCEL_DISAPPEARED);
    PairsAfterPermits(a.exceptions, plan.exceptions, plan.confirmed, m.closed, lost, ZONING_UNRESOLVABLE);
    PairsAfterPermits(a.exceptions, plan.exceptions, plan.confirmed, m.closed, lost, CENTROID_NOT_INTERIOR);
    PermitHolds(a.exceptions, now, plan.exceptions, plan.confirmed, m.closed, plan.lost);
    forall p | p in plan.lost ensures p in a.parcels { LostAreParcels(a.facts, a.parcels, p); }
    PermitSubjects(a.exceptions, plan.exceptions, plan.confirmed, m.closed, LostPairs(lost), a.parcels);
    PermitsStayMirrored(a, now, b, matches, cite, m, plan);
    OtherLoaderKeeps(a, now, b, m.closed, PermitTarget(matches), cite, m.started, m.at);
  }

  // ------------------------------------------------------------------ a second run on the same file

  lemma NobodyIsNewlyLost(b: Tables, matches: Matches, plan: PermitPlan, cite: Citation)
    requires forall p: ParcelId, r: Option<Reason> :: (p, r) in OpenPairs(b.exceptions, PERMIT_ATTRIBUTION_LOST) <==>
      r == Some(NoFreshApnMatch) && HasLivePermit(b.facts, p) && p !in matches
    requires PermitPlanned(b, matches, cite, plan)
    ensures plan.exceptions == [] && OfParcels(b.exceptions, PERMIT_ATTRIBUTION_LOST, plan.confirmed) == {}
  {
    forall p | p in plan.lost ensures p in OpenParcels(b.exceptions, PERMIT_ATTRIBUTION_LOST) {
      assert (p, Some(NoFreshApnMatch)) in OpenPairs(b.exceptions, PERMIT_ATTRIBUTION_LOST);
      OpenMeansOpenParcel(b.exceptions, PERMIT_ATTRIBUTION_LOST, p);
    }
    assert plan.lost - OpenParcels(b.exceptions, PERMIT_ATTRIBUTION_LOST) == {};
    assert LostPairs({}) == {};
    NoPairs(plan.exceptions, PERMIT_ATTRIBUTION_LOST);
    forall i | i in OfParcels(b.exceptions, PERMIT_ATTRIBUTION_LOST, {}) + OfParcels(b.exceptions, PERMIT_ATTRIBUTION_LOST, plan.confirmed)
      ensures b.exceptions[i].parcel !in matches
    {
      assert (b.exceptions[i].parcel, b.exceptions[i].reason) in OpenPairs(b.exceptions, PERMIT_ATTRIBUTION_LOST);
    }
  }

  /** What is written, and which parcels count as lost, does not depend on what other sources hold. */
  lemma ForeignFactsDoNotMatter(a: Tables, a': Tables, matches: Matches, cite: Citation, plan: PermitPlan, plan': PermitPlan,
                                k: Key, v: Value)
    requires PermitPlanned(a, matches, cite, plan) && PermitPlanned(a', matches, cite, plan')
    requires forall x: Key :: x.source == PermitsSource ==> LiveValue(a'.facts, x) == LiveValue(a.facts, x)
    ensures Writes(plan.rows, k, v) <==> Writes(plan'.rows, k, v)
    ensures plan'.lost == plan.lost && plan'.confirmed == plan.confirmed
  {
    TargetIsPermits(matches);
    Ledger.ForeignFactsDoNotMatter(a.facts, a'.facts, PermitTarget(matches), PermitsSource,
                                   plan.retire, plan'.retire, plan.rows, plan'.rows, k, v);
    forall p ensures HasLivePermit(a'.facts, p) <==> HasLivePermit(a.facts, p) {
      assert forall field :: PermitKey(p, field).source == PermitsSource;
    }
  }

  /** Running the same file again, with nothing run in between, changes nothing at all. */
  lemma SecondRunIsIdle(a: Tables, now: Time, b: Tables, later: Time, c: Tables, matches: Matches, cite: Citation, m: PermitMoments,
                        plan: PermitPlan, cite': Citation, m': PermitMoments, plan': PermitPlan)
    requires Kept(a, now) && PermittedBy(a, b, matches, cite, m, plan)
    requires Kept(b, later) && PermittedBy(b, c, matches, cite', m', plan')
    ensures c == b
  {
    forall p: ParcelId, r: Option<Reason>
      ensures (p, r) in OpenPairs(b.exceptions, PERMIT_ATTRIBUTION_LOST) <==>
        r == Some(NoFreshApnMatch) && HasLivePermit(b.facts, p) && p !in matches
    {
      OpenIsExactlyUnattributed(a, now, b, matches, cite, m, plan, p, r);
    }
    NobodyIsNewlyLost(b, matches, plan', cite');
    assert Close(b.exceptions, {}, ConditionCleared, ByDetector(PermitAttributionLost), m'.closed) == b.exceptions;
    TargetIsPermits(matches);
    PermitsRefresh(b, matches, cite', plan', m');
    forall k | k in PermitTarget(matches) ensures PermitTarget(matches)[k] == LiveValue(b.facts, k) {
      PermitFactsAfter(a, b, matches, cite, m, plan, k.parcel, k.field);
    }
    RefreshIsIdle(b.facts, c.facts, PermitTarget(matches), cite', m'.started, m'.at);
  }

  /** What a committed run made of the tables, for some reading of the file. */
  ghost predicate Permitted(a: Tables, b: Tables, matches: Matches, cite: Citation, m: PermitMoments) {
    forall u {:trigger Inside(u)} :: Inside(u) && u == a ==>
      matches.Keys <= u.parcels.Keys && exists plan :: PermittedBy(u, b, matches, cite, m, plan)
  }

  lemma PermittedWith(a: Tables, b: Tables, matches: Matches, cite: Citation, m: PermitMoments) returns (plan: PermitPlan)
    requires Permitted(a, b, matches, cite, m)
    ensures PermittedBy(a, b, matches, cite, m, plan) && matches.Keys <= a.parcels.Keys
  {
    assert Inside(a);
    plan :| PermittedBy(a, b, matches, cite, m, plan);
  }

  lemma PermittedSettles(a: Tables, now: Time, b: Tables, matches: Matches, cite: Citation, m: PermitMoments)
    requires Settled(a, now) && Permitted(a, b, matches, cite, m) && now <= m.started < m.at < m.closed
    ensures Settled(b, m.closed)
  {
    SettledIsKept(a, now);
    var plan := PermittedWith(a, b, matches, cite, m);
    PermittedKeeps(a, now, b, matches, cite, m, plan);
    SettledIsKept(b, m.closed);
  }

  lemma ItIsARun(a: Tables, b: Tables, matches: Matches, cite: Citation, m: PermitMoments, plan: PermitPlan)
    requires PermitPlanned(a, matches, cite, plan) && matches.Keys <= a.parcels.Keys
    requires b.facts == Write(a.facts, plan.retire, plan.rows, m.started, m.at)
    requires b.exceptions == PermitLifecycle(a.exceptions, plan.exceptions, plan.confirmed, m.closed)
    requires b.parcels == a.parcels && b.identities == a.identities && b.jobs == a.jobs
    ensures Permitted(a, b, matches, cite, m)
  {
    assert PermittedBy(a, b, matches, cite, m, plan);
  }

  lemma PermittedExtends(a: Tables, now: Time, b: Tables, matches: Matches, cite: Citation, m: PermitMoments)
    requires Settled(a, now) && Permitted(a, b, matches, cite, m) && now <= m.started < m.at < m.closed
    ensures RowsExtend(a.exceptions, b.exceptions)
  {
    var plan := PermittedWith(a, b, matches, cite, m);
    SettledParts(a, now, now);
    PermitHolds(a.exceptions, now, plan.exceptions, plan.confirmed, m.closed, plan.lost);
    LifecycleExtends(a.exceptions, now, plan.exceptions, plan.confirmed, m.closed);
  }

  lemma LifecycleExtends(rows: Rows, now: Time, added: seq<NewException>, confirmed: set<ParcelId>, at: Time)
    requires ExceptionsHold(rows, now) && CanAdd(rows, added)
    ensures RowsExtend(rows, PermitLifecycle(rows, added, confirmed, at))
  {
    var r := if added == [] then rows else Relink(Append(rows, added), PERMIT_ATTRIBUTION_LOST);
    RelinkExtends(rows, added, PERMIT_ATTRIBUTION_LOST, now);
    CloseExtends(r, OfParcels(r, PERMIT_ATTRIBUTION_LOST, confirmed), ConditionCleared, ByDetector(PermitAttributionLost), at);
    RowsThrough(rows, r, PermitLifecycle(rows, added, confirmed, at));
  }
}
