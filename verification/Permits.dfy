/** `load_permits`: what the matches of one file do to the ledger, and what that keeps. */
module Permits {
  import opened Schema
  import opened Ledger
  import opened Exceptions
  import opened Diff
  import opened Findings
  import opened PermitMatch
  import opened Invariants
  import opened ParcelsModel

  const PERMIT_FIELDS: set<Field> := {PermitsActive, PermitsEarliest}

  function PermitKeys(parcels: set<ParcelId>): set<Key> {
    set p, field | p in parcels && field in PERMIT_FIELDS :: PermitKey(p, field)
  }

  function PermitValue(day: Day, field: Field): Option<Value> {
    match field
    case PermitsActive => Some(Flag(true))
    case PermitsEarliest => Some(Date(day))
    case _ => None
  }

  function WantedPermits(matches: Matches): Wanted {
    (k: Key) => if k.parcel in matches then PermitValue(matches[k.parcel], k.field) else None
  }

  // ------------------------------------------------------------------ the diff

  function LiveParcels(live: map<Key, nat>): set<ParcelId> {
    set k | k in live :: k.parcel
  }

  ghost predicate LiveTable(facts: seq<Fact>, live: map<Key, nat>) {
    && (forall k :: k in live ==> k.source == PermitsSource && k.field in PERMIT_FIELDS)
    && (forall p, field :: field in PERMIT_FIELDS ==> IsLiveTable(facts, live, PermitKey(p, field)))
  }

  lemma LiveMeansPermit(facts: seq<Fact>, live: map<Key, nat>, p: ParcelId)
    requires LiveTable(facts, live)
    ensures p in LiveParcels(live) <==> HasLivePermit(facts, p)
    ensures HasLivePermit(facts, p) <==> PermitKey(p, PermitsActive) in live || PermitKey(p, PermitsEarliest) in live
  {
    assert IsLiveTable(facts, live, PermitKey(p, PermitsActive)) && IsLiveTable(facts, live, PermitKey(p, PermitsEarliest));
    if p in LiveParcels(live) {
      var k :| k in live && k.parcel == p;
      assert k == PermitKey(p, k.field);
    }
  }

  /** One matched parcel: both fields.  A parcel without a match is not diffed at all. */
  method DiffParcel(facts: seq<Fact>, live: map<Key, nat>, p: ParcelId, matches: Matches, cite: Citation,
                    retire: set<nat>, rows: seq<NewFact>, ghost done: set<ParcelId>)
    returns (retire': set<nat>, rows': seq<NewFact>)
    requires OneLive(facts) && LiveTable(facts, live) && p in matches && p !in done
    requires PlannedOver(facts, PermitKeys(done), WantedPermits(matches), cite, retire, rows)
    ensures PlannedOver(facts, PermitKeys(done + {p}), WantedPermits(matches), cite, retire', rows')
  {
    ghost var keys, wanted := PermitKeys(done), WantedPermits(matches);
    var active, earliest := PermitKey(p, PermitsActive), PermitKey(p, PermitsEarliest);
    assert IsLiveTable(facts, live, active) && IsLiveTable(facts, live, earliest);
    retire', rows' := DiffKey(facts, live, active, Some(Flag(true)), cite, retire, rows, keys, wanted);
    retire', rows' := DiffKey(facts, live, earliest, Some(Date(matches[p])), cite, retire', rows', keys + {active}, wanted);
    assert keys + {active} + {earliest} == PermitKeys(done + {p});
  }

  /** The loop over the candidate parcels: a match is evidence, absence is not. */
  method DiffPermits(facts: seq<Fact>, matches: Matches, cite: Citation)
    returns (retire: set<nat>, rows: seq<NewFact>, lost: set<ParcelId>, confirmed: set<ParcelId>)
    requires OneLive(facts)
    ensures PlannedOver(facts, PermitKeys(matches.Keys), WantedPermits(matches), cite, retire, rows)
    ensures forall p :: p in lost <==> HasLivePermit(facts, p) && p !in matches
    ensures forall p :: p in confirmed <==> HasLivePermit(facts, p) && p in matches
  {
    var live := LiveRows(facts, PermitsSource, PERMIT_FIELDS);
    assert LiveTable(facts, live);
    ghost var wanted := WantedPermits(matches);
    retire, rows, lost, confirmed := {}, [], {}, {};
    var todo := matches.Keys + LiveParcels(live);
    ghost var done: set<ParcelId> := {};
    NothingPlannedOver(facts, wanted, cite);
    assert PermitKeys({}) == {};
    while todo != {}
      invariant todo <= matches.Keys + LiveParcels(live) && done <= matches.Keys
      invariant forall p :: p in matches ==> (p in done <==> p !in todo)
      invariant PlannedOver(facts, PermitKeys(done), wanted, cite, retire, rows)
      invariant forall p :: p in lost <==> p in LiveParcels(live) && p !in todo && p !in matches
      invariant forall p :: p in confirmed <==> p in LiveParcels(live) && p !in todo && p in matches
      decreases todo
    {
      var p :| p in todo;
      if p in matches {
        retire, rows := DiffParcel(facts, live, p, matches, cite, retire, rows, done);
        done := done + {p};
        if p in LiveParcels(live) { confirmed := confirmed + {p}; }
      } else {
        lost := lost + {p};
      }
      todo := todo - {p};
    }
    assert done == matches.Keys;
    forall p: ParcelId ensures p in LiveParcels(live) <==> HasLivePermit(facts, p) { LiveMeansPermit(facts, live, p); }
  }

  // ------------------------------------------------------------------ the effect

  datatype PermitMoments = PermitMoments(started: Time, at: Time, closed: Time)

  datatype PermitPlan = PermitPlan(retire: set<nat>, rows: seq<NewFact>, exceptions: seq<NewException>,
                                   lost: set<ParcelId>, confirmed: set<ParcelId>)

  function LostPairs(parcels: set<ParcelId>): Pairs {
    NotOpen(parcels, NoFreshApnMatch, {})
  }

  /** Insert and relink, then close what is confirmed. */
  function PermitLifecycle(rows: Rows, added: seq<NewException>, confirmed: set<ParcelId>, at: Time): Rows {
    var r := if added == [] then rows else Relink(Append(rows, added), PERMIT_ATTRIBUTION_LOST);
    Close(r, OfParcels(r, PERMIT_ATTRIBUTION_LOST, confirmed), ConditionCleared, ByDetector(PermitAttributionLost), at)
  }

  ghost function PermitTarget(matches: Matches): Target {
    TargetOver(PermitKeys(matches.Keys), WantedPermits(matches))
  }

  ghost predicate PermitPlanned(t: Tables, matches: Matches, cite: Citation, plan: PermitPlan) {
    && PlannedOver(t.facts, PermitKeys(matches.Keys), WantedPermits(matches), cite, plan.retire, plan.rows)
    && (forall p :: p in plan.lost <==> HasLivePermit(t.facts, p) && p !in matches)
    && (forall p :: p in plan.confirmed <==> HasLivePermit(t.facts, p) && p in matches)
    && Lists(plan.exceptions, PERMIT_ATTRIBUTION_LOST, LostPairs(plan.lost - OpenParcels(t.exceptions, PERMIT_ATTRIBUTION_LOST)))
  }

  function AfterPermits(t: Tables, plan: PermitPlan, m: PermitMoments): Tables {
    Tables(Write(t.facts, plan.retire, plan.rows, m.started, m.at),
           PermitLifecycle(t.exceptions, plan.exceptions, plan.confirmed, m.closed), t.identities, t.parcels, t.jobs)
  }

  ghost predicate PermittedBy(a: Tables, b: Tables, matches: Matches, cite: Citation, m: PermitMoments, plan: PermitPlan) {
    PermitPlanned(a, matches, cite, plan) && b == AfterPermits(a, plan, m)
  }

  // ------------------------------------------------------------------ what it keeps

  lemma PairsAfterPermits(rows: Rows, added: seq<NewException>, confirmed: set<ParcelId>, at: Time, lost: set<ParcelId>, d: Detector)
    requires Lists(added, PERMIT_ATTRIBUTION_LOST, LostPairs(lost))
    ensures OpenPairs(PermitLifecycle(rows, added, confirmed, at), d) ==
      if d == PERMIT_ATTRIBUTION_LOST then set x | x in OpenPairs(rows, d) + LostPairs(lost) && x.0 !in confirmed
      else OpenPairs(rows, d)
  {
    var r := if added == [] then rows else Relink(Append(rows, added), PERMIT_ATTRIBUTION_LOST);
    PairsAfterAppend(rows, added, d);
    PairsAfterRelink(Append(rows, added), PERMIT_ATTRIBUTION_LOST, d);
    PairsAfterTargetedClose(r, PERMIT_ATTRIBUTION_LOST, confirmed, ConditionCleared, ByDetector(PermitAttributionLost), at, d);
    if added == [] { assert AddedPairs(added, PERMIT_ATTRIBUTION_LOST) == {}; }
    if d != PERMIT_ATTRIBUTION_LOST { assert AddedPairs(added, d) == {}; }
  }

  lemma PermitHolds(rows: Rows, now: Time, added: seq<NewException>, confirmed: set<ParcelId>, at: Time, lost: set<ParcelId>)
    requires ExceptionsHold(rows, now) && now < at
    requires Lists(added, PERMIT_ATTRIBUTION_LOST, LostPairs(lost - OpenParcels(rows, PERMIT_ATTRIBUTION_LOST)))
    ensures CanAdd(rows, added)
    ensures ExceptionsHold(PermitLifecycle(rows, added, confirmed, at), at)
  {
    forall p: ParcelId, r: Option<Reason>
      ensures !((p, r) in AddedPairs(added, PERMIT_ATTRIBUTION_LOST) && (p, r) in OpenPairs(rows, PERMIT_ATTRIBUTION_LOST))
    {
      OpenMeansOpenParcel(rows, PERMIT_ATTRIBUTION_LOST, p);
    }
    FindingsCanBeAdded(rows, added, PERMIT_ATTRIBUTION_LOST);
    AddAndRelinkHolds(rows, now, added, PERMIT_ATTRIBUTION_LOST);
    var r := if added == [] then rows else Relink(Append(rows, added), PERMIT_ATTRIBUTION_LOST);
    CloseHolds(r, now, OfParcels(r, PERMIT_ATTRIBUTION_LOST, confirmed), ConditionCleared, ByDetector(PermitAttributionLost), at);
  }

  lemma PermitsRefresh(t: Tables, matches: Matches, cite: Citation, plan: PermitPlan, m: PermitMoments)
    requires PermitPlanned(t, matches, cite, plan)
    ensures Refreshed(t.facts, AfterPermits(t, plan, m).facts, PermitTarget(matches), cite, m.started, m.at)
  {
    assert Planned(t.facts, PermitTarget(matches), plan.retire, plan.rows) && Cites(plan.rows, cite);
  }

  lemma TargetIsPermits(matches: Matches)
    ensures forall k :: k in PermitTarget(matches) ==>
      k.source == PermitsSource && k.field in PERMIT_FIELDS && k.parcel in matches && k == PermitKey(k.parcel, k.field)
    ensures forall p, field :: p in matches && field in PERMIT_FIELDS ==>
      PermitKey(p, field) in PermitTarget(matches) && PermitTarget(matches)[PermitKey(p, field)] == PermitValue(matches[p], field)
  {
    forall p, field | p in matches && field in PERMIT_FIELDS ensures PermitKey(p, field) in PermitKeys(matches.Keys) {
    }
  }

  /** Permit facts afterwards: what the match says, or exactly what was there. */
  lemma PermitFactsAfter(a: Tables, b: Tables, matches: Matches, cite: Citation, m: PermitMoments, plan: PermitPlan,
                         p: ParcelId, field: Field)
    requires Sound(a.facts) && PermittedBy(a, b, matches, cite, m, plan) && field in PERMIT_FIELDS
    ensures p in matches ==> LiveValue(b.facts, PermitKey(p, field)) == PermitValue(matches[p], field)
    ensures p !in matches ==> LiveId(b.facts, PermitKey(p, field)) == LiveId(a.facts, PermitKey(p, field))
    ensures p !in matches ==> LiveValue(b.facts, PermitKey(p, field)) == LiveValue(a.facts, PermitKey(p, field))
  {
    PermitsRefresh(a, matches, cite, plan, m);
    TargetIsPermits(matches);
    if p in matches {
      RefreshReaches(a.facts, b.facts, PermitTarget(matches), cite, m.started, m.at);
      assert PermitKey(p, field) in PermitTarget(matches);
    } else {
      RefreshLeaves(a.facts, b.facts, PermitTarget(matches), cite, m.started, m.at, PermitKey(p, field));
    }
  }

  lemma HasPermitAfter(a: Tables, b: Tables, matches: Matches, cite: Citation, m: PermitMoments, plan: PermitPlan, p: ParcelId)
    requires Sound(a.facts) && PermittedBy(a, b, matches, cite, m, plan)
    ensures HasLivePermit(b.facts, p) <==> HasLivePermit(a.facts, p) || p in matches
  {
    PermitFactsAfter(a, b, matches, cite, m, plan, p, PermitsActive);
    PermitFactsAfter(a, b, matches, cite, m, plan, p, PermitsEarliest);
  }
}
