/** A committed parcels reconcile keeps everything that holds between runs. */
module ParcelsKeep {
  import opened Schema
  import opened Ledger
  import opened Exceptions
  import opened Identifiers
  import opened ParcelsModel
  import opened ParcelsLists
  import opened ParcelsReconcile
  import opened ParcelsWrites
  import opened Invariants

  // ------------------------------------------------------------------ exceptions

  function Without(pairs: Pairs, parcels: set<ParcelId>): Pairs {
    set p | p in pairs && p.0 !in parcels
  }

  lemma PairsAfterLifecycle(rows: Rows, c: Changes, closedApn: Time, closedGone: Time, d: Detector)
    ensures OpenPairs(LifecycleAfter(rows, c, closedApn, closedGone), d) ==
      AddedPairs(c.exceptions, d) +
      (if d == APN_UNRESOLVABLE then Without(OpenPairs(rows, d), c.resolved)
       else if d == PARCEL_DISAPPEARED then Without(OpenPairs(rows, d), c.reappeared)
       else OpenPairs(rows, d))
  {
    PairsAfterTargetedClose(rows, APN_UNRESOLVABLE, c.resolved, ConditionCleared, ByDetector(ApnUnresolvable), closedApn, d);
    var r := Close(rows, OfParcels(rows, APN_UNRESOLVABLE, c.resolved), ConditionCleared, ByDetector(ApnUnresolvable), closedApn);
    PairsAfterTargetedClose(r, PARCEL_DISAPPEARED, c.reappeared, ConditionCleared, ByDetector(ParcelDisappeared), closedGone, d);
    PairsAfterReopened(ClosedAfter(rows, c, closedApn, closedGone), c.exceptions, d);
  }

  lemma PairsAfterReopened(rows: Rows, added: seq<NewException>, d: Detector)
    ensures OpenPairs(Reopened(rows, added), d) == OpenPairs(rows, d) + AddedPairs(added, d)
  {
    PairsAfterAppend(rows, added, d);
    PairsAfterRelink(Append(rows, added), APN_UNRESOLVABLE, d);
    PairsAfterRelink(Relink(Append(rows, added), APN_UNRESOLVABLE), PARCEL_DISAPPEARED, d);
  }

  lemma ClosedAfterKeeps(rows: Rows, now: Time, c: Changes, closedApn: Time, closedGone: Time)
    requires ExceptionsHold(rows, now) && now < closedApn < closedGone
    ensures ExceptionsHold(ClosedAfter(rows, c, closedApn, closedGone), closedGone)
  {
    var hit := OfParcels(rows, APN_UNRESOLVABLE, c.resolved);
    CloseKeeps(rows, hit, ConditionCleared, ByDetector(ApnUnresolvable), now, closedApn);
    var r := Close(rows, hit, ConditionCleared, ByDetector(ApnUnresolvable), closedApn);
    var hit' := OfParcels(r, PARCEL_DISAPPEARED, c.reappeared);
    CloseKeeps(r, hit', ConditionCleared, ByDetector(ParcelDisappeared), closedApn, closedGone);
    forall d | Relinks(d) ensures Linked(ClosedAfter(rows, c, closedApn, closedGone), d) {
      CloseKeepsLinks(rows, hit, ConditionCleared, ByDetector(ApnUnresolvable), closedApn, d, |rows|);
      CloseKeepsLinks(r, hit', ConditionCleared, ByDetector(ParcelDisappeared), closedGone, d, |rows|);
    }
  }

  lemma AppendedAwait(rows: Rows, added: seq<NewException>, d: Detector)
    ensures FreshFrom(Append(rows, added), d, |rows|)
  {
  }

  /** Two passes of relinking complete the two detectors whose rows were added. */
  lemma ReopenedKeeps(rows: Rows, added: seq<NewException>, now: Time)
    requires ExceptionsHold(rows, now) && CanAdd(rows, added)
    requires forall j :: 0 <= j < |added| ==>
      !Relinks(added[j].detector) || added[j].detector == APN_UNRESOLVABLE || added[j].detector == PARCEL_DISAPPEARED
    ensures ExceptionsHold(Reopened(rows, added), now)
  {
    var r := Append(rows, added);
    AppendKeeps(rows, added, now);
    RelinkKeeps(r, APN_UNRESOLVABLE, now);
    RelinkKeeps(Relink(r, APN_UNRESOLVABLE), PARCEL_DISAPPEARED, now);
    forall d | Relinks(d) ensures Linked(Reopened(rows, added), d) {
      AppendKeepsLinks(rows, added, d);
      ReopenedLinks(rows, added, d);
    }
  }

  lemma ReopenedLinks(rows: Rows, added: seq<NewException>, d: Detector)
    requires Linked(rows, d) && LinkedBelow(Append(rows, added), d, |rows|) && Ordered(Append(rows, added))
    requires d != APN_UNRESOLVABLE && d != PARCEL_DISAPPEARED ==> Linked(Append(rows, added), d)
    ensures Linked(Reopened(rows, added), d)
  {
    var r := Append(rows, added);
    AppendedAwait(rows, added, d);
    if d == APN_UNRESOLVABLE {
      RelinkCompletes(r, d, |rows|);
      RelinkKeepsOtherLinks(Relink(r, d), PARCEL_DISAPPEARED, d, |r|);
    } else {
      RelinkKeepsOtherLinks(r, APN_UNRESOLVABLE, d, if d == PARCEL_DISAPPEARED then |rows| else |r|);
      if d == PARCEL_DISAPPEARED {
        StillAwait(r, APN_UNRESOLVABLE, d, |rows|);
        RelinkCompletes(Relink(r, APN_UNRESOLVABLE), d, |rows|);
      } else {
        RelinkKeepsOtherLinks(Relink(r, APN_UNRESOLVABLE), PARCEL_DISAPPEARED, d, |r|);
      }
    }
  }

  lemma StillAwait(rows: Rows, relinked: Detector, d: Detector, n: nat)
    requires FreshFrom(rows, d, n) && relinked != d && Ordered(rows)
    ensures FreshFrom(Relink(rows, relinked), d, n) && Ordered(Relink(rows, relinked))
  {
    var r := Relink(rows, relinked);
    forall j | n <= j < |r| && r[j].detector == d ensures AwaitsLink(r, d, j) {
      assert AwaitsLink(rows, d, j);
    }
    forall i, j | Earlier(r, i, j)
      ensures r[i].status.Closed? && (r[j].status.Closed? ==> r[i].status.at < r[j].status.at)
    {
      assert Earlier(rows, i, j);
    }
  }

  lemma ReopenedExtends(rows: Rows, added: seq<NewException>, now: Time)
    requires ExceptionsHold(rows, now) && CanAdd(rows, added)
    ensures RowsExtend(rows, Reopened(rows, added))
  {
    if added != [] {
      var r := Append(rows, added);
      var half := Relink(r, APN_UNRESOLVABLE);
      RelinkExtends(rows, added, APN_UNRESOLVABLE, now);
      AppendKeeps(rows, added, now);
      AppendKeepsLinks(rows, added, PARCEL_DISAPPEARED);
      AppendedAwait(rows, added, PARCEL_DISAPPEARED);
      RelinkKeepsOtherLinks(r, APN_UNRESOLVABLE, PARCEL_DISAPPEARED, |rows|);
      StillAwait(r, APN_UNRESOLVABLE, PARCEL_DISAPPEARED, |rows|);
      RelinkCompletes(half, PARCEL_DISAPPEARED, |rows|);
      forall i | 0 <= i < |rows| ensures Relink(half, PARCEL_DISAPPEARED)[i] == half[i] {
        assert Relink(half, PARCEL_DISAPPEARED)[..|rows|][i] == half[..|rows|][i];
      }
    }
  }

  /** The reconcile's five lifecycle statements only append rows and close open ones. */
  lemma LifecycleExtends(rows: Rows, now: Time, c: Changes, closedApn: Time, closedGone: Time)
    requires ExceptionsHold(rows, now) && now < closedApn < closedGone
    requires CanAdd(ClosedAfter(rows, c, closedApn, closedGone), c.exceptions)
    ensures RowsExtend(rows, LifecycleAfter(rows, c, closedApn, closedGone))
  {
    var half := Close(rows, OfParcels(rows, APN_UNRESOLVABLE, c.resolved), ConditionCleared, ByDetector(ApnUnresolvable), closedApn);
    var closed := ClosedAfter(rows, c, closedApn, closedGone);
    CloseExtends(rows, OfParcels(rows, APN_UNRESOLVABLE, c.resolved), ConditionCleared, ByDetector(ApnUnresolvable), closedApn);
    CloseExtends(half, OfParcels(half, PARCEL_DISAPPEARED, c.reappeared), ConditionCleared, ByDetector(ParcelDisappeared), closedGone);
    RowsThrough(rows, half, closed);
    ClosedAfterKeeps(rows, now, c, closedApn, closedGone);
    ReopenedExtends(closed, c.exceptions, closedGone);
    RowsThrough(rows, closed, LifecycleAfter(rows, c, closedApn, closedGone));
  }

  lemma StrangersAreClosed(rows: Rows, parcels: map<ParcelId, Parcel>, d: Detector, p: ParcelId)
    requires ExceptionsRefer(rows, parcels) && p !in parcels
    ensures !Mentions(OpenPairs(rows, d), p)
  {
  }

  /** Which parcels a plan opens exceptions about. */
  lemma AddedPair(t: Tables, staging: Staging, cite: Citation, plan: Plan, j: nat)
    requires ExceptionsPlan(Observed(t.facts, t.identities, staging, cite), t.exceptions, VisibleIds(t, staging), plan)
    requires j < |plan.changes.exceptions|
    ensures var row, o := plan.changes.exceptions[j], Observed(t.facts, t.identities, staging, cite);
      var pair := (row.parcel, row.reason);
      || (row.detector == APN_UNRESOLVABLE && pair in ApnPairs(plan.minted, staging))
      || (row.detector == APN_UNRESOLVABLE && pair in DegradedPairs(o, VisibleIds(t, staging)))
      || (row.detector == GEOMETRY_DECLARED_GAP && pair in GapPairs(plan.minted, staging))
      || (row.detector == PARCEL_DISAPPEARED
          && pair in GonePairs(t.identities, plan.gone, OpenParcels(t.exceptions, PARCEL_DISAPPEARED)))
  {
    var row := plan.changes.exceptions[j];
    assert (row.parcel, row.reason) in AddedPairs(plan.changes.exceptions, row.detector);
  }

  lemma AddedIsNotOpen(t: Tables, now: Time, staging: Staging, cite: Citation, plan: Plan, j: nat)
    requires Kept(t, now) && Minted(t, staging, plan.minted)
    requires ExceptionsPlan(Observed(t.facts, t.identities, staging, cite), t.exceptions, VisibleIds(t, staging), plan)
    requires j < |plan.changes.exceptions|
    ensures var row := plan.changes.exceptions[j]; !Mentions(OpenPairs(t.exceptions, row.detector), row.parcel)
  {
    var row, o := plan.changes.exceptions[j], Observed(t.facts, t.identities, staging, cite);
    AddedPair(t, staging, cite, plan, j);
    if row.detector == PARCEL_DISAPPEARED {
      OpenMeansOpenParcel(t.exceptions, PARCEL_DISAPPEARED, row.parcel);
    } else if (row.parcel, row.reason) in DegradedPairs(o, VisibleIds(t, staging)) {
      var f :| f in VisibleIds(t, staging) && o.Knows(f) && o.Degrades(f) && o.identities[f].parcel == row.parcel;
      assert Mirrored(t.facts, t.exceptions, t.identities[f]);
    } else {
      StrangersAreClosed(t.exceptions, t.parcels, row.detector, row.parcel);
    }
  }

  /** The database takes every fact and every exception of the plan. */
  lemma RowsAreAccepted(t: Tables, now: Time, staging: Staging, cite: Citation, plan: Plan, m: Moments)
    requires Kept(t, now) && RightPlan(t, staging, cite, plan) && now < m.closedApn < m.closedGone
    ensures RowsAccepted(t, plan, FullTarget(t, staging, plan.minted), m)
  {
    var c := plan.changes;
    var closed := ClosedAfter(t.exceptions, c, m.closedApn, m.closedGone);
    ClosedAfterKeeps(t.exceptions, now, c, m.closedApn, m.closedGone);
    forall j | 0 <= j < |c.exceptions| ensures !Mentions(OpenPairs(closed, c.exceptions[j].detector), c.exceptions[j].parcel) {
      AddedIsNotOpen(t, now, staging, cite, plan, j);
      ClosingOnlyCloses(t.exceptions, c, m.closedApn, m.closedGone, c.exceptions[j].detector);
    }
    PlanCanBeAdded(closed, c.exceptions);
  }

  lemma ClosingOnlyCloses(rows: Rows, c: Changes, closedApn: Time, closedGone: Time, d: Detector)
    ensures OpenPairs(ClosedAfter(rows, c, closedApn, closedGone), d) <= OpenPairs(rows, d)
  {
    PairsAfterTargetedClose(rows, APN_UNRESOLVABLE, c.resolved, ConditionCleared, ByDetector(ApnUnresolvable), closedApn, d);
    var r := Close(rows, OfParcels(rows, APN_UNRESOLVABLE, c.resolved), ConditionCleared, ByDetector(ApnUnresolvable), closedApn);
    PairsAfterTargetedClose(r, PARCEL_DISAPPEARED, c.reappeared, ConditionCleared, ByDetector(ParcelDisappeared), closedGone, d);
  }

  lemma LifecycleHolds(t: Tables, now: Time, staging: Staging, cite: Citation, plan: Plan, m: Moments)
    requires Kept(t, now) && RightPlan(t, staging, cite, plan) && now < m.closedApn < m.closedGone
    ensures ExceptionsHold(LifecycleAfter(t.exceptions, plan.changes, m.closedApn, m.closedGone), m.closedGone)
  {
    var c := plan.changes;
    RowsAreAccepted(t, now, staging, cite, plan, m);
    ClosedAfterKeeps(t.exceptions, now, c, m.closedApn, m.closedGone);
    forall j | 0 <= j < |c.exceptions| && Relinks(c.exceptions[j].detector)
      ensures c.exceptions[j].detector == APN_UNRESOLVABLE || c.exceptions[j].detector == PARCEL_DISAPPEARED
    {
      AddedPair(t, staging, cite, plan, j);
    }
    ReopenedKeeps(ClosedAfter(t.exceptions, c, m.closedApn, m.closedGone), c.exceptions, m.closedGone);
  }

  // ------------------------------------------------------------------ facts

  lemma FactsAreRefreshed(t: Tables, staging: Staging, cite: Citation, plan: Plan, m: Moments)
    requires RightPlan(t, staging, cite, plan)
    ensures Refreshed(t.facts, AfterWrites(t, plan, cite, m).facts, FullTarget(t, staging, plan.minted), cite, m.started, m.at)
  {
    var c := plan.changes;
    assert Planned(t.facts, FullTarget(t, staging, plan.minted), c.retire, c.rows) && Cites(c.rows, cite);
  }

  lemma ParcelsGrow(t: Tables, staging: Staging, cite: Citation, plan: Plan)
    requires plan.minted.Keys <= staging.Keys
    requires NewRowsPlanned(staging, cite, plan.minted, plan.parcelRows, plan.identityRows)
    ensures forall p :: p in ParcelsAfter(t.parcels, plan) <==> p in t.parcels || p in plan.minted.Values
    ensures forall f :: f in plan.minted ==> plan.minted[f] in ParcelsAfter(t.parcels, plan)
  {
    forall f | f in plan.minted ensures plan.minted[f] in plan.parcelRows { assert plan.minted[f] in plan.minted.Values; }
  }

  lemma FactsStillRefer(t: Tables, facts: seq<Fact>, staging: Staging, cite: Citation, plan: Plan, m: Moments)
    requires FactsRefer(t.facts, t.parcels) && IdentitiesHold(t.identities, t.parcels) && Minted(t, staging, plan.minted)
    requires Injective(AllParcels(t.identities, plan.minted))
    requires NewRowsPlanned(staging, cite, plan.minted, plan.parcelRows, plan.identityRows)
    requires Refreshed(t.facts, facts, FullTarget(t, staging, plan.minted), cite, m.started, m.at)
    ensures FactsRefer(facts, ParcelsAfter(t.parcels, plan))
  {
    RefreshExtends(t.facts, facts, FullTarget(t, staging, plan.minted), cite, m.started, m.at);
    ParcelsGrow(t, staging, cite, plan);
    forall i | 0 <= i < |facts| ensures facts[i].key.parcel in ParcelsAfter(t.parcels, plan) {
      if i >= |t.facts| { TargetIsAboutParcels(t, staging, cite, plan, facts[i].key); }
    }
  }

  lemma TargetIsAboutParcels(t: Tables, staging: Staging, cite: Citation, plan: Plan, k: Key)
    requires IdentitiesHold(t.identities, t.parcels) && Minted(t, staging, plan.minted)
    requires Injective(AllParcels(t.identities, plan.minted)) && k in FullTarget(t, staging, plan.minted)
    requires NewRowsPlanned(staging, cite, plan.minted, plan.parcelRows, plan.identityRows)
    ensures k.parcel in ParcelsAfter(t.parcels, plan)
  {
    var f := OnlyTarget(AllParcels(t.identities, plan.minted), SupportedBy(staging),
                        plan.minted.Keys + VisibleIds(t, staging), k);
    AllParcelsInjective(t, staging, plan.minted);
    ParcelsGrow(t, staging, cite, plan);
  }

  /** The rows are about the same parcels, whatever else the statements changed. */
  ghost predicate SameParcels(rows: Rows, r: Rows) {
    |r| == |rows| && forall i {:trigger r[i]} :: 0 <= i < |r| ==> r[i].parcel == rows[i].parcel
  }

  lemma SubjectsAfter(rows: Rows, c: Changes, closedApn: Time, closedGone: Time)
    ensures SameParcels(Append(rows, c.exceptions), LifecycleAfter(rows, c, closedApn, closedGone))
  {
    var closed := ClosedAfter(rows, c, closedApn, closedGone);
    assert SameParcels(rows, closed);
    assert SameParcels(Append(rows, c.exceptions), Append(closed, c.exceptions));
    SubjectsReopened(closed, c.exceptions);
  }

  lemma SubjectsReopened(rows: Rows, added: seq<NewException>)
    ensures SameParcels(Append(rows, added), Reopened(rows, added))
  {
    var r := Relink(Append(rows, added), APN_UNRESOLVABLE);
    assert SameParcels(Append(rows, added), r);
    assert SameParcels(r, Relink(r, PARCEL_DISAPPEARED));
  }

  lemma ChangesRefer(rows: Rows, c: Changes, closedApn: Time, closedGone: Time, parcels: map<ParcelId, Parcel>)
    requires ExceptionsRefer(rows, parcels) && forall j :: 0 <= j < |c.exceptions| ==> c.exceptions[j].parcel in parcels
    ensures ExceptionsRefer(LifecycleAfter(rows, c, closedApn, closedGone), parcels)
  {
    var r := LifecycleAfter(rows, c, closedApn, closedGone);
    SubjectsAfter(rows, c, closedApn, closedGone);
    forall i | 0 <= i < |r| ensures r[i].parcel in parcels {
      assert r[i].parcel == Append(rows, c.exceptions)[i].parcel;
    }
  }

  lemma ExceptionsStillRefer(t: Tables, staging: Staging, cite: Citation, plan: Plan, m: Moments)
    requires ExceptionsRefer(t.exceptions, t.parcels) && IdentitiesHold(t.identities, t.parcels)
    requires plan.minted.Keys <= staging.Keys
    requires NewRowsPlanned(staging, cite, plan.minted, plan.parcelRows, plan.identityRows)
    requires ExceptionsPlan(Observed(t.facts, t.identities, staging, cite), t.exceptions, VisibleIds(t, staging), plan)
    ensures ExceptionsRefer(LifecycleAfter(t.exceptions, plan.changes, m.closedApn, m.closedGone), ParcelsAfter(t.parcels, plan))
  {
    var c := plan.changes;
    ParcelsGrow(t, staging, cite, plan);
    forall j | 0 <= j < |c.exceptions| ensures c.exceptions[j].parcel in ParcelsAfter(t.parcels, plan) {
      AddedPair(t, staging, cite, plan, j);
    }
    ChangesRefer(t.exceptions, c, m.closedApn, m.closedGone, ParcelsAfter(t.parcels, plan));
  }

  // ------------------------------------------------------------------ identities

  lemma GrownIdentity(identities: map<FeatureId, Identity>, staging: Staging, cite: Citation, plan: Plan, f: FeatureId)
    requires plan.minted.Keys == NewIds(staging, identities)
    requires NewRowsPlanned(staging, cite, plan.minted, plan.parcelRows, plan.identityRows)
    ensures var grown := identities + plan.identityRows;
      && grown.Keys == identities.Keys + staging.Keys
      && (f in grown ==> grown[f] == if f in identities then identities[f] else NewIdentity(plan.minted[f], cite))
  {
  }

  lemma RowAfter(identities: map<FeatureId, Identity>, gone: set<FeatureId>, touches: map<FeatureId, bool>, cite: Citation, at: Time, f: FeatureId)
    ensures var r := TouchAll(RetireAll(identities, gone, cite.snapshot, at), touches, cite);
      && r.Keys == identities.Keys
      && (f in r ==> var retired := if f in gone then Retired(identities[f], cite.snapshot, at) else identities[f];
            r[f] == if f in touches then Touched(retired, cite, touches[f]) else retired)
  {
  }

  /** What a reconcile makes of each identity. */
  lemma IdentityAfter(t: Tables, staging: Staging, cite: Citation, plan: Plan, at: Time, f: FeatureId)
    requires IdentityPlan(t, staging, cite, plan) && (f in t.identities || f in staging)
    ensures var r := IdentitiesAfter(t.identities, plan, cite, at);
      && r.Keys == t.identities.Keys + staging.Keys
      && r[f] ==
           if f !in t.identities then NewIdentity(plan.minted[f], cite)
           else if f !in staging then (if t.identities[f].retiredAt.None? then Retired(t.identities[f], cite.snapshot, at) else t.identities[f])
           else if f in ChangedIds(t.facts, staging, t.identities) then Touched(t.identities[f], cite, t.identities[f].retiredAt.Some?)
           else t.identities[f]
  {
    GrownIdentity(t.identities, staging, cite, plan, f);
    RowAfter(t.identities + plan.identityRows, plan.gone, plan.changes.touches, cite, at, f);
  }

  lemma ParcelAfter(t: Tables, staging: Staging, cite: Citation, plan: Plan, at: Time, f: FeatureId)
    requires IdentityPlan(t, staging, cite, plan)
    ensures var r, all := IdentitiesAfter(t.identities, plan, cite, at), AllParcels(t.identities, plan.minted);
      (f in r <==> f in all) && (f in r ==> r[f].parcel == all[f])
  {
    if f in t.identities || f in staging { IdentityAfter(t, staging, cite, plan, at, f); }
    else { GrownIdentity(t.identities, staging, cite, plan, f); }
  }

  lemma IdentityParcels(t: Tables, staging: Staging, cite: Citation, plan: Plan, at: Time)
    requires IdentityPlan(t, staging, cite, plan)
    ensures ParcelsOf(IdentitiesAfter(t.identities, plan, cite, at)) == AllParcels(t.identities, plan.minted)
  {
    var r, all := IdentitiesAfter(t.identities, plan, cite, at), AllParcels(t.identities, plan.minted);
    forall f ensures (f in r <==> f in all) && (f in r ==> r[f].parcel == all[f]) {
      ParcelAfter(t, staging, cite, plan, at, f);
    }
  }

  lemma IdentitiesStillHold(t: Tables, staging: Staging, cite: Citation, plan: Plan, at: Time)
    requires OneLive(t.facts) && RightPlan(t, staging, cite, plan) && IdentitiesHold(t.identities, t.parcels)
    requires IdentitiesAccepted(t.identities, plan, cite, at)
    ensures IdentitiesHold(IdentitiesAfter(t.identities, plan, cite, at), ParcelsAfter(t.parcels, plan))
  {
    var r := IdentitiesAfter(t.identities, plan, cite, at);
    IdentityParcels(t, staging, cite, plan, at);
    AllParcelsInjective(t, staging, plan.minted);
    ParcelsGrow(t, staging, cite, plan);
    forall f | f in r ensures r[f].parcel in ParcelsAfter(t.parcels, plan) && IdentityHolds(r[f]) {
      IdentityAfter(t, staging, cite, plan, at, f);
      assert r[f].parcel == ParcelsOf(r)[f];
    }
  }

  // ------------------------------------------------------------------ values

  /** The features whose facts a reconcile decides. */
  ghost predicate Decided(t: Tables, staging: Staging, f: FeatureId) {
    f in staging && (f in t.identities ==> LiveGeometry(t.facts, t.identities[f]).Some?)
  }

  /** After a reconcile a decided feature's parcel holds exactly what the feature
      supports, and every other parcel holds what it held. */
  lemma ValueAfter(t: Tables, facts: seq<Fact>, staging: Staging, cite: Citation, minted: map<FeatureId, ParcelId>, m: Moments,
                   f: FeatureId, field: Field)
    requires Sound(t.facts) && Minted(t, staging, minted) && Injective(AllParcels(t.identities, minted))
    requires Refreshed(t.facts, facts, FullTarget(t, staging, minted), cite, m.started, m.at)
    requires field in PARCEL_FIELDS && f in AllParcels(t.identities, minted)
    ensures LiveValue(facts, FieldKey(AllParcels(t.identities, minted)[f], field)) ==
      if Decided(t, staging, f) then Supported(f, staging[f], field)
      else LiveValue(t.facts, FieldKey(AllParcels(t.identities, minted)[f], field))
  {
    var all, features := AllParcels(t.identities, minted), minted.Keys + VisibleIds(t, staging);
    var k := FieldKey(all[f], field);
    RefreshKey(t.facts, facts, FullTarget(t, staging, minted), cite, m.started, m.at, k);
    assert Decided(t, staging, f) <==> f in features;
    TargetAt(all, SupportedBy(staging), features, f, field);
  }

  lemma TargetAt(all: map<FeatureId, ParcelId>, values: Values, features: set<FeatureId>, f: FeatureId, field: Field)
    requires features <= all.Keys && Injective(all) && f in all && field in PARCEL_FIELDS
    ensures var target, k := TargetOf(all, values, features), FieldKey(all[f], field);
      (k in target <==> f in features) && (k in target ==> target[k] == values(f, field))
  {
    if f in features {
      HasTarget(all, values, features, f, field);
    } else if FieldKey(all[f], field) in TargetOf(all, values, features) {
      var g := OnlyTarget(all, values, features, FieldKey(all[f], field));
    }
  }

  lemma ValuesAfter(t: Tables, now: Time, staging: Staging, cite: Citation, plan: Plan, m: Moments, f: FeatureId)
    requires Kept(t, now) && RightPlan(t, staging, cite, plan) && f in AllParcels(t.identities, plan.minted)
    ensures var p, facts := AllParcels(t.identities, plan.minted)[f], AfterWrites(t, plan, cite, m).facts;
      forall field :: field in PARCEL_FIELDS ==>
        LiveValue(facts, FieldKey(p, field)) ==
          if Decided(t, staging, f) then Supported(f, staging[f], field) else LiveValue(t.facts, FieldKey(p, field))
  {
    FactsAreRefreshed(t, staging, cite, plan, m);
    forall field | field in PARCEL_FIELDS
      ensures LiveValue(AfterWrites(t, plan, cite, m).facts, FieldKey(AllParcels(t.identities, plan.minted)[f], field)) ==
        if Decided(t, staging, f) then Supported(f, staging[f], field)
        else LiveValue(t.facts, FieldKey(AllParcels(t.identities, plan.minted)[f], field))
    {
      ValueAfter(t, AfterWrites(t, plan, cite, m).facts, staging, cite, plan.minted, m, f, field);
    }
  }

  /** The live values of one parcel are those of another moment, or those a feature supports. */
  ghost predicate Holds(facts: seq<Fact>, p: ParcelId, values: Field -> Option<Value>) {
    forall field {:trigger FieldKey(p, field)} :: field in PARCEL_FIELDS ==> LiveValue(facts, FieldKey(p, field)) == values(field)
  }

  lemma SupportedIsWellRecorded(facts: seq<Fact>, f: FeatureId, id: Identity, s: Staged)
    requires Holds(facts, id.parcel, field => Supported(f, s, field))
    ensures WellRecorded(facts, f, id)
    ensures LiveApn(facts, id) == ApnJson(StoredApn(s))
    ensures LiveGeometry(facts, id) == Supported(f, s, GeometryField)
  {
    assert FieldKey(id.parcel, Apn).field == Apn && FieldKey(id.parcel, GeometryField).field == GeometryField;
    assert FieldKey(id.parcel, SourceParcelId).field == SourceParcelId;
  }

  lemma UnmovedIsWellRecorded(before: seq<Fact>, facts: seq<Fact>, f: FeatureId, was: Identity, id: Identity)
    requires WellRecorded(before, f, was) && id.parcel == was.parcel
    requires Holds(facts, id.parcel, field => LiveValue(before, FieldKey(id.parcel, field)))
    ensures WellRecorded(facts, f, id)
    ensures LiveApn(facts, id) == LiveApn(before, was) && LiveGeometry(facts, id) == LiveGeometry(before, was)
  {
    assert FieldKey(id.parcel, Apn).field == Apn && FieldKey(id.parcel, GeometryField).field == GeometryField;
    assert FieldKey(id.parcel, SourceParcelId).field == SourceParcelId;
  }

  /** The live number and geometry of each identity after a reconcile. */
  lemma StillWellRecorded(t: Tables, now: Time, staging: Staging, cite: Citation, plan: Plan, m: Moments, f: FeatureId)
    requires Kept(t, now) && RightPlan(t, staging, cite, plan) && f in IdentitiesAfter(t.identities, plan, cite, m.at)
    ensures var b := AfterWrites(t, plan, cite, m); var id := b.identities[f];
      && WellRecorded(b.facts, f, id) && (!Decided(t, staging, f) ==> f in t.identities)
      && LiveApn(b.facts, id) == (if Decided(t, staging, f) then ApnJson(StoredApn(staging[f])) else LiveApn(t.facts, t.identities[f]))
      && LiveGeometry(b.facts, id) == (if Decided(t, staging, f) then Supported(f, staging[f], GeometryField)
                                       else LiveGeometry(t.facts, t.identities[f]))
  {
    IdentityParcels(t, staging, cite, plan, m.at);
    ValuesAfter(t, now, staging, cite, plan, m, f);
    var facts, id := AfterWrites(t, plan, cite, m).facts, IdentitiesAfter(t.identities, plan, cite, m.at)[f];
    assert id.parcel == ParcelsOf(IdentitiesAfter(t.identities, plan, cite, m.at))[f];
    if Decided(t, staging, f) {
      SupportedIsWellRecorded(facts, f, id, staging[f]);
    } else {
      assert f in t.identities && id.parcel == t.identities[f].parcel;
      UnmovedIsWellRecorded(t.facts, facts, f, t.identities[f], id);
    }
  }

  // ------------------------------------------------------------------ caches

  lemma CacheAt<V>(parcelOf: map<FeatureId, ParcelId>, features: set<FeatureId>, value: FeatureId -> V, f: FeatureId)
    requires features <= parcelOf.Keys && Injective(parcelOf) && f in parcelOf
    ensures var cache := CacheOf(parcelOf, features, value);
      && (parcelOf[f] in cache <==> f in features)
      && (f in features ==> cache[parcelOf[f]] == value(f))
  {
  }

  /** What a reconcile makes of the parcel of a known feature. */
  lemma KnownParcelAfter(t: Tables, staging: Staging, cite: Citation, plan: Plan, f: FeatureId)
    requires IdentitiesHold(t.identities, t.parcels) && Minted(t, staging, plan.minted) && f in t.identities
    requires NewRowsPlanned(staging, cite, plan.minted, plan.parcelRows, plan.identityRows)
    requires UpdatesPlan(Observed(t.facts, t.identities, staging, cite), VisibleIds(t, staging), plan.changes)
    ensures var p, id := t.identities[f].parcel, t.identities[f]; var was := t.parcels[p];
      && p in ParcelsAfter(t.parcels, plan)
      && var r := ParcelsAfter(t.parcels, plan)[p];
      && r.jurisdiction == was.jurisdiction
      && r.apn == (if f in VisibleIds(t, staging) && ApnMoves(t.facts, id, staging[f]) then StoredApn(staging[f]) else was.apn)
      && r.geom == (if f in VisibleIds(t, staging) && GeometryMoves(t.facts, id, staging[f]) then staging[f].geometry else was.geom)
      && r.centroid == (if f in VisibleIds(t, staging) && GeometryMoves(t.facts, id, staging[f]) then None else was.centroid)
  {
    var o, visible := Observed(t.facts, t.identities, staging, cite), VisibleIds(t, staging);
    assert ParcelsOf(t.identities)[f] == t.identities[f].parcel;
    CacheAt(ParcelsOf(t.identities), ApnMovers(o, visible), StoredApnIn(staging), f);
    CacheAt(ParcelsOf(t.identities), GeometryMovers(o, visible), GeometryIn(staging), f);
  }

  /** A parcel of no feature's is left alone. */
  lemma CacheElsewhere<V>(parcelOf: map<FeatureId, ParcelId>, features: set<FeatureId>, value: FeatureId -> V, p: ParcelId)
    requires features <= parcelOf.Keys && Injective(parcelOf) && p !in parcelOf.Values
    ensures p !in CacheOf(parcelOf, features, value)
  {
  }

  lemma NewParcelAfter(t: Tables, staging: Staging, cite: Citation, plan: Plan, f: FeatureId)
    requires IdentitiesHold(t.identities, t.parcels) && Minted(t, staging, plan.minted) && f in plan.minted
    requires NewRowsPlanned(staging, cite, plan.minted, plan.parcelRows, plan.identityRows)
    requires UpdatesPlan(Observed(t.facts, t.identities, staging, cite), VisibleIds(t, staging), plan.changes)
    ensures plan.minted[f] in ParcelsAfter(t.parcels, plan)
    ensures ParcelsAfter(t.parcels, plan)[plan.minted[f]] == NewParcel(staging[f])
  {
    var o, visible, p := Observed(t.facts, t.identities, staging, cite), VisibleIds(t, staging), plan.minted[f];
    forall g | g in t.identities ensures ParcelsOf(t.identities)[g] != p { assert t.identities[g].parcel in t.parcels; }
    CacheElsewhere(ParcelsOf(t.identities), ApnMovers(o, visible), StoredApnIn(staging), p);
    CacheElsewhere(ParcelsOf(t.identities), GeometryMovers(o, visible), GeometryIn(staging), p);
    ParcelsGrow(t, staging, cite, plan);
    assert p in plan.minted.Values;
  }

  /** Every geometry the reconcile will compare with a live one can be stored. */
  ghost predicate KnownPolygonal(t: Tables, staging: Staging) {
    forall f :: f in VisibleIds(t, staging) ==> UnresolvableGeometry(staging[f].geometry).None?
  }

  /** The geometry update is accepted exactly then: an unchanged geometry is a polygon already. */
  lemma AcceptedIffPolygonal(t: Tables, now: Time, staging: Staging, cite: Citation, c: Changes)
    requires Kept(t, now) && UpdatesPlan(Observed(t.facts, t.identities, staging, cite), VisibleIds(t, staging), c)
    ensures GeometryAccepted(c.geomCache) <==> KnownPolygonal(t, staging)
  {
    var o, visible := Observed(t.facts, t.identities, staging, cite), VisibleIds(t, staging);
    forall f | f in visible && UnresolvableGeometry(staging[f].geometry).Some? ensures !GeometryAccepted(c.geomCache) {
      GeometryTestIsExact(t.facts, f, t.identities[f], staging[f]);
      CacheAt(ParcelsOf(t.identities), GeometryMovers(o, visible), GeometryIn(staging), f);
      assert t.identities[f].parcel in c.geomCache;
    }
    forall p | p in c.geomCache && KnownPolygonal(t, staging) ensures UnresolvableGeometry(c.geomCache[p]).None? {
      CacheSource(ParcelsOf(t.identities), GeometryMovers(o, visible), GeometryIn(staging), p);
    }
  }

  lemma CacheSource<V>(parcelOf: map<FeatureId, ParcelId>, features: set<FeatureId>, value: FeatureId -> V, p: ParcelId)
    requires features <= parcelOf.Keys && Injective(parcelOf) && p in CacheOf(parcelOf, features, value)
    ensures exists f :: f in features && parcelOf[f] == p && CacheOf(parcelOf, features, value)[p] == value(f)
  {
  }

  lemma NewCacheHolds(facts: seq<Fact>, id: Identity, p: Parcel, s: Staged, f: FeatureId)
    requires LiveApn(facts, id) == ApnJson(StoredApn(s)) && LiveGeometry(facts, id) == Supported(f, s, GeometryField)
    requires p == NewParcel(s)
    ensures CacheHolds(facts, id, p)
  {
  }

  /** One parcel's cache columns, before and after. */
  lemma CacheFollows(before: seq<Fact>, facts: seq<Fact>, was: Identity, id: Identity, old': Parcel, new': Parcel, s: Staged, f: FeatureId)
    requires CacheHolds(before, was, old') && new'.jurisdiction == old'.jurisdiction
    requires UnresolvableGeometry(s.geometry).None?
    requires new'.apn == if ApnMoves(before, was, s) then StoredApn(s) else old'.apn
    requires new'.geom == if GeometryMoves(before, was, s) then s.geometry else old'.geom
    requires LiveApn(facts, id) == ApnJson(StoredApn(s)) && LiveGeometry(facts, id) == Supported(f, s, GeometryField)
    ensures CacheHolds(facts, id, new')
  {
  }

  lemma KnownCacheHolds(t: Tables, now: Time, staging: Staging, cite: Citation, plan: Plan, m: Moments, f: FeatureId)
    requires Kept(t, now) && RightPlan(t, staging, cite, plan) && f in t.identities && KnownPolygonal(t, staging)
    ensures var b := AfterWrites(t, plan, cite, m);
      && f in b.identities && b.identities[f].parcel in b.parcels
      && CacheHolds(b.facts, b.identities[f], b.parcels[b.identities[f].parcel])
  {
    IdentityAfter(t, staging, cite, plan, m.at, f);
    StillWellRecorded(t, now, staging, cite, plan, m, f);
    KnownParcelAfter(t, staging, cite, plan, f);
    var b, was := AfterWrites(t, plan, cite, m), t.identities[f];
    assert CacheHolds(t.facts, was, t.parcels[was.parcel]);
    if Decided(t, staging, f) {
      assert f in VisibleIds(t, staging);
      CacheFollows(t.facts, b.facts, was, b.identities[f], t.parcels[was.parcel], b.parcels[was.parcel], staging[f], f);
    }
  }

  // ------------------------------------------------------------------ the exceptions mirror the ledger

  lemma OneParcelOneFeature(identities: map<FeatureId, Identity>, f: FeatureId, g: FeatureId)
    requires Injective(ParcelsOf(identities)) && f in identities && g in identities
    requires identities[f].parcel == identities[g].parcel
    ensures f == g
  {
    assert ParcelsOf(identities)[f] == ParcelsOf(identities)[g];
  }

  /** The open findings of the two detectors afterwards, without the rows that carry them. */
  ghost function ApnPairsAfter(rows: Rows, c: Changes): Pairs {
    AddedPairs(c.exceptions, APN_UNRESOLVABLE) + Without(OpenPairs(rows, APN_UNRESOLVABLE), c.resolved)
  }

  ghost function GonePairsAfter(rows: Rows, c: Changes): Pairs {
    AddedPairs(c.exceptions, PARCEL_DISAPPEARED) + Without(OpenPairs(rows, PARCEL_DISAPPEARED), c.reappeared)
  }

  /** A parcel's findings: one new one, none, or those it had. */
  ghost predicate FindingsOf(pairs: Pairs, was: Pairs, p: ParcelId, opens: bool, reason: Option<Reason>, closes: bool) {
    forall r: Option<Reason> :: (p, r) in pairs <==> if opens then r == reason else !closes && (p, r) in was
  }

  lemma MentionsAfter(pairs: Pairs, was: Pairs, p: ParcelId, opens: bool, reason: Option<Reason>, closes: bool)
    requires FindingsOf(pairs, was, p, opens, reason, closes)
    ensures Mentions(pairs, p) <==> opens || (!closes && Mentions(was, p))
  {
    if opens { assert (p, reason) in pairs; }
  }

  lemma ResolvedIsOne(o: Observed, visible: set<FeatureId>, f: FeatureId)
    requires Injective(ParcelsOf(o.identities)) && f in o.identities
    ensures o.identities[f].parcel in ResolvedParcels(o, visible) <==> f in visible && o.Knows(f) && o.Resolves(f)
  {
    forall g | g in o.identities && o.identities[g].parcel == o.identities[f].parcel ensures g == f {
      OneParcelOneFeature(o.identities, f, g);
    }
  }

  lemma ReappearedIsOne(o: Observed, visible: set<FeatureId>, f: FeatureId)
    requires Injective(ParcelsOf(o.identities)) && f in o.identities
    ensures o.identities[f].parcel in ReappearedParcels(o, visible) <==>
      f in visible && o.Knows(f) && o.identities[f].retiredAt.Some?
  {
    forall g | g in o.identities && o.identities[g].parcel == o.identities[f].parcel ensures g == f {
      OneParcelOneFeature(o.identities, f, g);
    }
  }

  lemma DegradedIsOne(o: Observed, visible: set<FeatureId>, f: FeatureId, r: Option<Reason>)
    requires Injective(ParcelsOf(o.identities)) && f in o.identities
    ensures (o.identities[f].parcel, r) in DegradedPairs(o, visible) <==>
      f in visible && o.Knows(f) && o.Degrades(f) && r == UnresolvableApn(o.staging[f].apn)
  {
    forall g | g in o.identities && o.identities[g].parcel == o.identities[f].parcel ensures g == f {
      OneParcelOneFeature(o.identities, f, g);
    }
  }

  lemma GoneIsOne(identities: map<FeatureId, Identity>, gone: set<FeatureId>, open: set<ParcelId>, f: FeatureId, r: Option<Reason>)
    requires Injective(ParcelsOf(identities)) && f in identities
    ensures (identities[f].parcel, r) in GonePairs(identities, gone, open) <==>
      f in gone && identities[f].parcel !in open && r == Some(AbsentFromSnapshot)
  {
    forall g | g in identities && identities[g].parcel == identities[f].parcel ensures g == f {
      OneParcelOneFeature(identities, f, g);
    }
  }

  lemma FindingsJoin(others: Pairs, found: Pairs, was: Pairs, closed: set<ParcelId>, p: ParcelId,
                     opens: bool, reason: Option<Reason>, closes: bool)
    requires !Mentions(others, p) && (opens ==> !Mentions(was, p)) && (p in closed <==> closes)
    requires forall r: Option<Reason> :: (p, r) in found <==> opens && r == reason
    ensures FindingsOf(others + found + Without(was, closed), was, p, opens, reason, closes)
  {
  }

  lemma NewAreStrangers(t: Tables, staging: Staging, minted: map<FeatureId, ParcelId>, p: ParcelId)
    requires Minted(t, staging, minted) && p in t.parcels
    ensures !Mentions(ApnPairs(minted, staging), p)
  {
  }

  lemma KnownApnFindings(t: Tables, staging: Staging, cite: Citation, plan: Plan, f: FeatureId)
    requires Injective(ParcelsOf(t.identities)) && f in t.identities && Mirrored(t.facts, t.exceptions, t.identities[f])
    requires t.identities[f].parcel in t.parcels && Minted(t, staging, plan.minted)
    requires var o, visible := Observed(t.facts, t.identities, staging, cite), VisibleIds(t, staging);
      && AddedPairs(plan.changes.exceptions, APN_UNRESOLVABLE) == ApnPairs(plan.minted, staging) + DegradedPairs(o, visible)
      && plan.changes.resolved == ResolvedParcels(o, visible)
    ensures var o, decided := Observed(t.facts, t.identities, staging, cite), Decided(t, staging, f);
      FindingsOf(ApnPairsAfter(t.exceptions, plan.changes), OpenPairs(t.exceptions, APN_UNRESOLVABLE), t.identities[f].parcel,
                 decided && o.Degrades(f), if decided then UnresolvableApn(staging[f].apn) else None, decided && o.Resolves(f))
  {
    var p, o, visible := t.identities[f].parcel, Observed(t.facts, t.identities, staging, cite), VisibleIds(t, staging);
    var opens := f in visible && o.Degrades(f);
    assert p in plan.changes.resolved <==> f in visible && o.Resolves(f) by { ResolvedIsOne(o, visible, f); }
    assert !Mentions(ApnPairs(plan.minted, staging), p) by { NewAreStrangers(t, staging, plan.minted, p); }
    forall r: Option<Reason>
      ensures (p, r) in DegradedPairs(o, visible) <==> opens && r == UnresolvableApn(staging[f].apn)
    {
      DegradedIsOne(o, visible, f, r);
    }
    FindingsJoin(ApnPairs(plan.minted, staging), DegradedPairs(o, visible), OpenPairs(t.exceptions, APN_UNRESOLVABLE),
                 plan.changes.resolved, p, opens, if f in visible then UnresolvableApn(staging[f].apn) else None,
                 f in visible && o.Resolves(f));
  }

  lemma KnownGoneFindings(t: Tables, staging: Staging, cite: Citation, plan: Plan, f: FeatureId)
    requires Injective(ParcelsOf(t.identities)) && f in t.identities && Mirrored(t.facts, t.exceptions, t.identities[f])
    requires plan.gone == GoneIds(staging, t.identities)
    requires var o, visible := Observed(t.facts, t.identities, staging, cite), VisibleIds(t, staging);
      && AddedPairs(plan.changes.exceptions, PARCEL_DISAPPEARED)
           == GonePairs(t.identities, plan.gone, OpenParcels(t.exceptions, PARCEL_DISAPPEARED))
      && plan.changes.reappeared == ReappearedParcels(o, visible)
    ensures var gone := f !in staging && t.identities[f].retiredAt.None?;
      FindingsOf(GonePairsAfter(t.exceptions, plan.changes), OpenPairs(t.exceptions, PARCEL_DISAPPEARED), t.identities[f].parcel,
                 gone, Some(AbsentFromSnapshot), Decided(t, staging, f) && t.identities[f].retiredAt.Some?)
  {
    var p, o, visible := t.identities[f].parcel, Observed(t.facts, t.identities, staging, cite), VisibleIds(t, staging);
    var open, gone := OpenParcels(t.exceptions, PARCEL_DISAPPEARED), f in plan.gone;
    OpenMeansOpenParcel(t.exceptions, PARCEL_DISAPPEARED, p);
    assert p in plan.changes.reappeared <==> f in visible && t.identities[f].retiredAt.Some? by { ReappearedIsOne(o, visible, f); }
    forall r: Option<Reason>
      ensures (p, r) in GonePairs(t.identities, plan.gone, open) <==> gone && r == Some(AbsentFromSnapshot)
    {
      GoneIsOne(t.identities, plan.gone, open, f, r);
    }
    FindingsJoin({}, GonePairs(t.identities, plan.gone, open), OpenPairs(t.exceptions, PARCEL_DISAPPEARED),
                 plan.changes.reappeared, p, gone, Some(AbsentFromSnapshot), f in visible && t.identities[f].retiredAt.Some?);
    assert {} + GonePairs(t.identities, plan.gone, open) == GonePairs(t.identities, plan.gone, open);
  }

  lemma KnownApnMirrored(t: Tables, staging: Staging, cite: Citation, plan: Plan, f: FeatureId, facts: seq<Fact>, id: Identity)
    requires Injective(ParcelsOf(t.identities)) && f in t.identities && Mirrored(t.facts, t.exceptions, t.identities[f])
    requires t.identities[f].parcel in t.parcels && Minted(t, staging, plan.minted)
    requires var o, visible := Observed(t.facts, t.identities, staging, cite), VisibleIds(t, staging);
      && AddedPairs(plan.changes.exceptions, APN_UNRESOLVABLE) == ApnPairs(plan.minted, staging) + DegradedPairs(o, visible)
      && plan.changes.resolved == ResolvedParcels(o, visible)
    requires id.parcel == t.identities[f].parcel
    requires LiveApn(facts, id) == if Decided(t, staging, f) then ApnJson(StoredApn(staging[f])) else LiveApn(t.facts, t.identities[f])
    ensures LiveApn(facts, id).Some? <==> !Mentions(ApnPairsAfter(t.exceptions, plan.changes), id.parcel)
  {
    var o, decided := Observed(t.facts, t.identities, staging, cite), Decided(t, staging, f);
    KnownApnFindings(t, staging, cite, plan, f);
    MentionsAfter(ApnPairsAfter(t.exceptions, plan.changes), OpenPairs(t.exceptions, APN_UNRESOLVABLE), id.parcel,
                  decided && o.Degrades(f), if decided then UnresolvableApn(staging[f].apn) else None, decided && o.Resolves(f));
  }

  lemma KnownGoneMirrored(t: Tables, staging: Staging, cite: Citation, plan: Plan, f: FeatureId, id: Identity)
    requires Injective(ParcelsOf(t.identities)) && f in t.identities && Mirrored(t.facts, t.exceptions, t.identities[f])
    requires plan.gone == GoneIds(staging, t.identities)
    requires var o, visible := Observed(t.facts, t.identities, staging, cite), VisibleIds(t, staging);
      && AddedPairs(plan.changes.exceptions, PARCEL_DISAPPEARED)
           == GonePairs(t.identities, plan.gone, OpenParcels(t.exceptions, PARCEL_DISAPPEARED))
      && plan.changes.reappeared == ReappearedParcels(o, visible)
    requires id.parcel == t.identities[f].parcel
    requires id.retiredAt.Some? <==> f !in staging || (t.identities[f].retiredAt.Some? && !Decided(t, staging, f))
    ensures id.retiredAt.Some? <==> Mentions(GonePairsAfter(t.exceptions, plan.changes), id.parcel)
  {
    var was := t.identities[f];
    KnownGoneFindings(t, staging, cite, plan, f);
    MentionsAfter(GonePairsAfter(t.exceptions, plan.changes), OpenPairs(t.exceptions, PARCEL_DISAPPEARED), id.parcel,
                  f !in staging && was.retiredAt.None?, Some(AbsentFromSnapshot), Decided(t, staging, f) && was.retiredAt.Some?);
  }

  /** A known identity is retired afterwards exactly when its feature is absent, or was
      retired already and cannot be seen by the change query. */
  lemma KnownRetired(t: Tables, staging: Staging, cite: Citation, plan: Plan, at: Time, f: FeatureId)
    requires OneLive(t.facts) && RightPlan(t, staging, cite, plan) && f in t.identities
    ensures var r := IdentitiesAfter(t.identities, plan, cite, at);
      && f in r && r[f].parcel == t.identities[f].parcel
      && (r[f].retiredAt.Some? <==> f !in staging || (t.identities[f].retiredAt.Some? && !Decided(t, staging, f)))
  {
    IdentityAfter(t, staging, cite, plan, at, f);
    if Decided(t, staging, f) && t.identities[f].retiredAt.Some? { ReappearingIsChanged(t, staging, f); }
    ChangedAreVisible(t, staging);
  }

  lemma KnownIsMirrored(t: Tables, now: Time, staging: Staging, cite: Citation, plan: Plan, m: Moments, f: FeatureId)
    requires Kept(t, now) && RightPlan(t, staging, cite, plan) && f in t.identities
    ensures var b := AfterWrites(t, plan, cite, m);
      && f in b.identities
      && MirroredBy(b.facts, ApnPairsAfter(t.exceptions, plan.changes), GonePairsAfter(t.exceptions, plan.changes), b.identities[f])
  {
    KnownRetired(t, staging, cite, plan, m.at, f);
    StillWellRecorded(t, now, staging, cite, plan, m, f);
    KnownApnMirrored(t, staging, cite, plan, f, AfterWrites(t, plan, cite, m).facts, IdentitiesAfter(t.identities, plan, cite, m.at)[f]);
    KnownGoneMirrored(t, staging, cite, plan, f, IdentitiesAfter(t.identities, plan, cite, m.at)[f]);
  }

  lemma ReappearingIsChanged(t: Tables, staging: Staging, f: FeatureId)
    requires OneLive(t.facts) && f in VisibleIds(t, staging) && t.identities[f].retiredAt.Some?
    ensures f in ChangedIds(t.facts, staging, t.identities)
  {
    LiveRowsInRange(t.facts);
  }

  lemma NewFindings(t: Tables, staging: Staging, cite: Citation, plan: Plan, f: FeatureId)
    requires ExceptionsRefer(t.exceptions, t.parcels) && Minted(t, staging, plan.minted) && f in plan.minted
    requires forall g :: g in t.identities ==> t.identities[g].parcel in t.parcels
    requires plan.gone <= t.identities.Keys
    requires ExceptionsPlan(Observed(t.facts, t.identities, staging, cite), t.exceptions, VisibleIds(t, staging), plan)
    ensures forall r: Option<Reason> :: (plan.minted[f], r) in ApnPairsAfter(t.exceptions, plan.changes) <==>
      r.Some? && r == UnresolvableApn(staging[f].apn)
    ensures !Mentions(GonePairsAfter(t.exceptions, plan.changes), plan.minted[f])
  {
    var p := plan.minted[f];
    StrangersAreClosed(t.exceptions, t.parcels, APN_UNRESOLVABLE, p);
    StrangersAreClosed(t.exceptions, t.parcels, PARCEL_DISAPPEARED, p);
    forall r: Option<Reason>
      ensures (p, r) !in DegradedPairs(Observed(t.facts, t.identities, staging, cite), VisibleIds(t, staging))
      ensures (p, r) in ApnPairs(plan.minted, staging) <==> r.Some? && r == UnresolvableApn(staging[f].apn)
    {
    }
  }

  lemma NewIsMirrored(facts: seq<Fact>, noApn: Pairs, disappeared: Pairs, id: Identity, s: Staged)
    requires LiveApn(facts, id) == ApnJson(StoredApn(s)) && id.retiredAt.None? && !Mentions(disappeared, id.parcel)
    requires forall r: Option<Reason> :: (id.parcel, r) in noApn <==> r.Some? && r == UnresolvableApn(s.apn)
    ensures MirroredBy(facts, noApn, disappeared, id)
  {
    var reason := UnresolvableApn(s.apn);
    assert reason.Some? ==> (id.parcel, reason) in noApn;
  }

  lemma OneFinding(pairs: Pairs, was: Pairs, p: ParcelId, opens: bool, reason: Option<Reason>, closes: bool)
    requires FindingsOf(pairs, was, p, opens, reason, closes) && AtMostOne(was, p)
    ensures AtMostOne(pairs, p)
  {
  }

  lemma NoNewFindings(t: Tables, staging: Staging, cite: Citation, plan: Plan, p: ParcelId)
    requires ExceptionsPlan(Observed(t.facts, t.identities, staging, cite), t.exceptions, VisibleIds(t, staging), plan)
    requires plan.gone <= t.identities.Keys
    requires (forall f :: f in t.identities ==> t.identities[f].parcel != p) && (forall f :: f in plan.minted ==> plan.minted[f] != p)
    ensures forall r: Option<Reason> :: (p, r) in ApnPairsAfter(t.exceptions, plan.changes) ==> (p, r) in OpenPairs(t.exceptions, APN_UNRESOLVABLE)
    ensures forall r: Option<Reason> :: (p, r) in GonePairsAfter(t.exceptions, plan.changes) ==> (p, r) in OpenPairs(t.exceptions, PARCEL_DISAPPEARED)
  {
  }

  lemma OneFindingEach(t: Tables, now: Time, staging: Staging, cite: Citation, plan: Plan, p: ParcelId)
    requires Kept(t, now) && RightPlan(t, staging, cite, plan)
    ensures AtMostOne(ApnPairsAfter(t.exceptions, plan.changes), p)
    ensures AtMostOne(GonePairsAfter(t.exceptions, plan.changes), p)
  {
    if f :| f in t.identities && t.identities[f].parcel == p {
      KnownApnFindings(t, staging, cite, plan, f);
      KnownGoneFindings(t, staging, cite, plan, f);
      var o, decided := Observed(t.facts, t.identities, staging, cite), Decided(t, staging, f);
      OneFinding(ApnPairsAfter(t.exceptions, plan.changes), OpenPairs(t.exceptions, APN_UNRESOLVABLE), p,
                 decided && o.Degrades(f), if decided then UnresolvableApn(staging[f].apn) else None, decided && o.Resolves(f));
      OneFinding(GonePairsAfter(t.exceptions, plan.changes), OpenPairs(t.exceptions, PARCEL_DISAPPEARED), p,
                 f !in staging && t.identities[f].retiredAt.None?, Some(AbsentFromSnapshot),
                 decided && t.identities[f].retiredAt.Some?);
    } else if f :| f in plan.minted && plan.minted[f] == p {
      NewFindings(t, staging, cite, plan, f);
    } else {
      NoNewFindings(t, staging, cite, plan, p);
      assert AtMostOne(OpenPairs(t.exceptions, APN_UNRESOLVABLE), p) && AtMostOne(OpenPairs(t.exceptions, PARCEL_DISAPPEARED), p);
    }
  }

  // ------------------------------------------------------------------ everything

  lemma IdentitiesStillMirrored(t: Tables, now: Time, staging: Staging, cite: Citation, plan: Plan, m: Moments)
    requires Kept(t, now) && RightPlan(t, staging, cite, plan) && KnownPolygonal(t, staging)
    requires var b := AfterWrites(t, plan, cite, m); forall f :: f in b.identities ==> b.identities[f].parcel in b.parcels
    ensures IdentitiesMirrored(AfterWrites(t, plan, cite, m))
  {
    var b := AfterWrites(t, plan, cite, m);
    PairsAfterLifecycle(t.exceptions, plan.changes, m.closedApn, m.closedGone, APN_UNRESOLVABLE);
    PairsAfterLifecycle(t.exceptions, plan.changes, m.closedApn, m.closedGone, PARCEL_DISAPPEARED);
    assert OpenPairs(b.exceptions, APN_UNRESOLVABLE) == ApnPairsAfter(t.exceptions, plan.changes);
    assert OpenPairs(b.exceptions, PARCEL_DISAPPEARED) == GonePairsAfter(t.exceptions, plan.changes);
    forall p
      ensures AtMostOne(ApnPairsAfter(t.exceptions, plan.changes), p) && AtMostOne(GonePairsAfter(t.exceptions, plan.changes), p)
    {
      OneFindingEach(t, now, staging, cite, plan, p);
    }
    IdentityParcels(t, staging, cite, plan, m.at);
    forall f | f in b.identities
      ensures WellRecorded(b.facts, f, b.identities[f]) && CacheHolds(b.facts, b.identities[f], b.parcels[b.identities[f].parcel])
      ensures Mirrored(b.facts, b.exceptions, b.identities[f])
    {
      OneIdentityMirrored(t, now, staging, cite, plan, m, f);
    }
  }

  lemma NewIsRight(t: Tables, now: Time, staging: Staging, cite: Citation, plan: Plan, m: Moments, f: FeatureId)
    requires Kept(t, now) && RightPlan(t, staging, cite, plan) && f in plan.minted
    requires f in IdentitiesAfter(t.identities, plan, cite, m.at)
    ensures var b := AfterWrites(t, plan, cite, m); var id := b.identities[f];
      && id.parcel in b.parcels && CacheHolds(b.facts, id, b.parcels[id.parcel])
      && MirroredBy(b.facts, ApnPairsAfter(t.exceptions, plan.changes), GonePairsAfter(t.exceptions, plan.changes), id)
  {
    IdentityAfter(t, staging, cite, plan, m.at, f);
    StillWellRecorded(t, now, staging, cite, plan, m, f);
    NewParcelAfter(t, staging, cite, plan, f);
    NewFindings(t, staging, cite, plan, f);
    var facts, id := AfterWrites(t, plan, cite, m).facts, NewIdentity(plan.minted[f], cite);
    NewCacheHolds(facts, id, NewParcel(staging[f]), staging[f], f);
    NewIsMirrored(facts, ApnPairsAfter(t.exceptions, plan.changes), GonePairsAfter(t.exceptions, plan.changes), id, staging[f]);
  }

  lemma OneIdentityMirrored(t: Tables, now: Time, staging: Staging, cite: Citation, plan: Plan, m: Moments, f: FeatureId)
    requires Kept(t, now) && RightPlan(t, staging, cite, plan) && KnownPolygonal(t, staging)
    requires f in IdentitiesAfter(t.identities, plan, cite, m.at)
    ensures var b := AfterWrites(t, plan, cite, m); var id := b.identities[f];
      && WellRecorded(b.facts, f, id) && id.parcel in b.parcels && CacheHolds(b.facts, id, b.parcels[id.parcel])
      && MirroredBy(b.facts, ApnPairsAfter(t.exceptions, plan.changes), GonePairsAfter(t.exceptions, plan.changes), id)
  {
    StillWellRecorded(t, now, staging, cite, plan, m, f);
    IdentityParcels(t, staging, cite, plan, m.at);
    assert f in ParcelsOf(IdentitiesAfter(t.identities, plan, cite, m.at));
    if f in t.identities {
      KnownCacheHolds(t, now, staging, cite, plan, m, f);
      KnownIsMirrored(t, now, staging, cite, plan, m, f);
    } else {
      NewIsRight(t, now, staging, cite, plan, m, f);
    }
  }

  /** A detector that is not one of the reconcile's three keeps its open findings. */
  lemma OtherFindings(t: Tables, staging: Staging, cite: Citation, plan: Plan, m: Moments, d: Detector)
    requires ExceptionsPlan(Observed(t.facts, t.identities, staging, cite), t.exceptions, VisibleIds(t, staging), plan)
    requires d != APN_UNRESOLVABLE && d != GEOMETRY_DECLARED_GAP && d != PARCEL_DISAPPEARED
    ensures OpenPairs(LifecycleAfter(t.exceptions, plan.changes, m.closedApn, m.closedGone), d) == OpenPairs(t.exceptions, d)
  {
    PairsAfterLifecycle(t.exceptions, plan.changes, m.closedApn, m.closedGone, d);
  }

  lemma TargetIsParcels(parcelOf: map<FeatureId, ParcelId>, values: Values, features: set<FeatureId>)
    requires features <= parcelOf.Keys && Injective(parcelOf)
    ensures forall k :: k in TargetOf(parcelOf, values, features) ==> k.source == ParcelsSource && k.field in PARCEL_FIELDS
  {
  }

  lemma PermitsStillMirrored(t: Tables, now: Time, staging: Staging, cite: Citation, plan: Plan, m: Moments)
    requires Kept(t, now) && RightPlan(t, staging, cite, plan)
    ensures PermitsMirrored(AfterWrites(t, plan, cite, m).facts, AfterWrites(t, plan, cite, m).exceptions)
  {
    FactsAreRefreshed(t, staging, cite, plan, m);
    OtherFindings(t, staging, cite, plan, m, PERMIT_ATTRIBUTION_LOST);
    TargetIsParcels(AllParcels(t.identities, plan.minted), SupportedBy(staging), plan.minted.Keys + VisibleIds(t, staging));
    PermitsUnmoved(t.facts, AfterWrites(t, plan, cite, m).facts, t.exceptions,
                   LifecycleAfter(t.exceptions, plan.changes, m.closedApn, m.closedGone),
                   FullTarget(t, staging, plan.minted), cite, m.started, m.at);
  }

  lemma ReasonsStillOwn(t: Tables, staging: Staging, cite: Citation, plan: Plan, m: Moments)
    requires OwnReasons(t.exceptions)
    requires ExceptionsPlan(Observed(t.facts, t.identities, staging, cite), t.exceptions, VisibleIds(t, staging), plan)
    ensures OwnReasons(LifecycleAfter(t.exceptions, plan.changes, m.closedApn, m.closedGone))
  {
    OtherFindings(t, staging, cite, plan, m, ZONING_UNRESOLVABLE);
    OtherFindings(t, staging, cite, plan, m, CENTROID_NOT_INTERIOR);
  }

  /** A committed reconcile keeps every invariant. */
  lemma ReconcileKeeps(t: Tables, now: Time, staging: Staging, cite: Citation, plan: Plan, m: Moments)
    requires Kept(t, now) && RightPlan(t, staging, cite, plan) && KnownPolygonal(t, staging)
    requires IdentitiesAccepted(t.identities, plan, cite, m.at)
    requires now <= m.started <= m.at < m.closedApn < m.closedGone
    ensures Kept(AfterWrites(t, plan, cite, m), m.closedGone)
  {
    var b, target := AfterWrites(t, plan, cite, m), FullTarget(t, staging, plan.minted);
    FactsAreRefreshed(t, staging, cite, plan, m);
    RefreshReaches(t.facts, b.facts, target, cite, m.started, m.at);
    RefreshExtends(t.facts, b.facts, target, cite, m.started, m.at);
    TimedLater(t.facts, now, m.started);
    TimedLater(b.facts, m.at, m.closedGone);
    FactsStillRefer(t, b.facts, staging, cite, plan, m);
    ExceptionsStillRefer(t, staging, cite, plan, m);
    IdentitiesStillHold(t, staging, cite, plan, m.at);
    LifecycleHolds(t, now, staging, cite, plan, m);
    IdentitiesStillMirrored(t, now, staging, cite, plan, m);
    PermitsStillMirrored(t, now, staging, cite, plan, m);
    ReasonsStillOwn(t, staging, cite, plan, m);
  }

  lemma TimedLater(ledger: seq<Fact>, now: Time, later: Time)
    requires Timed(ledger, now) && now <= later
    ensures Timed(ledger, later)
  {
  }

  // ------------------------------------------------------------------ when it can be committed

  /** The snapshot is no older than the first sighting of anything it changes. */
  ghost predicate SeenBefore(t: Tables, staging: Staging, retrievedAt: Time)
    requires OneLive(t.facts)
  {
    forall f :: f in ChangedIds(t.facts, staging, t.identities) ==> t.identities[f].firstSeenAt <= retrievedAt
  }

  /** Nothing that disappeared was last seen later than now. */
  predicate GoneSeenBy(t: Tables, staging: Staging, at: Time) {
    forall f :: f in GoneIds(staging, t.identities) ==> t.identities[f].lastSeenAt <= at
  }

  ghost predicate AllHold(identities: map<FeatureId, Identity>) {
    forall f :: f in identities ==> IdentityHolds(identities[f])
  }

  lemma RetireChecked(identities: map<FeatureId, Identity>, gone: set<FeatureId>, snapshot: SnapshotId, at: Time)
    requires AllHold(identities) && gone <= identities.Keys
    ensures RetiredAfterSeen(RetireAll(identities, gone, snapshot, at)) <==> forall f :: f in gone ==> identities[f].lastSeenAt <= at
  {
    var r := RetireAll(identities, gone, snapshot, at);
    forall f | f in gone ensures r[f] == Retired(identities[f], snapshot, at) {
    }
  }

  lemma TouchChecked(identities: map<FeatureId, Identity>, touches: map<FeatureId, bool>, cite: Citation)
    requires RetiredAfterSeen(identities) && SeenInOrder(identities) && touches.Keys <= identities.Keys
    requires forall f :: f in touches && !touches[f] ==> identities[f].retiredAt.None?
    ensures var r := TouchAll(identities, touches, cite);
      SeenInOrder(r) && RetiredAfterSeen(r) <==> forall f :: f in touches ==> identities[f].firstSeenAt <= cite.retrievedAt
  {
    var r := TouchAll(identities, touches, cite);
    forall f | f in touches ensures r[f] == Touched(identities[f], cite, touches[f]) {
    }
  }

  lemma NewHold(identities: map<FeatureId, Identity>, staging: Staging, cite: Citation, plan: Plan)
    requires AllHold(identities) && plan.minted.Keys == NewIds(staging, identities)
    requires NewRowsPlanned(staging, cite, plan.minted, plan.parcelRows, plan.identityRows)
    ensures AllHold(identities + plan.identityRows)
    ensures forall f :: f in identities ==> f in identities + plan.identityRows && (identities + plan.identityRows)[f] == identities[f]
  {
    forall f | f in plan.identityRows ensures IdentityHolds(plan.identityRows[f]) { assert f in plan.minted; }
  }

  lemma BothChecked(identities: map<FeatureId, Identity>, gone: set<FeatureId>, touches: map<FeatureId, bool>, cite: Citation, at: Time)
    requires AllHold(identities) && gone <= identities.Keys && touches.Keys <= identities.Keys && gone !! touches.Keys
    requires forall f :: f in touches && !touches[f] ==> identities[f].retiredAt.None?
    ensures var r := RetireAll(identities, gone, cite.snapshot, at);
      var r' := TouchAll(r, touches, cite);
      RetiredAfterSeen(r) && SeenInOrder(r') && RetiredAfterSeen(r') <==>
        && (forall f :: f in gone ==> identities[f].lastSeenAt <= at)
        && (forall f :: f in touches ==> identities[f].firstSeenAt <= cite.retrievedAt)
  {
    var r := RetireAll(identities, gone, cite.snapshot, at);
    RetireChecked(identities, gone, cite.snapshot, at);
    if RetiredAfterSeen(r) {
      assert forall f :: f in touches ==> r[f] == identities[f];
      TouchChecked(r, touches, cite);
    }
  }

  /** The two checks pass exactly when the snapshot fits the identities it meets. */
  lemma IdentitiesAcceptedIff(t: Tables, staging: Staging, cite: Citation, plan: Plan, at: Time)
    requires IdentityPlan(t, staging, cite, plan) && AllHold(t.identities)
    ensures IdentitiesAccepted(t.identities, plan, cite, at) <==>
      SeenBefore(t, staging, cite.retrievedAt) && GoneSeenBy(t, staging, at)
  {
    NewHold(t.identities, staging, cite, plan);
    assert forall f :: f in plan.changes.touches <==> f in ChangedIds(t.facts, staging, t.identities);
    BothChecked(t.identities + plan.identityRows, plan.gone, plan.changes.touches, cite, at);
  }

  ghost predicate ReconciledBy(before: Tables, after: Tables, staging: Staging, cite: Citation, m: Moments, plan: Plan) {
    && RightPlan(before, staging, cite, plan) && KnownPolygonal(before, staging)
    && IdentitiesAccepted(before.identities, plan, cite, m.at) && after == AfterWrites(before, plan, cite, m)
  }

  /** `after` is `before` reconciled with the staged features.  Only proofs that mention `Inside` look further. */
  ghost predicate Reconciled(before: Tables, after: Tables, staging: Staging, cite: Citation, m: Moments) {
    forall t {:trigger Inside(t)} :: Inside(t) && t == before ==> exists plan :: ReconciledBy(t, after, staging, cite, m, plan)
  }

  lemma ThePlan(before: Tables, after: Tables, staging: Staging, cite: Citation, m: Moments) returns (plan: Plan)
    requires Reconciled(before, after, staging, cite, m)
    ensures ReconciledBy(before, after, staging, cite, m, plan)
  {
    assert Inside(before);
    plan :| ReconciledBy(before, after, staging, cite, m, plan);
  }

  lemma APlan(before: Tables, after: Tables, staging: Staging, cite: Citation, m: Moments, plan: Plan)
    requires ReconciledBy(before, after, staging, cite, m, plan)
    ensures Reconciled(before, after, staging, cite, m)
  {
  }

  lemma ReconciledSettles(t: Tables, now: Time, after: Tables, staging: Staging, cite: Citation, m: Moments)
    requires Settled(t, now) && Reconciled(t, after, staging, cite, m)
    requires now <= m.started <= m.at < m.closedApn < m.closedGone
    ensures Settled(after, m.closedGone)
  {
    var plan := ThePlan(t, after, staging, cite, m);
    SettledIsKept(t, now);
    ReconcileKeeps(t, now, staging, cite, plan, m);
    SettledIsKept(after, m.closedGone);
  }

  lemma ReconciledExtends(t: Tables, now: Time, after: Tables, staging: Staging, cite: Citation, m: Moments)
    requires Settled(t, now) && Reconciled(t, after, staging, cite, m)
    requires now <= m.started <= m.at < m.closedApn < m.closedGone
    ensures RowsExtend(t.exceptions, after.exceptions)
  {
    var plan := ThePlan(t, after, staging, cite, m);
    SettledIsKept(t, now);
    RowsAreAccepted(t, now, staging, cite, plan, m);
    LifecycleExtends(t.exceptions, now, plan.changes, m.closedApn, m.closedGone);
  }
}
