/** What one reconcile writes, stated against the tables it found and the staged
    features, and why the three loops' lists amount to that. */
module ParcelsReconcile {
  import opened Schema
  import opened Ledger
  import opened Exceptions
  import opened Identifiers
  import opened ParcelsModel
  import opened ParcelsLists
  import opened Invariants

  /** Everything the three loops hand to the writing statements. */
  datatype Plan = Plan(
    minted: map<FeatureId, ParcelId>,
    parcelRows: map<ParcelId, Parcel>,
    identityRows: map<FeatureId, Identity>,
    changes: Changes,
    gone: set<FeatureId>)

  // ------------------------------------------------------------------ what is compared with what

  /** The features of the snapshot that the change query can see: known, with a live geometry fact. */
  ghost function VisibleIds(t: Tables, staging: Staging): set<FeatureId> {
    set f | f in staging && f in t.identities && LiveGeometry(t.facts, t.identities[f]).Some?
  }

  ghost function AllParcels(identities: map<FeatureId, Identity>, minted: map<FeatureId, ParcelId>): map<FeatureId, ParcelId> {
    ParcelsOf(identities) + minted
  }

  /** New parcels are new. */
  ghost predicate Minted(t: Tables, staging: Staging, minted: map<FeatureId, ParcelId>) {
    && minted.Keys == NewIds(staging, t.identities) && Injective(minted)
    && forall f :: f in minted ==> minted[f] !in t.parcels
  }

  lemma AllParcelsInjective(t: Tables, staging: Staging, minted: map<FeatureId, ParcelId>)
    requires IdentitiesHold(t.identities, t.parcels) && Minted(t, staging, minted)
    ensures Injective(AllParcels(t.identities, minted))
    ensures AllParcels(t.identities, minted).Keys == t.identities.Keys + minted.Keys
    ensures forall f :: f in minted ==> AllParcels(t.identities, minted)[f] == minted[f]
    ensures forall f :: f in t.identities ==> AllParcels(t.identities, minted)[f] == t.identities[f].parcel
  {
    var known, all := ParcelsOf(t.identities), AllParcels(t.identities, minted);
    forall f, g | f in all && g in all && all[f] == all[g] ensures f == g {
      assert f !in minted ==> all[f] == known[f] == t.identities[f].parcel && all[f] in t.parcels;
      assert g !in minted ==> all[g] == known[g] == t.identities[g].parcel && all[g] in t.parcels;
    }
  }

  /** What a ledger rebuilt from the snapshot would hold for every feature the
      reconcile can see, old and new. */
  ghost function FullTarget(t: Tables, staging: Staging, minted: map<FeatureId, ParcelId>): Target
    requires Injective(AllParcels(t.identities, minted))
  {
    TargetOf(AllParcels(t.identities, minted), SupportedBy(staging), minted.Keys + VisibleIds(t, staging))
  }

  // ------------------------------------------------------------------ the plan, whatever the loops' order

  ghost predicate FactsPlan(t: Tables, staging: Staging, cite: Citation, plan: Plan) {
    && Injective(AllParcels(t.identities, plan.minted))
    && Planned(t.facts, FullTarget(t, staging, plan.minted), plan.changes.retire, plan.changes.rows)
    && Cites(plan.changes.rows, cite) && AllVerbatim(plan.changes.rows, staging, AllParcels(t.identities, plan.minted))
  }

  ghost predicate ExceptionsPlan(o: Observed, rows: Rows, visible: set<FeatureId>, plan: Plan) {
    var added := plan.changes.exceptions;
    && NoRepeats(added) && Regular(added)
    && AddedPairs(added, APN_UNRESOLVABLE) == ApnPairs(plan.minted, o.staging) + DegradedPairs(o, visible)
    && AddedPairs(added, GEOMETRY_DECLARED_GAP) == GapPairs(plan.minted, o.staging)
    && AddedPairs(added, PARCEL_DISAPPEARED) == GonePairs(o.identities, plan.gone, OpenParcels(rows, PARCEL_DISAPPEARED))
    && (forall d :: d != APN_UNRESOLVABLE && d != GEOMETRY_DECLARED_GAP && d != PARCEL_DISAPPEARED ==> AddedPairs(added, d) == {})
  }

  ghost predicate UpdatesPlan(o: Observed, visible: set<FeatureId>, c: Changes) {
    && CanCompare(o, visible)
    && ApnCacheRight(o, visible, c.apnCache) && GeomCacheRight(o, visible, c.geomCache)
    && c.resolved == ResolvedParcels(o, visible) && c.reappeared == ReappearedParcels(o, visible)
  }

  /** The identity rows: new ones for new features, a retirement for each that is gone, a touch for each changed. */
  ghost predicate IdentityPlan(t: Tables, staging: Staging, cite: Citation, plan: Plan) {
    && OneLive(t.facts)
    && plan.minted.Keys == NewIds(staging, t.identities) && plan.gone == GoneIds(staging, t.identities)
    && NewRowsPlanned(staging, cite, plan.minted, plan.parcelRows, plan.identityRows)
    && plan.changes.touches == map f | f in ChangedIds(t.facts, staging, t.identities) :: t.identities[f].retiredAt.Some?
  }

  /** The lists are right for the tables and the snapshot. */
  ghost predicate RightPlan(t: Tables, staging: Staging, cite: Citation, plan: Plan) {
    var o := Observed(t.facts, t.identities, staging, cite);
    && Minted(t, staging, plan.minted) && IdentityPlan(t, staging, cite, plan)
    && FactsPlan(t, staging, cite, plan)
    && UpdatesPlan(o, VisibleIds(t, staging), plan.changes)
    && ExceptionsPlan(o, t.exceptions, VisibleIds(t, staging), plan)
  }

  // ------------------------------------------------------------------ the change query is exact

  /** A feature the change query passes over is one the loop would have done nothing about. */
  lemma UnchangedIsIdle(t: Tables, staging: Staging, f: FeatureId)
    requires OneLive(t.facts) && f in VisibleIds(t, staging) && WellRecorded(t.facts, f, t.identities[f])
    requires f !in ChangedIds(t.facts, staging, t.identities)
    ensures t.identities[f].retiredAt.None?
    ensures LiveApn(t.facts, t.identities[f]) == ApnJson(StoredApn(staging[f]))
    ensures LiveGeometry(t.facts, t.identities[f]) == Some(GeometryJson(staging[f].geometry))
    ensures UnresolvableGeometry(staging[f].geometry).None?
  {
    var id, s := t.identities[f], staging[f];
    LiveRowsInRange(t.facts);
    SqlFilterIsWider(s.apn);
  }

  /** And every feature it returns is visible. */
  lemma ChangedAreVisible(t: Tables, staging: Staging)
    requires OneLive(t.facts)
    ensures ChangedIds(t.facts, staging, t.identities) <= VisibleIds(t, staging)
  {
    LiveRowsInRange(t.facts);
  }

  lemma CanCompareVisible(t: Tables, now: Time, staging: Staging, cite: Citation)
    requires Kept(t, now)
    ensures CanCompare(Observed(t.facts, t.identities, staging, cite), VisibleIds(t, staging))
    ensures CanCompare(Observed(t.facts, t.identities, staging, cite), ChangedIds(t.facts, staging, t.identities))
  {
    ChangedAreVisible(t, staging);
  }

  /** The loop has nothing to do about this feature. */
  ghost predicate Idle(o: Observed, f: FeatureId)
    requires o.Knows(f)
  {
    && !ApnMoves(o.facts, o.identities[f], o.staging[f]) && !GeometryMoves(o.facts, o.identities[f], o.staging[f])
    && !o.Resolves(f) && !o.Degrades(f) && o.identities[f].retiredAt.None?
  }

  lemma UnchangedAreIdle(t: Tables, staging: Staging, cite: Citation)
    requires CanCompare(Observed(t.facts, t.identities, staging, cite), VisibleIds(t, staging))
    ensures forall f :: f in VisibleIds(t, staging) && f !in ChangedIds(t.facts, staging, t.identities) ==>
      Idle(Observed(t.facts, t.identities, staging, cite), f)
  {
    forall f | f in VisibleIds(t, staging) && f !in ChangedIds(t.facts, staging, t.identities)
      ensures Idle(Observed(t.facts, t.identities, staging, cite), f)
    {
      UnchangedIsIdle(t, staging, f);
    }
  }

  lemma SameMovers(o: Observed, visible: set<FeatureId>, changed: set<FeatureId>)
    requires changed <= visible && (forall f :: f in visible ==> o.Knows(f)) && forall f :: f in visible && f !in changed ==> Idle(o, f)
    ensures ApnMovers(o, visible) == ApnMovers(o, changed) && GeometryMovers(o, visible) == GeometryMovers(o, changed)
  {
    assert forall f :: f in visible && f !in changed ==> Idle(o, f);
  }

  lemma SameLifecycle(o: Observed, visible: set<FeatureId>, changed: set<FeatureId>)
    requires changed <= visible && (forall f :: f in visible ==> o.Knows(f)) && forall f :: f in visible && f !in changed ==> Idle(o, f)
    ensures ResolvedParcels(o, visible) == ResolvedParcels(o, changed)
    ensures ReappearedParcels(o, visible) == ReappearedParcels(o, changed)
    ensures DegradedPairs(o, visible) == DegradedPairs(o, changed)
  {
    assert forall f :: f in visible && f !in changed ==> Idle(o, f);
  }

  lemma IdleField(t: Tables, staging: Staging, f: FeatureId, field: Field)
    requires OneLive(t.facts) && f in VisibleIds(t, staging) && WellRecorded(t.facts, f, t.identities[f])
    requires f !in ChangedIds(t.facts, staging, t.identities) && field in PARCEL_FIELDS
    ensures SupportedBy(staging)(f, field) == LiveValue(t.facts, FieldKey(t.identities[f].parcel, field))
  {
    UnchangedIsIdle(t, staging, f);
  }

  /** A target over two groups of features, where the second group is wider than what was compared. */
  lemma TargetsJoin(all: map<FeatureId, ParcelId>, minted: map<FeatureId, ParcelId>, known: map<FeatureId, ParcelId>,
                    values: Values, changed: set<FeatureId>, visible: set<FeatureId>, k: Key)
    requires Injective(all) && Injective(minted) && Injective(known)
    requires changed <= visible <= known.Keys && minted.Keys + visible <= all.Keys
    requires (forall f :: f in minted ==> all[f] == minted[f]) && (forall f :: f in visible ==> all[f] == known[f])
    ensures var target := TargetOf(minted, values, minted.Keys) + TargetOf(known, values, changed);
      var full := TargetOf(all, values, minted.Keys + visible);
      && (k in target ==> k in full && full[k] == target[k])
      && (k in full && k !in target ==> exists f ::
            f in visible && f !in changed && k == FieldKey(known[f], k.field) && k.field in PARCEL_FIELDS
            && full[k] == values(f, k.field))
  {
    var features := minted.Keys + visible;
    if k in TargetOf(known, values, changed) {
      var f := OnlyTarget(known, values, changed, k);
      HasTarget(all, values, features, f, k.field);
    } else if k in TargetOf(minted, values, minted.Keys) {
      var f := OnlyTarget(minted, values, minted.Keys, k);
      HasTarget(all, values, features, f, k.field);
    } else if k in TargetOf(all, values, features) {
      var f := OnlyTarget(all, values, features, k);
      if f in minted {
        HasTarget(minted, values, minted.Keys, f, k.field);
      } else if f in changed {
        HasTarget(known, values, changed, f, k.field);
      }
    }
  }

  lemma WidenFacts(t: Tables, now: Time, staging: Staging, minted: map<FeatureId, ParcelId>,
                   retire: set<nat>, rows: seq<NewFact>)
    requires Kept(t, now) && Minted(t, staging, minted) && Injective(AllParcels(t.identities, minted))
    requires ChangedIds(t.facts, staging, t.identities) <= t.identities.Keys
    requires var values := SupportedBy(staging);
      Planned(t.facts, TargetOf(minted, values, minted.Keys)
                       + TargetOf(ParcelsOf(t.identities), values, ChangedIds(t.facts, staging, t.identities)),
              retire, rows)
    ensures Planned(t.facts, FullTarget(t, staging, minted), retire, rows)
  {
    var values, known, all := SupportedBy(staging), ParcelsOf(t.identities), AllParcels(t.identities, minted);
    var changed, visible := ChangedIds(t.facts, staging, t.identities), VisibleIds(t, staging);
    var target := TargetOf(minted, values, minted.Keys) + TargetOf(known, values, changed);
    var full := FullTarget(t, staging, minted);
    ChangedAreVisible(t, staging);
    AllParcelsInjective(t, staging, minted);
    forall k
      ensures k in target ==> k in full && full[k] == target[k]
      ensures k in full && k !in target ==> full[k] == LiveValue(t.facts, k)
    {
      TargetsJoin(all, minted, known, values, changed, visible, k);
      if k in full && k !in target {
        var f :| f in visible && f !in changed && k == FieldKey(known[f], k.field) && k.field in PARCEL_FIELDS
                 && full[k] == values(f, k.field);
        IdleField(t, staging, f, k.field);
      }
    }
    PlanIdle(t.facts, target, retire, rows, full);
  }
}
