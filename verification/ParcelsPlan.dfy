/** The three loops of the parcels reconcile.  They only fill lists; nothing is
    written until all three are done. */
module ParcelsPlan {
  import opened Schema
  import opened Ledger
  import opened Exceptions
  import opened Identifiers
  import opened ParcelsModel
  import opened ParcelsLists

  /** A value for a key nothing live holds, or none. */
  method AddFirst(ghost ledger: seq<Fact>, ghost target: Target, rows: seq<NewFact>,
                  k: Key, v: Option<Value>, verbatim: Option<string>, cite: Citation,
                  ghost staging: Staging, ghost all: ParcelMap, ghost f: FeatureId) returns (rows': seq<NewFact>)
    requires OneLive(ledger) && Planned(ledger, target, {}, rows) && k !in target && LiveId(ledger, k).None?
    requires Cites(rows, cite) && AllVerbatim(rows, staging, all) && KeepsVerbatim(staging, all, k, verbatim, f)
    ensures Planned(ledger, target[k := v], {}, rows') && Cites(rows', cite) && AllVerbatim(rows', staging, all)
  {
    rows' := rows;
    if v.Some? {
      rows' := rows + [NewFact(k, v.value, cite.snapshot, cite.retrievedAt, verbatim, None, {})];
      VerbatimOneMore(rows, staging, all, rows'[|rows|], f);
      assert rows'[..|rows|] == rows;
      assert RowFits(ledger, map[k := v], rows'[|rows|]);
    }
    PlanStep(ledger, target, {}, rows, k, v, {}, rows');
  }

  /** One new feature: its two or three facts. */
  method NewFacts(ghost ledger: seq<Fact>, staging: Staging, cite: Citation, ghost minted: map<FeatureId, ParcelId>,
                  rows: seq<NewFact>, f: FeatureId, p: ParcelId) returns (rows': seq<NewFact>)
    requires OneLive(ledger) && f in staging && f !in minted && minted.Keys <= staging.Keys && Injective(minted)
    requires forall g :: g in minted ==> minted[g] != p
    requires forall i {:trigger ledger[i]} :: 0 <= i < |ledger| ==> ledger[i].key.parcel != p
    requires Planned(ledger, TargetOf(minted, SupportedBy(staging), minted.Keys), {}, rows)
    requires Cites(rows, cite) && AllVerbatim(rows, staging, minted)
    ensures Injective(minted[f := p])
    ensures Planned(ledger, TargetOf(minted[f := p], SupportedBy(staging), minted.Keys + {f}), {}, rows')
    ensures Cites(rows', cite) && AllVerbatim(rows', staging, minted[f := p])
  {
    ghost var values := SupportedBy(staging);
    ghost var target := TargetOf(minted, values, minted.Keys);
    SameTarget(minted, minted[f := p], values, minted.Keys);
    TargetGrows(minted[f := p], values, minted.Keys, f);
    ghost var all := minted[f := p];
    VerbatimGrows(rows, staging, minted, all);

    var s := staging[f];
    rows' := AddFirst(ledger, target, rows, FieldKey(p, GeometryField),
                      if UnresolvableGeometry(s.geometry).None? then Some(Shape(s.geometry.value)) else None, None, cite,
                      staging, all, f);
    rows' := AddFirst(ledger, target[FieldKey(p, GeometryField) := values(f, GeometryField)],
                      rows', FieldKey(p, SourceParcelId), Some(Text(f)), None, cite, staging, all, f);
    rows' := AddFirst(ledger, target[FieldKey(p, GeometryField) := values(f, GeometryField)]
                                    [FieldKey(p, SourceParcelId) := values(f, SourceParcelId)],
                      rows', FieldKey(p, Apn),
                      if UnresolvableApn(s.apn).None? then Some(Text(Canonical(s.apn.value))) else None, s.apn, cite,
                      staging, all, f);
  }

  /** An exception for a parcel nothing in the plan mentions yet under this detector. */
  method AddException(added: seq<NewException>, row: NewException) returns (added': seq<NewException>)
    requires NoRepeats(added) && !Mentions(AddedPairs(added, row.detector), row.parcel)
    ensures added' == added + [row] && NoRepeats(added')
    ensures forall d ::
      AddedPairs(added', d) == AddedPairs(added, d) + if row.detector == d then {(row.parcel, row.reason)} else {}
  {
    added' := added + [row];
    forall d
      ensures AddedPairs(added', d) == AddedPairs(added, d) + if row.detector == d then {(row.parcel, row.reason)} else {}
    {
      PlanException(added, row, d);
    }
  }

  /** The exception for the reason, if there is one. */
  method AddReason(p: ParcelId, d: Detector, reason: Option<Reason>, ghost first: ParcelId, added: seq<NewException>)
    returns (added': seq<NewException>)
    requires NoRepeats(added) && FreshRows(added, first, p + 1) && first <= p && !Mentions(AddedPairs(added, d), p)
    requires KindOf(d.key) == CoverageGap
    ensures NoRepeats(added') && FreshRows(added', first, p + 1)
    ensures AddedPairs(added', d) == AddedPairs(added, d) + if reason.Some? then {(p, reason)} else {}
    ensures forall e :: e != d ==> AddedPairs(added', e) == AddedPairs(added, e)
  {
    added' := added;
    if reason.Some? { added' := AddException(added, ParcelException(p, d, CoverageGap, reason.value)); }
  }

  /** One new feature: at most one exception for its geometry and one for its number. */
  method NewExceptions(s: Staged, p: ParcelId, ghost first: ParcelId, added: seq<NewException>)
    returns (added': seq<NewException>)
    requires NoRepeats(added) && FreshRows(added, first, p) && first <= p
    ensures NoRepeats(added') && FreshRows(added', first, p + 1)
    ensures AddedPairs(added', GEOMETRY_DECLARED_GAP) == AddedPairs(added, GEOMETRY_DECLARED_GAP) +
      if UnresolvableGeometry(s.geometry).Some? then {(p, UnresolvableGeometry(s.geometry))} else {}
    ensures AddedPairs(added', APN_UNRESOLVABLE) == AddedPairs(added, APN_UNRESOLVABLE) +
      if UnresolvableApn(s.apn).Some? then {(p, UnresolvableApn(s.apn))} else {}
    ensures forall d :: d != APN_UNRESOLVABLE && d != GEOMETRY_DECLARED_GAP ==> AddedPairs(added', d) == AddedPairs(added, d)
  {
    FreshIsUnmentioned(added, first, p, GEOMETRY_DECLARED_GAP);
    FreshIsUnmentioned(added, first, p, APN_UNRESOLVABLE);
    added' := AddReason(p, GEOMETRY_DECLARED_GAP, UnresolvableGeometry(s.geometry), first, added);
    added' := AddReason(p, APN_UNRESOLVABLE, UnresolvableApn(s.apn), first, added');
  }

  /** NEW: a parcel, an identity and initial facts for each; no supersession. */
  method PlanNew(newIds: set<FeatureId>, staging: Staging, cite: Citation, first: ParcelId, ghost ledger: seq<Fact>)
    returns (minted: map<FeatureId, ParcelId>, parcelRows: map<ParcelId, Parcel>, identityRows: map<FeatureId, Identity>,
             rows: seq<NewFact>, exceptionRows: seq<NewException>, next: ParcelId)
    requires newIds <= staging.Keys && OneLive(ledger)
    requires forall i {:trigger ledger[i]} :: 0 <= i < |ledger| ==> ledger[i].key.parcel < first
    ensures minted.Keys == newIds && FreshIds(minted, first, next)
    ensures NewFactsPlanned(ledger, staging, cite, minted, rows)
    ensures NewRowsPlanned(staging, cite, minted, parcelRows, identityRows)
    ensures NewExceptionsPlanned(staging, first, next, minted, exceptionRows)
  {
    minted, parcelRows, identityRows, rows, exceptionRows, next := map[], map[], map[], [], [], first;
    var todo := newIds;
    NothingNew(ledger, staging, cite, first);
    while todo != {}
      invariant todo <= newIds && minted.Keys == newIds - todo && FreshIds(minted, first, next)
      invariant NewFactsPlanned(ledger, staging, cite, minted, rows)
      invariant NewRowsPlanned(staging, cite, minted, parcelRows, identityRows)
      invariant NewExceptionsPlanned(staging, first, next, minted, exceptionRows)
      decreases todo
    {
      var f :| f in todo;
      minted, parcelRows, identityRows, rows, exceptionRows, next :=
        NewFeature(f, staging, cite, first, ledger, minted, parcelRows, identityRows, rows, exceptionRows, next);
      todo := todo - {f};
    }
  }

  lemma NothingNew(ledger: seq<Fact>, staging: Staging, cite: Citation, first: ParcelId)
    ensures FreshIds(map[], first, first)
    ensures NewFactsPlanned(ledger, staging, cite, map[], [])
    ensures NewRowsPlanned(staging, cite, map[], map[], map[])
    ensures NewExceptionsPlanned(staging, first, first, map[], [])
  {
    var none: map<FeatureId, ParcelId> := map[];
    NothingPlanned(ledger);
    assert TargetOf(none, SupportedBy(staging), {}) == map[];
  }

  /** The body of that loop. */
  method NewFeature(f: FeatureId, staging: Staging, cite: Citation, ghost first: ParcelId, ghost ledger: seq<Fact>,
                    minted: map<FeatureId, ParcelId>, parcelRows: map<ParcelId, Parcel>,
                    identityRows: map<FeatureId, Identity>, rows: seq<NewFact>, exceptionRows: seq<NewException>,
                    next: ParcelId)
    returns (minted': map<FeatureId, ParcelId>, parcelRows': map<ParcelId, Parcel>,
             identityRows': map<FeatureId, Identity>, rows': seq<NewFact>, exceptionRows': seq<NewException>,
             next': ParcelId)
    requires f in staging && f !in minted && minted.Keys <= staging.Keys && OneLive(ledger)
    requires forall i {:trigger ledger[i]} :: 0 <= i < |ledger| ==> ledger[i].key.parcel < first
    requires FreshIds(minted, first, next) && NewFactsPlanned(ledger, staging, cite, minted, rows)
    requires NewRowsPlanned(staging, cite, minted, parcelRows, identityRows)
    requires NewExceptionsPlanned(staging, first, next, minted, exceptionRows)
    ensures minted' == minted[f := next] && FreshIds(minted', first, next')
    ensures NewFactsPlanned(ledger, staging, cite, minted', rows')
    ensures NewRowsPlanned(staging, cite, minted', parcelRows', identityRows')
    ensures NewExceptionsPlanned(staging, first, next', minted', exceptionRows')
  {
    PairsGrow(minted, staging, f, next);
    RowsGrow(staging, cite, minted, parcelRows, identityRows, f, next);
    rows' := NewFacts(ledger, staging, cite, minted, rows, f, next);
    exceptionRows' := NewExceptions(staging[f], next, first, exceptionRows);
    parcelRows' := parcelRows[next := NewParcel(staging[f])];
    identityRows' := identityRows[f := NewIdentity(next, cite)];
    minted' := minted[f := next];
    next' := next + 1;
    assert minted.Keys + {f} == minted'.Keys;
  }

  /** The apn half of the loop body: degrade, replace or resolve. */
  method ChangedApn(o: Observed, f: FeatureId, live: map<Key, nat>, retire: set<nat>, rows: seq<NewFact>,
                    exceptions: seq<NewException>, ghost all: ParcelMap)
    returns (retire': set<nat>, rows': seq<NewFact>, exceptions': seq<NewException>,
             moved: bool, had: bool)
    requires CanCompare(o, {f}) && live == LiveParcelFacts(o.facts)
    requires Cites(rows, o.cite) && AllVerbatim(rows, o.staging, all) && f in all && all[f] == o.identities[f].parcel
    requires NoRepeats(exceptions) && !Mentions(AddedPairs(exceptions, APN_UNRESOLVABLE), o.identities[f].parcel)
    ensures moved <==> ApnMoves(o.facts, o.identities[f], o.staging[f])
    ensures had <==> LiveApn(o.facts, o.identities[f]).Some?
    ensures FieldStep(o.facts, FieldKey(o.identities[f].parcel, Apn), ApnJson(StoredApn(o.staging[f])),
                      retire, rows, retire', rows')
    ensures Cites(rows', o.cite) && AllVerbatim(rows', o.staging, all)
    ensures NoRepeats(exceptions') && exceptions' == exceptions +
      if o.Degrades(f)
      then [ParcelException(o.identities[f].parcel, APN_UNRESOLVABLE, CoverageGap, UnresolvableApn(o.staging[f].apn).value)]
      else []
  {
    var p, s := o.identities[f].parcel, o.staging[f];
    var k := FieldKey(p, Apn);
    LiveRowsInRange(o.facts);
    ApnTestIsExact(o.facts, f, o.identities[f], s);
    var reason := UnresolvableApn(s.apn);
    var canonical := Canonicalize(s.apn);
    retire', rows', exceptions' := retire, rows, exceptions;
    had := k in live;
    if had {
      moved := Some(o.facts[live[k]].value) != ApnJson(canonical);
    } else {
      moved := reason.None?;
    }
    if moved {
      if had && reason.Some? {
        retire' := retire + {live[k]};
        exceptions' := AddException(exceptions, ParcelException(p, APN_UNRESOLVABLE, CoverageGap, reason.value));
      } else if had {
        retire' := retire + {live[k]};
        rows' := rows + [ParcelFact(p, Apn, Text(canonical.value), s.apn, Some(live[k]), o.cite)];
        VerbatimOneMore(rows, o.staging, all, rows'[|rows|], f);
      } else {
        rows' := rows + [ParcelFact(p, Apn, Text(canonical.value), s.apn, None, o.cite)];
        VerbatimOneMore(rows, o.staging, all, rows'[|rows|], f);
      }
    }
  }

  /** The geometry half.  Unlike the NEW loop, it does not ask whether the geometry can be stored. */
  method ChangedGeometry(o: Observed, f: FeatureId, live: map<Key, nat>, retire: set<nat>, rows: seq<NewFact>, ghost all: ParcelMap)
    returns (retire': set<nat>, rows': seq<NewFact>, moved: bool)
    requires CanCompare(o, {f}) && live == LiveParcelFacts(o.facts)
    requires Cites(rows, o.cite) && AllVerbatim(rows, o.staging, all) && f in all && all[f] == o.identities[f].parcel
    ensures moved <==> GeometryMoves(o.facts, o.identities[f], o.staging[f])
    ensures FieldStep(o.facts, FieldKey(o.identities[f].parcel, GeometryField), Some(GeometryJson(o.staging[f].geometry)),
                      retire, rows, retire', rows')
    ensures Cites(rows', o.cite) && AllVerbatim(rows', o.staging, all)
  {
    var p, g := o.identities[f].parcel, o.staging[f].geometry;
    var k := FieldKey(p, GeometryField);
    LiveRowsInRange(o.facts);
    retire', rows' := retire, rows;
    moved := o.facts[live[k]].value != GeometryJson(g);
    if moved {
      retire' := retire + {live[k]};
      rows' := rows + [ParcelFact(p, GeometryField, GeometryJson(g), None, Some(live[k]), o.cite)];
      VerbatimOneMore(rows, o.staging, all, rows'[|rows|], f);
    }
  }

  /** The body of the CHANGED loop: identity touch, apn, geometry. */
  method ChangedFeature(o: Observed, ghost base: Target, ghost all: ParcelMap, ghost listed: seq<NewException>, ghost done: set<FeatureId>,
                        live: map<Key, nat>, c: Changes, f: FeatureId) returns (c': Changes)
    requires CanCompare(o, done + {f}) && f !in done && live == LiveParcelFacts(o.facts)
    requires ApartFrom(base, o.identities) && NewParcelsOnly(o, listed) && f in all && all[f] == o.identities[f].parcel
    requires ChangedSoFar(o, base, all, listed, done, c)
    ensures ChangedSoFar(o, base, all, listed, done + {f}, c')
  {
    var id, s := o.identities[f], o.staging[f];
    var p := id.parcel;
    NotYetMentioned(o, listed, done, c, f);
    var retire1, rows1, exceptions, apnMoved, had := ChangedApn(o, f, live, c.retire, c.rows, c.exceptions, all);
    var retire2, rows2, geometryMoved := ChangedGeometry(o, f, live, retire1, rows1, all);
    c' := After(c, id, s, f, retire2, rows2, exceptions, apnMoved, had, geometryMoved);
    CachesGrow(o, done, c, f, retire2, rows2, exceptions, apnMoved, had, geometryMoved);
    AcceptedShrinks(o, done, c, f, geometryMoved, c');
    FactsGrow(o, base, all, done, c, f, retire1, rows1, c');
    ExceptionsGrow(o, listed, done, c, f, c');
  }

  /** CHANGED and reappeared features, in whatever order the query returns them. */
  method PlanChanged(o: Observed, changed: set<FeatureId>, rows: seq<NewFact>, listed: seq<NewException>,
                     ghost base: Target, ghost all: ParcelMap) returns (c: Changes)
    requires CanCompare(o, changed) && ApartFrom(base, o.identities) && NewParcelsOnly(o, listed)
    requires Planned(o.facts, base, {}, rows) && Cites(rows, o.cite) && AllVerbatim(rows, o.staging, all)
    requires forall f :: f in changed ==> f in all && all[f] == o.identities[f].parcel
    requires NoRepeats(listed) && Regular(listed)
    ensures ChangedSoFar(o, base, all, listed, changed, c)
  {
    var live := LiveParcelFacts(o.facts);
    c := Changes({}, rows, listed, map[], map[], map[], {}, {});
    var todo := changed;
    ghost var done := {};
    Untouched(o, base, all, rows, listed);
    while todo != {}
      invariant todo <= changed && done <= changed && forall f :: f in changed ==> (f in done <==> f !in todo)
      invariant ChangedSoFar(o, base, all, listed, done, c)
      decreases todo
    {
      var f :| f in todo;
      assert done + {f} <= changed;
      c := ChangedFeature(o, base, all, listed, done, live, c, f);
      todo, done := todo - {f}, done + {f};
    }
    assert done == changed;
  }

  /** DISAPPEARED: one exception each, unless one is open already.  Nothing else is written. */
  method PlanGone(identities: map<FeatureId, Identity>, gone: set<FeatureId>, open: set<ParcelId>,
                  listed: seq<NewException>) returns (exceptions: seq<NewException>)
    requires gone <= identities.Keys && Injective(ParcelsOf(identities))
    requires NoRepeats(listed) && Regular(listed) && AddedPairs(listed, PARCEL_DISAPPEARED) == {}
    ensures NoRepeats(exceptions) && Regular(exceptions)
    ensures AddedPairs(exceptions, PARCEL_DISAPPEARED) == GonePairs(identities, gone, open)
    ensures forall d :: d != PARCEL_DISAPPEARED ==> AddedPairs(exceptions, d) == AddedPairs(listed, d)
  {
    exceptions := listed;
    var todo := gone;
    while todo != {}
      invariant todo <= gone && NoRepeats(exceptions) && Regular(exceptions)
      invariant AddedPairs(exceptions, PARCEL_DISAPPEARED) == GonePairs(identities, gone - todo, open)
      invariant forall d :: d != PARCEL_DISAPPEARED ==> AddedPairs(exceptions, d) == AddedPairs(listed, d)
      decreases todo
    {
      var f :| f in todo;
      var p := identities[f].parcel;
      GonePairsGrow(identities, gone - todo, open, f);
      assert gone - (todo - {f}) == gone - todo + {f};
      if p !in open {
        exceptions := AddException(exceptions, ParcelException(p, PARCEL_DISAPPEARED, RecordToGround, AbsentFromSnapshot));
      }
      todo := todo - {f};
    }
    assert gone - {} == gone;
  }
}
