/** `load_zoning`: classify every parcel against a zoning snapshot and reconcile. */
module Zoning {
  import opened Schema
  import opened Ledger
  import opened Exceptions
  import opened Classification
  import opened Centroids
  import opened Diff
  import opened Findings
  import opened ZoningModel
  import opened Invariants
  import opened Database

  const ZONING_FIELDS: set<Field> := {ZoningDistrict, ZoningVerbatim}

  function ZoneKey(p: ParcelId, field: Field): Key {
    Key(p, field, ZoningSource)
  }

  function ZoneKeys(scope: set<ParcelId>): set<Key> {
    set p, field | p in scope && field in ZONING_FIELDS :: ZoneKey(p, field)
  }

  function ZoningValue(c: Classified, field: Field): Option<Value> {
    if !c.Matched? then None
    else match field
      case ZoningDistrict => Some(Text(c.zoning))
      case ZoningVerbatim => if c.verbatim.Some? then Some(Text(c.verbatim.value)) else None
      case _ => None
  }

  function WantedZoning(classes: Classes): Wanted {
    (k: Key) => if k.parcel in classes then ZoningValue(classes[k.parcel], k.field) else None
  }

  function ReasonOf(c: Classified): Option<Reason> {
    match c
    case ZeroMatch => Some(NoContainingDistrict)
    case Ambiguous => Some(MultipleContainingDistricts)
    case Matched(_, _, anomaly) => if anomaly.Some? then Some(MultiplePolygonsAgree) else None
  }

  /** `still_true_pairs`. */
  function StillTrue(classes: Classes): set<(ParcelId, Reason)> {
    set p | p in classes && ReasonOf(classes[p]).Some? :: (p, ReasonOf(classes[p]).value)
  }

  function WithReason(pairs: set<(ParcelId, Reason)>): Pairs {
    set x | x in pairs :: (x.0, Some(x.1))
  }

  function BadPairs(bad: set<ParcelId>): set<(ParcelId, Reason)> {
    set p | p in bad :: (p, CentroidNotInteriorAfterFallback)
  }

  // ------------------------------------------------------------------ the diff

  function KeysFor(scope: set<ParcelId>, field: Field): set<Key> {
    set p | p in scope :: ZoneKey(p, field)
  }

  method DiffField(facts: seq<Fact>, live: map<Key, nat>, scope: set<ParcelId>, field: Field, matched: Classes, cite: Citation,
                   retire: set<nat>, rows: seq<NewFact>, ghost keys: set<Key>, ghost wanted: Wanted)
    returns (retire': set<nat>, rows': seq<NewFact>)
    requires OneLive(facts) && PlannedOver(facts, keys, wanted, cite, retire, rows) && keys !! KeysFor(scope, field)
    requires forall p :: p in scope ==>
      && IsLiveTable(facts, live, ZoneKey(p, field))
      && wanted(ZoneKey(p, field)) == if p in matched then ZoningValue(matched[p], field) else None
    ensures PlannedOver(facts, keys + KeysFor(scope, field), wanted, cite, retire', rows')
  {
    retire', rows' := retire, rows;
    var todo := scope;
    ghost var done: set<ParcelId> := {};
    assert keys + KeysFor({}, field) == keys;
    while todo != {}
      invariant todo <= scope && done <= scope && forall p :: p in scope ==> (p in done <==> p !in todo)
      invariant PlannedOver(facts, keys + KeysFor(done, field), wanted, cite, retire', rows')
      decreases todo
    {
      var p :| p in todo;
      var value := if p in matched then ZoningValue(matched[p], field) else None;
      assert ZoneKey(p, field) in KeysFor(scope, field);
      assert ZoneKey(p, field) !in keys + KeysFor(done, field);
      retire', rows' := DiffKey(facts, live, ZoneKey(p, field), value, cite, retire', rows', keys + KeysFor(done, field), wanted);
      assert keys + KeysFor(done, field) + {ZoneKey(p, field)} == keys + KeysFor(done + {p}, field);
      todo, done := todo - {p}, done + {p};
    }
    assert done == scope;
  }

  lemma MatchedSuffices(classes: Classes, matched: Classes, zero: set<ParcelId>, ambiguous: set<ParcelId>, p: ParcelId, field: Field)
    requires Sorted(classes, matched, zero, ambiguous)
    ensures WantedZoning(classes)(ZoneKey(p, field)) == if p in matched then ZoningValue(matched[p], field) else None
  {
  }

  method DiffZoning(facts: seq<Fact>, scope: set<ParcelId>, matched: Classes, cite: Citation,
                    ghost classes: Classes, ghost zero: set<ParcelId>, ghost ambiguous: set<ParcelId>)
    returns (retire: set<nat>, rows: seq<NewFact>)
    requires OneLive(facts) && Sorted(classes, matched, zero, ambiguous)
    ensures PlannedOver(facts, ZoneKeys(scope), WantedZoning(classes), cite, retire, rows)
  {
    var live := LiveRows(facts, ZoningSource, ZONING_FIELDS);
    ghost var wanted := WantedZoning(classes);
    forall p, field | field in ZONING_FIELDS
      ensures IsLiveTable(facts, live, ZoneKey(p, field))
      ensures wanted(ZoneKey(p, field)) == if p in matched then ZoningValue(matched[p], field) else None
    {
      MatchedSuffices(classes, matched, zero, ambiguous, p, field);
    }
    NothingPlannedOver(facts, wanted, cite);
    retire, rows := DiffField(facts, live, scope, ZoningDistrict, matched, cite, {}, [], {}, wanted);
    assert {} + KeysFor(scope, ZoningDistrict) == KeysFor(scope, ZoningDistrict);
    retire, rows := DiffField(facts, live, scope, ZoningVerbatim, matched, cite, retire, rows, KeysFor(scope, ZoningDistrict), wanted);
    assert KeysFor(scope, ZoningDistrict) + KeysFor(scope, ZoningVerbatim) == ZoneKeys(scope);
  }

  // ------------------------------------------------------------------ the findings

  function Anomalous(matched: Classes): set<ParcelId> {
    set p | p in matched && ReasonOf(matched[p]).Some?
  }

  lemma FindingsSplit(classes: Classes, matched: Classes, zero: set<ParcelId>, ambiguous: set<ParcelId>, known: Pairs)
    requires Sorted(classes, matched, zero, ambiguous)
    ensures StillTrue(classes) ==
      (set p | p in zero :: (p, NoContainingDistrict)) + (set p | p in ambiguous :: (p, MultipleContainingDistricts))
      + (set p | p in Anomalous(matched) :: (p, MultiplePolygonsAgree))
    ensures WithReason(StillTrue(classes)) - known ==
      NotOpen(zero, NoContainingDistrict, known) + NotOpen(ambiguous, MultipleContainingDistricts, known)
      + NotOpen(Anomalous(matched), MultiplePolygonsAgree, known)
  {
    forall p, r: Reason ensures (p, r) in StillTrue(classes) <==>
      || (p in zero && r == NoContainingDistrict) || (p in ambiguous && r == MultipleContainingDistricts)
      || (p in Anomalous(matched) && r == MultiplePolygonsAgree)
    {
      assert p in matched ==> matched[p] == classes[p];
    }
    forall p, r: Option<Reason> ensures (p, r) in WithReason(StillTrue(classes)) <==> r.Some? && (p, r.value) in StillTrue(classes) {
      if r.Some? && (p, r.value) in StillTrue(classes) { assert (p, r.value).0 == p; }
    }
  }

  method ListZoning(matched: Classes, zero: set<ParcelId>, ambiguous: set<ParcelId>, known: Pairs, ghost classes: Classes)
    returns (rows: seq<NewException>, stillTrue: set<(ParcelId, Reason)>)
    requires Sorted(classes, matched, zero, ambiguous)
    ensures Lists(rows, ZONING_UNRESOLVABLE, WithReason(StillTrue(classes)) - known) && stillTrue == StillTrue(classes)
  {
    FindingsSplit(classes, matched, zero, ambiguous, known);
    var anomalous := Anomalous(matched);
    stillTrue := (set p | p in zero :: (p, NoContainingDistrict)) + (set p | p in ambiguous :: (p, MultipleContainingDistricts))
      + (set p | p in anomalous :: (p, MultiplePolygonsAgree));
    ListsNothing(ZONING_UNRESOLVABLE);
    rows := AddFindings(zero, NoContainingDistrict, ZONING_UNRESOLVABLE, CoverageGap, known, [], {});
    ghost var first := NotOpen(zero, NoContainingDistrict, known);
    assert {} + first == first;
    rows := AddFindings(ambiguous, MultipleContainingDistricts, ZONING_UNRESOLVABLE, CoverageGap, known, rows, first);
    rows := AddFindings(anomalous, MultiplePolygonsAgree, ZONING_UNRESOLVABLE, CoverageGap, known, rows,
                        first + NotOpen(ambiguous, MultipleContainingDistricts, known));
  }

  method ListCentroids(bad: set<ParcelId>, openParcels: set<ParcelId>) returns (rows: seq<NewException>)
    ensures Lists(rows, CENTROID_NOT_INTERIOR, WithReason(BadPairs(bad - openParcels)))
  {
    ListsNothing(CENTROID_NOT_INTERIOR);
    rows := AddFindings(bad - openParcels, CentroidNotInteriorAfterFallback, CENTROID_NOT_INTERIOR, RecordToGround, {}, [], {});
    CentroidPairs(bad - openParcels);
  }

  lemma CentroidPairs(parcels: set<ParcelId>)
    ensures {} + NotOpen(parcels, CentroidNotInteriorAfterFallback, {}) == WithReason(BadPairs(parcels))
  {
    forall p | p in parcels ensures (p, Some(CentroidNotInteriorAfterFallback)) in WithReason(BadPairs(parcels)) {
      assert (p, CentroidNotInteriorAfterFallback) in BadPairs(parcels);
    }
  }
}
