/** What one zoning snapshot says about the parcels, and the loops that work it out. */
module ZoningModel {
  import opened Schema
  import opened Ledger
  import opened Classification
  import opened Centroids
  import opened Diff

  datatype ZoneFeature = ZoneFeature(facility: string, zoning: Option<string>, verbatim: Option<string>, geometry: GeometryProperty)

  /** Every feature can be staged: a missing geometry member is a `KeyError`, and a null one
      is refused by `ST_GeomFromGeoJSON`. */
  predicate Stageable(features: seq<ZoneFeature>) {
    forall i :: 0 <= i < |features| ==> features[i].geometry.Present?
  }

  function CandidateOf(f: ZoneFeature): Candidate {
    Candidate(f.facility, f.zoning, f.verbatim)
  }

  predicate Covers(pg: PostGis, f: ZoneFeature, point: Point)
    requires f.geometry.Present?
  {
    pg.contains(pg.repaired(f.geometry.geometry), point)
  }

  /** The polygons that contain a point. */
  function CandidatesAt(pg: PostGis, features: seq<ZoneFeature>, point: Point): seq<Candidate>
    requires Stageable(features)
  {
    if features == [] then []
    else
      var n := |features| - 1;
      CandidatesAt(pg, features[..n], point) + if Covers(pg, features[n], point) then [CandidateOf(features[n])] else []
  }

  type Districts = Point -> Classified

  function DistrictsOf(pg: PostGis, features: seq<ZoneFeature>): Districts
    requires Stageable(features)
  {
    point => Classify(CandidatesAt(pg, features, point))
  }

  /** `all_parcel_ids`: a parcel without a centroid is not one of them. */
  function Scope(parcels: map<ParcelId, Parcel>): set<ParcelId> {
    set p | p in parcels && parcels[p].jurisdiction == SanJose && parcels[p].centroid.Some?
  }

  type Classes = map<ParcelId, Classified>

  function ClassesOf(parcels: map<ParcelId, Parcel>, bad: set<ParcelId>, districts: Districts): Classes {
    map p | p in parcels && p in Scope(parcels) && p !in bad :: districts(parcels[p].centroid.value)
  }

  // ------------------------------------------------------------------ the spatial join

  type JoinRow = (ParcelId, Candidate)

  function BagOf(rows: seq<JoinRow>, p: ParcelId): multiset<Candidate> {
    if rows == [] then multiset{}
    else
      var n := |rows| - 1;
      BagOf(rows[..n], p) + if rows[n].0 == p then multiset{rows[n].1} else multiset{}
  }

  lemma {:induction false} BagGrows(rows: seq<JoinRow>, row: JoinRow, p: ParcelId)
    ensures BagOf(rows + [row], p) == BagOf(rows, p) + if row.0 == p then multiset{row.1} else multiset{}
  {
    assert (rows + [row])[..|rows|] == rows;
  }

  type Bags = map<ParcelId, multiset<Candidate>>

  /** Each parcel in scope with the polygons containing its point. */
  ghost function OwnBags(pg: PostGis, features: seq<ZoneFeature>, parcels: map<ParcelId, Parcel>): Bags
    requires Stageable(features)
  {
    map p | p in Scope(parcels) :: multiset(CandidatesAt(pg, features, parcels[p].centroid.value))
  }

  /** The rows hold, for the parcels done, exactly their own polygons. */
  ghost predicate JoinedTo(rows: seq<JoinRow>, own: Bags, done: set<ParcelId>)
    requires done <= own.Keys
  {
    forall p :: BagOf(rows, p) == if p in done then own[p] else multiset{}
  }

  ghost predicate Joined(rows: seq<JoinRow>, pg: PostGis, features: seq<ZoneFeature>, parcels: map<ParcelId, Parcel>, done: set<ParcelId>)
    requires Stageable(features) && done <= Scope(parcels)
  {
    JoinedTo(rows, OwnBags(pg, features, parcels), done)
  }

  /** The bags after one parcel has met some candidates: its own has grown by them, the others are as they were. */
  ghost predicate MetBy(rows: seq<JoinRow>, rows': seq<JoinRow>, p: ParcelId, met: seq<Candidate>) {
    forall q :: BagOf(rows', q) == BagOf(rows, q) + if q == p then multiset(met) else multiset{}
  }

  lemma JoinedOneMore(rows: seq<JoinRow>, rows': seq<JoinRow>, own: Bags, done: set<ParcelId>, p: ParcelId, met: seq<Candidate>)
    requires done + {p} <= own.Keys && p !in done && JoinedTo(rows, own, done)
    requires MetBy(rows, rows', p, met) && own[p] == multiset(met)
    ensures JoinedTo(rows', own, done + {p})
  {
  }

  /** Each parcel in scope with the polygons containing its point, in some order. */
  method Join(pg: PostGis, features: seq<ZoneFeature>, parcels: map<ParcelId, Parcel>, bad: set<ParcelId>)
    returns (rows: seq<JoinRow>)
    requires Stageable(features)
    ensures Joined(rows, pg, features, parcels, Scope(parcels) - bad)
  {
    rows := [];
    var todo := Scope(parcels) - bad;
    ghost var own, done: set<ParcelId> := OwnBags(pg, features, parcels), {};
    while todo != {}
      invariant todo !! done && todo + done == Scope(parcels) - bad
      invariant JoinedTo(rows, own, done)
      decreases todo
    {
      var p :| p in todo;
      var point := parcels[p].centroid.value;
      var more := JoinOne(pg, features, p, point, rows);
      JoinedOneMore(rows, more, own, done, p, CandidatesAt(pg, features, point));
      rows, todo, done := more, todo - {p}, done + {p};
    }
    assert todo + done == done;
  }

  lemma MeetsOneMoreOf(rows: seq<JoinRow>, rows': seq<JoinRow>, p: ParcelId, met: seq<Candidate>, c: Candidate, q: ParcelId)
    requires BagOf(rows', q) == BagOf(rows, q) + if q == p then multiset(met) else multiset{}
    ensures BagOf(rows' + [(p, c)], q) == BagOf(rows, q) + if q == p then multiset(met + [c]) else multiset{}
  {
    BagGrows(rows', (p, c), q);
    assert multiset(met + [c]) == multiset(met) + multiset{c};
  }

  lemma MeetsOneMore(rows: seq<JoinRow>, rows': seq<JoinRow>, p: ParcelId, met: seq<Candidate>, c: Candidate)
    requires MetBy(rows, rows', p, met)
    ensures MetBy(rows, rows' + [(p, c)], p, met + [c])
  {
    forall q ensures BagOf(rows' + [(p, c)], q) == BagOf(rows, q) + if q == p then multiset(met + [c]) else multiset{} {
      MeetsOneMoreOf(rows, rows', p, met, c, q);
    }
  }

  lemma CandidatesStep(pg: PostGis, features: seq<ZoneFeature>, i: nat, point: Point)
    requires i < |features| && Stageable(features)
    ensures Stageable(features[..i]) && Stageable(features[..i + 1])
    ensures CandidatesAt(pg, features[..i + 1], point) ==
      CandidatesAt(pg, features[..i], point) + if Covers(pg, features[i], point) then [CandidateOf(features[i])] else []
  {
    assert features[..i + 1][..i] == features[..i];
  }

  lemma MeetsNothing(rows: seq<JoinRow>, p: ParcelId)
    ensures MetBy(rows, rows, p, [])
  {
  }

  method JoinOne(pg: PostGis, features: seq<ZoneFeature>, p: ParcelId, point: Point, rows: seq<JoinRow>) returns (rows': seq<JoinRow>)
    requires Stageable(features)
    ensures MetBy(rows, rows', p, CandidatesAt(pg, features, point))
  {
    rows' := rows;
    MeetsNothing(rows, p);
    for i := 0 to |features|
      invariant MetBy(rows, rows', p, CandidatesAt(pg, features[..i], point))
    {
      CandidatesStep(pg, features, i, point);
      if Covers(pg, features[i], point) {
        MeetsOneMore(rows, rows', p, CandidatesAt(pg, features[..i], point), CandidateOf(features[i]));
        rows' := rows' + [(p, CandidateOf(features[i]))];
      }
    }
    assert features[..|features|] == features;
  }

  type Groups = map<ParcelId, seq<Candidate>>

  function GroupOf(groups: Groups, p: ParcelId): seq<Candidate> {
    if p in groups then groups[p] else []
  }

  /** `by_parcel.setdefault(parcel_id, []).append(...)`. */
  method GroupByParcel(rows: seq<JoinRow>) returns (groups: Groups)
    ensures forall p :: multiset(GroupOf(groups, p)) == BagOf(rows, p)
  {
    groups := map[];
    for i := 0 to |rows|
      invariant forall p :: multiset(GroupOf(groups, p)) == BagOf(rows[..i], p)
    {
      assert rows[..i + 1] == rows[..i] + [rows[i]];
      forall p ensures BagOf(rows[..i + 1], p) == BagOf(rows[..i], p) + if rows[i].0 == p then multiset{rows[i].1} else multiset{} {
        BagGrows(rows[..i], rows[i], p);
      }
      groups := groups[rows[i].0 := GroupOf(groups, rows[i].0) + [rows[i].1]];
    }
    assert rows[..|rows|] == rows;
  }

  // ------------------------------------------------------------------ classifying every parcel

  ghost predicate Sorted(classes: Classes, matched: Classes, zero: set<ParcelId>, ambiguous: set<ParcelId>) {
    && matched == (map p | p in classes && classes[p].Matched? :: classes[p])
    && zero == (set p | p in classes && classes[p].ZeroMatch?)
    && ambiguous == (set p | p in classes && classes[p].Ambiguous?)
  }

  lemma SortedGrows(seen: Classes, matched: Classes, zero: set<ParcelId>, ambiguous: set<ParcelId>, p: ParcelId, c: Classified)
    requires Sorted(seen, matched, zero, ambiguous) && p !in seen
    ensures Sorted(seen[p := c], if c.Matched? then matched[p := c] else matched,
                   if c.ZeroMatch? then zero + {p} else zero, if c.Ambiguous? then ambiguous + {p} else ambiguous)
  {
    var more := seen[p := c];
    assert forall q :: q in more <==> q == p || q in seen;
    assert forall q :: q in seen ==> more[q] == seen[q];
  }

  /** The loop over `all_parcel_ids`, which passes over the parcels left without an interior point. */
  method ClassifyAll(scope: set<ParcelId>, bad: set<ParcelId>, groups: Groups, ghost classes: Classes)
    returns (matched: Classes, zero: set<ParcelId>, ambiguous: set<ParcelId>)
    requires classes.Keys == scope - bad && forall p :: p in classes ==> Classify(GroupOf(groups, p)) == classes[p]
    ensures Sorted(classes, matched, zero, ambiguous)
  {
    matched, zero, ambiguous := map[], {}, {};
    var todo := scope;
    ghost var seen: Classes := map[];
    while todo != {}
      invariant todo <= scope && Sorted(seen, matched, zero, ambiguous)
      invariant (forall p :: p in seen <==> p in classes && p !in todo) && forall p :: p in seen ==> seen[p] == classes[p]
      decreases todo
    {
      var p :| p in todo;
      todo := todo - {p};
      if p !in bad {
        var c := Classify(GroupOf(groups, p));
        SortedGrows(seen, matched, zero, ambiguous, p, c);
        seen := seen[p := c];
        match c {
          case ZeroMatch => zero := zero + {p};
          case Ambiguous => ambiguous := ambiguous + {p};
          case Matched(_, _, _) => matched := matched[p := c];
        }
      }
    }
    assert seen == classes;
  }
}
