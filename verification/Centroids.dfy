/** The point a parcel is classified by, with the geometry library as a parameter. */
module Centroids {
  import opened Schema

  /** PostGIS, as far as these statements use it. */
  datatype PostGis = PostGis(
    isValid: Geometry -> bool,
    isEmpty: Geometry -> bool,
    /** The polygonal part of what `ST_MakeValid` makes of a geometry. */
    repaired: Geometry -> Geometry,
    centroid: Geometry -> Point,
    onSurface: Geometry -> Point,
    contains: (Geometry, Point) -> bool)

  /** The `usable` rows of the shared CTE: the geometry itself when it is valid, its
      repair otherwise, unless that is empty or still invalid. */
  function Usable(pg: PostGis, geom: Geometry): Option<Geometry> {
    var g := if pg.isValid(geom) then geom else pg.repaired(geom);
    if !pg.isEmpty(g) && (pg.isValid(geom) || pg.isValid(g)) then Some(g) else None
  }

  function Derived(pg: PostGis, g: Geometry): Point {
    if pg.contains(g, pg.centroid(g)) then pg.centroid(g) else pg.onSurface(g)
  }

  function UsableOf(pg: PostGis, p: Parcel): Option<Geometry> {
    if p.jurisdiction == SanJose && p.geom.Some? then Usable(pg, p.geom.value) else None
  }

  predicate HasInteriorPoint(pg: PostGis, p: Parcel) {
    UsableOf(pg, p).Some? && p.centroid.Some? && pg.contains(UsableOf(pg, p).value, p.centroid.value)
  }

  /** The `UPDATE`. */
  function Recomputed(pg: PostGis, parcels: map<ParcelId, Parcel>): map<ParcelId, Parcel> {
    map p | p in parcels ::
      if UsableOf(pg, parcels[p]).Some? && !HasInteriorPoint(pg, parcels[p])
      then parcels[p].(centroid := Some(Derived(pg, UsableOf(pg, parcels[p]).value)))
      else parcels[p]
  }

  /** The residual `SELECT`. */
  function StillNotInterior(pg: PostGis, parcels: map<ParcelId, Parcel>): set<ParcelId> {
    set p | p in parcels && parcels[p].jurisdiction == SanJose && parcels[p].geom.Some? && !HasInteriorPoint(pg, parcels[p])
  }

  /** After the update a parcel of the jurisdiction that has a geometry is left over
      exactly when the geometry cannot be used, or even the fallback point is outside it. */
  lemma LeftOverExactly(pg: PostGis, parcels: map<ParcelId, Parcel>, p: ParcelId)
    requires p in parcels && parcels[p].jurisdiction == SanJose && parcels[p].geom.Some?
    ensures p in StillNotInterior(pg, Recomputed(pg, parcels)) <==>
      match Usable(pg, parcels[p].geom.value)
      case None => true
      case Some(g) => !HasInteriorPoint(pg, parcels[p]) && !pg.contains(g, pg.centroid(g)) && !pg.contains(g, pg.onSurface(g))
  {
  }

  /** Nothing but centroids of the jurisdiction's own parcels moves, and running it again moves nothing. */
  lemma RecomputedIsStable(pg: PostGis, parcels: map<ParcelId, Parcel>)
    ensures Recomputed(pg, parcels).Keys == parcels.Keys
    ensures forall p :: p in parcels ==>
      Recomputed(pg, parcels)[p] == parcels[p].(centroid := Recomputed(pg, parcels)[p].centroid)
    ensures forall p :: p in parcels && parcels[p].jurisdiction != SanJose ==> Recomputed(pg, parcels)[p] == parcels[p]
    ensures Recomputed(pg, Recomputed(pg, parcels)) == Recomputed(pg, parcels)
  {
  }
}
