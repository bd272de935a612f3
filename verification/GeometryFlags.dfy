/** Flagging parcels whose stored geometry is invalid: the same lifecycle, keyed on the parcel alone. */
module GeometryFlags {
  import opened Schema
  import opened Exceptions
  import opened Findings
  import opened Invariants
  import opened Centroids
  import opened Database

  const GEOMETRY_INVALID := Detector(ParcelGeometryInvalid, Version(1, 0))

  /** `ST_IsValidReason`: never the empty text. */
  type Reasons = Geometry -> string

  function Invalid(pg: PostGis, parcels: map<ParcelId, Parcel>): set<ParcelId> {
    set p | p in parcels && parcels[p].geom.Some? && !pg.isValid(parcels[p].geom.value)
  }

  function InvalidReason(why: Reasons, p: Parcel): Option<Reason>
    requires p.geom.Some?
  {
    Some(OtherReason(why(p.geom.value)))
  }

  /** What is wrong now with each of these parcels. */
  function Faults(pg: PostGis, why: Reasons, parcels: map<ParcelId, Parcel>, these: set<ParcelId>): Pairs
    requires these <= Invalid(pg, parcels)
  {
    set p | p in these :: (p, InvalidReason(why, parcels[p]))
  }

  method ListFaults(pg: PostGis, why: Reasons, parcels: map<ParcelId, Parcel>, open: set<ParcelId>)
      returns (added: seq<NewException>)
    requires forall g :: why(g) != ""
    ensures Lists(added, GEOMETRY_INVALID, Faults(pg, why, parcels, Invalid(pg, parcels) - open))
  {
    var invalid := Invalid(pg, parcels);
    var todo := invalid - open;
    ghost var done: set<ParcelId> := {};
    added := [];
    assert Faults(pg, why, parcels, {}) == {};
    while todo != {}
      invariant todo <= invalid - open && done == (invalid - open) - todo
      invariant Lists(added, GEOMETRY_INVALID, Faults(pg, why, parcels, done))
      decreases todo
    {
      var p :| p in todo;
      var row := NewException(p, GEOMETRY_INVALID, RecordToGround, InvalidReason(why, parcels[p]), None);
      PlanException(added, row, GEOMETRY_INVALID);
      assert Faults(pg, why, parcels, done + {p}) == Faults(pg, why, parcels, done) + {(p, row.reason)};
      assert !Mentions(Faults(pg, why, parcels, done), p);
      todo, done, added := todo - {p}, done + {p}, added + [row];
    }
    assert done == invalid - open;
  }

  /** Insert what is newly invalid, then close what no longer is. */
  function FlagLifecycle(rows: Rows, added: seq<NewException>, resolved: set<ParcelId>, at: Time): Rows {
    var r := Append(rows, added);
    Close(r, OfParcels(r, GEOMETRY_INVALID, resolved), ConditionCleared, ByDetector(ParcelGeometryInvalid), at)
  }

  ghost predicate Flagged(rows: Rows, after: Rows, pg: PostGis, why: Reasons, parcels: map<ParcelId, Parcel>,
                          added: seq<NewException>, at: Time)
  {
    var open := OpenParcels(rows, GEOMETRY_INVALID);
    && Lists(added, GEOMETRY_INVALID, Faults(pg, why, parcels, Invalid(pg, parcels) - open))
    && after == FlagLifecycle(rows, added, open - Invalid(pg, parcels), at)
  }

  lemma FlagsCanBeAdded(rows: Rows, pg: PostGis, why: Reasons, parcels: map<ParcelId, Parcel>, added: seq<NewException>)
    requires Lists(added, GEOMETRY_INVALID, Faults(pg, why, parcels, Invalid(pg, parcels) - OpenParcels(rows, GEOMETRY_INVALID)))
    ensures CanAdd(rows, added)
  {
    forall p: ParcelId, r: Option<Reason> | (p, r) in AddedPairs(added, GEOMETRY_INVALID)
      ensures (p, r) !in OpenPairs(rows, GEOMETRY_INVALID)
    {
      OpenMeansOpenParcel(rows, GEOMETRY_INVALID, p);
    }
    FindingsCanBeAdded(rows, added, GEOMETRY_INVALID);
  }

  method WriteFlags(conn: Connection, pg: PostGis, why: Reasons, ghost before: Rows, fault: Fault)
      returns (p: Progress, ghost added: seq<NewException>)
    requires before == conn.exceptions && ExceptionsHold(before, conn.clock) && forall g :: why(g) != ""
    modifies conn`exceptions, conn`clock
    ensures conn.clock >= old(conn.clock)
    ensures p.Going? <==> fault.Spares(1, 3)
    ensures p.Going? ==> conn.clock == old(conn.clock) + 1
    ensures p.Going? ==> Flagged(before, conn.exceptions, pg, why, conn.parcels, added, conn.clock)
  {
    var open, invalid := OpenParcels(conn.exceptions, GEOMETRY_INVALID), Invalid(pg, conn.parcels);
    var rows := ListFaults(pg, why, conn.parcels, open);
    added := rows;
    FlagsCanBeAdded(before, pg, why, conn.parcels, added);
    p := fault.At(1);
    if p != Going { return; }
    if rows != [] {
      var r := conn.InsertExceptions(rows);
      if r != WriteResult.Done { p := Raised; return; }
    }
    p := fault.At(2);
    if p != Going { return; }
    var closed := conn.CloseExceptionsForParcels(GEOMETRY_INVALID, open - invalid);
  }

  /** `flag_parcel_geometry`. */
  method FlagParcelGeometry(conn: Connection, pg: PostGis, why: Reasons, fault: Fault)
      returns (end: Ending, ghost t: Tables, ghost added: seq<NewException>, ghost at: Time)
    requires conn.Idle() && ExceptionsHold(conn.exceptions, conn.clock) && forall g :: why(g) != ""
    modifies conn
    ensures conn.Idle() && ExceptionsHold(conn.exceptions, conn.clock) && conn.clock > old(conn.clock)
    ensures t == old(conn.Image()).(jobs := t.jobs)
    ensures conn.Image() == t.(exceptions := conn.exceptions, jobs := conn.jobs)
    ensures end.Committed? <==> fault.Spares(0, 5)
    ensures end.Committed? ==> at == old(conn.clock) + 2
    ensures end.Committed? ==> Flagged(t.exceptions, conn.exceptions, pg, why, t.parcels, added, at)
    ensures !end.Committed? ==> conn.exceptions == t.exceptions
    ensures conn.jobs == old(conn.jobs) +
      [JobRun(OtherJob("flag_invalid_geometry_parcels"), ParcelsSource,
              match end { case Committed => Succeeded case MarkedFailed => JobStatus.Failed case Dead => Running },
              None, old(conn.clock) + 1, if end.Dead? then None else Some(conn.clock))]
  {
    var job := conn.StartJob(OtherJob("flag_invalid_geometry_parcels"), ParcelsSource);
    t, added, at := conn.Image(), [], 0;
    ghost var now := conn.clock;
    var p := fault.At(0);
    if p == Going {
      p, added := WriteFlags(conn, pg, why, t.exceptions, fault);
      at := conn.clock;
    }
    if p == Going {
      FlaggingHolds(t.exceptions, conn.exceptions, now, pg, why, t.parcels, added, at);
      p := fault.At(3);
    }
    if p == Going {
      conn.FinishJob(job, Succeeded, None);
      p := fault.At(4);
      if p == Going { conn.Commit(); }
    }
    end := Conclude(conn, job, p, t);
  }

  lemma FlaggingHolds(rows: Rows, after: Rows, now: Time, pg: PostGis, why: Reasons, parcels: map<ParcelId, Parcel>,
                      added: seq<NewException>, at: Time)
    requires ExceptionsHold(rows, now) && now < at && Flagged(rows, after, pg, why, parcels, added, at)
    ensures forall later :: at <= later ==> ExceptionsHold(after, later)
  {
    FlagsCanBeAdded(rows, pg, why, parcels, added);
    AddHolds(rows, now, added, GEOMETRY_INVALID);
    var r := Append(rows, added);
    var resolved := OpenParcels(rows, GEOMETRY_INVALID) - Invalid(pg, parcels);
    CloseHolds(r, now, OfParcels(r, GEOMETRY_INVALID, resolved), ConditionCleared, ByDetector(ParcelGeometryInvalid), at);
  }

  // ------------------------------------------------------------------ what a run leaves open

  lemma PairsAfterFlagging(rows: Rows, after: Rows, pg: PostGis, why: Reasons, parcels: map<ParcelId, Parcel>,
                           added: seq<NewException>, at: Time, d: Detector)
    requires Flagged(rows, after, pg, why, parcels, added, at)
    ensures var invalid, open := Invalid(pg, parcels), OpenParcels(rows, GEOMETRY_INVALID);
      OpenPairs(after, d) ==
        if d != GEOMETRY_INVALID then OpenPairs(rows, d)
        else (set p | p in OpenPairs(rows, d) && p.0 in invalid) + Faults(pg, why, parcels, invalid - open)
  {
    var invalid, open := Invalid(pg, parcels), OpenParcels(rows, GEOMETRY_INVALID);
    PairsAfterAppend(rows, added, d);
    PairsAfterTargetedClose(Append(rows, added), GEOMETRY_INVALID, open - invalid, ConditionCleared,
                            ByDetector(ParcelGeometryInvalid), at, d);
    if d == GEOMETRY_INVALID {
      forall p: ParcelId, r: Option<Reason> | (p, r) in OpenPairs(rows, d) ensures p in open {
        OpenMeansOpenParcel(rows, d, p);
      }
    } else {
      forall j | 0 <= j < |added| ensures added[j].detector != d { }
    }
  }

  /** One finding: kept when it was open, the current reason when it is new. */
  lemma FlaggedPair(rows: Rows, after: Rows, pg: PostGis, why: Reasons, parcels: map<ParcelId, Parcel>,
                    added: seq<NewException>, at: Time, p: ParcelId, r: Option<Reason>)
    requires Flagged(rows, after, pg, why, parcels, added, at)
    ensures (p, r) in OpenPairs(after, GEOMETRY_INVALID) <==>
      && p in Invalid(pg, parcels)
      && if p in OpenParcels(rows, GEOMETRY_INVALID) then (p, r) in OpenPairs(rows, GEOMETRY_INVALID)
         else r == InvalidReason(why, parcels[p])
  {
    PairsAfterFlagging(rows, after, pg, why, parcels, added, at, GEOMETRY_INVALID);
    OpenMeansOpenParcel(rows, GEOMETRY_INVALID, p);
    assert (p, r).0 == p;
  }

  lemma FlaggedParcel(rows: Rows, after: Rows, pg: PostGis, why: Reasons, parcels: map<ParcelId, Parcel>,
                      added: seq<NewException>, at: Time, p: ParcelId)
    requires Flagged(rows, after, pg, why, parcels, added, at) && AtMostOneEach(OpenPairs(rows, GEOMETRY_INVALID))
    ensures p in OpenParcels(after, GEOMETRY_INVALID) <==> p in Invalid(pg, parcels)
    ensures AtMostOne(OpenPairs(after, GEOMETRY_INVALID), p)
  {
    var before, pairs := OpenPairs(rows, GEOMETRY_INVALID), OpenPairs(after, GEOMETRY_INVALID);
    OpenMeansOpenParcel(after, GEOMETRY_INVALID, p);
    OpenMeansOpenParcel(rows, GEOMETRY_INVALID, p);
    if Mentions(pairs, p) {
      var r: Option<Reason> :| (p, r) in pairs;
      FlaggedPair(rows, after, pg, why, parcels, added, at, p, r);
    }
    if p in Invalid(pg, parcels) {
      var r := InvalidReason(why, parcels[p]);
      if Mentions(before, p) { r :| (p, r) in before; }
      FlaggedPair(rows, after, pg, why, parcels, added, at, p, r);
      assert (p, r) in pairs;
    }
    forall r: Option<Reason>, r': Option<Reason> | (p, r) in pairs && (p, r') in pairs ensures r == r' {
      FlaggedPair(rows, after, pg, why, parcels, added, at, p, r);
      FlaggedPair(rows, after, pg, why, parcels, added, at, p, r');
      assert AtMostOne(before, p);
    }
  }

  /** After a run exactly the invalid parcels are flagged, each once. */
  lemma FlaggedAreTheInvalid(rows: Rows, after: Rows, pg: PostGis, why: Reasons, parcels: map<ParcelId, Parcel>,
                             added: seq<NewException>, at: Time)
    requires Flagged(rows, after, pg, why, parcels, added, at) && AtMostOneEach(OpenPairs(rows, GEOMETRY_INVALID))
    ensures OpenParcels(after, GEOMETRY_INVALID) == Invalid(pg, parcels)
    ensures AtMostOneEach(OpenPairs(after, GEOMETRY_INVALID))
  {
    forall p: ParcelId
      ensures p in OpenParcels(after, GEOMETRY_INVALID) <==> p in Invalid(pg, parcels)
      ensures AtMostOne(OpenPairs(after, GEOMETRY_INVALID), p)
    {
      FlaggedParcel(rows, after, pg, why, parcels, added, at, p);
    }
  }

  /** The database finds the parcel's stored geometry invalid. */
  ghost predicate IsInvalid(pg: PostGis, parcels: map<ParcelId, Parcel>, p: ParcelId) {
    p in parcels && parcels[p].geom.Some? && !pg.isValid(parcels[p].geom.value)
  }

  /** Some open row flags the parcel for this reason. */
  ghost predicate Flags(rows: Rows, p: ParcelId, r: Option<Reason>) {
    exists i :: 0 <= i < |rows| && rows[i].status == Open && rows[i].detector == Detector(ParcelGeometryInvalid, Version(1, 0))
                && rows[i].parcel == p && rows[i].reason == r
  }

  lemma FlagsIsOpen(rows: Rows, p: ParcelId, r: Option<Reason>)
    ensures Flags(rows, p, r) <==> (p, r) in OpenPairs(rows, GEOMETRY_INVALID)
  {
    if (p, r) in OpenPairs(rows, GEOMETRY_INVALID) {
      var i :| 0 <= i < |rows| && IsOpen(rows, i) && rows[i].detector == GEOMETRY_INVALID && (rows[i].parcel, rows[i].reason) == (p, r);
      assert rows[i].parcel == p;
    }
    if i :| 0 <= i < |rows| && rows[i].status == Open && rows[i].detector == GEOMETRY_INVALID && rows[i].parcel == p && rows[i].reason == r {
      assert IsOpen(rows, i);
    }
  }

  /** A parcel is flagged exactly while its geometry is invalid: for the reason it was flagged for if it was flagged
      already, and otherwise for the one the database gives now. */
  lemma FlagsAfter(rows: Rows, after: Rows, pg: PostGis, why: Reasons, parcels: map<ParcelId, Parcel>,
                   added: seq<NewException>, at: Time, p: ParcelId, r: Option<Reason>)
    requires Flagged(rows, after, pg, why, parcels, added, at)
    ensures Flags(after, p, r) <==>
      && IsInvalid(pg, parcels, p)
      && if (exists r' :: Flags(rows, p, r')) then Flags(rows, p, r) else r == Some(OtherReason(why(parcels[p].geom.value)))
  {
    FlaggedPair(rows, after, pg, why, parcels, added, at, p, r);
    OpenMeansOpenParcel(rows, GEOMETRY_INVALID, p);
    FlagsIsOpen(after, p, r);
    forall r' ensures Flags(rows, p, r') <==> (p, r') in OpenPairs(rows, GEOMETRY_INVALID) { FlagsIsOpen(rows, p, r'); }
    assert p in Invalid(pg, parcels) <==> IsInvalid(pg, parcels, p);
  }

  /** A row that was there is as it was, unless it flags a parcel that is not invalid: then it is closed. */
  lemma OldRowAfter(rows: Rows, after: Rows, pg: PostGis, why: Reasons, parcels: map<ParcelId, Parcel>,
                    added: seq<NewException>, at: Time, i: nat)
    requires Flagged(rows, after, pg, why, parcels, added, at) && i < |rows|
    ensures i < |after|
    ensures after[i] ==
      if rows[i].status == Open && rows[i].detector == Detector(ParcelGeometryInvalid, Version(1, 0)) && !IsInvalid(pg, parcels, rows[i].parcel)
      then rows[i].(status := Closed(ConditionCleared, at, ByDetector(ParcelGeometryInvalid))) else rows[i]
  {
    var p := rows[i].parcel;
    assert p in Invalid(pg, parcels) <==> IsInvalid(pg, parcels, p);
    if IsOpen(rows, i) && rows[i].detector == GEOMETRY_INVALID {
      assert (p, rows[i].reason) in OpenPairs(rows, GEOMETRY_INVALID);
      OpenMeansOpenParcel(rows, GEOMETRY_INVALID, p);
    }
    assert Append(rows, added)[i] == rows[i];
  }

  /** An open row that flags an invalid parcel, which no row flagged. */
  ghost predicate IsNewFlag(rows: Rows, pg: PostGis, why: Reasons, parcels: map<ParcelId, Parcel>, row: ExceptionRow) {
    && IsInvalid(pg, parcels, row.parcel) && (forall r :: !Flags(rows, row.parcel, r))
    && row == ExceptionRow(row.parcel, Detector(ParcelGeometryInvalid, Version(1, 0)), RecordToGround,
                           Some(OtherReason(why(parcels[row.parcel].geom.value))), Open, None)
  }

  lemma NewRowAfter(rows: Rows, after: Rows, pg: PostGis, why: Reasons, parcels: map<ParcelId, Parcel>,
                    added: seq<NewException>, at: Time, i: nat)
    requires Flagged(rows, after, pg, why, parcels, added, at) && |rows| <= i < |after|
    ensures IsNewFlag(rows, pg, why, parcels, after[i])
  {
    var open := OpenParcels(rows, GEOMETRY_INVALID);
    AddedIsInvalid(pg, why, parcels, open, added, i - |rows|);
    AddedStaysOpen(rows, added, open - Invalid(pg, parcels), at, i);
    NotFlagged(rows, after[i].parcel);
  }

  lemma NotFlagged(rows: Rows, p: ParcelId)
    requires p !in OpenParcels(rows, GEOMETRY_INVALID)
    ensures forall r :: !Flags(rows, p, r)
  {
    OpenMeansOpenParcel(rows, GEOMETRY_INVALID, p);
    forall r ensures !Flags(rows, p, r) { FlagsIsOpen(rows, p, r); }
  }

  lemma AddedIsInvalid(pg: PostGis, why: Reasons, parcels: map<ParcelId, Parcel>, open: set<ParcelId>, added: seq<NewException>, j: nat)
    requires Lists(added, GEOMETRY_INVALID, Faults(pg, why, parcels, Invalid(pg, parcels) - open)) && j < |added|
    ensures var p := added[j].parcel;
      && IsInvalid(pg, parcels, p) && p !in open && added[j].reason == Some(OtherReason(why(parcels[p].geom.value)))
      && added[j].detector == GEOMETRY_INVALID && added[j].kind == RecordToGround
  {
    assert (added[j].parcel, added[j].reason) in AddedPairs(added, GEOMETRY_INVALID);
  }

  lemma AddedStaysOpen(rows: Rows, added: seq<NewException>, resolved: set<ParcelId>, at: Time, i: nat)
    requires |rows| <= i < |rows| + |added| && added[i - |rows|].parcel !in resolved
    ensures FlagLifecycle(rows, added, resolved, at)[i] == Detected(added[i - |rows|])
  {
    assert Append(rows, added)[i] == Detected(added[i - |rows|]);
  }

  /** A flag says what is wrong now, unless it was open before and the parcel is now invalid for another reason. */
  lemma StaleReasonsExactly(rows: Rows, after: Rows, pg: PostGis, why: Reasons, parcels: map<ParcelId, Parcel>,
                            added: seq<NewException>, at: Time)
    requires Flagged(rows, after, pg, why, parcels, added, at) && AtMostOneEach(OpenPairs(rows, GEOMETRY_INVALID))
    ensures OpenPairs(after, GEOMETRY_INVALID) == Faults(pg, why, parcels, Invalid(pg, parcels))
      <==> forall p: ParcelId, r: Option<Reason> ::
             (p, r) in OpenPairs(rows, GEOMETRY_INVALID) && p in Invalid(pg, parcels) ==> r == InvalidReason(why, parcels[p])
  {
    PairsAfterFlagging(rows, after, pg, why, parcels, added, at, GEOMETRY_INVALID);
    var invalid := Invalid(pg, parcels);
    var now, then' := Faults(pg, why, parcels, invalid), OpenPairs(after, GEOMETRY_INVALID);
    if now == then' {
      forall p: ParcelId, r: Option<Reason> | (p, r) in OpenPairs(rows, GEOMETRY_INVALID) && p in invalid
        ensures r == InvalidReason(why, parcels[p])
      {
        assert (p, r).0 == p && (p, r) in then';
      }
    }
    if forall p: ParcelId, r: Option<Reason> ::
         (p, r) in OpenPairs(rows, GEOMETRY_INVALID) && p in invalid ==> r == InvalidReason(why, parcels[p])
    {
      forall p: ParcelId | p in invalid ensures (p, InvalidReason(why, parcels[p])) in then' {
        OpenMeansOpenParcel(rows, GEOMETRY_INVALID, p);
        if p in OpenParcels(rows, GEOMETRY_INVALID) {
          var r: Option<Reason> :| (p, r) in OpenPairs(rows, GEOMETRY_INVALID);
          assert (p, r).0 == p;
        }
      }
    }
  }

  /** A second run on the same parcels writes nothing. */
  lemma SecondFlaggingIsIdle(rows: Rows, mid: Rows, after: Rows, pg: PostGis, why: Reasons, parcels: map<ParcelId, Parcel>,
                             first: seq<NewException>, second: seq<NewException>, at: Time, later: Time)
    requires Flagged(rows, mid, pg, why, parcels, first, at) && AtMostOneEach(OpenPairs(rows, GEOMETRY_INVALID))
    requires Flagged(mid, after, pg, why, parcels, second, later)
    ensures second == [] && after == mid
  {
    FlaggedAreTheInvalid(rows, mid, pg, why, parcels, first, at);
    assert Faults(pg, why, parcels, {}) == {};
    assert Invalid(pg, parcels) - OpenParcels(mid, GEOMETRY_INVALID) == {};
    NoPairs(second, GEOMETRY_INVALID);
    assert Append(mid, []) == mid;
    assert OfParcels(mid, GEOMETRY_INVALID, {}) == {};
    CloseNothing(mid, ConditionCleared, ByDetector(ParcelGeometryInvalid), later);
  }
}
