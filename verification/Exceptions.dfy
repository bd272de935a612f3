/** The exception lifecycle: a row is detected, closed, and, when the same finding
    comes back, detected again as a new row that points at the one it reopens. */
module Exceptions {
  import opened Schema

  type Rows = seq<ExceptionRow>

  predicate IsOpen(rows: Rows, i: int) {
    0 <= i < |rows| && rows[i].status.Open?
  }

  /** `COALESCE(detail ->> 'reason', '')`. */
  function IndexReason(reason: Option<Reason>): Reason {
    if reason.Some? then reason.value else OtherReason("")
  }

  predicate SameIndexKey(a: ExceptionRow, b: ExceptionRow) {
    a.parcel == b.parcel && a.detector == b.detector && IndexReason(a.reason) == IndexReason(b.reason)
  }

  /** The partial unique index of 0049. */
  ghost predicate OneOpen(rows: Rows) {
    forall i, j :: IsOpen(rows, i) && IsOpen(rows, j) && SameIndexKey(rows[i], rows[j]) ==> i == j
  }

  /** Two rows about the same finding.  A row without a reason matches no row, not
      even itself: SQL's `NULL = NULL` is not true. */
  predicate SameFinding(a: ExceptionRow, b: ExceptionRow) {
    a.parcel == b.parcel && a.detector == b.detector && a.reason.Some? && a.reason == b.reason
  }

  predicate Earlier(rows: Rows, i: int, j: int) {
    0 <= i < j < |rows| && SameFinding(rows[i], rows[j])
  }

  /** A finding is opened again only after its last row was closed, and is closed
      again only later than that. */
  ghost predicate Ordered(rows: Rows) {
    forall i, j :: Earlier(rows, i, j) ==>
      rows[i].status.Closed? && (rows[j].status.Closed? ==> rows[i].status.at < rows[j].status.at)
  }

  /** Every closing is in the past. */
  ghost predicate ClosedBy(rows: Rows, now: Time) {
    forall i {:trigger rows[i]} :: 0 <= i < |rows| && rows[i].status.Closed? ==> rows[i].status.at <= now
  }

  /** Row `j` points at the row of the same finding just before it, and at nothing
      when it is the first. */
  ghost predicate LinkIsRight(rows: Rows, j: int)
    requires 0 <= j < |rows|
  {
    match rows[j].reopenedFrom
    case None => forall i :: !Earlier(rows, i, j)
    case Some(k) => Earlier(rows, k, j) && forall i :: Earlier(rows, i, j) ==> i <= k
  }

  ghost predicate LinkedBelow(rows: Rows, detector: Detector, n: nat) {
    forall j {:trigger rows[j]} :: 0 <= j < |rows| && j < n && rows[j].detector == detector ==> LinkIsRight(rows, j)
  }

  ghost predicate Linked(rows: Rows, detector: Detector) {
    LinkedBelow(rows, detector, |rows|)
  }

  /** The open findings of a detector. */
  function OpenPairs(rows: Rows, detector: Detector): set<(ParcelId, Option<Reason>)> {
    set i: int | 0 <= i < |rows| && IsOpen(rows, i) && rows[i].detector == detector :: (rows[i].parcel, rows[i].reason)
  }

  // ------------------------------------------------------------------ the statements

  function Close(rows: Rows, hit: set<nat>, outcome: Outcome, actor: Actor, at: Time): (r: Rows)
    ensures |r| == |rows|
  {
    seq(|rows|, i requires 0 <= i < |rows| =>
      if i in hit then rows[i].(status := Closed(outcome, at, actor)) else rows[i])
  }

  /** `close_resolved_exceptions`: rows with a reason whose finding was not made again. */
  function NotStillTrue(rows: Rows, detector: Detector, stillTrue: set<(ParcelId, Reason)>): set<nat> {
    set i: nat | i < |rows| && IsOpen(rows, i) && rows[i].detector == detector && rows[i].reason.Some?
                 && (rows[i].parcel, rows[i].reason.value) !in stillTrue
  }

  /** `close_exceptions_for_parcels`. */
  function OfParcels(rows: Rows, detector: Detector, parcels: set<ParcelId>): set<nat> {
    set i: nat | i < |rows| && IsOpen(rows, i) && rows[i].detector == detector && rows[i].parcel in parcels
  }

  /** `retire_stranded_exceptions`. */
  function AtVersion(rows: Rows, detector: Detector): set<nat> {
    set i: nat | i < |rows| && IsOpen(rows, i) && rows[i].detector == detector
  }

  function Detected(row: NewException): ExceptionRow {
    ExceptionRow(row.parcel, row.detector, row.kind, row.reason, Open, None)
  }

  function Append(rows: Rows, added: seq<NewException>): (r: Rows)
    ensures |r| == |rows| + |added|
  {
    rows + seq(|added|, j requires 0 <= j < |added| => Detected(added[j]))
  }

  /** The `DISTINCT ON (parcel_id, reason) ... ORDER BY resolved_at DESC` subquery, for
      the finding of `row`, over the first `n` rows. */
  function LastClosed(rows: Rows, row: ExceptionRow, n: nat): (k: Option<nat>)
    requires n <= |rows|
    ensures k.Some? ==> k.value < n && SameFinding(rows[k.value], row) && rows[k.value].status.Closed?
    ensures forall i :: 0 <= i < n && SameFinding(rows[i], row) && rows[i].status.Closed? ==>
      k.Some? && rows[i].status.at <= rows[k.value].status.at
  {
    if n == 0 then None
    else
      var k := LastClosed(rows, row, n - 1);
      if SameFinding(rows[n - 1], row) && rows[n - 1].status.Closed?
         && (k.None? || rows[k.value].status.at < rows[n - 1].status.at)
      then Some(n - 1)
      else k
  }

  /** A closed row of the finding of `row` than which none was closed later; none when there is no closed row. */
  ghost predicate LatestClosing(rows: Rows, row: ExceptionRow, k: Option<nat>) {
    match k
    case None => forall i :: 0 <= i < |rows| && SameFinding(rows[i], row) ==> rows[i].status.Open?
    case Some(n) =>
      && n < |rows| && SameFinding(rows[n], row) && rows[n].status.Closed?
      && forall i :: 0 <= i < |rows| && SameFinding(rows[i], row) && rows[i].status.Closed? ==>
           rows[i].status.at <= rows[n].status.at
  }

  predicate AwaitsLink(rows: Rows, detector: Detector, i: int) {
    IsOpen(rows, i) && rows[i].detector == detector && rows[i].reopenedFrom.None?
  }

  /** `relink_reopened_exceptions`. */
  function Relink(rows: Rows, detector: Detector): (r: Rows)
    ensures |r| == |rows|
  {
    seq(|rows|, i requires 0 <= i < |rows| =>
      if AwaitsLink(rows, detector, i) then rows[i].(reopenedFrom := LastClosed(rows, rows[i], |rows|)) else rows[i])
  }

  // ------------------------------------------------------------------ closing

  ghost predicate OnlyOpen(rows: Rows, hit: set<nat>) {
    forall i :: i in hit ==> IsOpen(rows, i)
  }

  lemma CloseKeeps(rows: Rows, hit: set<nat>, outcome: Outcome, actor: Actor, now: Time, at: Time)
    requires OneOpen(rows) && Ordered(rows) && ClosedBy(rows, now) && now < at && OnlyOpen(rows, hit)
    ensures var r := Close(rows, hit, outcome, actor, at);
      OneOpen(r) && Ordered(r) && ClosedBy(r, at)
  {
    var r := Close(rows, hit, outcome, actor, at);
    forall i, j | IsOpen(r, i) && IsOpen(r, j) && SameIndexKey(r[i], r[j]) ensures i == j {
      assert IsOpen(rows, i) && IsOpen(rows, j) && SameIndexKey(rows[i], rows[j]);
    }
    forall i, j | Earlier(r, i, j)
      ensures r[i].status.Closed? && (r[j].status.Closed? ==> r[i].status.at < r[j].status.at)
    {
      assert Earlier(rows, i, j);
    }
  }

  lemma CloseKeepsLinks(rows: Rows, hit: set<nat>, outcome: Outcome, actor: Actor, at: Time, detector: Detector, n: nat)
    requires LinkedBelow(rows, detector, n)
    ensures LinkedBelow(Close(rows, hit, outcome, actor, at), detector, n)
  {
    var r := Close(rows, hit, outcome, actor, at);
    forall j | 0 <= j < |r| && j < n && r[j].detector == detector ensures LinkIsRight(r, j) {
      SameLinks(rows, r, j);
    }
  }

  /** A link's correctness depends on nothing but which findings the rows are about. */
  lemma SameLinks(rows: Rows, r: Rows, j: int)
    requires 0 <= j < |rows| <= |r| && LinkIsRight(rows, j)
    requires forall i :: 0 <= i <= j ==>
      rows[i].parcel == r[i].parcel && rows[i].detector == r[i].detector && rows[i].reason == r[i].reason
    requires r[j].reopenedFrom == rows[j].reopenedFrom
    ensures LinkIsRight(r, j)
  {
    assert forall i :: Earlier(r, i, j) <==> Earlier(rows, i, j);
  }

  lemma PairsAfterCloseByExclusion(rows: Rows, d: Detector, stillTrue: set<(ParcelId, Reason)>,
                                   outcome: Outcome, actor: Actor, at: Time, detector: Detector)
    ensures var r := Close(rows, NotStillTrue(rows, d, stillTrue), outcome, actor, at);
      OpenPairs(r, detector) ==
        set p | p in OpenPairs(rows, detector) && (detector != d || p.1.None? || (p.0, p.1.value) in stillTrue)
  {
    var hit := NotStillTrue(rows, d, stillTrue);
    var r := Close(rows, hit, outcome, actor, at);
    forall p | p in OpenPairs(rows, detector) && (detector != d || p.1.None? || (p.0, p.1.value) in stillTrue)
      ensures p in OpenPairs(r, detector)
    {
      var i :| 0 <= i < |rows| && IsOpen(rows, i) && rows[i].detector == detector && (rows[i].parcel, rows[i].reason) == p;
      assert IsOpen(r, i);
    }
    forall p | p in OpenPairs(r, detector)
      ensures p in OpenPairs(rows, detector) && (detector != d || p.1.None? || (p.0, p.1.value) in stillTrue)
    {
      var i :| 0 <= i < |r| && IsOpen(r, i) && r[i].detector == detector && (r[i].parcel, r[i].reason) == p;
      assert IsOpen(rows, i) && i !in hit;
    }
  }

  lemma PairsAfterTargetedClose(rows: Rows, d: Detector, parcels: set<ParcelId>,
                                outcome: Outcome, actor: Actor, at: Time, detector: Detector)
    ensures var r := Close(rows, OfParcels(rows, d, parcels), outcome, actor, at);
      OpenPairs(r, detector) == set p | p in OpenPairs(rows, detector) && (detector != d || p.0 !in parcels)
  {
    var hit := OfParcels(rows, d, parcels);
    var r := Close(rows, hit, outcome, actor, at);
    forall p | p in OpenPairs(rows, detector) && (detector != d || p.0 !in parcels)
      ensures p in OpenPairs(r, detector)
    {
      var i :| 0 <= i < |rows| && IsOpen(rows, i) && rows[i].detector == detector && (rows[i].parcel, rows[i].reason) == p;
      assert IsOpen(r, i);
    }
    forall p | p in OpenPairs(r, detector)
      ensures p in OpenPairs(rows, detector) && (detector != d || p.0 !in parcels)
    {
      var i :| 0 <= i < |r| && IsOpen(r, i) && r[i].detector == detector && (r[i].parcel, r[i].reason) == p;
      assert IsOpen(rows, i) && i !in hit;
    }
  }

  // ------------------------------------------------------------------ inserting

  /** No two new rows, and no new and old row, share the unique index's key while open. */
  ghost predicate CanAdd(rows: Rows, added: seq<NewException>) {
    && (forall i, j :: IsOpen(rows, i) && 0 <= j < |added| ==> !SameIndexKey(rows[i], Detected(added[j])))
    && (forall j, j' :: 0 <= j < j' < |added| ==> !SameIndexKey(Detected(added[j]), Detected(added[j'])))
  }

  function AddedPairs(added: seq<NewException>, detector: Detector): set<(ParcelId, Option<Reason>)> {
    set j | 0 <= j < |added| && added[j].detector == detector :: (added[j].parcel, added[j].reason)
  }

  /** A plan holds at most one row per detector and parcel. */
  ghost predicate NoRepeats(added: seq<NewException>) {
    forall j, j' :: 0 <= j < j' < |added| ==>
      added[j].detector != added[j'].detector || added[j].parcel != added[j'].parcel
  }

  /** The type each detector gives the exceptions it opens. */
  function KindOf(key: DetectorKey): ExceptionType {
    match key
    case ParcelDisappeared => RecordToGround
    case CentroidNotInterior => RecordToGround
    case ParcelGeometryInvalid => RecordToGround
    case _ => CoverageGap
  }

  /** No ruleset version, and the type of the detector. */
  ghost predicate Regular(added: seq<NewException>) {
    forall j {:trigger added[j]} :: 0 <= j < |added| ==> added[j].rulesetVersion.None? && added[j].kind == KindOf(added[j].detector.key)
  }

  ghost predicate Mentions(pairs: set<(ParcelId, Option<Reason>)>, p: ParcelId) {
    exists reason: Option<Reason> :: (p, reason) in pairs
  }

  lemma PlanException(added: seq<NewException>, row: NewException, detector: Detector)
    ensures AddedPairs(added + [row], detector) ==
      AddedPairs(added, detector) + if row.detector == detector then {(row.parcel, row.reason)} else {}
    ensures NoRepeats(added) && !Mentions(AddedPairs(added, row.detector), row.parcel) ==> NoRepeats(added + [row])
  {
    var r := added + [row];
    forall p | p in AddedPairs(added, detector) ensures p in AddedPairs(r, detector) {
      var j :| 0 <= j < |added| && added[j].detector == detector && (added[j].parcel, added[j].reason) == p;
      assert r[j] == added[j];
    }
    if row.detector == detector { assert r[|added|] == row; }
    if NoRepeats(added) && !Mentions(AddedPairs(added, row.detector), row.parcel) {
      forall j, j' | 0 <= j < j' < |r| ensures r[j].detector != r[j'].detector || r[j].parcel != r[j'].parcel {
        if j' == |added| && added[j].detector == row.detector {
          assert (added[j].parcel, added[j].reason) in AddedPairs(added, row.detector);
        }
      }
    }
  }

  /** Findings of one detector, each with a reason of its own. */
  ghost predicate FindingsOnly(added: seq<NewException>, d: Detector) {
    NoRepeats(added) && Regular(added) && forall j {:trigger added[j]} :: 0 <= j < |added| ==>
      added[j].detector == d && added[j].reason.Some? && added[j].reason != Some(OtherReason(""))
  }

  /** Such findings are accepted when none of them is open already. */
  lemma FindingsCanBeAdded(rows: Rows, added: seq<NewException>, d: Detector)
    requires FindingsOnly(added, d) && AddedPairs(added, d) !! OpenPairs(rows, d)
    ensures CanAdd(rows, added)
  {
    forall i, j | IsOpen(rows, i) && 0 <= j < |added| ensures !SameIndexKey(rows[i], Detected(added[j])) {
      assert (added[j].parcel, added[j].reason) in AddedPairs(added, d);
      if rows[i].detector == d { assert (rows[i].parcel, rows[i].reason) in OpenPairs(rows, d); }
    }
  }

  /** A plan is accepted by the unique index when nothing it adds is open already. */
  lemma PlanCanBeAdded(rows: Rows, added: seq<NewException>)
    requires NoRepeats(added)
    requires forall j :: 0 <= j < |added| ==> !Mentions(OpenPairs(rows, added[j].detector), added[j].parcel)
    ensures CanAdd(rows, added)
  {
    forall i | IsOpen(rows, i) ensures Mentions(OpenPairs(rows, rows[i].detector), rows[i].parcel) {
      OpenIsMentioned(rows, i);
    }
  }

  lemma OpenIsMentioned(rows: Rows, i: nat)
    requires IsOpen(rows, i)
    ensures Mentions(OpenPairs(rows, rows[i].detector), rows[i].parcel)
  {
    assert (rows[i].parcel, rows[i].reason) in OpenPairs(rows, rows[i].detector);
  }

  lemma AppendKeeps(rows: Rows, added: seq<NewException>, now: Time)
    requires OneOpen(rows) && Ordered(rows) && ClosedBy(rows, now) && CanAdd(rows, added)
    ensures var r := Append(rows, added);
      OneOpen(r) && Ordered(r) && ClosedBy(r, now)
  {
    var r := Append(rows, added);
    forall i, j | IsOpen(r, i) && IsOpen(r, j) && SameIndexKey(r[i], r[j]) ensures i == j {
      if i < |rows| { assert IsOpen(rows, i); }
      if j < |rows| { assert IsOpen(rows, j); }
      assert SameIndexKey(r[j], r[i]);
    }
    forall i, j | Earlier(r, i, j)
      ensures r[i].status.Closed? && (r[j].status.Closed? ==> r[i].status.at < r[j].status.at)
    {
      if j < |rows| {
        assert Earlier(rows, i, j);
      } else {
        assert SameIndexKey(r[i], r[j]);
        assert i < |rows| && !IsOpen(rows, i);
      }
    }
  }

  lemma AppendKeepsLinks(rows: Rows, added: seq<NewException>, detector: Detector)
    requires Linked(rows, detector)
    ensures LinkedBelow(Append(rows, added), detector, |rows|)
    ensures (forall j :: 0 <= j < |added| ==> added[j].detector != detector) ==> Linked(Append(rows, added), detector)
  {
    var r := Append(rows, added);
    forall j | 0 <= j < |rows| && r[j].detector == detector ensures LinkIsRight(r, j) {
      SameLinks(rows, r, j);
    }
  }

  lemma PairsAfterAppend(rows: Rows, added: seq<NewException>, detector: Detector)
    ensures OpenPairs(Append(rows, added), detector) == OpenPairs(rows, detector) + AddedPairs(added, detector)
  {
    var r := Append(rows, added);
    forall p | p in OpenPairs(rows, detector) ensures p in OpenPairs(r, detector) {
      var i :| 0 <= i < |rows| && IsOpen(rows, i) && rows[i].detector == detector && (rows[i].parcel, rows[i].reason) == p;
      assert IsOpen(r, i);
    }
    forall p | p in AddedPairs(added, detector) ensures p in OpenPairs(r, detector) {
      var j :| 0 <= j < |added| && added[j].detector == detector && (added[j].parcel, added[j].reason) == p;
      assert IsOpen(r, |rows| + j);
    }
    forall p | p in OpenPairs(r, detector) ensures p in OpenPairs(rows, detector) + AddedPairs(added, detector) {
      var i :| 0 <= i < |r| && IsOpen(r, i) && r[i].detector == detector && (r[i].parcel, r[i].reason) == p;
      if i < |rows| { assert IsOpen(rows, i); } else { assert added[i - |rows|].detector == detector; }
    }
  }

  function OpenParcels(rows: Rows, d: Detector): set<ParcelId> {
    set i: int | 0 <= i < |rows| && IsOpen(rows, i) && rows[i].detector == d :: rows[i].parcel
  }

  lemma OpenMeansOpenParcel(rows: Rows, d: Detector, p: ParcelId)
    ensures p in OpenParcels(rows, d) <==> Mentions(OpenPairs(rows, d), p)
  {
    if p in OpenParcels(rows, d) {
      var i :| 0 <= i < |rows| && IsOpen(rows, i) && rows[i].detector == d && rows[i].parcel == p;
      assert (p, rows[i].reason) in OpenPairs(rows, d);
    }
    if Mentions(OpenPairs(rows, d), p) {
      var reason: Option<Reason> :| (p, reason) in OpenPairs(rows, d);
      var i :| 0 <= i < |rows| && IsOpen(rows, i) && rows[i].detector == d && (rows[i].parcel, rows[i].reason) == (p, reason);
      assert p in OpenParcels(rows, d);
    }
  }

  // ------------------------------------------------------------------ relinking

  /** From `n` on, the detector's rows were inserted by this run and await their link. */
  ghost predicate FreshFrom(rows: Rows, detector: Detector, n: nat) {
    forall j {:trigger rows[j]} :: n <= j < |rows| && rows[j].detector == detector ==> AwaitsLink(rows, detector, j)
  }

  lemma RelinkKeeps(rows: Rows, detector: Detector, now: Time)
    requires OneOpen(rows) && Ordered(rows) && ClosedBy(rows, now)
    ensures var r := Relink(rows, detector); OneOpen(r) && Ordered(r) && ClosedBy(r, now)
  {
    var r := Relink(rows, detector);
    forall i, j | IsOpen(r, i) && IsOpen(r, j) && SameIndexKey(r[i], r[j]) ensures i == j {
      assert IsOpen(rows, i) && IsOpen(rows, j) && SameIndexKey(rows[i], rows[j]);
    }
    forall i, j | Earlier(r, i, j)
      ensures r[i].status.Closed? && (r[j].status.Closed? ==> r[i].status.at < r[j].status.at)
    {
      assert Earlier(rows, i, j);
    }
  }

  lemma PairsAfterRelink(rows: Rows, d: Detector, detector: Detector)
    ensures OpenPairs(Relink(rows, d), detector) == OpenPairs(rows, detector)
  {
    var r := Relink(rows, d);
    assert forall i :: IsOpen(r, i) <==> IsOpen(rows, i);
    assert forall i :: 0 <= i < |rows| ==>
      r[i].detector == rows[i].detector && r[i].parcel == rows[i].parcel && r[i].reason == rows[i].reason;
  }

  /** The subquery finds the row just before the open one it is asked about. */
  lemma LastClosedIsPrevious(rows: Rows, j: nat)
    requires Ordered(rows) && IsOpen(rows, j)
    ensures var k := LastClosed(rows, rows[j], |rows|);
      && (k.None? ==> forall i :: !Earlier(rows, i, j))
      && (k.Some? ==> Earlier(rows, k.value, j) && forall i :: Earlier(rows, i, j) ==> i <= k.value)
  {
    var k := LastClosed(rows, rows[j], |rows|);
    forall i | Earlier(rows, i, j) ensures k.Some? && i <= k.value {
      if k.value < i { assert Earlier(rows, k.value, i); }
    }
    if k.Some? {
      if j < k.value { assert Earlier(rows, j, k.value); }
    }
  }

  /** One pass of `relink_reopened_exceptions` gives every row of the detector its
      right link, and touches no row that an earlier run left, linked or not. */
  lemma RelinkCompletes(rows: Rows, detector: Detector, n: nat)
    requires Ordered(rows) && LinkedBelow(rows, detector, n) && FreshFrom(rows, detector, n) && n <= |rows|
    ensures Linked(Relink(rows, detector), detector)
    ensures Relink(rows, detector)[..n] == rows[..n]
  {
    var r := Relink(rows, detector);
    forall j | 0 <= j < n ensures r[j] == rows[j] {
      if AwaitsLink(rows, detector, j) {
        assert LinkIsRight(rows, j);
        LastClosedIsPrevious(rows, j);
      }
    }
    forall j | 0 <= j < |r| && r[j].detector == detector ensures LinkIsRight(r, j) {
      assert forall i :: Earlier(r, i, j) <==> Earlier(rows, i, j);
      if n <= j {
        assert AwaitsLink(rows, detector, j);
        LastClosedIsPrevious(rows, j);
      }
    }
  }

  lemma RelinkKeepsOtherLinks(rows: Rows, d: Detector, detector: Detector, n: nat)
    requires LinkedBelow(rows, detector, n) && detector != d
    ensures LinkedBelow(Relink(rows, d), detector, n)
  {
    var r := Relink(rows, d);
    forall j | 0 <= j < |r| && j < n && r[j].detector == detector ensures LinkIsRight(r, j) {
      SameLinks(rows, r, j);
    }
  }

  // ------------------------------------------------------------------ other detectors

  /** Row by row, what the statements leave alone. */
  ghost predicate SameFor(rows: Rows, r: Rows, except: set<Detector>) {
    |rows| <= |r| && forall i {:trigger r[i]} :: 0 <= i < |r| && r[i].detector !in except ==> i < |rows| && r[i] == rows[i]
  }

  lemma SameThrough(x: Rows, y: Rows, z: Rows, ours: set<Detector>)
    requires SameFor(x, y, ours) && SameFor(y, z, ours)
    ensures SameFor(x, z, ours)
  {
  }

  /** Each statement only touches rows of its own detector. */
  lemma CloseIsLocal(rows: Rows, hit: set<nat>, outcome: Outcome, actor: Actor, at: Time, ours: set<Detector>)
    requires forall i :: i in hit && i < |rows| ==> rows[i].detector in ours
    ensures SameFor(rows, Close(rows, hit, outcome, actor, at), ours)
  {
  }

  lemma AppendIsLocal(rows: Rows, added: seq<NewException>, ours: set<Detector>)
    requires forall j :: 0 <= j < |added| ==> added[j].detector in ours
    ensures SameFor(rows, Append(rows, added), ours)
  {
  }

  lemma RelinkIsLocal(rows: Rows, d: Detector, ours: set<Detector>)
    requires d in ours
    ensures SameFor(rows, Relink(rows, d), ours)
  {
  }

  // ------------------------------------------------------------------ rows over time

  /** No row is removed or rewritten: an open one may be closed, once, and that is all. */
  ghost predicate RowsExtend(rows: Rows, r: Rows) {
    |rows| <= |r| && forall i {:trigger r[i]} :: 0 <= i < |rows| ==>
      r[i] == if rows[i].status.Open? then rows[i].(status := r[i].status) else rows[i]
  }

  lemma RowsThrough(x: Rows, y: Rows, z: Rows)
    requires RowsExtend(x, y) && RowsExtend(y, z)
    ensures RowsExtend(x, z)
  {
    forall i | 0 <= i < |x| ensures z[i] == if x[i].status.Open? then x[i].(status := z[i].status) else x[i] {
      assert y[i] == if x[i].status.Open? then x[i].(status := y[i].status) else x[i];
    }
  }

  lemma CloseExtends(rows: Rows, hit: set<nat>, outcome: Outcome, actor: Actor, at: Time)
    requires OnlyOpen(rows, hit)
    ensures RowsExtend(rows, Close(rows, hit, outcome, actor, at))
  {
    forall i | 0 <= i < |rows| && !rows[i].status.Open? ensures i !in hit {
      assert !IsOpen(rows, i);
    }
  }

  lemma AppendExtends(rows: Rows, added: seq<NewException>)
    ensures RowsExtend(rows, Append(rows, added))
  {
  }

  /** Relinking after an insertion touches no row that was there before, of its own
      detector or any other: a row an earlier run left without a link stays without one. */
  lemma RelinkExtends(rows: Rows, added: seq<NewException>, d: Detector, now: Time)
    requires Linked(rows, d) && OneOpen(rows) && Ordered(rows) && ClosedBy(rows, now) && CanAdd(rows, added)
    ensures RowsExtend(rows, Relink(Append(rows, added), d))
  {
    var r := Append(rows, added);
    AppendKeeps(rows, added, now);
    AppendKeepsLinks(rows, added, d);
    RelinkCompletes(r, d, |rows|);
    forall i | 0 <= i < |rows| ensures Relink(r, d)[i] == rows[i] {
      assert Relink(r, d)[..|rows|][i] == r[..|rows|][i];
    }
  }

  // ------------------------------------------------------------------ the whole history

  /** The rows met by following `reopened_from_id`, newest first. */
  function Walk(rows: Rows, j: nat): (walk: seq<nat>)
    requires j < |rows|
    requires forall i :: 0 <= i < |rows| && rows[i].detector == rows[j].detector && rows[i].reopenedFrom.Some? ==>
      rows[i].reopenedFrom.value < i && rows[rows[i].reopenedFrom.value].detector == rows[i].detector
    ensures walk != [] && walk[0] == j
    decreases j
  {
    if rows[j].reopenedFrom.Some? then [j] + Walk(rows, rows[j].reopenedFrom.value) else [j]
  }

  ghost predicate StrictlyDown(walk: seq<nat>) {
    forall n, m {:trigger walk[n], walk[m]} :: 0 <= n < m < |walk| ==> walk[m] < walk[n]
  }

  /** Following the links from any row visits that row and every earlier row about
      the same finding, each once, and stops: the chain is the finding's history. */
  lemma {:induction false} WalkIsTheHistory(rows: Rows, j: nat)
    requires j < |rows| && Linked(rows, rows[j].detector) && rows[j].reason.Some?
    ensures var walk := Walk(rows, j);
      && StrictlyDown(walk)
      && forall i :: i in walk <==> 0 <= i <= j && SameFinding(rows[i], rows[j])
    decreases j
  {
    assert LinkIsRight(rows, j);
    if rows[j].reopenedFrom.Some? {
      var k := rows[j].reopenedFrom.value;
      WalkIsTheHistory(rows, k);
      var walk, rest := Walk(rows, j), Walk(rows, k);
      assert walk == [j] + rest;
      forall n, m | 0 <= n < m < |walk| ensures walk[m] < walk[n] {
        assert walk[m] == rest[m - 1] && rest[m - 1] in rest;
        if 0 < n { assert walk[n] == rest[n - 1]; }
      }
      forall i ensures i in walk <==> 0 <= i <= j && SameFinding(rows[i], rows[j]) {
        if 0 <= i < j && SameFinding(rows[i], rows[j]) {
          assert Earlier(rows, i, j);
        }
      }
    } else {
      forall i | 0 <= i < j ensures !SameFinding(rows[i], rows[j]) {
        assert !Earlier(rows, i, j);
      }
    }
  }
}
