/** `load_permits` as one transaction on a connection. */
module PermitsRun {
  import opened Schema
  import opened Ledger
  import opened Exceptions
  import opened Diff
  import opened Findings
  import opened PermitRows
  import opened PermitMatch
  import opened Permits
  import opened PermitsTheorems
  import opened Invariants
  import opened Database

  /** The matches this file has with these parcels, and where each of its rows went. */
  ghost predicate Joins(rows: seq<PermitRow>, parcels: map<ParcelId, Parcel>, matches: Matches, blank: nat, tally: Tally) {
    exists byApn: ByApn, days: seq<Day> ::
      && ReadSoFar(rows, JoinApns(rows), days, byApn, blank)
      && Matched(parcels, byApn, matches) && Tallied(JoinApns(rows), parcels, byApn.Keys, tally)
  }

  /** Every row of the file goes exactly one way. */
  lemma {:induction false} RowConservation(rows: seq<PermitRow>, parcels: map<ParcelId, Parcel>, matches: Matches, blank: nat, tally: Tally)
    requires Joins(rows, parcels, matches, blank, tally)
    ensures |rows| == blank + tally.notFound + tally.ambiguous + tally.matched
  {
    var byApn: ByApn, days: seq<Day> :|
      && ReadSoFar(rows, JoinApns(rows), days, byApn, blank)
      && Matched(parcels, byApn, matches) && Tallied(JoinApns(rows), parcels, byApn.Keys, tally);
    RowsAreConserved(JoinApns(rows), days, parcels, byApn, tally);
  }

  /** A parcel is matched exactly when some row has its number and no other parcel of the
      jurisdiction does, and its date is the earliest over the rows that have it. */
  lemma {:induction false} MatchedExactly(rows: seq<PermitRow>, parcels: map<ParcelId, Parcel>, matches: Matches, blank: nat, tally: Tally,
                                          p: ParcelId)
    requires Joins(rows, parcels, matches, blank, tally)
    ensures p in matches <==> exists i :: 0 <= i < |rows| && JoinApn(rows[i]).Some? && SoleOwner(parcels, p, JoinApn(rows[i]).value)
    ensures p in matches ==>
      && (exists i :: 0 <= i < |rows| && JoinApn(rows[i]) == parcels[p].apn && rows[i].issued == Some(matches[p]))
      && (forall i :: 0 <= i < |rows| && JoinApn(rows[i]) == parcels[p].apn ==> rows[i].issued.Some? && matches[p] <= rows[i].issued.value)
  {
    var byApn: ByApn, days: seq<Day> :|
      && ReadSoFar(rows, JoinApns(rows), days, byApn, blank)
      && Matched(parcels, byApn, matches) && Tallied(JoinApns(rows), parcels, byApn.Keys, tally);
    MatchedInRows(rows, days, byApn, parcels, matches, p);
    if p in matches { EarliestOfRows(rows, days, byApn, parcels, matches, p); }
  }

  lemma {:induction false} MatchedInRows(rows: seq<PermitRow>, days: seq<Day>, byApn: ByApn, parcels: map<ParcelId, Parcel>,
                                         matches: Matches, p: ParcelId)
    requires |days| == |rows| && Grouped(JoinApns(rows), days, byApn) && Matched(parcels, byApn, matches)
    ensures p in matches <==> exists i :: 0 <= i < |rows| && JoinApn(rows[i]).Some? && SoleOwner(parcels, p, JoinApn(rows[i]).value)
  {
    if p in matches {
      var apn :| apn in byApn && SoleOwner(parcels, p, apn);
      assert Some(apn) in JoinApns(rows);
      var i :| 0 <= i < |rows| && JoinApns(rows)[i] == Some(apn);
      assert JoinApn(rows[i]) == Some(apn);
    }
    if i :| 0 <= i < |rows| && JoinApn(rows[i]).Some? && SoleOwner(parcels, p, JoinApn(rows[i]).value) {
      assert JoinApns(rows)[i] == JoinApn(rows[i]);
      assert JoinApn(rows[i]).value in byApn;
    }
  }

  lemma {:induction false} EarliestOfRows(rows: seq<PermitRow>, days: seq<Day>, byApn: ByApn, parcels: map<ParcelId, Parcel>,
                                          matches: Matches, p: ParcelId)
    requires |days| == |rows| && Grouped(JoinApns(rows), days, byApn) && Matched(parcels, byApn, matches) && p in matches
    requires Dated(rows, JoinApns(rows), days)
    ensures exists i :: 0 <= i < |rows| && JoinApn(rows[i]) == parcels[p].apn && rows[i].issued == Some(matches[p])
    ensures forall i :: 0 <= i < |rows| && JoinApn(rows[i]) == parcels[p].apn ==> rows[i].issued.Some? && matches[p] <= rows[i].issued.value
  {
    var apn :| apn in byApn && SoleOwner(parcels, p, apn);
    var apns := JoinApns(rows);
    assert parcels[p].apn == Some(apn) && matches[p] == Earliest(DatesOf(apns, days, apn));
    DatesComeFromRows(apns, days, apn, matches[p]);
    var j :| 0 <= j < |apns| && apns[j] == Some(apn) && days[j] == matches[p];
    assert JoinApn(rows[j]) == parcels[p].apn;
    forall i | 0 <= i < |rows| && JoinApn(rows[i]) == parcels[p].apn ensures rows[i].issued.Some? && matches[p] <= rows[i].issued.value {
      assert apns[i] == Some(apn);
      DatesComeFromRows(apns, days, apn, days[i]);
    }
  }

  // ------------------------------------------------------------------ one run

  /** Read, index, join; an empty file is refused last, where the share of unmatched rows is worked out. */
  method ReadAndJoin(rows: seq<PermitRow>, parcels: map<ParcelId, Parcel>)
    returns (ok: bool, matches: Matches, blank: nat, tally: Tally)
    ensures ok <==> Loadable(rows)
    ensures ok ==> Joins(rows, parcels, matches, blank, tally) && matches.Keys <= parcels.Keys
  {
    matches, tally := map[], Tally(0, 0, 0);
    var byApn, rowsIn;
    ghost var days;
    var apns := JoinApns(rows);
    ok, byApn, blank, rowsIn, days := ReadRows(rows, apns);
    if ok {
      matches, tally := JoinParcels(parcels, byApn, apns, days);
      ok := rowsIn != 0;
    }
  }

  method ListLost(lost: set<ParcelId>, openParcels: set<ParcelId>) returns (added: seq<NewException>)
    ensures Lists(added, PERMIT_ATTRIBUTION_LOST, LostPairs(lost - openParcels))
  {
    ListsNothing(PERMIT_ATTRIBUTION_LOST);
    added := AddFindings(lost - openParcels, NoFreshApnMatch, PERMIT_ATTRIBUTION_LOST, CoverageGap, {}, [], {});
    assert {} + NotOpen(lost - openParcels, NoFreshApnMatch, {}) == LostPairs(lost - openParcels);
  }

  /** Insert what is newly lost and link it, then close what is confirmed. */
  method WritePermitFindings(conn: Connection, lost: set<ParcelId>, confirmed: set<ParcelId>, ghost before: Rows, ghost at: Time,
                             fault: Fault, step: nat) returns (p: Progress, ghost added: seq<NewException>)
    requires before == conn.exceptions && at == conn.clock + 1 && ExceptionsHold(before, conn.clock)
    modifies conn`exceptions, conn`clock
    ensures conn.clock >= old(conn.clock)
    ensures Lists(added, PERMIT_ATTRIBUTION_LOST, LostPairs(lost - OpenParcels(before, PERMIT_ATTRIBUTION_LOST)))
    ensures p.Going? <==> fault.Spares(step, step + 3)
    ensures p.Going? ==> conn.clock == at && conn.exceptions == PermitLifecycle(before, added, confirmed, at)
  {
    var rows := ListLost(lost, OpenParcels(conn.exceptions, PERMIT_ATTRIBUTION_LOST));
    added := rows;
    PermitHolds(before, conn.clock, rows, confirmed, at, lost);
    p := fault.At(step);
    if p != Going { return; }
    if rows != [] {
      var r := conn.InsertExceptions(rows);
      if r != WriteResult.Done { p := Raised; return; }
    }
    p := fault.At(step + 1);
    if p != Going { return; }
    if rows != [] { conn.RelinkReopenedExceptions(PERMIT_ATTRIBUTION_LOST); }
    p := fault.At(step + 2);
    if p != Going { return; }
    if confirmed != {} {
      var closed := conn.CloseExceptionsForParcels(PERMIT_ATTRIBUTION_LOST, confirmed);
    } else {
      var t := conn.Now();
      CloseNothing(conn.exceptions, ConditionCleared, ByDetector(PermitAttributionLost), conn.clock);
      assert OfParcels(conn.exceptions, PERMIT_ATTRIBUTION_LOST, confirmed) == {};
    }
  }

  /** The five writing statements; nothing is committed here. */
  method WritePermits(conn: Connection, matches: Matches, cite: Citation, started: Time, fault: Fault, ghost t: Tables)
    returns (p: Progress, ghost m: PermitMoments, ghost after: Tables)
    requires t == conn.Image() && Settled(t, conn.clock) && matches.Keys <= t.parcels.Keys
    modifies conn`exceptions, conn`facts, conn`clock
    ensures conn.clock >= old(conn.clock)
    ensures m == PermitMoments(started, old(conn.clock) + 1, old(conn.clock) + 2)
    ensures p.Going? <==> fault.Spares(1, 6)
    ensures p.Going? ==> m.closed == conn.clock && conn.Image() == after && Permitted(t, after, matches, cite, m)
  {
    SettledParts(t, conn.clock, conn.clock + 1);
    m, after := PermitMoments(started, conn.clock + 1, conn.clock + 2), t;
    var retire, rows, lost, confirmed := DiffPermits(conn.facts, matches, cite);
    var now := conn.Now();
    assert m.at == now;
    p := WriteFacts(conn, PermitTarget(matches), retire, rows, started, now, fault, 1, t.facts);
    if p != Going { return; }
    ghost var added;
    p, added := WritePermitFindings(conn, lost, confirmed, t.exceptions, m.closed, fault, 3);
    if p != Going { return; }
    after := conn.Image();
    ItIsARun(t, after, matches, cite, m, PermitPlan(retire, rows, added, lost, confirmed));
  }

  method PermitTransaction(conn: Connection, job: nat, matches: Matches, cite: Citation, started: Time, fault: Fault, ghost t: Tables)
    returns (p: Progress, ghost m: PermitMoments, ghost after: Tables)
    requires t == conn.Image() == conn.saved && Settled(t, conn.clock) && job < |conn.jobs| && matches.Keys <= t.parcels.Keys
    modifies conn
    ensures conn.clock >= old(conn.clock) && conn.uuids == old(conn.uuids) && conn.currentFact == old(conn.currentFact)
    ensures m == PermitMoments(started, old(conn.clock) + 1, old(conn.clock) + 2)
    ensures p.Going? <==> fault.Spares(1, 8)
    ensures !p.Going? ==> conn.saved == t
    ensures p.Going? ==> conn.Idle() && m.closed < conn.clock && Permitted(t, after, matches, cite, m)
    ensures p.Going? ==> conn.saved == after.(jobs := Succeeds(t.jobs, job, cite.snapshot, conn.clock))
  {
    p, m, after := WritePermits(conn, matches, cite, started, fault, t);
    if p != Going { return; }
    p := fault.At(6);
    if p != Going { return; }
    conn.FinishJob(job, Succeeded, Some(cite.snapshot));
    p := fault.At(7);
    if p != Going { return; }
    conn.Commit();
  }

  /** The `try` block: the file first, then the transaction. */
  method Attempt(conn: Connection, job: nat, rows: seq<PermitRow>, cite: Citation, started: Time, fault: Fault, ghost t: Tables)
    returns (p: Progress, blank: nat, tally: Tally, ghost matches: Matches, ghost m: PermitMoments, ghost after: Tables)
    requires t == conn.Image() == conn.saved && Settled(t, conn.clock) && job < |conn.jobs|
    modifies conn
    ensures conn.clock >= old(conn.clock) && conn.uuids == old(conn.uuids) && conn.currentFact == old(conn.currentFact)
    ensures m == PermitMoments(started, old(conn.clock) + 1, old(conn.clock) + 2)
    ensures p.Going? <==> fault.Spares(0, 8) && Loadable(rows)
    ensures !p.Going? ==> conn.saved == t
    ensures p.Going? ==> conn.Idle() && m.closed < conn.clock && Permitted(t, after, matches, cite, m)
    ensures p.Going? ==> Joins(rows, t.parcels, matches, blank, tally)
    ensures p.Going? ==> conn.saved == after.(jobs := Succeeds(t.jobs, job, cite.snapshot, conn.clock))
  {
    m, after := PermitMoments(started, conn.clock + 1, conn.clock + 2), t;
    blank, tally, matches := 0, Tally(0, 0, 0), map[];
    p := fault.At(0);
    if p != Going { return; }
    var ok, found;
    ok, found, blank, tally := ReadAndJoin(rows, conn.parcels);
    matches := found;
    if !ok { p := Raised; return; }
    p, m, after := PermitTransaction(conn, job, found, cite, started, fault, t);
  }

  lemma SettledAtTheEnd(t: Tables, now: Time, p: Progress, after: Tables, matches: Matches, cite: Citation, m: PermitMoments,
                        image: Tables, later: Time)
    requires Settled(t, now) && now <= m.started < m.at < m.closed && now <= later
    requires p.Going? ==> Permitted(t, after, matches, cite, m) && m.closed <= later && image == after.(jobs := image.jobs)
    requires !p.Going? ==> image == t.(jobs := image.jobs)
    ensures Settled(image, later)
  {
    if p.Going? {
      PermittedSettles(t, now, after, matches, cite, m);
      SettledLater(after, image.jobs, m.closed, later);
    } else {
      SettledLater(t, image.jobs, now, later);
    }
  }

  /** `load_permits`. */
  method LoadPermits(conn: Connection, rows: seq<PermitRow>, cite: Citation, fault: Fault)
    returns (end: Ending, blank: nat, tally: Tally, ghost t: Tables, ghost matches: Matches, ghost m: PermitMoments, ghost after: Tables)
    requires conn.Idle() && Settled(conn.Image(), conn.clock)
    modifies conn
    ensures conn.Idle() && Settled(conn.Image(), conn.clock) && conn.uuids == old(conn.uuids)
    ensures conn.clock >= old(conn.clock) && conn.currentFact == old(conn.currentFact)
    ensures t == old(conn.Image()).(jobs := t.jobs)
    ensures m == PermitMoments(old(conn.clock) + 2, old(conn.clock) + 3, old(conn.clock) + 4)
    ensures end.Committed? <==> fault.Spares(0, 8) && Loadable(rows)
    ensures !end.Committed? ==> conn.Image() == old(conn.Image()).(jobs := conn.jobs)
    ensures end.Committed? ==> Joins(rows, t.parcels, matches, blank, tally) && Permitted(t, after, matches, cite, m)
    ensures end.Committed? ==> m.closed <= conn.clock && conn.Image() == after.(jobs := conn.jobs)
    ensures conn.jobs == old(conn.jobs) +
      [JobRun(PermitsLoad, PermitsSource, match end { case Committed => Succeeded case MarkedFailed => JobStatus.Failed case Dead => Running },
              if end.Committed? then Some(cite.snapshot) else None, old(conn.clock) + 1, if end.Dead? then None else Some(conn.clock))]
  {
    var job := conn.StartJob(PermitsLoad, PermitsSource);
    var started := conn.Now();
    t := conn.Image();
    SettledLater(old(conn.Image()), conn.jobs, old(conn.clock), started);
    var p;
    p, blank, tally, matches, m, after := Attempt(conn, job, rows, cite, started, fault, t);
    end := Conclude(conn, job, p, t);
    SettledAtTheEnd(t, started, p, after, matches, cite, m, conn.Image(), conn.clock);
  }
}
