/** Histories with their `job_run` rows: what the anchor row says about the tables. */
module JobLog {
  import opened Schema
  import opened Ledger
  import opened ParcelsModel
  import opened ParcelsWrites
  import opened ParcelsKeep
  import opened ParcelsTheorems
  import opened ParcelsRun
  import opened ParcelsShortcut
  import opened Invariants
  import opened Database
  import opened Runs
  import C = Centroids
  import Z = ZoningRun
  import ZM = ZoningModel
  import PR = PermitRows
  import P = PermitsRun

  /** What a snapshot identifier stands for: the parsed file, and when it was fetched. */
  datatype Snapshot = Snapshot(features: seq<Feature>, fetchedAt: Time)

  type Library = SnapshotId -> Snapshot

  function StagingIn(lib: Library, s: SnapshotId): Staging {
    var features := lib(s).features;
    if Identified(features) then StagingOf(features) else map[]
  }

  function CiteOf(lib: Library, s: SnapshotId): Citation {
    Citation(s, lib(s).fetchedAt)
  }

  // ------------------------------------------------------------------ the anchor and its streak

  /** The first of the anchors, up to the n-th row, that ends with an unbroken streak of this snapshot. */
  function Streak(jobs: seq<JobRun>, source: Source, s: SnapshotId, n: nat): (r: Option<nat>)
    requires n <= |jobs|
    ensures r.Some? ==> r.value < n && Anchors(jobs[r.value], source) && jobs[r.value].snapshot == Some(s)
  {
    if n == 0 then None
    else if !Anchors(jobs[n - 1], source) then Streak(jobs, source, s, n - 1)
    else if jobs[n - 1].snapshot != Some(s) then None
    else if Streak(jobs, source, s, n - 1).Some? then Streak(jobs, source, s, n - 1) else Some(n - 1)
  }

  /** The streak of the current anchor began with a full load: that load had another anchor before it. */
  ghost predicate BegunByAFullLoad(jobs: seq<JobRun>, s: SnapshotId) {
    var first := Streak(jobs, ParcelsSource, s, |jobs|);
    first.Some? && jobs[first.value].key == FullLoad
  }

  /** Anchors finish in the order of their rows, and in the past. */
  ghost predicate InOrder(jobs: seq<JobRun>, now: Time) {
    && (forall i :: 0 <= i < |jobs| && Anchors(jobs[i], ParcelsSource) ==>
          jobs[i].finishedAt.Some? && jobs[i].finishedAt.value <= now)
    && (forall i, j :: 0 <= i < j < |jobs| && Anchors(jobs[i], ParcelsSource) && Anchors(jobs[j], ParcelsSource) ==>
          jobs[i].finishedAt.value < jobs[j].finishedAt.value)
  }

  /** There is a streak of a snapshot exactly when that snapshot is the anchor. */
  lemma {:induction false} StreakIsTheAnchors(jobs: seq<JobRun>, now: Time, s: SnapshotId, n: nat)
    requires InOrder(jobs, now) && n <= |jobs|
    ensures var r := PreviousRun(jobs, ParcelsSource, n);
      Streak(jobs, ParcelsSource, s, n).Some? <==> r.Some? && jobs[r.value].snapshot == Some(s)
  {
    if n > 0 {
      StreakIsTheAnchors(jobs, now, s, n - 1);
      var best := PreviousRun(jobs, ParcelsSource, n - 1);
      if Anchors(jobs[n - 1], ParcelsSource) && best.Some? { assert Later(jobs[n - 1], jobs[best.value]); }
    }
  }

  lemma {:induction false} StreakPrefix(jobs: seq<JobRun>, row: JobRun, s: SnapshotId, n: nat)
    requires n <= |jobs|
    ensures Streak(jobs + [row], ParcelsSource, s, n) == Streak(jobs, ParcelsSource, s, n)
  {
    if n > 0 {
      StreakPrefix(jobs, row, s, n - 1);
      assert (jobs + [row])[n - 1] == jobs[n - 1];
    }
  }

  // ------------------------------------------------------------------ what a run records

  /** The one row a run adds.  A full load that succeeds reconciled its snapshot, unless that was the anchor;
      nothing else reconciles. */
  ghost predicate Records(a: State, run: Run, b: State, row: JobRun, lib: Library) {
    && b.tables.jobs == a.tables.jobs + [row]
    && (Anchors(row, ParcelsSource) ==> row.finishedAt.Some? && a.time < row.finishedAt.value <= b.time)
    && if Anchors(row, ParcelsSource) && row.key == FullLoad && PreviousSuccessful(a.tables.jobs, ParcelsSource) != row.snapshot
       then run.Parcels? && run.staging == StagingIn(lib, row.snapshot.value) && run.cite == CiteOf(lib, row.snapshot.value)
       else !run.Parcels?
  }

  /** A history whose job rows are those its runs record, from a time without any success. */
  ghost predicate Logged(states: seq<State>, runs: seq<Run>, rows: seq<JobRun>, lib: Library) {
    && History(states, runs) && |rows| == |runs|
    && (forall i :: 0 <= i < |states[0].tables.jobs| ==> !Anchors(states[0].tables.jobs[i], ParcelsSource))
    && forall i {:trigger rows[i]} :: 0 <= i < |rows| ==> Records(states[i], runs[i], states[i + 1], rows[i], lib)
  }

  /** What the anchor says: when its streak began with a full load, nothing about its snapshot is left to write. */
  ghost predicate AnchorHolds(a: State, lib: Library) {
    && InOrder(a.tables.jobs, a.time)
    && forall s :: BegunByAFullLoad(a.tables.jobs, s) ==> IsConverged(a.tables, StagingIn(lib, s), CiteOf(lib, s))
  }

  lemma OrderGrows(jobs: seq<JobRun>, now: Time, row: JobRun, later: Time)
    requires InOrder(jobs, now) && now <= later
    requires Anchors(row, ParcelsSource) ==> row.finishedAt.Some? && now < row.finishedAt.value <= later
    ensures InOrder(jobs + [row], later)
  {
    var more := jobs + [row];
    assert forall i :: 0 <= i < |jobs| ==> more[i] == jobs[i];
  }

  /** Where a streak that began with a full load stands after one more row. */
  lemma StreakStep(jobs: seq<JobRun>, now: Time, row: JobRun, s: SnapshotId)
    requires InOrder(jobs, now) && BegunByAFullLoad(jobs + [row], s)
    ensures BegunByAFullLoad(jobs, s) ||
      (Anchors(row, ParcelsSource) && row.key == FullLoad && row.snapshot == Some(s)
       && PreviousSuccessful(jobs, ParcelsSource) != row.snapshot)
    ensures Anchors(row, ParcelsSource) ==> row.snapshot == Some(s)
    ensures BegunByAFullLoad(jobs, s) ==> PreviousSuccessful(jobs, ParcelsSource) == Some(s)
  {
    StreakPrefix(jobs, row, s, |jobs|);
    StreakIsTheAnchors(jobs, now, s, |jobs|);
    var more := jobs + [row];
    assert more[|jobs|] == row;
    var before := Streak(jobs, ParcelsSource, s, |jobs|);
    if before.Some? { assert more[before.value] == jobs[before.value]; }
  }

  lemma AnchorStep(a: State, run: Run, b: State, row: JobRun, lib: Library)
    requires Settled(a.tables, a.time) && Ran(a, run, b) && Records(a, run, b, row, lib) && AnchorHolds(a, lib)
    ensures AnchorHolds(b, lib)
  {
    StepSettles(a, run, b);
    OrderGrows(a.tables.jobs, a.time, row, b.time);
    forall s | BegunByAFullLoad(b.tables.jobs, s) ensures IsConverged(b.tables, StagingIn(lib, s), CiteOf(lib, s)) {
      StreakStep(a.tables.jobs, a.time, row, s);
      if run.Parcels? {
        StepConverges(a, run, b);
      } else {
        StepStaysConverged(a, run, b, StagingIn(lib, s), CiteOf(lib, s));
      }
    }
  }

  lemma {:induction false} AnchorAlwaysHolds(states: seq<State>, runs: seq<Run>, rows: seq<JobRun>, lib: Library, n: nat)
    requires Logged(states, runs, rows, lib) && n < |states|
    ensures AnchorHolds(states[n], lib)
  {
    if n == 0 {
      forall s ensures !BegunByAFullLoad(states[0].tables.jobs, s) { }
    } else {
      AnchorAlwaysHolds(states, runs, rows, lib, n - 1);
      AlwaysSettled(states, runs, n - 1);
      HistoryStep(states, runs, n - 1);
      var row := rows[n - 1];
      AnchorStep(states[n - 1], runs[n - 1], states[n], row, lib);
    }
  }

  /** The tables alone, whatever their job rows. */
  lemma ConvergedWhateverTheJobs(t: Tables, jobs: seq<JobRun>, staging: Staging, cite: Citation)
    requires IsConverged(t, staging, cite)
    ensures IsConverged(t.(jobs := jobs), staging, cite)
  {
    ViewKeepsConverged(t, t.(jobs := jobs), staging, cite);
  }

  /** When the anchor's streak began with a full load, the shortcut leaves just what the full path would,
      and the full path could be taken. */
  lemma {:induction false} AnchoredShortcutIsSound(states: seq<State>, runs: seq<Run>, rows: seq<JobRun>, lib: Library, n: nat,
                                                   s: SnapshotId, t: Tables, quick: Tables, full: Tables, m: Moments, m': Moments)
    requires Logged(states, runs, rows, lib) && n < |states| && BegunByAFullLoad(states[n].tables.jobs, s)
    requires t == states[n].tables.(jobs := t.jobs)
    requires Achieved(t, quick, true, StagingIn(lib, s), CiteOf(lib, s), m)
    requires Achieved(t, full, false, StagingIn(lib, s), CiteOf(lib, s), m')
    ensures quick == full
    ensures PreviousSuccessful(states[n].tables.jobs, ParcelsSource) == Some(s)
    ensures Fits(t, false, StagingIn(lib, s), CiteOf(lib, s), m.at)
  {
    var now := states[n];
    AnchorAlwaysHolds(states, runs, rows, lib, n);
    AlwaysSettled(states, runs, n);
    StreakIsTheAnchors(now.tables.jobs, now.time, s, |now.tables.jobs|);
    ConvergedWhateverTheJobs(now.tables, t.jobs, StagingIn(lib, s), CiteOf(lib, s));
    SettledLater(now.tables, t.jobs, now.time, now.time);
    SettledIsKept(t, now.time);
    ShortcutEqualsFullPath(t, now.time, quick, full, StagingIn(lib, s), CiteOf(lib, s), m, m');
    FullPathFits(t, StagingIn(lib, s), CiteOf(lib, s), m.at);
  }

  // ------------------------------------------------------------------ the loaders write such a history

  /** The log ends where the connection is. */
  ghost predicate LoggedTo(states: seq<State>, runs: seq<Run>, rows: seq<JobRun>, lib: Library, conn: Connection)
    reads conn
  {
    Logged(states, runs, rows, lib) && states[|runs|] == State(conn.Image(), conn.clock)
  }

  lemma LogGrows(states: seq<State>, runs: seq<Run>, rows: seq<JobRun>, lib: Library, run: Run, row: JobRun, b: State)
    requires Logged(states, runs, rows, lib) && Ran(states[|runs|], run, b) && Records(states[|runs|], run, b, row, lib)
    ensures Logged(states + [b], runs + [run], rows + [row], lib)
  {
    var more, all, log := states + [b], runs + [run], rows + [row];
    assert more[0] == states[0];
    forall i | 0 <= i < |all|
      ensures Ran(more[i], all[i], more[i + 1]) && Records(more[i], all[i], more[i + 1], log[i], lib)
    {
      if i < |runs| {
        HistoryStep(states, runs, i);
        assert more[i] == states[i] && more[i + 1] == states[i + 1] && all[i] == runs[i] && log[i] == rows[i];
      } else {
        assert more[i] == states[|runs|] && more[i + 1] == b;
      }
    }
  }

  /** `phase_e` on a stored snapshot. */
  method LogPhaseE(conn: Connection, lib: Library, s: SnapshotId, fault: Fault, refreshFails: bool,
                   ghost states: seq<State>, ghost runs: seq<Run>, ghost rows: seq<JobRun>)
    returns (end: Ending, ghost run: Run, ghost row: JobRun)
    requires conn.Idle() && Settled(conn.Image(), conn.clock) && Fresh(conn) && LoggedTo(states, runs, rows, lib, conn)
    modifies conn
    ensures conn.Idle() && Settled(conn.Image(), conn.clock) && Fresh(conn)
    ensures LoggedTo(states + [State(conn.Image(), conn.clock)], runs + [run], rows + [row], lib, conn)
    ensures row.key == FullLoad && row.source == ParcelsSource
    ensures end.Committed? <==> row.status == Succeeded && row.snapshot == Some(s)
    ensures old(PreviousSuccessful(conn.jobs, ParcelsSource)) == Some(s) ==> conn.Image() == old(conn.Image()).(jobs := conn.jobs)
    ensures old(BegunByAFullLoad(conn.jobs, s)) && end.Committed? ==>
      forall full, m :: Reconciled(conn.Image(), full, StagingIn(lib, s), CiteOf(lib, s), m) ==> full == conn.Image()
  {
    ghost var a := State(conn.Image(), conn.clock);
    ghost var t, same, staging, m, after;
    end, t, same, staging, m, after := PhaseE(conn, lib(s).features, CiteOf(lib, s), fault, refreshFails);
    ghost var b := State(conn.Image(), conn.clock);
    row := conn.jobs[|a.tables.jobs|];
    run := if end.Committed? && !same then Parcels(staging, CiteOf(lib, s), m, t.jobs) else Nothing;
    if end.Committed? { PhaseEIsARun(a.tables, a.time, t, after, b.tables, b.time, same, staging, CiteOf(lib, s), m); }
    LogGrows(states, runs, rows, lib, run, row, b);
    if BegunByAFullLoad(a.tables.jobs, s) { NothingIsLeft(states, runs, rows, lib, s, b.tables, b.time); }
  }

  lemma NothingIsLeft(states: seq<State>, runs: seq<Run>, rows: seq<JobRun>, lib: Library, s: SnapshotId, t: Tables, later: Time)
    requires Logged(states, runs, rows, lib) && BegunByAFullLoad(states[|runs|].tables.jobs, s)
    ensures PreviousSuccessful(states[|runs|].tables.jobs, ParcelsSource) == Some(s)
    ensures t == states[|runs|].tables.(jobs := t.jobs) && Settled(t, later) ==>
      forall full, m :: Reconciled(t, full, StagingIn(lib, s), CiteOf(lib, s), m) ==> full == t
  {
    var a := states[|runs|];
    AnchorAlwaysHolds(states, runs, rows, lib, |runs|);
    StreakIsTheAnchors(a.tables.jobs, a.time, s, |a.tables.jobs|);
    if t == a.tables.(jobs := t.jobs) && Settled(t, later) {
      ConvergedWhateverTheJobs(a.tables, t.jobs, StagingIn(lib, s), CiteOf(lib, s));
      SettledIsKept(t, later);
      forall full, m | Reconciled(t, full, StagingIn(lib, s), CiteOf(lib, s), m) ensures full == t {
        ConvergedIsFixed(t, later, full, StagingIn(lib, s), CiteOf(lib, s), m);
      }
    }
  }

  /** A fetch that recorded a new snapshot. */
  method LogFetch(conn: Connection, lib: Library, s: SnapshotId,
                  ghost states: seq<State>, ghost runs: seq<Run>, ghost rows: seq<JobRun>)
    returns (ghost run: Run, ghost row: JobRun)
    requires conn.Idle() && Settled(conn.Image(), conn.clock) && Fresh(conn) && LoggedTo(states, runs, rows, lib, conn)
    modifies conn
    ensures conn.Idle() && Settled(conn.Image(), conn.clock) && Fresh(conn)
    ensures LoggedTo(states + [State(conn.Image(), conn.clock)], runs + [run], rows + [row], lib, conn)
    ensures row.key == FetchParcels && Anchors(row, ParcelsSource) && row.snapshot == Some(s)
    ensures conn.Image() == old(conn.Image()).(jobs := old(conn.jobs) + [row])
    ensures PreviousSuccessful(conn.jobs, ParcelsSource) == Some(s)
  {
    ghost var a := State(conn.Image(), conn.clock);
    var job := RecordFetch(conn, s);
    ghost var b := State(conn.Image(), conn.clock);
    row, run := conn.jobs[|a.tables.jobs|], Nothing;
    assert b.tables.jobs == a.tables.jobs + [row];
    AnchorAlwaysHolds(states, runs, rows, lib, |runs|);
    LatestSuccessIsTheAnchor(a.tables.jobs, row);
    SettledLater(a.tables, b.tables.jobs, a.time, b.time);
    LogGrows(states, runs, rows, lib, run, row, b);
  }

  method LogZoning(conn: Connection, lib: Library, pg: C.PostGis, features: seq<ZM.ZoneFeature>, cite: Citation, fault: Fault,
                   ghost states: seq<State>, ghost runs: seq<Run>, ghost rows: seq<JobRun>)
    returns (end: Ending, ghost run: Run, ghost row: JobRun)
    requires conn.Idle() && Settled(conn.Image(), conn.clock) && LoggedTo(states, runs, rows, lib, conn)
    modifies conn
    ensures conn.Idle() && Settled(conn.Image(), conn.clock)
    ensures LoggedTo(states + [State(conn.Image(), conn.clock)], runs + [run], rows + [row], lib, conn)
  {
    ghost var a := State(conn.Image(), conn.clock);
    ghost var t, m, after;
    end, t, m, after := Z.LoadZoning(conn, pg, features, cite, fault);
    ghost var b := State(conn.Image(), conn.clock);
    row, run := conn.jobs[|a.tables.jobs|], Nothing;
    if end.Committed? {
      LoadZoningIsARun(a.tables, a.time, t, after, b.tables, b.time, pg, ZM.DistrictsOf(pg, features), cite, m);
      run := Zoning(pg, ZM.DistrictsOf(pg, features), cite, m, t.jobs);
    }
    LogGrows(states, runs, rows, lib, run, row, b);
  }

  method LogPermits(conn: Connection, lib: Library, file: seq<PR.PermitRow>, cite: Citation, fault: Fault,
                    ghost states: seq<State>, ghost runs: seq<Run>, ghost rows: seq<JobRun>)
    returns (end: Ending, ghost run: Run, ghost row: JobRun)
    requires conn.Idle() && Settled(conn.Image(), conn.clock) && LoggedTo(states, runs, rows, lib, conn)
    modifies conn
    ensures conn.Idle() && Settled(conn.Image(), conn.clock)
    ensures LoggedTo(states + [State(conn.Image(), conn.clock)], runs + [run], rows + [row], lib, conn)
  {
    ghost var a := State(conn.Image(), conn.clock);
    ghost var t, matches, m, after;
    var blank, tally;
    end, blank, tally, t, matches, m, after := P.LoadPermits(conn, file, cite, fault);
    ghost var b := State(conn.Image(), conn.clock);
    row, run := conn.jobs[|a.tables.jobs|], Nothing;
    if end.Committed? {
      LoadPermitsIsARun(a.tables, a.time, t, after, b.tables, b.time, matches, cite, m);
      run := Permits(matches, cite, m, t.jobs);
    }
    LogGrows(states, runs, rows, lib, run, row, b);
  }
}
