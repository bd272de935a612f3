/** One connection to the database, and the statements the ingest scripts issue on it. */
module Database {
  import opened Schema
  import opened Ledger
  import opened Exceptions

  /** How a shared write helper ends: normally, by refusing what it was given before
      it issues a statement, or on the unique index it would break. */
  datatype WriteResult = Done | Refused(column: string) | UniqueViolation

  /** How far a transaction has got: still going, raised, or the process is dead. */
  datatype Progress = Going | Raised | Died

  /** Where, if anywhere, the world interferes with a run: just before its numbered
      step, a statement raises or the process dies. */
  datatype Fault = NoFault | Raises(step: nat) | Dies(step: nat) {
    function At(step: nat): (p: Progress)
      ensures p.Raised? <==> this == Raises(step)
      ensures p.Died? <==> this == Dies(step)
    {
      if this == Raises(step) then Raised else if this == Dies(step) then Died else Going
    }

    /** Nothing happens at steps `lo` up to `hi`. */
    predicate Spares(lo: nat, hi: nat)
      ensures Spares(lo, hi) <==> forall step :: lo <= step < hi ==> At(step) == Going
    {
      assert Raises? || Dies? ==> At(this.step) != Going;
      NoFault? || !(lo <= this.step < hi)
    }
  }

  class Connection {
    var facts: seq<Fact>
    var exceptions: seq<ExceptionRow>
    var identities: map<FeatureId, Identity>
    var parcels: map<ParcelId, Parcel>
    var jobs: seq<JobRun>

    /** What the last commit made durable. */
    var saved: Tables

    /** The `current_fact` materialised view, as of its last refresh. */
    var currentFact: seq<Fact>

    /** `clock_timestamp()`: never reads the same value twice. */
    var clock: Time

    /** No uuid at or above this one has been handed out. */
    var uuids: ParcelId

    constructor (initial: Tables, now: Time, nextUuid: ParcelId)
      ensures Image() == initial == saved && clock == now && uuids == nextUuid
    {
      facts, exceptions, identities := initial.facts, initial.exceptions, initial.identities;
      parcels, jobs, saved := initial.parcels, initial.jobs, initial;
      currentFact, clock, uuids := [], now, nextUuid;
    }

    /** What this transaction sees. */
    function Image(): Tables
      reads this
    {
      Tables(facts, exceptions, identities, parcels, jobs)
    }

    /** No transaction is open. */
    predicate Idle()
      reads this
    {
      saved == Image()
    }

    method Now() returns (t: Time)
      modifies `clock
      ensures t == clock == old(clock) + 1
    {
      clock := clock + 1;
      t := clock;
    }

    method Commit()
      modifies `saved
      ensures saved == Image()
    {
      saved := Image();
    }

    method Rollback()
      modifies this
      ensures Image() == saved == old(saved)
      ensures clock == old(clock) && uuids == old(uuids) && currentFact == old(currentFact)
    {
      facts, exceptions, identities := saved.facts, saved.exceptions, saved.identities;
      parcels, jobs := saved.parcels, saved.jobs;
    }

    // ---------------------------------------------------------------- job_run

    method StartJob(key: JobKey, source: Source) returns (job: nat)
      requires Idle()
      modifies `jobs, `saved, `clock
      ensures clock == old(clock) + 1 && job == |old(jobs)|
      ensures jobs == old(jobs) + [JobRun(key, source, Running, None, clock, None)]
      ensures Idle()
    {
      var t := Now();
      job := |jobs|;
      jobs := jobs + [JobRun(key, source, Running, None, t, None)];
      Commit();
    }

    /** Does not commit: the caller commits it with the rows it describes. */
    method FinishJob(job: nat, status: JobStatus, snapshot: Option<SnapshotId>)
      requires job < |jobs|
      modifies `jobs, `clock
      ensures clock == old(clock) + 1
      ensures jobs == old(jobs)[job := old(jobs)[job].(status := status, snapshot := snapshot, finishedAt := Some(clock))]
    {
      var t := Now();
      jobs := jobs[job := jobs[job].(status := status, snapshot := snapshot, finishedAt := Some(t))];
    }

    method FailJob(job: nat)
      requires job < |saved.jobs|
      modifies this
      ensures clock == old(clock) + 1 && uuids == old(uuids) && currentFact == old(currentFact)
      ensures saved == old(saved).(jobs := old(saved).jobs[job := old(saved).jobs[job].(status := Failed, finishedAt := Some(clock))])
      ensures Idle()
    {
      Rollback();
      var t := Now();
      jobs := jobs[job := jobs[job].(status := Failed, finishedAt := Some(t))];
      Commit();
    }

    /** After the commit and outside it. */
    method RefreshCurrentFact(fails: bool)
      requires Idle()
      modifies `currentFact
      ensures currentFact == if fails then old(currentFact) else facts
    {
      if !fails { currentFact := facts; }
    }

    // ---------------------------------------------------------------- core/store.py, core/exceptions.py

    method SupersedeFacts(ids: set<nat>, at: Time)
      modifies `facts
      ensures facts == Retire(old(facts), ids, at)
    {
      facts := Retire(facts, ids, at);
    }

    /** All or nothing on the columns it does not write; then row by row, each checked
        against the unique index at once. */
    method InsertFacts(rows: seq<NewFact>, started: Time) returns (r: WriteResult)
      modifies `facts
      ensures r.Refused? <==> !Writable(rows)
      ensures r.Refused? ==> facts == old(facts)
      ensures r.Done? ==> facts == Insert(old(facts), rows, started)
      ensures r.UniqueViolation? ==> exists n :: 0 <= n <= |rows| && !OneLive(Insert(old(facts), rows[..n], started))
      ensures old(OneLive(facts)) ==> OneLive(facts)
    {
      for j := 0 to |rows|
        invariant forall j' :: 0 <= j' < j ==> rows[j'].unwritten == {}
      {
        if rows[j].unwritten != {} {
          var column :| column in rows[j].unwritten;
          return Refused(column);
        }
      }
      ghost var before := facts;
      assert Insert(before, rows[..0], started) == before;
      for j := 0 to |rows|
        invariant facts == Insert(before, rows[..j], started)
        invariant OneLive(before) ==> OneLive(facts)
      {
        var row := Stamp(rows[j], started);
        assert Insert(before, rows[..j + 1], started) == facts + [row];
        if exists i :: 0 <= i < |facts| && IsLive(facts, i) && facts[i].key == row.key {
          ghost var i :| 0 <= i < |facts| && IsLive(facts, i) && facts[i].key == row.key;
          ghost var next := Insert(before, rows[..j + 1], started);
          assert IsLive(next, i) && IsLive(next, |facts|) && next[i].key == next[|facts|].key;
          return UniqueViolation;
        }
        assert forall i :: IsLive(facts, i) ==> (facts + [row])[i] == facts[i];
        facts := facts + [row];
      }
      assert rows[..|rows|] == rows;
      r := Done;
    }

    method InsertExceptions(added: seq<NewException>) returns (r: WriteResult)
      modifies `exceptions
      ensures r.Refused? <==> exists j :: 0 <= j < |added| && added[j].rulesetVersion.Some?
      ensures r.Refused? ==> exceptions == old(exceptions)
      ensures r.Done? ==> exceptions == Append(old(exceptions), added)
      ensures r.UniqueViolation? ==> !old(OneOpen(exceptions)) || !CanAdd(old(exceptions), added)
      ensures old(OneOpen(exceptions)) ==> OneOpen(exceptions)
    {
      for j := 0 to |added|
        invariant forall j' :: 0 <= j' < j ==> added[j'].rulesetVersion.None?
      {
        if added[j].rulesetVersion.Some? { return Refused("ruleset_version"); }
      }
      ghost var before := exceptions;
      assert Append(before, added[..0]) == before;
      for j := 0 to |added|
        invariant exceptions == Append(before, added[..j])
        invariant OneOpen(before) ==> OneOpen(exceptions)
      {
        var row := Detected(added[j]);
        assert Append(before, added[..j + 1]) == exceptions + [row];
        if exists i :: 0 <= i < |exceptions| && IsOpen(exceptions, i) && SameIndexKey(exceptions[i], row) {
          ghost var i :| 0 <= i < |exceptions| && IsOpen(exceptions, i) && SameIndexKey(exceptions[i], row);
          if i < |before| { assert IsOpen(before, i); }
          return UniqueViolation;
        }
        assert forall i :: IsOpen(exceptions, i) ==> (exceptions + [row])[i] == exceptions[i];
        exceptions := exceptions + [row];
      }
      assert added[..|added|] == added;
      r := Done;
    }

    method CloseResolvedExceptions(detector: Detector, stillTrue: set<(ParcelId, Reason)>) returns (closed: nat)
      modifies `exceptions, `clock
      ensures clock == old(clock) + 1
      ensures var hit := NotStillTrue(old(exceptions), detector, stillTrue);
        && exceptions == Close(old(exceptions), hit, ConditionCleared, ByDetector(detector.key), clock)
        && closed == |hit|
      // Row by row: the open rows of this detector and version that have a reason which was not found again.
      ensures |exceptions| == |old(exceptions)|
      ensures forall i :: 0 <= i < |exceptions| ==>
        var was := old(exceptions)[i];
        exceptions[i] ==
          if was.status.Open? && was.detector == detector && was.reason.Some? && (was.parcel, was.reason.value) !in stillTrue
          then was.(status := Closed(ConditionCleared, clock, ByDetector(detector.key))) else was
    {
      var t := Now();
      var hit := NotStillTrue(exceptions, detector, stillTrue);
      exceptions := Close(exceptions, hit, ConditionCleared, ByDetector(detector.key), t);
      closed := |hit|;
    }

    method CloseExceptionsForParcels(detector: Detector, parcelIds: set<ParcelId>) returns (closed: nat)
      modifies `exceptions, `clock
      ensures clock == old(clock) + 1
      ensures var hit := OfParcels(old(exceptions), detector, parcelIds);
        && exceptions == Close(old(exceptions), hit, ConditionCleared, ByDetector(detector.key), clock)
        && closed == |hit|
      // Row by row: the open rows of this detector and version for these parcels, whatever their reason.
      ensures |exceptions| == |old(exceptions)|
      ensures forall i :: 0 <= i < |exceptions| ==>
        var was := old(exceptions)[i];
        exceptions[i] ==
          if was.status.Open? && was.detector == detector && was.parcel in parcelIds
          then was.(status := Closed(ConditionCleared, clock, ByDetector(detector.key))) else was
    {
      var t := Now();
      var hit := OfParcels(exceptions, detector, parcelIds);
      exceptions := Close(exceptions, hit, ConditionCleared, ByDetector(detector.key), t);
      closed := |hit|;
    }

    method RelinkReopenedExceptions(detector: Detector)
      modifies `exceptions
      ensures exceptions == Relink(old(exceptions), detector)
      // Row by row: only the link of an open, unlinked row of this detector and version moves, and it moves to a
      // closed row of the same finding than which no other was closed later, if there is one.
      ensures |exceptions| == |old(exceptions)|
      ensures forall i :: 0 <= i < |exceptions| ==>
        var was := old(exceptions)[i];
        && exceptions[i] == was.(reopenedFrom := exceptions[i].reopenedFrom)
        && if was.status.Open? && was.detector == detector && was.reopenedFrom.None?
           then LatestClosing(old(exceptions), was, exceptions[i].reopenedFrom)
           else exceptions[i].reopenedFrom == was.reopenedFrom
    {
      exceptions := Relink(exceptions, detector);
    }

    /** By hand, once, when a detector's version is retired.  A second call changes nothing. */
    method RetireStrandedExceptions(detector: Detector) returns (retired: nat)
      modifies `exceptions, `clock
      ensures clock == old(clock) + 1
      ensures var hit := AtVersion(old(exceptions), detector);
        && exceptions == Close(old(exceptions), hit, VersionRetired, DetectorVersionRetired, clock)
        && retired == |hit|
      ensures AtVersion(exceptions, detector) == {}
    {
      var t := Now();
      var hit := AtVersion(exceptions, detector);
      exceptions := Close(exceptions, hit, VersionRetired, DetectorVersionRetired, t);
      retired := |hit|;
    }
  }

  // ------------------------------------------------------------------ the two statements every loader ends with

  lemma RetireNothing(ledger: seq<Fact>, at: Time)
    ensures Retire(ledger, {}, at) == ledger
  {
  }

  lemma CloseNothing(rows: Rows, outcome: Outcome, actor: Actor, at: Time)
    ensures Close(rows, {}, outcome, actor, at) == rows
  {
  }

  /** No row carries a value for a column that is not written. */
  predicate Writable(rows: seq<NewFact>) {
    forall j :: 0 <= j < |rows| ==> rows[j].unwritten == {}
  }

  /** Retire, then insert: a planned batch is never refused, and never meets the unique index. */
  method WriteFacts(conn: Connection, ghost target: Target, retire: set<nat>, rows: seq<NewFact>, started: Time, at: Time,
                    fault: Fault, step: nat, ghost before: seq<Fact>) returns (p: Progress)
    requires before == conn.facts
    modifies conn`facts
    ensures p.Going? ==> fault.Spares(step, step + 2) && conn.facts == Write(before, retire, rows, started, at)
    ensures fault.Spares(step, step + 2) && Writable(rows) && Sound(before) && Planned(before, target, retire, rows) ==> p.Going?
  {
    p := fault.At(step);
    if p != Going { return; }
    if retire != {} { conn.SupersedeFacts(retire, at); }
    RetireNothing(before, at);
    p := fault.At(step + 1);
    if p != Going { return; }
    if rows != [] {
      var r := conn.InsertFacts(rows, started);
      if r != Done {
        if Sound(before) && Planned(before, target, retire, rows) {
          forall n | 0 <= n <= |rows| ensures OneLive(Insert(Retire(before, retire, at), rows[..n], started)) {
            SoundAtEveryStep(before, target, retire, rows, started, at, n);
          }
        }
        return Raised;
      }
    }
  }

  // ------------------------------------------------------------------ how every run ends

  /** What a run leaves: the ledger committed, the run marked failed, or the process dead before its commit. */
  datatype Ending = Committed | MarkedFailed | Dead

  /** The run is marked succeeded on this snapshot. */
  function Succeeds(jobs: seq<JobRun>, job: nat, snapshot: SnapshotId, at: Time): seq<JobRun>
    requires job < |jobs|
  {
    jobs[job := jobs[job].(status := Succeeded, snapshot := Some(snapshot), finishedAt := Some(at))]
  }

  /** The run on record: running, failed or succeeded, as it ended. */
  function Recorded(job: JobRun, end: Ending, snapshot: SnapshotId, at: Time): JobRun {
    match end
    case Committed => job.(status := Succeeded, snapshot := Some(snapshot), finishedAt := Some(at))
    case MarkedFailed => job.(status := Failed, finishedAt := Some(at))
    case Dead => job
  }

  /** The `except` block, or what the server does when its client is gone. */
  method Conclude(conn: Connection, job: nat, p: Progress, ghost t: Tables) returns (end: Ending)
    requires job < |t.jobs| && if p.Going? then conn.Idle() else conn.saved == t
    modifies conn
    ensures conn.clock >= old(conn.clock) && conn.uuids == old(conn.uuids) && conn.currentFact == old(conn.currentFact)
    ensures conn.Idle() && end == match p { case Going => Committed case Raised => MarkedFailed case Died => Dead }
    ensures p.Going? ==> conn.Image() == old(conn.Image()) && conn.clock == old(conn.clock)
    ensures p.Raised? ==> conn.Image() == t.(jobs := t.jobs[job := t.jobs[job].(status := Failed, finishedAt := Some(conn.clock))])
    ensures p.Died? ==> conn.Image() == t
    ensures conn.parcels == if p.Going? then old(conn.parcels) else t.parcels
  {
    match p {
      case Raised =>
        conn.FailJob(job);
        end := MarkedFailed;
      case Died =>
        conn.Rollback();
        end := Dead;
      case Going =>
        end := Committed;
    }
  }
}
