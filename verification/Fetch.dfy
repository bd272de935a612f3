/** Any number of `run_one_fetch` processes at once: check, upload, verify, insert on
    conflict do nothing, finish.  Each step below is one commit or one object-store call. */
module Fetch {
  import opened Schema

  /** A response is known by the digest of its bytes; two different contents never share one. */
  type Digest = string

  type Process = nat

  /** Where a process is.  `ok` says whether the response was 2xx. */
  datatype Stage =
    | Started
    | Fetched(digest: Digest, ok: bool)
    | MustUpload(digest: Digest, ok: bool)
    | Uploaded(digest: Digest, ok: bool)
    | Verified(digest: Digest, ok: bool)
    | Decided(digest: Digest, ok: bool, inserted: bool)
    | Ended(status: JobStatus, cites: Option<Digest>)
    | Dead

  /** A `snapshot` row, with the run that inserted it. */
  datatype Row = Row(digest: Digest, run: Process)

  datatype Event =
    | Upload(run: Process, digest: Digest)
    | Verify(run: Process, digest: Digest)
    | Insert(run: Process, digest: Digest)
    | Finish(run: Process, digest: Digest, status: JobStatus)

  /** `store` holds, under each key, the digest of the bytes that are really there. */
  datatype World = World(stages: map<Process, Stage>, rows: seq<Row>, store: map<Digest, Digest>, log: seq<Event>)

  datatype Step =
    | Start
    | Respond(digest: Digest, ok: bool)
    | Check
    | Put(stored: Digest)
    | Confirm
    | InsertRow
    | FinishJob
    | Raise
    | Die

  predicate HasRow(rows: seq<Row>, d: Digest) {
    exists i :: 0 <= i < |rows| && rows[i].digest == d
  }

  predicate Running(w: World, p: Process) {
    p in w.stages && !w.stages[p].Ended? && !w.stages[p].Dead?
  }

  predicate Can(w: World, p: Process, step: Step) {
    match step
    case Start => p !in w.stages
    case Respond(_, _) => p in w.stages && w.stages[p].Started?
    case Check => p in w.stages && w.stages[p].Fetched?
    case Put(_) => p in w.stages && w.stages[p].MustUpload?
    case Confirm => p in w.stages && w.stages[p].Uploaded?
    case InsertRow => p in w.stages && w.stages[p].Verified?
    case FinishJob => p in w.stages && w.stages[p].Decided?
    case Raise => Running(w, p)
    case Die => Running(w, p)
  }

  /** Failed when the response was not 2xx, else by whether this run's own insert took. */
  function StatusOf(ok: bool, inserted: bool): JobStatus {
    if !ok then Failed else if inserted then Succeeded else SkippedUnchanged
  }

  function Do(w: World, p: Process, step: Step): World
    requires Can(w, p, step)
  {
    match step
    case Start => w.(stages := w.stages[p := Started])
    case Respond(d, ok) => w.(stages := w.stages[p := Fetched(d, ok)])
    case Check =>
      var s := w.stages[p];
      w.(stages := w.stages[p := if HasRow(w.rows, s.digest) then Decided(s.digest, s.ok, false) else MustUpload(s.digest, s.ok)])
    case Put(stored) =>
      var s := w.stages[p];
      w.(stages := w.stages[p := Uploaded(s.digest, s.ok)], store := w.store[s.digest := stored], log := w.log + [Upload(p, s.digest)])
    case Confirm =>
      var s := w.stages[p];
      if s.digest in w.store && w.store[s.digest] == s.digest
      then w.(stages := w.stages[p := Verified(s.digest, s.ok)], log := w.log + [Verify(p, s.digest)])
      else w.(stages := w.stages[p := Ended(Failed, None)])
    case InsertRow =>
      var s := w.stages[p];
      if HasRow(w.rows, s.digest) then w.(stages := w.stages[p := Decided(s.digest, s.ok, false)])
      else w.(stages := w.stages[p := Decided(s.digest, s.ok, true)], rows := w.rows + [Row(s.digest, p)],
              log := w.log + [Insert(p, s.digest)])
    case FinishJob =>
      var s := w.stages[p];
      var status := StatusOf(s.ok, s.inserted);
      w.(stages := w.stages[p := Ended(status, Some(s.digest))], log := w.log + [Finish(p, s.digest, status)])
    case Raise => w.(stages := w.stages[p := Ended(Failed, None)])
    case Die => w.(stages := w.stages[p := Dead])
  }

  const NOBODY := World(map[], [], map[], [])

  /** The worlds some sequence of steps of any processes leads through. */
  predicate Follows(worlds: seq<World>, steps: seq<(Process, Step)>) {
    && |worlds| == |steps| + 1
    && forall i {:trigger steps[i]} :: 0 <= i < |steps| ==>
         Can(worlds[i], steps[i].0, steps[i].1) && worlds[i + 1] == Do(worlds[i], steps[i].0, steps[i].1)
  }

  /** Every interleaving, from nothing. */
  predicate Path(worlds: seq<World>, steps: seq<(Process, Step)>) {
    Follows(worlds, steps) && worlds[0] == NOBODY
  }

  // ------------------------------------------------------------------ what the log shows

  predicate Logged(log: seq<Event>, e: Event, before: int) {
    exists i :: 0 <= i < before && i < |log| && log[i] == e
  }

  /** The run uploaded the object, then verified it, before this point of the log. */
  predicate Secured(log: seq<Event>, p: Process, d: Digest, before: int) {
    exists i, j :: 0 <= i < j < before && j < |log| && log[i] == Upload(p, d) && log[j] == Verify(p, d)
  }

  predicate InsertedBy(log: seq<Event>, d: Digest, before: int) {
    exists i :: 0 <= i < before && i < |log| && log[i].Insert? && log[i].digest == d
  }

  /** One event, against those before it. */
  predicate GoodEvent(log: seq<Event>, k: nat)
    requires k < |log|
  {
    match log[k]
    case Insert(p, d) => Secured(log, p, d, k) && !InsertedBy(log, d, k)
    case Finish(p, d, status) => InsertedBy(log, d, k) && (status == Succeeded ==> Logged(log, Insert(p, d), k))
    case _ => true
  }

  predicate GoodLog(log: seq<Event>) {
    forall k {:trigger log[k]} :: 0 <= k < |log| ==> GoodEvent(log, k)
  }

  /** The rows are the inserts of the log. */
  predicate RowsAreInserts(w: World) {
    && (forall i :: 0 <= i < |w.rows| ==> Logged(w.log, Insert(w.rows[i].run, w.rows[i].digest), |w.log|))
    && (forall k :: 0 <= k < |w.log| && w.log[k].Insert? ==> HasRow(w.rows, w.log[k].digest))
    && (forall i, j :: 0 <= i < j < |w.rows| ==> w.rows[i].digest != w.rows[j].digest)
  }

  /** What each process has behind it. */
  predicate StageHolds(w: World, p: Process)
    requires p in w.stages
  {
    match w.stages[p]
    case Uploaded(d, _) => Logged(w.log, Upload(p, d), |w.log|)
    case Verified(d, _) => Secured(w.log, p, d, |w.log|)
    case Decided(d, _, inserted) => HasRow(w.rows, d) && (inserted ==> Logged(w.log, Insert(p, d), |w.log|))
    case Ended(_, cites) => cites.Some? ==> HasRow(w.rows, cites.value)
    case _ => true
  }

  predicate Inv(w: World) {
    GoodLog(w.log) && RowsAreInserts(w) && forall p :: p in w.stages ==> StageHolds(w, p)
  }

  lemma LongerLog(log: seq<Event>, e: Event, e': Event, p: Process, d: Digest, before: nat)
    requires before <= |log|
    ensures Logged(log + [e'], e, before) <==> Logged(log, e, before)
    ensures Logged(log, e, |log|) ==> Logged(log + [e'], e, |log| + 1)
    ensures Secured(log + [e'], p, d, before) <==> Secured(log, p, d, before)
    ensures Secured(log, p, d, |log|) ==> Secured(log + [e'], p, d, |log| + 1)
    ensures InsertedBy(log + [e'], d, before) <==> InsertedBy(log, d, before)
  {
    var more := log + [e'];
    assert forall i :: 0 <= i < |log| ==> more[i] == log[i];
    if i :| 0 <= i < |log| && log[i] == e { assert more[i] == e; }
    if i, j :| 0 <= i < j < |log| && log[i] == Upload(p, d) && log[j] == Verify(p, d) {
      assert more[i] == Upload(p, d) && more[j] == Verify(p, d);
    }
  }

  /** Appending an event that is good keeps the log good. */
  lemma GoodLogGrows(log: seq<Event>, e: Event)
    requires GoodLog(log) && GoodEvent(log + [e], |log|)
    ensures GoodLog(log + [e])
  {
    var more := log + [e];
    forall k | 0 <= k < |more| ensures GoodEvent(more, k) {
      if k < |log| {
        assert GoodEvent(log, k) && more[k] == log[k];
        LongerLog(log, Insert(log[k].run, log[k].digest), e, log[k].run, log[k].digest, k);
      }
    }
  }

  // ------------------------------------------------------------------ every step keeps it

  lemma RowMeansInserted(w: World, d: Digest)
    requires RowsAreInserts(w)
    ensures HasRow(w.rows, d) <==> InsertedBy(w.log, d, |w.log|)
  {
    if i :| 0 <= i < |w.rows| && w.rows[i].digest == d {
      assert Logged(w.log, Insert(w.rows[i].run, w.rows[i].digest), |w.log|);
    }
  }

  /** A step that logs `e` and moves one process to a stage that holds. */
  lemma LoggedStep(w: World, p: Process, stage: Stage, store: map<Digest, Digest>, e: Event)
    requires Inv(w) && !e.Insert? && GoodEvent(w.log + [e], |w.log|)
    requires var w' := World(w.stages[p := stage], w.rows, store, w.log + [e]); StageHolds(w', p)
    ensures Inv(World(w.stages[p := stage], w.rows, store, w.log + [e]))
  {
    var w' := World(w.stages[p := stage], w.rows, store, w.log + [e]);
    GoodLogGrows(w.log, e);
    forall i | 0 <= i < |w'.rows| ensures Logged(w'.log, Insert(w'.rows[i].run, w'.rows[i].digest), |w'.log|) {
      LongerLog(w.log, Insert(w.rows[i].run, w.rows[i].digest), e, p, "", 0);
    }
    forall k | 0 <= k < |w'.log| && w'.log[k].Insert? ensures HasRow(w'.rows, w'.log[k].digest) {
      assert w'.log[k] == w.log[k];
    }
    forall q | q in w'.stages && q != p ensures StageHolds(w', q) {
      StageStays(w, w', q, e);
    }
  }

  lemma StageStays(w: World, w': World, q: Process, e: Event)
    requires q in w.stages && q in w'.stages && w'.stages[q] == w.stages[q] && StageHolds(w, q)
    requires w'.log == w.log + [e] && (forall d :: HasRow(w.rows, d) ==> HasRow(w'.rows, d))
    ensures StageHolds(w', q)
  {
    match w.stages[q] {
      case Uploaded(d, _) => LongerLog(w.log, Upload(q, d), e, q, d, 0);
      case Verified(d, _) => LongerLog(w.log, Upload(q, d), e, q, d, 0);
      case Decided(d, _, _) => LongerLog(w.log, Insert(q, d), e, q, d, 0);
      case _ =>
    }
  }

  /** A step that logs nothing. */
  lemma SilentStep(w: World, p: Process, stage: Stage)
    requires Inv(w) && StageHolds(w.(stages := w.stages[p := stage]), p)
    ensures Inv(w.(stages := w.stages[p := stage]))
  {
    var w' := w.(stages := w.stages[p := stage]);
    forall q | q in w'.stages && q != p ensures StageHolds(w', q) {
      assert StageHolds(w, q);
    }
  }

  lemma RowsGrow(w: World, p: Process, d: Digest)
    requires RowsAreInserts(w) && !HasRow(w.rows, d)
    ensures RowsAreInserts(w.(rows := w.rows + [Row(d, p)], log := w.log + [Insert(p, d)]))
    ensures HasRow(w.rows + [Row(d, p)], d) && forall x :: HasRow(w.rows, x) ==> HasRow(w.rows + [Row(d, p)], x)
  {
    var rows, log, e := w.rows + [Row(d, p)], w.log + [Insert(p, d)], Insert(p, d);
    assert rows[|w.rows|] == Row(d, p) && log[|w.log|] == e;
    forall x | HasRow(w.rows, x) ensures HasRow(rows, x) {
      var i :| 0 <= i < |w.rows| && w.rows[i].digest == x;
      assert rows[i].digest == x;
    }
    forall i | 0 <= i < |rows| ensures Logged(log, Insert(rows[i].run, rows[i].digest), |log|) {
      if i < |w.rows| { LongerLog(w.log, Insert(w.rows[i].run, w.rows[i].digest), e, p, d, 0); }
    }
    forall k | 0 <= k < |log| && log[k].Insert? ensures HasRow(rows, log[k].digest) {
      if k < |w.log| { assert HasRow(w.rows, w.log[k].digest); }
    }
  }

  lemma InsertStep(w: World, p: Process)
    requires Inv(w) && Can(w, p, InsertRow) && !HasRow(w.rows, w.stages[p].digest)
    ensures Inv(Do(w, p, InsertRow))
  {
    var w', d := Do(w, p, InsertRow), w.stages[p].digest;
    var e := Insert(p, d);
    assert StageHolds(w, p);
    RowMeansInserted(w, d);
    LongerLog(w.log, e, e, p, d, |w.log|);
    assert w'.log[|w.log|] == e;
    GoodLogGrows(w.log, e);
    RowsGrow(w, p, d);
    assert Logged(w'.log, e, |w'.log|);
    forall q | q in w'.stages && q != p ensures StageHolds(w', q) { StageStays(w, w', q, e); }
  }

  lemma FinishStep(w: World, p: Process)
    requires Inv(w) && Can(w, p, FinishJob)
    ensures Inv(Do(w, p, FinishJob))
  {
    var s := w.stages[p];
    var status := StatusOf(s.ok, s.inserted);
    var e := Finish(p, s.digest, status);
    assert StageHolds(w, p);
    RowMeansInserted(w, s.digest);
    LongerLog(w.log, Insert(p, s.digest), e, p, s.digest, |w.log|);
    LoggedStep(w, p, Ended(status, Some(s.digest)), w.store, e);
  }

  /** Every atomic step of every process keeps the invariant. */
  lemma StepKeeps(w: World, p: Process, step: Step)
    requires Inv(w) && Can(w, p, step)
    ensures Inv(Do(w, p, step))
  {
    assert p in w.stages ==> StageHolds(w, p);
    match step {
      case Start => SilentStep(w, p, Started);
      case Respond(d, ok) => SilentStep(w, p, Fetched(d, ok));
      case Check =>
        SilentStep(w, p, Do(w, p, step).stages[p]);
      case Put(stored) =>
        var d := w.stages[p].digest;
        assert (w.log + [Upload(p, d)])[|w.log|] == Upload(p, d);
        LoggedStep(w, p, Uploaded(d, w.stages[p].ok), w.store[d := stored], Upload(p, d));
      case Confirm => ConfirmStep(w, p);
      case InsertRow =>
        if HasRow(w.rows, w.stages[p].digest) { SilentStep(w, p, Decided(w.stages[p].digest, w.stages[p].ok, false)); }
        else { InsertStep(w, p); }
      case FinishJob => FinishStep(w, p);
      case Raise => SilentStep(w, p, Ended(Failed, None));
      case Die => SilentStep(w, p, Dead);
    }
  }

  lemma ConfirmStep(w: World, p: Process)
    requires Inv(w) && Can(w, p, Confirm)
    ensures Inv(Do(w, p, Confirm))
  {
    var s := w.stages[p];
    assert StageHolds(w, p);
    if s.digest in w.store && w.store[s.digest] == s.digest {
      var e := Verify(p, s.digest);
      var i :| 0 <= i < |w.log| && w.log[i] == Upload(p, s.digest);
      var more := w.log + [e];
      assert more[i] == Upload(p, s.digest) && more[|w.log|] == e;
      assert Secured(more, p, s.digest, |more|);
      LoggedStep(w, p, Verified(s.digest, s.ok), w.store, e);
    } else {
      SilentStep(w, p, Ended(Failed, None));
    }
  }

  lemma {:induction false} EveryInterleaving(worlds: seq<World>, steps: seq<(Process, Step)>, n: nat)
    requires Path(worlds, steps) && n < |worlds|
    ensures Inv(worlds[n])
  {
    if n > 0 {
      EveryInterleaving(worlds, steps, n - 1);
      var step := steps[n - 1];
      StepKeeps(worlds[n - 1], step.0, step.1);
    }
  }

  // ------------------------------------------------------------------ what that means

  /** The run inserted the row, after uploading and verifying its object. */
  ghost predicate InsertedSecurely(log: seq<Event>, p: Process, d: Digest) {
    exists k :: 0 <= k < |log| && log[k] == Insert(p, d) && Secured(log, p, d, k)
  }

  lemma RowIsSecured(w: World, i: nat)
    requires Inv(w) && i < |w.rows|
    ensures InsertedSecurely(w.log, w.rows[i].run, w.rows[i].digest)
  {
    var p, d := w.rows[i].run, w.rows[i].digest;
    assert Logged(w.log, Insert(p, d), |w.log|);
    var k :| 0 <= k < |w.log| && w.log[k] == Insert(p, d);
    assert GoodEvent(w.log, k);
  }

  /** One snapshot row per id at most, each inserted by a run that had already uploaded its
      object and verified it. */
  lemma {:induction false} OneSecuredRowEach(worlds: seq<World>, steps: seq<(Process, Step)>, n: nat)
    requires Path(worlds, steps) && n < |worlds|
    ensures var w := worlds[n];
      && (forall i, j :: 0 <= i < j < |w.rows| ==> w.rows[i].digest != w.rows[j].digest)
      && (forall i :: 0 <= i < |w.rows| ==> InsertedSecurely(w.log, w.rows[i].run, w.rows[i].digest))
  {
    EveryInterleaving(worlds, steps, n);
    var w := worlds[n];
    forall i | 0 <= i < |w.rows| ensures InsertedSecurely(w.log, w.rows[i].run, w.rows[i].digest) {
      RowIsSecured(w, i);
    }
  }

  lemma NoneEarlier(log: seq<Event>, i: nat, q: Process, d: Digest, j: nat)
    requires GoodLog(log) && i < |log| && log[i].Insert? && log[i].digest == d && j < |log| && log[j] == Insert(q, d)
    ensures j <= i
  {
    assert GoodEvent(log, j) && !InsertedBy(log, d, j);
  }

  lemma InsertersAgree(log: seq<Event>, p: Process, q: Process, d: Digest)
    requires GoodLog(log) && Logged(log, Insert(p, d), |log|) && Logged(log, Insert(q, d), |log|)
    ensures p == q
  {
    var i :| 0 <= i < |log| && log[i] == Insert(p, d);
    var j :| 0 <= j < |log| && log[j] == Insert(q, d);
    NoneEarlier(log, i, q, d, j);
    NoneEarlier(log, j, p, d, i);
  }

  /** At most one run per id reports success, and it is the run that inserted the row. */
  lemma {:induction false} OneSuccessEach(worlds: seq<World>, steps: seq<(Process, Step)>, n: nat, p: Process, q: Process, d: Digest)
    requires Path(worlds, steps) && n < |worlds|
    requires Logged(worlds[n].log, Finish(p, d, Succeeded), |worlds[n].log|)
    ensures Logged(worlds[n].log, Insert(p, d), |worlds[n].log|)
    ensures Logged(worlds[n].log, Finish(q, d, Succeeded), |worlds[n].log|) ==> q == p
  {
    EveryInterleaving(worlds, steps, n);
    var log := worlds[n].log;
    SuccessInserted(log, p, d);
    if Logged(log, Finish(q, d, Succeeded), |log|) {
      SuccessInserted(log, q, d);
      InsertersAgree(log, p, q, d);
    }
  }

  lemma SuccessInserted(log: seq<Event>, p: Process, d: Digest)
    requires GoodLog(log) && Logged(log, Finish(p, d, Succeeded), |log|)
    ensures Logged(log, Insert(p, d), |log|)
  {
    var k :| 0 <= k < |log| && log[k] == Finish(p, d, Succeeded);
    assert GoodEvent(log, k);
    var i :| 0 <= i < k && i < |log| && log[i] == Insert(p, d);
    assert log[i] == Insert(p, d);
  }

  /** A run that finished, whatever its status, cites a row that was there before it did. */
  lemma {:induction false} FinishedRunsCiteARow(worlds: seq<World>, steps: seq<(Process, Step)>, n: nat, k: nat)
    requires Path(worlds, steps) && n < |worlds| && k < |worlds[n].log| && worlds[n].log[k].Finish?
    ensures InsertedBy(worlds[n].log, worlds[n].log[k].digest, k) && HasRow(worlds[n].rows, worlds[n].log[k].digest)
  {
    EveryInterleaving(worlds, steps, n);
    var w := worlds[n];
    assert GoodEvent(w.log, k);
    var i :| 0 <= i < k && i < |w.log| && w.log[i].Insert? && w.log[i].digest == w.log[k].digest;
    assert w.log[i].Insert?;
  }

  // ------------------------------------------------------------------ the object behind the row

  /** What the last upload to a key left there. */
  function LastPut(worlds: seq<World>, steps: seq<(Process, Step)>, d: Digest): Option<Digest>
    requires |worlds| == |steps| + 1
    decreases |steps|
  {
    if steps == [] then None
    else
      var n := |steps| - 1;
      if Uploads(worlds[n], steps[n], d) then Some(steps[n].1.stored) else LastPut(worlds[..n + 1], steps[..n], d)
  }

  predicate Uploads(w: World, step: (Process, Step), d: Digest) {
    step.1.Put? && Can(w, step.0, step.1) && w.stages[step.0].digest == d
  }

  lemma {:induction false} PathPrefix(worlds: seq<World>, steps: seq<(Process, Step)>)
    requires Path(worlds, steps) && steps != []
    ensures Path(worlds[..|steps|], steps[..|steps| - 1])
  {
    var n := |steps| - 1;
    forall i | 0 <= i < n
      ensures Can(worlds[..n + 1][i], steps[..n][i].0, steps[..n][i].1)
      ensures worlds[..n + 1][i + 1] == Do(worlds[..n + 1][i], steps[..n][i].0, steps[..n][i].1)
    {
      var step := steps[i];
    }
  }

  /** The bytes behind a key are those of the last upload to it, so the object a row points
      at is the row's content exactly when the last upload under that key was faithful;
      that its own run verified it before inserting the row is not enough. */
  lemma {:induction false} ObjectIsTheLastUpload(worlds: seq<World>, steps: seq<(Process, Step)>, d: Digest)
    requires Path(worlds, steps)
    ensures LastPut(worlds, steps, d) == if d in worlds[|steps|].store then Some(worlds[|steps|].store[d]) else None
    decreases |steps|
  {
    if steps != [] {
      var n := |steps| - 1;
      var step := steps[n];
      PathPrefix(worlds, steps);
      ObjectIsTheLastUpload(worlds[..n + 1], steps[..n], d);
      assert worlds[n + 1] == Do(worlds[n], step.0, step.1);
    }
  }

  // ------------------------------------------------------------------ what was verified was stored

  /** Some upload of these bytes before the n-th step stored just them. */
  ghost predicate StoredFaithfully(worlds: seq<World>, steps: seq<(Process, Step)>, d: Digest, n: nat)
    requires |worlds| == |steps| + 1
  {
    exists k :: 0 <= k < n && k < |steps| && Uploads(worlds[k], steps[k], d) && steps[k].1.stored == d
  }

  /** Whatever is under a key was put there, and what is verified or recorded was put there faithfully. */
  ghost predicate Backed(worlds: seq<World>, steps: seq<(Process, Step)>, n: nat)
    requires |worlds| == |steps| + 1 && n < |worlds|
  {
    var w := worlds[n];
    && (forall d :: d in w.store && w.store[d] == d ==> StoredFaithfully(worlds, steps, d, n))
    && (forall p :: p in w.stages && w.stages[p].Verified? ==> StoredFaithfully(worlds, steps, w.stages[p].digest, n))
    && (forall i :: 0 <= i < |w.rows| ==> StoredFaithfully(worlds, steps, w.rows[i].digest, n))
  }

  lemma FaithfulLater(worlds: seq<World>, steps: seq<(Process, Step)>, d: Digest, n: nat)
    requires |worlds| == |steps| + 1 && StoredFaithfully(worlds, steps, d, n)
    ensures StoredFaithfully(worlds, steps, d, n + 1)
  {
  }

  lemma BackedStep(worlds: seq<World>, steps: seq<(Process, Step)>, n: nat)
    requires Path(worlds, steps) && n < |steps| && Backed(worlds, steps, n)
    ensures Backed(worlds, steps, n + 1)
  {
    var w, step, w' := worlds[n], steps[n], worlds[n + 1];
    assert w' == Do(w, step.0, step.1);
    forall d | d in w'.store && w'.store[d] == d ensures StoredFaithfully(worlds, steps, d, n + 1) {
      if Uploads(w, step, d) {
        assert step.1.stored == d;
      } else {
        assert d in w.store && w.store[d] == d;
        FaithfulLater(worlds, steps, d, n);
      }
    }
    forall p | p in w'.stages && w'.stages[p].Verified? ensures StoredFaithfully(worlds, steps, w'.stages[p].digest, n + 1) {
      if p == step.0 && step.1.Confirm? {
        FaithfulLater(worlds, steps, w.stages[p].digest, n);
      } else {
        assert p in w.stages && w.stages[p] == w'.stages[p];
        FaithfulLater(worlds, steps, w.stages[p].digest, n);
      }
    }
    forall i | 0 <= i < |w'.rows| ensures StoredFaithfully(worlds, steps, w'.rows[i].digest, n + 1) {
      if i < |w.rows| {
        assert w'.rows[i] == w.rows[i];
      } else {
        assert w.stages[step.0].Verified? && w'.rows[i].digest == w.stages[step.0].digest;
      }
      FaithfulLater(worlds, steps, w'.rows[i].digest, n);
    }
  }

  lemma {:induction false} AlwaysBacked(worlds: seq<World>, steps: seq<(Process, Step)>, n: nat)
    requires Path(worlds, steps) && n < |worlds|
    ensures Backed(worlds, steps, n)
  {
    if n > 0 {
      AlwaysBacked(worlds, steps, n - 1);
      BackedStep(worlds, steps, n - 1);
    }
  }

  /** No row without a faithful upload: whatever the interleaving, a recorded snapshot's bytes were once
      stored under its key just as they were fetched. */
  lemma {:induction false} RecordedWasStored(worlds: seq<World>, steps: seq<(Process, Step)>, n: nat, d: Digest)
    requires Path(worlds, steps) && n < |worlds| && HasRow(worlds[n].rows, d)
    ensures exists k :: 0 <= k < n && Uploads(worlds[k], steps[k], d) && steps[k].1.stored == d
  {
    AlwaysBacked(worlds, steps, n);
    var i :| 0 <= i < |worlds[n].rows| && worlds[n].rows[i].digest == d;
    assert StoredFaithfully(worlds, steps, worlds[n].rows[i].digest, n);
  }

  lemma {:induction false} PathUpTo(worlds: seq<World>, steps: seq<(Process, Step)>, n: nat)
    requires Path(worlds, steps) && n <= |steps|
    ensures Path(worlds[..n + 1], steps[..n])
    decreases |steps| - n
  {
    if n < |steps| {
      PathUpTo(worlds, steps, n + 1);
      PathPrefix(worlds[..n + 2], steps[..n + 1]);
      assert worlds[..n + 2][..n + 1] == worlds[..n + 1] && steps[..n + 1][..n] == steps[..n];
    } else {
      assert worlds[..n + 1] == worlds && steps[..n] == steps;
    }
  }

  /** A run that is over stays over, and nothing of it is added later. */
  lemma {:induction false} EndedStays(worlds: seq<World>, steps: seq<(Process, Step)>, k: nat, n: nat, p: Process)
    requires Follows(worlds, steps) && k <= n < |worlds| && p in worlds[k].stages && worlds[k].stages[p].Ended?
    ensures p in worlds[n].stages && worlds[n].stages[p] == worlds[k].stages[p]
    ensures forall i :: |worlds[k].rows| <= i < |worlds[n].rows| ==> worlds[n].rows[i].run != p
    decreases n - k
  {
    if k < n {
      EndedStays(worlds, steps, k, n - 1, p);
      var step := steps[n - 1];
      assert worlds[n] == Do(worlds[n - 1], step.0, step.1);
    }
  }

  /** The check after an upload succeeds exactly when the last upload under the key, whoever made it, stored
      just the bytes fetched; otherwise the run has failed for good, cites nothing and records nothing. */
  lemma {:induction false} ConfirmReadsBack(worlds: seq<World>, steps: seq<(Process, Step)>, k: nat, n: nat, p: Process, d: Digest)
    requires Path(worlds, steps) && k < |steps| && k < n < |worlds| && steps[k] == (p, Confirm) && worlds[k].stages[p].digest == d
    ensures worlds[k + 1].stages[p].Verified? <==> LastPut(worlds[..k + 1], steps[..k], d) == Some(d)
    ensures LastPut(worlds[..k + 1], steps[..k], d) != Some(d) ==>
      && p in worlds[n].stages && worlds[n].stages[p] == Ended(Failed, None)
      && forall i :: |worlds[k].rows| <= i < |worlds[n].rows| ==> worlds[n].rows[i].run != p
  {
    var step := steps[k];
    assert worlds[k + 1] == Do(worlds[k], step.0, step.1);
    PathUpTo(worlds, steps, k);
    ObjectIsTheLastUpload(worlds[..k + 1], steps[..k], d);
    assert worlds[..k + 1][|steps[..k]|] == worlds[k];
    if LastPut(worlds[..k + 1], steps[..k], d) != Some(d) { EndedStays(worlds, steps, k + 1, n, p); }
  }

  // ------------------------------------------------------------------ what a status says

  /** What a process knows of its response is what it got. */
  ghost predicate Answered(worlds: seq<World>, steps: seq<(Process, Step)>, p: Process, d: Digest, ok: bool, n: nat)
    requires |worlds| == |steps| + 1
  {
    exists k :: 0 <= k < n && k < |steps| && steps[k] == (p, Respond(d, ok))
  }

  ghost predicate KnowsItsAnswer(worlds: seq<World>, steps: seq<(Process, Step)>, p: Process, n: nat)
    requires |worlds| == |steps| + 1 && n < |worlds| && p in worlds[n].stages
  {
    match worlds[n].stages[p]
    case Fetched(d, ok) => Answered(worlds, steps, p, d, ok, n)
    case MustUpload(d, ok) => Answered(worlds, steps, p, d, ok, n)
    case Uploaded(d, ok) => Answered(worlds, steps, p, d, ok, n)
    case Verified(d, ok) => Answered(worlds, steps, p, d, ok, n)
    case Decided(d, ok, _) => Answered(worlds, steps, p, d, ok, n)
    case _ => true
  }

  lemma AnsweredLater(worlds: seq<World>, steps: seq<(Process, Step)>, p: Process, d: Digest, ok: bool, n: nat)
    requires |worlds| == |steps| + 1 && Answered(worlds, steps, p, d, ok, n)
    ensures Answered(worlds, steps, p, d, ok, n + 1)
  {
  }

  lemma {:induction false} AnswersAreKept(worlds: seq<World>, steps: seq<(Process, Step)>, p: Process, n: nat)
    requires Path(worlds, steps) && n < |worlds| && p in worlds[n].stages
    ensures KnowsItsAnswer(worlds, steps, p, n)
  {
    if n > 0 {
      var step := steps[n - 1];
      var w := worlds[n - 1];
      assert worlds[n] == Do(w, step.0, step.1);
      if step == (p, step.1) && step.1.Respond? {
        assert Answered(worlds, steps, p, step.1.digest, step.1.ok, n);
      } else if p in w.stages {
        AnswersAreKept(worlds, steps, p, n - 1);
        var s := w.stages[p];
        if s.Fetched? || s.MustUpload? || s.Uploaded? || s.Verified? || s.Decided? {
          AnsweredLater(worlds, steps, p, s.digest, s.ok, n - 1);
        }
      }
    }
  }

  /** A run finishes as failed exactly when its response was not 2xx, and otherwise as succeeded exactly
      when its own insert took; either way it cites the snapshot of the bytes it got. */
  lemma {:induction false} StatusSaysWhatHappened(worlds: seq<World>, steps: seq<(Process, Step)>, n: nat, p: Process)
    returns (d: Digest, ok: bool)
    requires Path(worlds, steps) && n < |steps| && steps[n] == (p, FinishJob)
    ensures exists k :: 0 <= k < n && steps[k] == (p, Respond(d, ok))
    ensures var status := if !ok then Failed else if Logged(worlds[n].log, Insert(p, d), |worlds[n].log|) then Succeeded else SkippedUnchanged;
      worlds[n + 1].stages[p] == Ended(status, Some(d)) && worlds[n + 1].log == worlds[n].log + [Finish(p, d, status)]
  {
    var step := steps[n];
    var s := worlds[n].stages[p];
    assert worlds[n + 1] == Do(worlds[n], step.0, step.1);
    d, ok := s.digest, s.ok;
    AnswersAreKept(worlds, steps, p, n);
    InsertedIsLogged(worlds, steps, n, p);
  }

  /** No process inserts before it is verified, nor twice. */
  ghost predicate InsertIsNoted(w: World, p: Process) {
    if p !in w.stages then forall d :: !Logged(w.log, Insert(p, d), |w.log|)
    else match w.stages[p]
      case Decided(d, _, inserted) => forall d' :: Logged(w.log, Insert(p, d'), |w.log|) <==> inserted && d' == d
      case Ended(_, _) => true
      case Dead => true
      case _ => forall d :: !Logged(w.log, Insert(p, d), |w.log|)
  }

  lemma {:induction false} InsertedIsLogged(worlds: seq<World>, steps: seq<(Process, Step)>, n: nat, p: Process)
    requires Path(worlds, steps) && n < |worlds|
    ensures InsertIsNoted(worlds[n], p)
  {
    if n > 0 {
      InsertedIsLogged(worlds, steps, n - 1, p);
      var step := steps[n - 1];
      assert worlds[n] == Do(worlds[n - 1], step.0, step.1);
      InsertIsNotedNext(worlds[n - 1], step.0, step.1, p);
    }
  }

  lemma InsertIsNotedNext(w: World, q: Process, step: Step, p: Process)
    requires Can(w, q, step) && InsertIsNoted(w, p)
    ensures InsertIsNoted(Do(w, q, step), p)
  {
    var w' := Do(w, q, step);
    forall d' ensures Logged(w'.log, Insert(p, d'), |w'.log|) <==>
      Logged(w.log, Insert(p, d'), |w.log|) || (w.log < w'.log && w'.log[|w.log|] == Insert(p, d'))
    {
      LoggedOneMore(w.log, w'.log, Insert(p, d'));
    }
    if p != q { assert (p in w'.stages <==> p in w.stages) && (p in w.stages ==> w'.stages[p] == w.stages[p]); }
  }

  lemma LoggedOneMore(log: seq<Event>, more: seq<Event>, e: Event)
    requires log <= more && |more| <= |log| + 1
    ensures Logged(more, e, |more|) <==> Logged(log, e, |log|) || (|more| > |log| && more[|log|] == e)
  {
    if i :| 0 <= i < |log| && log[i] == e { assert more[i] == e; }
    if i :| 0 <= i < |more| && more[i] == e { if i < |log| { assert log[i] == e; } }
  }

  // ------------------------------------------------------------------ how long it stays so

  /** Some process found the snapshot missing and has still to upload it. */
  predicate Waiting(w: World, d: Digest) {
    exists p :: p in w.stages && w.stages[p].MustUpload? && w.stages[p].digest == d
  }

  /** The same bytes, or none, under the key. */
  predicate SameObject(a: World, b: World, d: Digest) {
    (d in a.store <==> d in b.store) && (d in a.store ==> b.store[d] == a.store[d])
  }

  /** Recorded, with nobody left to upload it: from here on a fetch of it finds the row. */
  predicate AtRest(w: World, d: Digest) {
    HasRow(w.rows, d) && !Waiting(w, d)
  }

  lemma RestStep(w: World, p: Process, step: Step, d: Digest)
    requires AtRest(w, d) && Can(w, p, step)
    ensures AtRest(Do(w, p, step), d) && SameObject(w, Do(w, p, step), d)
  {
    var w' := Do(w, p, step);
    var i :| 0 <= i < |w.rows| && w.rows[i].digest == d;
    assert w'.rows[i] == w.rows[i];
    forall q | q in w'.stages ensures !(w'.stages[q].MustUpload? && w'.stages[q].digest == d) {
      if q in w.stages { assert !(w.stages[q].MustUpload? && w.stages[q].digest == d); }
    }
    if step.Put? { assert w.stages[p].digest != d; }
  }

  lemma {:induction false} RestStays(worlds: seq<World>, steps: seq<(Process, Step)>, n: nat, d: Digest)
    requires Follows(worlds, steps) && n < |worlds| && AtRest(worlds[0], d)
    ensures AtRest(worlds[n], d) && SameObject(worlds[0], worlds[n], d)
  {
    if n > 0 {
      RestStays(worlds, steps, n - 1, d);
      var step := steps[n - 1];
      RestStep(worlds[n - 1], step.0, step.1, d);
    }
  }

  /** One upload by a process that waits replaces the object. */
  lemma WaitingCanReplace(w: World, d: Digest) returns (worlds: seq<World>, steps: seq<(Process, Step)>)
    requires Waiting(w, d)
    ensures Follows(worlds, steps) && worlds[0] == w && !SameObject(w, worlds[|steps|], d)
  {
    var p :| p in w.stages && w.stages[p].MustUpload? && w.stages[p].digest == d;
    var other := if d in w.store then w.store[d] + "'" else d;
    var step := Put(other);
    worlds, steps := [w, Do(w, p, step)], [(p, step)];
    assert d in w.store ==> |other| != |w.store[d]|;
  }

  /** A recorded snapshot's object can never change again exactly when no process that found the
      snapshot missing has still to upload it: whether it can is settled by the processes that
      looked before the row was inserted. */
  lemma {:induction false} ObjectIsFinalIff(w: World, d: Digest)
    requires HasRow(w.rows, d)
    ensures !Waiting(w, d) <==>
      forall worlds, steps :: Follows(worlds, steps) && worlds[0] == w ==> SameObject(w, worlds[|steps|], d)
  {
    if Waiting(w, d) {
      var worlds, steps := WaitingCanReplace(w, d);
      assert Follows(worlds, steps) && worlds[0] == w;
    } else {
      forall worlds, steps | Follows(worlds, steps) && worlds[0] == w ensures SameObject(w, worlds[|steps|], d) {
        RestStays(worlds, steps, |steps|, d);
      }
    }
  }

  /** One more step on a path, and the world it ends in. */
  lemma {:induction false} PathGrows(worlds: seq<World>, steps: seq<(Process, Step)>, p: Process, step: Step)
    returns (worlds': seq<World>, steps': seq<(Process, Step)>)
    requires Path(worlds, steps) && Can(worlds[|steps|], p, step)
    ensures Path(worlds', steps') && |steps'| == |steps| + 1 && worlds'[|steps'|] == Do(worlds[|steps|], p, step)
  {
    worlds', steps' := worlds + [Do(worlds[|steps|], p, step)], steps + [(p, step)];
    forall i | 0 <= i < |steps'|
      ensures Can(worlds'[i], steps'[i].0, steps'[i].1) && worlds'[i + 1] == Do(worlds'[i], steps'[i].0, steps'[i].1)
    {
      if i < |steps| { var old' := steps[i]; }
    }
  }

  /** Both runs have found the snapshot missing. */
  lemma {:induction false} BothMustUpload() returns (worlds: seq<World>, steps: seq<(Process, Step)>)
    ensures Path(worlds, steps)
    ensures worlds[|steps|] == World(map[0 := MustUpload("x", true), 1 := MustUpload("x", true)], [], map[], [])
  {
    worlds, steps := [NOBODY], [];
    worlds, steps := PathGrows(worlds, steps, 0, Start);
    worlds, steps := PathGrows(worlds, steps, 0, Respond("x", true));
    worlds, steps := PathGrows(worlds, steps, 0, Check);
    worlds, steps := PathGrows(worlds, steps, 1, Start);
    worlds, steps := PathGrows(worlds, steps, 1, Respond("x", true));
    worlds, steps := PathGrows(worlds, steps, 1, Check);
  }

  /** Two runs fetch the same new content and both look before either inserts; the first
      uploads, verifies and inserts; the second then uploads something else. */
  lemma {:induction false} VerifiedObjectCanBeOverwritten() returns (worlds: seq<World>, steps: seq<(Process, Step)>)
    ensures Path(worlds, steps)
    ensures var w := worlds[|steps|]; HasRow(w.rows, "x") && "x" in w.store && w.store["x"] == "y"
  {
    worlds, steps := BothMustUpload();
    worlds, steps := PathGrows(worlds, steps, 0, Put("x"));
    worlds, steps := PathGrows(worlds, steps, 0, Confirm);
    worlds, steps := PathGrows(worlds, steps, 0, InsertRow);
    assert worlds[|steps|].rows[0].digest == "x";
    worlds, steps := PathGrows(worlds, steps, 1, Put("y"));
  }

  // ------------------------------------------------------------------ nobody waits for anybody

  /** What a process does next when nothing goes wrong. */
  function Next(stage: Stage, d: Digest, ok: bool): Step
    requires !stage.Ended? && !stage.Dead?
  {
    match stage
    case Started => Respond(d, ok)
    case Fetched(_, _) => Check
    case MustUpload(content, _) => Put(content)
    case Uploaded(_, _) => Confirm
    case Verified(_, _) => InsertRow
    case Decided(_, _, _) => FinishJob
  }

  function StepsLeft(stage: Stage): nat {
    match stage
    case Started => 6
    case Fetched(_, _) => 5
    case MustUpload(_, _) => 4
    case Uploaded(_, _) => 3
    case Verified(_, _) => 2
    case Decided(_, _, _) => 1
    case _ => 0
  }

  lemma FollowsFrom(w: World, p: Process, step: Step, worlds: seq<World>, steps: seq<(Process, Step)>)
    requires Can(w, p, step) && Follows(worlds, steps) && worlds[0] == Do(w, p, step)
    ensures Follows([w] + worlds, [(p, step)] + steps)
  {
    var worlds', steps' := [w] + worlds, [(p, step)] + steps;
    forall i | 0 <= i < |steps'|
      ensures Can(worlds'[i], steps'[i].0, steps'[i].1) && worlds'[i + 1] == Do(worlds'[i], steps'[i].0, steps'[i].1)
    {
      if i > 0 { var old' := steps[i - 1]; }
    }
  }

  /** The object the process has uploaded is, at this moment, another one. */
  ghost predicate Spoilt(w: World, stage: Stage) {
    stage.Uploaded? && !(stage.digest in w.store && w.store[stage.digest] == stage.digest)
  }

  /** Whatever the others have done, a running process can end within six steps of its own, citing a row, unless the
      object it has uploaded has been replaced. */
  lemma {:induction false} NobodyWaits(w: World, p: Process, d: Digest, ok: bool)
    returns (worlds: seq<World>, steps: seq<(Process, Step)>)
    requires Running(w, p)
    ensures Follows(worlds, steps) && worlds[0] == w && |steps| <= 6
    ensures forall i :: 0 <= i < |steps| ==> steps[i].0 == p && steps[i].1 != Raise && steps[i].1 != Die
    ensures p in worlds[|steps|].stages && worlds[|steps|].stages[p].Ended?
    ensures worlds[|steps|].stages[p].cites.Some? <==> !Spoilt(w, w.stages[p])
    ensures |steps| <= StepsLeft(w.stages[p])
    decreases StepsLeft(w.stages[p])
  {
    var step := Next(w.stages[p], d, ok);
    var w' := Do(w, p, step);
    var rest, more := [w'], [];
    if Running(w', p) { rest, more := NobodyWaits(w', p, d, ok); }
    FollowsFrom(w, p, step, rest, more);
    worlds, steps := [w] + rest, [(p, step)] + more;
  }
}
