/** The append-only fact ledger: what one transaction of a loader does to it, and
    what every such transaction keeps. */
module Ledger {
  import opened Schema

  predicate IsLive(ledger: seq<Fact>, i: int) {
    0 <= i < |ledger| && ledger[i].supersededAt.None?
  }

  /** `fact_one_current_per_source`. */
  ghost predicate OneLive(ledger: seq<Fact>) {
    forall i, j :: IsLive(ledger, i) && IsLive(ledger, j) && ledger[i].key == ledger[j].key ==> i == j
  }

  predicate HasPredecessor(ledger: seq<Fact>, i: int) {
    0 <= i < |ledger| && ledger[i].supersedes.Some?
  }

  /** What 0042 and 0044 check of one row at commit, with "an earlier row" added. */
  predicate GoodPredecessor(ledger: seq<Fact>, i: int)
    requires HasPredecessor(ledger, i)
  {
    var p := ledger[i].supersedes.value;
    p < i && ledger[p].key == ledger[i].key && ledger[p].supersededAt.Some?
  }

  /** The supersession graph is a set of lines. */
  ghost predicate Lines(ledger: seq<Fact>) {
    && (forall i :: HasPredecessor(ledger, i) ==> GoodPredecessor(ledger, i))
    && (forall i, j ::
          HasPredecessor(ledger, i) && HasPredecessor(ledger, j) && ledger[i].supersedes == ledger[j].supersedes
          ==> i == j)
  }

  ghost predicate Sound(ledger: seq<Fact>) {
    OneLive(ledger) && Lines(ledger)
  }

  /** Every stamp is in the past, and no fact ends before it was recorded (`fact_txn_time`). */
  ghost predicate Timed(ledger: seq<Fact>, now: Time) {
    forall i {:trigger ledger[i]} :: 0 <= i < |ledger| ==>
      && ledger[i].recordedAt <= now
      && (ledger[i].supersededAt.Some? ==> ledger[i].recordedAt <= ledger[i].supersededAt.value <= now)
  }

  // ------------------------------------------------------------------ reading the ledger

  ghost function LiveId(ledger: seq<Fact>, k: Key): (id: Option<nat>)
    ensures id.Some? ==> IsLive(ledger, id.value) && ledger[id.value].key == k
    ensures id.None? ==> forall i :: IsLive(ledger, i) ==> ledger[i].key != k
  {
    if exists i: int :: IsLive(ledger, i) && ledger[i].key == k then
      var i: int :| IsLive(ledger, i) && ledger[i].key == k;
      Some(i)
    else
      None
  }

  ghost function LiveValue(ledger: seq<Fact>, k: Key): Option<Value> {
    match LiveId(ledger, k)
    case None => None
    case Some(i) => Some(ledger[i].value)
  }

  /** What a live value is, without the function that finds it. */
  lemma LiveValueMeans(ledger: seq<Fact>, k: Key, v: Value)
    requires OneLive(ledger)
    ensures LiveValue(ledger, k) == Some(v) <==>
      exists i :: 0 <= i < |ledger| && ledger[i].key == k && ledger[i].supersededAt.None? && ledger[i].value == v
  {
    if i :| 0 <= i < |ledger| && ledger[i].key == k && ledger[i].supersededAt.None? && ledger[i].value == v {
      LiveIdIs(ledger, i);
    }
    if LiveValue(ledger, k) == Some(v) {
      var i := LiveId(ledger, k).value;
      assert IsLive(ledger, i) && ledger[i].key == k;
    }
  }

  lemma LiveIdIs(ledger: seq<Fact>, i: nat)
    requires OneLive(ledger) && IsLive(ledger, i)
    ensures LiveId(ledger, ledger[i].key) == Some(i)
  {
  }

  /** `SELECT ... FROM fact WHERE source_id = ... AND field_key IN (...) AND superseded_at IS NULL`. */
  function LiveRows(ledger: seq<Fact>, source: Source, fields: set<Field>): (live: map<Key, nat>)
    requires OneLive(ledger)
    ensures forall k: Key :: k.source == source && k.field in fields ==>
      LiveId(ledger, k) == if k in live then Some(live[k]) else None
    ensures forall k: Key :: k in live ==> k.source == source && k.field in fields
  {
    map i | 0 <= i < |ledger| && IsLive(ledger, i)
            && ledger[i].key.source == source && ledger[i].key.field in fields
      :: ledger[i].key := i
  }

  // ------------------------------------------------------------------ writing to the ledger

  /** `UPDATE fact SET superseded_at = at WHERE id = ANY(ids) AND superseded_at IS NULL`. */
  function Retire(ledger: seq<Fact>, ids: set<nat>, at: Time): (r: seq<Fact>)
    ensures |r| == |ledger|
  {
    seq(|ledger|, i requires 0 <= i < |ledger| =>
      if i in ids && ledger[i].supersededAt.None? then ledger[i].(supersededAt := Some(at)) else ledger[i])
  }

  /** `recorded_at` defaults to `now()`, the start of the transaction. */
  function Stamp(row: NewFact, started: Time): Fact {
    Fact(row.key, row.value, row.snapshot, row.effectiveFrom, row.verbatim, started, row.supersedes, None)
  }

  function Insert(ledger: seq<Fact>, rows: seq<NewFact>, started: Time): (r: seq<Fact>)
    ensures |r| == |ledger| + |rows|
  {
    ledger + seq(|rows|, j requires 0 <= j < |rows| => Stamp(rows[j], started))
  }

  function Write(ledger: seq<Fact>, retire: set<nat>, rows: seq<NewFact>, started: Time, at: Time): (r: seq<Fact>)
    ensures |r| == |ledger| + |rows|
  {
    Insert(Retire(ledger, retire, at), rows, started)
  }

  // ------------------------------------------------------------------ a planned batch

  /** A loader works out, for each key it looked at, the value its source now
      supports (`None`: no value).  `target` holds those keys and values. */
  type Target = map<Key, Option<Value>>

  predicate Disagrees(ledger: seq<Fact>, target: Target, i: int) {
    IsLive(ledger, i) && ledger[i].key in target && target[ledger[i].key] != Some(ledger[i].value)
  }

  ghost predicate NeedsRow(ledger: seq<Fact>, target: Target, k: Key) {
    k in target && target[k].Some? && target[k] != LiveValue(ledger, k)
  }

  ghost predicate RowFits(ledger: seq<Fact>, target: Target, row: NewFact) {
    && NeedsRow(ledger, target, row.key)
    && target[row.key] == Some(row.value)
    && row.supersedes == LiveId(ledger, row.key)
  }

  ghost predicate HasRow(rows: seq<NewFact>, k: Key) {
    exists j :: 0 <= j < |rows| && rows[j].key == k
  }

  /** The two lists a loader hands to its final statements, against its target:
      exactly the disagreeing facts are retired, exactly the missing values are
      written, each once, each naming the fact it replaces when there is one. */
  ghost predicate Planned(ledger: seq<Fact>, target: Target, retire: set<nat>, rows: seq<NewFact>) {
    && (forall i :: i in retire <==> Disagrees(ledger, target, i))
    && (forall j :: 0 <= j < |rows| ==> RowFits(ledger, target, rows[j]))
    && (forall j, j' :: 0 <= j < j' < |rows| ==> rows[j].key != rows[j'].key)
    && (forall k :: NeedsRow(ledger, target, k) ==> HasRow(rows, k))
  }

  lemma NothingPlanned(ledger: seq<Fact>)
    ensures Planned(ledger, map[], {}, [])
  {
  }

  /** One more key: the only ways a loader may extend its two lists. */
  lemma PlanStep(ledger: seq<Fact>, target: Target, retire: set<nat>, rows: seq<NewFact>,
                 k: Key, v: Option<Value>, retire': set<nat>, rows': seq<NewFact>)
    requires OneLive(ledger) && Planned(ledger, target, retire, rows) && k !in target
    requires retire' == if LiveValue(ledger, k).Some? && LiveValue(ledger, k) != v
                        then retire + {LiveId(ledger, k).value} else retire
    requires if v.Some? && v != LiveValue(ledger, k)
             then rows' != [] && rows'[..|rows'| - 1] == rows && RowFits(ledger, map[k := v], rows'[|rows'| - 1])
             else rows' == rows
    ensures Planned(ledger, target[k := v], retire', rows')
  {
    var target' := target[k := v];
    forall i ensures i in retire' <==> Disagrees(ledger, target', i) {
      if IsLive(ledger, i) { LiveIdIs(ledger, i); }
    }
    forall j | 0 <= j < |rows'| ensures RowFits(ledger, target', rows'[j]) {
      if j < |rows| { assert rows'[j] == rows[j]; }
    }
    forall j, j' | 0 <= j < j' < |rows'| ensures rows'[j].key != rows'[j'].key {
      assert RowFits(ledger, target, rows[j]) && rows'[j] == rows[j];
      if j' < |rows| { assert rows'[j'] == rows[j']; }
    }
    forall k' | NeedsRow(ledger, target', k') ensures HasRow(rows', k') {
      if k' == k {
        assert rows'[|rows'| - 1].key == k;
      } else {
        assert NeedsRow(ledger, target, k');
        var j :| 0 <= j < |rows| && rows[j].key == k';
        assert rows'[j].key == k';
      }
    }
  }

  /** Keys that already hold their value may join the target for free. */
  lemma PlanIdle(ledger: seq<Fact>, target: Target, retire: set<nat>, rows: seq<NewFact>, wider: Target)
    requires OneLive(ledger) && Planned(ledger, target, retire, rows)
    requires forall k :: k in target ==> k in wider && wider[k] == target[k]
    requires forall k :: k in wider && k !in target ==> wider[k] == LiveValue(ledger, k)
    ensures Planned(ledger, wider, retire, rows)
  {
    forall i ensures Disagrees(ledger, wider, i) <==> Disagrees(ledger, target, i) {
      if IsLive(ledger, i) { LiveIdIs(ledger, i); }
    }
    assert forall k :: NeedsRow(ledger, wider, k) <==> NeedsRow(ledger, target, k);
    forall j | 0 <= j < |rows| ensures RowFits(ledger, wider, rows[j]) {
      assert RowFits(ledger, target, rows[j]);
    }
  }

  /** One key of a plan: retire what is live, write what is supported. */
  ghost predicate FieldStep(ledger: seq<Fact>, k: Key, v: Option<Value>, retire: set<nat>, rows: seq<NewFact>,
                            retire': set<nat>, rows': seq<NewFact>)
  {
    if LiveValue(ledger, k) == v then retire' == retire && rows' == rows
    else
      && retire' == (if LiveId(ledger, k).Some? then retire + {LiveId(ledger, k).value} else retire)
      && (v.None? ==> rows' == rows)
      && (v.Some? ==> |rows'| == |rows| + 1 && rows'[..|rows|] == rows && rows'[|rows|].key == k
                      && rows'[|rows|].value == v.value && rows'[|rows|].supersedes == LiveId(ledger, k))
  }

  lemma FieldStepPlans(ledger: seq<Fact>, target: Target, k: Key, v: Option<Value>, retire: set<nat>,
                       rows: seq<NewFact>, retire': set<nat>, rows': seq<NewFact>)
    requires OneLive(ledger) && Planned(ledger, target, retire, rows) && k !in target
    requires FieldStep(ledger, k, v, retire, rows, retire', rows')
    ensures Planned(ledger, target[k := v], retire', rows')
  {
    PlanStep(ledger, target, retire, rows, k, v, retire', rows');
  }

  /** The observation a run cites for every fact it writes. */
  datatype Citation = Citation(snapshot: SnapshotId, retrievedAt: Time)

  ghost predicate Cites(rows: seq<NewFact>, cite: Citation) {
    forall j {:trigger rows[j]} :: 0 <= j < |rows| ==>
      rows[j].snapshot == cite.snapshot && rows[j].effectiveFrom == cite.retrievedAt && rows[j].unwritten == {}
  }

  // ------------------------------------------------------------------ what a planned batch does

  /** The ledger after the first `n` rows of a batch have been inserted. */
  function Written(ledger: seq<Fact>, retire: set<nat>, rows: seq<NewFact>, started: Time, at: Time, n: nat): seq<Fact>
    requires n <= |rows|
  {
    Write(ledger, retire, rows[..n], started, at)
  }

  lemma OldRow(ledger: seq<Fact>, target: Target, retire: set<nat>, rows: seq<NewFact>,
               started: Time, at: Time, n: nat, i: nat)
    requires Planned(ledger, target, retire, rows) && n <= |rows| && i < |ledger|
    ensures var w := Written(ledger, retire, rows, started, at, n);
      && w[i] == (if Disagrees(ledger, target, i) then ledger[i].(supersededAt := Some(at)) else ledger[i])
      && (IsLive(w, i) <==> IsLive(ledger, i) && !Disagrees(ledger, target, i))
  {
  }

  lemma NewRow(ledger: seq<Fact>, target: Target, retire: set<nat>, rows: seq<NewFact>,
               started: Time, at: Time, n: nat, i: nat)
    requires Planned(ledger, target, retire, rows) && n <= |rows| && |ledger| <= i < |ledger| + n
    ensures var w := Written(ledger, retire, rows, started, at, n);
      && w[i] == Stamp(rows[i - |ledger|], started) && IsLive(w, i)
      && RowFits(ledger, target, rows[i - |ledger|])
  {
    assert rows[..n][i - |ledger|] == rows[i - |ledger|];
  }

  lemma KeysDiffer(ledger: seq<Fact>, target: Target, retire: set<nat>, rows: seq<NewFact>,
                   started: Time, at: Time, n: nat, i: nat, j: nat)
    requires OneLive(ledger) && Planned(ledger, target, retire, rows) && n <= |rows|
    requires i < j < |ledger| + n
    requires var w := Written(ledger, retire, rows, started, at, n); IsLive(w, i) && IsLive(w, j)
    ensures var w := Written(ledger, retire, rows, started, at, n); w[i].key != w[j].key
  {
    if i < |ledger| { OldRow(ledger, target, retire, rows, started, at, n, i); }
    else { NewRow(ledger, target, retire, rows, started, at, n, i); }
    if j < |ledger| {
      OldRow(ledger, target, retire, rows, started, at, n, j);
    } else {
      NewRow(ledger, target, retire, rows, started, at, n, j);
      if i < |ledger| { LiveIdIs(ledger, i); }
    }
  }

  lemma GoodRow(ledger: seq<Fact>, target: Target, retire: set<nat>, rows: seq<NewFact>,
                started: Time, at: Time, n: nat, i: nat)
    requires Sound(ledger) && Planned(ledger, target, retire, rows) && n <= |rows|
    requires var w := Written(ledger, retire, rows, started, at, n); HasPredecessor(w, i)
    ensures var w := Written(ledger, retire, rows, started, at, n); GoodPredecessor(w, i)
  {
    if i < |ledger| {
      OldRow(ledger, target, retire, rows, started, at, n, i);
      assert HasPredecessor(ledger, i);
      OldRow(ledger, target, retire, rows, started, at, n, ledger[i].supersedes.value);
    } else {
      NewRow(ledger, target, retire, rows, started, at, n, i);
      var p := LiveId(ledger, rows[i - |ledger|].key).value;
      OldRow(ledger, target, retire, rows, started, at, n, p);
    }
  }

  lemma PredecessorsDiffer(ledger: seq<Fact>, target: Target, retire: set<nat>, rows: seq<NewFact>,
                           started: Time, at: Time, n: nat, i: nat, j: nat)
    requires Sound(ledger) && Planned(ledger, target, retire, rows) && n <= |rows| && i < j
    requires var w := Written(ledger, retire, rows, started, at, n); HasPredecessor(w, i) && HasPredecessor(w, j)
    ensures var w := Written(ledger, retire, rows, started, at, n); w[i].supersedes != w[j].supersedes
  {
    if i < |ledger| {
      OldRow(ledger, target, retire, rows, started, at, n, i);
      assert HasPredecessor(ledger, i);
      assert GoodPredecessor(ledger, i);
    } else { NewRow(ledger, target, retire, rows, started, at, n, i); }
    if j < |ledger| {
      OldRow(ledger, target, retire, rows, started, at, n, j);
      assert HasPredecessor(ledger, j);
    } else {
      NewRow(ledger, target, retire, rows, started, at, n, j);
    }
  }

  /** `fact_one_current_per_source` and the shape of the supersession graph hold
      after the retiring UPDATE and after each single inserted row, not only at commit. */
  lemma SoundAtEveryStep(ledger: seq<Fact>, target: Target, retire: set<nat>, rows: seq<NewFact>,
                         started: Time, at: Time, n: nat)
    requires Sound(ledger) && Planned(ledger, target, retire, rows) && n <= |rows|
    ensures Sound(Written(ledger, retire, rows, started, at, n))
  {
    var w := Written(ledger, retire, rows, started, at, n);
    forall i, j | IsLive(w, i) && IsLive(w, j) && w[i].key == w[j].key ensures i == j {
      if i < j { KeysDiffer(ledger, target, retire, rows, started, at, n, i, j); }
      if j < i { KeysDiffer(ledger, target, retire, rows, started, at, n, j, i); }
    }
    forall i | HasPredecessor(w, i) ensures GoodPredecessor(w, i) {
      GoodRow(ledger, target, retire, rows, started, at, n, i);
    }
    forall i, j | HasPredecessor(w, i) && HasPredecessor(w, j) && w[i].supersedes == w[j].supersedes ensures i == j {
      if i < j { PredecessorsDiffer(ledger, target, retire, rows, started, at, n, i, j); }
      if j < i { PredecessorsDiffer(ledger, target, retire, rows, started, at, n, j, i); }
    }
  }

  /** One loader's transaction, seen from the ledger. */
  ghost predicate Refreshed(before: seq<Fact>, after: seq<Fact>, target: Target, cite: Citation,
                            started: Time, at: Time) {
    exists retire, rows ::
      Planned(before, target, retire, rows) && Cites(rows, cite) && after == Write(before, retire, rows, started, at)
  }

  lemma WrittenInFull(ledger: seq<Fact>, retire: set<nat>, rows: seq<NewFact>, started: Time, at: Time)
    ensures Written(ledger, retire, rows, started, at, |rows|) == Write(ledger, retire, rows, started, at)
  {
    assert rows[..|rows|] == rows;
  }

  /** The transaction leaves the ledger sound and every looked-at key with exactly its
      target value; a fact that already agreed is the same row, and no other key moves. */
  lemma RefreshReaches(before: seq<Fact>, after: seq<Fact>, target: Target, cite: Citation, started: Time, at: Time)
    requires Sound(before) && Refreshed(before, after, target, cite, started, at)
    ensures Sound(after)
    ensures forall k :: k in target ==> LiveValue(after, k) == target[k]
    ensures forall k :: k !in target || target[k] == LiveValue(before, k) ==> LiveId(after, k) == LiveId(before, k)
  {
    var retire: set<nat>, rows: seq<NewFact> :|
      Planned(before, target, retire, rows) && Cites(rows, cite) && after == Write(before, retire, rows, started, at);
    WrittenInFull(before, retire, rows, started, at);
    SoundAtEveryStep(before, target, retire, rows, started, at, |rows|);
    forall k
      ensures k in target ==> LiveValue(after, k) == target[k]
      ensures k !in target || target[k] == LiveValue(before, k) ==> LiveId(after, k) == LiveId(before, k)
    {
      KeyAfter(before, after, target, retire, rows, started, at, k);
    }
  }

  lemma StampDecides(ledger: seq<Fact>, i: nat, row: NewFact, started: Time)
    requires OneLive(ledger) && i < |ledger| && ledger[i] == Stamp(row, started)
    ensures LiveValue(ledger, row.key) == Some(row.value)
  {
    LiveIdIs(ledger, i);
  }

  lemma RowStamped(before: seq<Fact>, after: seq<Fact>, retire: set<nat>, rows: seq<NewFact>, started: Time, at: Time, j: nat)
    requires j < |rows| && after == Written(before, retire, rows, started, at, |rows|)
    ensures |before| + j < |after| && after[|before| + j] == Stamp(rows[j], started)
  {
    WrittenInFull(before, retire, rows, started, at);
  }

  /** A key that has a row has the value of its row. */
  lemma RowDecides(before: seq<Fact>, after: seq<Fact>, retire: set<nat>, rows: seq<NewFact>, started: Time, at: Time, j: nat)
    requires j < |rows| && OneLive(after) && after == Written(before, retire, rows, started, at, |rows|)
    ensures LiveValue(after, rows[j].key) == Some(rows[j].value)
  {
    RowStamped(before, after, retire, rows, started, at, j);
    StampDecides(after, |before| + j, rows[j], started);
  }

  /** A key that needs none keeps its live fact, unless the target disagrees with it. */
  lemma KeyKept(before: seq<Fact>, after: seq<Fact>, target: Target, retire: set<nat>, rows: seq<NewFact>,
                started: Time, at: Time, k: Key)
    requires Sound(before) && Planned(before, target, retire, rows) && !NeedsRow(before, target, k)
    requires after == Written(before, retire, rows, started, at, |rows|) && Sound(after)
    ensures var was := LiveId(before, k);
      LiveId(after, k) == if was.Some? && Disagrees(before, target, was.value) then None else was
  {
    var was, now := LiveId(before, k), LiveId(after, k);
    if now.Some? {
      if now.value < |before| {
        OldRow(before, target, retire, rows, started, at, |rows|, now.value);
        LiveIdIs(before, now.value);
      } else {
        NewRow(before, target, retire, rows, started, at, |rows|, now.value);
      }
    }
    if was.Some? && !Disagrees(before, target, was.value) {
      OldRow(before, target, retire, rows, started, at, |rows|, was.value);
      LiveIdIs(after, was.value);
    }
  }

  lemma KeyAfter(before: seq<Fact>, after: seq<Fact>, target: Target, retire: set<nat>, rows: seq<NewFact>,
                 started: Time, at: Time, k: Key)
    requires Sound(before) && Planned(before, target, retire, rows)
    requires after == Written(before, retire, rows, started, at, |rows|) && Sound(after)
    ensures k in target ==> LiveValue(after, k) == target[k]
    ensures k !in target || target[k] == LiveValue(before, k) ==> LiveId(after, k) == LiveId(before, k)
  {
    if NeedsRow(before, target, k) {
      var j :| 0 <= j < |rows| && rows[j].key == k;
      RowDecides(before, after, retire, rows, started, at, j);
    } else {
      KeyKept(before, after, target, retire, rows, started, at, k);
    }
  }

  /** A target the ledger already meets is written by writing nothing at all. */
  lemma RefreshIsIdle(before: seq<Fact>, after: seq<Fact>, target: Target, cite: Citation, started: Time, at: Time)
    requires OneLive(before) && Refreshed(before, after, target, cite, started, at)
    requires forall k :: k in target ==> target[k] == LiveValue(before, k)
    ensures after == before
  {
    var retire: set<nat>, rows: seq<NewFact> :|
      Planned(before, target, retire, rows) && Cites(rows, cite) && after == Write(before, retire, rows, started, at);
    forall i ensures i !in retire {
      if IsLive(before, i) { LiveIdIs(before, i); }
    }
    if rows != [] { RowsMeanWork(before, target, retire, rows); }
  }

  lemma RowsMeanWork(ledger: seq<Fact>, target: Target, retire: set<nat>, rows: seq<NewFact>)
    requires Planned(ledger, target, retire, rows) && rows != []
    ensures exists k :: NeedsRow(ledger, target, k)
  {
    assert RowFits(ledger, target, rows[0]);
  }

  // ------------------------------------------------------------------ history

  /** No row is deleted or rewritten; a live row may gain its end, once (I4). */
  ghost predicate Extends(before: seq<Fact>, after: seq<Fact>) {
    && |before| <= |after|
    && forall i {:trigger after[i]} :: 0 <= i < |before| ==>
         after[i] == if IsLive(before, i) then before[i].(supersededAt := after[i].supersededAt) else before[i]
  }

  lemma RefreshExtends(before: seq<Fact>, after: seq<Fact>, target: Target, cite: Citation, started: Time, at: Time)
    requires Refreshed(before, after, target, cite, started, at)
    ensures Extends(before, after)
    ensures Timed(before, started) && started <= at ==> Timed(after, at)
    ensures forall i {:trigger after[i]} :: |before| <= i < |after| ==>
      && after[i].key in target && after[i].recordedAt == started
      && after[i].snapshot == cite.snapshot && after[i].effectiveFrom == cite.retrievedAt
  {
    var retire: set<nat>, rows: seq<NewFact> :|
      Planned(before, target, retire, rows) && Cites(rows, cite) && after == Write(before, retire, rows, started, at);
    forall i | |before| <= i < |after| ensures after[i].key in target && after[i].recordedAt == started {
      assert RowFits(before, target, rows[i - |before|]);
    }
  }

  /** Row by row: a live fact the target contradicts gets its end, and no other row changes... */
  lemma OldRowAfter(before: seq<Fact>, target: Target, retire: set<nat>, rows: seq<NewFact>, started: Time, at: Time, i: nat)
    requires Planned(before, target, retire, rows) && i < |before|
    ensures var f := before[i];
      Write(before, retire, rows, started, at)[i] ==
        if f.supersededAt.None? && f.key in target && target[f.key] != Some(f.value) then f.(supersededAt := Some(at)) else f
  {
    OldRow(before, target, retire, rows, started, at, |rows|, i);
    WrittenInFull(before, retire, rows, started, at);
  }

  /** ...and each row added is the target's value for its key, newly live, in place of what was live. */
  lemma NewRowAfter(before: seq<Fact>, target: Target, retire: set<nat>, rows: seq<NewFact>, cite: Citation,
                    started: Time, at: Time, i: nat)
    requires Planned(before, target, retire, rows) && Cites(rows, cite) && |before| <= i < |before| + |rows|
    ensures var f, row := Write(before, retire, rows, started, at)[i], rows[i - |before|];
      && f == Fact(row.key, row.value, cite.snapshot, cite.retrievedAt, row.verbatim, started, LiveId(before, row.key), None)
      && f.key in target && target[f.key] == Some(f.value) != LiveValue(before, f.key)
  {
    NewRow(before, target, retire, rows, started, at, |rows|, i);
    WrittenInFull(before, retire, rows, started, at);
  }

  /** What a row says was not said before. */
  lemma NewRowIsNews(before: seq<Fact>, target: Target, retire: set<nat>, rows: seq<NewFact>, cite: Citation,
                     started: Time, at: Time, i: nat)
    requires Planned(before, target, retire, rows) && Cites(rows, cite) && |before| <= i < |before| + |rows|
    ensures var row := rows[i - |before|];
      && Write(before, retire, rows, started, at)[i] ==
           Fact(row.key, row.value, cite.snapshot, cite.retrievedAt, row.verbatim, started, LiveId(before, row.key), None)
      && LiveValue(before, row.key) != Some(row.value)
  {
    NewRowAfter(before, target, retire, rows, cite, started, at, i);
  }

  /** A key outside the target keeps its live row and its value. */
  lemma RefreshLeaves(before: seq<Fact>, after: seq<Fact>, target: Target, cite: Citation, started: Time, at: Time, k: Key)
    requires Sound(before) && Refreshed(before, after, target, cite, started, at) && k !in target
    ensures LiveId(after, k) == LiveId(before, k) && LiveValue(after, k) == LiveValue(before, k)
  {
    RefreshReaches(before, after, target, cite, started, at);
    RefreshExtends(before, after, target, cite, started, at);
  }

  /** One key after the transaction: its target value, or the value it had. */
  lemma RefreshKey(before: seq<Fact>, after: seq<Fact>, target: Target, cite: Citation, started: Time, at: Time, k: Key)
    requires Sound(before) && Refreshed(before, after, target, cite, started, at)
    ensures LiveValue(after, k) == if k in target then target[k] else LiveValue(before, k)
  {
    if k in target { RefreshReaches(before, after, target, cite, started, at); }
    else { RefreshLeaves(before, after, target, cite, started, at, k); }
  }

  /** The rows of every other source are the same rows afterwards. */
  lemma RefreshIsLocal(before: seq<Fact>, after: seq<Fact>, target: Target, cite: Citation, started: Time, at: Time, source: Source)
    requires Refreshed(before, after, target, cite, started, at) && forall k :: k in target ==> k.source == source
    ensures |before| <= |after|
    ensures forall i {:trigger after[i]} :: 0 <= i < |after| && after[i].key.source != source ==>
      i < |before| && after[i] == before[i]
  {
    var retire: set<nat>, rows: seq<NewFact> :|
      Planned(before, target, retire, rows) && Cites(rows, cite) && after == Write(before, retire, rows, started, at);
    forall j | 0 <= j < |rows| ensures rows[j].key.source == source { assert RowFits(before, target, rows[j]); }
    forall i | i in retire ensures before[i].key.source == source { assert Disagrees(before, target, i); }
    forall i | |before| <= i < |after| ensures after[i].key.source == source { assert after[i] == Stamp(rows[i - |before|], started); }
  }

  /** A value written for a key. */
  ghost predicate Writes(rows: seq<NewFact>, k: Key, v: Value) {
    exists j :: 0 <= j < |rows| && rows[j].key == k && rows[j].value == v
  }

  /** A plan writes exactly the values its target has and the ledger lacks. */
  lemma PlannedWrites(ledger: seq<Fact>, target: Target, retire: set<nat>, rows: seq<NewFact>, k: Key, v: Value)
    requires Planned(ledger, target, retire, rows)
    ensures Writes(rows, k, v) <==> NeedsRow(ledger, target, k) && target[k] == Some(v)
  {
    if Writes(rows, k, v) {
      var j :| 0 <= j < |rows| && rows[j].key == k && rows[j].value == v;
      assert RowFits(ledger, target, rows[j]);
    }
    if NeedsRow(ledger, target, k) {
      var j :| 0 <= j < |rows| && rows[j].key == k;
      assert RowFits(ledger, target, rows[j]);
    }
  }

  /** Two ledgers that agree on one source's live values get the same values written for it, whatever
      else they hold. */
  lemma ForeignFactsDoNotMatter(ledger: seq<Fact>, ledger': seq<Fact>, target: Target, source: Source, retire: set<nat>,
                                retire': set<nat>, rows: seq<NewFact>, rows': seq<NewFact>, k: Key, v: Value)
    requires Planned(ledger, target, retire, rows) && Planned(ledger', target, retire', rows')
    requires forall x :: x in target ==> x.source == source
    requires forall x: Key :: x.source == source ==> LiveValue(ledger', x) == LiveValue(ledger, x)
    ensures Writes(rows, k, v) <==> Writes(rows', k, v)
  {
    PlannedWrites(ledger, target, retire, rows, k, v);
    PlannedWrites(ledger', target, retire', rows', k, v);
  }

  /** The rows `current_fact_at(ts)` selects from before it ranks sources. */
  predicate VisibleAt(f: Fact, ts: Time) {
    f.recordedAt <= ts && (f.supersededAt.None? || f.supersededAt.value > ts) && f.effectiveFrom <= ts
  }

  function AsOf(ledger: seq<Fact>, ts: Time): set<nat> {
    set i: nat | i < |ledger| && VisibleAt(ledger[i], ts)
  }

  /** Point-in-time reads are repeatable: no later run changes what was visible at an earlier instant. */
  lemma PastIsFixed(before: seq<Fact>, after: seq<Fact>, target: Target, cite: Citation, started: Time, at: Time, ts: Time)
    requires Refreshed(before, after, target, cite, started, at) && ts < started <= at
    ensures AsOf(after, ts) == AsOf(before, ts)
  {
    var retire: set<nat>, rows: seq<NewFact> :|
      Planned(before, target, retire, rows) && Cites(rows, cite) && after == Write(before, retire, rows, started, at);
  }

  /** `recorded_at` is the start of the transaction and `superseded_at` is read
      later, so a replaced fact and its successor are both visible at `ts` exactly
      when `ts` falls between the two and the older one was in effect by then. */
  lemma ReplacedAndSuccessorOverlap(before: seq<Fact>, after: seq<Fact>, target: Target,
                                    cite: Citation, started: Time, at: Time, ts: Time, i: nat, j: nat)
    requires Refreshed(before, after, target, cite, started, at) && Timed(before, started)
    requires i < |before| <= j < |after| && after[j].supersedes == Some(i)
    ensures i in AsOf(after, ts) && j in AsOf(after, ts)
       <==> started <= ts < at && before[i].effectiveFrom <= ts && after[j].effectiveFrom <= ts
  {
    var retire: set<nat>, rows: seq<NewFact> :|
      Planned(before, target, retire, rows) && Cites(rows, cite) && after == Write(before, retire, rows, started, at);
    assert RowFits(before, target, rows[j - |before|]);
    assert Disagrees(before, target, i);
  }

  // ------------------------------------------------------------------ lines

  /** A fact and, newest first, everything it replaced. */
  function Line(ledger: seq<Fact>, i: nat): (line: seq<nat>)
    requires (forall n :: HasPredecessor(ledger, n) ==> GoodPredecessor(ledger, n)) && i < |ledger|
    ensures line != [] && line[0] == i
    decreases i
  {
    if HasPredecessor(ledger, i) then
      assert GoodPredecessor(ledger, i);
      [i] + Line(ledger, ledger[i].supersedes.value)
    else [i]
  }

  ghost predicate Descending(ledger: seq<Fact>, line: seq<nat>, i: nat)
    requires i < |ledger|
  {
    && (forall n {:trigger line[n]} :: 0 <= n < |line| ==> line[n] <= i && ledger[line[n]].key == ledger[i].key)
    && (forall n, m {:trigger line[n], line[m]} :: 0 <= n < m < |line| ==> line[m] < line[n])
    && (forall n {:trigger line[n]} :: 1 <= n < |line| ==> !IsLive(ledger, line[n]))
  }

  /** A line is about one parcel, field and source, runs strictly backwards in time,
      and only its newest fact can be live. */
  lemma {:induction false} LineDescends(ledger: seq<Fact>, i: nat)
    requires Lines(ledger) && i < |ledger|
    ensures Descending(ledger, Line(ledger, i), i)
    decreases i
  {
    if HasPredecessor(ledger, i) {
      assert GoodPredecessor(ledger, i);
      var p := ledger[i].supersedes.value;
      LineDescends(ledger, p);
      Prepend(ledger, Line(ledger, p), p, i);
    }
  }

  lemma Prepend(ledger: seq<Fact>, rest: seq<nat>, p: nat, i: nat)
    requires p < i < |ledger| && Descending(ledger, rest, p) && rest != [] && rest[0] == p
    requires ledger[p].key == ledger[i].key && !IsLive(ledger, p)
    ensures Descending(ledger, [i] + rest, i)
  {
    var line := [i] + rest;
    assert forall n :: 1 <= n < |line| ==> line[n] == rest[n - 1];
  }

  lemma {:induction false} LineStep(ledger: seq<Fact>, a: nat, j: nat) returns (s: nat)
    requires Lines(ledger) && a < |ledger| && j in Line(ledger, a) && j != a
    ensures s in Line(ledger, a) && HasPredecessor(ledger, s) && ledger[s].supersedes == Some(j) && j < s <= a
    decreases a
  {
    assert HasPredecessor(ledger, a) && GoodPredecessor(ledger, a);
    var p := ledger[a].supersedes.value;
    if p == j { s := a; } else { s := LineStep(ledger, p, j); }
  }

  /** Lines never meet: two facts whose lines share a row lie on one line. */
  lemma {:induction false} LinesAreDisjoint(ledger: seq<Fact>, a: nat, b: nat, j: nat)
    requires Lines(ledger) && a < |ledger| && b < |ledger|
    requires j in Line(ledger, a) && j in Line(ledger, b)
    ensures a in Line(ledger, b) || b in Line(ledger, a)
    decreases a + b - j - j
  {
    LineDescends(ledger, a);
    LineDescends(ledger, b);
    if j != a && j != b {
      var s := LineStep(ledger, a, j);
      var s' := LineStep(ledger, b, j);
      LinesAreDisjoint(ledger, a, b, s);
    }
  }
}
