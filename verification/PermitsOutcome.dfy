/** What a committed permits load leaves in each table, in terms of the file and the tables before. */
module PermitsOutcome {
  import opened Schema
  import opened Ledger
  import opened Exceptions
  import opened Identifiers
  import opened Diff
  import opened Findings
  import opened PermitRows
  import opened PermitMatch
  import opened Permits
  import opened PermitsTheorems
  import opened PermitsRun
  import opened Invariants
  import ParcelsOutcome

  // ------------------------------------------------------------------ what the file says

  /** The number a row is about. */
  ghost predicate HasNumber(row: PermitRow, apn: string) {
    row.apn.Some? && apn == Canonical(row.apn.value) && apn != ""
  }

  ghost predicate Numbered(row: PermitRow) {
    row.apn.Some? && Canonical(row.apn.value) != ""
  }

  /** A parcel of the jurisdiction has this number. */
  ghost predicate Has(parcels: map<ParcelId, Parcel>, p: ParcelId, apn: string) {
    p in parcels && parcels[p].jurisdiction == SanJose && parcels[p].apn == Some(apn)
  }

  /** The file names the parcel's number, which no other parcel of the jurisdiction has. */
  ghost predicate Attributed(rows: seq<PermitRow>, parcels: map<ParcelId, Parcel>, p: ParcelId, apn: string) {
    && Has(parcels, p, apn) && (forall q :: Has(parcels, q, apn) ==> q == p)
    && exists i :: 0 <= i < |rows| && HasNumber(rows[i], apn)
  }

  ghost predicate Matches(rows: seq<PermitRow>, parcels: map<ParcelId, Parcel>, p: ParcelId) {
    exists apn :: Attributed(rows, parcels, p, apn)
  }

  /** Some row with the number was issued on the day, and every row with it on that day or later. */
  ghost predicate FirstIssued(rows: seq<PermitRow>, apn: string, day: Day) {
    && (exists i :: 0 <= i < |rows| && HasNumber(rows[i], apn) && rows[i].issued == Some(day))
    && (forall i :: 0 <= i < |rows| && HasNumber(rows[i], apn) ==> rows[i].issued.Some? && day <= rows[i].issued.value)
  }

  lemma JoinedOn(row: PermitRow, apn: string)
    ensures JoinApn(row) == Some(apn) <==> HasNumber(row, apn)
    ensures JoinApn(row).Some? <==> Numbered(row)
  {
    if row.apn.Some? { BlankIsEmpty(Canonical(row.apn.value)); }
  }

  /** The load accepts exactly a file that is not empty, whose rows are active or do not say, and in which every row
      with a number has a date. */
  lemma LoadableExactly(rows: seq<PermitRow>)
    ensures Loadable(rows) <==>
      && rows != []
      && (forall i :: 0 <= i < |rows| ==> rows[i].status == NoColumn || rows[i].status == Cell(Some("Active")))
      && (forall i :: 0 <= i < |rows| && Numbered(rows[i]) ==> rows[i].issued.Some?)
  {
    forall i | 0 <= i < |rows| ensures JoinApns(rows)[i].Some? <==> Numbered(rows[i]) { JoinedOn(rows[i], ""); }
    forall i | 0 <= i < |rows| ensures Active(rows[i]) <==> rows[i].status == NoColumn || rows[i].status == Cell(Some("Active")) {
    }
  }

  lemma MatchedIs(rows: seq<PermitRow>, parcels: map<ParcelId, Parcel>, matches: Matches, blank: nat, tally: Tally, p: ParcelId)
    requires Joins(rows, parcels, matches, blank, tally)
    ensures p in matches <==> Matches(rows, parcels, p)
    ensures p in matches ==> forall apn, day :: Has(parcels, p, apn) ==> (FirstIssued(rows, apn, day) <==> day == matches[p])
  {
    MatchedExactly(rows, parcels, matches, blank, tally, p);
    if p in matches {
      var i :| 0 <= i < |rows| && JoinApn(rows[i]).Some? && SoleOwner(parcels, p, JoinApn(rows[i]).value);
      IsSole(rows, parcels, p, JoinApn(rows[i]).value, i);
      assert Attributed(rows, parcels, p, JoinApn(rows[i]).value);
      forall apn, day | Has(parcels, p, apn) ensures FirstIssued(rows, apn, day) <==> day == matches[p] {
        FirstIs(rows, apn, matches[p], day);
      }
    }
    if apn :| Attributed(rows, parcels, p, apn) {
      var i :| 0 <= i < |rows| && HasNumber(rows[i], apn);
      IsSole(rows, parcels, p, apn, i);
    }
  }

  lemma IsSole(rows: seq<PermitRow>, parcels: map<ParcelId, Parcel>, p: ParcelId, apn: string, i: nat)
    requires i < |rows|
    ensures JoinApn(rows[i]) == Some(apn) <==> HasNumber(rows[i], apn)
    ensures SoleOwner(parcels, p, apn) <==> Has(parcels, p, apn) && forall q :: Has(parcels, q, apn) ==> q == p
  {
    JoinedOn(rows[i], apn);
    assert forall q :: q in parcels ==> (Owns(parcels, q, apn) <==> Has(parcels, q, apn));
  }

  lemma FirstIs(rows: seq<PermitRow>, apn: string, first: Day, day: Day)
    requires exists i :: 0 <= i < |rows| && JoinApn(rows[i]) == Some(apn) && rows[i].issued == Some(first)
    requires forall i :: 0 <= i < |rows| && JoinApn(rows[i]) == Some(apn) ==> rows[i].issued.Some? && first <= rows[i].issued.value
    ensures FirstIssued(rows, apn, day) <==> day == first
  {
    forall i | 0 <= i < |rows| ensures JoinApn(rows[i]) == Some(apn) <==> HasNumber(rows[i], apn) { JoinedOn(rows[i], apn); }
    var i :| 0 <= i < |rows| && JoinApn(rows[i]) == Some(apn) && rows[i].issued == Some(first);
    assert HasNumber(rows[i], apn);
  }

  // ------------------------------------------------------------------ the counts

  /** Where the rows of the file went. */
  ghost predicate Counted(rows: seq<PermitRow>, parcels: map<ParcelId, Parcel>, blank: nat, tally: Tally) {
    && blank == |set i | 0 <= i < |rows| && !Numbered(rows[i])|
    && tally.notFound == |set i | 0 <= i < |rows| && Numbered(rows[i]) && Holders(rows[i], parcels) == {}|
    && tally.ambiguous == |set i | 0 <= i < |rows| && Numbered(rows[i]) && |Holders(rows[i], parcels)| > 1|
    && tally.matched == |set i | 0 <= i < |rows| && Numbered(rows[i]) && |Holders(rows[i], parcels)| == 1|
  }

  /** The parcels with the row's number. */
  ghost function Holders(row: PermitRow, parcels: map<ParcelId, Parcel>): set<ParcelId>
    requires Numbered(row)
  {
    set p | p in parcels && Has(parcels, p, Canonical(row.apn.value))
  }

  ghost function Indices(apns: seq<Option<string>>, keys: set<string>): set<int> {
    set i | 0 <= i < |apns| && apns[i].Some? && apns[i].value in keys
  }

  lemma {:induction false} CountIsIndices(apns: seq<Option<string>>, keys: set<string>)
    ensures CountIn(apns, keys) == |Indices(apns, keys)|
  {
    if apns != [] {
      var n := |apns| - 1;
      CountIsIndices(apns[..n], keys);
      assert Indices(apns, keys) == Indices(apns[..n], keys) + if apns[n].Some? && apns[n].value in keys then {n} else {};
    }
  }

  ghost function Nones(apns: seq<Option<string>>): set<int> {
    set i | 0 <= i < |apns| && apns[i].None?
  }

  lemma {:induction false} BlankIsNones(apns: seq<Option<string>>)
    ensures CountBlank(apns) == |Nones(apns)|
  {
    if apns != [] {
      var n := |apns| - 1;
      BlankIsNones(apns[..n]);
      assert Nones(apns) == Nones(apns[..n]) + if apns[n].None? then {n} else {};
    }
  }

  lemma HoldersSay(row: PermitRow, parcels: map<ParcelId, Parcel>, apn: string)
    requires HasNumber(row, apn)
    ensures Holders(row, parcels) == {} <==> Unowned(parcels, apn)
    ensures |Holders(row, parcels)| > 1 <==> Shared(parcels, apn)
  {
    var holders := Holders(row, parcels);
    assert forall p :: p in holders <==> p in parcels && Owns(parcels, p, apn);
    if holders != {} {
      var p :| p in holders;
      var rest := holders - {p};
      assert holders == {p} + rest;
      if rest != {} {
        var q :| q in rest;
        assert Owns(parcels, p, apn) && Owns(parcels, q, apn);
      }
      assert forall q :: q in parcels && Owns(parcels, q, apn) ==> q == p || q in rest;
    }
  }

  /** The four counts a load reports are the numbers of rows without a number, with one no parcel has, with one several
      have, and with one exactly one has. */
  lemma CountsSay(rows: seq<PermitRow>, parcels: map<ParcelId, Parcel>, matches: Matches, blank: nat, tally: Tally)
    requires Joins(rows, parcels, matches, blank, tally)
    ensures Counted(rows, parcels, blank, tally)
  {
    var apns := JoinApns(rows);
    var byApn: ByApn, days: seq<Day> :|
      && ReadSoFar(rows, apns, days, byApn, blank)
      && Matched(parcels, byApn, matches) && Tallied(apns, parcels, byApn.Keys, tally);
    BlankIsNones(apns);
    CountIsIndices(apns, NotFound(parcels, byApn.Keys));
    CountIsIndices(apns, AmbiguousIn(parcels, byApn.Keys));
    CountIsIndices(apns, MatchedIn(parcels, byApn.Keys));
    forall i | 0 <= i < |rows| ensures RowGoes(rows[i], apns[i], parcels, byApn.Keys) { RowIsCounted(rows, parcels, byApn, days, i); }
    SameRows(rows, apns, parcels, byApn.Keys);
  }

  /** One row, as the loop sees it and as it is. */
  ghost predicate RowGoes(row: PermitRow, apn: Option<string>, parcels: map<ParcelId, Parcel>, keys: set<string>) {
    && (apn.None? <==> !Numbered(row))
    && (apn.Some? && apn.value in NotFound(parcels, keys) <==> Numbered(row) && Holders(row, parcels) == {})
    && (apn.Some? && apn.value in AmbiguousIn(parcels, keys) <==> Numbered(row) && |Holders(row, parcels)| > 1)
    && (apn.Some? && apn.value in MatchedIn(parcels, keys) <==> Numbered(row) && |Holders(row, parcels)| == 1)
  }

  lemma RowIsCounted(rows: seq<PermitRow>, parcels: map<ParcelId, Parcel>, byApn: ByApn, days: seq<Day>, i: nat)
    requires i < |rows| == |days| && Grouped(JoinApns(rows), days, byApn)
    ensures RowGoes(rows[i], JoinApns(rows)[i], parcels, byApn.Keys)
  {
    var apn := JoinApns(rows)[i];
    assert apn == JoinApn(rows[i]);
    JoinedOn(rows[i], "");
    if apn.Some? {
      JoinedOn(rows[i], apn.value);
      HoldersSay(rows[i], parcels, apn.value);
      assert Some(apn.value) in JoinApns(rows);
    }
  }

  lemma SameRows(rows: seq<PermitRow>, apns: seq<Option<string>>, parcels: map<ParcelId, Parcel>, keys: set<string>)
    requires |apns| == |rows| && forall i :: 0 <= i < |rows| ==> RowGoes(rows[i], apns[i], parcels, keys)
    ensures Nones(apns) == set i | 0 <= i < |rows| && !Numbered(rows[i])
    ensures Indices(apns, NotFound(parcels, keys)) == set i | 0 <= i < |rows| && Numbered(rows[i]) && Holders(rows[i], parcels) == {}
    ensures Indices(apns, AmbiguousIn(parcels, keys)) == set i | 0 <= i < |rows| && Numbered(rows[i]) && |Holders(rows[i], parcels)| > 1
    ensures Indices(apns, MatchedIn(parcels, keys)) == set i | 0 <= i < |rows| && Numbered(rows[i]) && |Holders(rows[i], parcels)| == 1
  {
  }

  // ------------------------------------------------------------------ fact

  /** What the file says a field of a parcel is. */
  ghost predicate Says(rows: seq<PermitRow>, parcels: map<ParcelId, Parcel>, k: Key, v: Value) {
    && k.source == PermitsSource
    && exists apn :: Attributed(rows, parcels, k.parcel, apn)
         && (|| (k.field == PermitsActive && v == Flag(true))
             || (k.field == PermitsEarliest && v.Date? && FirstIssued(rows, apn, v.day)))
  }

  /** The keys a load decides. */
  ghost predicate Decides(rows: seq<PermitRow>, parcels: map<ParcelId, Parcel>, k: Key) {
    k.source == PermitsSource && k.field in {PermitsActive, PermitsEarliest} && Matches(rows, parcels, k.parcel)
  }

  lemma TargetIs(rows: seq<PermitRow>, parcels: map<ParcelId, Parcel>, matches: Matches, blank: nat, tally: Tally, k: Key, v: Value)
    requires Joins(rows, parcels, matches, blank, tally)
    ensures k in PermitTarget(matches) <==> Decides(rows, parcels, k)
    ensures k in PermitTarget(matches) ==> (PermitTarget(matches)[k] == Some(v) <==> Says(rows, parcels, k, v))
  {
    InTarget(matches, k);
    MatchedIs(rows, parcels, matches, blank, tally, k.parcel);
    if k in PermitTarget(matches) { ValueSays(rows, parcels, matches[k.parcel], k, v); }
  }

  lemma InTarget(matches: Matches, k: Key)
    ensures k in PermitTarget(matches) <==> k.source == PermitsSource && k.field in {PermitsActive, PermitsEarliest} && k.parcel in matches
    ensures k in PermitTarget(matches) ==> PermitTarget(matches)[k] == PermitValue(matches[k.parcel], k.field)
  {
    TargetIsPermits(matches);
    assert PermitKey(k.parcel, k.field) == Key(k.parcel, k.field, PermitsSource) == k.(source := PermitsSource);
  }

  lemma ValueSays(rows: seq<PermitRow>, parcels: map<ParcelId, Parcel>, first: Day, k: Key, v: Value)
    requires Decides(rows, parcels, k)
    requires forall apn, day :: Has(parcels, k.parcel, apn) ==> (FirstIssued(rows, apn, day) <==> day == first)
    ensures PermitValue(first, k.field) == Some(v) <==> Says(rows, parcels, k, v)
  {
    var apn :| Attributed(rows, parcels, k.parcel, apn);
    assert forall a :: Attributed(rows, parcels, k.parcel, a) ==> a == apn;
    if v.Date? { assert FirstIssued(rows, apn, v.day) <==> v.day == first; }
  }

  /** A matched parcel has an active permit, and its series starts on the first day any row with its number was issued;
      a parcel without a match keeps what it has, as the same rows. */
  lemma SeriesAfter(a: Tables, now: Time, b: Tables, rows: seq<PermitRow>, matches: Matches, blank: nat, tally: Tally,
                    cite: Citation, m: PermitMoments, p: ParcelId, v: Value)
    requires Settled(a, now) && Joins(rows, a.parcels, matches, blank, tally) && Permitted(a, b, matches, cite, m)
    ensures forall apn :: Attributed(rows, a.parcels, p, apn) ==>
      && LiveValue(b.facts, Key(p, PermitsActive, PermitsSource)) == Some(Flag(true))
      && (LiveValue(b.facts, Key(p, PermitsEarliest, PermitsSource)) == Some(v) <==> v.Date? && FirstIssued(rows, apn, v.day))
    ensures (forall apn :: !Attributed(rows, a.parcels, p, apn)) ==>
      && LiveId(b.facts, Key(p, PermitsActive, PermitsSource)) == LiveId(a.facts, Key(p, PermitsActive, PermitsSource))
      && LiveId(b.facts, Key(p, PermitsEarliest, PermitsSource)) == LiveId(a.facts, Key(p, PermitsEarliest, PermitsSource))
  {
    SettledIsSound(a, now);
    var plan := PermittedWith(a, b, matches, cite, m);
    MatchedIs(rows, a.parcels, matches, blank, tally, p);
    PermitFactsAfter(a, b, matches, cite, m, plan, p, PermitsActive);
    PermitFactsAfter(a, b, matches, cite, m, plan, p, PermitsEarliest);
    if p in matches { SeriesIs(rows, a.parcels, matches[p], b.facts, p, v); }
    assert p !in matches <==> forall apn :: !Attributed(rows, a.parcels, p, apn);
  }

  lemma SeriesIs(rows: seq<PermitRow>, parcels: map<ParcelId, Parcel>, first: Day, facts: seq<Fact>, p: ParcelId, v: Value)
    requires forall apn, day :: Has(parcels, p, apn) ==> (FirstIssued(rows, apn, day) <==> day == first)
    requires LiveValue(facts, PermitKey(p, PermitsActive)) == PermitValue(first, PermitsActive)
    requires LiveValue(facts, PermitKey(p, PermitsEarliest)) == PermitValue(first, PermitsEarliest)
    ensures forall apn :: Attributed(rows, parcels, p, apn) ==>
      && LiveValue(facts, Key(p, PermitsActive, PermitsSource)) == Some(Flag(true))
      && (LiveValue(facts, Key(p, PermitsEarliest, PermitsSource)) == Some(v) <==> v.Date? && FirstIssued(rows, apn, v.day))
  {
    assert PermitKey(p, PermitsActive) == Key(p, PermitsActive, PermitsSource);
    assert PermitKey(p, PermitsEarliest) == Key(p, PermitsEarliest, PermitsSource);
  }

  /** A fact that cites the run, replaces what was live, and says what the file says, which the ledger did not. */
  ghost predicate IsNews(a: Tables, rows: seq<PermitRow>, cite: Citation, started: Time, row: Fact) {
    && Says(rows, a.parcels, row.key, row.value) && LiveValue(a.facts, row.key) != Some(row.value)
    && row == Fact(row.key, row.value, cite.snapshot, cite.retrievedAt, None, started, LiveId(a.facts, row.key), None)
  }

  lemma NewFactAfter(a: Tables, now: Time, b: Tables, rows: seq<PermitRow>, matches: Matches, blank: nat, tally: Tally,
                     cite: Citation, m: PermitMoments, i: nat)
    requires Settled(a, now) && Joins(rows, a.parcels, matches, blank, tally) && Permitted(a, b, matches, cite, m)
    requires |a.facts| <= i < |b.facts|
    ensures IsNews(a, rows, cite, m.started, b.facts[i])
  {
    SettledIsSound(a, now);
    var plan := PermittedWith(a, b, matches, cite, m);
    NewRowAfter(a.facts, PermitTarget(matches), plan.retire, plan.rows, cite, m.started, m.at, i);
    TargetIs(rows, a.parcels, matches, blank, tally, b.facts[i].key, b.facts[i].value);
  }

  /** An old fact is as it was, unless it is live and the file says otherwise: then it has its end. */
  lemma OldFactAfter(a: Tables, now: Time, b: Tables, rows: seq<PermitRow>, matches: Matches, blank: nat, tally: Tally,
                     cite: Citation, m: PermitMoments, i: nat)
    requires Settled(a, now) && Joins(rows, a.parcels, matches, blank, tally) && Permitted(a, b, matches, cite, m) && i < |a.facts|
    ensures i < |b.facts|
    ensures var was := a.facts[i];
      b.facts[i] ==
        if was.supersededAt.None? && Decides(rows, a.parcels, was.key) && !Says(rows, a.parcels, was.key, was.value)
        then was.(supersededAt := Some(m.at)) else was
  {
    SettledIsSound(a, now);
    var plan := PermittedWith(a, b, matches, cite, m);
    OldRowAfter(a.facts, PermitTarget(matches), plan.retire, plan.rows, m.started, m.at, i);
    TargetIs(rows, a.parcels, matches, blank, tally, a.facts[i].key, a.facts[i].value);
  }

  // ------------------------------------------------------------------ parcel_exception

  ghost predicate HasSeries(t: Tables, p: ParcelId) {
    || LiveValue(t.facts, Key(p, PermitsActive, PermitsSource)).Some?
    || LiveValue(t.facts, Key(p, PermitsEarliest, PermitsSource)).Some?
  }

  /** The open attribution findings are exactly, for one reason, the parcels that have a series the file does not name. */
  lemma FindingsAfter(a: Tables, now: Time, b: Tables, rows: seq<PermitRow>, matches: Matches, blank: nat, tally: Tally,
                      cite: Citation, m: PermitMoments, p: ParcelId, r: Option<Reason>)
    requires Settled(a, now) && Joins(rows, a.parcels, matches, blank, tally) && Permitted(a, b, matches, cite, m)
    ensures ParcelsOutcome.Finds(b, Detector(PermitAttributionLost, Version(1, 0)), p, r) <==>
      r == Some(NoFreshApnMatch) && HasSeries(b, p) && forall apn :: !Attributed(rows, a.parcels, p, apn)
  {
    SettledIsKept(a, now);
    var plan := PermittedWith(a, b, matches, cite, m);
    MatchedIs(rows, a.parcels, matches, blank, tally, p);
    OpenIsExactlyUnattributed(a, now, b, matches, cite, m, plan, p, r);
    ParcelsOutcome.FindsIsOpen(b, PERMIT_ATTRIBUTION_LOST, p, r);
    assert HasSeries(b, p) <==> HasLivePermit(b.facts, p);
  }

  /** A row that was there is as it was, unless it is an open attribution finding about a parcel the file names: then it
      is closed, by its own detector, at that statement's time. */
  lemma OldExceptionAfter(a: Tables, now: Time, b: Tables, rows: seq<PermitRow>, matches: Matches, blank: nat, tally: Tally,
                          cite: Citation, m: PermitMoments, i: nat)
    requires Settled(a, now) && Joins(rows, a.parcels, matches, blank, tally) && Permitted(a, b, matches, cite, m)
    requires now <= m.started < m.at < m.closed && i < |a.exceptions|
    ensures i < |b.exceptions|
    ensures var was := a.exceptions[i];
      b.exceptions[i] ==
        if was.status.Open? && was.detector == Detector(PermitAttributionLost, Version(1, 0)) && Matches(rows, a.parcels, was.parcel)
        then was.(status := Closed(ConditionCleared, m.closed, ByDetector(PermitAttributionLost))) else was
  {
    SettledIsKept(a, now);
    PermittedExtends(a, now, b, matches, cite, m);
    var plan := PermittedWith(a, b, matches, cite, m);
    var was := a.exceptions[i];
    MatchedIs(rows, a.parcels, matches, blank, tally, was.parcel);
    OpenHasASeries(a, i);
    StatusAfter(a.exceptions, plan.exceptions, plan.confirmed, m.closed, i);
  }

  lemma OpenHasASeries(a: Tables, i: nat)
    requires PermitsMirrored(a.facts, a.exceptions) && i < |a.exceptions|
    ensures IsOpen(a.exceptions, i) && a.exceptions[i].detector == PERMIT_ATTRIBUTION_LOST ==> HasLivePermit(a.facts, a.exceptions[i].parcel)
  {
    var row := a.exceptions[i];
    if IsOpen(a.exceptions, i) && row.detector == PERMIT_ATTRIBUTION_LOST {
      assert (row.parcel, row.reason) in OpenPairs(a.exceptions, PERMIT_ATTRIBUTION_LOST);
    }
  }

  lemma StatusAfter(rows: Rows, added: seq<NewException>, confirmed: set<ParcelId>, at: Time, i: nat)
    requires i < |rows|
    ensures i < |PermitLifecycle(rows, added, confirmed, at)|
    ensures PermitLifecycle(rows, added, confirmed, at)[i].status ==
      if rows[i].status.Open? && rows[i].detector == PERMIT_ATTRIBUTION_LOST && rows[i].parcel in confirmed
      then Closed(ConditionCleared, at, ByDetector(PermitAttributionLost)) else rows[i].status
  {
  }

  /** A row that is added is open and of the one type and reason. */
  lemma NewExceptionAfter(a: Tables, b: Tables, matches: Matches, cite: Citation, m: PermitMoments, i: nat)
    requires Permitted(a, b, matches, cite, m) && |a.exceptions| <= i < |b.exceptions|
    ensures var row := b.exceptions[i];
      && row.detector == Detector(PermitAttributionLost, Version(1, 0)) && row.kind == CoverageGap
      && row.reason == Some(NoFreshApnMatch) && row.status == Open
  {
    var added, confirmed := WhatIsLost(a, b, matches, cite, m);
    LostAfter(a.exceptions, added, confirmed, m.closed, i);
  }

  /** New findings of the detector for its one reason, none about these parcels. */
  ghost predicate Loses(added: seq<NewException>, confirmed: set<ParcelId>) {
    && FindingsOnly(added, PERMIT_ATTRIBUTION_LOST)
    && forall j :: 0 <= j < |added| ==> added[j].parcel !in confirmed && added[j].reason == Some(NoFreshApnMatch)
  }

  lemma WhatIsLost(a: Tables, b: Tables, matches: Matches, cite: Citation, m: PermitMoments)
    returns (added: seq<NewException>, confirmed: set<ParcelId>)
    requires Permitted(a, b, matches, cite, m)
    ensures Loses(added, confirmed) && b.exceptions == PermitLifecycle(a.exceptions, added, confirmed, m.closed)
  {
    var plan := PermittedWith(a, b, matches, cite, m);
    added, confirmed := plan.exceptions, plan.confirmed;
    forall j | 0 <= j < |added| ensures added[j].parcel !in confirmed && added[j].reason == Some(NoFreshApnMatch) {
      AddedIsLost(added, plan.lost - OpenParcels(a.exceptions, PERMIT_ATTRIBUTION_LOST), j);
    }
  }

  lemma AddedIsLost(added: seq<NewException>, lost: set<ParcelId>, j: nat)
    requires Lists(added, PERMIT_ATTRIBUTION_LOST, LostPairs(lost)) && j < |added|
    ensures added[j].parcel in lost && added[j].reason == Some(NoFreshApnMatch)
  {
    assert (added[j].parcel, added[j].reason) in AddedPairs(added, PERMIT_ATTRIBUTION_LOST);
    InLostPairs(lost, added[j].parcel, added[j].reason);
  }

  lemma LostAfter(rows: Rows, added: seq<NewException>, confirmed: set<ParcelId>, at: Time, i: nat)
    requires Loses(added, confirmed) && |rows| <= i < |PermitLifecycle(rows, added, confirmed, at)|
    ensures var row := PermitLifecycle(rows, added, confirmed, at)[i];
      && row.detector == PERMIT_ATTRIBUTION_LOST && row.kind == CoverageGap && row.reason == Some(NoFreshApnMatch) && row.status == Open
  {
    AppendedRow(rows, added, i);
    ClosedRow(Relink(Append(rows, added), PERMIT_ATTRIBUTION_LOST), confirmed, at, i);
  }

  lemma AppendedRow(rows: Rows, added: seq<NewException>, i: nat)
    requires FindingsOnly(added, PERMIT_ATTRIBUTION_LOST) && |rows| <= i < |rows| + |added|
    ensures var row, r := added[i - |rows|], Relink(Append(rows, added), PERMIT_ATTRIBUTION_LOST)[i];
      && r.parcel == row.parcel && r.detector == PERMIT_ATTRIBUTION_LOST && r.kind == CoverageGap && r.reason == row.reason
      && r.status == Open
  {
    assert Append(rows, added)[i] == Detected(added[i - |rows|]);
  }

  lemma ClosedRow(rows: Rows, confirmed: set<ParcelId>, at: Time, i: nat)
    requires i < |rows| && rows[i].status == Open && rows[i].detector == PERMIT_ATTRIBUTION_LOST
    ensures Close(rows, OfParcels(rows, PERMIT_ATTRIBUTION_LOST, confirmed), ConditionCleared, ByDetector(PermitAttributionLost), at)[i] ==
      if rows[i].parcel in confirmed then rows[i].(status := Closed(ConditionCleared, at, ByDetector(PermitAttributionLost))) else rows[i]
  {
    assert IsOpen(rows, i);
  }
}
