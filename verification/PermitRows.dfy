/** One permits file against the current parcels: which row goes to which parcel. */
module PermitRows {
  import opened Schema
  import opened Identifiers

  /** The `Status` cell, if the file has that column. */
  datatype StatusCell = NoColumn | Cell(text: Option<string>)

  /** A row of the file; `issued` is the parsed date, when the text can be parsed. */
  datatype PermitRow = PermitRow(status: StatusCell, apn: Option<string>, issued: Option<Day>)

  predicate Active(row: PermitRow) {
    row.status.NoColumn? || row.status.text == Some("Active")
  }

  /** The number a row is joined on: none when it is blank. */
  function JoinApn(row: PermitRow): Option<string> {
    if IsBlank(Canonicalize(row.apn)) then None else Canonicalize(row.apn)
  }

  function JoinApns(rows: seq<PermitRow>): (apns: seq<Option<string>>)
    ensures |apns| == |rows|
  {
    seq(|rows|, i requires 0 <= i < |rows| => JoinApn(rows[i]))
  }

  /** Nothing stops the load: every row says it is active or does not say, every row that
      is joined has a date, and there is at least one row (the share of unmatched rows is
      worked out by dividing by the number of rows). */
  predicate Loadable(rows: seq<PermitRow>) {
    rows != [] && AllActive(rows) && AllDated(rows, JoinApns(rows))
  }

  // ------------------------------------------------------------------ counting

  function CountIn(apns: seq<Option<string>>, keys: set<string>): nat {
    if apns == [] then 0
    else
      var last := apns[|apns| - 1];
      CountIn(apns[..|apns| - 1], keys) + if last.Some? && last.value in keys then 1 else 0
  }

  function CountBlank(apns: seq<Option<string>>): nat {
    if apns == [] then 0 else CountBlank(apns[..|apns| - 1]) + if apns[|apns| - 1].None? then 1 else 0
  }

  lemma {:induction false} CountsAdd(apns: seq<Option<string>>, a: set<string>, b: set<string>)
    requires a !! b
    ensures CountIn(apns, a + b) == CountIn(apns, a) + CountIn(apns, b)
  {
    if apns != [] { CountsAdd(apns[..|apns| - 1], a, b); }
  }

  lemma {:induction false} CountNone(apns: seq<Option<string>>)
    ensures CountIn(apns, {}) == 0
  {
    if apns != [] { CountNone(apns[..|apns| - 1]); }
  }

  /** Every row is blank or has a number. */
  lemma {:induction false} CountsAll(apns: seq<Option<string>>, keys: set<string>)
    requires forall i :: 0 <= i < |apns| && apns[i].Some? ==> apns[i].value in keys
    ensures |apns| == CountBlank(apns) + CountIn(apns, keys)
  {
    if apns != [] { CountsAll(apns[..|apns| - 1], keys); }
  }

  // ------------------------------------------------------------------ grouping the rows

  /** The dates of the rows with one number, in file order. */
  function DatesOf(apns: seq<Option<string>>, days: seq<Day>, apn: string): seq<Day>
    requires |apns| == |days|
  {
    if apns == [] then []
    else
      var n := |apns| - 1;
      DatesOf(apns[..n], days[..n], apn) + if apns[n] == Some(apn) then [days[n]] else []
  }

  lemma {:induction false} DatesAreCounted(apns: seq<Option<string>>, days: seq<Day>, apn: string)
    requires |apns| == |days|
    ensures |DatesOf(apns, days, apn)| == CountIn(apns, {apn})
  {
    if apns != [] { DatesAreCounted(apns[..|apns| - 1], days[..|apns| - 1], apn); }
  }

  /** A date belongs to a number exactly when some row with that number has it. */
  lemma {:induction false} DatesComeFromRows(apns: seq<Option<string>>, days: seq<Day>, apn: string, day: Day)
    requires |apns| == |days|
    ensures day in DatesOf(apns, days, apn) <==> exists i :: 0 <= i < |apns| && apns[i] == Some(apn) && days[i] == day
  {
    if apns != [] {
      var n := |apns| - 1;
      DatesComeFromRows(apns[..n], days[..n], apn, day);
      if i :| 0 <= i < n && apns[..n][i] == Some(apn) && days[..n][i] == day { assert apns[i] == Some(apn) && days[i] == day; }
      if i :| 0 <= i < |apns| && apns[i] == Some(apn) && days[i] == day {
        if i < n { assert apns[..n][i] == Some(apn) && days[..n][i] == day; }
      }
    }
  }

  type ByApn = map<string, seq<Day>>

  /** Each number that occurs, with its dates. */
  ghost predicate Grouped(apns: seq<Option<string>>, days: seq<Day>, byApn: ByApn)
    requires |apns| == |days|
  {
    && (forall apn :: apn in byApn <==> Some(apn) in apns)
    && (forall apn :: apn in byApn ==> byApn[apn] == DatesOf(apns, days, apn) && byApn[apn] != [])
  }

  lemma {:induction false} NoDates(apns: seq<Option<string>>, days: seq<Day>, apn: string)
    requires |apns| == |days| && Some(apn) !in apns
    ensures DatesOf(apns, days, apn) == []
  {
    if apns != [] { NoDates(apns[..|apns| - 1], days[..|apns| - 1], apn); }
  }

  /** One more row, and what it makes of the dates of one number. */
  lemma {:induction false} DatesOneMore(apns: seq<Option<string>>, days: seq<Day>, apn: Option<string>, day: Day, a: string)
    requires |apns| == |days|
    ensures DatesOf(apns + [apn], days + [day], a) == DatesOf(apns, days, a) + if apn == Some(a) then [day] else []
  {
    assert (apns + [apn])[..|apns|] == apns && (days + [day])[..|days|] == days;
  }

  function WithDate(byApn: ByApn, apn: Option<string>, day: Day): ByApn {
    match apn
    case None => byApn
    case Some(a) => byApn[a := (if a in byApn then byApn[a] else []) + [day]]
  }

  lemma {:induction false} GroupsOneMore(apns: seq<Option<string>>, days: seq<Day>, byApn: ByApn, apn: Option<string>,
                                         day: Day, a: string)
    requires |apns| == |days| && Grouped(apns, days, byApn)
    ensures a in WithDate(byApn, apn, day) <==> Some(a) in apns + [apn]
    ensures a in WithDate(byApn, apn, day) ==>
      WithDate(byApn, apn, day)[a] == DatesOf(apns + [apn], days + [day], a) && WithDate(byApn, apn, day)[a] != []
  {
    DatesOneMore(apns, days, apn, day, a);
    if a !in byApn { NoDates(apns, days, a); }
  }

  lemma {:induction false} GroupOne(apns: seq<Option<string>>, days: seq<Day>, byApn: ByApn, apn: Option<string>, day: Day)
    requires |apns| == |days| && Grouped(apns, days, byApn)
    ensures Grouped(apns + [apn], days + [day], WithDate(byApn, apn, day))
  {
    forall a
      ensures a in WithDate(byApn, apn, day) <==> Some(a) in apns + [apn]
      ensures a in WithDate(byApn, apn, day) ==>
        WithDate(byApn, apn, day)[a] == DatesOf(apns + [apn], days + [day], a) && WithDate(byApn, apn, day)[a] != []
    {
      GroupsOneMore(apns, days, byApn, apn, day, a);
    }
  }

  /** Every row that is joined has this date. */
  ghost predicate Dated(rows: seq<PermitRow>, apns: seq<Option<string>>, days: seq<Day>)
    requires |apns| == |days| <= |rows|
  {
    forall i :: 0 <= i < |apns| && apns[i].Some? ==> rows[i].issued == Some(days[i])
  }

  /** What the loop has, after some of the rows. */
  ghost predicate ReadSoFar(rows: seq<PermitRow>, apns: seq<Option<string>>, days: seq<Day>, byApn: ByApn, blank: nat)
    requires |apns| <= |rows|
  {
    |days| == |apns| && Dated(rows, apns, days) && Grouped(apns, days, byApn) && blank == CountBlank(apns)
  }

  lemma {:induction false} ReadOne(rows: seq<PermitRow>, apns: seq<Option<string>>, days: seq<Day>, byApn: ByApn, blank: nat,
                                   apn: Option<string>, day: Day)
    requires |apns| < |rows| && ReadSoFar(rows, apns, days, byApn, blank)
    requires apn.Some? ==> rows[|apns|].issued == Some(day)
    ensures ReadSoFar(rows, apns + [apn], days + [day],
      WithDate(byApn, apn, day),
      if apn.Some? then blank else blank + 1)
  {
    GroupOne(apns, days, byApn, apn, day);
    assert (apns + [apn])[..|apns|] == apns;
  }

  /** The same for the next row of the file. */
  lemma ReadNext(rows: seq<PermitRow>, apns: seq<Option<string>>, n: nat, days: seq<Day>, byApn: ByApn, blank: nat, day: Day)
    requires n < |rows| == |apns| && ReadSoFar(rows, apns[..n], days, byApn, blank)
    requires apns[n].Some? ==> rows[n].issued == Some(day)
    ensures ReadSoFar(rows, apns[..n + 1], days + [day], WithDate(byApn, apns[n], day), if apns[n].Some? then blank else blank + 1)
  {
    ReadOne(rows, apns[..n], days, byApn, blank, apns[n], day);
    assert apns[..n + 1] == apns[..n] + [apns[n]];
  }

  predicate AllActive(rows: seq<PermitRow>) {
    forall i :: 0 <= i < |rows| ==> Active(rows[i])
  }

  predicate AllDated(rows: seq<PermitRow>, apns: seq<Option<string>>)
    requires |apns| == |rows|
  {
    forall i :: 0 <= i < |rows| && apns[i].Some? ==> rows[i].issued.Some?
  }

  lemma DatedIsDated(rows: seq<PermitRow>, apns: seq<Option<string>>, days: seq<Day>)
    requires |days| == |rows| == |apns| && Dated(rows, apns, days)
    ensures AllDated(rows, apns)
  {
  }

  /** One row: a blank number is counted, and any other is filed under it with its date, which must be there. */
  method JoinRow(rows: seq<PermitRow>, apns: seq<Option<string>>, n: nat, byApn: ByApn, blank: nat, ghost days: seq<Day>)
    returns (ok: bool, byApn': ByApn, blank': nat, ghost days': seq<Day>)
    requires n < |rows| == |apns| && ReadSoFar(rows, apns[..n], days, byApn, blank)
    ensures ok <==> apns[n].Some? ==> rows[n].issued.Some?
    ensures ok ==> ReadSoFar(rows, apns[..n + 1], days', byApn', blank')
  {
    var row, apn := rows[n], apns[n];
    ok, byApn', blank', days' := true, byApn, blank, days;
    if apn.None? {
      ReadNext(rows, apns, n, days, byApn, blank, 0);
      blank', days' := blank + 1, days + [0];
    } else if row.issued.None? {
      ok := false;
    } else {
      ReadNext(rows, apns, n, days, byApn, blank, row.issued.value);
      byApn' := byApn[apn.value := (if apn.value in byApn then byApn[apn.value] else []) + [row.issued.value]];
      days' := days + [row.issued.value];
    }
  }

  /** The reading loop: it stops at the first date it cannot parse, and refuses at the end
      when any row was not active. */
  method ReadRows(rows: seq<PermitRow>, apns: seq<Option<string>>)
    returns (ok: bool, byApn: ByApn, blank: nat, rowsIn: nat, ghost days: seq<Day>)
    requires |apns| == |rows|
    ensures ok <==> AllActive(rows) && AllDated(rows, apns)
    ensures ok ==> rowsIn == |rows| && ReadSoFar(rows, apns, days, byApn, blank)
  {
    byApn, blank, rowsIn, ok := map[], 0, 0, true;
    var inactive := 0;
    days := [];
    while rowsIn < |rows|
      invariant rowsIn <= |rows| && (inactive == 0 <==> AllActive(rows[..rowsIn]))
      invariant ReadSoFar(rows, apns[..rowsIn], days, byApn, blank)
    {
      ActiveOne(rows, rowsIn);
      if !Active(rows[rowsIn]) { inactive := inactive + 1; }
      ok, byApn, blank, days := JoinRow(rows, apns, rowsIn, byApn, blank, days);
      if !ok { return; }
      rowsIn := rowsIn + 1;
    }
    assert apns[..|rows|] == apns && rows[..|rows|] == rows;
    DatedIsDated(rows, apns, days);
    ok := inactive == 0;
  }

  lemma ActiveOne(rows: seq<PermitRow>, i: nat)
    requires i < |rows|
    ensures AllActive(rows[..i + 1]) <==> AllActive(rows[..i]) && Active(rows[i])
  {
    assert rows[..i + 1] == rows[..i] + [rows[i]];
  }
}
