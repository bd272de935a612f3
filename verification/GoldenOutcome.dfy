/** What a normalised property file shows of the columns it was made from, column by column. */
module GoldenOutcome {

  import opened GoldenJson
  import opened GoldenUuids
  import opened GoldenSort
  import opened Sorting
  import opened Golden
  import opened GoldenTheorems

  // ------------------------------------------------------------------ columns

  /** The columns that are compared at all, in order. */
  ghost function Compared(row: seq<Entry>): seq<Entry> {
    if row == [] then []
    else
      var most, last := Compared(row[..|row| - 1]), row[|row| - 1];
      if last.key in {"composer_version", "compose_ms", "source_calls", "compute_cost_micros", "storage_cost_micros"} then most
      else most + [last]
  }

  predicate IsTimestamp(key: string) {
    key in {"composed_at", "delivered_at", "retrieved_at", "fetched_at"}
  }

  /** Columns that are lists of which the order says nothing. */
  predicate IsUnordered(key: string) {
    key in {"unmet_fields", "refusals", "attribution", "omitted_for_rights"}
  }

  predicate IsUnorderedInPayload(key: string) {
    key in {"refusals", "attribution", "omitted_for_rights"}
  }

  /** A timestamp counts only by being there. */
  ghost function Shown(e: Entry): Entry {
    if IsTimestamp(e.key) && e.value != Null then Entry(e.key, Str("<TS>")) else e
  }

  lemma {:induction false} KeptIsShown(row: seq<Entry>)
    ensures |Kept(row)| == |Compared(row)|
    ensures forall i :: 0 <= i < |Compared(row)| ==> Kept(row)[i] == Shown(Compared(row)[i])
  {
    if row != [] {
      KeptIsShown(row[..|row| - 1]);
      var last := row[|row| - 1];
      assert Dropped(last.key) <==>
        last.key in {"composer_version", "compose_ms", "source_calls", "compute_cost_micros", "storage_cost_micros"};
    }
  }

  /** The same columns compared, with the same values except that a timestamp may be another timestamp. */
  ghost predicate SameButVolatile(row: seq<Entry>, row': seq<Entry>) {
    var cs, cs' := Compared(row), Compared(row');
    && |cs| == |cs'|
    && forall i :: 0 <= i < |cs| ==>
         && cs[i].key == cs'[i].key
         && (cs[i].value == cs'[i].value || (IsTimestamp(cs[i].key) && cs[i].value != Null && cs'[i].value != Null))
  }

  /** Rows that differ only in the values of timestamps, in the version of the composer, and in the four measurements
      or whether these are there at all, come out the same. */
  lemma VolatileIsInvisible(row: seq<Entry>, row': seq<Entry>, facts: seq<FactLink>, leq: Before)
    requires SameButVolatile(row, row')
    ensures Normal(Read(row, facts), leq) == Normal(Read(row', facts), leq)
  {
    KeptIsShown(row);
    KeptIsShown(row');
    assert Kept(row) == Kept(row');
  }

  // ------------------------------------------------------------------ what comes out

  /** The value of a column, its UUIDs replaced, as it is written. */
  ghost predicate Written(key: string, v: Json, tokens: map<string, string>, leq: Before, out: Json) {
    if IsTimestamp(key) then out == if v == Null then Null else Str("<TS>")
    else if IsUnordered(key) then out == SortLists(Rename(v, tokens), leq)
    else if key == "payload" && v.Dict? then
      && out.Dict? && |out.entries| == |v.entries|
      && forall i :: 0 <= i < |v.entries| ==>
           && out.entries[i].key == v.entries[i].key
           && out.entries[i].value ==
                if IsUnorderedInPayload(v.entries[i].key) then SortLists(Rename(v.entries[i].value, tokens), leq)
                else Rename(v.entries[i].value, tokens)
    else out == Rename(v, tokens)
  }

  lemma WrittenColumn(e: Entry, tokens: map<string, string>, leq: Before)
    requires "<TS>" !in tokens
    ensures Written(e.key, e.value, tokens, leq, SettledField(e.key, Rename(Shown(e).value, tokens), leq))
  {
    if IsTimestamp(e.key) {
      RenamedNull(tokens);
    } else if e.key == "payload" && e.value.Dict? {
      WrittenPayload(e.value, tokens, leq);
    }
  }

  lemma RenamedEntries(v: Json, tokens: map<string, string>)
    requires v.Dict?
    ensures Rename(v, tokens).Dict? && |Rename(v, tokens).entries| == |v.entries|
    ensures forall i :: 0 <= i < |v.entries| ==>
      Rename(v, tokens).entries[i] == Entry(v.entries[i].key, Rename(v.entries[i].value, tokens))
  {
    RenamedChildren(v, tokens);
    forall i | 0 <= i < |v.entries|
      ensures Rename(v, tokens).entries[i] == Entry(v.entries[i].key, Rename(v.entries[i].value, tokens))
    {
      RenamedEntry(v, tokens, i);
    }
  }

  lemma WrittenPayload(v: Json, tokens: map<string, string>, leq: Before)
    requires v.Dict?
    ensures Rename(v, tokens).Dict?
    ensures Written("payload", v, tokens, leq, Dict(SettledPayload(Rename(v, tokens).entries, leq)))
  {
    RenamedEntries(v, tokens);
  }

  lemma RenamedNull(tokens: map<string, string>)
    ensures Rename(Null, tokens) == Null
  {
    RenamedChildren(Null, tokens);
  }

  lemma TimestampIsNoUuid()
    ensures !IsUuid("<TS>")
  {
  }

  /** The table of the tokens of one normalisation. */
  function TokensOf(row: seq<Entry>, facts: seq<FactLink>): map<string, string> {
    Table(Met(Read(row, facts)))
  }

  /** The compared columns come out in order, under their own keys, and last the version of the composer, which is
      always the same text. */
  lemma OutputIs(row: seq<Entry>, facts: seq<FactLink>, leq: Before)
    ensures var out, cs := Normal(Read(row, facts), leq).row, Compared(row);
      && |out| == |cs| + 1
      && out[|cs|] == Entry("composer_version", Str("<COMPOSER_VERSION:shape-checked-only>"))
      && forall i :: 0 <= i < |cs| ==> out[i].key == cs[i].key && Written(cs[i].key, cs[i].value, TokensOf(row, facts), leq, out[i].value)
  {
    var p, tokens, cs := Read(row, facts), TokensOf(row, facts), Compared(row);
    KeptIsShown(row);
    MetIsNoted(p);
    TimestampIsNoUuid();
    RenamedEntries(p.row, tokens);
    forall i | 0 <= i < |cs|
      ensures Written(cs[i].key, cs[i].value, tokens, leq, SettledField(cs[i].key, Rename(Shown(cs[i]).value, tokens), leq))
    {
      WrittenColumn(cs[i], tokens, leq);
    }
  }

  /** The fact links come out each with its three entries, their UUIDs replaced, in an order of their own. */
  lemma LinksAre(row: seq<Entry>, facts: seq<FactLink>, leq: Before)
    ensures var links := List(seq(|facts|, i requires 0 <= i < |facts| =>
        Dict([Entry("fact_id", Str(facts[i].factId)), Entry("use", Str(facts[i].use)), Entry("snapshot_id", facts[i].snapshot)])));
      && Normal(Read(row, facts), leq).facts == SortLists(Rename(links, TokensOf(row, facts)), leq)
      && Text(Read(row, facts)) == Strings(Dict(Kept(row))) + Strings(links)
  {
    var links := List(seq(|facts|, i requires 0 <= i < |facts| =>
        Dict([Entry("fact_id", Str(facts[i].factId)), Entry("use", Str(facts[i].use)), Entry("snapshot_id", facts[i].snapshot)])));
    assert FactList(facts).items == links.items;
  }

  // ------------------------------------------------------------------ what shows

  /** A timestamp that is there on one side only shows. */
  lemma NullTimestampShows(row: seq<Entry>, facts: seq<FactLink>, row': seq<Entry>, facts': seq<FactLink>, leq: Before, i: nat)
    requires i < |Compared(row)| && i < |Compared(row')| && IsTimestamp(Compared(row)[i].key)
    requires Compared(row)[i].value == Null != Compared(row')[i].value
    ensures Normal(Read(row, facts), leq) != Normal(Read(row', facts'), leq)
  {
    OutputIs(row, facts, leq);
    OutputIs(row', facts', leq);
    var out, out' := Normal(Read(row, facts), leq).row, Normal(Read(row', facts'), leq).row;
    assert out[i].key == Compared(row)[i].key && out'[i].key == Compared(row')[i].key;
  }

  /** Two different texts, neither of them a UUID, show in every column that is neither a timestamp nor unordered. */
  lemma TextShows(row: seq<Entry>, facts: seq<FactLink>, row': seq<Entry>, facts': seq<FactLink>, leq: Before, i: nat, s: string, s': string)
    requires i < |Compared(row)| && i < |Compared(row')|
    requires !IsTimestamp(Compared(row)[i].key) && !IsUnordered(Compared(row)[i].key)
    requires Compared(row)[i].value == Str(s) && Compared(row')[i].value == Str(s') && s != s' && !IsUuid(s) && !IsUuid(s')
    ensures Normal(Read(row, facts), leq) != Normal(Read(row', facts'), leq)
  {
    OutputIs(row, facts, leq);
    OutputIs(row', facts', leq);
    MetIsNoted(Read(row, facts));
    MetIsNoted(Read(row', facts'));
    var out, out' := Normal(Read(row, facts), leq).row, Normal(Read(row', facts'), leq).row;
    assert out[i].key == Compared(row)[i].key && out'[i].key == Compared(row')[i].key;
  }

  /** Columns of other names, or another number of them, show. */
  lemma ColumnsShow(row: seq<Entry>, facts: seq<FactLink>, row': seq<Entry>, facts': seq<FactLink>, leq: Before)
    requires Normal(Read(row, facts), leq) == Normal(Read(row', facts'), leq)
    ensures |Compared(row)| == |Compared(row')|
    ensures forall i :: 0 <= i < |Compared(row)| ==> Compared(row)[i].key == Compared(row')[i].key
  {
    OutputIs(row, facts, leq);
    OutputIs(row', facts', leq);
    forall i | 0 <= i < |Compared(row)| ensures Compared(row)[i].key == Compared(row')[i].key {
      assert Normal(Read(row, facts), leq).row[i].key == Compared(row)[i].key;
    }
  }

  // ------------------------------------------------------------------ exactly when two files come out the same

  /** Two columns that come out the same, once the UUIDs of the first are renamed to those of the second. */
  ghost predicate SameColumn(key: string, v: Json, w: Json, r: map<string, string>) {
    if IsTimestamp(key) then v == Null <==> w == Null
    else if IsUnordered(key) then Alike(Rename(v, r), w)
    else if key == "payload" && v.Dict? && w.Dict? then
      && |v.entries| == |w.entries|
      && forall i :: 0 <= i < |v.entries| ==>
           && v.entries[i].key == w.entries[i].key
           && if IsUnorderedInPayload(v.entries[i].key) then Alike(Rename(v.entries[i].value, r), w.entries[i].value)
              else Rename(v.entries[i].value, r) == w.entries[i].value
    else Rename(v, r) == w
  }

  ghost predicate SameFile(row: seq<Entry>, facts: seq<FactLink>, row': seq<Entry>, facts': seq<FactLink>, r: map<string, string>) {
    var cs, cs' := Compared(row), Compared(row');
    && |cs| == |cs'|
    && (forall i :: 0 <= i < |cs| ==> cs[i].key == cs'[i].key && SameColumn(cs[i].key, cs[i].value, cs'[i].value, r))
    && Alike(Rename(FactList(facts), r), FactList(facts'))
  }

  /** Two files come out the same exactly when, their UUIDs paired off by first appearance, every compared column of the
      one is that of the other, lists in any order where order says nothing, and so are their fact links. */
  lemma EqualExactly(row: seq<Entry>, facts: seq<FactLink>, row': seq<Entry>, facts': seq<FactLink>, leq: Before)
    requires TotalOrder(leq) && TokenFree(Read(row, facts)) && TokenFree(Read(row', facts'))
    ensures var p, q := Read(row, facts), Read(row', facts');
      Normal(p, leq) == Normal(q, leq) <==>
        |Met(p)| == |Met(q)| && SameFile(row, facts, row', facts', Pairing(Met(p), Met(q)))
  {
    var p, q := Read(row, facts), Read(row', facts');
    EqualIffPairedByFirstAppearance(p, q, leq);
    if |Met(p)| == |Met(q)| {
      MetIsNoted(p);
      TimestampIsNoUuid();
      AlikeIsSame(row, facts, row', facts', Pairing(Met(p), Met(q)));
    }
  }

  lemma AlikeIsSame(row: seq<Entry>, facts: seq<FactLink>, row': seq<Entry>, facts': seq<FactLink>, r: map<string, string>)
    requires "<TS>" !in r
    ensures AlikePages(RenamePages(Read(row, facts), r), Read(row', facts')) <==> SameFile(row, facts, row', facts', r)
  {
    KeptIsShown(row);
    KeptIsShown(row');
    RenamedEntries(Dict(Kept(row)), r);
    RowsAreSame(Compared(row), Compared(row'), Rename(Dict(Kept(row)), r).entries, Kept(row'), r);
  }

  /** The columns as they are compared, and as they were. */
  lemma RowsAreSame(cs: seq<Entry>, cs': seq<Entry>, es: seq<Entry>, fs: seq<Entry>, r: map<string, string>)
    requires "<TS>" !in r && |es| == |cs| && |fs| == |cs'|
    requires forall i :: 0 <= i < |cs| ==> es[i] == Entry(cs[i].key, Rename(Shown(cs[i]).value, r))
    requires forall i :: 0 <= i < |cs'| ==> fs[i] == Shown(cs'[i])
    ensures AlikeRows(es, fs) <==>
      |cs| == |cs'| && forall i :: 0 <= i < |cs| ==> cs[i].key == cs'[i].key && SameColumn(cs[i].key, cs[i].value, cs'[i].value, r)
  {
    forall i | 0 <= i < |cs| && i < |cs'|
      ensures es[i].key == fs[i].key && AlikeField(es[i].key, es[i].value, fs[i].value) <==>
        cs[i].key == cs'[i].key && SameColumn(cs[i].key, cs[i].value, cs'[i].value, r)
    {
      if cs[i].key == cs'[i].key { AlikeIsSameColumn(cs[i], cs'[i], r); }
    }
  }

  lemma AlikeIsSameColumn(e: Entry, f: Entry, r: map<string, string>)
    requires "<TS>" !in r && e.key == f.key
    ensures AlikeField(e.key, Rename(Shown(e).value, r), Shown(f).value) <==> SameColumn(e.key, e.value, f.value, r)
  {
    if IsTimestamp(e.key) {
      RenamedNull(r);
    } else if e.key == "payload" && e.value.Dict? && f.value.Dict? {
      AlikeIsSamePayload(e.value, f.value, r);
    }
  }

  lemma AlikeIsSamePayload(v: Json, w: Json, r: map<string, string>)
    requires v.Dict? && w.Dict?
    ensures Rename(v, r).Dict?
    ensures AlikePayload(Rename(v, r).entries, w.entries) <==> SameColumn("payload", v, w, r)
  {
    RenamedEntries(v, r);
  }

  // ------------------------------------------------------------------ UUIDs and tokens

  ghost predicate HexDigits(s: string, n: nat) {
    |s| == n && forall c :: c in s ==> c in "0123456789abcdefABCDEF"
  }

  /** Five groups of 8, 4, 4, 4 and 12 hex digits with a hyphen between each two; one newline may follow. */
  lemma UuidIs(s: string)
    ensures UuidShape(s) <==> exists a, b, c, d, e ::
      && HexDigits(a, 8) && HexDigits(b, 4) && HexDigits(c, 4) && HexDigits(d, 4) && HexDigits(e, 12)
      && s == a + "-" + b + "-" + c + "-" + d + "-" + e
    ensures IsUuid(s) <==> UuidShape(s) || exists t :: UuidShape(t) && s == t + "\n"
  {
    if UuidShape(s) { SplitUuid(s); }
    if a, b, c, d, e :| HexDigits(a, 8) && HexDigits(b, 4) && HexDigits(c, 4) && HexDigits(d, 4) && HexDigits(e, 12)
                        && s == a + "-" + b + "-" + c + "-" + d + "-" + e {
      JoinedUuid(s, a, b, c, d, e);
    }
    if IsUuid(s) && !UuidShape(s) { assert s == s[..36] + "\n"; }
    if t :| UuidShape(t) && s == t + "\n" { assert s[..36] == t; }
  }

  lemma HexIs(c: char)
    ensures Hex(c) <==> c in "0123456789abcdefABCDEF"
  {
  }

  lemma HexGroup(s: string, from: nat, n: nat)
    requires from + n <= |s| && forall i :: from <= i < from + n ==> Hex(s[i])
    ensures HexDigits(s[from..from + n], n)
  {
    forall c | c in s[from..from + n] ensures c in "0123456789abcdefABCDEF" { HexIs(c); }
  }

  lemma SplitUuid(s: string)
    requires UuidShape(s)
    ensures exists a, b, c, d, e ::
      && HexDigits(a, 8) && HexDigits(b, 4) && HexDigits(c, 4) && HexDigits(d, 4) && HexDigits(e, 12)
      && s == a + "-" + b + "-" + c + "-" + d + "-" + e
  {
    HexGroup(s, 0, 8);
    HexGroup(s, 9, 4);
    HexGroup(s, 14, 4);
    HexGroup(s, 19, 4);
    HexGroup(s, 24, 12);
    assert s == s[0..8] + "-" + s[9..13] + "-" + s[14..18] + "-" + s[19..23] + "-" + s[24..36];
  }

  lemma JoinedUuid(s: string, a: string, b: string, c: string, d: string, e: string)
    requires HexDigits(a, 8) && HexDigits(b, 4) && HexDigits(c, 4) && HexDigits(d, 4) && HexDigits(e, 12)
    requires s == a + "-" + b + "-" + c + "-" + d + "-" + e
    ensures UuidShape(s)
  {
    forall i | 0 <= i < 36 ensures if i in {8, 13, 18, 23} then s[i] == '-' else Hex(s[i]) {
      if i < 8 { assert s[i] == a[i] && a[i] in a; }
      else if 9 <= i < 13 { assert s[i] == b[i - 9] && b[i - 9] in b; }
      else if 14 <= i < 18 { assert s[i] == c[i - 14] && c[i - 14] in c; }
      else if 19 <= i < 23 { assert s[i] == d[i - 19] && d[i - 19] in d; }
      else if 24 <= i { assert s[i] == e[i - 24] && e[i - 24] in e; }
      if i !in {8, 13, 18, 23} { HexIs(s[i]); }
    }
  }

  /** The k-th UUID met is written as its number in decimal, between these. */
  lemma TokenIs(row: seq<Entry>, facts: seq<FactLink>, k: nat)
    requires k < |Met(Read(row, facts))|
    ensures var uuid, tokens := Met(Read(row, facts))[k], TokensOf(row, facts);
      uuid in tokens && exists d :: tokens[uuid] == "<UUID:" + d + ">" && ReadDecimal(d) == k + 1 && (|d| > 1 ==> d[0] != '0')
  {
    MetIsNoted(Read(row, facts));
    TableAt(Met(Read(row, facts)), k);
    DecimalReads(k + 1);
    NoLeadingZero(k + 1);
  }

  lemma {:induction false} NoLeadingZero(n: nat)
    ensures n > 0 ==> Decimal(n)[0] != '0'
  {
    if n >= 10 { NoLeadingZero(n / 10); }
  }
}
