/**
 * Normalising a composed property file and its fact links for comparison with a stored copy:
 * volatile columns dropped or masked, UUIDs tokenised by first appearance through one map shared
 * by both parts, listed fields sorted.
 */
module Golden {

  import opened GoldenJson
  import opened GoldenUuids
  import opened GoldenSort
  import opened Sorting

  const STRIPPED_FIELDS := {"compose_ms", "source_calls", "compute_cost_micros", "storage_cost_micros"}
  const TS_FIELDS := {"composed_at", "delivered_at", "retrieved_at", "fetched_at"}
  const SORTED_LIST_FIELDS := {"unmet_fields", "refusals", "attribution", "omitted_for_rights"}
  const PAYLOAD_LISTS := {"refusals", "attribution", "omitted_for_rights"}
  const COMPOSER_VERSION := Entry("composer_version", Str("<COMPOSER_VERSION:shape-checked-only>"))

  /** One row of the fact links: the fact, how it was used, and the snapshot it cites, if any. */
  datatype FactLink = FactLink(factId: string, use: string, snapshot: Json)

  /** The two parts of one normalisation, as they are when tokenising starts. */
  datatype Pages = Pages(row: Json, facts: Json)

  datatype Normalised = Normalised(row: seq<Entry>, facts: Json)

  predicate Dropped(key: string) {
    key == "composer_version" || key in STRIPPED_FIELDS
  }

  function Masked(key: string, v: Json): Json {
    if key in TS_FIELDS && !v.Null? then Str("<TS>") else v
  }

  function KeptColumn(e: Entry): seq<Entry> {
    if Dropped(e.key) then [] else [Entry(e.key, Masked(e.key, e.value))]
  }

  function Kept(row: seq<Entry>): seq<Entry> {
    if row == [] then [] else Kept(row[..|row| - 1]) + KeptColumn(row[|row| - 1])
  }

  function FactJson(f: FactLink): Json {
    Dict([Entry("fact_id", Str(f.factId)), Entry("use", Str(f.use)), Entry("snapshot_id", f.snapshot)])
  }

  function FactList(facts: seq<FactLink>): Json {
    List(seq(|facts|, i requires 0 <= i < |facts| => FactJson(facts[i])))
  }

  function Read(row: seq<Entry>, facts: seq<FactLink>): Pages {
    Pages(Dict(Kept(row)), FactList(facts))
  }

  /** Every string of both parts in reading order: the row first, then the fact links. */
  function Text(p: Pages): seq<string> {
    Strings(p.row) + Strings(p.facts)
  }

  /** The UUIDs of both parts by first appearance. */
  function Met(p: Pages): seq<string> {
    Note(Text(p), [])
  }

  function RenamePages(p: Pages, m: map<string, string>): Pages {
    Pages(Rename(p.row, m), Rename(p.facts, m))
  }

  function SettledField(key: string, v: Json, leq: Before): Json {
    if key in SORTED_LIST_FIELDS then SortLists(v, leq)
    else if key == "payload" && v.Dict? then Dict(SettledPayload(v.entries, leq))
    else v
  }

  function SettledPayload(entries: seq<Entry>, leq: Before): seq<Entry> {
    seq(|entries|, i requires 0 <= i < |entries| =>
      Entry(entries[i].key,
            if entries[i].key in PAYLOAD_LISTS then SortLists(entries[i].value, leq) else entries[i].value))
  }

  /** The row with its listed fields, and those of its payload, in sorted order. */
  function Settled(entries: seq<Entry>, leq: Before): seq<Entry> {
    seq(|entries|, i requires 0 <= i < |entries| =>
      Entry(entries[i].key, SettledField(entries[i].key, entries[i].value, leq)))
  }

  function Normal(p: Pages, leq: Before): Normalised
    requires p.row.Dict?
  {
    var tokenised := RenamePages(p, Table(Met(p)));
    Normalised(Settled(tokenised.row.entries, leq) + [COMPOSER_VERSION], SortLists(tokenised.facts, leq))
  }

  /**
   * The normalisation itself. The row is tokenised before the fact links exist in the map, yet both
   * come out as if the whole text had been numbered first.
   */
  method Normalize(row: seq<Entry>, facts: seq<FactLink>, leq: Before)
      returns (normalized: seq<Entry>, links: Json)
    requires exists i :: 0 <= i < |row| && row[i].key == "composer_version"
    ensures Normalised(normalized, links) == Normal(Read(row, facts), leq)
  {
    var tokens := new TokenMap();
    var kept: seq<Entry> := [];
    for i := 0 to |row|
      invariant kept == Kept(row[..i])
      invariant tokens.table == map[]
    {
      assert row[..i + 1][..i] == row[..i];
      if !Dropped(row[i].key) {
        kept := kept + [Entry(row[i].key, Masked(row[i].key, row[i].value))];
      }
    }
    assert row[..|row|] == row;
    ghost var met := Note(Strings(Dict(kept)), []);
    var tokenised := ReplaceUuids(Dict(kept), tokens, []);
    var linked := ReplaceUuids(FactList(facts), tokens, met);
    ghost var p := Read(row, facts);
    NoteConcat(Strings(p.row), Strings(p.facts), []);
    NoteKeeps(Strings(p.row), []);
    NoteKeeps(Strings(p.facts), met);
    LaterNotesAreInvisible(p.row, met, Met(p));
    normalized := Settled(tokenised.entries, leq) + [COMPOSER_VERSION];
    links := SortLists(linked, leq);
  }

  /** Equal row by row, with list order ignored exactly where normalisation sorts. */
  ghost predicate AlikeField(key: string, v: Json, w: Json) {
    if key in SORTED_LIST_FIELDS then Alike(v, w)
    else if key == "payload" && v.Dict? && w.Dict? then AlikePayload(v.entries, w.entries)
    else v == w
  }

  ghost predicate AlikePayload(es: seq<Entry>, fs: seq<Entry>) {
    && |es| == |fs|
    && forall i :: 0 <= i < |es| ==>
         && es[i].key == fs[i].key
         && if es[i].key in PAYLOAD_LISTS then Alike(es[i].value, fs[i].value) else es[i].value == fs[i].value
  }

  ghost predicate AlikeRows(es: seq<Entry>, fs: seq<Entry>) {
    && |es| == |fs|
    && forall i :: 0 <= i < |es| ==> es[i].key == fs[i].key && AlikeField(es[i].key, es[i].value, fs[i].value)
  }

  ghost predicate AlikePages(p: Pages, q: Pages)
    requires p.row.Dict? && q.row.Dict?
  {
    AlikeRows(p.row.entries, q.row.entries) && Alike(p.facts, q.facts)
  }

  lemma SettledPayloadIsCanonical(es: seq<Entry>, fs: seq<Entry>, leq: Before)
    requires TotalOrder(leq)
    ensures SettledPayload(es, leq) == SettledPayload(fs, leq) <==> AlikePayload(es, fs)
  {
    var s, t := SettledPayload(es, leq), SettledPayload(fs, leq);
    if |es| == |fs| {
      forall i | 0 <= i < |es|
        ensures s[i] == t[i] <==>
          && es[i].key == fs[i].key
          && if es[i].key in PAYLOAD_LISTS then Alike(es[i].value, fs[i].value) else es[i].value == fs[i].value
      {
        SortListsIsCanonical(es[i].value, fs[i].value, leq);
      }
    }
  }

  lemma SettledFieldIsCanonical(key: string, v: Json, w: Json, leq: Before)
    requires TotalOrder(leq)
    ensures SettledField(key, v, leq) == SettledField(key, w, leq) <==> AlikeField(key, v, w)
  {
    if key in SORTED_LIST_FIELDS {
      SortListsIsCanonical(v, w, leq);
    } else if v.Dict? && w.Dict? {
      SettledPayloadIsCanonical(v.entries, w.entries, leq);
    }
  }

  lemma SettledIsCanonical(es: seq<Entry>, fs: seq<Entry>, leq: Before)
    requires TotalOrder(leq)
    ensures Settled(es, leq) == Settled(fs, leq) <==> AlikeRows(es, fs)
  {
    var s, t := Settled(es, leq), Settled(fs, leq);
    if |es| == |fs| {
      forall i | 0 <= i < |es|
        ensures s[i] == t[i] <==> es[i].key == fs[i].key && AlikeField(es[i].key, es[i].value, fs[i].value)
      {
        SettledFieldIsCanonical(es[i].key, es[i].value, fs[i].value, leq);
      }
    }
  }

  lemma AlikePagesRenamed(p: Pages, q: Pages, m: map<string, string>)
    requires p.row.Dict? && q.row.Dict? && AlikePages(p, q)
    ensures AlikePages(RenamePages(p, m), RenamePages(q, m))
  {
    AlikeRenamed(p.facts, q.facts, m);
    var es, fs := p.row.entries, q.row.entries;
    forall i | 0 <= i < |es|
      ensures Rename(p.row, m).entries[i].key == Rename(q.row, m).entries[i].key
      ensures AlikeField(es[i].key, Rename(p.row, m).entries[i].value, Rename(q.row, m).entries[i].value)
    {
      RenamedEntry(p.row, m, i);
      RenamedEntry(q.row, m, i);
      AlikeFieldRenamed(es[i].key, es[i].value, fs[i].value, m);
    }
    RenamedChildren(p.row, m);
    RenamedChildren(q.row, m);
  }

  lemma RenamedEntry(v: Json, m: map<string, string>, i: nat)
    requires v.Dict? && i < |v.entries|
    ensures Rename(v, m).Dict? && |Rename(v, m).entries| == |v.entries|
    ensures Rename(v, m).entries[i] == Entry(v.entries[i].key, Rename(v.entries[i].value, m))
  {
    RenamedChildren(v, m);
    assert Children(Rename(v, m))[i] == Rename(Children(v)[i], m);
  }

  lemma AlikeFieldRenamed(key: string, v: Json, w: Json, m: map<string, string>)
    requires AlikeField(key, v, w)
    ensures AlikeField(key, Rename(v, m), Rename(w, m))
  {
    if key in SORTED_LIST_FIELDS {
      AlikeRenamed(v, w, m);
    } else if key == "payload" && v.Dict? && w.Dict? {
      RenamedChildren(v, m);
      RenamedChildren(w, m);
      forall i | 0 <= i < |v.entries|
        ensures Rename(v, m).entries[i].key == Rename(w, m).entries[i].key == v.entries[i].key
        ensures if v.entries[i].key in PAYLOAD_LISTS
                then Alike(Rename(v, m).entries[i].value, Rename(w, m).entries[i].value)
                else Rename(v, m).entries[i].value == Rename(w, m).entries[i].value
      {
        RenamedEntry(v, m, i);
        RenamedEntry(w, m, i);
        if v.entries[i].key in PAYLOAD_LISTS { AlikeRenamed(v.entries[i].value, w.entries[i].value, m); }
      }
    }
  }

  lemma AlikeFieldIsAlike(key: string, v: Json, w: Json)
    requires AlikeField(key, v, w)
    ensures Alike(v, w)
  {
    if v == w {
      AlikeToItself(v);
    } else if key !in SORTED_LIST_FIELDS {
      forall i | 0 <= i < |v.entries| ensures Alike(v.entries[i].value, w.entries[i].value) {
        if v.entries[i].key !in PAYLOAD_LISTS { AlikeToItself(v.entries[i].value); }
      }
    }
  }

  lemma AlikePagesHoldTheSameText(p: Pages, q: Pages, s: string)
    requires p.row.Dict? && q.row.Dict? && AlikePages(p, q)
    ensures s in Text(p) <==> s in Text(q)
  {
    forall i | 0 <= i < |p.row.entries| ensures Alike(p.row.entries[i].value, q.row.entries[i].value) {
      AlikeFieldIsAlike(p.row.entries[i].key, p.row.entries[i].value, q.row.entries[i].value);
    }
    AlikeHasTheSameStrings(p.row, q.row, s);
    AlikeHasTheSameStrings(p.facts, q.facts, s);
  }

  lemma RenamedText(p: Pages, m: map<string, string>)
    ensures Text(RenamePages(p, m)) == ApplyAll(m, Text(p))
  {
    RenamedStrings(p.row, m);
    RenamedStrings(p.facts, m);
    ApplyConcat(m, Strings(p.row), Strings(p.facts));
  }

  lemma RenamePagesCompose(p: Pages, m: map<string, string>, n: map<string, string>, k: map<string, string>)
    requires forall s | s in Text(p) :: Apply(k, s) == Apply(n, Apply(m, s))
    ensures RenamePages(RenamePages(p, m), n) == RenamePages(p, k)
  {
    RenameCompose(p.row, m, n, k);
    RenameCompose(p.facts, m, n, k);
  }

  lemma RenamePagesSame(p: Pages, m: map<string, string>)
    requires forall s | s in Text(p) :: Apply(m, s) == s
    ensures RenamePages(p, m) == p
  {
    RenameSame(p.row, m);
    RenameSame(p.facts, m);
  }
}
