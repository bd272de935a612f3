/**
 * The fact links of a property file, whose ids are fresh on every composition: which differences
 * between two runs their normal form shows.
 */
module GoldenFacts {

  import opened GoldenJson
  import opened GoldenUuids
  import opened GoldenSort
  import opened Sorting
  import opened Golden
  import opened GoldenTheorems

  function Ids(facts: seq<FactLink>): (r: seq<string>)
    ensures |r| == |facts|
  {
    seq(|facts|, i requires 0 <= i < |facts| => facts[i].factId)
  }

  /** A string that tokenising leaves alone and that no token equals. */
  ghost predicate Plain(s: string) {
    !IsUuid(s) && !TokenLike(s)
  }

  /** A link whose only UUID is its fact id. */
  ghost predicate PlainLink(f: FactLink) {
    && IsUuid(f.factId) && Plain(f.use)
    && (f.snapshot.Null? || (f.snapshot.Str? && Plain(f.snapshot.text)))
  }

  /** Fact ids that differ from each other and occur nowhere in the row. */
  ghost predicate Fresh(row: Json, facts: seq<FactLink>) {
    && Distinct(Ids(facts))
    && forall f | f in facts :: PlainLink(f) && f.factId !in Strings(row)
  }

  function WithIds(facts: seq<FactLink>, ids: seq<string>): (r: seq<FactLink>)
    requires |ids| == |facts|
    ensures |r| == |facts|
  {
    seq(|facts|, i requires 0 <= i < |facts| => facts[i].(factId := ids[i]))
  }

  function LinkText(f: FactLink): seq<string> {
    [f.factId, f.use] + Strings(f.snapshot)
  }

  function LinksText(facts: seq<FactLink>): seq<string> {
    if facts == [] then [] else LinkText(facts[0]) + LinksText(facts[1..])
  }

  lemma LinkStrings(f: FactLink)
    ensures Strings(FactJson(f)) == LinkText(f)
  {
    var v := FactJson(f);
    assert StringsFrom(v, 3) == [];
    assert StringsFrom(v, 2) == Strings(Children(v)[2]) + StringsFrom(v, 3);
    assert StringsFrom(v, 1) == Strings(Children(v)[1]) + StringsFrom(v, 2);
    assert StringsFrom(v, 0) == Strings(Children(v)[0]) + StringsFrom(v, 1);
  }

  lemma {:induction false} LinksStringsFrom(facts: seq<FactLink>, i: nat)
    requires i <= |facts|
    ensures |Children(FactList(facts))| == |facts|
    ensures StringsFrom(FactList(facts), i) == LinksText(facts[i..])
    decreases |facts| - i
  {
    if i < |facts| {
      LinksStringsFrom(facts, i + 1);
      LinkStrings(facts[i]);
      assert facts[i..][0] == facts[i] && facts[i..][1..] == facts[i + 1..];
    }
  }

  lemma LinksStrings(facts: seq<FactLink>)
    ensures Strings(FactList(facts)) == LinksText(facts)
  {
    LinksStringsFrom(facts, 0);
    assert facts[0..] == facts;
  }

  lemma NoteLink(f: FactLink, seen: seq<string>)
    requires PlainLink(f) && f.factId !in seen
    ensures Note(LinkText(f), seen) == seen + [f.factId]
  {
    var id, rest := [f.factId], [f.use] + Strings(f.snapshot);
    assert LinkText(f) == id + rest;
    NoteConcat(id, rest, seen);
    assert Note(id, seen) == seen + [f.factId];
    NoteConcat([f.use], Strings(f.snapshot), seen + [f.factId]);
    if f.snapshot.Null? { assert Strings(f.snapshot) == []; }
  }

  /** Fresh ids are met in the order of the links. */
  lemma {:induction false} NoteLinks(facts: seq<FactLink>, seen: seq<string>)
    requires Distinct(Ids(facts))
    requires forall f | f in facts :: PlainLink(f) && f.factId !in seen
    ensures Note(LinksText(facts), seen) == seen + Ids(facts)
    decreases |facts|
  {
    if facts == [] {
      assert Ids(facts) == [];
    } else {
      var f, rest := facts[0], facts[1..];
      assert f in facts;
      NoteConcat(LinkText(f), LinksText(rest), seen);
      NoteLink(f, seen);
      assert Ids(facts) == [f.factId] + Ids(rest);
      forall g | g in rest ensures PlainLink(g) && g.factId !in seen + [f.factId] {
        assert g in facts;
        var k :| 0 <= k < |rest| && rest[k] == g;
        assert Ids(facts)[k + 1] == g.factId && Ids(facts)[0] == f.factId;
      }
      assert Distinct(Ids(rest)) by { assert Ids(rest) == Ids(facts)[1..]; }
      NoteLinks(rest, seen + [f.factId]);
      assert seen + [f.factId] + Ids(rest) == seen + Ids(facts);
    }
  }

  lemma FreshMet(row: Json, facts: seq<FactLink>)
    requires Fresh(row, facts)
    ensures Met(Pages(row, FactList(facts))) == Note(Strings(row), []) + Ids(facts)
  {
    NoteConcat(Strings(row), Strings(FactList(facts)), []);
    LinksStrings(facts);
    NoteKeeps(Strings(row), []);
    NoteLinks(facts, Note(Strings(row), []));
  }

  lemma LinkRenamed(f: FactLink, m: map<string, string>)
    requires f.snapshot.Null? || (f.snapshot.Str? && Apply(m, f.snapshot.text) == f.snapshot.text)
    requires Apply(m, f.use) == f.use
    ensures Rename(FactJson(f), m) == FactJson(f.(factId := Apply(m, f.factId)))
  {
    var v := FactJson(f);
    RenamedEntry(v, m, 0);
    RenamedEntry(v, m, 1);
    RenamedEntry(v, m, 2);
    if f.snapshot.Null? { RenamedChildren(f.snapshot, m); }
    assert Rename(v, m).entries == FactJson(f.(factId := Apply(m, f.factId))).entries;
  }

  lemma {:induction false} HasAPartner(xs: seq<Json>, ys: seq<Json>, i: nat)
    requires AlikeItems(xs, ys) && i < |xs|
    ensures |xs| == |ys| && exists j :: 0 <= j < |ys| && Alike(xs[i], ys[j])
    decreases xs
  {
    var j :| 0 <= j < |ys| && Alike(xs[0], ys[j]) && AlikeItems(xs[1..], Without(ys, j));
    if i > 0 {
      HasAPartner(xs[1..], Without(ys, j), i - 1);
      assert xs[1..][i - 1] == xs[i];
      var rest := Without(ys, j);
      var k :| 0 <= k < |rest| && Alike(xs[1..][i - 1], rest[k]);
      assert rest[k] == ys[if k < j then k else k + 1];
    } else if |xs| > 1 {
      HasAPartner(xs[1..], Without(ys, j), 0);
    }
  }

  lemma AlikeLinks(f: FactLink, g: FactLink)
    requires (f.snapshot.Null? || f.snapshot.Str?) && Alike(FactJson(f), FactJson(g))
    ensures f == g
  {
    var v, w := FactJson(f), FactJson(g);
    assert Alike(v.entries[0].value, w.entries[0].value);
    assert Alike(v.entries[1].value, w.entries[1].value);
    assert Alike(v.entries[2].value, w.entries[2].value);
  }

  /** Links with distinct ids, paired off in any order, agree place by place when their ids do. */
  lemma AlikeListsAgree(f: seq<FactLink>, g: seq<FactLink>)
    requires Distinct(Ids(f)) && |f| == |g| && Ids(f) == Ids(g)
    requires forall i :: 0 <= i < |f| ==> f[i].snapshot.Null? || f[i].snapshot.Str?
    requires Alike(FactList(f), FactList(g))
    ensures f == g
  {
    forall i | 0 <= i < |f| ensures f[i] == g[i] {
      HasAPartner(FactList(f).items, FactList(g).items, i);
      var j :| 0 <= j < |g| && Alike(FactJson(f[i]), FactList(g).items[j]);
      AlikeLinks(f[i], g[j]);
      assert Ids(f)[i] == Ids(g)[j] == Ids(f)[j];
    }
  }

  /** The place and the rest of each link decide the output; the fresh ids themselves do not. */
  ghost predicate SameByPlace(f: seq<FactLink>, g: seq<FactLink>) {
    && |f| == |g|
    && forall i :: 0 <= i < |f| ==> f[i].use == g[i].use && f[i].snapshot == g[i].snapshot
  }

  /** The UUIDs of a renamed row are met in the same order. */
  lemma RowMet(row: Json, r: map<string, string>)
    requires Renaming(r, Strings(row))
    ensures Note(Strings(Rename(row, r)), []) == ApplyAll(r, Note(Strings(row), []))
  {
    RenamedStrings(row, r);
    NoteRenamed(Strings(row), [], Strings(row), r);
    assert ApplyAll(r, []) == [];
  }

  /** Both runs meet the UUIDs of the row first, so pairing by first appearance renames the row as `r` does. */
  lemma PairedRow(row: Json, r: map<string, string>, met: seq<string>, f: seq<string>, g: seq<string>)
    requires met == Note(Strings(row), []) && |f| == |g| && Distinct(met + f)
    requires Renaming(r, Strings(row)) && forall s | s in f :: s !in Strings(row)
    ensures Rename(row, Pairing(met + f, ApplyAll(r, met) + g)) == Rename(row, r)
  {
    var a, b := met + f, ApplyAll(r, met) + g;
    NoteKeeps(Strings(row), []);
    forall s | s in Strings(row) ensures Apply(Pairing(a, b), s) == Apply(r, s) {
      if s in met {
        var k := IndexOf(met, s);
        assert a[k] == s && b[k] == Apply(r, s);
        PairedAt(a, b, k);
      } else {
        assert !IsUuid(s) && s !in a;
      }
    }
    RenameAgree(row, Pairing(a, b), r);
  }

  lemma PairedLink(f: FactLink, a: seq<string>, b: seq<string>, k: nat)
    requires PlainLink(f) && |a| == |b| && k < |a| && Distinct(a) && a[k] == f.factId
    requires forall s | s in a :: IsUuid(s)
    ensures Rename(FactJson(f), Pairing(a, b)) == FactJson(f.(factId := b[k]))
  {
    PairedAt(a, b, k);
    LinkRenamed(f, Pairing(a, b));
  }

  lemma PairedLinks(f: seq<FactLink>, ids: seq<string>, a: seq<string>, b: seq<string>, base: nat)
    requires |ids| == |f| && |a| == |b| == base + |f| && Distinct(a)
    requires forall i :: 0 <= i < |f| ==> PlainLink(f[i]) && a[base + i] == f[i].factId && b[base + i] == ids[i]
    requires forall s | s in a :: IsUuid(s)
    ensures Rename(FactList(f), Pairing(a, b)) == FactList(WithIds(f, ids))
  {
    RenamedChildren(FactList(f), Pairing(a, b));
    forall i | 0 <= i < |f| ensures Rename(FactJson(f[i]), Pairing(a, b)) == FactJson(WithIds(f, ids)[i]) {
      PairedLink(f[i], a, b, base + i);
    }
    assert Rename(FactList(f), Pairing(a, b)).items == FactList(WithIds(f, ids)).items;
  }

  lemma FreshIdsAreNew(row: Json, f: seq<FactLink>)
    requires Fresh(row, f)
    ensures forall s | s in Ids(f) :: s !in Strings(row)
    ensures forall i :: 0 <= i < |f| ==> PlainLink(f[i])
  {
    forall i | 0 <= i < |f| ensures PlainLink(f[i]) && f[i].factId !in Strings(row) { assert f[i] in f; }
  }

  lemma FreshIsNoted(row: Json, met: seq<string>, f: seq<FactLink>)
    requires Fresh(row, f) && met == Note(Strings(row), [])
    ensures Noted(met + Ids(f))
  {
    FreshMet(row, f);
    MetIsNoted(Pages(row, FactList(f)));
  }

  lemma PairedFreshRow(row: Json, r: map<string, string>, met: seq<string>, f: seq<FactLink>, ids: seq<string>)
    requires met == Note(Strings(row), []) && Renaming(r, Strings(row)) && Fresh(row, f) && |f| == |ids|
    ensures Rename(row, Pairing(met + Ids(f), ApplyAll(r, met) + ids)) == Rename(row, r)
  {
    FreshIsNoted(row, met, f);
    FreshIdsAreNew(row, f);
    PairedRow(row, r, met, Ids(f), ids);
  }

  lemma PairedFreshLinks(row: Json, r: map<string, string>, met: seq<string>, f: seq<FactLink>, ids: seq<string>)
    requires met == Note(Strings(row), []) && Fresh(row, f) && |f| == |ids|
    ensures Rename(FactList(f), Pairing(met + Ids(f), ApplyAll(r, met) + ids)) == FactList(WithIds(f, ids))
  {
    FreshIsNoted(row, met, f);
    FreshIdsAreNew(row, f);
    PairedLinks(f, ids, met + Ids(f), ApplyAll(r, met) + ids, |met|);
  }

  lemma LinksAreTokenFree(row: Json, f: seq<FactLink>)
    requires Fresh(row, f) && forall s | s in Strings(row) :: !TokenLike(s)
    ensures TokenFree(Pages(row, FactList(f)))
  {
    LinksStrings(f);
    LinksTextIsFree(f);
  }

  lemma {:induction false} LinksTextIsFree(f: seq<FactLink>)
    requires forall l | l in f :: PlainLink(l)
    ensures forall s | s in LinksText(f) :: !TokenLike(s)
    decreases |f|
  {
    if f != [] {
      assert f[0] in f;
      forall l | l in f[1..] ensures PlainLink(l) { assert l in f; }
      LinksTextIsFree(f[1..]);
      UuidIsNoToken(f[0].factId);
    }
  }

  lemma UuidIsNoToken(s: string)
    requires IsUuid(s)
    ensures !TokenLike(s)
  {
    if n: nat :| s == Token(n) { TokenIsNoUuid(n); assert false; }
  }

  lemma RenamedRowIsTokenFree(row: Json, r: map<string, string>)
    requires Renaming(r, Strings(row)) && forall s | s in Strings(row) :: !TokenLike(s)
    ensures forall s | s in Strings(Rename(row, r)) :: !TokenLike(s)
  {
    RenamedStrings(row, r);
    forall i | 0 <= i < |Strings(row)| ensures !TokenLike(ApplyAll(r, Strings(row))[i]) {
      var s := Strings(row)[i];
      assert s in Strings(row);
      if IsUuid(s) { UuidIsNoToken(Apply(r, s)); }
    }
  }

  /** Once the ids are paired, being alike is agreeing on everything else, place by place. */
  lemma AlikeOnceRenumbered(f: seq<FactLink>, g: seq<FactLink>)
    requires |f| == |g| && Distinct(Ids(g)) && forall i :: 0 <= i < |f| ==> PlainLink(f[i])
    ensures Alike(FactList(WithIds(f, Ids(g))), FactList(g)) <==> SameByPlace(f, g)
  {
    var h := WithIds(f, Ids(g));
    assert Ids(h) == Ids(g);
    if Alike(FactList(h), FactList(g)) {
      AlikeListsAgree(h, g);
      forall i | 0 <= i < |f| ensures f[i].use == g[i].use && f[i].snapshot == g[i].snapshot {
        assert h[i] == g[i];
      }
    }
    if SameByPlace(f, g) {
      assert h == g;
      AlikeToItself(FactList(g));
    }
  }

  /**
   * Two compositions whose rows differ in UUIDs only and whose fact ids are fresh normalise alike
   * exactly when their links agree place by place. The links come sorted by fact id, and the ids
   * are random, so the places are random too.
   */
  lemma FreshLinksCompareByPlace(row: Json, r: map<string, string>, f: seq<FactLink>, g: seq<FactLink>, leq: Before)
    requires TotalOrder(leq) && row.Dict? && Renaming(r, Strings(row)) && Fresh(row, f) && Fresh(Rename(row, r), g)
    requires forall s | s in Strings(row) :: !TokenLike(s)
    ensures Normal(Pages(row, FactList(f)), leq) == Normal(Pages(Rename(row, r), FactList(g)), leq)
            <==> SameByPlace(f, g)
  {
    var p, q, met := Pages(row, FactList(f)), Pages(Rename(row, r), FactList(g)), Note(Strings(row), []);
    RenamedRowIsTokenFree(row, r);
    LinksAreTokenFree(row, f);
    LinksAreTokenFree(Rename(row, r), g);
    FreshMet(row, f);
    FreshMet(Rename(row, r), g);
    RowMet(row, r);
    EqualIffPairedByFirstAppearance(p, q, leq);
    if |f| == |g| {
      PairedFreshRow(row, r, met, f, Ids(g));
      PairedFreshLinks(row, r, met, f, Ids(g));
      RowAlikeItself(q.row.entries);
      FreshIdsAreNew(row, f);
      AlikeOnceRenumbered(f, g);
    }
  }

  lemma RowAlikeItself(es: seq<Entry>)
    ensures AlikeRows(es, es)
  {
    forall i | 0 <= i < |es| ensures AlikeField(es[i].key, es[i].value, es[i].value) {
      AlikeToItself(es[i].value);
      if es[i].value.Dict? {
        forall k | 0 <= k < |es[i].value.entries|
          ensures Alike(es[i].value.entries[k].value, es[i].value.entries[k].value)
        {
          AlikeToItself(es[i].value.entries[k].value);
        }
      }
    }
  }

  function Swapped(f: seq<FactLink>, i: nat, j: nat): seq<FactLink>
    requires i < |f| && j < |f|
  {
    f[i := f[j]][j := f[i]]
  }

  lemma SwappedIdsAreDistinct(f: seq<FactLink>, i: nat, j: nat)
    requires i < |f| && j < |f| && Distinct(Ids(f))
    ensures Distinct(Ids(Swapped(f, i, j)))
  {
    var ids, swapped := Ids(f), Ids(Swapped(f, i, j));
    forall a, b | 0 <= a < b < |f| ensures swapped[a] != swapped[b] {
      var x := if a == i then j else if a == j then i else a;
      var y := if b == i then j else if b == j then i else b;
      assert swapped[a] == ids[x] && swapped[b] == ids[y] && x != y;
    }
  }

  lemma SwappedIsFresh(row: Json, f: seq<FactLink>, i: nat, j: nat)
    requires Fresh(row, f) && i < |f| && j < |f|
    ensures Fresh(row, Swapped(f, i, j))
  {
    SwappedIdsAreDistinct(f, i, j);
    forall l | l in Swapped(f, i, j) ensures l in f {
      var k :| 0 <= k < |f| && Swapped(f, i, j)[k] == l;
      assert l == f[k] || l == f[i] || l == f[j];
    }
  }

  lemma SwappedByPlace(f: seq<FactLink>, i: nat, j: nat)
    requires i < |f| && j < |f|
    ensures SameByPlace(f, Swapped(f, i, j)) <==> f[i].use == f[j].use && f[i].snapshot == f[j].snapshot
  {
    var g := Swapped(f, i, j);
    if SameByPlace(f, g) { assert f[i].use == g[i].use && f[i].snapshot == g[i].snapshot; }
  }

  /**
   * List order is not normalised away: exchanging two fresh links is invisible exactly when they
   * agree on everything but the id.
   */
  lemma ListOrderShowsThrough(row: Json, f: seq<FactLink>, i: nat, j: nat, leq: Before)
    requires TotalOrder(leq) && row.Dict? && Fresh(row, f) && i < |f| && j < |f|
    requires forall s | s in Strings(row) :: !TokenLike(s)
    ensures Normal(Pages(row, FactList(f)), leq) == Normal(Pages(row, FactList(Swapped(f, i, j))), leq)
            <==> f[i].use == f[j].use && f[i].snapshot == f[j].snapshot
  {
    SwappedIsFresh(row, f, i, j);
    RenameSame(row, map[]);
    FreshLinksCompareByPlace(row, map[], f, Swapped(f, i, j), leq);
    SwappedByPlace(f, i, j);
  }
}
