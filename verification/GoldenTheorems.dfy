/** What a golden comparison can and cannot tell apart. */
module GoldenTheorems {

  import opened GoldenJson
  import opened GoldenUuids
  import opened GoldenSort
  import opened Sorting
  import opened Golden

  /** The k-th string of `a` goes to the k-th string of `b`. */
  function Pairing(a: seq<string>, b: seq<string>): map<string, string>
    requires |a| == |b|
  {
    map s | s in a :: b[IndexOf(a, s)]
  }

  lemma PairedAt(a: seq<string>, b: seq<string>, k: nat)
    requires |a| == |b| && k < |a| && Distinct(a)
    ensures Apply(Pairing(a, b), a[k]) == b[k]
  {
    assert a[k] in a;
    var i := IndexOf(a, a[k]);
  }

  ghost predicate TokenFree(p: Pages) {
    forall s | s in Text(p) :: !TokenLike(s)
  }

  /** Renames UUIDs to UUIDs without merging any two of `ss`, and touches nothing else in `ss`. */
  ghost predicate Renaming(r: map<string, string>, ss: seq<string>) {
    && (forall s | s in ss :: IsUuid(Apply(r, s)) == IsUuid(s))
    && (forall s | s in ss :: !IsUuid(s) ==> Apply(r, s) == s)
    && (forall s, t | s in ss && t in ss :: IsUuid(s) && IsUuid(t) && Apply(r, s) == Apply(r, t) ==> s == t)
  }

  lemma MetIsNoted(p: Pages)
    ensures Noted(Met(p))
    ensures forall s :: s in Met(p) <==> s in Text(p) && IsUuid(s)
  {
    NoteKeeps(Text(p), []);
  }

  function Tokens(n: nat): (r: seq<string>)
    ensures |r| == n
  {
    seq(n, i requires 0 <= i < n => Token(i + 1))
  }

  lemma TokensAreDistinct(n: nat)
    ensures Distinct(Tokens(n))
  {
    forall i, j | 0 <= i < j < n ensures Tokens(n)[i] != Tokens(n)[j] {
      if Token(i + 1) == Token(j + 1) { TokensDiffer(i + 1, j + 1); }
    }
  }

  lemma NumberedTokenIsPresent(p: Pages, n: nat)
    requires 1 <= n <= |Met(p)|
    ensures Token(n) in Text(RenamePages(p, Table(Met(p))))
  {
    var met, table := Met(p), Table(Met(p));
    MetIsNoted(p);
    RenamedText(p, table);
    TableAt(met, n - 1);
    assert met[n - 1] in met;
    var i :| 0 <= i < |Text(p)| && Text(p)[i] == met[n - 1];
    assert ApplyAll(table, Text(p))[i] == Token(n);
  }

  /** A token in the tokenised text stands for a UUID of the text. */
  lemma TokenStandsForOne(met: seq<string>, s: string, n: nat)
    requires Distinct(met) && Apply(Table(met), s) == Token(n) && !TokenLike(s)
    ensures 1 <= n <= |met|
  {
    if s in met {
      var k := IndexOf(met, s);
      TableAt(met, k);
      TokensDiffer(n, k + 1);
    }
  }

  lemma PresentTokenIsNumbered(p: Pages, n: nat)
    requires TokenFree(p) && Token(n) in Text(RenamePages(p, Table(Met(p))))
    ensures 1 <= n <= |Met(p)|
  {
    RenamedText(p, Table(Met(p)));
    var i :| 0 <= i < |Text(p)| && ApplyAll(Table(Met(p)), Text(p))[i] == Token(n);
    assert Text(p)[i] in Text(p);
    MetIsNoted(p);
    TokenStandsForOne(Met(p), Text(p)[i], n);
  }

  /** In text without look-alikes, the tokens present are exactly those of the UUIDs met. */
  lemma TokensPresent(p: Pages, n: nat)
    requires TokenFree(p)
    ensures Token(n) in Text(RenamePages(p, Table(Met(p)))) <==> 1 <= n <= |Met(p)|
  {
    if 1 <= n <= |Met(p)| {
      NumberedTokenIsPresent(p, n);
    } else if Token(n) in Text(RenamePages(p, Table(Met(p)))) {
      PresentTokenIsNumbered(p, n);
    }
  }

  lemma TokenisedAlike(p: Pages, q: Pages, leq: Before)
    requires TotalOrder(leq) && p.row.Dict? && q.row.Dict?
    ensures Normal(p, leq) == Normal(q, leq)
            <==> AlikePages(RenamePages(p, Table(Met(p))), RenamePages(q, Table(Met(q))))
  {
    var tp, tq := RenamePages(p, Table(Met(p))), RenamePages(q, Table(Met(q)));
    SettledIsCanonical(tp.row.entries, tq.row.entries, leq);
    SortListsIsCanonical(tp.facts, tq.facts, leq);
    var sp, sq := Settled(tp.row.entries, leq), Settled(tq.row.entries, leq);
    if sp + [COMPOSER_VERSION] == sq + [COMPOSER_VERSION] {
      assert sp == (sp + [COMPOSER_VERSION])[..|sp|] && sq == (sq + [COMPOSER_VERSION])[..|sq|];
    }
  }

  /** Tokens turned back into the UUIDs they stand for. */
  lemma UntokenisedBySelf(q: Pages)
    requires TokenFree(q)
    ensures RenamePages(RenamePages(q, Table(Met(q))), Pairing(Tokens(|Met(q)|), Met(q))) == q
  {
    var met := Met(q);
    var table, back := Table(met), Pairing(Tokens(|met|), met);
    MetIsNoted(q);
    TokensAreDistinct(|met|);
    forall s | s in Text(q) ensures Apply(map[], s) == Apply(back, Apply(table, s)) {
      if s in met {
        var k := IndexOf(met, s);
        TableAt(met, k);
        PairedAt(Tokens(|met|), met, k);
      } else {
        assert !TokenLike(s);
      }
    }
    RenamePagesCompose(q, table, back, map[]);
    RenamePagesSame(q, map[]);
  }

  lemma UntokenisedByOther(p: Pages, q: Pages)
    requires TokenFree(p) && |Met(p)| == |Met(q)|
    ensures RenamePages(RenamePages(p, Table(Met(p))), Pairing(Tokens(|Met(q)|), Met(q)))
            == RenamePages(p, Pairing(Met(p), Met(q)))
  {
    var mp, mq := Met(p), Met(q);
    var table, back, pair := Table(mp), Pairing(Tokens(|mq|), mq), Pairing(mp, mq);
    MetIsNoted(p);
    TokensAreDistinct(|mq|);
    forall s | s in Text(p) ensures Apply(pair, s) == Apply(back, Apply(table, s)) {
      if s in mp {
        var k := IndexOf(mp, s);
        TableAt(mp, k);
        PairedAt(Tokens(|mq|), mq, k);
        PairedAt(mp, mq, k);
      } else {
        assert !TokenLike(s);
      }
    }
    RenamePagesCompose(p, table, back, pair);
  }

  lemma PairedThenTokenised(p: Pages, q: Pages)
    requires |Met(p)| == |Met(q)|
    ensures RenamePages(RenamePages(p, Pairing(Met(p), Met(q))), Table(Met(q))) == RenamePages(p, Table(Met(p)))
  {
    var mp, mq := Met(p), Met(q);
    var pair := Pairing(mp, mq);
    MetIsNoted(p);
    MetIsNoted(q);
    forall s | s in Text(p) ensures Apply(Table(mp), s) == Apply(Table(mq), Apply(pair, s)) {
      if s in mp {
        var k := IndexOf(mp, s);
        PairedAt(mp, mq, k);
        TableAt(mp, k);
        TableAt(mq, k);
      } else {
        assert s !in mq;
      }
    }
    RenamePagesCompose(p, pair, Table(mq), Table(mp));
  }

  /**
   * Exactly when two inputs normalise alike: pair their UUIDs by first appearance, and the first
   * input so renamed is the second, up to order in the sorted lists.
   */
  lemma EqualIffPairedByFirstAppearance(p: Pages, q: Pages, leq: Before)
    requires TotalOrder(leq) && p.row.Dict? && q.row.Dict? && TokenFree(p) && TokenFree(q)
    ensures Normal(p, leq) == Normal(q, leq)
            <==> |Met(p)| == |Met(q)| && AlikePages(RenamePages(p, Pairing(Met(p), Met(q))), q)
  {
    var tp, tq := RenamePages(p, Table(Met(p))), RenamePages(q, Table(Met(q)));
    TokenisedAlike(p, q, leq);
    if AlikePages(tp, tq) {
      SameTokensSameCount(p, q);
      AlikePagesRenamed(tp, tq, Pairing(Tokens(|Met(q)|), Met(q)));
      UntokenisedBySelf(q);
      UntokenisedByOther(p, q);
    }
    if |Met(p)| == |Met(q)| && AlikePages(RenamePages(p, Pairing(Met(p), Met(q))), q) {
      AlikePagesRenamed(RenamePages(p, Pairing(Met(p), Met(q))), q, Table(Met(q)));
      PairedThenTokenised(p, q);
    }
  }

  lemma SameTokensSameCount(p: Pages, q: Pages)
    requires p.row.Dict? && q.row.Dict? && TokenFree(p) && TokenFree(q)
    requires AlikePages(RenamePages(p, Table(Met(p))), RenamePages(q, Table(Met(q))))
    ensures |Met(p)| == |Met(q)|
  {
    var tp, tq := RenamePages(p, Table(Met(p))), RenamePages(q, Table(Met(q)));
    var n := if |Met(p)| < |Met(q)| then |Met(q)| else |Met(p)|;
    TokensPresent(p, n);
    TokensPresent(q, n);
    AlikePagesHoldTheSameText(tp, tq, Token(n));
  }

  /** Equal outputs come from inputs that a renaming of UUIDs turns into each other. */
  lemma EqualOutputsAreARenaming(p: Pages, q: Pages, leq: Before)
    requires TotalOrder(leq) && p.row.Dict? && q.row.Dict? && TokenFree(p) && TokenFree(q)
    requires Normal(p, leq) == Normal(q, leq)
    ensures exists r :: Renaming(r, Text(p)) && AlikePages(RenamePages(p, r), q)
  {
    EqualIffPairedByFirstAppearance(p, q, leq);
    PairingIsARenaming(p, q);
    var r := Pairing(Met(p), Met(q));
    assert Renaming(r, Text(p)) && AlikePages(RenamePages(p, r), q);
  }

  lemma PairingIsARenaming(p: Pages, q: Pages)
    requires |Met(p)| == |Met(q)|
    ensures Renaming(Pairing(Met(p), Met(q)), Text(p))
  {
    var mp, mq := Met(p), Met(q);
    var r := Pairing(mp, mq);
    MetIsNoted(p);
    MetIsNoted(q);
    forall s | s in mp ensures Apply(r, s) == mq[IndexOf(mp, s)] && IsUuid(Apply(r, s)) {
      PairedAt(mp, mq, IndexOf(mp, s));
      assert mq[IndexOf(mp, s)] in mq;
    }
  }

  lemma {:induction false} NoteRenamed(ss: seq<string>, seen: seq<string>, all: seq<string>,
                                       r: map<string, string>)
    requires Renaming(r, all) && Noted(seen)
    requires forall s | s in ss || s in seen :: s in all
    ensures Note(ApplyAll(r, ss), ApplyAll(r, seen)) == ApplyAll(r, Note(ss, seen))
    decreases |ss|
  {
    if ss != [] {
      var s, rs := ss[0], ApplyAll(r, ss);
      var next := if IsUuid(s) && s !in seen then seen + [s] else seen;
      assert s in ss && rs[0] == Apply(r, s) && rs[1..] == ApplyAll(r, ss[1..]);
      if Apply(r, s) in ApplyAll(r, seen) && IsUuid(s) {
        var k :| 0 <= k < |seen| && Apply(r, seen[k]) == Apply(r, s);
        assert seen[k] in seen;
      }
      if s in seen {
        var k :| 0 <= k < |seen| && seen[k] == s;
        assert ApplyAll(r, seen)[k] == Apply(r, s);
      }
      assert ApplyAll(r, seen + [s]) == ApplyAll(r, seen) + [Apply(r, s)];
      assert forall t | t in ss[1..] :: t in ss;
      NoteRenamed(ss[1..], next, all, r);
    }
  }

  /** No renaming of the UUIDs in the input reaches the output. */
  lemma RenamingIsInvisible(p: Pages, r: map<string, string>, leq: Before)
    requires p.row.Dict? && Renaming(r, Text(p))
    ensures Normal(RenamePages(p, r), leq) == Normal(p, leq)
  {
    var met := Met(p);
    var renamed := ApplyAll(r, met);
    MetIsNoted(p);
    RenamedText(p, r);
    NoteRenamed(Text(p), [], Text(p), r);
    assert ApplyAll(r, []) == [];
    MetIsNoted(RenamePages(p, r));
    assert Met(RenamePages(p, r)) == renamed;
    forall s | s in Text(p) ensures Apply(Table(met), s) == Apply(Table(renamed), Apply(r, s)) {
      if s in met {
        var k := IndexOf(met, s);
        TableAt(met, k);
        assert renamed[k] == Apply(r, s);
        TableAt(renamed, k);
      } else {
        assert !IsUuid(s);
      }
    }
    RenamePagesCompose(p, r, Table(renamed), Table(met));
  }

  function RenameRow(row: seq<Entry>, r: map<string, string>): (renamed: seq<Entry>)
    ensures |renamed| == |row|
  {
    seq(|row|, i requires 0 <= i < |row| => Entry(row[i].key, Rename(row[i].value, r)))
  }

  lemma RenamedDict(row: seq<Entry>, r: map<string, string>)
    ensures Rename(Dict(row), r) == Dict(RenameRow(row, r))
  {
    RenamedChildren(Dict(row), r);
    forall i | 0 <= i < |row| ensures Rename(Dict(row), r).entries[i] == RenameRow(row, r)[i] {
      RenamedEntry(Dict(row), r, i);
    }
  }

  lemma RenameRowConcat(a: seq<Entry>, b: seq<Entry>, r: map<string, string>)
    ensures RenameRow(a + b, r) == RenameRow(a, r) + RenameRow(b, r)
  {
  }

  lemma KeptColumnRenamed(e: Entry, r: map<string, string>)
    requires Apply(r, "<TS>") == "<TS>"
    ensures KeptColumn(Entry(e.key, Rename(e.value, r))) == RenameRow(KeptColumn(e), r)
  {
  }

  /** Masking and dropping columns look at keys and nulls only, so they commute with renaming. */
  lemma {:induction false} KeptRenamed(row: seq<Entry>, r: map<string, string>)
    requires Apply(r, "<TS>") == "<TS>"
    ensures Kept(RenameRow(row, r)) == RenameRow(Kept(row), r)
    decreases |row|
  {
    if row != [] {
      var most, last := row[..|row| - 1], row[|row| - 1];
      KeptRenamed(most, r);
      KeptColumnRenamed(last, r);
      RenameRowConcat(Kept(most), KeptColumn(last), r);
      assert RenameRow(row, r)[..|row| - 1] == RenameRow(most, r);
    }
  }

  /** The same, from the raw row: a composition repeated with other UUIDs normalises to the same output. */
  lemma RepeatedRunsNormaliseEqually(row: seq<Entry>, facts: seq<FactLink>, r: map<string, string>, leq: Before)
    requires Renaming(r, Text(Read(row, facts))) && Apply(r, "<TS>") == "<TS>"
    ensures Normal(Pages(Dict(Kept(RenameRow(row, r))), Rename(FactList(facts), r)), leq)
            == Normal(Read(row, facts), leq)
  {
    RenamingIsInvisible(Read(row, facts), r, leq);
    KeptRenamed(row, r);
    RenamedDict(Kept(row), r);
  }

  /** A row of one column holding one string. */
  function One(s: string): Pages {
    Pages(Dict([Entry("id", Str(s))]), List([]))
  }

  lemma OneString(s: string)
    ensures Text(One(s)) == [s]
  {
    var row := One(s).row;
    assert Children(row)[0] == Str(s);
    assert StringsFrom(row, 0) == Strings(Children(row)[0]) + StringsFrom(row, 1);
  }

  lemma OneRenamed(s: string, m: map<string, string>)
    ensures RenamePages(One(s), m) == One(Apply(m, s))
  {
    var row := One(s).row;
    RenamedEntry(row, m, 0);
    assert Rename(row, m).entries == [Entry("id", Str(Apply(m, s)))];
    RenamedChildren(List([]), m);
    assert Children(Rename(List([]), m)) == [];
  }

  lemma NoteOne(s: string)
    ensures Note([s], []) == if IsUuid(s) then [s] else []
  {
    assert [s][1..] == [] && [] + [s] == [s];
  }

  lemma TableOfOne(s: string)
    ensures Apply(Table([s]), s) == Token(1)
  {
    TableAt([s], 0);
    assert [s][0] == s;
  }

  lemma OneTokenised(s: string, token: string)
    requires token == Token(1)
    ensures RenamePages(One(s), Table(Met(One(s)))) == One(if IsUuid(s) then token else s)
  {
    OneString(s);
    NoteOne(s);
    if IsUuid(s) {
      OneRenamed(s, Table([s]));
      TableOfOne(s);
    } else {
      OneRenamed(s, Table([]));
    }
  }

  /** A stored token passes for any UUID: without the look-alike guard, equal outputs prove nothing. */
  lemma LookAlikesCollide(uuid: string, token: string, leq: Before)
    requires IsUuid(uuid) && token == Token(1)
    ensures Normal(One(uuid), leq) == Normal(One(token), leq)
    ensures !exists r :: Renaming(r, Text(One(uuid))) && RenamePages(One(uuid), r) == One(token)
  {
    TokenIsNoUuid(1);
    OneTokenised(uuid, token);
    OneTokenised(token, token);
    OneString(uuid);
    forall r: map<string, string> | Renaming(r, Text(One(uuid))) ensures RenamePages(One(uuid), r) != One(token) {
      OneRenamed(uuid, r);
      assert uuid in Text(One(uuid));
      assert One(Apply(r, uuid)).row.entries[0].value.text == Apply(r, uuid);
      assert One(token).row.entries[0].value.text == token;
    }
  }
}
