/**
 * The UUID tokens of a golden comparison: what counts as a UUID, how tokens are written, and the
 * order in which UUIDs are first met.
 */
module GoldenUuids {

  import opened GoldenJson

  predicate Hex(c: char) {
    '0' <= c <= '9' || 'a' <= c <= 'f' || 'A' <= c <= 'F'
  }

  /** Hex digits in groups of 8, 4, 4, 4 and 12, either case. */
  predicate UuidShape(s: string) {
    && |s| == 36
    && forall i :: 0 <= i < 36 ==> if i in {8, 13, 18, 23} then s[i] == '-' else Hex(s[i])
  }

  /**
   * What the pattern accepts. Its final anchor also matches just before a newline that ends the
   * string, so a UUID followed by one newline is taken as well.
   */
  predicate IsUuid(s: string) {
    UuidShape(s) || (|s| == 37 && s[36] == '\n' && UuidShape(s[..36]))
  }

  function Decimal(n: nat): (r: string)
    ensures |r| > 0 && forall c | c in r :: '0' <= c <= '9'
  {
    var digit := '0' + (n % 10) as char;
    if n < 10 then [digit] else Decimal(n / 10) + [digit]
  }

  function ReadDecimal(s: string): int {
    if s == [] then 0 else 10 * ReadDecimal(s[..|s| - 1]) + (s[|s| - 1] as int - '0' as int)
  }

  lemma {:induction false} DecimalReads(n: nat)
    ensures ReadDecimal(Decimal(n)) == n
  {
    var d := Decimal(n);
    if n < 10 {
      assert d[..|d| - 1] == [];
    } else {
      DecimalReads(n / 10);
      assert d[..|d| - 1] == Decimal(n / 10);
    }
  }

  function Token(n: nat): string {
    "<UUID:" + Decimal(n) + ">"
  }

  lemma TokensDiffer(m: nat, n: nat)
    requires Token(m) == Token(n)
    ensures m == n
  {
    var a, b := Token(m), Token(n);
    assert a[6..|a| - 1] == Decimal(m) && b[6..|b| - 1] == Decimal(n);
    DecimalReads(m);
    DecimalReads(n);
  }

  lemma TokenIsNoUuid(n: nat)
    ensures !IsUuid(Token(n))
  {
    assert Token(n)[0] == '<';
    if |Token(n)| == 37 { assert Token(n)[..36][0] == '<'; }
  }

  /** A string that a token could be mistaken for. */
  ghost predicate TokenLike(s: string) {
    exists n: nat :: s == Token(n)
  }

  predicate Distinct(ss: seq<string>) {
    forall i, j :: 0 <= i < j < |ss| ==> ss[i] != ss[j]
  }

  /** UUIDs noted so far: no repeats, nothing that is not a UUID. */
  predicate Noted(seen: seq<string>) {
    Distinct(seen) && forall s | s in seen :: IsUuid(s)
  }

  /** `seen` followed by the UUIDs of `ss` not yet in it, by first appearance. */
  function Note(ss: seq<string>, seen: seq<string>): seq<string> {
    if ss == [] then seen
    else Note(ss[1..], if IsUuid(ss[0]) && ss[0] !in seen then seen + [ss[0]] else seen)
  }

  lemma {:induction false} NoteKeeps(ss: seq<string>, seen: seq<string>)
    requires Noted(seen)
    ensures Noted(Note(ss, seen)) && seen <= Note(ss, seen)
    ensures forall s :: s in Note(ss, seen) <==> s in seen || (s in ss && IsUuid(s))
    decreases |ss|
  {
    if ss != [] {
      var next := if IsUuid(ss[0]) && ss[0] !in seen then seen + [ss[0]] else seen;
      NoteKeeps(ss[1..], next);
      forall s ensures s in Note(ss, seen) <==> s in seen || (s in ss && IsUuid(s)) {
        assert s in ss <==> s == ss[0] || s in ss[1..];
      }
    }
  }

  lemma {:induction false} NoteConcat(a: seq<string>, b: seq<string>, seen: seq<string>)
    ensures Note(a + b, seen) == Note(b, Note(a, seen))
    decreases |a|
  {
    if a == [] {
      assert a + b == b;
    } else {
      assert (a + b)[1..] == a[1..] + b;
      NoteConcat(a[1..], b, if IsUuid(a[0]) && a[0] !in seen then seen + [a[0]] else seen);
    }
  }

  function IndexOf(ss: seq<string>, s: string): (r: nat)
    requires s in ss
    ensures r < |ss| && ss[r] == s
    ensures forall i :: 0 <= i < r ==> ss[i] != s
  {
    if ss[0] == s then 0 else 1 + IndexOf(ss[1..], s)
  }

  /** Each string of `seen` with the tag of its place, counting from one. */
  function Numbering(seen: seq<string>, tag: nat -> string): map<string, string> {
    map s | s in seen :: tag(IndexOf(seen, s) + 1)
  }

  lemma NumberingAt(seen: seq<string>, tag: nat -> string, k: nat)
    requires Distinct(seen) && k < |seen|
    ensures seen[k] in Numbering(seen, tag) && Numbering(seen, tag)[seen[k]] == tag(k + 1)
  {
    assert seen[k] in seen;
  }

  lemma {:induction false} DistinctSize(seen: seq<string>)
    requires Distinct(seen)
    ensures |set s | s in seen| == |seen|
    decreases |seen|
  {
    if seen != [] {
      var rest, last := seen[..|seen| - 1], seen[|seen| - 1];
      DistinctSize(rest);
      assert (set s | s in seen) == (set s | s in rest) + {last};
    }
  }

  lemma NumberingSize(seen: seq<string>, tag: nat -> string)
    requires Distinct(seen)
    ensures |Numbering(seen, tag)| == |seen|
  {
    DistinctSize(seen);
    assert Numbering(seen, tag).Keys == set s | s in seen;
  }

  lemma NumberingGrows(seen: seq<string>, tag: nat -> string, s: string)
    requires Distinct(seen) && s !in seen
    ensures Numbering(seen + [s], tag) == Numbering(seen, tag)[s := tag(|seen| + 1)]
  {
    var more := seen + [s];
    forall u | u in more
      ensures u in Numbering(more, tag)
      ensures Numbering(more, tag)[u] == Numbering(seen, tag)[s := tag(|seen| + 1)][u]
    {
      var k := IndexOf(more, u);
      NumberingAt(more, tag, k);
      if k < |seen| {
        NumberingAt(seen, tag, k);
      }
    }
  }

  /** The token table that numbers `seen` from one. */
  function Table(seen: seq<string>): map<string, string> {
    Numbering(seen, Token)
  }

  lemma TableAt(seen: seq<string>, k: nat)
    requires Distinct(seen) && k < |seen|
    ensures seen[k] in Table(seen) && Table(seen)[seen[k]] == Token(k + 1)
  {
    NumberingAt(seen, Token, k);
  }

  /** Noting one more UUID is the assignment a new table entry makes. */
  lemma TableGrows(seen: seq<string>, s: string)
    requires Distinct(seen) && s !in seen
    ensures Table(seen + [s]) == Table(seen)[s := Token(|Table(seen)| + 1)]
  {
    NumberingGrows(seen, Token, s);
    NumberingSize(seen, Token);
  }

  ghost predicate AllNoted(v: Json, seen: seq<string>) {
    forall s | s in Strings(v) :: IsUuid(s) ==> s in seen
  }

  /** Numbering more UUIDs leaves the values already tokenised as they are. */
  lemma LaterNotesAreInvisible(v: Json, seen: seq<string>, later: seq<string>)
    requires Noted(seen) && Noted(later) && seen <= later
    requires AllNoted(v, seen)
    ensures Rename(v, Table(later)) == Rename(v, Table(seen)) && AllNoted(v, later)
  {
    forall s | s in Strings(v) ensures Apply(Table(later), s) == Apply(Table(seen), s) {
      if s in seen {
        var k := IndexOf(seen, s);
        TableAt(seen, k);
        assert later[k] == s;
        TableAt(later, k);
      } else {
        assert s !in later;
      }
    }
    RenameAgree(v, Table(later), Table(seen));
  }

  /** The mutable map threaded through one normalisation. */
  class TokenMap {
    var table: map<string, string>

    constructor ()
      ensures table == map[] && Table([]) == table
    {
      table := map[];
    }
  }

  /**
   * Replaces every UUID of `v` by its token, numbering the UUIDs the map has not met. The result
   * is stated through the map left behind: the tokens number UUIDs by first appearance.
   */
  method ReplaceUuids(v: Json, tokens: TokenMap, ghost seen: seq<string>) returns (r: Json)
    requires Noted(seen) && tokens.table == Table(seen)
    modifies tokens
    ensures Noted(Note(Strings(v), seen)) && tokens.table == Table(Note(Strings(v), seen))
    ensures r == Rename(v, tokens.table)
    decreases v, 1
  {
    NoteKeeps(Strings(v), seen);
    if v.Str? {
      var text := ReplaceText(v.text, tokens, seen);
      return Str(text);
    }
    var replaced := ReplaceChildren(v, tokens, seen);
    r := WithChildren(v, replaced);
    RenamedChildren(v, tokens.table);
    assert Children(r) == Children(Rename(v, tokens.table));
    SameChildren(r, Rename(v, tokens.table));
  }

  /** The first children, tokenised by the table of the UUIDs noted so far. */
  ghost predicate Replaced(children: seq<Json>, replaced: seq<Json>, noted: seq<string>) {
    && |replaced| <= |children|
    && forall k :: 0 <= k < |replaced| ==>
         replaced[k] == Rename(children[k], Table(noted)) && AllNoted(children[k], noted)
  }

  lemma ReplacedMore(children: seq<Json>, replaced: seq<Json>, before: seq<string>, noted: seq<string>,
                     child: Json)
    requires |replaced| < |children| && Replaced(children, replaced, before)
    requires Noted(before) && Noted(noted) && before <= noted
    requires child == Rename(children[|replaced|], Table(noted)) && AllNoted(children[|replaced|], noted)
    ensures Replaced(children, replaced + [child], noted)
  {
    var more := replaced + [child];
    forall k | 0 <= k < |more|
      ensures more[k] == Rename(children[k], Table(noted)) && AllNoted(children[k], noted)
    {
      if k < |replaced| {
        assert more[k] == replaced[k];
        LaterNotesAreInvisible(children[k], before, noted);
      }
    }
  }

  method ReplaceText(s: string, tokens: TokenMap, ghost seen: seq<string>) returns (r: string)
    requires Noted(seen) && tokens.table == Table(seen)
    modifies tokens
    ensures tokens.table == Table(Note([s], seen)) && r == Apply(tokens.table, s)
  {
    assert Note([s], seen) == if IsUuid(s) && s !in seen then seen + [s] else seen;
    if IsUuid(s) {
      if s !in tokens.table {
        TableGrows(seen, s);
        tokens.table := tokens.table[s := Token(|tokens.table| + 1)];
      }
      return tokens.table[s];
    }
    return s;
  }

  method ReplaceChildren(v: Json, tokens: TokenMap, ghost seen: seq<string>) returns (replaced: seq<Json>)
    requires !v.Str? && Noted(seen) && tokens.table == Table(seen)
    modifies tokens
    ensures tokens.table == Table(Note(Strings(v), seen))
    ensures |replaced| == |Children(v)|
    ensures forall k :: 0 <= k < |replaced| ==> replaced[k] == Rename(Children(v)[k], tokens.table)
    decreases v, 0
  {
    var children := Children(v);
    replaced := [];
    ghost var noted := seen;
    for i := 0 to |children|
      invariant |replaced| == i
      invariant Noted(noted) && tokens.table == Table(noted)
      invariant Note(Strings(v), seen) == Note(StringsFrom(v, i), noted)
      invariant Replaced(children, replaced, noted)
    {
      assert children[i] in children;
      ghost var before := noted;
      NoteConcat(Strings(children[i]), StringsFrom(v, i + 1), before);
      NoteKeeps(Strings(children[i]), before);
      noted := Note(Strings(children[i]), before);
      var child := ReplaceUuids(children[i], tokens, before);
      ReplacedMore(children, replaced, before, noted, child);
      replaced := replaced + [child];
    }
  }
}
