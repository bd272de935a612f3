/**
 * The JSON values a golden comparison works on, with the strings they hold in reading order.
 * A dictionary keeps its entries in insertion order, which is the order they are visited in.
 */
module GoldenJson {

  datatype Json =
    | Null
    | Flag(on: bool)
    | Number(n: real)
    | Str(text: string)
    | List(items: seq<Json>)
    | Dict(entries: seq<Entry>)

  datatype Entry = Entry(key: string, value: Json)

  /** The values directly inside `v`, in the order a traversal meets them. */
  function Children(v: Json): (r: seq<Json>)
    ensures forall c | c in r :: c < v
  {
    match v
    case List(items) => items
    case Dict(entries) => Values(entries)
    case _ => []
  }

  function Values(entries: seq<Entry>): seq<Json> {
    seq(|entries|, i requires 0 <= i < |entries| => entries[i].value)
  }

  /** `v` with its children replaced one for one. */
  function WithChildren(v: Json, kids: seq<Json>): (r: Json)
    requires |kids| == |Children(v)|
    ensures Children(r) == kids
    ensures r.Str? == v.Str? && r.List? == v.List? && r.Dict? == v.Dict? && r.Null? == v.Null?
  {
    match v
    case List(_) => List(kids)
    case Dict(entries) => Dict(WithValues(entries, kids))
    case _ => v
  }

  function WithValues(entries: seq<Entry>, kids: seq<Json>): (r: seq<Entry>)
    requires |kids| == |entries|
    ensures Values(r) == kids
  {
    seq(|entries|, i requires 0 <= i < |entries| => Entry(entries[i].key, kids[i]))
  }

  lemma SameChildren(v: Json, w: Json)
    requires v.List? || v.Dict? ==> Children(v) == Children(w)
    requires v.List? == w.List? && v.Dict? == w.Dict?
    requires !v.List? && !v.Dict? ==> v == w
    requires v.Dict? ==> |v.entries| == |w.entries|
    requires v.Dict? ==> forall i :: 0 <= i < |v.entries| ==> v.entries[i].key == w.entries[i].key
    ensures v == w
  {
    if v.Dict? {
      forall i | 0 <= i < |v.entries| ensures v.entries[i] == w.entries[i] {
        assert Values(v.entries)[i] == v.entries[i].value && Values(w.entries)[i] == w.entries[i].value;
      }
      assert v.entries == w.entries;
    }
  }

  /** Every string inside `v` that is a value (keys are never touched), in reading order. */
  function Strings(v: Json): seq<string>
    decreases v, |Children(v)| + 1
  {
    if v.Str? then [v.text] else StringsFrom(v, 0)
  }

  /** The strings of the children of `v` from the i-th on. */
  function StringsFrom(v: Json, i: nat): seq<string>
    requires i <= |Children(v)|
    decreases v, |Children(v)| - i
  {
    if i == |Children(v)| then []
    else
      assert Children(v)[i] in Children(v);
      Strings(Children(v)[i]) + StringsFrom(v, i + 1)
  }

  lemma {:induction false} ChildStrings(v: Json, i: nat, k: nat)
    requires i <= k < |Children(v)| && !v.Str?
    ensures forall s | s in Strings(Children(v)[k]) :: s in StringsFrom(v, i)
    decreases k - i
  {
    if i < k { ChildStrings(v, i + 1, k); }
  }

  function Apply(m: map<string, string>, s: string): string {
    if s in m then m[s] else s
  }

  /** `v` with every string value looked up in `m`. */
  function Rename(v: Json, m: map<string, string>): (r: Json)
    ensures |Children(r)| == |Children(v)|
    ensures r.Null? == v.Null? && r.Dict? == v.Dict? && r.List? == v.List? && r.Str? == v.Str?
    decreases v
  {
    if v.Str? then Str(Apply(m, v.text))
    else WithChildren(v, seq(|Children(v)|, i requires 0 <= i < |Children(v)| =>
      assert Children(v)[i] in Children(v); Rename(Children(v)[i], m)))
  }

  lemma RenamedChildren(v: Json, m: map<string, string>)
    requires !v.Str?
    ensures |Children(Rename(v, m))| == |Children(v)|
    ensures forall i :: 0 <= i < |Children(v)| ==> Children(Rename(v, m))[i] == Rename(Children(v)[i], m)
    ensures v.Dict? ==> |Rename(v, m).entries| == |v.entries|
    ensures v.Dict? ==> forall i :: 0 <= i < |v.entries| ==> Rename(v, m).entries[i].key == v.entries[i].key
    ensures !v.List? && !v.Dict? ==> Rename(v, m) == v
  {
  }

  /** Renaming by `m` and then by `n` is renaming by any `k` that composes them on the strings of `v`. */
  lemma {:induction false} RenameCompose(v: Json, m: map<string, string>, n: map<string, string>,
                                         k: map<string, string>)
    requires forall s | s in Strings(v) :: Apply(k, s) == Apply(n, Apply(m, s))
    ensures Rename(Rename(v, m), n) == Rename(v, k)
    decreases v
  {
    if !v.Str? {
      var mid := Rename(v, m);
      RenamedChildren(v, m);
      RenamedChildren(v, k);
      RenamedChildren(mid, n);
      forall i | 0 <= i < |Children(v)|
        ensures Children(Rename(mid, n))[i] == Children(Rename(v, k))[i]
      {
        assert Children(v)[i] in Children(v);
        ChildStrings(v, 0, i);
        RenameCompose(Children(v)[i], m, n, k);
      }
      assert Children(Rename(mid, n)) == Children(Rename(v, k));
      SameChildren(Rename(mid, n), Rename(v, k));
    }
  }

  /** A renaming that fixes every string of `v` leaves `v` as it is. */
  lemma {:induction false} RenameSame(v: Json, m: map<string, string>)
    requires forall s | s in Strings(v) :: Apply(m, s) == s
    ensures Rename(v, m) == v
    decreases v
  {
    if !v.Str? {
      RenamedChildren(v, m);
      forall i | 0 <= i < |Children(v)| ensures Children(Rename(v, m))[i] == Children(v)[i] {
        assert Children(v)[i] in Children(v);
        ChildStrings(v, 0, i);
        RenameSame(Children(v)[i], m);
      }
      assert Children(Rename(v, m)) == Children(v);
      SameChildren(Rename(v, m), v);
    }
  }

  lemma RenameAgree(v: Json, m: map<string, string>, n: map<string, string>)
    requires forall s | s in Strings(v) :: Apply(m, s) == Apply(n, s)
    ensures Rename(v, m) == Rename(v, n)
  {
    RenameSame(v, map[]);
    RenameCompose(v, map[], m, n);
  }

  function ApplyAll(m: map<string, string>, ss: seq<string>): (r: seq<string>)
    ensures |r| == |ss|
  {
    seq(|ss|, i requires 0 <= i < |ss| => Apply(m, ss[i]))
  }

  /** The strings of a renamed value are the renamed strings, in the same order. */
  lemma {:induction false} RenamedStrings(v: Json, m: map<string, string>)
    ensures Strings(Rename(v, m)) == ApplyAll(m, Strings(v))
    decreases v, 1, 0
  {
    if !v.Str? { RenamedStringsFrom(v, m, 0); }
  }

  lemma {:induction false} RenamedStringsFrom(v: Json, m: map<string, string>, i: nat)
    requires !v.Str? && i <= |Children(v)|
    ensures |Children(Rename(v, m))| == |Children(v)|
    ensures StringsFrom(Rename(v, m), i) == ApplyAll(m, StringsFrom(v, i))
    decreases v, 0, |Children(v)| - i
  {
    RenamedChildren(v, m);
    if i < |Children(v)| {
      assert Children(v)[i] in Children(v);
      RenamedStrings(Children(v)[i], m);
      RenamedStringsFrom(v, m, i + 1);
      ApplyConcat(m, Strings(Children(v)[i]), StringsFrom(v, i + 1));
    }
  }

  lemma ApplyConcat(m: map<string, string>, a: seq<string>, b: seq<string>)
    ensures ApplyAll(m, a + b) == ApplyAll(m, a) + ApplyAll(m, b)
  {
  }
}
