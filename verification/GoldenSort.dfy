/**
 * Canonical list order: every list inside a value is sorted by the text of its items. The order
 * of texts is a parameter; all that is used of it is that it is total and tells values apart.
 */
module GoldenSort {

  import opened GoldenJson
  import opened Sorting

  type Before = (Json, Json) -> bool

  /** `v` with every list in it sorted, innermost lists first. */
  function SortLists(v: Json, leq: Before): (r: Json)
    ensures r.List? == v.List? && r.Dict? == v.Dict? && r.Str? == v.Str?
    decreases v
  {
    var kids := seq(|Children(v)|, i requires 0 <= i < |Children(v)| =>
      assert Children(v)[i] in Children(v); SortLists(Children(v)[i], leq));
    if v.List? then List(Sort(kids, leq)) else WithChildren(v, kids)
  }

  function SortEach(vs: seq<Json>, leq: Before): (r: seq<Json>)
    ensures |r| == |vs|
  {
    seq(|vs|, i requires 0 <= i < |vs| => SortLists(vs[i], leq))
  }

  lemma SortedNode(v: Json, leq: Before)
    ensures v.List? ==> SortLists(v, leq) == List(Sort(SortEach(v.items, leq), leq))
    ensures !v.List? ==> |Children(SortLists(v, leq))| == |Children(v)|
    ensures !v.List? ==> Children(SortLists(v, leq)) == SortEach(Children(v), leq)
    ensures !v.List? && !v.Dict? ==> SortLists(v, leq) == v
    ensures v.Dict? ==> |SortLists(v, leq).entries| == |v.entries|
    ensures v.Dict? ==> forall i :: 0 <= i < |v.entries| ==> SortLists(v, leq).entries[i].key == v.entries[i].key
  {
    var kids := seq(|Children(v)|, i requires 0 <= i < |Children(v)| =>
      assert Children(v)[i] in Children(v); SortLists(Children(v)[i], leq));
    assert kids == SortEach(Children(v), leq);
  }

  function Without(ys: seq<Json>, j: nat): seq<Json>
    requires j < |ys|
  {
    ys[..j] + ys[j + 1..]
  }

  /** Equal up to the order of the lists in them, at every depth. */
  ghost predicate Alike(v: Json, w: Json)
    decreases v
  {
    match v
    case List(items) => w.List? && AlikeItems(items, w.items)
    case Dict(entries) =>
      && w.Dict? && |entries| == |w.entries|
      && forall i :: 0 <= i < |entries| ==>
           entries[i].key == w.entries[i].key && Alike(entries[i].value, w.entries[i].value)
    case _ => v == w
  }

  /** The items pair off: each of `xs` has a partner of its own in `ys`, and no partner is left over. */
  ghost predicate AlikeItems(xs: seq<Json>, ys: seq<Json>)
    decreases xs
  {
    if xs == [] then ys == []
    else exists j :: 0 <= j < |ys| && Alike(xs[0], ys[j]) && AlikeItems(xs[1..], Without(ys, j))
  }

  lemma WithoutSplits(ys: seq<Json>, j: nat)
    requires j < |ys|
    ensures multiset(ys) == multiset(Without(ys, j)) + multiset{ys[j]}
  {
    assert ys == ys[..j] + [ys[j]] + ys[j + 1..];
  }

  lemma SortEachWithout(ys: seq<Json>, j: nat, leq: Before)
    requires j < |ys|
    ensures SortEach(Without(ys, j), leq) == Without(SortEach(ys, leq), j)
  {
  }

  /** Sorting every list is a canonical form for being alike. */
  lemma {:induction false} SortListsIsCanonical(v: Json, w: Json, leq: Before)
    requires TotalOrder(leq)
    ensures SortLists(v, leq) == SortLists(w, leq) <==> Alike(v, w)
    decreases v
  {
    SortedNode(v, leq);
    SortedNode(w, leq);
    if v.List? && w.List? {
      SortForgetsOrderOnly(SortEach(v.items, leq), SortEach(w.items, leq), leq);
      ItemsAreCanonical(v.items, w.items, leq);
    } else if v.Dict? && w.Dict? {
      var sv, sw := SortLists(v, leq), SortLists(w, leq);
      if |v.entries| == |w.entries| {
        forall i | 0 <= i < |v.entries|
          ensures sv.entries[i].value == sw.entries[i].value <==> Alike(v.entries[i].value, w.entries[i].value)
        {
          EntryAt(v, i, leq);
          EntryAt(w, i, leq);
          SortListsIsCanonical(v.entries[i].value, w.entries[i].value, leq);
        }
      }
      if Alike(v, w) {
        assert forall i :: 0 <= i < |v.entries| ==> sv.entries[i] == sw.entries[i];
        assert sv.entries == sw.entries;
      }
    }
  }

  lemma EntryAt(v: Json, i: nat, leq: Before)
    requires v.Dict? && i < |v.entries|
    ensures SortLists(v, leq).Dict? && |SortLists(v, leq).entries| == |v.entries|
    ensures SortLists(v, leq).entries[i].value == SortLists(v.entries[i].value, leq)
  {
    SortedNode(v, leq);
    assert Children(SortLists(v, leq))[i] == SortLists(Children(v)[i], leq);
  }

  /** One partner found and the rest paired off is a pairing of the whole. */
  lemma Partnered(xs: seq<Json>, ys: seq<Json>, j: nat)
    requires xs != [] && j < |ys| && Alike(xs[0], ys[j]) && AlikeItems(xs[1..], Without(ys, j))
    ensures AlikeItems(xs, ys)
  {
  }

  lemma {:induction false} ItemsAreCanonical(xs: seq<Json>, ys: seq<Json>, leq: Before)
    requires TotalOrder(leq)
    ensures multiset(SortEach(xs, leq)) == multiset(SortEach(ys, leq)) <==> AlikeItems(xs, ys)
    decreases xs, 2
  {
    var sx, sy := SortEach(xs, leq), SortEach(ys, leq);
    if xs == [] {
      assert |multiset(sx)| == |sx| && |multiset(sy)| == |sy|;
    } else {
      SortEachTail(xs, leq);
      if AlikeItems(xs, ys) {
        var j :| 0 <= j < |ys| && Alike(xs[0], ys[j]) && AlikeItems(xs[1..], Without(ys, j));
        PartnerIsCanonical(xs, ys, j, leq);
      }
      if multiset(sx) == multiset(sy) {
        assert sx[0] in multiset(sy);
        var j :| 0 <= j < |sy| && sy[j] == sx[0];
        SortedEachPairsOff(xs, ys, j, leq);
        Partnered(xs, ys, j);
      }
    }
  }

  lemma SortedEachPairsOff(xs: seq<Json>, ys: seq<Json>, j: nat, leq: Before)
    requires TotalOrder(leq) && xs != [] && j < |ys|
    requires multiset(SortEach(xs, leq)) == multiset(SortEach(ys, leq))
    requires SortLists(xs[0], leq) == SortLists(ys[j], leq)
    ensures Alike(xs[0], ys[j]) && AlikeItems(xs[1..], Without(ys, j))
    decreases xs, 1
  {
    PartnerIsCanonical(xs, ys, j, leq);
    SortEachTail(xs, leq);
    Cancel(multiset(SortEach(xs[1..], leq)), multiset(SortEach(Without(ys, j), leq)), SortLists(xs[0], leq));
  }

  lemma SortEachTail(xs: seq<Json>, leq: Before)
    requires xs != []
    ensures multiset(SortEach(xs, leq)) == multiset(SortEach(xs[1..], leq)) + multiset{SortLists(xs[0], leq)}
  {
    MultisetTail(SortEach(xs, leq));
    assert SortEach(xs, leq)[1..] == SortEach(xs[1..], leq);
  }

  lemma PartnerIsCanonical(xs: seq<Json>, ys: seq<Json>, j: nat, leq: Before)
    requires TotalOrder(leq) && xs != [] && j < |ys|
    ensures SortLists(xs[0], leq) == SortLists(ys[j], leq) <==> Alike(xs[0], ys[j])
    ensures multiset(SortEach(ys, leq)) == multiset(SortEach(Without(ys, j), leq)) + multiset{SortLists(ys[j], leq)}
    ensures multiset(SortEach(xs[1..], leq)) == multiset(SortEach(Without(ys, j), leq))
            <==> AlikeItems(xs[1..], Without(ys, j))
    decreases xs, 0
  {
    SortListsIsCanonical(xs[0], ys[j], leq);
    SortEachWithout(ys, j, leq);
    WithoutSplits(SortEach(ys, leq), j);
    ItemsAreCanonical(xs[1..], Without(ys, j), leq);
  }

  lemma {:induction false} AlikeToItself(v: Json)
    ensures Alike(v, v)
    decreases v
  {
    if v.List? {
      ItemsAlikeThemselves(v.items);
    } else if v.Dict? {
      forall i | 0 <= i < |v.entries| ensures Alike(v.entries[i].value, v.entries[i].value) {
        AlikeToItself(v.entries[i].value);
      }
    }
  }

  lemma {:induction false} ItemsAlikeThemselves(xs: seq<Json>)
    ensures AlikeItems(xs, xs)
    decreases xs
  {
    if xs != [] {
      AlikeToItself(xs[0]);
      ItemsAlikeThemselves(xs[1..]);
      assert Without(xs, 0) == xs[1..];
    }
  }

  /** Every list inside the value, at every depth, is in order. */
  ghost predicate InOrder(v: Json, leq: Before)
    decreases v
  {
    match v
    case List(items) => Sorted(items, leq) && forall i :: 0 <= i < |items| ==> InOrder(items[i], leq)
    case Dict(entries) => forall i :: 0 <= i < |entries| ==> InOrder(entries[i].value, leq)
    case _ => true
  }

  /** Sorting every list puts it in order. */
  lemma {:induction false} SortListsSorts(v: Json, leq: Before)
    requires TotalOrder(leq)
    ensures InOrder(SortLists(v, leq), leq)
    decreases v
  {
    SortedNode(v, leq);
    if v.List? {
      var each := SortEach(v.items, leq);
      SortSorts(each, leq);
      forall i | 0 <= i < |v.items| ensures InOrder(each[i], leq) { SortListsSorts(v.items[i], leq); }
      forall i | 0 <= i < |each| ensures InOrder(Sort(each, leq)[i], leq) {
        assert Sort(each, leq)[i] in multiset(Sort(each, leq));
        assert Sort(each, leq)[i] in multiset(each);
      }
    } else if v.Dict? {
      forall i | 0 <= i < |v.entries| ensures InOrder(SortLists(v, leq).entries[i].value, leq) {
        EntryAt(v, i, leq);
        SortListsSorts(v.entries[i].value, leq);
      }
    }
  }

  /** Sorting every list a second time changes nothing... */
  lemma {:induction false} SortedTwice(v: Json, leq: Before)
    requires TotalOrder(leq)
    ensures SortLists(SortLists(v, leq), leq) == SortLists(v, leq)
    decreases v
  {
    SortedNode(v, leq);
    var s := SortLists(v, leq);
    SortedNode(s, leq);
    if v.List? {
      var each := SortEach(v.items, leq);
      forall x | x in each ensures SortLists(x, leq) == x {
        var i :| 0 <= i < |each| && each[i] == x;
        SortedTwice(v.items[i], leq);
      }
      SortSorts(each, leq);
      forall i | 0 <= i < |s.items| ensures SortEach(s.items, leq)[i] == s.items[i] {
        assert s.items[i] in multiset(s.items);
        assert s.items[i] in multiset(each);
      }
      assert SortEach(s.items, leq) == s.items;
      SortSorts(s.items, leq);
      SortedIsUnique(Sort(s.items, leq), s.items, leq);
    } else if v.Dict? {
      forall i | 0 <= i < |s.entries| ensures SortLists(s, leq).entries[i] == s.entries[i] {
        EntryAt(v, i, leq);
        EntryAt(s, i, leq);
        SortedTwice(v.entries[i].value, leq);
      }
      assert SortLists(s, leq).entries == s.entries;
    }
  }

  /** ...so what comes out is what went in, up to the order of its lists. */
  lemma SortListsKeeps(v: Json, leq: Before)
    requires TotalOrder(leq)
    ensures Alike(v, SortLists(v, leq))
  {
    SortedTwice(v, leq);
    SortListsIsCanonical(v, SortLists(v, leq), leq);
  }

  function RenameEach(vs: seq<Json>, m: map<string, string>): (r: seq<Json>)
    ensures |r| == |vs|
  {
    seq(|vs|, i requires 0 <= i < |vs| => Rename(vs[i], m))
  }

  lemma RenameEachWithout(ys: seq<Json>, j: nat, m: map<string, string>)
    requires j < |ys|
    ensures RenameEach(Without(ys, j), m) == Without(RenameEach(ys, m), j)
  {
  }

  /** Being alike survives any renaming, even one that merges strings. */
  lemma {:induction false} AlikeRenamed(v: Json, w: Json, m: map<string, string>)
    requires Alike(v, w)
    ensures Alike(Rename(v, m), Rename(w, m))
    decreases v
  {
    if v.List? {
      AlikeItemsRenamed(v.items, w.items, m);
      RenamedChildren(v, m);
      RenamedChildren(w, m);
      assert Rename(v, m).items == RenameEach(v.items, m);
      assert Rename(w, m).items == RenameEach(w.items, m);
    } else if v.Dict? {
      RenamedChildren(v, m);
      RenamedChildren(w, m);
      forall i | 0 <= i < |v.entries|
        ensures Alike(Rename(v, m).entries[i].value, Rename(w, m).entries[i].value)
      {
        assert Children(Rename(v, m))[i] == Rename(Children(v)[i], m);
        assert Children(Rename(w, m))[i] == Rename(Children(w)[i], m);
        AlikeRenamed(v.entries[i].value, w.entries[i].value, m);
      }
    }
  }

  lemma {:induction false} AlikeItemsRenamed(xs: seq<Json>, ys: seq<Json>, m: map<string, string>)
    requires AlikeItems(xs, ys)
    ensures AlikeItems(RenameEach(xs, m), RenameEach(ys, m))
    decreases xs
  {
    if xs != [] {
      var j :| 0 <= j < |ys| && Alike(xs[0], ys[j]) && AlikeItems(xs[1..], Without(ys, j));
      AlikeRenamed(xs[0], ys[j], m);
      AlikeItemsRenamed(xs[1..], Without(ys, j), m);
      PartnerRenamed(xs, ys, j, m);
    }
  }

  lemma PartnerRenamed(xs: seq<Json>, ys: seq<Json>, j: nat, m: map<string, string>)
    requires xs != [] && j < |ys|
    requires Alike(Rename(xs[0], m), Rename(ys[j], m))
    requires AlikeItems(RenameEach(xs[1..], m), RenameEach(Without(ys, j), m))
    ensures AlikeItems(RenameEach(xs, m), RenameEach(ys, m))
  {
    var rx, ry := RenameEach(xs, m), RenameEach(ys, m);
    RenameEachTail(xs, m);
    RenameEachWithout(ys, j, m);
    assert rx[0] == Rename(xs[0], m) && ry[j] == Rename(ys[j], m);
    Partnered(rx, ry, j);
  }

  lemma RenameEachTail(xs: seq<Json>, m: map<string, string>)
    requires xs != []
    ensures RenameEach(xs, m)[1..] == RenameEach(xs[1..], m)
  {
  }

  /** Alike values hold the same strings. */
  lemma {:induction false} AlikeHasTheSameStrings(v: Json, w: Json, s: string)
    requires Alike(v, w)
    ensures s in Strings(v) <==> s in Strings(w)
    decreases v
  {
    if v.List? {
      ItemsHaveTheSameStrings(v.items, w.items, s);
      StringsOfChildren(v, 0, s);
      StringsOfChildren(w, 0, s);
      assert Children(v)[0..] == v.items && Children(w)[0..] == w.items;
    } else if v.Dict? {
      StringsOfChildren(v, 0, s);
      StringsOfChildren(w, 0, s);
      forall i | 0 <= i < |v.entries|
        ensures s in Strings(Children(v)[i]) <==> s in Strings(Children(w)[i])
      {
        AlikeHasTheSameStrings(v.entries[i].value, w.entries[i].value, s);
      }
      assert Children(v)[0..] == Children(v) && Children(w)[0..] == Children(w);
    }
  }

  ghost predicate Holds(vs: seq<Json>, s: string) {
    exists k :: 0 <= k < |vs| && s in Strings(vs[k])
  }

  lemma HoldsWithout(ys: seq<Json>, j: nat, s: string)
    requires j < |ys|
    ensures Holds(ys, s) <==> s in Strings(ys[j]) || Holds(Without(ys, j), s)
  {
    var rest := Without(ys, j);
    if Holds(ys, s) {
      var k :| 0 <= k < |ys| && s in Strings(ys[k]);
      if k != j { assert rest[if k < j then k else k - 1] == ys[k]; }
    }
    if Holds(rest, s) {
      var k :| 0 <= k < |rest| && s in Strings(rest[k]);
      assert rest[k] == ys[if k < j then k else k + 1];
    }
  }

  lemma {:induction false} ItemsHaveTheSameStrings(xs: seq<Json>, ys: seq<Json>, s: string)
    requires AlikeItems(xs, ys)
    ensures Holds(xs, s) <==> Holds(ys, s)
    decreases xs
  {
    if xs != [] {
      var j :| 0 <= j < |ys| && Alike(xs[0], ys[j]) && AlikeItems(xs[1..], Without(ys, j));
      AlikeHasTheSameStrings(xs[0], ys[j], s);
      ItemsHaveTheSameStrings(xs[1..], Without(ys, j), s);
      HoldsWithout(ys, j, s);
      HoldsWithout(xs, 0, s);
      assert Without(xs, 0) == xs[1..];
    }
  }

  lemma {:induction false} StringsOfChildren(v: Json, i: nat, s: string)
    requires !v.Str? && i <= |Children(v)|
    ensures s in StringsFrom(v, i) <==> Holds(Children(v)[i..], s)
    decreases |Children(v)| - i
  {
    if i < |Children(v)| {
      StringsOfChildren(v, i + 1, s);
      var kids := Children(v)[i..];
      HoldsWithout(kids, 0, s);
      assert Without(kids, 0) == Children(v)[i + 1..];
    }
  }
}
