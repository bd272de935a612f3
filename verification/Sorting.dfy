/** Sorting by a total order, as a function: what it keeps and what it forgets. */
module Sorting {

  type Relation<!T> = (T, T) -> bool

  ghost predicate TotalOrder<T(!new)>(leq: Relation<T>) {
    && (forall x, y :: leq(x, y) || leq(y, x))
    && (forall x, y :: leq(x, y) && leq(y, x) ==> x == y)
    && (forall x, y, z :: leq(x, y) && leq(y, z) ==> leq(x, z))
  }

  function Insert<T>(x: T, xs: seq<T>, leq: Relation<T>): (r: seq<T>)
    ensures |r| == |xs| + 1
  {
    if xs == [] || leq(x, xs[0]) then [x] + xs else [xs[0]] + Insert(x, xs[1..], leq)
  }

  function Sort<T>(xs: seq<T>, leq: Relation<T>): (r: seq<T>)
    ensures |r| == |xs|
  {
    if xs == [] then [] else Insert(xs[0], Sort(xs[1..], leq), leq)
  }

  /** The i-th item comes no later than any item after it. */
  ghost predicate Sorted<T>(xs: seq<T>, leq: Relation<T>) {
    forall i, j :: 0 <= i < j < |xs| ==> leq(xs[i], xs[j])
  }

  lemma SortedTail<T(!new)>(xs: seq<T>, leq: Relation<T>)
    requires Sorted(xs, leq) && xs != []
    ensures Sorted(xs[1..], leq)
  {
    var tail := xs[1..];
    forall i, j | 0 <= i < j < |tail| ensures leq(tail[i], tail[j]) {
      assert tail[i] == xs[i + 1] && tail[j] == xs[j + 1];
    }
  }

  lemma {:induction false} InsertKeeps<T(!new)>(x: T, xs: seq<T>, leq: Relation<T>)
    ensures multiset(Insert(x, xs, leq)) == multiset(xs) + multiset{x}
    decreases |xs|
  {
    if xs != [] && !leq(x, xs[0]) {
      InsertKeeps(x, xs[1..], leq);
      assert xs == [xs[0]] + xs[1..];
    }
  }

  lemma {:induction false} InsertSorts<T(!new)>(x: T, xs: seq<T>, leq: Relation<T>)
    requires TotalOrder(leq) && Sorted(xs, leq)
    ensures Sorted(Insert(x, xs, leq), leq)
    decreases |xs|
  {
    if xs != [] && !leq(x, xs[0]) {
      SortedTail(xs, leq);
      InsertSorts(x, xs[1..], leq);
      InsertKeeps(x, xs[1..], leq);
      var tail := Insert(x, xs[1..], leq);
      forall j | 0 <= j < |tail| ensures leq(xs[0], tail[j]) {
        assert tail[j] in multiset(tail);
        assert tail[j] == x || tail[j] in xs[1..];
      }
    } else if xs != [] {
      forall j | 0 <= j < |xs| ensures leq(x, xs[j]) {
        assert leq(x, xs[0]) && (j > 0 ==> leq(xs[0], xs[j]));
      }
    }
  }

  lemma {:induction false} SortSorts<T(!new)>(xs: seq<T>, leq: Relation<T>)
    requires TotalOrder(leq)
    ensures Sorted(Sort(xs, leq), leq) && multiset(Sort(xs, leq)) == multiset(xs)
    decreases |xs|
  {
    if xs != [] {
      SortSorts(xs[1..], leq);
      InsertSorts(xs[0], Sort(xs[1..], leq), leq);
      InsertKeeps(xs[0], Sort(xs[1..], leq), leq);
      assert xs == [xs[0]] + xs[1..];
    }
  }

  lemma SortedStartsAlike<T(!new)>(xs: seq<T>, ys: seq<T>, leq: Relation<T>)
    requires TotalOrder(leq) && Sorted(xs, leq) && Sorted(ys, leq) && xs != [] && ys != []
    requires multiset(xs) == multiset(ys)
    ensures xs[0] == ys[0]
  {
    assert xs[0] in multiset(ys) && ys[0] in multiset(xs);
    var i :| 0 <= i < |ys| && ys[i] == xs[0];
    var j :| 0 <= j < |xs| && xs[j] == ys[0];
  }

  lemma MultisetTail<T(!new)>(xs: seq<T>)
    requires xs != []
    ensures multiset(xs) == multiset(xs[1..]) + multiset{xs[0]}
  {
    assert xs == [xs[0]] + xs[1..];
  }

  lemma Cancel<T(!new)>(a: multiset<T>, b: multiset<T>, x: T)
    requires a + multiset{x} == b + multiset{x}
    ensures a == b
  {
    assert a == (a + multiset{x}) - multiset{x};
    assert b == (b + multiset{x}) - multiset{x};
  }

  lemma {:induction false} SortedIsUnique<T(!new)>(xs: seq<T>, ys: seq<T>, leq: Relation<T>)
    requires TotalOrder(leq) && Sorted(xs, leq) && Sorted(ys, leq) && multiset(xs) == multiset(ys)
    ensures xs == ys
    decreases |xs|
  {
    assert |multiset(xs)| == |xs| && |multiset(ys)| == |ys|;
    if xs != [] {
      SortedStartsAlike(xs, ys, leq);
      SortedTail(xs, leq);
      SortedTail(ys, leq);
      MultisetTail(xs);
      MultisetTail(ys);
      Cancel(multiset(xs[1..]), multiset(ys[1..]), xs[0]);
      SortedIsUnique(xs[1..], ys[1..], leq);
      assert xs == [xs[0]] + xs[1..] && ys == [ys[0]] + ys[1..];
    }
  }

  /** Sorting forgets the order of a list and nothing else. */
  lemma SortForgetsOrderOnly<T(!new)>(xs: seq<T>, ys: seq<T>, leq: Relation<T>)
    requires TotalOrder(leq)
    ensures Sort(xs, leq) == Sort(ys, leq) <==> multiset(xs) == multiset(ys)
  {
    SortSorts(xs, leq);
    SortSorts(ys, leq);
    if multiset(xs) == multiset(ys) { SortedIsUnique(Sort(xs, leq), Sort(ys, leq), leq); }
  }
}
