/** Which zoning district the polygons around one parcel's point add up to. */
module Classification {
  import opened Schema
  import opened Identifiers

  /** One containing polygon of the zoning snapshot. */
  datatype Candidate = Candidate(facility: string, zoning: Option<string>, verbatim: Option<string>)

  /** More than one polygon contains the point, whether or not they agree. */
  datatype Anomaly = Anomaly(facilities: multiset<string>, verbatimConflict: Option<set<string>>)

  datatype Classified = ZeroMatch | Ambiguous | Matched(zoning: string, verbatim: Option<string>, anomaly: Option<Anomaly>)

  function NonBlankZoning(candidates: seq<Candidate>): set<string> {
    set c | c in candidates && !IsBlank(c.zoning) :: c.zoning.value
  }

  /** Only rows that gave the resolved value have a say in the verbatim string. */
  function Verbatims(candidates: seq<Candidate>, zoning: string): set<Option<string>> {
    set c | c in candidates && c.zoning == Some(zoning) :: c.verbatim
  }

  function Facilities(candidates: seq<Candidate>): multiset<string> {
    if candidates == [] then multiset{} else multiset{candidates[0].facility} + Facilities(candidates[1..])
  }

  /** Two distinct elements are what it takes to have two. */
  lemma AtLeastTwo<T>(s: set<T>)
    ensures |s| >= 2 <==> exists x, y :: x in s && y in s && x != y
  {
    if |s| >= 2 {
      var x :| x in s;
      assert |s - {x}| >= 1;
      var y :| y in s - {x};
    }
    if x, y :| x in s && y in s && x != y {
      assert {x, y} <= s;
      SubsetIsSmaller({x, y}, s);
    }
  }

  lemma {:induction false} SubsetIsSmaller<T>(a: set<T>, b: set<T>)
    requires a <= b
    ensures |a| <= |b|
  {
    assert b == a + (b - a);
  }

  lemma OnlyElement<T>(s: set<T>)
    requires |s| == 1
    ensures forall x, y :: x in s && y in s ==> x == y
  {
    AtLeastTwo(s);
  }

  function Only<T(==)>(s: set<T>): T
    requires |s| == 1
  {
    OnlyElement(s);
    var x :| x in s;
    x
  }

  /** `classify_zoning_candidates`. */
  function Classify(candidates: seq<Candidate>): Classified {
    var zonings := NonBlankZoning(candidates);
    if |zonings| == 0 then ZeroMatch
    else if |zonings| >= 2 then Ambiguous
    else
      var zoning := Only(zonings);
      var verbatims := Verbatims(candidates, zoning);
      Matched(
        zoning,
        if |verbatims| == 1 then Only(verbatims) else None,
        if |candidates| > 1 then
          Some(Anomaly(Facilities(candidates),
                       if |verbatims| == 1 then None else Some(set v | v in verbatims && v.Some? :: v.value)))
        else None)
  }

  // ------------------------------------------------------------------ the kind

  lemma {:induction false} Voter(candidates: seq<Candidate>, zoning: string) returns (c: Candidate)
    requires zoning in NonBlankZoning(candidates)
    ensures c in candidates && !IsBlank(c.zoning) && c.zoning == Some(zoning)
  {
    c :| c in candidates && !IsBlank(c.zoning) && c.zoning.value == zoning;
  }

  /** Zero when no polygon has a zoning value, ambiguous when two polygons have different
      ones, and matched to a value when that value is the only one anybody has. */
  lemma {:induction false} KindIsDecidedByTheValues(candidates: seq<Candidate>)
    ensures Classify(candidates).ZeroMatch? <==> forall c :: c in candidates ==> IsBlank(c.zoning)
    ensures Classify(candidates).Ambiguous? <==> exists c, d ::
      c in candidates && d in candidates && !IsBlank(c.zoning) && !IsBlank(d.zoning) && c.zoning != d.zoning
    ensures forall z :: Classify(candidates).Matched? && Classify(candidates).zoning == z <==>
      && (exists c :: c in candidates && !IsBlank(c.zoning) && c.zoning == Some(z))
      && (forall c :: c in candidates && !IsBlank(c.zoning) ==> c.zoning == Some(z))
  {
    var zonings := NonBlankZoning(candidates);
    AtLeastTwo(zonings);
    assert forall c :: c in candidates && !IsBlank(c.zoning) ==> c.zoning.value in zonings;
    if |zonings| == 0 {
      assert zonings == {};
    } else if |zonings| >= 2 {
      var x, y :| x in zonings && y in zonings && x != y;
      var c := Voter(candidates, x);
      var d := Voter(candidates, y);
    } else {
      var c := Voter(candidates, Only(zonings));
      OnlyElement(zonings);
    }
  }

  /** A verbatim string is given only when every row that agrees on the value gives that same one. */
  lemma {:induction false} VerbatimIsUnanimous(candidates: seq<Candidate>, v: string)
    requires Classify(candidates).Matched?
    ensures Classify(candidates).verbatim == Some(v) <==>
      forall c :: c in candidates && c.zoning == Some(Classify(candidates).zoning) ==> c.verbatim == Some(v)
  {
    var zoning := Classify(candidates).zoning;
    var verbatims := Verbatims(candidates, zoning);
    var c := Voter(candidates, zoning);
    assert c.verbatim in verbatims;
    assert forall d :: d in candidates && d.zoning == Some(zoning) ==> d.verbatim in verbatims;
    if forall d :: d in candidates && d.zoning == Some(zoning) ==> d.verbatim == Some(v) {
      assert verbatims == {Some(v)};
    }
    if |verbatims| == 1 { OnlyElement(verbatims); }
  }

  lemma {:induction false} FacilitiesAre(candidates: seq<Candidate>)
    ensures |Facilities(candidates)| == |candidates|
    ensures forall name :: name in Facilities(candidates) <==> exists c :: c in candidates && c.facility == name
  {
    if candidates != [] {
      FacilitiesAre(candidates[1..]);
      forall name ensures name in Facilities(candidates) <==> exists c :: c in candidates && c.facility == name {
        if c :| c in candidates && c.facility == name { assert c == candidates[0] || c in candidates[1..]; }
        if name == candidates[0].facility { assert candidates[0] in candidates; }
        if c :| c in candidates[1..] && c.facility == name { assert c in candidates; }
      }
    }
  }

  /** All rows that agree on the value have the same string beside it. */
  ghost predicate OneVerbatim(candidates: seq<Candidate>, zoning: string) {
    forall x, y :: x in candidates && y in candidates && x.zoning == Some(zoning) && y.zoning == Some(zoning) ==> x.verbatim == y.verbatim
  }

  lemma {:induction false} OneVerbatimMeans(candidates: seq<Candidate>, zoning: string)
    requires zoning in NonBlankZoning(candidates)
    ensures |Verbatims(candidates, zoning)| == 1 <==> OneVerbatim(candidates, zoning)
  {
    var verbatims := Verbatims(candidates, zoning);
    var c := Voter(candidates, zoning);
    assert forall x :: x in candidates && x.zoning == Some(zoning) ==> x.verbatim in verbatims;
    if |verbatims| == 1 { OnlyElement(verbatims); }
    if OneVerbatim(candidates, zoning) { assert verbatims == {c.verbatim}; }
  }

  /** The anomaly of a matched point: there is one when several polygons contain it, with all their facilities, and
      with the strings beside the value when the rows that agree on it do not agree on one. */
  lemma {:induction false} AnomalyMeans(candidates: seq<Candidate>)
    requires Classify(candidates).Matched?
    ensures Classify(candidates).anomaly.Some? <==> |candidates| > 1
    ensures |candidates| > 1 ==>
      var c, a := Classify(candidates), Classify(candidates).anomaly.value;
      && |a.facilities| == |candidates|
      && (forall name :: name in a.facilities <==> exists x :: x in candidates && x.facility == name)
      && (a.verbatimConflict.None? <==> OneVerbatim(candidates, c.zoning))
      && (a.verbatimConflict.Some? ==>
            forall v :: v in a.verbatimConflict.value <==>
              exists x :: x in candidates && x.zoning == Some(c.zoning) && x.verbatim == Some(v))
  {
    FacilitiesAre(candidates);
    assert Classify(candidates).zoning in NonBlankZoning(candidates);
    OneVerbatimMeans(candidates, Classify(candidates).zoning);
    VerbatimsAre(candidates, Classify(candidates).zoning);
  }

  lemma {:induction false} VerbatimsAre(candidates: seq<Candidate>, zoning: string)
    ensures forall v :: v in Verbatims(candidates, zoning) <==> exists x :: x in candidates && x.zoning == Some(zoning) && x.verbatim == v
  {
  }

  // ------------------------------------------------------------------ the order of the rows does not matter

  lemma {:induction false} SameElements(a: seq<Candidate>, b: seq<Candidate>)
    requires multiset(a) == multiset(b)
    ensures |a| == |b| && forall c :: c in a <==> c in b
  {
    assert |multiset(a)| == |a| && |multiset(b)| == |b|;
    forall c ensures c in a <==> c in b {
      assert c in a <==> c in multiset(a);
      assert c in b <==> c in multiset(b);
    }
  }

  lemma {:induction false} FacilitiesWithout(b: seq<Candidate>, i: nat)
    requires i < |b|
    ensures Facilities(b) == multiset{b[i].facility} + Facilities(b[..i] + b[i + 1..])
  {
    if i == 0 {
      assert b[..0] + b[1..] == b[1..];
    } else {
      FacilitiesWithout(b[1..], i - 1);
      var rest := b[..i] + b[i + 1..];
      assert rest[1..] == b[1..][..i - 1] + b[1..][i..];
    }
  }

  lemma {:induction false} BagWithout<T>(a: seq<T>, b: seq<T>, i: nat)
    requires multiset(a) == multiset(b) && a != [] && i < |b| && b[i] == a[0]
    ensures multiset(a[1..]) == multiset(b[..i] + b[i + 1..])
  {
    assert a == [a[0]] + a[1..];
    assert b == b[..i] + [b[i]] + b[i + 1..];
    assert multiset(a) == multiset{a[0]} + multiset(a[1..]);
    assert multiset(b[..i] + b[i + 1..]) == multiset(b) - multiset{b[i]};
  }

  lemma {:induction false} FacilitiesOfBag(a: seq<Candidate>, b: seq<Candidate>)
    requires multiset(a) == multiset(b)
    ensures Facilities(a) == Facilities(b)
  {
    SameElements(a, b);
    if a != [] {
      assert a[0] in b;
      var i :| 0 <= i < |b| && b[i] == a[0];
      FacilitiesWithout(b, i);
      BagWithout(a, b, i);
      FacilitiesOfBag(a[1..], b[..i] + b[i + 1..]);
    }
  }

  lemma {:induction false} SameVerbatims(a: seq<Candidate>, b: seq<Candidate>, zoning: string)
    requires forall c :: c in a <==> c in b
    ensures Verbatims(a, zoning) == Verbatims(b, zoning)
  {
  }

  /** The classification is a function of the bag of candidates. */
  lemma {:induction false} ClassifyDependsOnTheBag(a: seq<Candidate>, b: seq<Candidate>)
    requires multiset(a) == multiset(b)
    ensures Classify(a) == Classify(b)
  {
    SameElements(a, b);
    FacilitiesOfBag(a, b);
    assert NonBlankZoning(a) == NonBlankZoning(b);
    if |NonBlankZoning(a)| == 1 { SameVerbatims(a, b, Only(NonBlankZoning(a))); }
  }

  // ------------------------------------------------------------------ more candidates

  function Rank(c: Classified): nat {
    match c
    case ZeroMatch => 0
    case Matched(_, _, _) => 1
    case Ambiguous => 2
  }

  /** More candidates only move a parcel from zero to matched to ambiguous, and never
      change the value it is matched to. */
  lemma {:induction false} MoreCandidates(a: seq<Candidate>, b: seq<Candidate>)
    requires forall c :: c in a ==> c in b
    ensures Rank(Classify(a)) <= Rank(Classify(b))
    ensures Classify(a).Matched? && Classify(b).Matched? ==> Classify(a).zoning == Classify(b).zoning
  {
    KindIsDecidedByTheValues(a);
    KindIsDecidedByTheValues(b);
    if Classify(a).Matched? && Classify(b).Matched? {
      var c := Voter(a, Classify(a).zoning);
      assert c in b;
    }
  }
}
