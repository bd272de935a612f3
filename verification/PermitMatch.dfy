/** Which parcel a permit's number belongs to, and what the file then says of that parcel. */
module PermitMatch {
  import opened Schema
  import opened PermitRows

  predicate Owns(parcels: map<ParcelId, Parcel>, p: ParcelId, apn: string) {
    p in parcels && parcels[p].jurisdiction == SanJose && parcels[p].apn == Some(apn)
  }

  predicate Shared(parcels: map<ParcelId, Parcel>, apn: string) {
    exists p, q :: p in parcels && q in parcels && p != q && Owns(parcels, p, apn) && Owns(parcels, q, apn)
  }

  predicate Unowned(parcels: map<ParcelId, Parcel>, apn: string) {
    forall p :: p in parcels ==> !Owns(parcels, p, apn)
  }

  /** The number belongs to this parcel and to no other of the jurisdiction. */
  predicate SoleOwner(parcels: map<ParcelId, Parcel>, p: ParcelId, apn: string) {
    Owns(parcels, p, apn) && forall q :: q in parcels && Owns(parcels, q, apn) ==> q == p
  }

  function Earliest(days: seq<Day>): (d: Day)
    requires days != []
    ensures d in days && forall e :: e in days ==> d <= e
  {
    if |days| == 1 then days[0]
    else
      var rest := Earliest(days[1..]);
      assert forall e :: e in days ==> e == days[0] || e in days[1..];
      if days[0] <= rest then days[0] else rest
  }

  type Matches = map<ParcelId, Day>

  /** A parcel is matched when its number is its own and occurs in the file; its date is
      the earliest over the rows with that number. */
  ghost predicate Matched(parcels: map<ParcelId, Parcel>, byApn: ByApn, matches: Matches) {
    && (forall p :: p in matches <==> exists apn :: apn in byApn && SoleOwner(parcels, p, apn))
    && (forall p, apn :: p in matches && apn in byApn && Owns(parcels, p, apn) && byApn[apn] != [] ==>
          matches[p] == Earliest(byApn[apn]))
  }

  // ------------------------------------------------------------------ indexing the parcels

  ghost predicate Indexed(parcels: map<ParcelId, Parcel>, byApn: map<string, ParcelId>, dup: set<string>) {
    && (forall apn :: apn in byApn ==> Owns(parcels, byApn[apn], apn))
    && (forall p, apn :: Owns(parcels, p, apn) ==> apn in byApn && (apn !in dup ==> byApn[apn] == p))
    && (forall apn :: apn in dup ==> Shared(parcels, apn))
  }

  lemma {:induction false} IndexGrows(parcels: map<ParcelId, Parcel>, byApn: map<string, ParcelId>, dup: set<string>,
                                      p: ParcelId, row: Parcel)
    requires Indexed(parcels, byApn, dup) && p !in parcels
    ensures var owned := row.jurisdiction == SanJose && row.apn.Some?;
      Indexed(parcels[p := row],
              if owned && row.apn.value !in byApn then byApn[row.apn.value := p] else byApn,
              if owned && row.apn.value in byApn then dup + {row.apn.value} else dup)
  {
    var more := parcels[p := row];
    var owned := row.jurisdiction == SanJose && row.apn.Some?;
    assert forall q, apn :: Owns(more, q, apn) <==> Owns(parcels, q, apn) || (q == p && owned && row.apn.value == apn);
    if owned && row.apn.value in byApn {
      var q := byApn[row.apn.value];
      assert Owns(more, q, row.apn.value) && Owns(more, p, row.apn.value) && p != q;
    }
    forall apn | Shared(parcels, apn) ensures Shared(more, apn) {
      var q, r :| q in parcels && r in parcels && q != r && Owns(parcels, q, apn) && Owns(parcels, r, apn);
      assert Owns(more, q, apn) && Owns(more, r, apn);
    }
  }

  /** The first parcel seen with each number, and the numbers seen more than once. */
  method IndexParcels(parcels: map<ParcelId, Parcel>) returns (byApn: map<string, ParcelId>, dup: set<string>)
    ensures Indexed(parcels, byApn, dup)
  {
    byApn, dup := map[], {};
    var todo := parcels.Keys;
    ghost var seen: map<ParcelId, Parcel> := map[];
    while todo != {}
      invariant todo <= parcels.Keys && (forall p :: p in seen <==> p in parcels && p !in todo)
      invariant (forall p :: p in seen ==> seen[p] == parcels[p]) && Indexed(seen, byApn, dup)
      decreases todo
    {
      var p :| p in todo;
      var row := parcels[p];
      IndexGrows(seen, byApn, dup, p, row);
      if row.jurisdiction == SanJose && row.apn.Some? {
        if row.apn.value in byApn { dup := dup + {row.apn.value}; }
        else { byApn := byApn[row.apn.value := p]; }
      }
      todo, seen := todo - {p}, seen[p := row];
    }
    assert seen == parcels;
  }

  // ------------------------------------------------------------------ joining

  /** The three ways a number in the file can go. */
  ghost function NotFound(parcels: map<ParcelId, Parcel>, keys: set<string>): set<string> {
    set a | a in keys && Unowned(parcels, a)
  }

  ghost function AmbiguousIn(parcels: map<ParcelId, Parcel>, keys: set<string>): set<string> {
    set a | a in keys && Shared(parcels, a)
  }

  ghost function MatchedIn(parcels: map<ParcelId, Parcel>, keys: set<string>): set<string> {
    set a | a in keys && !Unowned(parcels, a) && !Shared(parcels, a)
  }

  /** Row counts of the three ways. */
  datatype Tally = Tally(notFound: nat, ambiguous: nat, matched: nat)

  ghost predicate Tallied(apns: seq<Option<string>>, parcels: map<ParcelId, Parcel>, keys: set<string>, t: Tally) {
    && t.notFound == CountIn(apns, NotFound(parcels, keys))
    && t.ambiguous == CountIn(apns, AmbiguousIn(parcels, keys))
    && t.matched == CountIn(apns, MatchedIn(parcels, keys))
  }

  lemma {:induction false} TallyGrows(apns: seq<Option<string>>, parcels: map<ParcelId, Parcel>, keys: set<string>, t: Tally, apn: string)
    requires Tallied(apns, parcels, keys, t) && apn !in keys
    ensures var n := CountIn(apns, {apn});
      Tallied(apns, parcels, keys + {apn},
              if Shared(parcels, apn) then t.(ambiguous := t.ambiguous + n)
              else if Unowned(parcels, apn) then t.(notFound := t.notFound + n)
              else t.(matched := t.matched + n))
  {
    var shared, unowned := Shared(parcels, apn), Unowned(parcels, apn);
    CountPlus(apns, NotFound(parcels, keys), apn, unowned);
    CountPlus(apns, AmbiguousIn(parcels, keys), apn, shared);
    CountPlus(apns, MatchedIn(parcels, keys), apn, !unowned && !shared);
    assert NotFound(parcels, keys + {apn}) == NotFound(parcels, keys) + if unowned then {apn} else {};
    assert AmbiguousIn(parcels, keys + {apn}) == AmbiguousIn(parcels, keys) + if shared then {apn} else {};
    assert MatchedIn(parcels, keys + {apn}) == MatchedIn(parcels, keys) + if !unowned && !shared then {apn} else {};
  }

  lemma {:induction false} CountPlus(apns: seq<Option<string>>, keys: set<string>, apn: string, more: bool)
    requires apn !in keys
    ensures CountIn(apns, keys + if more then {apn} else {}) == CountIn(apns, keys) + if more then CountIn(apns, {apn}) else 0
  {
    if more { CountsAdd(apns, keys, {apn}); } else { assert keys + {} == keys; }
  }

  /** Every row of the file is blank, not found, ambiguous or matched, and is counted once. */
  lemma {:induction false} RowsAreConserved(apns: seq<Option<string>>, days: seq<Day>, parcels: map<ParcelId, Parcel>, byApn: ByApn, t: Tally)
    requires |apns| == |days| && Grouped(apns, days, byApn) && Tallied(apns, parcels, byApn.Keys, t)
    ensures |apns| == CountBlank(apns) + t.notFound + t.ambiguous + t.matched
  {
    var n, a, m := NotFound(parcels, byApn.Keys), AmbiguousIn(parcels, byApn.Keys), MatchedIn(parcels, byApn.Keys);
    CountsAdd(apns, n, a);
    CountsAdd(apns, n + a, m);
    assert n + a + m == byApn.Keys;
    forall i | 0 <= i < |apns| && apns[i].Some? ensures apns[i].value in byApn { assert Some(apns[i].value) in apns; }
    CountsAll(apns, byApn.Keys);
  }

  lemma OwnedOrShared(parcels: map<ParcelId, Parcel>, byApn: map<string, ParcelId>, dup: set<string>, apn: string)
    requires Indexed(parcels, byApn, dup)
    ensures apn in dup <==> Shared(parcels, apn)
    ensures apn !in byApn <==> Unowned(parcels, apn)
    ensures apn !in dup && apn in byApn ==> SoleOwner(parcels, byApn[apn], apn)
  {
    if p, q :| p in parcels && q in parcels && p != q && Owns(parcels, p, apn) && Owns(parcels, q, apn) {
      assert apn in byApn;
    }
  }

  /** The matches for the numbers looked at so far. */
  ghost predicate MatchedOver(parcels: map<ParcelId, Parcel>, byApn: ByApn, keys: set<string>, matches: Matches)
    requires keys <= byApn.Keys
  {
    && (forall p :: p in matches <==> exists apn :: apn in keys && SoleOwner(parcels, p, apn))
    && (forall p, apn :: p in matches && apn in keys && Owns(parcels, p, apn) && byApn[apn] != [] ==>
          matches[p] == Earliest(byApn[apn]))
  }

  lemma {:induction false} MatchesGrow(parcels: map<ParcelId, Parcel>, byApn: ByApn, keys: set<string>, matches: Matches,
                                       apn: string, p: ParcelId)
    requires keys <= byApn.Keys && apn in byApn && apn !in keys && byApn[apn] != []
    requires MatchedOver(parcels, byApn, keys, matches) && SoleOwner(parcels, p, apn)
    ensures MatchedOver(parcels, byApn, keys + {apn}, matches[p := Earliest(byApn[apn])])
  {
    var more, keys' := matches[p := Earliest(byApn[apn])], keys + {apn};
    forall q ensures q in more <==> exists a :: a in keys' && SoleOwner(parcels, q, a) {
      if q == p { assert apn in keys' && SoleOwner(parcels, p, apn); }
      if q in matches {
        var a :| a in keys && SoleOwner(parcels, q, a);
        assert a in keys';
      }
    }
  }

  lemma {:induction false} MatchesStay(parcels: map<ParcelId, Parcel>, byApn: ByApn, keys: set<string>, matches: Matches, apn: string)
    requires keys <= byApn.Keys && apn in byApn && MatchedOver(parcels, byApn, keys, matches)
    requires Shared(parcels, apn) || Unowned(parcels, apn)
    ensures MatchedOver(parcels, byApn, keys + {apn}, matches)
  {
    if p, q :| p in parcels && q in parcels && p != q && Owns(parcels, p, apn) && Owns(parcels, q, apn) {
      forall r ensures !SoleOwner(parcels, r, apn) {
        assert Owns(parcels, p, apn) && Owns(parcels, q, apn);
      }
    }
    forall r, a | a in keys + {apn} && SoleOwner(parcels, r, a) ensures a in keys {
    }
  }

  /** The loop over the numbers of the file. */
  method JoinParcels(parcels: map<ParcelId, Parcel>, byApn: ByApn, ghost apns: seq<Option<string>>, ghost days: seq<Day>)
    returns (matches: Matches, tally: Tally)
    requires |apns| == |days| && Grouped(apns, days, byApn)
    ensures Matched(parcels, byApn, matches) && Tallied(apns, parcels, byApn.Keys, tally)
  {
    var index, dup := IndexParcels(parcels);
    matches, tally := map[], Tally(0, 0, 0);
    var todo := byApn.Keys;
    ghost var done: set<string> := {};
    CountNone(apns);
    assert NotFound(parcels, {}) == {} && AmbiguousIn(parcels, {}) == {} && MatchedIn(parcels, {}) == {};
    while todo != {}
      invariant todo <= byApn.Keys && done <= byApn.Keys && forall a :: a in byApn ==> (a in done <==> a !in todo)
      invariant MatchedOver(parcels, byApn, done, matches) && Tallied(apns, parcels, done, tally)
      decreases todo
    {
      var apn :| apn in todo;
      var n := |byApn[apn]|;
      DatesAreCounted(apns, days, apn);
      OwnedOrShared(parcels, index, dup, apn);
      TallyGrows(apns, parcels, done, tally, apn);
      if apn in dup {
        MatchesStay(parcels, byApn, done, matches, apn);
        tally := tally.(ambiguous := tally.ambiguous + n);
      } else if apn !in index {
        MatchesStay(parcels, byApn, done, matches, apn);
        tally := tally.(notFound := tally.notFound + n);
      } else {
        MatchesGrow(parcels, byApn, done, matches, apn, index[apn]);
        tally := tally.(matched := tally.matched + n);
        matches := matches[index[apn] := Earliest(byApn[apn])];
      }
      todo, done := todo - {apn}, done + {apn};
    }
    assert done == byApn.Keys;
  }
}
