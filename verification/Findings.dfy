/** Listing the findings of one detector that are not open already. */
module Findings {
  import opened Schema
  import opened Exceptions
  import opened Invariants

  /** The list holds exactly these findings of the detector, each once. */
  ghost predicate Lists(added: seq<NewException>, d: Detector, pairs: Pairs) {
    FindingsOnly(added, d) && AddedPairs(added, d) == pairs
  }

  /** One reason found for a set of parcels, less what is open. */
  function NotOpen(parcels: set<ParcelId>, reason: Reason, known: Pairs): Pairs {
    set p | p in parcels && (p, Some(reason)) !in known :: (p, Some(reason))
  }

  method AddFindings(parcels: set<ParcelId>, reason: Reason, d: Detector, kind: ExceptionType, known: Pairs,
                     added: seq<NewException>, ghost pairs: Pairs) returns (added': seq<NewException>)
    requires kind == KindOf(d.key) && Lists(added, d, pairs) && reason != OtherReason("") && forall p :: p in parcels ==> !Mentions(pairs, p)
    ensures Lists(added', d, pairs + NotOpen(parcels, reason, known))
  {
    added' := added;
    var todo := parcels;
    ghost var done: set<ParcelId> := {};
    assert pairs + NotOpen({}, reason, known) == pairs;
    while todo != {}
      invariant todo <= parcels && done <= parcels && forall p :: p in parcels ==> (p in done <==> p !in todo)
      invariant Lists(added', d, pairs + NotOpen(done, reason, known))
      decreases todo
    {
      var p :| p in todo;
      NotOpenGrows(done, reason, known, p);
      if (p, Some(reason)) !in known {
        var row := NewException(p, d, kind, Some(reason), None);
        PlanException(added', row, d);
        added' := added' + [row];
        assert pairs + NotOpen(done + {p}, reason, known) == pairs + NotOpen(done, reason, known) + {(p, Some(reason))};
      }
      todo, done := todo - {p}, done + {p};
    }
    assert done == parcels;
  }

  lemma NotOpenGrows(done: set<ParcelId>, reason: Reason, known: Pairs, p: ParcelId)
    ensures NotOpen(done + {p}, reason, known) == NotOpen(done, reason, known) +
      if (p, Some(reason)) !in known then {(p, Some(reason))} else {}
  {
  }

  lemma ListsNothing(d: Detector)
    ensures Lists([], d, {})
  {
  }

  lemma FirstIsListed(added: seq<NewException>, d: Detector, pairs: Pairs)
    requires Lists(added, d, pairs) && added != []
    ensures (added[0].parcel, added[0].reason) in pairs
  {
  }

  lemma NoPairs(added: seq<NewException>, d: Detector)
    requires Lists(added, d, {})
    ensures added == []
  {
    if added != [] { FirstIsListed(added, d, {}); }
  }
}
