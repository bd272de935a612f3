/** The per-key diff that the zoning and permits loaders share: compare a fresh value
    with the live fact, and plan a retirement, a successor, a first fact, or nothing. */
module Diff {
  import opened Schema
  import opened Ledger

  type Wanted = Key -> Option<Value>

  ghost function TargetOver(keys: set<Key>, wanted: Wanted): Target {
    map k | k in keys :: wanted(k)
  }

  lemma TargetOverGrows(keys: set<Key>, wanted: Wanted, k: Key)
    ensures TargetOver(keys + {k}, wanted) == TargetOver(keys, wanted)[k := wanted(k)]
  {
  }

  /** Everything planned for the keys so far. */
  ghost predicate PlannedOver(facts: seq<Fact>, keys: set<Key>, wanted: Wanted, cite: Citation, retire: set<nat>, rows: seq<NewFact>) {
    Planned(facts, TargetOver(keys, wanted), retire, rows) && Cites(rows, cite) && NoVerbatim(rows)
  }

  /** These sources give no string beside a value. */
  ghost predicate NoVerbatim(rows: seq<NewFact>) {
    forall j {:trigger rows[j]} :: 0 <= j < |rows| ==> rows[j].verbatim.None?
  }

  lemma NothingPlannedOver(facts: seq<Fact>, wanted: Wanted, cite: Citation)
    ensures PlannedOver(facts, {}, wanted, cite, {}, [])
  {
    NothingPlanned(facts);
    assert TargetOver({}, wanted) == map[];
  }

  ghost predicate IsLiveTable(facts: seq<Fact>, live: map<Key, nat>, k: Key) {
    LiveId(facts, k) == if k in live then Some(live[k]) else None
  }

  method DiffKey(facts: seq<Fact>, live: map<Key, nat>, k: Key, value: Option<Value>, cite: Citation,
                 retire: set<nat>, rows: seq<NewFact>, ghost keys: set<Key>, ghost wanted: Wanted)
    returns (retire': set<nat>, rows': seq<NewFact>)
    requires OneLive(facts) && IsLiveTable(facts, live, k) && value == wanted(k) && k !in keys
    requires PlannedOver(facts, keys, wanted, cite, retire, rows)
    ensures PlannedOver(facts, keys + {k}, wanted, cite, retire', rows')
  {
    retire', rows' := retire, rows;
    if k !in live {
      if value.Some? {
        rows' := rows + [NewFact(k, value.value, cite.snapshot, cite.retrievedAt, None, None, {})];
      }
    } else if value.None? {
      retire' := retire + {live[k]};
    } else if facts[live[k]].value != value.value {
      retire' := retire + {live[k]};
      rows' := rows + [NewFact(k, value.value, cite.snapshot, cite.retrievedAt, None, Some(live[k]), {})];
    }
    TargetOverGrows(keys, wanted, k);
    FieldStepPlans(facts, TargetOver(keys, wanted), k, value, retire, rows, retire', rows');
  }
}
