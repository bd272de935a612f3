/** Any sequence of runs of the three loaders, in any order. */
module Runs {
  import opened Schema
  import opened Ledger
  import opened Exceptions
  import opened ParcelsModel
  import opened ParcelsLists
  import opened ParcelsReconcile
  import opened ParcelsWrites
  import opened ParcelsKeep
  import opened ParcelsTheorems
  import opened ParcelsRun
  import C = Centroids
  import Z = ZoningEffect
  import ZM = ZoningModel
  import ZT = ZoningTheorems
  import PM = PermitMatch
  import P = Permits
  import PT = PermitsTheorems
  import opened Invariants

  /** One run, by what it committed, with the `job_run` rows its transaction started from.
      A run that failed, crashed or took the shortcut committed nothing but its own row there. */
  datatype Run =
    | Nothing
    | Parcels(staging: Staging, cite: Citation, m: Moments, jobs: seq<JobRun>)
    | Zoning(pg: C.PostGis, districts: ZM.Districts, zoneCite: Citation, zm: Z.ZoneMoments, jobs: seq<JobRun>)
    | Permits(matches: PM.Matches, permitCite: Citation, pm: P.PermitMoments, jobs: seq<JobRun>)

  datatype State = State(tables: Tables, time: Time)

  /** The tables as the run's transaction saw or left them. */
  function Seen(s: State, run: Run): Tables {
    if run.Nothing? then s.tables else s.tables.(jobs := run.jobs)
  }

  ghost predicate Ran(a: State, run: Run, b: State) {
    match run
    case Nothing => b.tables == a.tables.(jobs := b.tables.jobs) && a.time <= b.time
    case Parcels(staging, cite, m, _) =>
      && Reconciled(Seen(a, run), Seen(b, run), staging, cite, m)
      && a.time <= m.started <= m.at < m.closedApn < m.closedGone <= b.time
    case Zoning(pg, districts, cite, m, _) =>
      && Z.Zoned(Seen(a, run), Seen(b, run), pg, districts, cite, m)
      && a.time <= m.started < m.centroids < m.at < m.closed <= b.time
    case Permits(matches, cite, m, _) =>
      && PT.Permitted(Seen(a, run), Seen(b, run), matches, cite, m)
      && a.time <= m.started < m.at < m.closed <= b.time
  }

  // ------------------------------------------------------------------ the three loaders make runs

  /** What `PhaseE` promises of a committed call is one run of a history. */
  lemma PhaseEIsARun(before: Tables, now: Time, t: Tables, after: Tables, image: Tables, later: Time, same: bool,
                     staging: Staging, cite: Citation, m: Moments)
    requires t == before.(jobs := t.jobs) && Achieved(t, after, same, staging, cite, m) && image == after.(jobs := image.jobs)
    requires now <= m.started <= m.at < m.closedApn < m.closedGone <= later
    ensures Ran(State(before, now), if same then Nothing else Parcels(staging, cite, m, t.jobs), State(image, later))
  {
    if !same {
      var plan := ThePlan(t, after, staging, cite, m);
      assert after == image.(jobs := t.jobs);
    }
  }

  lemma LoadZoningIsARun(before: Tables, now: Time, t: Tables, after: Tables, image: Tables, later: Time, pg: C.PostGis,
                         districts: ZM.Districts, cite: Citation, m: Z.ZoneMoments)
    requires t == before.(jobs := t.jobs) && Z.Zoned(t, after, pg, districts, cite, m) && image == after.(jobs := image.jobs)
    requires now <= m.started < m.centroids < m.at < m.closed <= later
    ensures Ran(State(before, now), Zoning(pg, districts, cite, m, t.jobs), State(image, later))
  {
    var plan := Z.ZonedWith(t, after, pg, districts, cite, m);
    assert after == image.(jobs := t.jobs);
  }

  lemma LoadPermitsIsARun(before: Tables, now: Time, t: Tables, after: Tables, image: Tables, later: Time,
                          matches: PM.Matches, cite: Citation, m: P.PermitMoments)
    requires t == before.(jobs := t.jobs) && PT.Permitted(t, after, matches, cite, m) && image == after.(jobs := image.jobs)
    requires now <= m.started < m.at < m.closed <= later
    ensures Ran(State(before, now), Permits(matches, cite, m, t.jobs), State(image, later))
  {
    var plan := PT.PermittedWith(t, after, matches, cite, m);
    assert after == image.(jobs := t.jobs);
  }

  // ------------------------------------------------------------------ histories

  ghost predicate History(states: seq<State>, runs: seq<Run>) {
    && |states| == |runs| + 1 && Settled(states[0].tables, states[0].time)
    && forall i {:trigger runs[i]} :: 0 <= i < |runs| ==> Ran(states[i], runs[i], states[i + 1])
  }

  lemma HistoryStep(states: seq<State>, runs: seq<Run>, i: nat)
    requires History(states, runs) && i < |runs|
    ensures Ran(states[i], runs[i], states[i + 1])
  {
    var run := runs[i];
  }

  lemma SeenSettles(a: State, run: Run)
    requires Settled(a.tables, a.time)
    ensures Settled(Seen(a, run), a.time)
  {
    if !run.Nothing? { SettledLater(a.tables, run.jobs, a.time, a.time); }
  }

  lemma StepSettles(a: State, run: Run, b: State)
    requires Settled(a.tables, a.time) && Ran(a, run, b)
    ensures Settled(b.tables, b.time) && a.time <= b.time
  {
    var before, after := Seen(a, run), Seen(b, run);
    SeenSettles(a, run);
    assert b.tables == after.(jobs := b.tables.jobs);
    match run {
      case Nothing => SettledLater(a.tables, b.tables.jobs, a.time, b.time);
      case Parcels(staging, cite, m, _) =>
        ReconciledSettles(before, a.time, after, staging, cite, m);
        SettledLater(after, b.tables.jobs, m.closedGone, b.time);
      case Zoning(pg, districts, cite, m, _) =>
        Z.ZonedSettles(before, a.time, after, pg, districts, cite, m);
        SettledLater(after, b.tables.jobs, m.closed, b.time);
      case Permits(matches, cite, m, _) =>
        PT.PermittedSettles(before, a.time, after, matches, cite, m);
        SettledLater(after, b.tables.jobs, m.closed, b.time);
    }
  }

  /** Every invariant holds after every run of every history. */
  lemma {:induction false} AlwaysSettled(states: seq<State>, runs: seq<Run>, n: nat)
    requires History(states, runs) && n < |states|
    ensures Settled(states[n].tables, states[n].time)
  {
    if n > 0 {
      AlwaysSettled(states, runs, n - 1);
      HistoryStep(states, runs, n - 1);
      StepSettles(states[n - 1], runs[n - 1], states[n]);
    }
  }

  /** So at every point a known parcel has a live number or exactly one open exception saying
      why not, and is retired exactly while exactly one open exception says it disappeared. */
  lemma {:induction false} MirroredAtEveryPoint(states: seq<State>, runs: seq<Run>, n: nat, f: FeatureId)
    requires History(states, runs) && n < |states| && f in states[n].tables.identities
    ensures var t := states[n].tables;
      var id := t.identities[f];
      && |OpenRows(t.exceptions, APN_UNRESOLVABLE, id.parcel)| == (if LiveApn(t.facts, id).Some? then 0 else 1)
      && |OpenRows(t.exceptions, PARCEL_DISAPPEARED, id.parcel)| == (if id.retiredAt.Some? then 1 else 0)
  {
    AlwaysSettled(states, runs, n);
    SettledIsKept(states[n].tables, states[n].time);
    ExceptionsMirrorTheLedger(states[n].tables, states[n].time, f);
  }

  /** And the supersession graph is a set of finite lines, each about one parcel, field and
      source, going strictly back in time, with nothing but its newest fact live. */
  lemma {:induction false} SupersessionIsLines(states: seq<State>, runs: seq<Run>, n: nat, a: nat, b: nat)
    requires History(states, runs) && n < |states|
    requires a < |states[n].tables.facts| && b < |states[n].tables.facts|
    ensures Lines(states[n].tables.facts)
    ensures Descending(states[n].tables.facts, Line(states[n].tables.facts, a), a)
    ensures forall j :: j in Line(states[n].tables.facts, a) && j in Line(states[n].tables.facts, b) ==>
      a in Line(states[n].tables.facts, b) || b in Line(states[n].tables.facts, a)
  {
    var facts := states[n].tables.facts;
    AlwaysSettled(states, runs, n);
    SettledIsSound(states[n].tables, states[n].time);
    LineDescends(facts, a);
    forall j | j in Line(facts, a) && j in Line(facts, b) ensures a in Line(facts, b) || b in Line(facts, a) {
      LinesAreDisjoint(facts, a, b, j);
    }
  }

  // ------------------------------------------------------------------ the ledger over a history

  predicate Commits(run: Run) {
    !run.Nothing?
  }

  function SourceOf(run: Run): Source
    requires Commits(run)
  {
    match run
    case Parcels(_, _, _, _) => ParcelsSource
    case Zoning(_, _, _, _, _) => ZoningSource
    case Permits(_, _, _, _) => PermitsSource
  }

  /** Whatever the loader, a committed run is one planned batch about its own source. */
  lemma StepIsABatch(a: State, run: Run, b: State) returns (target: Target, cite: Citation, started: Time, at: Time)
    requires Settled(a.tables, a.time) && Ran(a, run, b) && Commits(run)
    ensures Refreshed(a.tables.facts, b.tables.facts, target, cite, started, at) && a.time <= started <= at <= b.time
    ensures forall k :: k in target ==> k.source == SourceOf(run)
  {
    var before, after := Seen(a, run), Seen(b, run);
    match run {
      case Parcels(staging, c, m, _) =>
        target := ParcelsBatch(before, after, staging, c, m);
        cite, started, at := c, m.started, m.at;
      case Zoning(pg, districts, c, m, _) =>
        target := ZoningBatch(before, after, pg, districts, c, m);
        cite, started, at := c, m.started, m.at;
      case Permits(matches, c, m, _) =>
        target := PermitsBatch(before, after, matches, c, m);
        cite, started, at := c, m.started, m.at;
    }
  }

  lemma ParcelsBatch(a: Tables, b: Tables, staging: Staging, cite: Citation, m: Moments) returns (target: Target)
    requires Reconciled(a, b, staging, cite, m)
    ensures Refreshed(a.facts, b.facts, target, cite, m.started, m.at) && forall k :: k in target ==> k.source == ParcelsSource
  {
    var plan := ThePlan(a, b, staging, cite, m);
    FactsAreRefreshed(a, staging, cite, plan, m);
    target := FullTarget(a, staging, plan.minted);
    TargetIsParcels(AllParcels(a.identities, plan.minted), SupportedBy(staging), plan.minted.Keys + VisibleIds(a, staging));
  }

  lemma ZoningBatch(a: Tables, b: Tables, pg: C.PostGis, districts: ZM.Districts, cite: Citation, m: Z.ZoneMoments) returns (target: Target)
    requires Z.Zoned(a, b, pg, districts, cite, m)
    ensures Refreshed(a.facts, b.facts, target, cite, m.started, m.at) && forall k :: k in target ==> k.source == ZoningSource
  {
    var plan := Z.ZonedWith(a, b, pg, districts, cite, m);
    var parcels, bad, classes := C.Recomputed(pg, a.parcels), Z.BadOf(pg, a), Z.ClassesIn(pg, districts, a);
    Z.ZonedRefreshes(a, parcels, bad, classes, cite, plan, m);
    Z.TargetIsZoning(parcels, classes);
    target := Z.ZoneTarget(parcels, classes);
  }

  lemma PermitsBatch(a: Tables, b: Tables, matches: PM.Matches, cite: Citation, m: P.PermitMoments) returns (target: Target)
    requires PT.Permitted(a, b, matches, cite, m)
    ensures Refreshed(a.facts, b.facts, target, cite, m.started, m.at) && forall k :: k in target ==> k.source == PermitsSource
  {
    var plan := PT.PermittedWith(a, b, matches, cite, m);
    P.PermitsRefresh(a, matches, cite, plan, m);
    P.TargetIsPermits(matches);
    target := P.PermitTarget(matches);
  }

  lemma ExtendsThrough(x: seq<Fact>, y: seq<Fact>, z: seq<Fact>)
    requires Extends(x, y) && Extends(y, z)
    ensures Extends(x, z)
  {
    forall i | 0 <= i < |x| ensures z[i] == if IsLive(x, i) then x[i].(supersededAt := z[i].supersededAt) else x[i] {
      assert y[i] == if IsLive(x, i) then x[i].(supersededAt := y[i].supersededAt) else x[i];
    }
  }

  lemma StepExtends(a: State, run: Run, b: State, ts: Time)
    requires Settled(a.tables, a.time) && Ran(a, run, b)
    ensures Extends(a.tables.facts, b.tables.facts)
    ensures ts < a.time ==> AsOf(b.tables.facts, ts) == AsOf(a.tables.facts, ts)
  {
    if Commits(run) {
      var target, cite, started, at := StepIsABatch(a, run, b);
      RefreshExtends(a.tables.facts, b.tables.facts, target, cite, started, at);
      if ts < a.time { PastIsFixed(a.tables.facts, b.tables.facts, target, cite, started, at, ts); }
    }
  }

  lemma StepFacts(states: seq<State>, runs: seq<Run>, n: nat, ts: Time)
    requires History(states, runs) && n < |runs|
    ensures states[n].time <= states[n + 1].time && Extends(states[n].tables.facts, states[n + 1].tables.facts)
    ensures ts < states[n].time ==> AsOf(states[n + 1].tables.facts, ts) == AsOf(states[n].tables.facts, ts)
  {
    AlwaysSettled(states, runs, n);
    HistoryStep(states, runs, n);
    StepSettles(states[n], runs[n], states[n + 1]);
    StepExtends(states[n], runs[n], states[n + 1], ts);
  }

  /** No run of any loader removes or rewrites a fact, and a live one gains its end at most once. */
  lemma {:induction false} HistoryIsAppendOnly(states: seq<State>, runs: seq<Run>, i: nat, j: nat)
    requires History(states, runs) && i <= j < |states|
    ensures Extends(states[i].tables.facts, states[j].tables.facts) && states[i].time <= states[j].time
    decreases j
  {
    if i < j {
      HistoryIsAppendOnly(states, runs, i, j - 1);
      StepFacts(states, runs, j - 1, 0);
      ExtendsThrough(states[i].tables.facts, states[j - 1].tables.facts, states[j].tables.facts);
    }
  }

  /** What was visible at an instant is what is visible at it after any later runs. */
  lemma {:induction false} ThePastIsFixed(states: seq<State>, runs: seq<Run>, i: nat, j: nat, ts: Time)
    requires History(states, runs) && i <= j < |states| && ts < states[i].time
    ensures AsOf(states[j].tables.facts, ts) == AsOf(states[i].tables.facts, ts)
    decreases j
  {
    if i < j {
      ThePastIsFixed(states, runs, i, j - 1, ts);
      HistoryIsAppendOnly(states, runs, i, j - 1);
      StepFacts(states, runs, j - 1, ts);
    }
  }

  /** A run of one source leaves every row of the others as it is. */
  lemma StepIsLocal(a: State, run: Run, b: State)
    requires Settled(a.tables, a.time) && Ran(a, run, b)
    ensures forall i {:trigger b.tables.facts[i]} ::
      0 <= i < |b.tables.facts| && (!Commits(run) || b.tables.facts[i].key.source != SourceOf(run)) ==>
        i < |a.tables.facts| && b.tables.facts[i] == a.tables.facts[i]
  {
    if Commits(run) {
      var target, cite, started, at := StepIsABatch(a, run, b);
      RefreshIsLocal(a.tables.facts, b.tables.facts, target, cite, started, at, SourceOf(run));
    }
  }

  // ------------------------------------------------------------------ identities over a history

  /** The parcels source sees the same tables: its identities, and its live facts. */
  ghost predicate SameParcelsView(a: Tables, b: Tables) {
    && b.identities == a.identities
    && forall k: Key :: k.source == ParcelsSource ==> LiveValue(b.facts, k) == LiveValue(a.facts, k)
  }

  /** A run decides nothing about another source's keys. */
  lemma OtherSourceKeeps(a: State, run: Run, b: State, k: Key)
    requires Settled(a.tables, a.time) && Ran(a, run, b) && (Commits(run) ==> k.source != SourceOf(run))
    ensures LiveValue(b.tables.facts, k) == LiveValue(a.tables.facts, k)
  {
    if Commits(run) {
      var target, cite, started, at := StepIsABatch(a, run, b);
      SettledParts(a.tables, a.time, a.time);
      RefreshKey(a.tables.facts, b.tables.facts, target, cite, started, at, k);
    }
  }

  lemma OtherRunsKeepTheView(a: State, run: Run, b: State)
    requires Settled(a.tables, a.time) && Ran(a, run, b) && !run.Parcels?
    ensures SameParcelsView(a.tables, b.tables)
  {
    if Commits(run) {
      var target, cite, started, at := StepIsABatch(a, run, b);
      SettledParts(a.tables, a.time, a.time);
      forall k: Key | k.source == ParcelsSource ensures LiveValue(b.tables.facts, k) == LiveValue(a.tables.facts, k) {
        RefreshKey(a.tables.facts, b.tables.facts, target, cite, started, at, k);
      }
      SameIdentitiesAfter(Seen(a, run), run, Seen(b, run));
    }
  }

  lemma SameIdentitiesAfter(a: Tables, run: Run, after: Tables)
    requires run.Zoning? ==> Z.Zoned(a, after, run.pg, run.districts, run.zoneCite, run.zm)
    requires run.Permits? ==> PT.Permitted(a, after, run.matches, run.permitCite, run.pm)
    ensures run.Zoning? || run.Permits? ==> after.identities == a.identities
  {
    if run.Zoning? {
      var plan := Z.ZonedWith(a, after, run.pg, run.districts, run.zoneCite, run.zm);
    } else if run.Permits? {
      var plan := PT.PermittedWith(a, after, run.matches, run.permitCite, run.pm);
    }
  }

  ghost predicate KeepsIdentities(a: Tables, b: Tables) {
    forall f :: f in a.identities ==> f in b.identities && SameIdentity(a.identities[f], b.identities[f])
  }

  lemma StepKeepsIdentities(a: State, run: Run, b: State)
    requires Settled(a.tables, a.time) && Ran(a, run, b)
    ensures KeepsIdentities(a.tables, b.tables)
  {
    if run.Parcels? {
      SeenSettles(a, run);
      IdentitiesOnlyGrow(Seen(a, run), a.time, Seen(b, run), run.staging, run.cite, run.m);
    } else {
      OtherRunsKeepTheView(a, run, b);
    }
  }

  lemma IdentitiesAt(states: seq<State>, runs: seq<Run>, n: nat)
    requires History(states, runs) && n < |runs|
    ensures KeepsIdentities(states[n].tables, states[n + 1].tables)
  {
    AlwaysSettled(states, runs, n);
    HistoryStep(states, runs, n);
    StepKeepsIdentities(states[n], runs[n], states[n + 1]);
  }

  lemma KeepsThrough(x: Tables, y: Tables, z: Tables)
    requires KeepsIdentities(x, y) && KeepsIdentities(y, z)
    ensures KeepsIdentities(x, z)
  {
  }

  /** Over any history a feature keeps the parcel it was first given and its first
      sighting, through any disappearance and return... */
  lemma {:induction false} IdentitiesAreForever(states: seq<State>, runs: seq<Run>, i: nat, j: nat)
    requires History(states, runs) && i <= j < |states|
    ensures KeepsIdentities(states[i].tables, states[j].tables)
    decreases j
  {
    if i < j {
      IdentitiesAreForever(states, runs, i, j - 1);
      IdentitiesAt(states, runs, j - 1);
      KeepsThrough(states[i].tables, states[j - 1].tables, states[j].tables);
    }
  }

  /** ...and two features never share a parcel. */
  lemma FeaturesNeverShare(states: seq<State>, runs: seq<Run>, n: nat)
    requires History(states, runs) && n < |states|
    ensures Injective(ParcelsOf(states[n].tables.identities))
  {
    AlwaysSettled(states, runs, n);
    SettledIdentities(states[n].tables, states[n].time);
  }

  lemma SettledIdentities(t: Tables, now: Time)
    requires Settled(t, now)
    ensures Injective(ParcelsOf(t.identities))
  {
    SettledIsKept(t, now);
  }

  // ------------------------------------------------------------------ polygonal histories

  ghost predicate Polygonal(run: Run) {
    run.Parcels? ==> AllPolygonal(run.staging)
  }

  lemma ViewKeepsTracked(a: Tables, b: Tables)
    requires SameParcelsView(a, b) && Tracked(a)
    ensures Tracked(b)
  {
    forall f | f in b.identities ensures LiveGeometry(b.facts, b.identities[f]).Some? {
      assert FieldKey(b.identities[f].parcel, GeometryField).source == ParcelsSource;
    }
  }

  lemma StepKeepsTracked(a: State, run: Run, b: State)
    requires Settled(a.tables, a.time) && Ran(a, run, b) && Polygonal(run) && Tracked(a.tables)
    ensures Tracked(b.tables)
  {
    if run.Parcels? {
      SeenSettles(a, run);
      PolygonalHistoriesMissNothing(Seen(a, run), a.time, Seen(b, run), run.staging, run.cite, run.m);
    } else {
      OtherRunsKeepTheView(a, run, b);
      ViewKeepsTracked(a.tables, b.tables);
    }
  }

  lemma {:induction false} PolygonalHistoriesAreTracked(states: seq<State>, runs: seq<Run>, n: nat)
    requires History(states, runs) && n < |states| && Tracked(states[0].tables)
    requires forall i {:trigger runs[i]} :: 0 <= i < n ==> Polygonal(runs[i])
    ensures Tracked(states[n].tables)
  {
    if n > 0 {
      PolygonalHistoriesAreTracked(states, runs, n - 1);
      AlwaysSettled(states, runs, n - 1);
      HistoryStep(states, runs, n - 1);
      StepKeepsTracked(states[n - 1], runs[n - 1], states[n]);
    }
  }

  /** The diff refines a rebuild over whole histories: when every snapshot so far was
      polygonal, each reconcile leaves as live identities exactly its snapshot's features,
      and each feature's parcel with exactly the values the snapshot supports. */
  lemma {:induction false} EveryReconcileIsARebuild(states: seq<State>, runs: seq<Run>, n: nat)
    requires History(states, runs) && n < |runs| && Tracked(states[0].tables) && runs[n].Parcels?
    requires forall i {:trigger runs[i]} :: 0 <= i <= n ==> Polygonal(runs[i])
    ensures LiveFeatures(states[n + 1].tables) == runs[n].staging.Keys
    ensures forall f :: f in runs[n].staging ==>
      && f in states[n + 1].tables.identities
      && HoldsFeature(states[n + 1].tables.facts, states[n + 1].tables.identities[f].parcel, f, runs[n].staging[f])
  {
    PolygonalHistoriesAreTracked(states, runs, n);
    AlwaysSettled(states, runs, n);
    HistoryStep(states, runs, n);
    SeenSettles(states[n], runs[n]);
    PolygonalHistoriesMissNothing(Seen(states[n], runs[n]), states[n].time, Seen(states[n + 1], runs[n]),
                                  runs[n].staging, runs[n].cite, runs[n].m);
  }

  // ------------------------------------------------------------------ the shortcut's anchor

  lemma ViewKeepsChanged(a: Tables, b: Tables, staging: Staging)
    requires SameParcelsView(a, b) && OneLive(a.facts) && OneLive(b.facts)
    ensures ChangedIds(b.facts, staging, b.identities) == ChangedIds(a.facts, staging, a.identities)
  {
    LiveRowsInRange(a.facts);
    LiveRowsInRange(b.facts);
    forall f | f in staging && f in a.identities
      ensures SqlChanged(b.facts, LiveParcelFacts(b.facts), b.identities[f], staging[f])
         <==> SqlChanged(a.facts, LiveParcelFacts(a.facts), a.identities[f], staging[f])
    {
      SameWhere(a.facts, b.facts, a.identities[f], staging[f]);
    }
  }

  lemma SameWhere(x: seq<Fact>, y: seq<Fact>, id: Identity, s: Staged)
    requires OneLive(x) && OneLive(y)
    requires forall k: Key :: k.source == ParcelsSource ==> LiveValue(y, k) == LiveValue(x, k)
    requires forall k :: k in LiveParcelFacts(x) ==> LiveParcelFacts(x)[k] < |x|
    requires forall k :: k in LiveParcelFacts(y) ==> LiveParcelFacts(y)[k] < |y|
    ensures SqlChanged(y, LiveParcelFacts(y), id, s) <==> SqlChanged(x, LiveParcelFacts(x), id, s)
  {
    forall field | field in {Apn, GeometryField}
      ensures var k, l, m := FieldKey(id.parcel, field), LiveParcelFacts(x), LiveParcelFacts(y);
        (k in l <==> k in m) && (k in l ==> x[l[k]].value == y[m[k]].value)
    {
      var k := FieldKey(id.parcel, field);
      assert k.source == ParcelsSource;
    }
    assert FieldKey(id.parcel, Apn).field == Apn && FieldKey(id.parcel, GeometryField).field == GeometryField;
  }

  lemma ViewKeepsVisible(a: Tables, b: Tables, staging: Staging)
    requires SameParcelsView(a, b)
    ensures VisibleIds(b, staging) == VisibleIds(a, staging)
    ensures forall f :: f in a.identities && f in staging && AgreesWith(a, staging, f) ==> AgreesWith(b, staging, f)
  {
    forall f | f in a.identities
      ensures LiveGeometry(b.facts, b.identities[f]) == LiveGeometry(a.facts, a.identities[f])
      ensures LiveApn(b.facts, b.identities[f]) == LiveApn(a.facts, a.identities[f])
    {
      assert FieldKey(a.identities[f].parcel, GeometryField).source == ParcelsSource;
      assert FieldKey(a.identities[f].parcel, Apn).source == ParcelsSource;
    }
  }

  lemma ViewKeepsConverged(a: Tables, b: Tables, staging: Staging, cite: Citation)
    requires SameParcelsView(a, b) && OneLive(a.facts) && OneLive(b.facts) && Converged(a, staging, cite)
    ensures Converged(b, staging, cite)
  {
    ViewKeepsChanged(a, b, staging);
    ViewKeepsVisible(a, b, staging);
  }

  ghost predicate IsConverged(t: Tables, staging: Staging, cite: Citation) {
    OneLive(t.facts) && Converged(t, staging, cite)
  }

  lemma StepConverges(a: State, run: Run, b: State)
    requires Settled(a.tables, a.time) && Ran(a, run, b) && run.Parcels?
    ensures IsConverged(b.tables, run.staging, run.cite)
  {
    var after := Seen(b, run);
    StepSettles(a, run, b);
    SettledIsSound(b.tables, b.time);
    SeenSettles(a, run);
    ReconciledConverges(Seen(a, run), a.time, after, run.staging, run.cite, run.m);
    ViewKeepsConverged(after, b.tables, run.staging, run.cite);
  }

  lemma StepStaysConverged(a: State, run: Run, b: State, staging: Staging, cite: Citation)
    requires Settled(a.tables, a.time) && Ran(a, run, b) && !run.Parcels? && IsConverged(a.tables, staging, cite)
    ensures IsConverged(b.tables, staging, cite)
  {
    StepSettles(a, run, b);
    SettledIsSound(b.tables, b.time);
    OtherRunsKeepTheView(a, run, b);
    ViewKeepsConverged(a.tables, b.tables, staging, cite);
  }

  lemma ConvergedAt(states: seq<State>, runs: seq<Run>, n: nat, staging: Staging, cite: Citation)
    requires History(states, runs) && n < |runs|
    requires if runs[n].Parcels? then staging == runs[n].staging && cite == runs[n].cite else IsConverged(states[n].tables, staging, cite)
    ensures IsConverged(states[n + 1].tables, staging, cite)
  {
    AlwaysSettled(states, runs, n);
    HistoryStep(states, runs, n);
    if runs[n].Parcels? { StepConverges(states[n], runs[n], states[n + 1]); }
    else { StepStaysConverged(states[n], runs[n], states[n + 1], staging, cite); }
  }

  lemma {:induction false} StaysConverged(states: seq<State>, runs: seq<Run>, n: nat, j: nat, staging: Staging, cite: Citation)
    requires History(states, runs) && n < j < |states|
    requires runs[n].Parcels? && staging == runs[n].staging && cite == runs[n].cite
    requires forall i {:trigger runs[i]} :: n < i < j ==> !runs[i].Parcels?
    ensures IsConverged(states[j].tables, staging, cite)
    decreases j
  {
    if j > n + 1 { StaysConverged(states, runs, n, j - 1, staging, cite); }
    ConvergedAt(states, runs, j - 1, staging, cite);
  }

  /** If the last parcels reconcile was of this snapshot, then whatever zoning, permits and
      failed runs came since, reconciling it in full again would change nothing at all:
      skipping the work, as the shortcut does, leaves the same tables. */
  lemma {:induction false} ShortcutIsSound(states: seq<State>, runs: seq<Run>, n: nat, j: nat, after: Tables, m: Moments)
    requires History(states, runs) && n < j < |states| && runs[n].Parcels?
    requires forall i {:trigger runs[i]} :: n < i < j ==> !runs[i].Parcels?
    requires Reconciled(states[j].tables, after, runs[n].staging, runs[n].cite, m)
    ensures after == states[j].tables
  {
    StaysConverged(states, runs, n, j, runs[n].staging, runs[n].cite);
    AlwaysSettled(states, runs, j);
    SettledIsKept(states[j].tables, states[j].time);
    ConvergedIsFixed(states[j].tables, states[j].time, after, runs[n].staging, runs[n].cite, m);
  }

  // ------------------------------------------------------------------ permits over a history

  ghost predicate NeverDenied(t: Tables) {
    forall p :: LiveValue(t.facts, PermitKey(p, PermitsActive)) in {None, Some(Flag(true))}
  }

  ghost predicate KeepsActive(a: Tables, b: Tables) {
    forall p :: LiveValue(a.facts, PermitKey(p, PermitsActive)) == Some(Flag(true)) ==>
      LiveValue(b.facts, PermitKey(p, PermitsActive)) == Some(Flag(true))
  }

  lemma StepKeepsActive(a: State, run: Run, b: State)
    requires Settled(a.tables, a.time) && Ran(a, run, b)
    ensures KeepsActive(a.tables, b.tables) && (NeverDenied(a.tables) ==> NeverDenied(b.tables))
  {
    forall p: ParcelId
      ensures LiveValue(b.tables.facts, PermitKey(p, PermitsActive))
           in {Some(Flag(true)), LiveValue(a.tables.facts, PermitKey(p, PermitsActive))}
    {
      OneStaysActive(a, run, b, p);
    }
  }

  lemma OneStaysActive(a: State, run: Run, b: State, p: ParcelId)
    requires Settled(a.tables, a.time) && Ran(a, run, b)
    ensures LiveValue(b.tables.facts, PermitKey(p, PermitsActive))
         in {Some(Flag(true)), LiveValue(a.tables.facts, PermitKey(p, PermitsActive))}
  {
    if run.Permits? {
      var before, after := Seen(a, run), Seen(b, run);
      var plan := PT.PermittedWith(before, after, run.matches, run.permitCite, run.pm);
      SeenSettles(a, run);
      SettledIsKept(before, a.time);
      PT.AbsenceNeverAsserts(before, a.time, after, run.matches, run.permitCite, run.pm, plan, p);
    } else if Commits(run) {
      var target, cite, started, at := StepIsABatch(a, run, b);
      SettledParts(a.tables, a.time, a.time);
      RefreshKey(a.tables.facts, b.tables.facts, target, cite, started, at, PermitKey(p, PermitsActive));
    }
  }

  lemma ActiveAt(states: seq<State>, runs: seq<Run>, n: nat)
    requires History(states, runs) && n < |runs|
    ensures KeepsActive(states[n].tables, states[n + 1].tables)
    ensures NeverDenied(states[n].tables) ==> NeverDenied(states[n + 1].tables)
  {
    AlwaysSettled(states, runs, n);
    HistoryStep(states, runs, n);
    StepKeepsActive(states[n], runs[n], states[n + 1]);
  }

  lemma ActiveThrough(x: Tables, y: Tables, z: Tables)
    requires KeepsActive(x, y) && KeepsActive(y, z)
    ensures KeepsActive(x, z)
  {
  }

  /** Starting without permit facts, no sequence of files ever makes a permit anything but
      active, and none ever takes it back. */
  lemma {:induction false} PermitsAreNeverDenied(states: seq<State>, runs: seq<Run>, i: nat, j: nat)
    requires History(states, runs) && i <= j < |states| && NeverDenied(states[i].tables)
    ensures NeverDenied(states[j].tables) && KeepsActive(states[i].tables, states[j].tables)
    decreases j
  {
    if i < j {
      PermitsAreNeverDenied(states, runs, i, j - 1);
      ActiveAt(states, runs, j - 1);
      ActiveThrough(states[i].tables, states[j - 1].tables, states[j].tables);
    }
  }

  // ------------------------------------------------------------------ exceptions over a history

  lemma StepExtendsRows(a: State, run: Run, b: State)
    requires Settled(a.tables, a.time) && Ran(a, run, b)
    ensures RowsExtend(a.tables.exceptions, b.tables.exceptions)
  {
    SeenSettles(a, run);
    match run {
      case Nothing =>
      case Parcels(staging, cite, m, _) => ReconciledExtends(Seen(a, run), a.time, Seen(b, run), staging, cite, m);
      case Zoning(pg, districts, cite, m, _) => Z.ZonedExtends(Seen(a, run), a.time, Seen(b, run), pg, districts, cite, m);
      case Permits(matches, cite, m, _) => PT.PermittedExtends(Seen(a, run), a.time, Seen(b, run), matches, cite, m);
    }
  }

  lemma RowsAt(states: seq<State>, runs: seq<Run>, n: nat)
    requires History(states, runs) && n < |runs|
    ensures RowsExtend(states[n].tables.exceptions, states[n + 1].tables.exceptions)
  {
    AlwaysSettled(states, runs, n);
    HistoryStep(states, runs, n);
    StepExtendsRows(states[n], runs[n], states[n + 1]);
  }

  /** No run removes or rewrites an exception: an open row is closed at most once, and the
      link it was given, or left without, is never changed. */
  lemma {:induction false} ExceptionsAreAppendOnly(states: seq<State>, runs: seq<Run>, i: nat, j: nat)
    requires History(states, runs) && i <= j < |states|
    ensures RowsExtend(states[i].tables.exceptions, states[j].tables.exceptions)
    decreases j
  {
    if i < j {
      ExceptionsAreAppendOnly(states, runs, i, j - 1);
      RowsAt(states, runs, j - 1);
      RowsThrough(states[i].tables.exceptions, states[j - 1].tables.exceptions, states[j].tables.exceptions);
    }
  }

  /** At every point of every history, for the four detectors that relink, following the
      links from any row with a reason visits that row and every earlier row of the same
      parcel, detector, version and reason, each once, newest first, and stops. */
  lemma ReopenChainsAreTheHistory(states: seq<State>, runs: seq<Run>, n: nat, j: nat)
    requires History(states, runs) && n < |states|
    requires j < |states[n].tables.exceptions| && Relinks(states[n].tables.exceptions[j].detector)
    requires states[n].tables.exceptions[j].reason.Some?
    ensures var rows := states[n].tables.exceptions;
      && Linked(rows, rows[j].detector)
      && StrictlyDown(Walk(rows, j))
      && forall i :: i in Walk(rows, j) <==> 0 <= i <= j && SameFinding(rows[i], rows[j])
  {
    AlwaysSettled(states, runs, n);
    SettledParts(states[n].tables, states[n].time, states[n].time);
    WalkIsTheHistory(states[n].tables.exceptions, j);
  }

  /** Two rows of one detector about one parcel, for one reason. */
  ghost predicate SameCase(a: ExceptionRow, b: ExceptionRow) {
    a.parcel == b.parcel && a.detector == b.detector && a.reason == b.reason
  }

  ghost predicate IsJustBefore(rows: Rows, k: nat, j: nat)
    requires j < |rows|
  {
    k < j && SameCase(rows[k], rows[j]) && forall i :: k < i < j ==> !SameCase(rows[i], rows[j])
  }

  /** The four detectors whose findings can come back. */
  ghost predicate ComesBack(d: Detector) {
    d in {Detector(ApnUnresolvable, Version(1, 0)), Detector(ParcelDisappeared, Version(1, 0)),
          Detector(ZoningUnresolvable, Version(2, 0)), Detector(PermitAttributionLost, Version(1, 0))}
  }

  /** At every point of every history, a row of these detectors that gives a reason points at the row of the same case
      just before it, and at none when it is the first; that row is closed, and closed before this one is. */
  lemma LinksSayWhatCameBefore(states: seq<State>, runs: seq<Run>, n: nat, j: nat)
    requires History(states, runs) && n < |states|
    requires j < |states[n].tables.exceptions| && ComesBack(states[n].tables.exceptions[j].detector)
    requires states[n].tables.exceptions[j].reason.Some?
    ensures var rows := states[n].tables.exceptions;
      && (forall k: nat :: rows[j].reopenedFrom == Some(k) <==> IsJustBefore(rows, k, j))
      && (forall i :: 0 <= i < j && SameCase(rows[i], rows[j]) ==>
            rows[i].status.Closed? && (rows[j].status.Closed? ==> rows[i].status.at < rows[j].status.at))
  {
    AlwaysSettled(states, runs, n);
    SettledParts(states[n].tables, states[n].time, states[n].time);
    assert Relinks(states[n].tables.exceptions[j].detector);
    LinkSays(states[n].tables.exceptions, j);
  }

  lemma LinkSays(rows: Rows, j: nat)
    requires j < |rows| && rows[j].reason.Some? && Linked(rows, rows[j].detector) && Ordered(rows)
    ensures forall k: nat :: rows[j].reopenedFrom == Some(k) <==> IsJustBefore(rows, k, j)
    ensures forall i :: 0 <= i < j && SameCase(rows[i], rows[j]) ==>
      rows[i].status.Closed? && (rows[j].status.Closed? ==> rows[i].status.at < rows[j].status.at)
  {
    assert LinkIsRight(rows, j);
    assert forall i :: 0 <= i < j ==> (Earlier(rows, i, j) <==> SameCase(rows[i], rows[j]));
    forall k: nat | IsJustBefore(rows, k, j) ensures rows[j].reopenedFrom == Some(k) {
      assert Earlier(rows, k, j);
    }
  }
}
