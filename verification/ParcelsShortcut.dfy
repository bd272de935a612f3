/** The `same_as_previous` shortcut against the full reconcile it stands for. */
module ParcelsShortcut {
  import opened Schema
  import opened Ledger
  import opened Identifiers
  import opened ParcelsModel
  import opened ParcelsLists
  import opened ParcelsReconcile
  import opened ParcelsWrites
  import opened ParcelsKeep
  import opened ParcelsTheorems
  import opened ParcelsRun
  import opened Invariants
  import opened Database

  /** On converged tables the shortcut and the full path leave the same tables. */
  lemma ShortcutEqualsFullPath(t: Tables, now: Time, quick: Tables, full: Tables, staging: Staging, cite: Citation,
                               m: Moments, m': Moments)
    requires Kept(t, now) && Converged(t, staging, cite)
    requires Achieved(t, quick, true, staging, cite, m) && Achieved(t, full, false, staging, cite, m')
    ensures quick == full
  {
    ConvergedIsFixed(t, now, full, staging, cite, m');
  }

  /** Skipping the full reconcile loses nothing exactly when there was nothing left to write. */
  lemma SkippingIsSoundIffConverged(t: Tables, now: Time, full: Tables, staging: Staging, cite: Citation, m: Moments)
    requires Kept(t, now) && Reconciled(t, full, staging, cite, m)
    ensures full == t <==> Converged(t, staging, cite)
  {
    SettledIsKept(t, now);
    if full == t { ReconciledConverges(t, now, full, staging, cite, m); }
    if Converged(t, staging, cite) { ConvergedIsFixed(t, now, full, staging, cite, m); }
  }

  /** On converged tables the full path can always be taken... */
  lemma FullPathFits(t: Tables, staging: Staging, cite: Citation, at: Time)
    requires OneLive(t.facts) && AllHold(t.identities) && Converged(t, staging, cite)
    ensures Fits(t, false, staging, cite, at)
  {
    ConvergedIsPolygonal(t, staging, cite);
    ConvergedIsSeen(t, staging, cite);
  }

  lemma ConvergedIsPolygonal(t: Tables, staging: Staging, cite: Citation)
    requires OneLive(t.facts) && Converged(t, staging, cite)
    ensures KnownPolygonal(t, staging)
  {
    forall f | f in VisibleIds(t, staging) ensures UnresolvableGeometry(staging[f].geometry).None? {
      assert AgreesWith(t, staging, f);
    }
  }

  lemma ConvergedIsSeen(t: Tables, staging: Staging, cite: Citation)
    requires OneLive(t.facts) && AllHold(t.identities) && Converged(t, staging, cite)
    ensures SeenBefore(t, staging, cite.retrievedAt)
  {
    forall f | f in ChangedIds(t.facts, staging, t.identities) ensures t.identities[f].firstSeenAt <= cite.retrievedAt {
      assert IdentityHolds(t.identities[f]);
    }
  }

  /** ...while the shortcut refuses exactly when a feature of the snapshot is stranded. */
  lemma {:induction false} ShortcutRefusesTheStranded(t: Tables, features: seq<Feature>, cite: Citation)
    requires OneLive(t.facts) && Stageable(features) && Converged(t, StagingOf(features), cite)
    ensures Readable(true, features, t.identities) <==> forall f :: f in StagingOf(features) ==> !Stranded(t, f)
  {
    var staging := StagingOf(features);
    if AllKnown(features, t.identities) {
      forall f | f in staging ensures !Stranded(t, f) {
        var i := StagedFrom(features, f);
        assert features[i].parcelId.value == f;
      }
    }
    if forall f :: f in staging ==> !Stranded(t, f) {
      forall i | 0 <= i < |features|
        ensures features[i].parcelId.value in t.identities && t.identities[features[i].parcelId.value].retiredAt.None?
      {
        StagedAt(features, i);
        KnownIsLive(t, staging, cite, features[i].parcelId.value);
      }
      assert forall i :: 0 <= i < |features| ==> Parses(features[i]);
    }
  }

  lemma KnownIsLive(t: Tables, staging: Staging, cite: Citation, f: FeatureId)
    requires OneLive(t.facts) && Converged(t, staging, cite) && f in staging && !Stranded(t, f)
    ensures f in t.identities && t.identities[f].retiredAt.None?
  {
    assert f in staging.Keys;
    if LiveGeometry(t.facts, t.identities[f]).Some? { assert AgreesWith(t, staging, f); }
  }

  // ------------------------------------------------------------------ what counts as the anchor

  /** Every earlier anchor of the source finished before this. */
  ghost predicate AnchoredBefore(jobs: seq<JobRun>, source: Source, finish: Time) {
    forall i :: 0 <= i < |jobs| && Anchors(jobs[i], source) ==> jobs[i].finishedAt.Some? && jobs[i].finishedAt.value < finish
  }

  /** In the order of `finished_at DESC, started_at DESC`, where a null comes first. */
  ghost predicate NotAfter(a: JobRun, b: JobRun) {
    if b.finishedAt.None? then a.finishedAt.Some? || a.startedAt <= b.startedAt
    else a.finishedAt.Some? && (a.finishedAt.value < b.finishedAt.value
                                || (a.finishedAt.value == b.finishedAt.value && a.startedAt <= b.startedAt))
  }

  /** The anchor is a succeeded run of the source on a snapshot than which no other finished later, one not finished
      counting as latest, and of those that finished together none started later. */
  lemma {:induction false} AnchorIsLatest(jobs: seq<JobRun>, source: Source)
    ensures PreviousSuccessful(jobs, source).None? <==>
      forall j :: 0 <= j < |jobs| ==> !(jobs[j].source == source && jobs[j].status == Succeeded && jobs[j].snapshot.Some?)
    ensures forall s :: PreviousSuccessful(jobs, source) == Some(s) ==>
      exists i :: 0 <= i < |jobs| && jobs[i].source == source && jobs[i].status == Succeeded && jobs[i].snapshot == Some(s)
        && forall j :: 0 <= j < |jobs| && jobs[j].source == source && jobs[j].status == Succeeded && jobs[j].snapshot.Some? ==>
             NotAfter(jobs[j], jobs[i])
  {
    var r := PreviousRun(jobs, source, |jobs|);
    if r.Some? {
      forall j | 0 <= j < |jobs| && jobs[j].source == source && jobs[j].status == Succeeded && jobs[j].snapshot.Some?
        ensures NotAfter(jobs[j], jobs[r.value])
      {
        assert Anchors(jobs[j], source) && !Later(jobs[j], jobs[r.value]);
      }
      assert Anchors(jobs[r.value], source);
    }
  }

  /** The latest success of the source is the anchor, whichever job it was a run of. */
  lemma {:induction false} LatestSuccessIsTheAnchor(jobs: seq<JobRun>, job: JobRun)
    requires Anchors(job, job.source) && job.finishedAt.Some?
    requires AnchoredBefore(jobs, job.source, job.finishedAt.value)
    ensures PreviousSuccessful(jobs + [job], job.source) == job.snapshot
  {
    var all := jobs + [job];
    var r := PreviousRun(all, job.source, |all|);
    assert all[|jobs|] == job;
    forall i | 0 <= i < |jobs| && Anchors(all[i], job.source) ensures Later(job, all[i]) { assert all[i] == jobs[i]; }
  }

  lemma OneMoreAnchor(jobs: seq<JobRun>, more: seq<JobRun>, source: Source, n: nat)
    requires 0 < n <= |jobs| && n <= |more| && more[n - 1] == jobs[n - 1]
    requires PreviousRun(more, source, n - 1) == PreviousRun(jobs, source, n - 1)
    requires var best := PreviousRun(jobs, source, n - 1); best.Some? ==> more[best.value] == jobs[best.value]
    ensures PreviousRun(more, source, n) == PreviousRun(jobs, source, n)
  {
  }

  lemma {:induction false} AnchorPrefix(jobs: seq<JobRun>, job: JobRun, source: Source, n: nat)
    requires n <= |jobs|
    ensures PreviousRun(jobs + [job], source, n) == PreviousRun(jobs, source, n)
  {
    if n > 0 {
      AnchorPrefix(jobs, job, source, n - 1);
      OneMoreAnchor(jobs, jobs + [job], source, n);
    }
  }

  /** A run that is no anchor leaves the anchor as it was. */
  lemma {:induction false} OthersKeepTheAnchor(jobs: seq<JobRun>, job: JobRun, source: Source)
    requires !Anchors(job, source)
    ensures PreviousSuccessful(jobs + [job], source) == PreviousSuccessful(jobs, source)
  {
    AnchorPrefix(jobs, job, source, |jobs|);
    assert (jobs + [job])[|jobs|] == job;
  }

  /** The latest success is the fetch that recorded this snapshot. */
  ghost predicate JustFetched(jobs: seq<JobRun>, fetch: JobRun, snapshot: SnapshotId) {
    && fetch.key == FetchParcels && fetch.source == ParcelsSource && fetch.status == Succeeded
    && fetch.snapshot == Some(snapshot) && fetch.finishedAt.Some?
    && AnchoredBefore(jobs, ParcelsSource, fetch.finishedAt.value)
  }

  /** The two `job_run` statements of a fetch that recorded a new snapshot. */
  method RecordFetch(conn: Connection, s: SnapshotId) returns (job: nat)
    requires conn.Idle()
    modifies conn`jobs, conn`saved, conn`clock
    ensures conn.Idle() && conn.clock == old(conn.clock) + 2 && job == |old(conn.jobs)|
    ensures conn.jobs == old(conn.jobs) + [JobRun(FetchParcels, ParcelsSource, Succeeded, Some(s), old(conn.clock) + 1, Some(conn.clock))]
  {
    job := conn.StartJob(FetchParcels, ParcelsSource);
    conn.FinishJob(job, Succeeded, Some(s));
    conn.Commit();
  }

  /** A load of the snapshot just fetched takes the shortcut.  It is refused unless every feature has a
      live identity already, so a first load of a non-empty snapshot always is... */
  lemma FetchedSnapshotIsRefused(jobs: seq<JobRun>, fetch: JobRun, snapshot: SnapshotId, features: seq<Feature>,
                                 identities: map<FeatureId, Identity>)
    requires JustFetched(jobs, fetch, snapshot)
    ensures PreviousSuccessful(jobs + [fetch], ParcelsSource) == Some(snapshot)
    ensures !Readable(true, features, identities) <==>
      exists i :: 0 <= i < |features| && (IsBlank(features[i].parcelId) || features[i].parcelId.value !in identities
                                          || identities[features[i].parcelId.value].retiredAt.Some?)
    ensures features != [] ==> !Readable(true, features, map[])
  {
    LatestSuccessIsTheAnchor(jobs, fetch);
    if features != [] {
      var nobody: map<FeatureId, Identity> := map[];
      var first := features[0].parcelId;
      assert IsBlank(first) || first.value !in nobody;
    }
  }

  /** ...and when every feature has one it is accepted, and skipped: any change the snapshot brings is
      lost, and so is every disappearance, though the run succeeds. */
  lemma FetchedSnapshotIsSkipped(jobs: seq<JobRun>, fetch: JobRun, t: Tables, now: Time, features: seq<Feature>,
                                 cite: Citation, at: Time, full: Tables, m: Moments)
    requires JustFetched(jobs, fetch, cite.snapshot) && Kept(t, now)
    requires Stageable(features) && AllKnown(features, t.identities)
    requires Reconciled(t, full, StagingOf(features), cite, m)
    ensures PreviousSuccessful(jobs + [fetch], ParcelsSource) == Some(cite.snapshot)
    ensures Readable(true, features, t.identities) && Fits(t, true, StagingOf(features), cite, at)
    ensures Achieved(t, t, true, StagingOf(features), cite, m)
    ensures full != t <==> !Converged(t, StagingOf(features), cite)
    ensures GoneIds(StagingOf(features), t.identities) != {} ==> full != t
    ensures (exists f :: f in VisibleIds(t, StagingOf(features)) && !AgreesWith(t, StagingOf(features), f)) ==> full != t
  {
    LatestSuccessIsTheAnchor(jobs, fetch);
    SkippingIsSoundIffConverged(t, now, full, StagingOf(features), cite, m);
  }
}
