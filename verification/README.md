# A verified model of the parcel ledger and its loaders

The system keeps what public sources say about land parcels as an append-only ledger of facts.
Three loaders (parcels, zoning districts, building permits) read a stored snapshot of their
source and reconcile the ledger with it inside one transaction: they do not rebuild, they diff.
Around them stand an exception table with its own lifecycle, a fetch protocol that stores
snapshots, a gate that decides which facts may be shown on which channel, a composer that
refuses and records why, and a normaliser that compares composed files with stored ones.

The Dafny modules follow the same lines.

| modules | what they are |
|---|---|
| `Schema`, `Ledger`, `Exceptions`, `Identifiers` | the tables as values; the fact ledger, its batches and its supersession lines; the exception lifecycle; identifier canonicalisation |
| `Database`, `Invariants` | one connection with its transaction, clock and faults; what every run keeps |
| `ParcelsModel`, `ParcelsLists`, `ParcelsPlan`, `ParcelsReconcile`, `ParcelsWrites`, `ParcelsKeep`, `ParcelsRun`, `ParcelsTheorems`, `ParcelsShortcut`, `ParcelsOutcome` | the parcels reconcile: its staging table and change query, its three planning loops, its write sequence, the run around them, what it achieves, and what it leaves in each table |
| `Classification`, `Centroids`, `Diff`, `Findings`, `ZoningModel`, `Zoning`, `ZoningEffect`, `ZoningRun`, `ZoningTheorems`, `ZoningOutcome` | the zoning load |
| `PermitRows`, `PermitMatch`, `Permits`, `PermitsRun`, `PermitsTheorems`, `PermitsOutcome` | the permits load |
| `Runs`, `Gaps` | any sequence of runs of the three loaders, failed and crashed ones included; the declared gaps over such a sequence |
| `JobLog` | those sequences with the `job_run` rows they leave, and what the shortcut's anchor row says about the tables |
| `Witnesses`, `ZoningWitness` | concrete runs from empty tables in which a promise fails |
| `Fetch` | any interleaving of any number of concurrent fetches |
| `Sorting`, `GoldenJson`, `GoldenUuids`, `GoldenSort`, `Golden`, `GoldenTheorems`, `GoldenFacts`, `GoldenOutcome` | normalisation of composed files |
| `Rights`, `Compose`, `RightsOutcome` | the rights gate and its consumers; composing a property file; what is shown and what is refused |
| `GeometryFlags` | flagging parcels with invalid geometry |

A loader is a method on a `Database.Connection`, with the original's loops and its order of
statements; a `Fault` names a step before which a statement raises or the process dies. Its
contract ties the new tables to a relation (`Reconciled`, `Zoned`, `Permitted`) about which the
theorems speak, and `Runs` shows that what each loader promises is one step of a history.
Several relations are guarded by a trigger (`Settled`, `Reconciled`, `Zoned`, `Permitted`, all by
way of `Inside`) so that proofs unfold them only where they say so; the guard is always true.
The `Outcome` modules say what a committed run leaves, row by row, in terms of its input and of the rows that were there.
A row's identifier is its position in its table: a uuid is used only as a name no earlier row has.

## What the proofs found

Where a promise does not hold of the code as written, the model keeps the code and proves when it does hold.

- The change query joins the live geometry fact (`scripts/ingest_parcels.py:1409`), but a new feature
  whose geometry is null or not polygonal gets none (`:1443-1459`). Its later changes, and its return after
  a disappearance, are never seen. `RebuiltExactlyWhen`, `LiveIdentitiesAreTheSnapshot` and
  `UnseenForEver` say exactly what is lost; `EveryReconcileIsARebuild` has the hypothesis that avoids it;
  `StrandedForGood` is a run in which it is lost.
- The anchor lookup (`:186-201`) does not ask which job succeeded, and a fetch records its success under the same
  source (`:423-429`). Loading a snapshot right after fetching it therefore takes the shortcut. It is refused iff some
  feature has no live identity, as on a first load (`FetchedSnapshotIsRefused`). Otherwise it is accepted, and every
  change and disappearance the snapshot brings is skipped (`FetchedSnapshotIsSkipped`, with the run
  `FetchedChangeIsSkipped`). Skipping is right iff the tables are converged on the snapshot
  (`SkippingIsSoundIffConverged`). That the anchor row is a full load is not enough, because that load may itself have
  skipped its work; the row that began the anchor's unbroken streak of one snapshot must be a full load, and then
  skipping is right in every history (`JobLog.AnchoredShortcutIsSound`).
- The shortcut also refuses a snapshot with a stranded feature that the full path accepts: `ShortcutRefusesTheStranded`.
- A feature without a `geometry` member stops the whole run with a `KeyError` at staging (`:1311`), although
  `is_unresolvable_geometry` is written to report it (`ParcelsRun.Stage`).
- The changed branch does not guard geometry (`:1599-1622`), so one known feature with bad geometry fails the
  whole run at the cache update: `AcceptedIffPolygonal`, and `BadGeometryStopsTheRun` for such a run.
- A number that is still missing keeps the reason it was first given, even when a blank has become a placeholder or the other
  way round, because the loop asks only whether a live number is lost (`:1530-1535`): `KnownFeatureFindings`.
- `recorded_at` is the start of the transaction and `superseded_at` a later clock reading, so a replaced
  fact and its successor can both be visible at an instant between the two: `ReplacedAndSuccessorOverlap`, `BothNumbersAtSix`.
- The SQL filter for a resolvable number (`:1411-1414`) is wider than the Python test by exactly the empty
  canonical string: `SqlFilterIsWider`. It is never narrower.
- One apostrophe is stripped, not all: `CanonicalTwice`.
- A parcel whose centroid is null keeps its old zoning facts (`scripts/ingest_zoning_permits.py:954`): `OutOfScopeKeepsItsFacts`,
  `NullCentroidKeepsZoning`.
- An empty permits file fails the run where the share of unmatched rows is printed (`:1327-1331`): `ReadAndJoin`.
- A verified object can be overwritten by a concurrent fetch of the same content that lost the race
  (`VerifiedObjectCanBeOverwritten`). It is final iff no process that found the snapshot missing has still to upload
  it (`ObjectIsFinalIff`).
- The UUID pattern ends in an anchor that also matches before a trailing newline, so a UUID followed by a
  newline is tokenised too, though the comment calls the match whole-string (`scripts/check_golden.py:675-689`).
- Tokens are numbered before lists are sorted, and fact links arrive ordered by a fresh random id, so two
  compositions whose links differ in anything but the id may normalise differently: `FreshLinksCompareByPlace`, `ListOrderShowsThrough`.
- "Nothing composed" is never returned: the geometry stage either refuses or raises (`NothingIsNeverComposed`).
- An unknown channel leaves the caller's open transaction alone, but an unknown election discards it, and a
  written file commits it: `ComposeFile`.
- Details of `parcel_geometry_declared_gap` exceptions are always redacted, because its detector has no governing source
  in the map (`api/main.py:369-387`): `GateExceptionDetails`.
- A geometry flag that stays open keeps the reason it was opened with: `StaleReasonsExactly`.

## Model

| member | source | states |
|---|---|---|
| `Runs.EveryReconcileIsARebuild` | scripts/ingest_parcels.py:1336-1630 | In any history of runs whose snapshots were polygonal, each full reconcile leaves as live identities exactly its snapshot's features, and each feature's parcel with exactly the values the snapshot supports, whatever came before and whatever the other two loaders did in between |
| `Runs.ShortcutIsSound` | scripts/ingest_parcels.py:1246-1289 | After a reconcile of a snapshot, and any number of zoning, permits, failed and shortcut runs since, reconciling that snapshot in full again would leave every table as it is; `JobLog` says which job rows show that this is the history |
| `JobLog.AnchoredShortcutIsSound` | scripts/ingest_parcels.py:1246-1291 | In every history with its job rows, from a time without a recorded success, when the anchor's unbroken streak of one snapshot began with a full load, the shortcut leaves exactly the tables the full path leaves, and the full path would not be refused |
| `JobLog.AnchorAlwaysHolds` | scripts/ingest_parcels.py:186-201 | At every point of every such history anchors finish in row order, and an anchor whose streak began with a full load stands for tables converged on its snapshot |
| `JobLog.StreakIsTheAnchors` | scripts/ingest_parcels.py:186-205 | A snapshot has a streak iff it is the snapshot of the anchor |
| `JobLog.LogPhaseE` | scripts/ingest_parcels.py:1142-1983 | Whatever the fault, one phase_e call extends such a history by one run and its job row; when the anchor is its snapshot it changes no table but job_run; and when it commits on a streak begun by a full load, no full reconcile of the snapshot would have changed anything |
| `JobLog.LogFetch` | scripts/ingest_parcels.py:384-443 | A fetch that records a new snapshot extends such a history, changes no table but job_run, and becomes the anchor |
| `JobLog.LogZoning` | scripts/ingest_zoning_permits.py:799-1204 | One load_zoning call, whatever the fault, extends such a history by one run and its job row |
| `JobLog.LogPermits` | scripts/ingest_zoning_permits.py:1235-1571 | One load_permits call, whatever the fault, extends such a history by one run and its job row |
| `Runs.AlwaysSettled` | scripts/ingest_parcels.py:1336-1983 | Every invariant (one live fact per key, lines of supersession, foreign keys, retirement fields, exception lifecycle, mirroring, permit mirroring) holds after every run of every history of the three loaders |
| `Runs.MirroredAtEveryPoint` | scripts/ingest_parcels.py:1468-1485 | At every point of every history a known parcel has a live number xor exactly one open exception saying why not, and its identity is retired iff exactly one open exception says it disappeared |
| `Gaps.GeometryOrOneGap` | scripts/ingest_parcels.py:1443-1459 | At every point of every history from empty tables, a known parcel has a live geometry xor exactly one open exception that declares the gap |
| `Gaps.ReconcileKeepsGaps` | scripts/ingest_parcels.py:1443-1630 | One reconcile keeps that: a new feature opens exactly the gap it declares, and a known parcel neither gains nor loses a geometry |
| `Runs.SupersessionIsLines` | scripts/ingest_parcels.py:1540-1622 | At every point of every history the supersession graph is a set of disjoint finite lines about one parcel, field and source, strictly backwards in time, with only the newest fact live |
| `Runs.HistoryIsAppendOnly` | scripts/ingest_parcels.py:1769-1787 | Over any history no fact is removed or rewritten, and a live one gains its end at most once |
| `Runs.ThePastIsFixed` | scripts/ingest_parcels.py:1779-1787 | The set of facts visible at an instant is the same after any later runs of any loader |
| `Runs.StepIsLocal` | scripts/ingest_parcels.py:1401-1416 | A run of one source leaves every fact row of every other source as it is |
| `Runs.IdentitiesAreForever` | scripts/ingest_parcels.py:1876-1915 | Over any history a feature keeps the parcel it was first given and its first sighting, through disappearance and return |
| `Runs.FeaturesNeverShare` | scripts/ingest_parcels.py:1424-1442 | At every point of every history the feature-to-parcel map is injective |
| `Runs.PermitsAreNeverDenied` | scripts/ingest_zoning_permits.py:1419-1492 | From a state without permit facts, no history ever makes permits.active anything but true, and none takes one back |
| `Runs.ExceptionsAreAppendOnly` | core/exceptions.py:109-339 | Over any history no exception row is removed or rewritten: an open one is closed at most once, and the link it was given, or left without, never changes |
| `Runs.ReopenChainsAreTheHistory` | core/exceptions.py:255-293 | At every point of every history, for the four detectors that relink, following the links from any row with a reason visits that row and all earlier rows of the same parcel, detector, version and reason, each once, newest first, and stops |
| `Runs.LinksSayWhatCameBefore` | core/exceptions.py:255-293 | At every point of every history, a row of the four detectors that gives a reason points at the latest earlier row with the same parcel, detector, version and reason, or at none iff there is none; and all such rows before it are closed, and closed before it is |
| `Runs.PhaseEIsARun` | scripts/ingest_parcels.py:1246-1291 | What a committed phase_e call promises is one step of a history: a reconcile, or nothing when it took the shortcut |
| `Runs.LoadZoningIsARun` | scripts/ingest_zoning_permits.py:1156-1202 | What a committed load_zoning call promises is one step of a history |
| `Runs.LoadPermitsIsARun` | scripts/ingest_zoning_permits.py:1510-1569 | What a committed load_permits call promises is one step of a history |
| `Runs.StepIsABatch` | scripts/ingest_parcels.py:1769-1787 | Whichever loader ran, its committed effect on the ledger is one planned batch about its own source |
| `Runs.OtherRunsKeepTheView` | scripts/ingest_parcels.py:1401-1416 | Runs of other sources leave the parcels source with the same identities and live facts |
| `Runs.OtherSourceKeeps` | scripts/ingest_zoning_permits.py:1016-1024 | A run decides no live value of any key of another source |
| `Ledger.SoundAtEveryStep` | scripts/ingest_parcels.py:1769-1787 | At most one live fact per parcel, field and source, and a supersession graph of lines, after the retiring UPDATE and after every single inserted row of a planned batch, not only at commit |
| `Ledger.RefreshReaches` | scripts/ingest_parcels.py:1779-1787 | A planned batch leaves every key it looked at with exactly its target value; a fact that already agreed is the same row; no other key moves |
| `Ledger.RefreshIsIdle` | scripts/ingest_zoning_permits.py:1048-1083 | A target the ledger already meets is reached by writing nothing |
| `Ledger.RefreshExtends` | core/store.py:115-157 | A batch removes and rewrites nothing; each new row is about a key of the target and cites the run's snapshot, retrieval time and transaction start |
| `Ledger.RefreshIsLocal` | scripts/ingest_parcels.py:1779-1787 | Rows of every other source are the same rows after a batch |
| `Ledger.PlanStep` | scripts/ingest_zoning_permits.py:1048-1083 | The diff's four outcomes for one key (absent stays absent, new, retired without a successor, superseded by a successor) are exactly the ways a correct plan may grow |
| `Ledger.FieldStepPlans` | scripts/ingest_parcels.py:1538-1622 | One key of a loop extends a correct plan to a correct plan for one more key |
| `Ledger.PlannedWrites` | scripts/ingest_parcels.py:1538-1622 | A plan writes a value for a key iff the target has that value and the ledger does not |
| `Ledger.ForeignFactsDoNotMatter` | scripts/ingest_parcels.py:1401-1416 | Two ledgers that agree on one source's live values get the same values written for the same target of that source, whatever else they hold |
| `Ledger.PastIsFixed` | scripts/ingest_parcels.py:1779-1787 | One batch never changes what was visible before its transaction started |
| `Ledger.ReplacedAndSuccessorOverlap` | scripts/ingest_parcels.py:1191-1201 | Because recorded_at is the transaction start and superseded_at a later clock reading, a replaced fact and its successor are both visible at an instant iff it lies between the two readings and both were in effect |
| `Witnesses.BothNumbersAtSix` | scripts/ingest_parcels.py:1191-1201 | A number replaced by a transaction that starts at five and retires it at seven is visible at six together with its successor |
| `Ledger.LineDescends` | scripts/ingest_parcels.py:1540-1622 | Following supersedes_fact_id stays on one parcel, field and source, strictly backwards, and meets no live fact but possibly the first |
| `Ledger.LinesAreDisjoint` | scripts/ingest_parcels.py:1540-1622 | Two facts whose lines share a fact lie on one line: no fact has two successors and chains never cycle |
| `Ledger.LiveRows` | scripts/ingest_zoning_permits.py:1016-1024 | The live rows the loaders select are exactly the live facts of the source and fields, one per key |
| `Ledger.LiveValueMeans` | scripts/ingest_parcels.py:1405-1409 | A key has a live value iff some row of that parcel, field and source has it and no end |
| `Ledger.OldRowAfter` | scripts/ingest_parcels.py:1779-1787 | Row by row: a live fact the target contradicts gets its end and nothing else of it changes; every other row is the same |
| `Ledger.NewRowAfter` | core/store.py:115-157 | Row by row: each fact added has the target's value, which was not live, every column from the plan and the run, and as predecessor exactly what was live |
| `ParcelsTheorems.DiffIsRebuild` | scripts/ingest_parcels.py:1336-1630 | From any state, a reconcile leaves every feature it can compare with a live identity and exactly the values a ledger built from the snapshot alone would have |
| `ParcelsTheorems.RebuiltExactlyWhen` | scripts/ingest_parcels.py:1401-1416 | A feature of the snapshot ends as a rebuild would have it iff it is new or had a live geometry fact, or its parcel already held just that: the inner join on the geometry fact is the exact condition |
| `Witnesses.StrandedForGood` | scripts/ingest_parcels.py:1409-1459 | From empty tables, a null geometry, an absence and a polygon: all three loads commit, and the feature of the last snapshot is retired, without its values, and its reload is refused |
| `ParcelsTheorems.AnyHistoryAgreesWithARebuild` | scripts/ingest_parcels.py:1336-1630 | A reconcile over any history and a reconcile over empty tables give a compared feature the same three values |
| `ParcelsTheorems.TheRestIsLeftAlone` | scripts/ingest_parcels.py:1401-1416 | A known feature outside the snapshot, or without a live geometry fact, keeps its parcel and all its values; it is retired afterwards iff it is absent or was retired already |
| `ParcelsTheorems.LiveIdentitiesAreTheSnapshot` | scripts/ingest_parcels.py:1343-1416 | The live identities afterwards are the snapshot's features iff none of them is stranded (retired without a live geometry); in general they are its features minus the stranded ones |
| `ParcelsTheorems.PolygonalHistoriesMissNothing` | scripts/ingest_parcels.py:1401-1416 | Polygonal snapshots keep every parcel comparable, and then nothing is missed |
| `ParcelsTheorems.UnseenForEver` | scripts/ingest_parcels.py:1409-1459 | A parcel first seen without storable geometry never gets a geometry or a new number from any later snapshot and, once retired, stays retired |
| `ParcelsTheorems.IdentitiesOnlyGrow` | scripts/ingest_parcels.py:1424-1442 | One reconcile adds exactly the new features, each under a parcel that did not exist, keeps every old assignment and first sighting, and keeps the map injective |
| `ParcelsTheorems.ReconciledConverges` | scripts/ingest_parcels.py:1401-1416 | After a reconcile there is nothing about the snapshot left to write |
| `ParcelsTheorems.ConvergedIsFixed` | scripts/ingest_parcels.py:1246-1289 | A full reconcile of converged tables changes no table |
| `ParcelsTheorems.SecondRunIsIdle` | scripts/ingest_parcels.py:1336-1630 | Reconciling the same snapshot twice adds no fact, supersession, exception, closing, link, parcel, retirement or sighting the second time |
| `ParcelsTheorems.OtherFactsAreUntouched` | scripts/ingest_parcels.py:1779-1787 | A reconcile leaves fact rows of other sources as they are |
| `ParcelsTheorems.OtherExceptionsAreUntouched` | scripts/ingest_parcels.py:1797-1840 | A reconcile leaves exception rows of other detectors as they are |
| `ParcelsTheorems.ForeignFactsDoNotMatter` | scripts/ingest_parcels.py:1408-1409 | Two states that agree on the parcels source's own live facts get the same facts written, whatever other sources hold for the same parcel and field |
| `ParcelsTheorems.ExceptionsMirrorTheLedger` | scripts/ingest_parcels.py:1538-1597 | In any state that satisfies the invariants, live number xor one open unresolvable exception, and retired iff one open disappeared exception |
| `ParcelsOutcome.StagedFeature` | scripts/ingest_parcels.py:1299-1334 | Each feature is staged under its own identifier with its own number and geometry, a null geometry as none |
| `ParcelsOutcome.FactsSayTheFeature` | scripts/ingest_parcels.py:1336-1630 | After a reconcile the parcel of a feature that is new or had a live geometry holds that feature's identifier; holds a number iff it is the canonical form of the feature's own, not empty and without a question mark; and holds a geometry iff it is the feature's own and polygonal |
| `ParcelsOutcome.OldFactAfter` | scripts/ingest_parcels.py:1538-1622 | A fact that was there is the same row, unless it is live, about one of the three fields of a compared feature's parcel, and not what the feature gives: then it has its end, at that statement's time, and nothing else of it changes |
| `ParcelsOutcome.NewFactAfter` | scripts/ingest_parcels.py:1424-1622 | Every fact added says what its feature gives and what the ledger did not say, cites the run's snapshot, retrieval time and start, names as its predecessor exactly what was live, and keeps the feature's raw string beside a number and nothing beside anything else |
| `ParcelsOutcome.ParcelSaysTheFeature` | scripts/ingest_parcels.py:1849-1868 | The cache columns of a compared feature's parcel are the number and the geometry the feature gives, or empty |
| `ParcelsOutcome.OldParcelAfter` | scripts/ingest_parcels.py:1849-1868 | A parcel that was there loses its centroid iff its geometry is replaced; one without a compared feature is as it was |
| `ParcelsOutcome.NewParcelAfter` | scripts/ingest_parcels.py:1424-1442 | Every new parcel is that of exactly one new feature, and has no centroid yet |
| `ParcelsOutcome.IdentityRowAfter` | scripts/ingest_parcels.py:1876-1917 | Column by column: a new feature gets an identity under a parcel that did not exist; an absent live one is retired on this snapshot with the one reason; one that differs from the ledger is seen on this snapshot and is live; every other row is the same |
| `ParcelsOutcome.ChangedExactly` | scripts/ingest_parcels.py:1401-1416 | The change query returns a known feature of the snapshot iff its parcel has a live geometry and it is retired, gives another number or none, gives another geometry, or has neither a live number nor anything left of its own once canonicalised |
| `ParcelsOutcome.NewFeatureFindings` | scripts/ingest_parcels.py:1443-1485 | A new feature's parcel has an open blank exception iff it has no number or nothing is left of it, an open placeholder exception iff what is left has a question mark, an open null or non-polygonal gap iff its geometry is null or of that other kind, and no other |
| `ParcelsOutcome.KnownFeatureFindings` | scripts/ingest_parcels.py:1538-1717 | A compared feature that loses its number opens exactly the blank or the placeholder exception, by the same two conditions; one that gets a number back has none; one that had none keeps the reason it was first given; the declared gap never moves; an absent one says it is absent, and one compared again no longer does |
| `ParcelsOutcome.OldExceptionAfter` | scripts/ingest_parcels.py:1797-1840 | An exception row that was there is the same row, unless it is open and its parcel's number, or its retired feature, is back: then it is closed by its own detector at that statement's time |
| `ParcelsOutcome.NewExceptionAfter` | scripts/ingest_parcels.py:1443-1717 | Every exception row added is open, gives a reason, is of its detector's type and version, and a declared gap is never linked to an earlier one |
| `ParcelsOutcome.FitsExactly` | scripts/ingest_parcels.py:1857-1917 | The database takes a full reconcile iff every geometry compared is a polygon or multipolygon, nothing seen again was first seen after the snapshot, and nothing absent was last seen in the future |
| `ParcelsOutcome.ReadableExactly` | scripts/ingest_parcels.py:1268-1334 | A file is read in full iff each feature has an identifier that is not all whitespace and a geometry member, and none repeats; on the shortcut iff each has a non-blank identifier that is known and live |
| `ParcelsShortcut.ShortcutEqualsFullPath` | scripts/ingest_parcels.py:1246-1291 | On converged tables the shortcut and the full path leave the same tables |
| `ParcelsShortcut.FullPathFits` | scripts/ingest_parcels.py:1291-1334 | On converged tables no statement of the full path is refused |
| `ParcelsShortcut.ShortcutRefusesTheStranded` | scripts/ingest_parcels.py:1268-1284 | On converged tables the shortcut raises iff the snapshot has a stranded feature |
| `ParcelsShortcut.LatestSuccessIsTheAnchor` | scripts/ingest_parcels.py:186-201 | The latest succeeded run of the source is the anchor, whichever job it was a run of |
| `ParcelsShortcut.AnchorIsLatest` | scripts/ingest_parcels.py:186-205 | The anchor's snapshot is that of a succeeded run of the source with a snapshot than which no other finished later, nor at the same time having started later, one without a finish counting as latest; none iff there is no such run |
| `ParcelsShortcut.FetchedSnapshotIsRefused` | scripts/ingest_parcels.py:1268-1284 | A load of the snapshot that the latest fetch recorded takes the shortcut, and is refused iff some feature is blank, unknown or retired; so a first load of a non-empty file always is |
| `ParcelsShortcut.FetchedSnapshotIsSkipped` | scripts/ingest_parcels.py:1246-1289 | When every feature has a live identity such a load is accepted and changes nothing, which differs from the full path iff the tables are not converged on the snapshot, as with any disappearance or changed value |
| `ParcelsShortcut.SkippingIsSoundIffConverged` | scripts/ingest_parcels.py:1246-1291 | In any state that satisfies the invariants, skipping a reconcile leaves the tables the full path leaves iff they are converged on the snapshot |
| `Witnesses.FetchedChangeIsSkipped` | scripts/ingest_parcels.py:186-201 | A load, a fetch of a changed snapshot and two loads of it all commit; the last anchor row is a full load, the parcel still has its old geometry, and a full reconcile would have changed the tables |
| `ParcelsReconcile.UnchangedIsIdle` | scripts/ingest_parcels.py:1401-1416 | A known feature the change query drops is one for which the loop would do nothing: the SQL filter is a superset of the Python branches |
| `ParcelsReconcile.ChangedAreVisible` | scripts/ingest_parcels.py:1405-1409 | Every row the change query returns is a known feature of the snapshot with a live geometry fact |
| `ParcelsReconcile.WidenFacts` | scripts/ingest_parcels.py:1401-1630 | A plan right for the features the query returns is right for every feature it could see |
| `ParcelsLists.ApnTestIsExact` | scripts/ingest_parcels.py:1530-1535 | The loop's two-case test for a changed number is true iff the live number differs from the supported one |
| `ParcelsLists.GeometryTestIsExact` | scripts/ingest_parcels.py:1536-1536 | A geometry that is storable, or that equals the live one, is exactly the value the target wants: the loop's geometry test misses nothing |
| `ParcelsPlan.PlanNew` | scripts/ingest_parcels.py:1424-1486 | The NEW loop lists one fresh parcel and identity per feature, exactly the facts it supports with no predecessor, and exactly one exception for each thing it does not; which reason each gives is said by `ParcelsOutcome.NewFeatureFindings` |
| `ParcelsModel.WhyNoGeometry` | scripts/ingest_parcels.py:1015-1036 | The reason is null iff the geometry is missing or null, non-polygonal of a kind iff it is of that other kind, and none iff it is a polygon or multipolygon |
| `ParcelsPlan.ChangedApn` | scripts/ingest_parcels.py:1538-1597 | The number branch retires, replaces or adds so that the target holds, opens an exception iff it degrades, and marks for closing iff it resolves |
| `ParcelsPlan.ChangedGeometry` | scripts/ingest_parcels.py:1599-1623 | The geometry branch plans the incoming geometry as the new value iff it differs, without asking whether it can be stored |
| `ParcelsPlan.PlanChanged` | scripts/ingest_parcels.py:1495-1630 | The CHANGED loop, in any order, plans exactly the target of the features returned, with the matching cache updates, touches, exceptions and closings |
| `ParcelsPlan.PlanGone` | scripts/ingest_parcels.py:1659-1717 | The DISAPPEARED loop lists one exception for each absent feature's parcel that has none open, and nothing for any other detector |
| `ParcelsRun.PlanReconcile` | scripts/ingest_parcels.py:1336-1717 | The three loops together give lists that are right for the tables and the snapshot, or a geometry the cache update cannot take |
| `ParcelsRun.Stage` | scripts/ingest_parcels.py:1299-1334 | Staging succeeds iff every feature has an identifier and a geometry member and no identifier repeats, and then holds each feature under its identifier |
| `ParcelsRun.VerifyUnchanged` | scripts/ingest_parcels.py:1268-1284 | The shortcut's loop accepts iff every feature has a non-blank identifier with a live identity |
| `ParcelsRun.PreviousRun` | scripts/ingest_parcels.py:186-205 | The anchor is a succeeded run with a snapshot that no other such run of the source is later than; none iff there is no such run |
| `ParcelsRun.RunTransaction` | scripts/ingest_parcels.py:1742-1949 | With a fault at any step, either everything is committed together with the run marked succeeded on its snapshot, or nothing is |
| `ParcelsRun.PhaseE` | scripts/ingest_parcels.py:1142-1983 | The whole run: it commits iff no fault struck, the file is readable on its path and the database accepts the writes; then the tables are the reconciled ones (or untouched on the shortcut), else only its job_run row is added; the ledger is committed iff that row is succeeded; a failed refresh changes neither; every invariant is kept |
| `ParcelsWrites.WriteAndCommit` | scripts/ingest_parcels.py:1742-1949 | The thirteen writing statements, the job status and the commit leave exactly the planned tables, in this order, or nothing durable |
| `ParcelsWrites.UpdateGeomCache` | scripts/ingest_parcels.py:1857-1868 | The update is accepted iff every geometry is a polygon or a multipolygon; then each named parcel has its geometry and no centroid, and no other parcel changes, else none does |
| `ParcelsWrites.WriteRows` | scripts/ingest_parcels.py:1743-1840 | The first nine statements leave parcels, identities, facts and exceptions as planned |
| `ParcelsWrites.WriteUpdates` | scripts/ingest_parcels.py:1849-1917 | The last four statements leave the caches and identities as planned |
| `ParcelsKeep.ReconcileKeeps` | scripts/ingest_parcels.py:1742-1949 | A committed reconcile keeps every invariant |
| `ParcelsKeep.AcceptedIffPolygonal` | scripts/ingest_parcels.py:1857-1868 | The geometry statements are accepted iff every geometry compared with a live one is polygonal |
| `Witnesses.BadGeometryStopsTheRun` | scripts/ingest_parcels.py:1599-1622 | From empty tables, a polygon and then a null geometry for the same feature: the second load cannot commit and changes nothing but its job row |
| `ParcelsKeep.IdentitiesAcceptedIff` | scripts/ingest_parcels.py:1876-1917 | The identity statements are accepted iff the snapshot is no older than the first sighting of what it touches and nothing absent was last seen in the future |
| `ParcelsKeep.KnownRetired` | scripts/ingest_parcels.py:1876-1915 | A known identity is retired afterwards iff its feature is absent, or it was retired already and cannot be seen by the change query |
| `ParcelsKeep.OneFindingEach` | scripts/ingest_parcels.py:1817-1840 | Afterwards a known parcel has at most one open finding of each of the two mirrored detectors |
| `ParcelsKeep.IdentitiesStillMirrored` | scripts/ingest_parcels.py:1797-1840 | After a reconcile the exceptions still mirror the ledger for every identity, old and new |
| `ParcelsKeep.LifecycleExtends` | scripts/ingest_parcels.py:1797-1840 | The five lifecycle statements only append rows and close open ones |
| `Database.Connection.InsertFacts` | core/store.py:115-157 | All rows or none on columns it does not write; otherwise row by row, stopping at the first that would break the unique index; a ledger with one live fact per key keeps it |
| `Database.Connection.InsertExceptions` | core/exceptions.py:109-141 | Refused as a whole iff some row carries a ruleset version; otherwise appended, or stopped by the partial unique index |
| `Database.Connection.CloseResolvedExceptions` | core/exceptions.py:144-206 | Row by row: an open row of the detector and version that has a reason not found again is closed at one moment after the call, and every other row is as it was |
| `Database.Connection.CloseExceptionsForParcels` | core/exceptions.py:209-252 | Row by row: an open row of the detector and version for a given parcel is closed, whatever its reason, and every other row is as it was |
| `Database.Connection.RelinkReopenedExceptions` | core/exceptions.py:255-293 | Row by row: an open unlinked row of the detector gets a closed row of the same finding than which no other was closed later, or stays unlinked if there is none; nothing else of it, and no other row, changes |
| `Database.Connection.RetireStrandedExceptions` | core/exceptions.py:296-339 | Closes every open row of a retired version, and leaves none open |
| `Database.Connection.FailJob` | scripts/ingest_parcels.py:224-241 | Discards everything uncommitted and records the run as failed |
| `Database.WriteFacts` | scripts/ingest_parcels.py:1779-1787 | Retire then insert: a planned batch is never refused and never meets the unique index, at any fault position |
| `Database.Conclude` | scripts/ingest_parcels.py:1952-1956 | A run ends committed, marked failed with the tables as before, or dead with the tables as before |
| `Exceptions.WalkIsTheHistory` | core/exceptions.py:255-293 | The chain from any row is exactly the earlier rows of the same finding, each once, newest first |
| `Exceptions.RelinkCompletes` | core/exceptions.py:255-293 | One pass gives every row its right link and leaves every row that an earlier run left, linked or not |
| `Exceptions.RelinkExtends` | core/exceptions.py:275-293 | Relinking after an insertion touches no row that was there before |
| `Exceptions.LastClosedIsPrevious` | core/exceptions.py:275-293 | The latest-closed subquery finds the row immediately before the open one |
| `Exceptions.CloseKeeps` | core/exceptions.py:144-252 | Closing open rows keeps one open row per index key and the order of closings |
| `Exceptions.AppendKeeps` | core/exceptions.py:109-141 | Inserting findings that are not open keeps one open row per index key and the order of closings |
| `Exceptions.RelinkKeeps` | core/exceptions.py:255-293 | Relinking keeps one open row per index key and the order of closings |
| `Exceptions.PairsAfterCloseByExclusion` | core/exceptions.py:144-206 | Which findings are open after closing by exclusion, for every detector |
| `Exceptions.PairsAfterTargetedClose` | core/exceptions.py:209-252 | Which findings are open after a targeted close, for every detector |
| `Exceptions.PairsAfterAppend` | core/exceptions.py:109-141 | Which findings are open after an insertion, for every detector |
| `Exceptions.CloseIsLocal` | core/exceptions.py:144-252 | Closing touches only rows of its own detector |
| `Exceptions.RelinkIsLocal` | core/exceptions.py:255-293 | Relinking touches only rows of its own detector |
| `Exceptions.FindingsCanBeAdded` | core/exceptions.py:109-141 | Findings not open already never meet the partial unique index |
| `Invariants.OtherLoaderKeeps` | scripts/ingest_zoning_permits.py:1156-1187 | A committed run of another source keeps the parcels invariants |
| `Identifiers.CanonicalUndoesDefects` | infra/values.py:16-51 | A clean identifier is recovered from surrounding whitespace and from one force-text apostrophe with whitespace around it |
| `Identifiers.CanonicalSplits` | infra/values.py:16-51 | Any string is whitespace, at most one apostrophe with whitespace behind it, its canonical form, and whitespace; without the apostrophe the canonical form starts with none |
| `Identifiers.StripSplits` | infra/values.py:16-51 | What is stripped is whitespace, and only at the two ends |
| `Identifiers.BlankMeans` | infra/values.py:12-13 | A value is blank iff it is missing or whitespace throughout |
| `Identifiers.WhyUnresolvable` | scripts/ingest_parcels.py:1089-1098 | A number is unresolvable as blank iff it is missing or canonically empty, as a placeholder iff its canonical form is not empty and has a question mark, and otherwise resolvable |
| `Identifiers.CanonicalTwice` | infra/values.py:46-51 | Canonicalising twice equals once iff the canonical form does not start with an apostrophe |
| `Identifiers.CanonicalIsNotIdempotent` | infra/values.py:46-51 | A concrete identifier whose second canonicalisation differs |
| `Identifiers.StripFinds` | infra/values.py:46-51 | Stripping recovers the trimmed core of any whitespace-padded string |
| `Identifiers.SqlFilterIsWider` | scripts/ingest_parcels.py:1411-1414 | The SQL stand-in for resolvable accepts exactly the resolvable values and those whose canonical form is empty |
| `Classification.KindIsDecidedByTheValues` | scripts/ingest_zoning_permits.py:414-420 | Zero iff all values are blank, ambiguous iff two non-blank values differ, matched to a value iff it is the only non-blank one |
| `Classification.VerbatimIsUnanimous` | scripts/ingest_zoning_permits.py:425-440 | A verbatim value is written iff every row that agrees on the zoning value gives that same one |
| `Classification.AnomalyMeans` | scripts/ingest_zoning_permits.py:427-448 | There is an anomaly iff more than one polygon contains the point; it names every facility as often as it occurs, and a conflict iff the agreeing rows have more than one verbatim string, with exactly those that are not missing |
| `Classification.ClassifyDependsOnTheBag` | scripts/ingest_zoning_permits.py:398-449 | Any reordering of the candidates classifies alike |
| `Classification.MoreCandidates` | scripts/ingest_zoning_permits.py:398-449 | More candidates only move a parcel from zero to matched to ambiguous, and never change the value |
| `Centroids.LeftOverExactly` | scripts/ingest_zoning_permits.py:251-395 | After the update a parcel is left over iff its geometry cannot be used, or neither its own point, nor the centroid, nor the fallback point is inside |
| `ZoningOutcome.CentroidAfter` | scripts/ingest_zoning_permits.py:251-395 | A zoning load moves nothing of a parcel but its centroid: that stays while it lies inside the usable geometry, else becomes the geometry's own centroid if that is inside, else the point on its surface; a parcel without a usable geometry is as it was |
| `Centroids.RecomputedIsStable` | scripts/ingest_zoning_permits.py:251-395 | The update moves only centroids of the jurisdiction, and a second one moves nothing |
| `ZoningModel.Join` | scripts/ingest_zoning_permits.py:929-938 | The joined pairs are, for each parcel in scope and not left over, the polygons containing its point |
| `ZoningModel.GroupByParcel` | scripts/ingest_zoning_permits.py:941-943 | Grouping keeps each parcel's bag of candidates |
| `ZoningModel.ClassifyAll` | scripts/ingest_zoning_permits.py:957-984 | The loop sorts the parcels in scope into matched, zero and ambiguous exactly as each classifies, and passes over those left over |
| `Zoning.DiffZoning` | scripts/ingest_zoning_permits.py:1026-1083 | The two diff loops give the batch whose target is the fresh classification of every parcel in scope |
| `Zoning.ListZoning` | scripts/ingest_zoning_permits.py:1106-1152 | The listed exceptions are exactly the findings still true that are not open |
| `ZoningTheorems.ReachesFreshClassification` | scripts/ingest_zoning_permits.py:1026-1083 | After a run every parcel of the jurisdiction with a centroid holds what its fresh classification gives each field, or nothing; what that is, feature by feature, is said by `ZoningOutcome.DistrictAfter` |
| `ZoningOutcome.DistrictAfter` | scripts/ingest_zoning_permits.py:398-449 | A parcel with a point inside it holds a district iff it is the one non-blank zoning value among the features whose repaired geometry contains the point, and holds a verbatim string iff there is such a value and every containing feature that has it gives that string |
| `ZoningOutcome.LeftOverHoldsNothing` | scripts/ingest_zoning_permits.py:954-1083 | A parcel left without a point inside it holds neither |
| `ZoningOutcome.OldFactAfter` | scripts/ingest_zoning_permits.py:1026-1083 | A fact that was there is the same row, or was live with another value than the load finds and has its end |
| `ZoningOutcome.NewFactAfter` | scripts/ingest_zoning_permits.py:1026-1083 | Every fact added is about one of the two fields, says what the load finds and the ledger did not say, cites the run, names exactly what was live, and carries no string of its own |
| `ZoningOutcome.FindingsAfter` | scripts/ingest_zoning_permits.py:1093-1152 | A parcel with a point inside it has an open no-district exception iff no containing feature has a non-blank zoning, an open multiple-districts one iff two have different ones, and an open agreeing one iff several contain it and all zonings agree; the centroid exceptions open are exactly the parcels left over |
| `ZoningOutcome.OldExceptionAfter` | scripts/ingest_zoning_permits.py:1093-1152 | An exception row that was there is the same row, unless it is open, gives a reason and that is no longer so: then it is closed by its own detector at that statement's time |
| `ZoningOutcome.NewExceptionAfter` | scripts/ingest_zoning_permits.py:1106-1152 | Every exception row added is open, gives a reason, is of its detector's type and version, and a centroid finding is never linked |
| `ZoningOutcome.StageableExactly` | scripts/ingest_zoning_permits.py:815-846 | A file is taken iff every feature has a geometry that is not null |
| `ZoningTheorems.FindingsAreFresh` | scripts/ingest_zoning_permits.py:1093-1187 | After a run the open zoning exceptions at the current version are exactly the findings still true, and the open centroid exceptions exactly the parcels left over |
| `ZoningTheorems.OutOfScopeKeepsItsFacts` | scripts/ingest_zoning_permits.py:954-955 | A parcel with a null centroid keeps its old zoning facts |
| `ZoningWitness.NullCentroidKeepsZoning` | scripts/ingest_zoning_permits.py:954-955 | From empty tables, a parcel is zoned, its geometry becomes one no point is found in, and it is zoned again: every run commits, it has no centroid, and it still holds the old zoning |
| `ZoningTheorems.ForeignFactsDoNotMatter` | scripts/ingest_zoning_permits.py:1016-1024 | Two states that agree on the zoning source's own live facts and on the parcels get the same facts written, whatever other sources hold |
| `ZoningTheorems.ZoningIsLocal` | scripts/ingest_zoning_permits.py:1016-1024 | A run leaves facts of other sources and exceptions of other detectors as they are |
| `ZoningTheorems.SecondRunIsIdle` | scripts/ingest_zoning_permits.py:1039-1187 | A second identical run changes neither facts nor exceptions nor parcels |
| `ZoningEffect.ZonedKeeps` | scripts/ingest_zoning_permits.py:1156-1187 | A committed zoning run keeps every invariant |
| `ZoningEffect.PairsAfterRun` | scripts/ingest_zoning_permits.py:879-917 | Open findings of every detector after a run |
| `ZoningRun.PlanZoning` | scripts/ingest_zoning_permits.py:929-1152 | Join, grouping, classification, diff and listing together depend on the bag of candidates only |
| `ZoningRun.CentroidStage` | scripts/ingest_zoning_permits.py:860-917 | The first stage leaves the recomputed points and the centroid exceptions inserted, then closed by exclusion, never relinked |
| `ZoningRun.WriteZoneFindings` | scripts/ingest_zoning_permits.py:1176-1187 | The second lifecycle closes by exclusion, inserts, then relinks |
| `ZoningRun.LoadZoning` | scripts/ingest_zoning_permits.py:799-1204 | The whole run commits iff no fault struck and every feature can be staged; then the tables are the zoned ones, else only its job_run row is added; every invariant is kept |
| `PermitRows.ReadRows` | scripts/ingest_zoning_permits.py:1240-1286 | The reading loop succeeds iff every row that says a status says Active and every joined row has a date, and groups the dates of each number |
| `PermitRows.DatesComeFromRows` | scripts/ingest_zoning_permits.py:1277-1277 | A date is grouped under a number iff some row with that number has it |
| `PermitMatch.IndexParcels` | scripts/ingest_zoning_permits.py:1295-1301 | The index holds one owner per number and marks exactly the numbers owned more than once |
| `PermitMatch.JoinParcels` | scripts/ingest_zoning_permits.py:1303-1321 | The join matches exactly the sole owners of numbers in the file, with the earliest date |
| `PermitMatch.RowsAreConserved` | scripts/ingest_zoning_permits.py:1303-1331 | Every row is counted exactly once as blank, not found, ambiguous or matched |
| `PermitsRun.RowConservation` | scripts/ingest_zoning_permits.py:1240-1332 | For any file and parcels, rows in equals blank plus not-found plus ambiguous plus matched |
| `PermitsRun.MatchedExactly` | scripts/ingest_zoning_permits.py:1295-1321 | A parcel is matched iff its number occurs in the file and no other parcel of the jurisdiction has it; its date is the minimum over exactly its rows |
| `PermitsRun.ReadAndJoin` | scripts/ingest_zoning_permits.py:1240-1332 | Reading and joining succeed iff the file is loadable; an empty file fails at the share of unmatched rows |
| `Permits.DiffParcel` | scripts/ingest_zoning_permits.py:1422-1492 | One candidate parcel: a match sets both fields; without a match nothing is planned |
| `Permits.DiffPermits` | scripts/ingest_zoning_permits.py:1419-1492 | The loop plans exactly the matched parcels' values, and marks as lost exactly the unmatched parcels with a live permit fact |
| `Permits.PermitFactsAfter` | scripts/ingest_zoning_permits.py:1419-1520 | Permit facts afterwards are what the match gives each field, or exactly the rows that were there; what that is, row by row of the file, is said by `PermitsOutcome.SeriesAfter` |
| `PermitsOutcome.SeriesAfter` | scripts/ingest_zoning_permits.py:1295-1321 | A parcel whose number no other parcel of the jurisdiction has and some row of the file has, once canonicalised and not empty, holds an active permit, and holds an earliest day iff some such row was issued on it and all of them on it or later; any other parcel keeps the very facts it has |
| `PermitsOutcome.LoadableExactly` | scripts/ingest_zoning_permits.py:1240-1286 | The file is accepted iff it has a row, every row says Active or has no such column, and every row with a number has a date |
| `PermitsOutcome.CountsSay` | scripts/ingest_zoning_permits.py:1306-1331 | The four counts are the numbers of rows without a number, with one no parcel of the jurisdiction has, with one several have, and with one exactly one has |
| `PermitsOutcome.OldFactAfter` | scripts/ingest_zoning_permits.py:1419-1492 | A fact that was there is the same row, unless it is live, about a parcel the file names, and not what the file says: then it has its end |
| `PermitsOutcome.NewFactAfter` | scripts/ingest_zoning_permits.py:1419-1492 | Every fact added says what the file says of a parcel it names and the ledger did not, cites the run and names exactly what was live |
| `PermitsOutcome.FindingsAfter` | scripts/ingest_zoning_permits.py:1522-1560 | The attribution-lost exceptions open are exactly, each for the one reason, the parcels with a live permit fact that the file does not name |
| `PermitsOutcome.OldExceptionAfter` | scripts/ingest_zoning_permits.py:1556-1560 | An exception row that was there is the same row, unless it is an open one of these about a parcel the file names: then it is closed by its own detector at that statement's time |
| `PermitsOutcome.NewExceptionAfter` | scripts/ingest_zoning_permits.py:1528-1553 | Every exception row added is open and of the one detector, type and reason |
| `PermitsTheorems.OpenIsExactlyUnattributed` | scripts/ingest_zoning_permits.py:1522-1560 | After a run the open attribution-lost exceptions are exactly the parcels with a live permit fact and no match |
| `PermitsTheorems.AbsenceNeverAsserts` | scripts/ingest_zoning_permits.py:1449-1457 | New permit facts are only about matched parcels; an unmatched parcel keeps its facts as the same rows; active is never false or removed |
| `PermitsTheorems.PermitsAreLocal` | scripts/ingest_zoning_permits.py:1357-1365 | A run leaves facts of other sources and exceptions of other detectors as they are |
| `PermitsTheorems.ForeignFactsDoNotMatter` | scripts/ingest_zoning_permits.py:1357-1365 | Two states that agree on the permits source's own live facts get the same facts written and the same parcels counted as lost or confirmed, whatever other sources hold |
| `PermitsTheorems.SecondRunIsIdle` | scripts/ingest_zoning_permits.py:1435-1560 | A second identical run changes nothing |
| `PermitsTheorems.PermittedKeeps` | scripts/ingest_zoning_permits.py:1510-1560 | A committed permits run keeps every invariant |
| `PermitsRun.WritePermitFindings` | scripts/ingest_zoning_permits.py:1522-1560 | The lifecycle inserts and relinks first, then closes the confirmed parcels |
| `PermitsRun.LoadPermits` | scripts/ingest_zoning_permits.py:1235-1571 | The whole run commits iff no fault struck and the file is loadable; then the tables are the permitted ones, else only its job_run row is added; every invariant is kept |
| `Fetch.EveryInterleaving` | scripts/ingest_parcels.py:384-443 | An invariant of every world that any interleaving of any number of fetches can reach, each possibly raising or dying anywhere |
| `Fetch.StepKeeps` | scripts/ingest_parcels.py:384-443 | Every atomic step of every process keeps that invariant |
| `Fetch.OneSecuredRowEach` | scripts/ingest_parcels.py:313-353 | At most one snapshot row per id, and its own run logged an upload and then a verification of it before the insert; what a verification is, is said by `Fetch.RecordedWasStored` and `Fetch.ConfirmReadsBack` |
| `Fetch.RecordedWasStored` | scripts/ingest_parcels.py:289-310 | Over any interleaving, a row for some bytes means that some earlier step of some run stored just those bytes under their key |
| `Fetch.ConfirmReadsBack` | scripts/ingest_parcels.py:299-310 | The check after an upload succeeds iff the last upload under the key, whoever made it, left just the bytes fetched; otherwise that run has failed for good, cites nothing, and records nothing |
| `Fetch.StatusSaysWhatHappened` | scripts/ingest_parcels.py:416-430 | A run finishes failed iff its own response was not 2xx, and otherwise succeeded iff its own insert took; either way it cites the snapshot of the bytes it got |
| `Fetch.NobodyWaits` | scripts/ingest_parcels.py:384-443 | From every world and whatever the others have done, a running process can end within six steps of its own, and cite a row iff the object it may have uploaded has not been replaced since |
| `Fetch.OneSuccessEach` | scripts/ingest_parcels.py:416-430 | At most one run per id reports succeeded, and it is the run that inserted the row |
| `Fetch.FinishedRunsCiteARow` | scripts/ingest_parcels.py:404-429 | Every finished run, whatever its status, cites a row that existed before it finished |
| `Fetch.ObjectIsFinalIff` | scripts/ingest_parcels.py:404-416 | A recorded snapshot's object is the same after every continuation of every interleaving iff no process that found the snapshot missing has still to upload it |
| `Fetch.ObjectIsTheLastUpload` | scripts/ingest_parcels.py:289-310 | The object behind a key is whatever the last upload under that key left there, over any interleaving |
| `Fetch.VerifiedObjectCanBeOverwritten` | scripts/ingest_parcels.py:404-416 | An interleaving in which a verified and cited object is replaced by a second run's unfaithful upload |
| `GoldenUuids.ReplaceUuids` | scripts/check_golden.py:674-701 | The recursive replacement numbers UUIDs by first appearance through the shared map, and its result is the value renamed by the map it leaves |
| `GoldenUuids.TokensDiffer` | scripts/check_golden.py:694-696 | Tokens of different numbers differ |
| `GoldenUuids.LaterNotesAreInvisible` | scripts/check_golden.py:692-697 | Later numbering never changes a value already tokenised, so the row may be tokenised before the fact links |
| `Golden.Normalize` | scripts/check_golden.py:716-755 | The loops compute what reading row and fact links as one text, tokenising it by one map and sorting gives; what comes out, column by column, is said by `GoldenOutcome.OutputIs` |
| `GoldenOutcome.VolatileIsInvisible` | scripts/check_golden.py:723-731 | Rows that differ only in the values of composed_at, delivered_at, retrieved_at and fetched_at (none null), in composer_version, and in compose_ms, source_calls, compute_cost_micros and storage_cost_micros or whether these are there, normalise equally |
| `GoldenOutcome.OutputIs` | scripts/check_golden.py:723-747 | Column by column: a timestamp comes out as a constant or null, the four unordered columns and the three of the payload with their lists sorted, every other with its UUIDs replaced, in order, and last a constant composer_version |
| `GoldenOutcome.LinksAre` | scripts/check_golden.py:749-753 | The fact links come out as their three entries, UUIDs replaced by the same table, sorted |
| `GoldenOutcome.NullTimestampShows` | scripts/check_golden.py:729-731 | A timestamp that is null on one side only shows |
| `GoldenOutcome.TextShows` | scripts/check_golden.py:739-747 | Two different texts that are no UUIDs show in every compared column that is neither a timestamp nor unordered |
| `GoldenOutcome.ColumnsShow` | scripts/check_golden.py:725-738 | Equal outputs have the same compared columns in the same order |
| `GoldenOutcome.EqualExactly` | scripts/check_golden.py:716-755 | With no look-alike tokens, two files normalise equally iff, their UUIDs paired by first appearance, each compared column of the one is that of the other: a timestamp by being there, the listed columns up to list order, the rest exactly; and so are the links |
| `GoldenOutcome.UuidIs` | scripts/check_golden.py:306-306 | A UUID is five groups of 8, 4, 4, 4 and 12 hex digits of either case between hyphens; one newline may follow |
| `GoldenOutcome.TokenIs` | scripts/check_golden.py:690-697 | The k-th UUID met is written as its number in decimal, without leading zeros, in the fixed frame |
| `GoldenSort.SortListsIsCanonical` | scripts/check_golden.py:704-713 | Two values sort to the same value iff they are equal up to the order of the lists in them, at every depth |
| `GoldenSort.SortListsSorts` | scripts/check_golden.py:704-713 | Every list that comes out, at every depth, is in order |
| `GoldenSort.SortListsKeeps` | scripts/check_golden.py:704-713 | What comes out is what went in up to the order of its lists, and sorting it again changes nothing |
| `Golden.SettledIsCanonical` | scripts/check_golden.py:740-747 | Two rows settle alike iff they agree exactly, with list order ignored only in the sorted fields and in those of the payload |
| `GoldenTheorems.EqualIffPairedByFirstAppearance` | scripts/check_golden.py:716-755 | With no look-alike tokens in either input, outputs are equal iff pairing the UUIDs of both inputs by first appearance carries one input to the other up to order in the sorted lists |
| `GoldenTheorems.EqualOutputsAreARenaming` | scripts/check_golden.py:674-701 | With no look-alike tokens, equal outputs imply an injective UUID renaming between the inputs, up to order in the sorted lists |
| `GoldenTheorems.RenamingIsInvisible` | scripts/check_golden.py:674-701 | Any injective renaming of UUIDs across both parts leaves the output equal |
| `GoldenTheorems.RepeatedRunsNormaliseEqually` | scripts/check_golden.py:723-753 | The same from the raw row, before columns are dropped and masked |
| `GoldenTheorems.LookAlikesCollide` | scripts/check_golden.py:690-697 | Without the look-alike guard the converse fails: a row holding a UUID and one holding the text of its token come out equal, and no renaming relates them |
| `GoldenTheorems.PairingIsARenaming` | scripts/check_golden.py:690-697 | Pairing by first appearance is itself an injective UUID renaming |
| `GoldenFacts.FreshLinksCompareByPlace` | scripts/check_golden.py:749-753 | Two runs whose rows differ by a UUID renaming and whose fact ids are fresh come out equal iff their links agree place by place on everything but the id |
| `GoldenFacts.ListOrderShowsThrough` | scripts/check_golden.py:739-753 | Exchanging two links with fresh ids is invisible iff they agree on everything but the id: list order is not fully normalised away |
| `Sorting.SortForgetsOrderOnly` | scripts/check_golden.py:704-713 | Sorting by a total order forgets the order of a list and nothing else |
| `Rights.EvaluateRightsGate` | core/rights.py:137-150 | The gate returns exactly the rows found, and under exactly the uncleared licences in use the fields touched, in order; no row and a denying row are the same answer |
| `Rights.AllowedIsCleared` | core/rights.py:141-148 | Reading the returned map with default deny asks for a row that allows |
| `Rights.GetParcelFacts` | api/main.py:602-704 | The viewer's two lists are the cleared and the uncleared facts in the order read |
| `RightsOutcome.ViewShows` | api/main.py:602-704 | The viewer shows, in the order read, exactly the facts whose licence has a row that allows the channel api, whole, and of every other one the field, the licence and the two summaries |
| `Rights.TheGateSplitsTheFacts` | api/main.py:641-704 | Permitted and omitted partition the touched facts, counted |
| `Rights.TheGateIsTheClearance` | core/rights.py:146-148 | Only facts under a licence with an allowing row pass |
| `Rights.RightsRefusals` | scripts/compose_property_file.py:723-730 | One refusal per blocked licence, licences and fields each in sorted order, no field lost or repeated |
| `Rights.OneGateTwoConsumers` | scripts/compose_property_file.py:723-730 | On the viewer's channel, how often a field is omitted under a licence is how often the composer's refusals name it |
| `Rights.NoBlocksIffAllPass` | scripts/compose_property_file.py:723-730 | There is no rights refusal iff every touched fact is cleared |
| `Rights.GateExceptionDetails` | api/main.py:392-422 | A detail is kept iff its detector maps to a source whose licence is cleared for the viewer; otherwise, and for any detector not listed, it is redacted; nothing else in a row changes |
| `RightsOutcome.DetailIsShownIff` | api/main.py:369-422 | A detail may be shown iff its detector is one of the seven mapped ones, the source the map gives it has a licence, and that licence has a row that allows the channel api |
| `Compose.ComposeFile` | scripts/compose_property_file.py:232-345 | Every exit: an unknown channel touches nothing; on a known one the connection is idle, a written file commits exactly one row and its links on top of the caller's pending work, and any other outcome discards that work |
| `Compose.ComposeInside` | scripts/compose_property_file.py:348-781 | With a fault at any statement, either the row and its links are committed or nothing is |
| `RightsOutcome.EndsBecause` | scripts/compose_property_file.py:329-720 | The first thing wrong decides how a composition ends: a channel other than the six, an election other than the two, an unknown parcel, a jurisdiction with a geometry tier; otherwise a file is written |
| `Compose.CollectRefusals` | scripts/compose_property_file.py:600-730 | Refusals accumulate stage by stage, and there is always at least one |
| `RightsOutcome.RefusalsSay` | scripts/compose_property_file.py:600-730 | A row refuses exactly what there is to refuse, arguments included: the boundary source and whether incorporation was said at all, an unsupported election by name, each uncleared licence in use with its fields in order and as often as touched; each once, stage by stage and licence by licence |
| `Compose.NothingIsNeverComposed` | scripts/compose_property_file.py:683-740 | Nothing composed is unreachable; a file is written iff the request is valid, the parcel exists and its jurisdiction has no geometry tier |
| `Compose.CodesSayWhatHappened` | scripts/compose_property_file.py:600-730 | The set of codes in a written row says exactly which conditions held |
| `Compose.RowsPassTheirChecks` | scripts/compose_property_file.py:742-767 | A written row has a refusal, and none that contradicts its election |
| `Compose.LinksAreTheTouchedFacts` | scripts/compose_property_file.py:769-774 | The links of a file name each touched fact once and no other |
| `Compose.FindIncorporated` | scripts/compose_property_file.py:640-648 | The boundary gate is satisfied iff the first jurisdiction.incorporated fact is true; an explicit false is not |
| `GeometryFlags.FlagParcelGeometry` | scripts/flag_invalid_geometry.py:231-291 | The whole run commits iff no fault struck; then the exceptions are flagged ones, else unchanged; nothing but exceptions and its job_run row is written |
| `GeometryFlags.FlaggedAreTheInvalid` | scripts/flag_invalid_geometry.py:248-277 | After a run exactly the parcels with invalid geometry have an open flag, one each |
| `GeometryFlags.FlagsAfter` | scripts/flag_invalid_geometry.py:239-277 | A parcel is flagged for a reason iff the database finds its stored geometry invalid and that is the reason it was flagged for before, or, if it was not, the one the database gives now |
| `GeometryFlags.OldRowAfter` | scripts/flag_invalid_geometry.py:264-277 | A row that was there is the same row, unless it is an open flag of a parcel that is not invalid: then it is closed |
| `GeometryFlags.NewRowAfter` | scripts/flag_invalid_geometry.py:248-263 | A row that is added is an open flag of an invalid parcel no row flagged, with the reason the database gives |
| `GeometryFlags.StaleReasonsExactly` | scripts/flag_invalid_geometry.py:249-263 | The open flags give the current reasons iff no flag open before names another reason for a parcel that is still invalid |
| `GeometryFlags.SecondFlaggingIsIdle` | scripts/flag_invalid_geometry.py:248-277 | A second run on the same parcels writes nothing |
| `GeometryFlags.PairsAfterFlagging` | scripts/flag_invalid_geometry.py:248-277 | Open findings of every detector after a run |

## Left out

- HTTP, object-store transfer, file parsing and hashing: a snapshot is a sequence of features or rows, and a digest stands for its bytes.
- PostGIS: geometry is opaque, and validity, repair, centroid, interior point and containment are parameters about which nothing is known.
- SQL text, paging, indexes, temporary tables and query plans; a SELECT is the set of rows it returns and a loop over it may visit them in any order.
- Loaders running at the same time as each other: each has its transaction to itself; only fetches are interleaved.
- Counts, metrics, progress output, `rows_in` and `rows_out`, and the text of messages and exception details other than the reason.
- Columns that are constants of a run (method, confidence, licence, source URL, jurisdiction, supersession reason) and the foreign keys from facts to snapshots, sources and licences.
- The three phases that demonstrate or report (`phase_b`'s two-fetch comparison, `phase_c`, `phase_d`), and the command lines.
- The bytes check in `verified_snapshot_file`: a load starts from features known to be the snapshot's.
- `flag_zoning_source_geometry`: the same lifecycle as `flag_parcel_geometry` but without a reason and with a file to read.
- `core/rules.py` and `core/calc.py` appear only as the answers `Compose` gets from them; choosing the effective rule is one query.
- The ranking of sources in `current_fact_at`: the composer and the viewer are given the rows it returns, and the ledger results speak of the rows it selects from.
- Whether `composer_version` has its expected shape: normalisation replaces it by a constant either way.
- `Golden.Normalize`: dictionaries are compared with the order of their keys, which is fixed by the code that builds them; the original's final comparison ignores it. A date in the row is its ISO text already, and a row without a `composer_version` column, on which the original raises, is excluded.
- `GoldenSort.SortListsIsCanonical`: the text order of items is a parameter, used only as a total order that tells values apart; for dictionaries that differ in key order alone the original's sort key does not tell them apart.
- `Classification.AnomalyMeans`: the facilities and the conflicting strings of an anomaly are a multiset and a set; the original sorts both lists, which fails when some facility identifier is missing, and writes the anomaly into an exception detail that is not modelled.
- `Fetch.OneSuccessEach`: a process that dies mid-run leaves its job row running; restarts are new processes.
- `Fetch.StepKeeps`: reading an object's size and reading its bytes back are one atomic step, so a change of the object between the two is not among the interleavings.
- `Database.Connection.CloseResolvedExceptions`: one clock reading serves all rows a closing UPDATE touches, here and in the other two closing operations; the original calls `clock_timestamp()` for each row, so rows of one statement may differ in their closing instants.
- `Runs.ShortcutIsSound`: it speaks of a history whose last reconcile was of the snapshot; which job rows show that, and that a mere fetch does not, is said by `JobLog.AnchoredShortcutIsSound` and `ParcelsShortcut.FetchedSnapshotIsSkipped`.
- `JobLog.AnchorAlwaysHolds`: runs follow each other, so no row is still running when another starts, and each snapshot identifier stands for one parsed file fetched at one time.
- `GeometryFlags.FlagParcelGeometry`: it is not one of the runs that `Runs` interleaves.
- `Compose.ComposeFile`: what the queries find is given at once; facts written by others between two of its statements are not modelled.
