/** The tables the ingest scripts read and write, as values.

    A table whose rows are appended and then edited in place (`fact`,
    `parcel_exception`, `job_run`) is a sequence, and a row's identifier is its
    position: a uuid is only ever used here as a name that no earlier row has.
    A table that is looked up by its key (`source_feature_identity`, `parcel`)
    is a map. */
module Schema {
  datatype Option<+T> = None | Some(value: T)

  type ParcelId = nat
  type FeatureId = string
  type Time = nat
  type Day = int

  datatype Source = ParcelsSource | ZoningSource | PermitsSource | OtherSource(name: string)

  datatype Field =
    | Apn
    | GeometryField
    | SourceParcelId
    | ZoningDistrict
    | ZoningVerbatim
    | PermitsActive
    | PermitsEarliest
    | OtherField(name: string)

  /** `snapshot.id`: fixed by the source and by the digest of the bytes. */
  datatype SnapshotId = SnapshotId(source: Source, digest: string)

  datatype GeometryType = Polygon | MultiPolygon | OtherType(name: string)

  datatype Geometry = Geometry(kind: GeometryType, coordinates: string)

  /** The `geometry` member of a GeoJSON feature. */
  datatype GeometryProperty = Missing | Null | Present(geometry: Geometry)

  datatype Value = Text(text: string) | Shape(shape: Geometry) | Flag(flag: bool) | Date(day: Day) | JsonNull

  // ------------------------------------------------------------------ fact

  /** What `fact_one_current_per_source` is unique on. */
  datatype Key = Key(parcel: ParcelId, field: Field, source: Source)

  datatype Fact = Fact(
    key: Key,
    value: Value,
    snapshot: SnapshotId,
    effectiveFrom: Time,
    verbatim: Option<string>,
    recordedAt: Time,
    supersedes: Option<nat>,
    supersededAt: Option<Time>)

  /** A `core.model.Fact` on its way into the table.  `unwritten` names those of
      the nine columns `insert_facts` does not write that the caller has set. */
  datatype NewFact = NewFact(
    key: Key,
    value: Value,
    snapshot: SnapshotId,
    effectiveFrom: Time,
    verbatim: Option<string>,
    supersedes: Option<nat>,
    unwritten: set<string>)

  // ------------------------------------------------------------------ parcel_exception

  datatype DetectorKey =
    | ApnUnresolvable
    | GeometryDeclaredGap
    | ParcelDisappeared
    | ZoningUnresolvable
    | CentroidNotInterior
    | PermitAttributionLost
    | ParcelGeometryInvalid
    | OtherDetector(name: string)

  datatype Version = Version(major: nat, minor: nat)

  datatype Detector = Detector(key: DetectorKey, version: Version)

  datatype ExceptionType = CoverageGap | RecordToGround

  /** `detail ->> 'reason'`. */
  datatype Reason =
    | BlankApn
    | PlaceholderApn
    | NullGeometry
    | NonPolygonal(kind: string)
    | AbsentFromSnapshot
    | NoContainingDistrict
    | MultipleContainingDistricts
    | MultiplePolygonsAgree
    | CentroidNotInteriorAfterFallback
    | NoFreshApnMatch
    | OtherReason(text: string)

  datatype Outcome = ConditionCleared | VersionRetired | OtherOutcome(name: string)

  datatype Actor = ByDetector(key: DetectorKey) | DetectorVersionRetired | OtherActor(name: string)

  /** `outcome`, `resolved_at` and `resolved_by` together: an open row has neither of
      the last two and any other row has both (0015). */
  datatype Status = Open | Closed(outcome: Outcome, at: Time, actor: Actor)

  datatype ExceptionRow = ExceptionRow(
    parcel: ParcelId,
    detector: Detector,
    kind: ExceptionType,
    reason: Option<Reason>,
    status: Status,
    reopenedFrom: Option<nat>)

  datatype NewException = NewException(
    parcel: ParcelId,
    detector: Detector,
    kind: ExceptionType,
    reason: Option<Reason>,
    rulesetVersion: Option<string>)

  // ------------------------------------------------------------------ parcel, source_feature_identity

  datatype Jurisdiction = SanJose | OtherJurisdiction(name: string)

  datatype Point = Point(coordinates: string)

  /** `apn`, `geom` and `centroid` are caches of the ledger (0034). */
  datatype Parcel = Parcel(
    jurisdiction: Jurisdiction,
    apn: Option<string>,
    geom: Option<Geometry>,
    centroid: Option<Point>)

  /** A `source_feature_identity` row of the parcels source. */
  datatype Identity = Identity(
    parcel: ParcelId,
    firstSeenSnapshot: SnapshotId,
    firstSeenAt: Time,
    lastSeenSnapshot: SnapshotId,
    lastSeenAt: Time,
    retiredSnapshot: Option<SnapshotId>,
    retiredAt: Option<Time>,
    retirementReason: Option<string>)

  // ------------------------------------------------------------------ job_run

  datatype JobKey = FetchParcels | FullLoad | ZoningLoad | PermitsLoad | OtherJob(name: string)

  datatype JobStatus = Running | Succeeded | SkippedUnchanged | Failed

  datatype JobRun = JobRun(
    key: JobKey,
    source: Source,
    status: JobStatus,
    snapshot: Option<SnapshotId>,
    startedAt: Time,
    finishedAt: Option<Time>)

  datatype Tables = Tables(
    facts: seq<Fact>,
    exceptions: seq<ExceptionRow>,
    identities: map<FeatureId, Identity>,
    parcels: map<ParcelId, Parcel>,
    jobs: seq<JobRun>)
}
