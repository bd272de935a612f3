/** Composing a property file: what it refuses, what it writes, and how it leaves the connection. */
module Compose {
  import opened Schema
  import opened Sorting
  import opened Rights

  const KNOWN_ELECTIONS: set<string> := {"city", "state"}
  const INCORPORATED := "jurisdiction.incorporated"

  datatype Refusal =
    | LicenceUnknown(boundarySource: string, present: bool)
    | GeometryTierDisabled
    | ParcelNoFacts
    | ElectionRequired
    | ElectionNotSupported(election: string)
    | RuleUnavailable
    | RightsBlocked(licence: Licence, fields: seq<string>)

  datatype Request = Request(parcel: ParcelId, channel: Channel, election: Option<string>, pinnedAsOf: bool)

  /** A jurisdiction's row: its geometry tier, and the source it names for its boundary, if any. */
  datatype Settings = Settings(geometryTier: bool, boundarySource: Option<string>)

  /** What the queries of one composition find. */
  datatype World = World(
    parcels: map<ParcelId, Jurisdiction>,
    settings: map<Jurisdiction, Settings>,
    rule: Option<string>,
    touched: seq<Touched>,
    clearances: Clearances)

  datatype PropertyFile = PropertyFile(id: nat, parcel: ParcelId, channel: Channel, election: Option<string>,
                                       geometryTierUsed: bool, refusals: seq<Refusal>)

  /** A `property_file_fact` row; its use is always `input`. */
  datatype Link = Link(file: nat, fact: nat, parcel: ParcelId)

  /** The two tables written here, and whatever else the caller writes on the same connection. */
  datatype Store = Store(files: seq<PropertyFile>, links: seq<Link>, others: seq<string>)

  datatype Transaction = Idle | InProgress | Broken

  datatype Outcome =
    | Written(file: nat)
    | ReferenceUnknown
    | NothingComposed
    | BadChannel
    | BadElection
    | NotImplemented
    | DatabaseError

  class Session {
    var transaction: Transaction
    var working: Store
    var committed: Store

    /** Nothing is pending outside a transaction. */
    ghost predicate Sound()
      reads this
    {
      transaction == Idle ==> working == committed
    }

    constructor (store: Store)
      ensures transaction == Idle && working == committed == store && Sound()
    {
      transaction, working, committed := Idle, store, store;
    }

    /** One statement: it opens a transaction, and fails in a broken one or where the fault is. */
    method Execute(step: nat, fault: Option<nat>) returns (ok: bool)
      modifies `transaction
      ensures ok <==> old(transaction) != Broken && fault != Some(step)
      ensures transaction == if ok then InProgress else Broken
    {
      ok := transaction != Broken && fault != Some(step);
      transaction := if ok then InProgress else Broken;
    }

    method Commit()
      modifies this
      ensures transaction == Idle && committed == working == old(working)
    {
      committed, transaction := working, Idle;
    }

    method Rollback()
      modifies this
      ensures transaction == Idle && working == committed == old(committed)
    {
      working, transaction := committed, Idle;
    }
  }

  // ------------------------------------------------------------------ what is refused

  /** The first `jurisdiction.incorporated` fact touched. */
  function Incorporated(touched: seq<Touched>): Option<Value> {
    if touched == [] then None
    else if touched[0].field == INCORPORATED then Some(touched[0].value)
    else Incorporated(touched[1..])
  }

  method FindIncorporated(touched: seq<Touched>) returns (present: bool, satisfied: bool)
    ensures present == Incorporated(touched).Some?
    ensures satisfied == (Incorporated(touched) == Some(Flag(true)))
  {
    present, satisfied := false, false;
    for i := 0 to |touched|
      invariant Incorporated(touched) == Incorporated(touched[i..]) && !present && !satisfied
    {
      assert touched[i..][1..] == touched[i + 1..];
      if touched[i].field == INCORPORATED { return true, touched[i].value == Flag(true); }
    }
  }

  function BoundaryRefusals(settings: Settings, touched: seq<Touched>): seq<Refusal> {
    if settings.boundarySource.Some? && Incorporated(touched) != Some(Flag(true))
    then [LicenceUnknown(settings.boundarySource.value, Incorporated(touched).Some?)] else []
  }

  /** Only the city's standards have a rule key; the state's have none yet. */
  function ElectionRefusals(election: Option<string>, rule: Option<string>): seq<Refusal> {
    match election
    case None => [ElectionRequired]
    case Some(e) => if e != "city" then [ElectionNotSupported(e)] else if rule.None? then [RuleUnavailable] else []
  }

  /** Every refusal before the rights gate, stage by stage; none cuts a later one short. */
  function StageRefusals(request: Request, settings: Settings, world: World): seq<Refusal> {
    BoundaryRefusals(settings, world.touched)
    + [GeometryTierDisabled]
    + (if world.touched == [] then [ParcelNoFacts] else [])
    + ElectionRefusals(request.election, world.rule)
  }

  function AsRefusals(blocks: seq<Block>): (r: seq<Refusal>)
    ensures |r| == |blocks|
  {
    seq(|blocks|, i requires 0 <= i < |blocks| => RightsBlocked(blocks[i].licence, blocks[i].fields))
  }

  /** The stages' refusals, then one for each licence the gate blocks. */
  ghost predicate FullyRefused(request: Request, settings: Settings, world: World, refusals: seq<Refusal>) {
    exists allowed, blocked, blocks ::
      && GateAnswers(world.clearances, request.channel, world.touched, allowed, blocked)
      && Blocks(blocked, blocks)
      && refusals == StageRefusals(request, settings, world) + AsRefusals(blocks)
  }

  function LinksFor(file: nat, parcel: ParcelId, touched: seq<Touched>): (r: seq<Link>)
    ensures |r| == |touched|
  {
    seq(|touched|, i requires 0 <= i < |touched| => Link(file, touched[i].fact, parcel))
  }

  /** The store with one file and its links added. */
  function WithFile(store: Store, file: PropertyFile, touched: seq<Touched>): Store {
    store.(files := store.files + [file], links := store.links + LinksFor(file.id, file.parcel, touched))
  }

  /** Rows the queries rely on: every parcel's jurisdiction exists. */
  ghost predicate WellFormed(world: World) {
    forall p :: p in world.parcels ==> world.parcels[p] in world.settings
  }

  /** The file that composing this request writes, up to the refusals the rights gate adds. */
  ghost predicate FileFor(request: Request, world: World, id: nat, file: PropertyFile)
    requires WellFormed(world) && request.parcel in world.parcels
  {
    var settings := world.settings[world.parcels[request.parcel]];
    && file == PropertyFile(id, request.parcel, request.channel, request.election, settings.geometryTier, file.refusals)
    && FullyRefused(request, settings, world, file.refusals)
  }

  /** How composing ends when no statement fails. */
  function Expected(request: Request, world: World, id: nat): Outcome
    requires WellFormed(world)
  {
    if request.channel !in KNOWN_CHANNELS then BadChannel
    else if request.election.Some? && request.election.value !in KNOWN_ELECTIONS then BadElection
    else if request.parcel !in world.parcels then ReferenceUnknown
    else if world.settings[world.parcels[request.parcel]].geometryTier then NotImplemented
    else Written(id)
  }

  // ------------------------------------------------------------------ the composition

  /** Everything between the boundary checks and the connection's clean-up. */
  method ComposeInside(session: Session, request: Request, world: World, id: nat, fault: Option<nat>)
      returns (outcome: Outcome, ghost file: Option<PropertyFile>)
    requires WellFormed(world) && request.channel in KNOWN_CHANNELS && session.Sound()
    modifies session
    ensures session.Sound()
    ensures outcome.Written? == file.Some?
    ensures outcome.Written? ==>
      && outcome == Written(id) && request.parcel in world.parcels && FileFor(request, world, id, file.value)
      && session.working == session.committed == WithFile(old(session.working), file.value, world.touched)
      && session.transaction == Idle
    ensures !outcome.Written? ==> session.committed == old(session.committed)
    ensures outcome in {Expected(request, world, id), DatabaseError}
    ensures fault.None? && old(session.transaction) != Broken ==> outcome == Expected(request, world, id)
  {
    file := None;
    if request.election.Some? && request.election.value !in KNOWN_ELECTIONS { return BadElection, file; }
    var ok := true;
    if !request.pinnedAsOf { ok := session.Execute(0, fault); }
    if !ok { return DatabaseError, file; }
    ok := session.Execute(1, fault);
    if !ok { return DatabaseError, file; }
    if request.parcel !in world.parcels { return ReferenceUnknown, file; }
    ok := session.Execute(2, fault);
    if !ok { return DatabaseError, file; }
    var settings := world.settings[world.parcels[request.parcel]];
    if request.election == Some("city") { ok := session.Execute(3, fault); }
    if !ok { return DatabaseError, file; }
    ok := session.Execute(4, fault);
    if !ok { return DatabaseError, file; }
    ok := session.Execute(5, fault);
    if !ok { return DatabaseError, file; }
    var allowed, blocked := EvaluateRightsGate(world.clearances, world.touched, request.channel);
    if settings.geometryTier { return NotImplemented, file; }
    var refusals := CollectRefusals(request, settings, world, allowed, blocked);
    if refusals == [] { return NothingComposed, file; }
    var row := PropertyFile(id, request.parcel, request.channel, request.election, settings.geometryTier, refusals);
    ok := WriteFile(session, row, world.touched, fault);
    if !ok { return DatabaseError, file; }
    return Written(id), Some(row);
  }

  method CollectStages(request: Request, settings: Settings, world: World) returns (refusals: seq<Refusal>)
    ensures refusals == StageRefusals(request, settings, world)
  {
    refusals := [];
    var present, satisfied := FindIncorporated(world.touched);
    if settings.boundarySource.Some? && !satisfied {
      refusals := refusals + [LicenceUnknown(settings.boundarySource.value, present)];
    }
    refusals := refusals + [GeometryTierDisabled];
    if world.touched == [] { refusals := refusals + [ParcelNoFacts]; }
    match request.election {
      case None => refusals := refusals + [ElectionRequired];
      case Some(e) =>
        if e != "city" {
          refusals := refusals + [ElectionNotSupported(e)];
        } else if world.rule.None? {
          refusals := refusals + [RuleUnavailable];
        }
    }
  }

  method CollectRefusals(request: Request, settings: Settings, world: World,
                         allowed: map<Licence, bool>, blocked: map<Licence, seq<string>>)
      returns (refusals: seq<Refusal>)
    requires GateAnswers(world.clearances, request.channel, world.touched, allowed, blocked)
    ensures FullyRefused(request, settings, world, refusals) && refusals != []
  {
    refusals := CollectStages(request, settings, world);
    var blocks := RightsRefusals(blocked);
    refusals := refusals + AsRefusals(blocks);
    assert FullyRefused(request, settings, world, refusals);
  }

  method WriteFile(session: Session, row: PropertyFile, touched: seq<Touched>, fault: Option<nat>) returns (ok: bool)
    requires session.transaction == InProgress
    modifies session
    ensures ok ==> session.transaction == Idle
    ensures ok ==> session.working == session.committed == WithFile(old(session.working), row, touched)
    ensures !ok ==> session.transaction == Broken && session.committed == old(session.committed) && fault.Some?
  {
    ok := session.Execute(6, fault);
    if !ok { return; }
    session.working := session.working.(files := session.working.files + [row]);
    if touched != [] { ok := session.Execute(7, fault); }
    if !ok { return; }
    session.working := session.working.(links := session.working.links + LinksFor(row.id, row.parcel, touched));
    ok := session.Execute(8, fault);
    if !ok { return; }
    session.Commit();
  }

  /** What a caller sees of one composition, whatever the database does. */
  ghost predicate CleanExit(request: Request, world: World, id: nat, outcome: Outcome, file: Option<PropertyFile>,
                            pending: Store, before: Store, transaction: Transaction, after: Store, committed: Store)
    requires WellFormed(world)
  {
    && transaction == Idle && after == committed
    && outcome.Written? == file.Some?
    && (outcome.Written? ==> request.parcel in world.parcels && FileFor(request, world, id, file.value)
                             && committed == WithFile(pending, file.value, world.touched))
    && (!outcome.Written? ==> committed == before)
  }

  method ComposeFile(session: Session, request: Request, world: World, id: nat, fault: Option<nat>)
      returns (outcome: Outcome, ghost file: Option<PropertyFile>)
    requires WellFormed(world) && session.Sound()
    modifies session
    ensures request.channel !in KNOWN_CHANNELS ==> outcome == BadChannel && unchanged(session)
    ensures request.channel in KNOWN_CHANNELS ==>
      CleanExit(request, world, id, outcome, file, old(session.working), old(session.committed),
                session.transaction, session.working, session.committed)
    ensures outcome in {Expected(request, world, id), DatabaseError}
    ensures fault.None? && old(session.transaction) != Broken ==> outcome == Expected(request, world, id)
  {
    if request.channel !in KNOWN_CHANNELS { return BadChannel, None; }
    outcome, file := ComposeInside(session, request, world, id, fault);
    if session.transaction != Idle { session.Rollback(); }
  }

  // ------------------------------------------------------------------ what the contracts add up to

  /** "Nothing composed" is never the answer: the geometry stage refuses or raises on every path to it. */
  lemma NothingIsNeverComposed(request: Request, world: World, id: nat)
    requires WellFormed(world)
    ensures Expected(request, world, id) != NothingComposed
    ensures Expected(request, world, id).Written? <==>
      && request.channel in KNOWN_CHANNELS && request.parcel in world.parcels
      && (request.election.Some? ==> request.election.value in KNOWN_ELECTIONS)
      && !world.settings[world.parcels[request.parcel]].geometryTier
  {
  }

  datatype Code =
    | LicenceUnknownCode
    | GeometryTierDisabledCode
    | ParcelNoFactsCode
    | ElectionRequiredCode
    | ElectionNotSupportedCode
    | RuleUnavailableCode
    | RightsBlockedCode

  function CodeOf(r: Refusal): Code {
    match r
    case LicenceUnknown(_, _) => LicenceUnknownCode
    case GeometryTierDisabled => GeometryTierDisabledCode
    case ParcelNoFacts => ParcelNoFactsCode
    case ElectionRequired => ElectionRequiredCode
    case ElectionNotSupported(_) => ElectionNotSupportedCode
    case RuleUnavailable => RuleUnavailableCode
    case RightsBlocked(_, _) => RightsBlockedCode
  }

  function Codes(refusals: seq<Refusal>): set<Code> {
    set i | 0 <= i < |refusals| :: CodeOf(refusals[i])
  }

  function When(condition: bool, code: Code): set<Code> {
    if condition then {code} else {}
  }

  lemma CodesConcat(a: seq<Refusal>, b: seq<Refusal>)
    ensures Codes(a + b) == Codes(a) + Codes(b)
  {
    var c := a + b;
    forall i | 0 <= i < |a| ensures CodeOf(a[i]) in Codes(c) { assert c[i] == a[i]; }
    forall i | 0 <= i < |b| ensures CodeOf(b[i]) in Codes(c) { assert c[|a| + i] == b[i]; }
  }

  lemma OneCode(r: Refusal)
    ensures Codes([r]) == {CodeOf(r)}
  {
    assert CodeOf([r][0]) in Codes([r]);
  }

  /** The codes in a row say exactly which conditions held. */
  lemma CodesSayWhatHappened(request: Request, settings: Settings, world: World, refusals: seq<Refusal>)
    requires FullyRefused(request, settings, world, refusals)
    ensures Codes(refusals) ==
      {GeometryTierDisabledCode}
      + When(settings.boundarySource.Some? && Incorporated(world.touched) != Some(Flag(true)), LicenceUnknownCode)
      + When(world.touched == [], ParcelNoFactsCode)
      + When(request.election.None?, ElectionRequiredCode)
      + When(request.election.Some? && request.election.value != "city", ElectionNotSupportedCode)
      + When(request.election == Some("city") && world.rule.None?, RuleUnavailableCode)
      + When(exists i :: 0 <= i < |world.touched| && !Cleared(world.clearances, world.touched[i].licence, request.channel),
             RightsBlockedCode)
  {
    var allowed, blocked, blocks :|
      && GateAnswers(world.clearances, request.channel, world.touched, allowed, blocked)
      && Blocks(blocked, blocks)
      && refusals == StageRefusals(request, settings, world) + AsRefusals(blocks);
    NoBlocksIffAllPass(world.clearances, request.channel, world.touched, allowed, blocked, blocks);
    CodesConcat(StageRefusals(request, settings, world), AsRefusals(blocks));
    RightsCodes(blocks);
    StageCodes(request, settings, world);
  }

  lemma RightsCodes(blocks: seq<Block>)
    ensures Codes(AsRefusals(blocks)) == When(blocks != [], RightsBlockedCode)
  {
    if blocks != [] { assert CodeOf(AsRefusals(blocks)[0]) in Codes(AsRefusals(blocks)); }
  }

  lemma StageCodes(request: Request, settings: Settings, world: World)
    ensures Codes(StageRefusals(request, settings, world)) ==
      {GeometryTierDisabledCode}
      + When(settings.boundarySource.Some? && Incorporated(world.touched) != Some(Flag(true)), LicenceUnknownCode)
      + When(world.touched == [], ParcelNoFactsCode)
      + When(request.election.None?, ElectionRequiredCode)
      + When(request.election.Some? && request.election.value != "city", ElectionNotSupportedCode)
      + When(request.election == Some("city") && world.rule.None?, RuleUnavailableCode)
  {
    var boundary, elections := BoundaryRefusals(settings, world.touched), ElectionRefusals(request.election, world.rule);
    var facts := if world.touched == [] then [ParcelNoFacts] else [];
    CodesConcat(boundary + [GeometryTierDisabled] + facts, elections);
    CodesConcat(boundary + [GeometryTierDisabled], facts);
    CodesConcat(boundary, [GeometryTierDisabled]);
    OneCode(GeometryTierDisabled);
    OneCode(ParcelNoFacts);
    if boundary != [] { OneCode(boundary[0]); }
    if elections != [] { OneCode(elections[0]); }
  }

  lemma AmongAll(codes: set<Code>, unknown: bool, factless: bool, unelected: bool, unsupported: bool, unruled: bool, blocked: bool)
    requires codes == {GeometryTierDisabledCode} + When(unknown, LicenceUnknownCode) + When(factless, ParcelNoFactsCode)
      + When(unelected, ElectionRequiredCode) + When(unsupported, ElectionNotSupportedCode) + When(unruled, RuleUnavailableCode)
      + When(blocked, RightsBlockedCode)
    ensures GeometryTierDisabledCode in codes
    ensures (ElectionRequiredCode in codes <==> unelected) && (ElectionNotSupportedCode in codes <==> unsupported)
  {
  }

  lemma ElectionCodes(request: Request, settings: Settings, world: World, refusals: seq<Refusal>)
    requires FullyRefused(request, settings, world, refusals)
    ensures GeometryTierDisabledCode in Codes(refusals)
    ensures ElectionRequiredCode in Codes(refusals) <==> request.election.None?
    ensures ElectionNotSupportedCode in Codes(refusals) <==> request.election.Some? && request.election.value != "city"
  {
    CodesSayWhatHappened(request, settings, world, refusals);
    AmongAll(Codes(refusals),
             settings.boundarySource.Some? && Incorporated(world.touched) != Some(Flag(true)), world.touched == [],
             request.election.None?, request.election.Some? && request.election.value != "city",
             request.election == Some("city") && world.rule.None?,
             exists i :: 0 <= i < |world.touched| && !Cleared(world.clearances, world.touched[i].licence, request.channel));
  }

  /** A row always passes the table's own checks: it has a reason, and no reason contradicts the election. */
  lemma RowsPassTheirChecks(request: Request, world: World, id: nat, file: PropertyFile)
    requires WellFormed(world) && request.parcel in world.parcels && FileFor(request, world, id, file)
    ensures file.refusals != []
    ensures !(ElectionRequiredCode in Codes(file.refusals) && file.election.Some?)
    ensures !(ElectionNotSupportedCode in Codes(file.refusals) && file.election.None?)
  {
    ElectionCodes(request, world.settings[world.parcels[request.parcel]], world, file.refusals);
  }

  /** The links of a written file name each touched fact once, and no other fact. */
  lemma LinksAreTheTouchedFacts(store: Store, file: PropertyFile, touched: seq<Touched>, fact: nat)
    requires forall i, j :: 0 <= i < j < |touched| ==> touched[i].fact != touched[j].fact
    requires forall i :: 0 <= i < |store.links| ==> store.links[i].file != file.id
    ensures var links := WithFile(store, file, touched).links;
      && (Link(file.id, fact, file.parcel) in links <==> exists i :: 0 <= i < |touched| && touched[i].fact == fact)
      && (forall i, j :: 0 <= i < j < |links| && links[i].file == links[j].file == file.id ==> links[i].fact != links[j].fact)
  {
    var links, ours := WithFile(store, file, touched).links, LinksFor(file.id, file.parcel, touched);
    if exists i :: 0 <= i < |touched| && touched[i].fact == fact {
      var i :| 0 <= i < |touched| && touched[i].fact == fact;
      assert ours[i] == Link(file.id, fact, file.parcel) && links[|store.links| + i] == ours[i];
    }
    if Link(file.id, fact, file.parcel) in links {
      var k :| 0 <= k < |links| && links[k] == Link(file.id, fact, file.parcel);
      assert links[k] == ours[k - |store.links|];
    }
  }
}
