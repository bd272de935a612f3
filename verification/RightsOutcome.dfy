/** What the rights gate's readers show, and what a composition refuses, in terms of the rows they read. */
module RightsOutcome {
  import opened Schema
  import opened Sorting
  import opened Rights
  import opened Compose

  /** The table has an explicit row that allows. */
  predicate Allows(table: Clearances, licence: Licence, channel: Channel) {
    (licence, channel) in table && table[(licence, channel)]
  }

  // ------------------------------------------------------------------ the viewer's two lists

  predicate Rising(places: seq<nat>) {
    forall j, k :: 0 <= j < k < |places| ==> places[j] < places[k]
  }

  /** These are the places of the facts whose licence the channel allows, or of those it does not. */
  ghost predicate PlacesOf(table: Clearances, channel: Channel, touched: seq<Touched>, places: seq<nat>, allowed: bool) {
    && Rising(places)
    && forall i: nat :: i in places <==> i < |touched| && Allows(table, touched[i].licence, channel) == allowed
  }

  lemma OnePlaceMore(table: Clearances, channel: Channel, touched: seq<Touched>, t: Touched, places: seq<nat>, allowed: bool)
    requires PlacesOf(table, channel, touched, places, allowed)
    ensures PlacesOf(table, channel, touched + [t],
                     places + if Allows(table, t.licence, channel) == allowed then [|touched|] else [], allowed)
  {
    assert forall k :: 0 <= k < |places| ==> places[k] in places;
  }

  /** Which facts pass and which are stopped, and where in the list they were. */
  lemma {:induction false} GatePlaces(table: Clearances, channel: Channel, touched: seq<Touched>)
    returns (passed: seq<nat>, stopped: seq<nat>)
    ensures PlacesOf(table, channel, touched, passed, true) && PlacesOf(table, channel, touched, stopped, false)
    ensures var p := Passing(table, channel, touched);
      |passed| == |p| && forall k :: 0 <= k < |p| ==> passed[k] < |touched| && p[k] == touched[passed[k]]
    ensures var s := Stopped(table, channel, touched);
      |stopped| == |s| && forall k :: 0 <= k < |s| ==> stopped[k] < |touched| && s[k] == touched[stopped[k]]
    decreases |touched|
  {
    passed, stopped := [], [];
    if touched != [] {
      var before, t := touched[..|touched| - 1], touched[|touched| - 1];
      var ps, ss := GatePlaces(table, channel, before);
      OnePlaceMore(table, channel, before, t, ps, true);
      OnePlaceMore(table, channel, before, t, ss, false);
      assert before + [t] == touched;
      passed := ps + if Allows(table, t.licence, channel) == true then [|before|] else [];
      stopped := ss + if Allows(table, t.licence, channel) == false then [|before|] else [];
    }
  }

  /** What a licence's terms amount to: anything unknown comes first, then anything prohibited. */
  ghost predicate IsPosition(t: Terms, position: Position) {
    var known := t.commercialUse != Standing.Unknown && t.redistribution != Standing.Unknown && t.restriction != UnknownRestriction;
    var prohibited := t.commercialUse == Prohibited || t.redistribution == Prohibited;
    && (position == PositionUnknown <==> !known)
    && (position == ProhibitsUse <==> known && prohibited)
    && (position == PermitsUse <==> known && !prohibited && t.restriction == OpenRestriction)
    && (position == PermitsWithConditions <==> known && !prohibited && t.restriction.OtherRestriction?)
  }

  /** Who cleared it and on what evidence: a clearance without evidence is not the same as one with it. */
  ghost predicate IsDiligence(t: Terms, diligence: Diligence) {
    && (diligence == Pending <==> t.clearedBy.None?)
    && (diligence == ClearedUnevidenced <==> t.clearedBy.Some? && t.evidence.None?)
    && (diligence == ClearedWithEvidence <==> t.clearedBy.Some? && t.evidence.Some?)
  }

  ghost predicate Shows(terms: map<Licence, Terms>, t: Touched, shown: ShownFact) {
    && shown.source == t && t.licence in terms
    && IsPosition(terms[t.licence], shown.position) && IsDiligence(terms[t.licence], shown.diligence)
  }

  ghost predicate LeavesOut(terms: map<Licence, Terms>, t: Touched, left: OmittedFact) {
    && left.field == t.field && left.licence == t.licence && t.licence in terms
    && IsPosition(terms[t.licence], left.position) && IsDiligence(terms[t.licence], left.diligence)
  }

  /** The viewer shows, in the order read, the facts whose licence allows the channel "api", whole; of every other fact
      it says the field, the licence and the two summaries of its terms. */
  lemma ViewShows(terms: map<Licence, Terms>, table: Clearances, touched: seq<Touched>,
                  permitted: seq<ShownFact>, omitted: seq<OmittedFact>) returns (passed: seq<nat>, stopped: seq<nat>)
    requires Described(terms, touched) && Viewed(terms, table, touched, permitted, omitted)
    ensures PlacesOf(table, "api", touched, passed, true) && PlacesOf(table, "api", touched, stopped, false)
    ensures |passed| == |permitted| && |stopped| == |omitted|
    ensures forall k :: 0 <= k < |permitted| ==> passed[k] < |touched| && Shows(terms, touched[passed[k]], permitted[k])
    ensures forall k :: 0 <= k < |omitted| ==> stopped[k] < |touched| && LeavesOut(terms, touched[stopped[k]], omitted[k])
  {
    passed, stopped := GatePlaces(table, "api", touched);
    forall k | 0 <= k < |permitted| ensures permitted[k] == Show(terms, Passing(table, "api", touched)[k]) { }
    forall k | 0 <= k < |omitted| ensures omitted[k] == Omit(terms, Stopped(table, "api", touched)[k]) { }
  }

  // ------------------------------------------------------------------ exception details

  /** Whose values a detector's details hold. */
  ghost predicate Governs(source: string, key: DetectorKey) {
    || (source == "ca_san_jose.parcels" && key in {ParcelGeometryInvalid, ApnUnresolvable, ParcelDisappeared, CentroidNotInterior})
    || (source == "ca_san_jose.zoning_districts" && key in {ZoningUnresolvable, OtherDetector("zoning_source_geometry_invalid")})
    || (source == "ca_san_jose.building_permits_active" && key == PermitAttributionLost)
  }

  /** A detail may be shown exactly when its detector has a source, that source a licence, and that licence a row that
      allows the channel "api". */
  lemma {:induction false} DetailIsShownIff(table: Clearances, licenceBySource: map<string, Licence>, key: DetectorKey)
    ensures MayShow(table, licenceBySource, key) <==>
      exists source :: Governs(source, key) && source in licenceBySource && Allows(table, licenceBySource[source], "api")
  {
    var source := GoverningSource(key);
    assert forall s :: Governs(s, key) <==> source == Some(s);
  }

  // ------------------------------------------------------------------ how a composition ends

  predicate IsChannel(channel: Channel) {
    channel in {"free_snapshot", "paid_property_file", "api", "bulk_export", "analytics", "model_training"}
  }

  predicate IsElection(election: Option<string>) {
    election in {None, Some("city"), Some("state")}
  }

  /** The first thing wrong with a request decides how it ends, in this order. */
  lemma EndsBecause(request: Request, world: World, id: nat)
    requires WellFormed(world)
    ensures var end := Expected(request, world, id);
      && (end == BadChannel <==> !IsChannel(request.channel))
      && (end == BadElection <==> IsChannel(request.channel) && !IsElection(request.election))
      && (end == ReferenceUnknown <==> IsChannel(request.channel) && IsElection(request.election) && request.parcel !in world.parcels)
      && (end == NotImplemented <==>
            && IsChannel(request.channel) && IsElection(request.election) && request.parcel in world.parcels
            && world.settings[world.parcels[request.parcel]].geometryTier)
      && (end == Written(id) <==>
            && IsChannel(request.channel) && IsElection(request.election) && request.parcel in world.parcels
            && !world.settings[world.parcels[request.parcel]].geometryTier)
  {
    assert IsChannel(request.channel) <==> request.channel in KNOWN_CHANNELS;
    assert IsElection(request.election) <==> request.election.None? || request.election.value in KNOWN_ELECTIONS;
  }

  // ------------------------------------------------------------------ what a row refuses

  predicate IsIncorporation(t: Touched) {
    t.field == "jurisdiction.incorporated"
  }

  /** The first fact that says whether the place is incorporated says that it is. */
  ghost predicate SaidIncorporated(touched: seq<Touched>) {
    exists i :: 0 <= i < |touched| && IsIncorporation(touched[i]) && touched[i].value == Flag(true)
                && forall j :: 0 <= j < i ==> !IsIncorporation(touched[j])
  }

  ghost predicate SaysIncorporated(touched: seq<Touched>) {
    exists i :: 0 <= i < |touched| && IsIncorporation(touched[i])
  }

  lemma {:induction false} IncorporatedIs(touched: seq<Touched>)
    ensures Incorporated(touched).Some? <==> SaysIncorporated(touched)
    ensures Incorporated(touched) == Some(Flag(true)) <==> SaidIncorporated(touched)
    decreases |touched|
  {
    if touched != [] && !IsIncorporation(touched[0]) {
      var rest := touched[1..];
      IncorporatedIs(rest);
      if i :| 0 <= i < |rest| && IsIncorporation(rest[i]) { assert IsIncorporation(touched[i + 1]); }
      if i :| 0 <= i < |touched| && IsIncorporation(touched[i]) { assert IsIncorporation(rest[i - 1]); }
      if SaidIncorporated(rest) {
        var i :| 0 <= i < |rest| && IsIncorporation(rest[i]) && rest[i].value == Flag(true) && forall j :: 0 <= j < i ==> !IsIncorporation(rest[j]);
        assert touched[i + 1] == rest[i];
        forall j | 0 <= j < i + 1 ensures !IsIncorporation(touched[j]) { if j > 0 { assert touched[j] == rest[j - 1]; } }
      }
      if SaidIncorporated(touched) {
        var i :| 0 <= i < |touched| && IsIncorporation(touched[i]) && touched[i].value == Flag(true)
                 && forall j :: 0 <= j < i ==> !IsIncorporation(touched[j]);
        assert rest[i - 1] == touched[i];
        forall j | 0 <= j < i - 1 ensures !IsIncorporation(rest[j]) { assert rest[j] == touched[j + 1]; }
      }
    }
  }

  /** Texts are ordered by the first character in which they differ, and a text before its continuations. */
  lemma {:induction false} TextOrderIs(a: string, b: string)
    ensures StringBefore(a, b) <==> a <= b || exists k :: 0 <= k < |a| && k < |b| && a[..k] == b[..k] && a[k] < b[k]
    decreases |a|
  {
    if a != [] && b != [] && a[0] == b[0] {
      TextOrderIs(a[1..], b[1..]);
      assert a == [a[0]] + a[1..] && b == [b[0]] + b[1..];
      if k :| 0 <= k < |a| && k < |b| && a[..k] == b[..k] && a[k] < b[k] {
        assert a[1..][..k - 1] == a[..k][1..] && b[1..][..k - 1] == b[..k][1..] && a[1..][k - 1] < b[1..][k - 1];
      }
      if k :| 0 <= k < |a[1..]| && k < |b[1..]| && a[1..][..k] == b[1..][..k] && a[1..][k] < b[1..][k] {
        assert a[..k + 1] == [a[0]] + a[1..][..k] && b[..k + 1] == [b[0]] + b[1..][..k] && a[k + 1] < b[k + 1];
      }
    } else if a != [] && b != [] {
      assert a[..0] == b[..0];
      if k :| 0 <= k < |a| && k < |b| && a[..k] == b[..k] && a[k] < b[k] {
        if k > 0 { assert a[..k][0] == b[..k][0]; }
      }
    }
  }

  /** The fields of the facts under a licence, each as often as it is touched, in order. */
  ghost predicate FieldsOf(touched: seq<Touched>, licence: Licence, fields: seq<string>) {
    && Sorted(fields, StringBefore)
    && forall field :: multiset(fields)[field] == |Uses(touched, licence, field)|
  }

  ghost function Uses(touched: seq<Touched>, licence: Licence, field: string): set<int> {
    set i | 0 <= i < |touched| && touched[i].licence == licence && touched[i].field == field
  }

  /** Why a composition refuses something. */
  ghost predicate Refuses(request: Request, settings: Settings, world: World, r: Refusal) {
    match r
    case LicenceUnknown(source, present) =>
      settings.boundarySource == Some(source) && !SaidIncorporated(world.touched) && present == SaysIncorporated(world.touched)
    case GeometryTierDisabled => true
    case ParcelNoFacts => world.touched == []
    case ElectionRequired => request.election == None
    case ElectionNotSupported(election) => request.election == Some(election) && election != "city"
    case RuleUnavailable => request.election == Some("city") && world.rule == None
    case RightsBlocked(licence, fields) =>
      && (exists i :: 0 <= i < |world.touched| && world.touched[i].licence == licence)
      && !Allows(world.clearances, licence, request.channel) && FieldsOf(world.touched, licence, fields)
  }

  /** The stage a refusal comes from. */
  function Stage(r: Refusal): nat {
    match r
    case LicenceUnknown(_, _) => 0
    case GeometryTierDisabled => 1
    case ParcelNoFacts => 2
    case ElectionRequired => 3
    case ElectionNotSupported(_) => 3
    case RuleUnavailable => 3
    case RightsBlocked(_, _) => 4
  }

  /** One refusal comes before another: from an earlier stage, or for an earlier licence. */
  ghost predicate Precedes(r: Refusal, s: Refusal) {
    || Stage(r) < Stage(s)
    || (r.RightsBlocked? && s.RightsBlocked? && r.licence != s.licence && StringBefore(r.licence, s.licence))
  }

  lemma UsesGrow(touched: seq<Touched>, licence: Licence, field: string)
    requires touched != []
    ensures var n := |touched| - 1;
      |Uses(touched, licence, field)| == |Uses(touched[..n], licence, field)|
        + if touched[n].licence == licence && touched[n].field == field then 1 else 0
  {
    var n := |touched| - 1;
    assert Uses(touched, licence, field) == Uses(touched[..n], licence, field)
      + if touched[n].licence == licence && touched[n].field == field then {n} else {};
  }

  lemma {:induction false} FieldsAreCounted(touched: seq<Touched>, licence: Licence, field: string)
    ensures multiset(FieldsUnder(touched, licence))[field] == |Uses(touched, licence, field)|
    decreases |touched|
  {
    if touched != [] {
      FieldsAreCounted(touched[..|touched| - 1], licence, field);
      FieldsStep(touched, licence, field);
      UsesGrow(touched, licence, field);
    }
  }

  lemma StagesRefuse(request: Request, settings: Settings, world: World, r: Refusal)
    ensures r in StageRefusals(request, settings, world) <==> !r.RightsBlocked? && Refuses(request, settings, world, r)
  {
    IncorporatedIs(world.touched);
    var a, c, d := BoundaryRefusals(settings, world.touched), (if world.touched == [] then [ParcelNoFacts] else []), ElectionRefusals(request.election, world.rule);
    assert r in StageRefusals(request, settings, world) <==> r in a || r == GeometryTierDisabled || r in c || r in d;
  }

  /** Stage by stage, and none of them the last. */
  ghost predicate Staged(stages: seq<Refusal>) {
    && (forall j, k :: 0 <= j < k < |stages| ==> Stage(stages[j]) < Stage(stages[k]))
    && (forall k :: 0 <= k < |stages| ==> Stage(stages[k]) < 4)
  }

  lemma StagesInOrder(request: Request, settings: Settings, world: World)
    ensures Staged(StageRefusals(request, settings, world))
  {
  }

  /** The fields of every blocked licence are those of the facts under it. */
  ghost predicate FieldsBlocked(touched: seq<Touched>, blocked: map<Licence, seq<string>>) {
    forall l :: l in blocked ==> blocked[l] == FieldsUnder(touched, l)
  }

  lemma BlockedFieldsAre(touched: seq<Touched>, blocked: map<Licence, seq<string>>, blocks: seq<Block>, k: nat)
    requires Blocks(blocked, blocks) && FieldsBlocked(touched, blocked) && k < |blocks|
    ensures blocks[k].licence in blocked && FieldsOf(touched, blocks[k].licence, blocks[k].fields)
    ensures forall fields :: FieldsOf(touched, blocks[k].licence, fields) ==> fields == blocks[k].fields
  {
    var licence := blocks[k].licence;
    forall field ensures multiset(blocks[k].fields)[field] == |Uses(touched, licence, field)| {
      FieldsAreCounted(touched, licence, field);
    }
    forall fields | FieldsOf(touched, licence, fields) ensures fields == blocks[k].fields {
      SameFields(touched, licence, fields, blocks[k].fields);
    }
  }

  /** One refusal for rights, as the gate's answers give it. */
  lemma BlockRefuses(touched: seq<Touched>, blocked: map<Licence, seq<string>>, blocks: seq<Block>, licence: Licence, fields: seq<string>)
    requires Blocks(blocked, blocks) && FieldsBlocked(touched, blocked)
    ensures Block(licence, fields) in blocks <==> licence in blocked && FieldsOf(touched, licence, fields)
  {
    if Block(licence, fields) in blocks {
      var k :| 0 <= k < |blocks| && blocks[k] == Block(licence, fields);
      BlockedFieldsAre(touched, blocked, blocks, k);
    }
    if licence in blocked && FieldsOf(touched, licence, fields) {
      var k :| 0 <= k < |blocks| && blocks[k].licence == licence;
      BlockedFieldsAre(touched, blocked, blocks, k);
      assert blocks[k] == Block(licence, fields);
    }
  }

  lemma AsRefusalsAre(blocks: seq<Block>, r: Refusal)
    ensures r in AsRefusals(blocks) <==> r.RightsBlocked? && Block(r.licence, r.fields) in blocks
  {
    if r.RightsBlocked? && Block(r.licence, r.fields) in blocks {
      var k :| 0 <= k < |blocks| && blocks[k] == Block(r.licence, r.fields);
      assert AsRefusals(blocks)[k] == r;
    }
  }

  lemma RightsRefuse(request: Request, settings: Settings, world: World, allowed: map<Licence, bool>,
                     blocked: map<Licence, seq<string>>, blocks: seq<Block>, r: Refusal)
    requires GateAnswers(world.clearances, request.channel, world.touched, allowed, blocked) && Blocks(blocked, blocks)
    ensures r in AsRefusals(blocks) <==> r.RightsBlocked? && Refuses(request, settings, world, r)
  {
    AsRefusalsAre(blocks, r);
    if r.RightsBlocked? {
      BlockRefuses(world.touched, blocked, blocks, r.licence, r.fields);
      assert r.licence in blocked <==>
        (exists i :: 0 <= i < |world.touched| && world.touched[i].licence == r.licence) && !Allows(world.clearances, r.licence, request.channel);
    }
  }

  lemma SameFields(touched: seq<Touched>, licence: Licence, a: seq<string>, b: seq<string>)
    requires FieldsOf(touched, licence, a) && Sorted(b, StringBefore) && multiset(b) == multiset(FieldsUnder(touched, licence))
    ensures a == b
  {
    forall field ensures multiset(a)[field] == multiset(b)[field] { FieldsAreCounted(touched, licence, field); }
    assert multiset(a) == multiset(b);
    StringsAreOrdered();
    SortedIsUnique(a, b, StringBefore);
  }

  lemma InOrder(stages: seq<Refusal>, blocked: map<Licence, seq<string>>, blocks: seq<Block>, j: nat, k: nat)
    requires Staged(stages) && Blocks(blocked, blocks) && j < k < |stages| + |blocks|
    ensures Precedes((stages + AsRefusals(blocks))[j], (stages + AsRefusals(blocks))[k])
  {
  }

  /** A row refuses exactly what there is to refuse, each thing once, stage by stage and licence by licence. */
  lemma RefusalsSay(request: Request, settings: Settings, world: World, refusals: seq<Refusal>)
    requires FullyRefused(request, settings, world, refusals)
    ensures forall r :: r in refusals <==> Refuses(request, settings, world, r)
    ensures forall j, k :: 0 <= j < k < |refusals| ==> Precedes(refusals[j], refusals[k])
  {
    var allowed, blocked, blocks :|
      && GateAnswers(world.clearances, request.channel, world.touched, allowed, blocked)
      && Blocks(blocked, blocks)
      && refusals == StageRefusals(request, settings, world) + AsRefusals(blocks);
    forall r ensures r in refusals <==> Refuses(request, settings, world, r) {
      StagesRefuse(request, settings, world, r);
      RightsRefuse(request, settings, world, allowed, blocked, blocks, r);
    }
    StagesInOrder(request, settings, world);
    forall j, k | 0 <= j < k < |refusals| ensures Precedes(refusals[j], refusals[k]) {
      InOrder(StageRefusals(request, settings, world), blocked, blocks, j, k);
    }
  }
}
