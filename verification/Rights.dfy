/** The rights gate, and the two readers that put fact values in front of someone. */
module Rights {
  import opened Schema
  import opened Sorting

  type Licence = string
  type Channel = string

  const KNOWN_CHANNELS: set<Channel> :=
    {"free_snapshot", "paid_property_file", "api", "bulk_export", "analytics", "model_training"}
  const VIEWER_CHANNEL: Channel := "api"

  /** `licence_channel`, by its primary key. */
  type Clearances = map<(Licence, Channel), bool>

  /** One row of `current_fact_at`, as the gate sees it. */
  datatype Touched = Touched(fact: nat, field: string, licence: Licence, value: Value)

  /** An explicit row that allows. No row and a row that denies are the same answer. */
  predicate Cleared(table: Clearances, licence: Licence, channel: Channel) {
    (licence, channel) in table && table[(licence, channel)]
  }

  function Passing(table: Clearances, channel: Channel, touched: seq<Touched>): seq<Touched> {
    if touched == [] then []
    else
      var t := touched[|touched| - 1];
      Passing(table, channel, touched[..|touched| - 1]) + if Cleared(table, t.licence, channel) then [t] else []
  }

  function Stopped(table: Clearances, channel: Channel, touched: seq<Touched>): seq<Touched> {
    if touched == [] then []
    else
      var t := touched[|touched| - 1];
      Stopped(table, channel, touched[..|touched| - 1]) + if Cleared(table, t.licence, channel) then [] else [t]
  }

  /** The fields touched under one licence, in the order touched. */
  function FieldsUnder(touched: seq<Touched>, licence: Licence): seq<string> {
    if touched == [] then []
    else
      var t := touched[|touched| - 1];
      FieldsUnder(touched[..|touched| - 1], licence) + if t.licence == licence then [t.field] else []
  }

  ghost predicate UsedBy(touched: seq<Touched>, licence: Licence) {
    exists i :: 0 <= i < |touched| && touched[i].licence == licence
  }

  lemma UsedByOneMore(touched: seq<Touched>, licence: Licence)
    requires touched != []
    ensures UsedBy(touched, licence)
            <==> UsedBy(touched[..|touched| - 1], licence) || touched[|touched| - 1].licence == licence
  {
    if UsedBy(touched, licence) && touched[|touched| - 1].licence != licence {
      var i :| 0 <= i < |touched| && touched[i].licence == licence;
      assert touched[..|touched| - 1][i].licence == licence;
    }
  }

  lemma UnusedHasNoFields(touched: seq<Touched>, licence: Licence)
    ensures FieldsUnder(touched, licence) == [] <==> !UsedBy(touched, licence)
  {
    if touched != [] {
      UnusedHasNoFields(touched[..|touched| - 1], licence);
      UsedByOneMore(touched, licence);
    }
  }

  /** The gate's two answers: the rows found, and the fields blocked under each licence. */
  ghost predicate GateAnswers(table: Clearances, channel: Channel, touched: seq<Touched>,
                              allowed: map<Licence, bool>, blocked: map<Licence, seq<string>>) {
    && (forall l :: l in allowed <==> UsedBy(touched, l) && (l, channel) in table)
    && (forall l :: l in allowed ==> allowed[l] == table[(l, channel)])
    && BlockedFields(table, channel, touched, blocked)
  }

  ghost predicate BlockedFields(table: Clearances, channel: Channel, touched: seq<Touched>,
                                blocked: map<Licence, seq<string>>)
  {
    && (forall l :: l in blocked <==> UsedBy(touched, l) && !Cleared(table, l, channel))
    && (forall l :: l in blocked ==> blocked[l] == FieldsUnder(touched, l))
  }

  function WithField(blocked: map<Licence, seq<string>>, t: Touched): map<Licence, seq<string>> {
    blocked[t.licence := (if t.licence in blocked then blocked[t.licence] else []) + [t.field]]
  }

  lemma BlockedOneMore(table: Clearances, channel: Channel, touched: seq<Touched>, blocked: map<Licence, seq<string>>)
    requires touched != [] && BlockedFields(table, channel, touched[..|touched| - 1], blocked)
    ensures var t := touched[|touched| - 1];
            BlockedFields(table, channel, touched,
              if Cleared(table, t.licence, channel) then blocked else WithField(blocked, t))
  {
    var before, t := touched[..|touched| - 1], touched[|touched| - 1];
    forall l ensures UsedBy(touched, l) <==> UsedBy(before, l) || t.licence == l { UsedByOneMore(touched, l); }
    UnusedHasNoFields(before, t.licence);
  }

  method EvaluateRightsGate(table: Clearances, touched: seq<Touched>, channel: Channel)
      returns (allowed: map<Licence, bool>, blocked: map<Licence, seq<string>>)
    ensures GateAnswers(table, channel, touched, allowed, blocked)
  {
    var licences := set i | 0 <= i < |touched| :: touched[i].licence;
    allowed := map l | l in licences && (l, channel) in table :: table[(l, channel)];
    blocked := map[];
    for i := 0 to |touched|
      invariant BlockedFields(table, channel, touched[..i], blocked)
    {
      var t := touched[i];
      assert touched[..i + 1][..i] == touched[..i];
      BlockedOneMore(table, channel, touched[..i + 1], blocked);
      assert t.licence in licences;
      if !(t.licence in allowed && allowed[t.licence]) {
        blocked := WithField(blocked, t);
      }
    }
    assert touched[..|touched|] == touched;
  }

  /** Reading the answers with default deny is asking for a row that allows. */
  lemma AllowedIsCleared(table: Clearances, channel: Channel, touched: seq<Touched>,
                         allowed: map<Licence, bool>, blocked: map<Licence, seq<string>>, i: nat)
    requires GateAnswers(table, channel, touched, allowed, blocked) && i < |touched|
    ensures (touched[i].licence in allowed && allowed[touched[i].licence]) == Cleared(table, touched[i].licence, channel)
  {
    assert UsedBy(touched, touched[i].licence);
  }

  // ------------------------------------------------------------------ the viewer

  datatype Standing = Granted | WithConditions | Prohibited | Unknown

  datatype Restriction = OpenRestriction | UnknownRestriction | OtherRestriction(name: string)

  /** What `licence` says of itself: two uses, a restriction, who cleared it and on what evidence. */
  datatype Terms = Terms(commercialUse: Standing, redistribution: Standing, restriction: Restriction,
                         clearedBy: Option<string>, evidence: Option<string>)

  datatype Position = PositionUnknown | ProhibitsUse | PermitsUse | PermitsWithConditions

  datatype Diligence = Pending | ClearedUnevidenced | ClearedWithEvidence

  function DeriveRightsPosition(t: Terms): Position {
    if t.commercialUse.Unknown? || t.redistribution.Unknown? || t.restriction.UnknownRestriction? then PositionUnknown
    else if t.commercialUse.Prohibited? || t.redistribution.Prohibited? then ProhibitsUse
    else if t.restriction.OpenRestriction? then PermitsUse
    else PermitsWithConditions
  }

  function DeriveDiligence(t: Terms): Diligence {
    if t.clearedBy.None? then Pending else if t.evidence.None? then ClearedUnevidenced else ClearedWithEvidence
  }

  datatype ShownFact = ShownFact(source: Touched, position: Position, diligence: Diligence)

  datatype OmittedFact = OmittedFact(field: string, licence: Licence, position: Position, diligence: Diligence)

  function Show(terms: map<Licence, Terms>, t: Touched): ShownFact
    requires t.licence in terms
  {
    ShownFact(t, DeriveRightsPosition(terms[t.licence]), DeriveDiligence(terms[t.licence]))
  }

  function Omit(terms: map<Licence, Terms>, t: Touched): OmittedFact
    requires t.licence in terms
  {
    OmittedFact(t.field, t.licence, DeriveRightsPosition(terms[t.licence]), DeriveDiligence(terms[t.licence]))
  }

  ghost predicate Described(terms: map<Licence, Terms>, touched: seq<Touched>) {
    forall i :: 0 <= i < |touched| ==> touched[i].licence in terms
  }

  function ShowAll(terms: map<Licence, Terms>, touched: seq<Touched>): (r: seq<ShownFact>)
    requires Described(terms, touched)
    ensures |r| == |touched|
  {
    seq(|touched|, i requires 0 <= i < |touched| => Show(terms, touched[i]))
  }

  function OmitAll(terms: map<Licence, Terms>, touched: seq<Touched>): (r: seq<OmittedFact>)
    requires Described(terms, touched)
    ensures |r| == |touched|
  {
    seq(|touched|, i requires 0 <= i < |touched| => Omit(terms, touched[i]))
  }

  /** The viewer's two lists are the passing and the stopped facts in the order read. */
  ghost predicate Viewed(terms: map<Licence, Terms>, table: Clearances, touched: seq<Touched>,
                         permitted: seq<ShownFact>, omitted: seq<OmittedFact>)
  {
    var passing, stopped := Passing(table, VIEWER_CHANNEL, touched), Stopped(table, VIEWER_CHANNEL, touched);
    && Described(terms, passing) && permitted == ShowAll(terms, passing)
    && Described(terms, stopped) && omitted == OmitAll(terms, stopped)
  }

  lemma NothingViewed(terms: map<Licence, Terms>, table: Clearances)
    ensures Viewed(terms, table, [], [], [])
  {
  }

  lemma ViewedOneMore(terms: map<Licence, Terms>, table: Clearances, touched: seq<Touched>,
                      permitted: seq<ShownFact>, omitted: seq<OmittedFact>)
    requires touched != [] && touched[|touched| - 1].licence in terms
    requires Viewed(terms, table, touched[..|touched| - 1], permitted, omitted)
    ensures var t := touched[|touched| - 1];
            if Cleared(table, t.licence, VIEWER_CHANNEL)
            then Viewed(terms, table, touched, permitted + [Show(terms, t)], omitted)
            else Viewed(terms, table, touched, permitted, omitted + [Omit(terms, t)])
  {
    var before, t := touched[..|touched| - 1], touched[|touched| - 1];
    if Cleared(table, t.licence, VIEWER_CHANNEL) {
      var passing := Passing(table, VIEWER_CHANNEL, before);
      assert Stopped(table, VIEWER_CHANNEL, touched) == Stopped(table, VIEWER_CHANNEL, before);
      assert Passing(table, VIEWER_CHANNEL, touched) == passing + [t];
      assert ShowAll(terms, passing + [t]) == ShowAll(terms, passing) + [Show(terms, t)];
    } else {
      var stopped := Stopped(table, VIEWER_CHANNEL, before);
      assert Passing(table, VIEWER_CHANNEL, touched) == Passing(table, VIEWER_CHANNEL, before);
      assert Stopped(table, VIEWER_CHANNEL, touched) == stopped + [t];
      assert OmitAll(terms, stopped + [t]) == OmitAll(terms, stopped) + [Omit(terms, t)];
    }
  }

  method GetParcelFacts(terms: map<Licence, Terms>, table: Clearances, touched: seq<Touched>)
      returns (permitted: seq<ShownFact>, omitted: seq<OmittedFact>)
    requires Described(terms, touched)
    ensures Viewed(terms, table, touched, permitted, omitted)
  {
    var allowed, blocked := EvaluateRightsGate(table, touched, VIEWER_CHANNEL);
    permitted, omitted := [], [];
    NothingViewed(terms, table);
    for i := 0 to |touched|
      invariant Viewed(terms, table, touched[..i], permitted, omitted)
    {
      var t := touched[i];
      assert touched[..i + 1][..i] == touched[..i];
      AllowedIsCleared(table, VIEWER_CHANNEL, touched, allowed, blocked, i);
      ViewedOneMore(terms, table, touched[..i + 1], permitted, omitted);
      if t.licence in allowed && allowed[t.licence] {
        permitted := permitted + [Show(terms, t)];
      } else {
        omitted := omitted + [Omit(terms, t)];
      }
    }
    assert touched[..|touched|] == touched;
  }

  // ------------------------------------------------------------------ the composer's refusals

  /** One `RIGHTS_BLOCKED` refusal. */
  datatype Block = Block(licence: Licence, fields: seq<string>)

  /** Character by character, the shorter first. */
  predicate StringBefore(a: string, b: string) {
    if a == [] then true else if b == [] then false
    else if a[0] != b[0] then a[0] < b[0] else StringBefore(a[1..], b[1..])
  }

  lemma {:induction false} StringsCompare(a: string, b: string, c: string)
    ensures StringBefore(a, b) || StringBefore(b, a)
    ensures StringBefore(a, b) && StringBefore(b, a) ==> a == b
    ensures StringBefore(a, b) && StringBefore(b, c) ==> StringBefore(a, c)
    decreases |a| + |b| + |c|
  {
    if a != [] && b != [] {
      assert a == [a[0]] + a[1..] && b == [b[0]] + b[1..];
      StringsCompare(a[1..], b[1..], if c == [] then [] else c[1..]);
    }
  }

  lemma StringsAreOrdered()
    ensures TotalOrder(StringBefore)
  {
    forall a, b ensures StringBefore(a, b) || StringBefore(b, a) { StringsCompare(a, b, []); }
    forall a, b | StringBefore(a, b) && StringBefore(b, a) ensures a == b { StringsCompare(a, b, []); }
    forall a, b, c | StringBefore(a, b) && StringBefore(b, c) ensures StringBefore(a, c) { StringsCompare(a, b, c); }
  }

  predicate NoRepeats(ss: seq<string>) {
    forall i, j :: 0 <= i < j < |ss| ==> ss[i] != ss[j]
  }

  /** The keys of a dictionary in sorted order. */
  method SortedKeys(keys: set<string>) returns (r: seq<string>)
    ensures NoRepeats(r) && Sorted(r, StringBefore)
    ensures forall k :: k in r <==> k in keys
  {
    var todo, list := keys, [];
    while todo != {}
      invariant todo <= keys && NoRepeats(list)
      invariant forall k :: k in keys <==> k in todo || k in list
      invariant forall k :: k in list ==> k !in todo
      decreases todo
    {
      var k :| k in todo;
      todo, list := todo - {k}, list + [k];
    }
    r := Sort(list, StringBefore);
    StringsAreOrdered();
    SortSorts(list, StringBefore);
    SameBag(list, r);
  }

  lemma SameBag(a: seq<string>, b: seq<string>)
    requires multiset(a) == multiset(b) && NoRepeats(a)
    ensures NoRepeats(b) && forall k :: k in a <==> k in b
  {
    forall k ensures k in a <==> k in b { assert k in multiset(a) <==> k in multiset(b); }
    forall i, j | 0 <= i < j < |b| ensures b[i] != b[j] {
      if b[i] == b[j] {
        assert b == b[..j] + [b[j]] + b[j + 1..] && b[i] in b[..j];
        assert multiset(b)[b[i]] >= 2;
        OnceEach(a, b[i]);
      }
    }
  }

  lemma {:induction false} OnceEach(a: seq<string>, s: string)
    requires NoRepeats(a)
    ensures multiset(a)[s] <= 1
    decreases |a|
  {
    if a != [] {
      assert a == [a[0]] + a[1..];
      OnceEach(a[1..], s);
    }
  }

  /** One refusal for each blocked licence, the licences in order and each naming its fields in order. */
  ghost predicate Blocks(blocked: map<Licence, seq<string>>, blocks: seq<Block>) {
    && (forall i, j :: 0 <= i < j < |blocks| ==>
          blocks[i].licence != blocks[j].licence && StringBefore(blocks[i].licence, blocks[j].licence))
    && (forall l :: l in blocked <==> exists i :: 0 <= i < |blocks| && blocks[i].licence == l)
    && (forall i :: 0 <= i < |blocks| ==>
          && blocks[i].licence in blocked
          && Sorted(blocks[i].fields, StringBefore)
          && multiset(blocks[i].fields) == multiset(blocked[blocks[i].licence]))
  }

  ghost predicate BlockOf(blocked: map<Licence, seq<string>>, licence: Licence, block: Block) {
    && block.licence == licence && licence in blocked
    && Sorted(block.fields, StringBefore) && multiset(block.fields) == multiset(blocked[licence])
  }

  method BlockFor(blocked: map<Licence, seq<string>>, licence: Licence) returns (block: Block)
    requires licence in blocked
    ensures BlockOf(blocked, licence, block)
  {
    StringsAreOrdered();
    SortSorts(blocked[licence], StringBefore);
    block := Block(licence, Sort(blocked[licence], StringBefore));
  }

  lemma OneBlockEach(blocked: map<Licence, seq<string>>, licences: seq<Licence>, blocks: seq<Block>)
    requires |blocks| == |licences| && forall i :: 0 <= i < |licences| ==> BlockOf(blocked, licences[i], blocks[i])
    requires forall l :: l in blocked ==> l in licences
    requires forall i, j :: 0 <= i < j < |licences| ==> licences[i] != licences[j] && StringBefore(licences[i], licences[j])
    ensures Blocks(blocked, blocks)
  {
    forall i | 0 <= i < |blocks| ensures BlockOf(blocked, blocks[i].licence, blocks[i]) {
      assert BlockOf(blocked, licences[i], blocks[i]);
    }
    forall i, j | 0 <= i < j < |blocks|
      ensures blocks[i].licence != blocks[j].licence && StringBefore(blocks[i].licence, blocks[j].licence)
    {
      assert BlockOf(blocked, licences[i], blocks[i]) && BlockOf(blocked, licences[j], blocks[j]);
    }
    forall l | l in blocked ensures exists i :: 0 <= i < |blocks| && blocks[i].licence == l {
      var i :| 0 <= i < |licences| && licences[i] == l;
      assert BlockOf(blocked, licences[i], blocks[i]);
    }
  }

  method RightsRefusals(blocked: map<Licence, seq<string>>) returns (blocks: seq<Block>)
    ensures Blocks(blocked, blocks)
  {
    var licences := SortedKeys(blocked.Keys);
    blocks := [];
    for i := 0 to |licences|
      invariant |blocks| == i && forall k :: 0 <= k < i ==> BlockOf(blocked, licences[k], blocks[k])
    {
      assert licences[i] in licences;
      var block := BlockFor(blocked, licences[i]);
      blocks := blocks + [block];
    }
    OneBlockEach(blocked, licences, blocks);
  }

  // ------------------------------------------------------------------ one gate, two consumers

  lemma OneMoreSplit(passing: seq<Touched>, stopped: seq<Touched>, all: seq<Touched>, t: Touched, passes: bool)
    requires multiset(passing) + multiset(stopped) == multiset(all)
    ensures multiset(passing + if passes then [t] else []) + multiset(stopped + if passes then [] else [t]) == multiset(all + [t])
  {
    assert multiset(all + [t]) == multiset(all) + multiset{t};
    if passes {
      assert stopped + [] == stopped;
    } else {
      assert passing + [] == passing;
    }
  }

  /** Nothing touched is lost, shown twice, or both shown and withheld. */
  lemma {:induction false} TheGateSplitsTheFacts(table: Clearances, channel: Channel, touched: seq<Touched>)
    ensures multiset(Passing(table, channel, touched)) + multiset(Stopped(table, channel, touched)) == multiset(touched)
    decreases |touched|
  {
    if touched != [] {
      var before, t := touched[..|touched| - 1], touched[|touched| - 1];
      TheGateSplitsTheFacts(table, channel, before);
      assert touched == before + [t];
      OneMoreSplit(Passing(table, channel, before), Stopped(table, channel, before), before, t, Cleared(table, t.licence, channel));
    }
  }

  /** Only cleared facts pass, and only uncleared ones are stopped. */
  lemma {:induction false} TheGateIsTheClearance(table: Clearances, channel: Channel, touched: seq<Touched>)
    ensures forall t :: t in Passing(table, channel, touched) ==> Cleared(table, t.licence, channel)
    ensures forall t :: t in Stopped(table, channel, touched) ==> !Cleared(table, t.licence, channel)
    decreases |touched|
  {
    if touched != [] { TheGateIsTheClearance(table, channel, touched[..|touched| - 1]); }
  }

  /** How often a list of omissions names a field under a licence. */
  function Omissions(omitted: seq<OmittedFact>, licence: Licence, field: string): nat {
    if omitted == [] then 0
    else
      var o := omitted[|omitted| - 1];
      Omissions(omitted[..|omitted| - 1], licence, field) + if o.licence == licence && o.field == field then 1 else 0
  }

  /** How often a list of refusals names a field under a licence. */
  function Refusals(blocks: seq<Block>, licence: Licence, field: string): nat {
    if blocks == [] then 0
    else (if blocks[0].licence == licence then multiset(blocks[0].fields)[field] else 0) +
         Refusals(blocks[1..], licence, field)
  }

  ghost predicate Names(omitted: seq<OmittedFact>, stopped: seq<Touched>) {
    && |omitted| == |stopped|
    && forall i :: 0 <= i < |omitted| ==> omitted[i].licence == stopped[i].licence && omitted[i].field == stopped[i].field
  }

  lemma {:induction false} OmissionsAreTheFields(table: Clearances, channel: Channel,
                                                 touched: seq<Touched>, omitted: seq<OmittedFact>,
                                                 licence: Licence, field: string)
    requires Names(omitted, Stopped(table, channel, touched))
    ensures Omissions(omitted, licence, field)
            == if Cleared(table, licence, channel) then 0 else multiset(FieldsUnder(touched, licence))[field]
    decreases |touched|
  {
    if touched != [] {
      var before, t := touched[..|touched| - 1], touched[|touched| - 1];
      StoppedStep(table, channel, touched);
      FieldsStep(touched, licence, field);
      if Cleared(table, t.licence, channel) {
        OmissionsAreTheFields(table, channel, before, omitted, licence, field);
      } else {
        OmissionsAreTheFields(table, channel, before, omitted[..|omitted| - 1], licence, field);
      }
    }
  }

  lemma StoppedStep(table: Clearances, channel: Channel, touched: seq<Touched>)
    requires touched != []
    ensures var t := touched[|touched| - 1];
      Stopped(table, channel, touched)
      == Stopped(table, channel, touched[..|touched| - 1]) + if Cleared(table, t.licence, channel) then [] else [t]
  {
  }

  lemma FieldsStep(touched: seq<Touched>, licence: Licence, field: string)
    requires touched != []
    ensures var t := touched[|touched| - 1];
      multiset(FieldsUnder(touched, licence))[field]
      == multiset(FieldsUnder(touched[..|touched| - 1], licence))[field]
         + if t.licence == licence && t.field == field then 1 else 0
  {
  }

  lemma {:induction false} RefusalsAreTheFields(blocked: map<Licence, seq<string>>, blocks: seq<Block>,
                                                licence: Licence, field: string)
    requires forall i, j :: 0 <= i < j < |blocks| ==> blocks[i].licence != blocks[j].licence
    requires forall i :: 0 <= i < |blocks| ==>
      blocks[i].licence in blocked && multiset(blocks[i].fields) == multiset(blocked[blocks[i].licence])
    ensures Refusals(blocks, licence, field)
            == if (exists i :: 0 <= i < |blocks| && blocks[i].licence == licence)
               then multiset(blocked[licence])[field] else 0
    decreases |blocks|
  {
    if blocks != [] {
      RefusalsAreTheFields(blocked, blocks[1..], licence, field);
      if exists i :: 0 <= i < |blocks| && blocks[i].licence == licence {
        var i :| 0 <= i < |blocks| && blocks[i].licence == licence;
        if i > 0 { assert blocks[1..][i - 1].licence == licence; }
      }
    }
  }

  /** What the viewer omits is exactly what the composer refuses for rights, field by field, counted. */
  lemma OneGateTwoConsumers(terms: map<Licence, Terms>, table: Clearances, touched: seq<Touched>,
                            permitted: seq<ShownFact>, omitted: seq<OmittedFact>,
                            allowed: map<Licence, bool>, blocked: map<Licence, seq<string>>, blocks: seq<Block>,
                            licence: Licence, field: string)
    requires Described(terms, touched) && Viewed(terms, table, touched, permitted, omitted)
    requires GateAnswers(table, VIEWER_CHANNEL, touched, allowed, blocked) && Blocks(blocked, blocks)
    ensures Omissions(omitted, licence, field) == Refusals(blocks, licence, field)
  {
    OmissionsAreTheFields(table, VIEWER_CHANNEL, touched, omitted, licence, field);
    RefusalsAreTheFields(blocked, blocks, licence, field);
    UnusedHasNoFields(touched, licence);
  }

  /** A stopped fact is blocked under its licence, and only stopped facts block. */
  lemma NoBlocksIffAllPass(table: Clearances, channel: Channel, touched: seq<Touched>,
                           allowed: map<Licence, bool>, blocked: map<Licence, seq<string>>, blocks: seq<Block>)
    requires GateAnswers(table, channel, touched, allowed, blocked) && Blocks(blocked, blocks)
    ensures blocks == [] <==> forall i :: 0 <= i < |touched| ==> Cleared(table, touched[i].licence, channel)
  {
    if blocks != [] {
      assert blocks[0].licence in blocked;
      var i :| 0 <= i < |touched| && touched[i].licence == blocks[0].licence;
    } else {
      forall i | 0 <= i < |touched| ensures Cleared(table, touched[i].licence, channel) {
        assert UsedBy(touched, touched[i].licence);
        assert touched[i].licence !in blocked;
      }
    }
  }

  // ------------------------------------------------------------------ exception details

  datatype Detail = Stored(text: string) | Redacted

  datatype DetailRow = DetailRow(id: nat, detector: DetectorKey, detail: Detail)

  const PARCELS := "ca_san_jose.parcels"
  const ZONING := "ca_san_jose.zoning_districts"
  const PERMITS := "ca_san_jose.building_permits_active"

  /** The source whose licence governs the values in a detector's details; none for a detector not listed. */
  function GoverningSource(key: DetectorKey): Option<string> {
    match key
    case ParcelGeometryInvalid => Some(PARCELS)
    case ApnUnresolvable => Some(PARCELS)
    case ParcelDisappeared => Some(PARCELS)
    case CentroidNotInterior => Some(PARCELS)
    case ZoningUnresolvable => Some(ZONING)
    case PermitAttributionLost => Some(PERMITS)
    case OtherDetector(name) => if name == "zoning_source_geometry_invalid" then Some(ZONING) else None
    case GeometryDeclaredGap => None
  }

  /** The licence a row's detail is held under, when its detector and its source are both known. */
  function LicenceOf(licenceBySource: map<string, Licence>, key: DetectorKey): Option<Licence> {
    match GoverningSource(key)
    case None => None
    case Some(source) => if source in licenceBySource then Some(licenceBySource[source]) else None
  }

  ghost predicate MayShow(table: Clearances, licenceBySource: map<string, Licence>, key: DetectorKey) {
    var licence := LicenceOf(licenceBySource, key);
    licence.Some? && Cleared(table, licence.value, VIEWER_CHANNEL)
  }

  /** The text under a detail: none once it is redacted. */
  function DetailText(d: Detail): Value {
    match d case Stored(text) => Text(text) case Redacted => JsonNull
  }

  ghost predicate TouchedBy(touched: seq<Touched>, licence: Option<Licence>) {
    licence.Some? ==> UsedBy(touched, licence.value)
  }

  lemma TouchesStay(touched: seq<Touched>, t: Touched, licence: Option<Licence>)
    requires TouchedBy(touched, licence) || licence == Some(t.licence)
    ensures TouchedBy(touched + [t], licence)
  {
    if licence.Some? {
      assert (touched + [t])[|touched|].licence == t.licence;
      if k :| 0 <= k < |touched| && touched[k].licence == licence.value { assert (touched + [t])[k] == touched[k]; }
    }
  }

  /** Every row held under a known licence, as the gate sees it. */
  method TouchDetails(licenceBySource: map<string, Licence>, rows: array<DetailRow>) returns (touched: seq<Touched>)
    ensures forall k :: 0 <= k < rows.Length ==> TouchedBy(touched, LicenceOf(licenceBySource, rows[k].detector))
  {
    touched := [];
    for i := 0 to rows.Length
      invariant forall k :: 0 <= k < i ==> TouchedBy(touched, LicenceOf(licenceBySource, rows[k].detector))
    {
      var licence := LicenceOf(licenceBySource, rows[i].detector);
      if licence.Some? {
        var t := Touched(rows[i].id, "", licence.value, DetailText(rows[i].detail));
        forall k | 0 <= k <= i ensures TouchedBy(touched + [t], LicenceOf(licenceBySource, rows[k].detector)) {
          TouchesStay(touched, t, LicenceOf(licenceBySource, rows[k].detector));
        }
        touched := touched + [t];
      }
    }
  }

  method GateExceptionDetails(table: Clearances, licenceBySource: map<string, Licence>, rows: array<DetailRow>)
    modifies rows
    ensures forall i :: 0 <= i < rows.Length ==>
      rows[i] == if MayShow(table, licenceBySource, old(rows[i].detector)) then old(rows[i])
                 else old(rows[i]).(detail := Redacted)
  {
    var touched := TouchDetails(licenceBySource, rows);
    var allowed, _ := EvaluateRightsGate(table, touched, VIEWER_CHANNEL);
    for i := 0 to rows.Length
      invariant forall k :: i <= k < rows.Length ==> rows[k] == old(rows[k])
      invariant forall k :: 0 <= k < i ==>
        rows[k] == if MayShow(table, licenceBySource, old(rows[k].detector)) then old(rows[k])
                   else old(rows[k]).(detail := Redacted)
    {
      var licence := LicenceOf(licenceBySource, rows[i].detector);
      if licence.None? || !(licence.value in allowed && allowed[licence.value]) {
        rows[i] := rows[i].(detail := Redacted);
      }
    }
  }
}
