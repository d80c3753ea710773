/**
 * The Route 53 client of internal/r53. It looks up, creates and deletes private hosted
 * zones, (dis)associates the instance's VPC with them, and publishes or retracts the
 * instance's A-record.
 *
 * The AWS API is an `Api` object. A `Behaviour` value fixes its answer to every request,
 * and a ghost log records every request in order. Each `Client` operation is one request
 * followed by a pure mapping of the answer, and that mapping is a function of this module.
 */
module Route53 {
  import opened Wrappers
  import opened Text

  const DotSuffix := "."
  const HostedZonePrefix := "/hostedzone/"
  const RecordTTL := 300

  /** The errors the client tells apart; every other AWS error is `Other`. */
  datatype ApiError =
    | HostedZoneNotEmpty
    | ConflictingDomainExists
    | VPCAssociationNotFound
    | Other(message: string)

  /** A zone as the API reports it: the id carries "/hostedzone/", the name a trailing dot. */
  datatype HostedZone = HostedZone(id: string, name: string, privateZone: bool)

  /** An entry of the by-VPC listing: its id has no prefix, its name a trailing dot. */
  datatype HostedZoneSummary = HostedZoneSummary(hostedZoneId: string, name: string)

  /** A private hosted zone as the rest of the program sees it. */
  datatype PrivateHostedZone = PrivateHostedZone(id: string, name: string)

  /** The A-record of the instance: zone, record name and IPv4 address. */
  datatype ResourceRecord = ResourceRecord(phzId: string, name: string, resource: string)

  datatype Vpc = Vpc(vpcId: string, vpcRegion: string)

  datatype ChangeAction = Create | Delete
  datatype RRType = A
  datatype ResourceRecordSet = ResourceRecordSet(name: string, rrType: RRType, values: seq<string>, ttl: int)
  datatype Change = Change(action: ChangeAction, recordSet: ResourceRecordSet)
  datatype ChangeBatchInput = ChangeBatchInput(hostedZoneId: string, changes: seq<Change>)
  datatype CreateZoneInput = CreateZoneInput(name: string, vpc: Vpc, privateZone: bool)

  /** One request to the API. */
  datatype Call =
    | GetHostedZone(id: string)
    | ListHostedZonesByVPC(vpc: Vpc)
    | ListHostedZonesByName(dnsName: string)
    | CreateHostedZone(zoneInput: CreateZoneInput)
    | DeleteHostedZone(id: string)
    | AssociateVPCWithHostedZone(id: string, vpc: Vpc)
    | DisassociateVPCFromHostedZone(id: string, vpc: Vpc)
    | ChangeResourceRecordSets(batch: ChangeBatchInput)

  /** How the API answers each kind of request. */
  datatype Behaviour = Behaviour(
    getHostedZone: string -> Result<HostedZone, ApiError>,
    listByVPC: Vpc -> Result<seq<HostedZoneSummary>, ApiError>,
    listByName: string -> Result<seq<HostedZone>, ApiError>,
    createHostedZone: CreateZoneInput -> Result<HostedZone, ApiError>,
    deleteHostedZone: string -> Option<ApiError>,
    associateVPC: (string, Vpc) -> Option<ApiError>,
    disassociateVPC: (string, Vpc) -> Option<ApiError>,
    changeRecordSets: ChangeBatchInput -> Option<ApiError>)

  /** The Route 53 API: answers as `behaviour` says and logs every request. */
  class Api {
    const behaviour: Behaviour
    ghost var calls: seq<Call>

    constructor(behaviour: Behaviour)
      ensures this.behaviour == behaviour && calls == []
    {
      this.behaviour := behaviour;
      calls := [];
    }

    method GetHostedZone(id: string) returns (r: Result<HostedZone, ApiError>)
      modifies this
      ensures calls == old(calls) + [Call.GetHostedZone(id)]
      ensures r == behaviour.getHostedZone(id)
    {
      calls := calls + [Call.GetHostedZone(id)];
      r := behaviour.getHostedZone(id);
    }

    method ListHostedZonesByVPC(vpc: Vpc) returns (r: Result<seq<HostedZoneSummary>, ApiError>)
      modifies this
      ensures calls == old(calls) + [Call.ListHostedZonesByVPC(vpc)]
      ensures r == behaviour.listByVPC(vpc)
    {
      calls := calls + [Call.ListHostedZonesByVPC(vpc)];
      r := behaviour.listByVPC(vpc);
    }

    method ListHostedZonesByName(dnsName: string) returns (r: Result<seq<HostedZone>, ApiError>)
      modifies this
      ensures calls == old(calls) + [Call.ListHostedZonesByName(dnsName)]
      ensures r == behaviour.listByName(dnsName)
    {
      calls := calls + [Call.ListHostedZonesByName(dnsName)];
      r := behaviour.listByName(dnsName);
    }

    method CreateHostedZone(input: CreateZoneInput) returns (r: Result<HostedZone, ApiError>)
      modifies this
      ensures calls == old(calls) + [Call.CreateHostedZone(input)]
      ensures r == behaviour.createHostedZone(input)
    {
      calls := calls + [Call.CreateHostedZone(input)];
      r := behaviour.createHostedZone(input);
    }

    method DeleteHostedZone(id: string) returns (err: Option<ApiError>)
      modifies this
      ensures calls == old(calls) + [Call.DeleteHostedZone(id)]
      ensures err == behaviour.deleteHostedZone(id)
    {
      calls := calls + [Call.DeleteHostedZone(id)];
      err := behaviour.deleteHostedZone(id);
    }

    method AssociateVPCWithHostedZone(id: string, vpc: Vpc) returns (err: Option<ApiError>)
      modifies this
      ensures calls == old(calls) + [Call.AssociateVPCWithHostedZone(id, vpc)]
      ensures err == behaviour.associateVPC(id, vpc)
    {
      calls := calls + [Call.AssociateVPCWithHostedZone(id, vpc)];
      err := behaviour.associateVPC(id, vpc);
    }

    method DisassociateVPCFromHostedZone(id: string, vpc: Vpc) returns (err: Option<ApiError>)
      modifies this
      ensures calls == old(calls) + [Call.DisassociateVPCFromHostedZone(id, vpc)]
      ensures err == behaviour.disassociateVPC(id, vpc)
    {
      calls := calls + [Call.DisassociateVPCFromHostedZone(id, vpc)];
      err := behaviour.disassociateVPC(id, vpc);
    }

    method ChangeResourceRecordSets(input: ChangeBatchInput) returns (err: Option<ApiError>)
      modifies this
      ensures calls == old(calls) + [Call.ChangeResourceRecordSets(input)]
      ensures err == behaviour.changeRecordSets(input)
    {
      calls := calls + [Call.ChangeResourceRecordSets(input)];
      err := behaviour.changeRecordSets(input);
    }
  }

  // ---------------------------------------------------------------------------
  // Pure mappings of the API's answers
  // ---------------------------------------------------------------------------

  /** One leading "/hostedzone/" off the id and one trailing '.' off the name. */
  function ToPrivateZone(z: HostedZone): (r: PrivateHostedZone)
    ensures IsPrefix(HostedZonePrefix, z.id) ==> HostedZonePrefix + r.id == z.id
    ensures !IsPrefix(HostedZonePrefix, z.id) ==> r.id == z.id
    ensures IsSuffix(DotSuffix, z.name) ==> r.name + DotSuffix == z.name
    ensures !IsSuffix(DotSuffix, z.name) ==> r.name == z.name
  {
    PrivateHostedZone(TrimPrefix(z.id, HostedZonePrefix), TrimSuffix(z.name, DotSuffix))
  }

  /** A by-VPC entry keeps its id; its name loses one trailing '.'. */
  function SummaryToZone(s: HostedZoneSummary): (r: PrivateHostedZone)
    ensures r.id == s.hostedZoneId
    ensures IsSuffix(DotSuffix, s.name) ==> r.name + DotSuffix == s.name
    ensures !IsSuffix(DotSuffix, s.name) ==> r.name == s.name
  {
    PrivateHostedZone(s.hostedZoneId, TrimSuffix(s.name, DotSuffix))
  }

  /** The zones of a by-VPC listing, one per entry and in the same order. */
  function SummariesToZones(summaries: seq<HostedZoneSummary>): (r: seq<PrivateHostedZone>)
    ensures |r| == |summaries|
    ensures forall i :: 0 <= i < |r| ==> r[i] == SummaryToZone(summaries[i])
  {
    if summaries == [] then []
    else [SummaryToZone(summaries[0])] + SummariesToZones(summaries[1..])
  }

  /** ByVPC's loop: one zone appended per entry. */
  method ZonesFromSummaries(summaries: seq<HostedZoneSummary>) returns (phzs: seq<PrivateHostedZone>)
    ensures phzs == SummariesToZones(summaries)
  {
    phzs := [];
    var i := 0;
    while i < |summaries|
      invariant 0 <= i <= |summaries|
      invariant |phzs| == i
      invariant forall k :: 0 <= k < i ==> phzs[k] == SummaryToZone(summaries[k])
    {
      phzs := phzs + [SummaryToZone(summaries[i])];
      i := i + 1;
    }
  }

  /** A zone that ByName accepts for `name`: private, with exactly that name once the dot is trimmed. */
  predicate Matches(z: HostedZone, name: string) {
    z.privateZone && TrimSuffix(z.name, DotSuffix) == name
  }

  /** The position of the first matching zone, or the length of the listing when none matches. */
  function MatchIndex(zones: seq<HostedZone>, name: string): (k: nat)
    ensures k <= |zones|
    ensures forall j :: 0 <= j < k ==> !Matches(zones[j], name)
    ensures k < |zones| ==> Matches(zones[k], name)
  {
    if zones == [] || Matches(zones[0], name) then 0
    else
      var k := 1 + MatchIndex(zones[1..], name);
      assert forall j :: 1 <= j < k ==> zones[j] == zones[1..][j - 1];
      k
  }

  /** The first matching zone of the listing, if any. */
  function FirstMatch(zones: seq<HostedZone>, name: string): (r: Option<PrivateHostedZone>)
    ensures r.None? <==> forall i :: 0 <= i < |zones| ==> !Matches(zones[i], name)
    ensures r.Some? ==> exists i :: (0 <= i < |zones| && Matches(zones[i], name)
      && (forall j :: 0 <= j < i ==> !Matches(zones[j], name))
      && r.value == ToPrivateZone(zones[i]))
  {
    var k := MatchIndex(zones, name);
    if k < |zones| then Some(ToPrivateZone(zones[k])) else None
  }

  /** ByName's loop: stops at the first matching zone. */
  method FirstPrivateMatch(zones: seq<HostedZone>, name: string) returns (r: Option<PrivateHostedZone>)
    ensures r == FirstMatch(zones, name)
  {
    var i := 0;
    while i < |zones|
      invariant 0 <= i <= |zones|
      invariant forall j :: 0 <= j < i ==> !Matches(zones[j], name)
    {
      if zones[i].privateZone {
        var hzName := TrimSuffix(zones[i].name, DotSuffix);
        if hzName == name {
          assert MatchIndex(zones, name) == i;
          return Some(ToPrivateZone(zones[i]));
        }
      }
      i := i + 1;
    }
    assert MatchIndex(zones, name) == |zones|;
    return None;
  }

  /** An error that counts as success for this operation becomes no error; others pass. */
  function Absorb(err: Option<ApiError>, benign: ApiError): (r: Option<ApiError>)
    ensures r.None? <==> err.None? || err == Some(benign)
    ensures r.Some? ==> r == err
  {
    if err == Some(benign) then None else err
  }

  /** The single-change batch that creates or deletes the instance's A-record. */
  function RecordChange(action: ChangeAction, res: ResourceRecord): ChangeBatchInput {
    ChangeBatchInput(res.phzId, [Change(action, ResourceRecordSet(res.name, A, [res.resource], RecordTTL))])
  }

  /** Reads a batch back as one A-record change with TTL 300 and a single value, if it is one. */
  function RecordOf(batch: ChangeBatchInput): Option<(ChangeAction, ResourceRecord)> {
    if |batch.changes| == 1
      && batch.changes[0].recordSet.rrType == A
      && batch.changes[0].recordSet.ttl == RecordTTL
      && |batch.changes[0].recordSet.values| == 1
    then
      var c := batch.changes[0];
      Some((c.action, ResourceRecord(batch.hostedZoneId, c.recordSet.name, c.recordSet.values[0])))
    else None
  }

  /**
   * A record batch is exactly one A-record change with TTL 300 whose single value is the
   * resource: reading it back gives the action and the record, and only such batches
   * read back at all.
   */
  lemma RecordChangeRoundTrip(action: ChangeAction, res: ResourceRecord, batch: ChangeBatchInput)
    ensures RecordOf(RecordChange(action, res)) == Some((action, res))
    ensures RecordOf(batch) == Some((action, res)) ==> batch == RecordChange(action, res)
  {
    if RecordOf(batch) == Some((action, res)) {
      var c := batch.changes[0];
      assert c.recordSet == ResourceRecordSet(res.name, A, [res.resource], RecordTTL);
      assert batch.changes == [c];
    }
  }

  // ---------------------------------------------------------------------------
  // What each client operation makes of the API's answer
  // ---------------------------------------------------------------------------

  function ByIDResult(resp: Result<HostedZone, ApiError>): Result<PrivateHostedZone, ApiError> {
    match resp
    case Err(e) => Err(e)
    case Ok(z) => Ok(ToPrivateZone(z))
  }

  function ByVPCResult(resp: Result<seq<HostedZoneSummary>, ApiError>): Result<seq<PrivateHostedZone>, ApiError> {
    match resp
    case Err(e) => Err(e)
    case Ok(s) => Ok(SummariesToZones(s))
  }

  /** `Ok(None)` is Go's (nil, nil): the listing worked but held no match. */
  function ByNameResult(resp: Result<seq<HostedZone>, ApiError>, name: string): Result<Option<PrivateHostedZone>, ApiError> {
    match resp
    case Err(e) => Err(e)
    case Ok(zones) => Ok(FirstMatch(zones, name))
  }

  function CreateZoneRequest(name: string, vpc: string, region: string): CreateZoneInput {
    CreateZoneInput(name, Vpc(vpc, region), true)
  }

  /** internal/r53 Client: every operation is one logged request. */
  class Client {
    const api: Api

    constructor(api: Api)
      ensures this.api == api
    {
      this.api := api;
    }

    method ByID(id: string) returns (r: Result<PrivateHostedZone, ApiError>)
      modifies api
      ensures api.calls == old(api.calls) + [Call.GetHostedZone(id)]
      ensures r == ByIDResult(api.behaviour.getHostedZone(id))
    {
      var resp := api.GetHostedZone(id);
      if resp.Err? {
        return Err(resp.error);
      }
      return Ok(ToPrivateZone(resp.value));
    }

    method ByVPC(vpc: string, region: string) returns (r: Result<seq<PrivateHostedZone>, ApiError>)
      modifies api
      ensures api.calls == old(api.calls) + [Call.ListHostedZonesByVPC(Vpc(vpc, region))]
      ensures r == ByVPCResult(api.behaviour.listByVPC(Vpc(vpc, region)))
    {
      var resp := api.ListHostedZonesByVPC(Vpc(vpc, region));
      if resp.Err? {
        return Err(resp.error);
      }
      var phzs := ZonesFromSummaries(resp.value);
      return Ok(phzs);
    }

    method ByName(name: string) returns (r: Result<Option<PrivateHostedZone>, ApiError>)
      modifies api
      ensures api.calls == old(api.calls) + [Call.ListHostedZonesByName(name)]
      ensures r == ByNameResult(api.behaviour.listByName(name), name)
    {
      var resp := api.ListHostedZonesByName(name);
      if resp.Err? {
        return Err(resp.error);
      }
      var zone := FirstPrivateMatch(resp.value, name);
      return Ok(zone);
    }

    /** Always requests a private zone bound to the given VPC and region. */
    method CreatePrivateHostedZone(name: string, vpc: string, region: string) returns (r: Result<PrivateHostedZone, ApiError>)
      modifies api
      ensures api.calls == old(api.calls) + [Call.CreateHostedZone(CreateZoneRequest(name, vpc, region))]
      ensures r == ByIDResult(api.behaviour.createHostedZone(CreateZoneRequest(name, vpc, region)))
    {
      var resp := api.CreateHostedZone(CreateZoneRequest(name, vpc, region));
      if resp.Err? {
        return Err(resp.error);
      }
      return Ok(ToPrivateZone(resp.value));
    }

    /** A zone that still holds records is left in place, and that counts as success. */
    method DeletePrivateHostedZone(id: string) returns (err: Option<ApiError>)
      modifies api
      ensures api.calls == old(api.calls) + [Call.DeleteHostedZone(id)]
      ensures err == Absorb(api.behaviour.deleteHostedZone(id), HostedZoneNotEmpty)
    {
      var e := api.DeleteHostedZone(id);
      err := Absorb(e, HostedZoneNotEmpty);
    }

    /** An existing association counts as success. */
    method AssociateVPCWithZone(id: string, vpc: string, region: string) returns (err: Option<ApiError>)
      modifies api
      ensures api.calls == old(api.calls) + [Call.AssociateVPCWithHostedZone(id, Vpc(vpc, region))]
      ensures err == Absorb(api.behaviour.associateVPC(id, Vpc(vpc, region)), ConflictingDomainExists)
    {
      var e := api.AssociateVPCWithHostedZone(id, Vpc(vpc, region));
      err := Absorb(e, ConflictingDomainExists);
    }

    /** A missing association counts as success. */
    method DisassociateVPCWithZone(id: string, vpc: string, region: string) returns (err: Option<ApiError>)
      modifies api
      ensures api.calls == old(api.calls) + [Call.DisassociateVPCFromHostedZone(id, Vpc(vpc, region))]
      ensures err == Absorb(api.behaviour.disassociateVPC(id, Vpc(vpc, region)), VPCAssociationNotFound)
    {
      var e := api.DisassociateVPCFromHostedZone(id, Vpc(vpc, region));
      err := Absorb(e, VPCAssociationNotFound);
    }

    /** Publishes the A-record: one CREATE change. */
    method AssociateRecord(res: ResourceRecord) returns (err: Option<ApiError>)
      modifies api
      ensures api.calls == old(api.calls) + [Call.ChangeResourceRecordSets(RecordChange(Create, res))]
      ensures err == api.behaviour.changeRecordSets(RecordChange(Create, res))
    {
      err := api.ChangeResourceRecordSets(RecordChange(Create, res));
    }

    /** Retracts the A-record: one DELETE change. */
    method DisassociateRecord(res: ResourceRecord) returns (err: Option<ApiError>)
      modifies api
      ensures api.calls == old(api.calls) + [Call.ChangeResourceRecordSets(RecordChange(Delete, res))]
      ensures err == api.behaviour.changeRecordSets(RecordChange(Delete, res))
    {
      err := api.ChangeResourceRecordSets(RecordChange(Delete, res));
    }
  }

  // ---------------------------------------------------------------------------
  // The listings of the client's tests
  // ---------------------------------------------------------------------------

  /** A public zone of the same name is passed over for the private one behind it. */
  lemma ByNameSkipsPublicZones()
    ensures FirstMatch([HostedZone("/hostedzone/Z00000000000003", "dns53.", false),
                        HostedZone("/hostedzone/Z00000000000004", "dns53.", true)], "dns53")
      == Some(PrivateHostedZone("Z00000000000004", "dns53"))
  {
    var zones := [HostedZone("/hostedzone/Z00000000000003", "dns53.", false),
                  HostedZone("/hostedzone/Z00000000000004", "dns53.", true)];
    assert MatchIndex(zones, "dns53") == 1 by {
      assert TrimSuffix("dns53.", DotSuffix) == "dns53";
      assert !Matches(zones[0], "dns53") && Matches(zones[1], "dns53");
    }
    assert ToPrivateZone(zones[1]) == PrivateHostedZone("Z00000000000004", "dns53") by {
      assert TrimSuffix("dns53.", DotSuffix) == "dns53";
      assert TrimPrefix("/hostedzone/Z00000000000004", HostedZonePrefix) == "Z00000000000004";
    }
  }

  /** A name that merely starts with the query is no match. */
  lemma ByNameExactMatchOnly()
    ensures FirstMatch([HostedZone("/hostedzone/Z00000000000005", "dns53zone.", true),
                        HostedZone("/hostedzone/Z00000000000006", "dns53.", true)], "dns53")
      == Some(PrivateHostedZone("Z00000000000006", "dns53"))
  {
    var zones := [HostedZone("/hostedzone/Z00000000000005", "dns53zone.", true),
                  HostedZone("/hostedzone/Z00000000000006", "dns53.", true)];
    assert MatchIndex(zones, "dns53") == 1 by {
      assert TrimSuffix("dns53zone.", DotSuffix) == "dns53zone";
      assert TrimSuffix("dns53.", DotSuffix) == "dns53";
      assert !Matches(zones[0], "dns53") && Matches(zones[1], "dns53");
    }
    assert ToPrivateZone(zones[1]) == PrivateHostedZone("Z00000000000006", "dns53") by {
      assert TrimSuffix("dns53.", DotSuffix) == "dns53";
      assert TrimPrefix("/hostedzone/Z00000000000006", HostedZonePrefix) == "Z00000000000006";
    }
  }
}
