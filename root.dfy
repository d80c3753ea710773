/**
 * The dns53 root command (cmd/root.go) around the association engine:
 *
 *  - before the run, the instance metadata is read and a custom domain name, if one
 *    was given, is resolved against it;
 *  - with `--auto-attach`, the zone "dns53" is looked up, created when there is none,
 *    or else the instance's VPC is associated with it; the attachment records which of
 *    the two happened, so that exactly the inverse request is made when the run ends.
 */
module Root {
  import opened Wrappers
  import opened Imds
  import opened DomainName
  import opened Route53

  /** The zone that auto-attach looks for and, when there is none, creates. */
  const DefaultZoneName := "dns53"

  /** What auto-attach did, and so what teardown must undo. */
  datatype AutoAttachment = AutoAttachment(
    phzId: string,
    vpc: string,
    region: string,
    createdPhz: bool,
    associatedPhz: bool)

  /** An auto-attach: the attachment, the error if any, and the requests made in order. */
  datatype AttachRun = AttachRun(attachment: AutoAttachment, err: Option<ApiError>, calls: seq<Call>)

  /**
   * What autoAttachToZone does against an API that behaves as `b`. Whatever is looked
   * up, a missing zone is created under the name "dns53".
   */
  function AutoAttach(b: Behaviour, name: string, vpc: string, region: string): AttachRun {
    var none := AutoAttachment("", vpc, region, false, false);
    var lookup := [Call.ListHostedZonesByName(name)];
    match ByNameResult(b.listByName(name), name)
    case Err(e) => AttachRun(none, Some(e), lookup)
    case Ok(None) =>
      var input := CreateZoneRequest(DefaultZoneName, vpc, region);
      var calls := lookup + [Call.CreateHostedZone(input)];
      (match ByIDResult(b.createHostedZone(input))
       case Err(e) => AttachRun(none, Some(e), calls)
       case Ok(z) => AttachRun(none.(phzId := z.id, createdPhz := true), None, calls))
    case Ok(Some(z)) =>
      var calls := lookup + [Call.AssociateVPCWithHostedZone(z.id, Vpc(vpc, region))];
      var e := Absorb(b.associateVPC(z.id, Vpc(vpc, region)), ConflictingDomainExists);
      if e.Some? then AttachRun(none, e, calls)
      else AttachRun(none.(phzId := z.id, associatedPhz := true), None, calls)
  }

  /** AutoAttach when the lookup fails. */
  lemma AttachCaseLookupFailed(b: Behaviour, name: string, vpc: string, region: string, e: ApiError)
    requires ByNameResult(b.listByName(name), name) == Err(e)
    ensures AutoAttach(b, name, vpc, region)
      == AttachRun(AutoAttachment("", vpc, region, false, false), Some(e), [Call.ListHostedZonesByName(name)])
  {
  }

  /** AutoAttach when the lookup finds nothing: the create request decides. */
  lemma AttachCaseCreate(b: Behaviour, name: string, vpc: string, region: string)
    requires ByNameResult(b.listByName(name), name) == Ok(None)
    ensures var input := CreateZoneRequest(DefaultZoneName, vpc, region);
      var none := AutoAttachment("", vpc, region, false, false);
      var calls := [Call.ListHostedZonesByName(name), Call.CreateHostedZone(input)];
      AutoAttach(b, name, vpc, region) ==
        match ByIDResult(b.createHostedZone(input))
        case Err(e) => AttachRun(none, Some(e), calls)
        case Ok(z) => AttachRun(none.(phzId := z.id, createdPhz := true), None, calls)
  {
  }

  /** AutoAttach when the lookup finds a zone: the associate request decides. */
  lemma AttachCaseAssociate(b: Behaviour, name: string, vpc: string, region: string, z: PrivateHostedZone)
    requires ByNameResult(b.listByName(name), name) == Ok(Some(z))
    ensures var none := AutoAttachment("", vpc, region, false, false);
      var calls := [Call.ListHostedZonesByName(name), Call.AssociateVPCWithHostedZone(z.id, Vpc(vpc, region))];
      var e := Absorb(b.associateVPC(z.id, Vpc(vpc, region)), ConflictingDomainExists);
      AutoAttach(b, name, vpc, region) ==
        if e.Some? then AttachRun(none, e, calls)
        else AttachRun(none.(phzId := z.id, associatedPhz := true), None, calls)
  {
  }

  /** autoAttachToZone: fills the attachment step by step, returning at the first error. */
  method AutoAttachToZone(client: Client, name: string, vpc: string, region: string)
    returns (attachment: AutoAttachment, err: Option<ApiError>)
    modifies client.api
    ensures attachment == AutoAttach(client.api.behaviour, name, vpc, region).attachment
    ensures err == AutoAttach(client.api.behaviour, name, vpc, region).err
    ensures client.api.calls == old(client.api.calls) + AutoAttach(client.api.behaviour, name, vpc, region).calls
  {
    ghost var b := client.api.behaviour;
    ghost var before := client.api.calls;
    attachment := AutoAttachment("", vpc, region, false, false);
    var zone := client.ByName(name);
    if zone.Err? {
      AttachCaseLookupFailed(b, name, vpc, region, zone.error);
      return attachment, Some(zone.error);
    }
    var found := zone.value;
    if found.None? {
      AttachCaseCreate(b, name, vpc, region);
      var newZone := client.CreatePrivateHostedZone(DefaultZoneName, vpc, region);
      assert client.api.calls == before + [Call.ListHostedZonesByName(name),
        Call.CreateHostedZone(CreateZoneRequest(DefaultZoneName, vpc, region))];
      if newZone.Err? {
        return attachment, Some(newZone.error);
      }
      attachment := attachment.(phzId := newZone.value.id, createdPhz := true);
    } else {
      AttachCaseAssociate(b, name, vpc, region, found.value);
      var e := client.AssociateVPCWithZone(found.value.id, vpc, region);
      assert client.api.calls == before + [Call.ListHostedZonesByName(name),
        Call.AssociateVPCWithHostedZone(found.value.id, Vpc(vpc, region))];
      if e.Some? {
        return attachment, e;
      }
      attachment := attachment.(phzId := found.value.id, associatedPhz := true);
    }
    err := None;
  }

  /** The one request that undoes an attachment: delete a created zone, else disassociate. */
  function TeardownCall(a: AutoAttachment): Call {
    if a.createdPhz then Call.DeleteHostedZone(a.phzId)
    else Call.DisassociateVPCFromHostedZone(a.phzId, Vpc(a.vpc, a.region))
  }

  /** The error teardown reports, after the client has absorbed the benign one. */
  function TeardownResult(b: Behaviour, a: AutoAttachment): Option<ApiError> {
    if a.createdPhz then Absorb(b.deleteHostedZone(a.phzId), HostedZoneNotEmpty)
    else Absorb(b.disassociateVPC(a.phzId, Vpc(a.vpc, a.region)), VPCAssociationNotFound)
  }

  /** removeAttachmentToZone: exactly one request. */
  method RemoveAttachmentToZone(client: Client, a: AutoAttachment) returns (err: Option<ApiError>)
    modifies client.api
    ensures client.api.calls == old(client.api.calls) + [TeardownCall(a)]
    ensures err == TeardownResult(client.api.behaviour, a)
  {
    if a.createdPhz {
      err := client.DeletePrivateHostedZone(a.phzId);
    } else {
      err := client.DisassociateVPCWithZone(a.phzId, a.vpc, a.region);
    }
  }

  /** The request that undoes a zone-changing request; `created` is the id of a zone it made. */
  function Inverse(change: Call, created: string): Option<Call> {
    match change
    case CreateHostedZone(_) => Some(Call.DeleteHostedZone(created))
    case AssociateVPCWithHostedZone(id, v) => Some(Call.DisassociateVPCFromHostedZone(id, v))
    case _ => None
  }

  /** Auto-attach always starts with the lookup and makes at most one further request. */
  lemma AttachLooksUpFirst(b: Behaviour, name: string, vpc: string, region: string)
    ensures var run := AutoAttach(b, name, vpc, region);
      1 <= |run.calls| <= 2 && run.calls[0] == Call.ListHostedZonesByName(name)
  {
  }

  /** A failed lookup is returned at once: no zone is created or associated. */
  lemma AttachLookupError(b: Behaviour, name: string, vpc: string, region: string)
    requires b.listByName(name).Err?
    ensures AutoAttach(b, name, vpc, region) ==
      AttachRun(AutoAttachment("", vpc, region, false, false), Some(b.listByName(name).error),
                [Call.ListHostedZonesByName(name)])
  {
  }

  /**
   * A successful auto-attach sets exactly one flag and names the zone: it creates the
   * private zone "dns53" in the instance's VPC and region when the lookup found none, and
   * otherwise associates the VPC with the zone that was found. A failed one sets neither.
   */
  lemma AttachFlags(b: Behaviour, name: string, vpc: string, region: string)
    ensures var run := AutoAttach(b, name, vpc, region);
      run.err.None? ==> (run.attachment.createdPhz != run.attachment.associatedPhz)
    ensures var run := AutoAttach(b, name, vpc, region);
      run.err.Some? ==> !run.attachment.createdPhz && !run.attachment.associatedPhz && run.attachment.phzId == ""
    ensures var run := AutoAttach(b, name, vpc, region);
      run.attachment.vpc == vpc && run.attachment.region == region
    ensures var run := AutoAttach(b, name, vpc, region);
      run.attachment.createdPhz ==>
        && b.listByName(name).Ok? && FirstMatch(b.listByName(name).value, name).None?
        && run.calls[1] == Call.CreateHostedZone(CreateZoneInput(DefaultZoneName, Vpc(vpc, region), true))
        && b.createHostedZone(run.calls[1].zoneInput).Ok?
        && run.attachment.phzId == ToPrivateZone(b.createHostedZone(run.calls[1].zoneInput).value).id
    ensures var run := AutoAttach(b, name, vpc, region);
      run.attachment.associatedPhz ==>
        && b.listByName(name).Ok? && FirstMatch(b.listByName(name).value, name).Some?
        && run.attachment.phzId == FirstMatch(b.listByName(name).value, name).value.id
        && run.calls[1] == Call.AssociateVPCWithHostedZone(run.attachment.phzId, Vpc(vpc, region))
  {
  }

  /** Teardown after a successful auto-attach is exactly the inverse of the change it made. */
  lemma TeardownUndoesAttach(b: Behaviour, name: string, vpc: string, region: string)
    ensures var run := AutoAttach(b, name, vpc, region);
      run.err.None? ==>
        |run.calls| == 2 && Some(TeardownCall(run.attachment)) == Inverse(run.calls[1], run.attachment.phzId)
  {
  }

  datatype RunError = AttachFailed(cause: ApiError) | ProgramFailed(message: string)

  /**
   * RunE. `program` stands for the interactive program: given the zone id it starts with,
   * the error it ends with. With auto-attach, a failed attach ends the run before the
   * program starts and with no teardown; otherwise the attached zone replaces the
   * `--phz-id` flag, and teardown runs after the program, its error ignored.
   */
  method Run(client: Client, autoAttach: bool, phzIdFlag: string, md: Metadata, program: string -> Option<string>)
    returns (err: Option<RunError>, phzId: string)
    modifies client.api
    ensures !autoAttach ==>
      && client.api.calls == old(client.api.calls)
      && phzId == phzIdFlag
      && err == (if program(phzIdFlag).Some? then Some(ProgramFailed(program(phzIdFlag).value)) else None)
    ensures autoAttach ==>
      var run := AutoAttach(client.api.behaviour, DefaultZoneName, md.vpc, md.region);
      if run.err.Some? then
        && client.api.calls == old(client.api.calls) + run.calls
        && err == Some(AttachFailed(run.err.value))
        && phzId == phzIdFlag
      else
        && client.api.calls == old(client.api.calls) + run.calls + [TeardownCall(run.attachment)]
        && phzId == run.attachment.phzId
        && err == (if program(phzId).Some? then Some(ProgramFailed(program(phzId).value)) else None)
  {
    phzId := phzIdFlag;
    var attachment: AutoAttachment;
    if autoAttach {
      var attachErr;
      attachment, attachErr := AutoAttachToZone(client, DefaultZoneName, md.vpc, md.region);
      if attachErr.Some? {
        return Some(AttachFailed(attachErr.value)), phzId;
      }
      phzId := attachment.phzId;
    }
    var programErr := program(phzId);
    err := if programErr.Some? then Some(ProgramFailed(programErr.value)) else None;
    if autoAttach {
      var _ := RemoveAttachmentToZone(client, attachment);
    }
  }

  datatype PreRunError = MetadataFailed(imdsCause: ImdsError) | DomainFailed(domainCause: DomainError)

  /**
   * PreRunE: the metadata is read first, and its failure ends the run with the domain
   * name untouched. An empty domain name is left empty; any other is resolved, and a
   * failed resolution leaves it empty.
   */
  method PreRun(svc: Service, domainName: string) returns (md: Metadata, domain: string, err: Option<PreRunError>)
    ensures PathRoot !in svc ==>
      md == EmptyMetadata && domain == domainName && err == Some(MetadataFailed(NotFound(PathRoot)))
    ensures PathRoot in svc ==> Describes(svc, md)
    ensures PathRoot in svc && domainName == "" ==> domain == "" && err.None?
    ensures PathRoot in svc && domainName != "" ==>
      match ResolveDomainName(domainName, md)
      case Ok(d) => domain == d && err.None?
      case Err(e) => domain == "" && err == Some(DomainFailed(e))
  {
    var r := InstanceMetadata(svc);
    if r.Err? {
      return EmptyMetadata, domainName, Some(MetadataFailed(r.error));
    }
    md := r.value;
    if domainName == "" {
      return md, domainName, None;
    }
    var resolved := ResolveDomainName(domainName, md);
    if resolved.Err? {
      return md, "", Some(DomainFailed(resolved.error));
    }
    return md, resolved.value, None;
  }
}
