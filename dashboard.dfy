/**
 * The dashboard page (internal/tui/page/dashboard.go): once a zone is selected it names
 * the instance's A-record, publishes it, and on quit retracts it again, but only if it
 * was published.
 */
module DashboardPage {
  import opened Wrappers
  import opened Text
  import opened Imds
  import opened Route53
  import opened Message

  const Dns53Label := "dns53"

  /** The default record name, before the duplicate label is removed. */
  function DefaultName(ipv4: string, zoneName: string): string {
    ReplaceAll(ipv4, ".", "-") + "." + Dns53Label + "." + zoneName
  }

  /**
   * resolveDomainName: with no custom name, "<ip with dashes>.dns53.<zone>", losing one
   * trailing ".dns53" when "dns53" occurs more than once; a custom name gets ".<zone>"
   * appended unless it already ends with it.
   */
  function RecordName(custom: string, ipv4: string, zoneName: string): string {
    if custom == "" then
      var name := DefaultName(ipv4, zoneName);
      if Count(name, Dns53Label) > 1 then TrimSuffix(name, "." + Dns53Label) else name
    else if !IsSuffix("." + zoneName, custom) then custom + "." + zoneName
    else custom
  }

  /** The default name holds "dns53" once more than the address and the zone together. */
  lemma DefaultNameCount(ipv4: string, zoneName: string)
    ensures Count(DefaultName(ipv4, zoneName), Dns53Label)
      == Count(ReplaceAll(ipv4, ".", "-"), Dns53Label) + 1 + Count(zoneName, Dns53Label)
  {
    var ip := ReplaceAll(ipv4, ".", "-");
    assert DefaultName(ipv4, zoneName) == ip + ['.'] + (Dns53Label + ['.'] + zoneName);
    CountAcross(ip, '.', Dns53Label + ['.'] + zoneName, Dns53Label);
    CountAcross(Dns53Label, '.', zoneName, Dns53Label);
    CountSelf(Dns53Label);
  }

  /** An address and a zone free of "dns53" give the default name unchanged. */
  lemma DefaultNameKept(ipv4: string, zoneName: string)
    requires 'd' !in ipv4
    requires Count(zoneName, Dns53Label) == 0
    ensures RecordName("", ipv4, zoneName) == DefaultName(ipv4, zoneName)
  {
    var ip := ReplaceAll(ipv4, ".", "-");
    ReplaceCharAt(ipv4, '.', '-');
    assert 'd' !in ip by {
      forall i | 0 <= i < |ip| ensures ip[i] != 'd' {
        assert ip[i] == (if ipv4[i] == '.' then '-' else ipv4[i]);
      }
    }
    CountAbsent(ip, Dns53Label);
    DefaultNameCount(ipv4, zoneName);
  }

  /** Attaching to the zone "dns53" drops the doubled label: "<ip>.dns53". */
  lemma DefaultNameInDns53Zone(ipv4: string)
    ensures RecordName("", ipv4, Dns53Label) == ReplaceAll(ipv4, ".", "-") + "." + Dns53Label
  {
    var ip := ReplaceAll(ipv4, ".", "-");
    var suffix := "." + Dns53Label;
    var name := DefaultName(ipv4, Dns53Label);
    assert Count(name, Dns53Label) > 1 by {
      DefaultNameCount(ipv4, Dns53Label);
      CountSelf(Dns53Label);
    }
    assert name == (ip + suffix) + suffix;
    TrimAppended(ip + suffix, suffix);
  }

  /** A custom name always ends up ending with ".<zone>", and keeps its own text in front. */
  lemma CustomNameInZone(custom: string, ipv4: string, zoneName: string)
    requires custom != ""
    ensures IsSuffix("." + zoneName, RecordName(custom, ipv4, zoneName))
    ensures RecordName(custom, ipv4, zoneName) == custom
      || RecordName(custom, ipv4, zoneName) == custom + "." + zoneName
  {
    var r := RecordName(custom, ipv4, zoneName);
    if !IsSuffix("." + zoneName, custom) {
      assert r == custom + ("." + zoneName);
      assert r[|r| - |"." + zoneName|..] == "." + zoneName;
    }
  }

  /** So the custom-name branch is idempotent. */
  lemma CustomNameIdempotent(custom: string, ipv4: string, zoneName: string)
    requires custom != ""
    ensures RecordName(RecordName(custom, ipv4, zoneName), ipv4, zoneName) == RecordName(custom, ipv4, zoneName)
  {
    CustomNameInZone(custom, ipv4, zoneName);
  }

  /** ShortHelp: Quit, and Copy once the record is published. */
  function DashboardHelp(connected: bool): (r: seq<Key>)
    ensures |r| >= 1 && r[0] == Quit
    ensures Copy in r <==> connected
    ensures !connected ==> r == [Quit]
  {
    if connected then [Quit, Copy] else [Quit]
  }

  /** initAssociation's message: published, or an error naming the zone. */
  function AssociationMsg(zoneName: string, err: Option<ApiError>): (r: Msg)
    ensures err.None? ==> r == Associated
    ensures err.Some? ==> r == ErrorMsg("associating EC2 with PHZ " + zoneName, err.value)
  {
    if err.Some? then ErrorMsg("associating EC2 with PHZ " + zoneName, err.value) else Associated
  }

  /** Runs initAssociation: one CREATE of the record. */
  method RunInitAssociation(client: Client, record: ResourceRecord, zoneName: string) returns (msg: Msg)
    modifies client.api
    ensures client.api.calls == old(client.api.calls) + [Call.ChangeResourceRecordSets(RecordChange(Create, record))]
    ensures msg == AssociationMsg(zoneName, client.api.behaviour.changeRecordSets(RecordChange(Create, record)))
  {
    var err := client.AssociateRecord(record);
    msg := AssociationMsg(zoneName, err);
  }

  class Dashboard {
    const client: Client
    const metadata: Metadata
    const customName: string
    var selected: PrivateHostedZone
    var domainName: string
    var connected: bool
    var errorRaised: bool
    var errorReason: string
    var width: int
    var height: int

    constructor(client: Client, metadata: Metadata, customName: string)
      ensures this.client == client && this.metadata == metadata && this.customName == customName
      ensures selected == PrivateHostedZone("", "") && domainName == ""
      ensures !connected && !errorRaised && errorReason == "" && width == 0 && height == 0
    {
      this.client := client;
      this.metadata := metadata;
      this.customName := customName;
      selected := PrivateHostedZone("", "");
      domainName := "";
      connected := false;
      errorRaised := false;
      errorReason := "";
      width := 0;
      height := 0;
    }

    /** The instance's A-record for the selected zone. */
    function Published(): ResourceRecord
      reads this
    {
      ResourceRecord(selected.id, domainName, metadata.ipv4)
    }

    function ShortHelp(): seq<Key>
      reads this
    {
      DashboardHelp(connected)
    }

    /**
     * Update: a selected zone is stored, the record is named and exactly one association
     * is issued; the association's success connects the page, for good; an error raises
     * the error panel and changes nothing else; Quit retracts the published record if and
     * only if the page is connected, and makes no request otherwise.
     */
    method Update(msg: Msg) returns (cmds: seq<Cmd>)
      modifies this, client.api
      ensures msg.ZoneSelected? ==>
        && selected == msg.hostedZone
        && domainName == RecordName(customName, metadata.ipv4, msg.hostedZone.name)
        && cmds == [InitAssociation(Published(), selected.name)]
      ensures !msg.ZoneSelected? ==> selected == old(selected) && domainName == old(domainName)
      ensures connected == (old(connected) || msg == Associated)
      ensures msg == Associated ==> cmds == [Emit(RefreshKeymap)]
      ensures msg.ErrorMsg? ==> errorRaised && errorReason == msg.reason
      ensures !msg.ErrorMsg? ==> errorRaised == old(errorRaised) && errorReason == old(errorReason)
      ensures !msg.ZoneSelected? && msg != Associated ==> cmds == []
      ensures msg == KeyPress(Quit) && old(connected) ==>
        client.api.calls == old(client.api.calls) + [Call.ChangeResourceRecordSets(RecordChange(Delete, Published()))]
      ensures !(msg == KeyPress(Quit) && old(connected)) ==> client.api.calls == old(client.api.calls)
      ensures width == old(width) && height == old(height)
    {
      cmds := [];
      match msg {
        case ZoneSelected(zone) =>
          selected := zone;
          domainName := RecordName(customName, metadata.ipv4, zone.name);
          cmds := [InitAssociation(Published(), selected.name)];
        case Associated =>
          connected := true;
          cmds := [Emit(RefreshKeymap)];
        case ErrorMsg(reason, _) =>
          errorReason := reason;
          errorRaised := true;
        case KeyPress(k) =>
          if k == Quit && connected {
            var record := ResourceRecord(selected.id, domainName, metadata.ipv4);
            var _ := client.DisassociateRecord(record);
          }
        case _ =>
      }
    }

    method Resize(w: int, h: int)
      modifies this
      ensures width == w && height == h
      ensures selected == old(selected) && domainName == old(domainName) && connected == old(connected)
      ensures errorRaised == old(errorRaised) && errorReason == old(errorReason)
    {
      width := w;
      height := h;
    }
  }
}
