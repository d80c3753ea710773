/**
 * The wizard page (internal/tui/page/wizard.go): it loads the private hosted zones of
 * the instance's VPC into a list, or looks up the single zone given by `--phz-id`, and
 * announces the zone the user picks.
 *
 * The list widget itself is foreign: its cursor, filter state and paging are fields
 * here that only the widget moves, and a selection is the item at `index`.
 */
module WizardPage {
  import opened Wrappers
  import opened Imds
  import opened Route53
  import opened Message

  datatype ZoneItem = ZoneItem(name: string, id: string)

  /** The list items of a zone listing: one per zone, in order, keeping name and id. */
  function ItemsOf(zones: seq<PrivateHostedZone>): (r: seq<ZoneItem>)
    ensures |r| == |zones|
    ensures forall i :: 0 <= i < |r| ==> r[i].name == zones[i].name && r[i].id == zones[i].id
  {
    if zones == [] then [] else [ZoneItem(zones[0].name, zones[0].id)] + ItemsOf(zones[1..])
  }

  /** The loop of Update that turns a listing into items. */
  method LoadItems(zones: seq<PrivateHostedZone>) returns (items: seq<ZoneItem>)
    ensures items == ItemsOf(zones)
  {
    items := [];
    var i := 0;
    while i < |zones|
      invariant 0 <= i <= |zones|
      invariant |items| == i
      invariant forall k :: 0 <= k < i ==> items[k] == ZoneItem(zones[k].name, zones[k].id)
    {
      items := items + [ZoneItem(zones[i].name, zones[i].id)];
      i := i + 1;
    }
  }

  /** What Enter does as written: a missing selection is type-asserted and the program panics. */
  datatype EnterOutcome = Panic | Emits(msg: Msg)

  function EnterAsWritten(items: seq<ZoneItem>, index: nat): EnterOutcome {
    if index < |items| then Emits(ZoneSelected(PrivateHostedZone(items[index].id, items[index].name)))
    else Panic
  }

  /** Enter pressed before any zone is listed (while loading, or after an error) panics. */
  lemma EnterPanicsOnEmptyList(index: nat)
    ensures EnterAsWritten([], index) == Panic
  {
  }

  /** Enter: the selected zone is announced; with nothing selected, nothing happens. */
  function EnterSelection(items: seq<ZoneItem>, index: nat): (r: Option<Msg>)
    ensures r.Some? <==> index < |items|
    ensures r.Some? ==> r.value == ZoneSelected(PrivateHostedZone(items[index].id, items[index].name))
  {
    if index < |items| then Some(ZoneSelected(PrivateHostedZone(items[index].id, items[index].name)))
    else None
  }

  /** The corrected Enter agrees with the original wherever the original does not panic. */
  lemma EnterAgrees(items: seq<ZoneItem>, index: nat)
    ensures EnterAsWritten(items, index).Panic? <==> EnterSelection(items, index).None?
    ensures EnterAsWritten(items, index).Emits? ==> EnterSelection(items, index) == Some(EnterAsWritten(items, index).msg)
  {
  }

  /**
   * ShortHelp: Quit first, always; with items, Enter and Escape while filtering, and
   * otherwise UpDown, LeftRight only with more than one page, Enter and ForwardSlash.
   */
  function WizardHelp(hasItems: bool, filtering: bool, totalPages: int): (r: seq<Key>)
    ensures |r| >= 1 && r[0] == Quit
    ensures !hasItems ==> r == [Quit]
    ensures Enter in r <==> hasItems
    ensures Escape in r <==> hasItems && filtering
    ensures ForwardSlash in r <==> hasItems && !filtering
    ensures UpDown in r <==> hasItems && !filtering
    ensures LeftRight in r <==> hasItems && !filtering && totalPages > 1
    ensures hasItems && !filtering ==> r[|r| - 2] == Enter && r[|r| - 1] == ForwardSlash
  {
    if !hasItems then [Quit]
    else if filtering then [Quit, Enter, Escape]
    else [Quit, UpDown] + (if totalPages > 1 then [LeftRight] else []) + [Enter, ForwardSlash]
  }

  /** queryHostedZones' message: the listing, or an error naming the VPC and region. */
  function ZonesMsg(md: Metadata, res: Result<seq<PrivateHostedZone>, ApiError>): (r: Msg)
    ensures res.Ok? ==> r == ZoneSelection(res.value)
    ensures res.Err? ==> r == ErrorMsg("querying private hosted zones for VPC " + md.vpc + " in region " + md.region, res.error)
  {
    match res
    case Ok(zones) => ZoneSelection(zones)
    case Err(e) => ErrorMsg("querying private hosted zones for VPC " + md.vpc + " in region " + md.region, e)
  }

  /** queryHostedZone's message: the zone is selected at once, or an error naming the id. */
  function ZoneMsg(id: string, res: Result<PrivateHostedZone, ApiError>): (r: Msg)
    ensures res.Ok? ==> r == ZoneSelected(res.value)
    ensures res.Err? ==> r == ErrorMsg("querying private hosted zone " + id, res.error)
  {
    match res
    case Ok(zone) => ZoneSelected(zone)
    case Err(e) => ErrorMsg("querying private hosted zone " + id, e)
  }

  /** Runs queryHostedZones: one by-VPC listing for the instance's VPC and region. */
  method RunQueryHostedZones(client: Client, md: Metadata) returns (msg: Msg)
    modifies client.api
    ensures client.api.calls == old(client.api.calls) + [Call.ListHostedZonesByVPC(Vpc(md.vpc, md.region))]
    ensures msg == ZonesMsg(md, ByVPCResult(client.api.behaviour.listByVPC(Vpc(md.vpc, md.region))))
  {
    var phzs := client.ByVPC(md.vpc, md.region);
    msg := ZonesMsg(md, phzs);
  }

  /** Runs queryHostedZone: one lookup of the given zone. */
  method RunQueryHostedZone(client: Client, id: string) returns (msg: Msg)
    modifies client.api
    ensures client.api.calls == old(client.api.calls) + [Call.GetHostedZone(id)]
    ensures msg == ZoneMsg(id, ByIDResult(client.api.behaviour.getHostedZone(id)))
  {
    var phz := client.ByID(id);
    msg := ZoneMsg(id, phz);
  }

  class Wizard {
    const hostedZoneId: string
    const metadata: Metadata
    var items: seq<ZoneItem>
    var index: nat          // the list's selected position, moved by the list
    var filtering: bool     // the list's filter state, set by the list
    var totalPages: nat     // the list's page count
    var errorRaised: bool
    var errorReason: string
    var width: int
    var height: int

    constructor(hostedZoneId: string, metadata: Metadata)
      ensures this.hostedZoneId == hostedZoneId && this.metadata == metadata
      ensures items == [] && index == 0 && !filtering && totalPages == 0
      ensures !errorRaised && errorReason == "" && width == 0 && height == 0
    {
      this.hostedZoneId := hostedZoneId;
      this.metadata := metadata;
      items := [];
      index := 0;
      filtering := false;
      totalPages := 0;
      errorRaised := false;
      errorReason := "";
      width := 0;
      height := 0;
    }

    /** Init: the single zone when one was given, else the zones of the instance's VPC. */
    function Init(): (c: Cmd)
      ensures hostedZoneId == "" ==> c == QueryHostedZones(metadata.vpc, metadata.region)
      ensures hostedZoneId != "" ==> c == QueryHostedZone(hostedZoneId)
    {
      if hostedZoneId == "" then QueryHostedZones(metadata.vpc, metadata.region)
      else QueryHostedZone(hostedZoneId)
    }

    function ShortHelp(): seq<Key>
      reads this
    {
      WizardHelp(|items| > 0, filtering, totalPages)
    }

    /**
     * Update: a listing replaces the items and asks for the key map to be refreshed; an
     * error raises the error panel and leaves the list alone; Enter announces the selected
     * zone; '/' and Escape ask for a key-map refresh. The list's own handling of the
     * message is not part of this model.
     */
    method Update(msg: Msg) returns (cmds: seq<Cmd>)
      modifies this
      ensures msg.ZoneSelection? ==> items == ItemsOf(msg.hostedZones) && cmds == [Emit(RefreshKeymap)]
      ensures !msg.ZoneSelection? ==> items == old(items)
      ensures msg.ErrorMsg? ==> errorRaised && errorReason == msg.reason && cmds == []
      ensures !msg.ErrorMsg? ==> errorRaised == old(errorRaised) && errorReason == old(errorReason)
      ensures msg == KeyPress(Enter) ==>
        cmds == (if EnterSelection(items, index).Some? then [Emit(EnterSelection(items, index).value)] else [])
      ensures msg == KeyPress(ForwardSlash) || msg == KeyPress(Escape) ==> cmds == [Emit(RefreshKeymap)]
      ensures !msg.ZoneSelection? && !msg.KeyPress? ==> cmds == []
      ensures msg.KeyPress? && msg.key !in {Enter, ForwardSlash, Escape} ==> cmds == []
      ensures index == old(index) && filtering == old(filtering) && totalPages == old(totalPages)
      ensures width == old(width) && height == old(height)
    {
      cmds := [];
      match msg {
        case ZoneSelection(zones) =>
          items := LoadItems(zones);
          cmds := [Emit(RefreshKeymap)];
        case ErrorMsg(reason, _) =>
          errorReason := reason;
          errorRaised := true;
        case KeyPress(k) =>
          if k == Enter {
            var selected := EnterSelection(items, index);
            if selected.Some? {
              cmds := [Emit(selected.value)];
            }
          } else if k == ForwardSlash || k == Escape {
            cmds := [Emit(RefreshKeymap)];
          }
        case _ =>
      }
    }

    method Resize(w: int, h: int)
      modifies this
      ensures width == w && height == h
      ensures items == old(items) && index == old(index) && filtering == old(filtering)
      ensures totalPages == old(totalPages)
      ensures errorRaised == old(errorRaised) && errorReason == old(errorReason)
    {
      width := w;
      height := h;
    }
  }
}
