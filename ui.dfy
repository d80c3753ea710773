/**
 * The program's frame (internal/tui/ui.go): two pages, the wizard and the dashboard,
 * of which one is current; a header and a footer whose key map follows the current
 * page. Every message goes to the current page only, except that a resize reaches
 * every page and Quit ends the program right after the current page has seen it.
 *
 * The footer's keys are held here as `footerKeys`, a copy of the current page's keys
 * taken at each refresh. The footer of internal/tui/component/footer.go:69 keeps the
 * page itself and asks it for its keys on every render. The two agree once the refresh
 * message, emitted by every update that changes the keys, has been handled.
 */
module UI {
  import opened Imds
  import opened Route53
  import opened Message
  import opened WizardPage
  import opened DashboardPage

  const WizardIndex := 0
  const DashboardIndex := 1
  const PageCount := 2

  /** The frame's margin of one cell on each side, across and down. */
  const MarginX := 2
  const MarginY := 2

  /** The index after a zone is selected: the dashboard's index is added to it. */
  function NextPageIndex(i: int): int {
    i + DashboardIndex
  }

  /** The added index names a page only when the selection arrives on the wizard. */
  lemma NextPageIndexBounds(i: int)
    requires 0 <= i < PageCount
    ensures (0 <= NextPageIndex(i) < PageCount) <==> i == WizardIndex
    ensures i == WizardIndex ==> NextPageIndex(i) == DashboardIndex
  {
  }

  /**
   * A zone selection as written: the index is advanced and then used to pick the page
   * whose keys the footer shows, which panics once the index is past the last page.
   */
  datatype SelectOutcome = OnPage(index: int) | IndexPanic

  function SelectAsWritten(i: int): SelectOutcome {
    var next := NextPageIndex(i);
    if 0 <= next < PageCount then OnPage(next) else IndexPanic
  }

  /** The first selection lands on the dashboard; a second one, handled there, panics. */
  lemma SecondSelectionPanics()
    ensures SelectAsWritten(WizardIndex) == OnPage(DashboardIndex)
    ensures SelectAsWritten(SelectAsWritten(WizardIndex).index) == IndexPanic
  {
  }

  /**
   * Enter pressed twice on a selected zone announces it twice: Enter leaves the list as
   * it is, so the second press emits the same selection before the frame has handled
   * the first, and both selections reach the frame.
   */
  method EnterTwice(w: Wizard) returns (first: seq<Cmd>, second: seq<Cmd>)
    requires w.index < |w.items|
    modifies w
    ensures w.items == old(w.items) && w.index == old(w.index)
    ensures first == [Emit(ZoneSelected(PrivateHostedZone(w.items[w.index].id, w.items[w.index].name)))]
    ensures second == first
  {
    first := w.Update(KeyPress(Enter));
    second := w.Update(KeyPress(Enter));
  }

  class Ui {
    const wizard: Wizard
    const dashboard: Dashboard
    const headerHeight: int
    const footerHeight: int
    var pageIndex: int
    var footerKeys: seq<Key>
    var headerWidth: int
    var footerWidth: int

    /** New: both pages, the wizard current, the footer showing its keys. */
    constructor(client: Client, metadata: Metadata, hostedZoneId: string, domainName: string,
                headerHeight: int, footerHeight: int)
      ensures fresh(wizard) && fresh(dashboard)
      ensures wizard.hostedZoneId == hostedZoneId && wizard.metadata == metadata && wizard.items == []
      ensures dashboard.client == client && dashboard.metadata == metadata && dashboard.customName == domainName
      ensures !dashboard.connected
      ensures pageIndex == WizardIndex && footerKeys == [Quit]
      ensures this.headerHeight == headerHeight && this.footerHeight == footerHeight
    {
      wizard := new Wizard(hostedZoneId, metadata);
      dashboard := new Dashboard(client, metadata, domainName);
      this.headerHeight := headerHeight;
      this.footerHeight := footerHeight;
      pageIndex := WizardIndex;
      headerWidth := 0;
      footerWidth := 0;
      new;
      footerKeys := wizard.ShortHelp();
    }

    predicate Valid()
      reads this
    {
      pageIndex == WizardIndex || pageIndex == DashboardIndex
    }

    /** The key map of the current page. */
    function CurrentKeys(): seq<Key>
      requires Valid()
      reads this, wizard, dashboard
    {
      if pageIndex == WizardIndex then wizard.ShortHelp() else dashboard.ShortHelp()
    }

    /** Hands the message to the current page; the page is updated in place. */
    method Forward(msg: Msg) returns (cmds: seq<Cmd>)
      requires Valid()
      modifies wizard, dashboard, dashboard.client.api
      ensures pageIndex == WizardIndex ==>
        unchanged(dashboard) && dashboard.client.api.calls == old(dashboard.client.api.calls)
      ensures pageIndex == DashboardIndex ==> unchanged(wizard)
      ensures pageIndex == WizardIndex ==> wizard.width == old(wizard.width) && wizard.height == old(wizard.height)
      ensures pageIndex == WizardIndex && msg.ZoneSelection? ==> wizard.items == ItemsOf(msg.hostedZones)
      ensures pageIndex == WizardIndex && !msg.ZoneSelection? ==> wizard.items == old(wizard.items)
      ensures pageIndex == WizardIndex && msg == KeyPress(Enter) ==>
        cmds == (if EnterSelection(wizard.items, wizard.index).Some? then [Emit(EnterSelection(wizard.items, wizard.index).value)] else [])
      ensures pageIndex == DashboardIndex ==>
        dashboard.connected == (old(dashboard.connected) || msg == Associated)
        && dashboard.width == old(dashboard.width) && dashboard.height == old(dashboard.height)
      ensures pageIndex == DashboardIndex && msg.ZoneSelected? ==>
        && dashboard.selected == msg.hostedZone
        && dashboard.domainName == RecordName(dashboard.customName, dashboard.metadata.ipv4, msg.hostedZone.name)
        && cmds == [InitAssociation(dashboard.Published(), msg.hostedZone.name)]
      ensures pageIndex == DashboardIndex && msg == KeyPress(Quit) && old(dashboard.connected) ==>
        dashboard.client.api.calls == old(dashboard.client.api.calls)
          + [Call.ChangeResourceRecordSets(RecordChange(Delete, dashboard.Published()))]
      ensures pageIndex == DashboardIndex && !(msg == KeyPress(Quit) && old(dashboard.connected)) ==>
        dashboard.client.api.calls == old(dashboard.client.api.calls)
    {
      if pageIndex == WizardIndex {
        cmds := wizard.Update(msg);
      } else {
        cmds := dashboard.Update(msg);
      }
    }

    /**
     * Update. A resize gives the header and footer the width inside the frame and every
     * page the space left between them; a selected zone moves to the dashboard and shows
     * its keys before the dashboard sees the message, and a further selection arriving
     * on the dashboard is ignored; Quit is seen by the current page and then ends the
     * program; every message reaches the current page.
     */
    method Update(msg: Msg) returns (quit: bool, cmds: seq<Cmd>)
      requires Valid()
      modifies this, wizard, dashboard, dashboard.client.api
      ensures Valid()
      ensures pageIndex == (if msg.ZoneSelected? then DashboardIndex else old(pageIndex))
      ensures msg.ZoneSelected? && old(pageIndex) == WizardIndex ==> pageIndex == NextPageIndex(old(pageIndex))
      ensures quit <==> msg == KeyPress(Quit)
      ensures quit ==> cmds == []
      ensures msg.WindowSize? ==>
        && headerWidth == msg.width - MarginX && footerWidth == msg.width - MarginX
        && wizard.width == msg.width - MarginX && dashboard.width == msg.width - MarginX
        && wizard.height == msg.height - (MarginY + headerHeight + footerHeight)
        && dashboard.height == msg.height - (MarginY + headerHeight + footerHeight)
      ensures !msg.WindowSize? ==>
        && headerWidth == old(headerWidth) && footerWidth == old(footerWidth)
        && wizard.width == old(wizard.width) && wizard.height == old(wizard.height)
        && dashboard.width == old(dashboard.width) && dashboard.height == old(dashboard.height)
      ensures msg.ZoneSelected? && old(pageIndex) == WizardIndex ==> footerKeys == DashboardHelp(old(dashboard.connected))
      ensures msg == RefreshKeymap ==> footerKeys == old(CurrentKeys())
      ensures !(msg.ZoneSelected? && old(pageIndex) == WizardIndex) && msg != RefreshKeymap ==> footerKeys == old(footerKeys)
      ensures msg.ZoneSelected? && old(pageIndex) == WizardIndex ==>
        && unchanged(wizard)
        && dashboard.selected == msg.hostedZone
        && cmds == [InitAssociation(dashboard.Published(), msg.hostedZone.name)]
      ensures msg.ZoneSelected? && old(pageIndex) == DashboardIndex ==>
        unchanged(wizard) && unchanged(dashboard) && cmds == []
      ensures pageIndex == WizardIndex && !msg.WindowSize? ==>
        unchanged(dashboard) && dashboard.client.api.calls == old(dashboard.client.api.calls)
      ensures pageIndex == DashboardIndex && !msg.WindowSize? ==> unchanged(wizard)
      ensures pageIndex == DashboardIndex ==> dashboard.connected == (old(dashboard.connected) || msg == Associated)
      ensures pageIndex == DashboardIndex && msg == KeyPress(Quit) && old(dashboard.connected) ==>
        dashboard.client.api.calls == old(dashboard.client.api.calls)
          + [Call.ChangeResourceRecordSets(RecordChange(Delete, dashboard.Published()))]
      ensures !(pageIndex == DashboardIndex && msg == KeyPress(Quit) && old(dashboard.connected)) ==>
        dashboard.client.api.calls == old(dashboard.client.api.calls)
    {
      quit := false;
      match msg {
        case WindowSize(w, h) =>
          headerWidth := w - MarginX;
          footerWidth := w - MarginX;
          var pageX := w - MarginX;
          var pageY := h - (MarginY + headerHeight + footerHeight);
          wizard.Resize(pageX, pageY);
          dashboard.Resize(pageX, pageY);
        case ZoneSelected(_) =>
          if pageIndex == DashboardIndex {
            return false, [];
          }
          NextPageIndexBounds(pageIndex);
          pageIndex := NextPageIndex(pageIndex);
          footerKeys := CurrentKeys();
        case RefreshKeymap =>
          footerKeys := CurrentKeys();
        case KeyPress(k) =>
          if k == Quit {
            var _ := Forward(msg);
            return true, [];
          }
        case _ =>
      }
      cmds := Forward(msg);
    }
  }
}
