# dns53 association engine, modelled in Dafny

dns53 gives an EC2 instance a temporary private DNS A-record in an Amazon Route 53
private hosted zone (PHZ). This project models the part of dns53 that decides what
happens:

- the metadata walkers that read the instance's identity from IMDS (the instance
  metadata service): the tolerant one in `internal/imds` and the older fail-fast one in
  `pkg/imds`;
- the resolution of a custom domain name. The name can be a template over the metadata.
  Resolution checks the Name tag, kebab-cases it, replaces the dots in the IPv4 address,
  and then tidies the output in a fixed order;
- the Route 53 client. It looks zones up, creates and deletes them, associates and
  disassociates the VPC, and publishes and retracts the record. Three AWS errors count
  as success;
- the `--auto-attach` flow. It creates the zone "dns53" or associates the VPC with it,
  and on exit makes exactly the one request that undoes that change;
- the `imds --instance-metadata-tags on|off` command;
- the interactive program's state machine: the wizard page, the dashboard page, and the
  frame that routes messages between them.

## How it is modelled

- **Services.**
  - The metadata service is a `map<string, string>` from path to content. A missing path
    answers with an error.
  - The Route 53 API is a class `Api`. A `Behaviour` value gives its answer to every
    request, and a ghost log `calls` records every request in order.
  - EC2 is the same kind of class, `Ec2Api`.
- **Proofs about requests.** Each client operation states the request it appends to the
  log and what it makes of the answer. Statements such as "exactly one delete" and "no
  request after a failed lookup" are proved over that log.
- **Pure and stateful code.** Code that only computes is written as functions: `pkg/imds`,
  the domain-name pipeline, and the mapping of API answers. Code that updates state in
  place is written as methods with loops or as classes: the tag map loop, the `ByVPC` and
  `ByName` loops, the attachment struct, the pages and the frame.
- **Messages and commands.** Messages are a datatype. The commands an update returns are
  values. Running a command is a method in the module of the page that issued it.
- **Go string semantics.** Go's `strings` functions are modelled with Go's own semantics
  (module `Text`):
  - `ReplaceAll` and `Count` are non-overlapping, left to right;
  - `TrimPrefix` and `TrimSuffix` remove one copy;
  - `Trim` removes a one-character cutset;
  - `Split` always returns at least one piece;
  - `ToLower` works on ASCII only;
  - the pattern `[^a-zA-Z0-9-.]+` is modelled as `KeepDomainChars`.
- **Libraries.** `text/template` and `stringy.KebabCase` are library code. They are
  modelled by the `Template` and `Kebab` modules, which are checked against the
  repository's test cases.

### What the tidy-up does not guarantee

The final tidy-up at cmd/root.go:276-281 is a fixed sequence of steps, and three facts
about it limit what it guarantees:

- each pattern gets one non-overlapping pass, so `"a---b"` becomes `"a--b"`, and only a
  second run gives `"a-b"` (`DomainName.SanitiseNotIdempotent`);
- `-` is trimmed before `.`, so `".-a"` becomes `"-a"` (`DomainName.SanitiseLeadingHyphen`);
- characters are deleted only after trimming, so `"a-@"` becomes `"a-"`
  (`DomainName.SanitiseTrailingHyphen`).

What does hold:

- the output holds only domain characters;
- text that is already tidy is left unchanged (`DomainName.SanitiseTidy`).

## Model

| member | source | states |
|---|---|---|
| `Imds.Get` | internal/imds/metadata.go:113-124 | a fetch succeeds exactly when the path is served, with its content; otherwise the error names the path |
| `Imds.CheckRoot` | internal/imds/metadata.go:108-111 | the root listing check passes exactly when the empty path is served |
| `Imds.VpcPathInjective` | internal/imds/metadata.go:126-130 | the VPC-id path is built from the MAC so that different MACs give different paths |
| `Imds.Tags` | internal/imds/metadata.go:132-145 | no listing gives the empty map; otherwise one key per newline-separated name, each mapped to its own path's content or "" |
| `Imds.InstanceMetadata` | internal/imds/metadata.go:89-106 | fails exactly when the root listing fails, with that error; otherwise every field is its own path's content ("" on failure), the VPC comes via the MAC, the tags as above and the name is the "Name" tag |
| `Imds.NameFromTags` | internal/imds/metadata.go:102-103 | the name is "" without a tag listing or without a listed "Name", and otherwise the content of the "Name" tag |
| `ImdsLegacy.LegacySuccess` | pkg/imds/metadata.go:81-106 | the fail-fast walk succeeds exactly when all six paths are served; it has then requested them in the order region, IPv4, MAC, VPC id, AZ, instance id and each field is its path's content |
| `ImdsLegacy.LegacyEarlyReturn` | pkg/imds/metadata.go:85-103 | a failed walk requested a prefix of that order, all earlier paths were served, the last was not, the error names it, and nothing after it was requested |
| `ImdsLegacy.VpcStopsOnMac` | pkg/imds/metadata.go:121-133 | a failed MAC fetch stops before the VPC-id path; otherwise the VPC-id path is built from the MAC |
| `Kebab.KebabLowerShape` | cmd/root.go:257-258 | a kebab-cased name is lower case, made of words joined by single hyphens, with no hyphen at either end and no other delimiter |
| `Kebab.KebabExample` | cmd/root_test.go:114-119 | "MyEc2 123" becomes "my-ec2-123" |
| `Kebab.KebabKeptExample` | cmd/root_test.go:42-44 | the Name "my-ec2", already in kebab case, is kept as it is |
| `Template.Execute` | cmd/root.go:268-273 | execution fails exactly when some field node names a field the metadata does not have, and then with an unknown-field error |
| `Template.ExecuteAppend` | cmd/root.go:268-273 | executing two node lists in a row gives the first's text followed by the second's, or the first error met |
| `Template.RenderPlain` | cmd/root.go:265-273 | a domain without "{{" renders to itself, whatever the metadata |
| `Template.RenderUnclosed` | cmd/root.go:265-268 | an action opened and never closed is a parse error, whatever plain text precedes it |
| `Template.RenderPrefix` | cmd/root.go:265-273 | plain text in front of a template is copied through and errors are unchanged |
| `Template.RenderField` | cmd/root.go:265-273 | "{{.F}}" followed by plain text renders to F's value followed by that text, or fails naming F when the metadata has no such field |
| `DomainName.Sanitise` | cmd/root.go:276-281 | the tidy-up leaves only characters of [a-zA-Z0-9-.] and never lengthens the text |
| `DomainName.ResolveDomainName` | cmd/root.go:243-284 | the result holds only domain characters; the tag-support error comes exactly when the space-stripped domain names {{.Name}} and the Name is empty; otherwise a template error is returned as it is, else the tidied output |
| `DomainName.TemplateDataShape` | cmd/root.go:257-262 | the template sees the IPv4 address with every '.' turned into '-' and nothing else changed, the Name kebab-cased exactly when the domain uses it, and all other fields untouched |
| `DomainName.TemplateNameIsKebab` | cmd/root.go:257-258 | when the domain uses the Name, the template sees it kebab-shaped |
| `DomainName.ResolvePlain` | cmd/root.go:265-281 | a domain without actions resolves to its own tidied text |
| `DomainName.ResolveNoTemplating` | cmd/root_test.go:51-55 | "custom.domain" resolves to itself, whatever the metadata |
| `DomainName.ResolveWithNameField` | cmd/root_test.go:56-60 | "custom.{{.Name}}" with the Name "my-ec2" resolves to "custom.my-ec2" |
| `DomainName.ResolveDoubleHyphens` | cmd/root_test.go:66-70 | "another--custom.domain" resolves to "another-custom.domain" |
| `DomainName.ResolveDoubleDots` | cmd/root_test.go:71-75 | "my-custom123..domain" resolves to "my-custom123.domain" |
| `DomainName.ResolveEdgeHyphens` | cmd/root_test.go:76-80 | "-this-is-a-custom.domain-" resolves to "this-is-a-custom.domain" |
| `DomainName.ResolveEdgeDots` | cmd/root_test.go:81-85 | ".a-custom.domain." resolves to "a-custom.domain" |
| `DomainName.ResolveUnsupportedChars` | cmd/root_test.go:86-90 | "custom@#.doma**in-123" resolves to "custom.domain-123" |
| `DomainName.ResolveNoInstanceTags` | cmd/root_test.go:102-112 | "custom.{{.Name}}" without a Name fails with the tag-support message |
| `DomainName.ResolveKebabName` | cmd/root_test.go:114-119 | "first.custom.{{.Name}}" with the Name "MyEc2 123" resolves to "first.custom.my-ec2-123" |
| `DomainName.ResolveInvalidTemplate` | cmd/root_test.go:128-132 | "custom.{{.Name}", whose action is never closed, fails to parse |
| `DomainName.ResolveUnknownField` | cmd/root_test.go:134-138 | "custom.{{.Unknown}}" fails on execution with the unknown field `Unknown`, for any metadata |
| `DomainName.ResolveUnknownAction` | cmd/root.go:262-273 | plain text followed by one action naming a field the metadata lacks fails with that field, the Name-tag guard not applying |
| `DomainName.ResolveNamed` | cmd/root.go:243-284 | plain text followed by {{.Name}} resolves to the tidied text followed by the kebab-cased Name |
| `DomainName.SanitiseTidy` | cmd/root.go:276-281 | already tidy text is left unchanged |
| `DomainName.SanitiseNotIdempotent` | cmd/root.go:276-277 | a second tidy-up can change the first one's result ("a---b") |
| `DomainName.SanitiseLeadingHyphen` | cmd/root.go:278-279 | a hyphen behind a leading dot survives (".-a" gives "-a") |
| `DomainName.SanitiseTrailingHyphen` | cmd/root.go:278-281 | a hyphen before a deleted character survives at the end ("a-@" gives "a-") |
| `Route53.ToPrivateZone` | internal/r53/r53.go:170-174 | one leading "/hostedzone/" comes off the id and one trailing '.' off the name; nothing else changes |
| `Route53.SummaryToZone` | internal/r53/r53.go:194-197 | a by-VPC entry keeps its id and loses one trailing '.' from its name |
| `Route53.SummariesToZones` | internal/r53/r53.go:191-199 | one zone per entry, in the same order |
| `Route53.ZonesFromSummaries` | internal/r53/r53.go:191-199 | the loop builds exactly that list |
| `Route53.FirstMatch` | internal/r53/r53.go:216-230 | none exactly when no zone is private with the dot-trimmed name equal to the query; otherwise the first such zone, normalised |
| `Route53.FirstPrivateMatch` | internal/r53/r53.go:216-230 | the scan with early return finds exactly that zone |
| `Route53.Absorb` | internal/r53/r53.go:145-154 | the benign error and no error give success; every other error passes through unchanged |
| `Route53.RecordChangeRoundTrip` | internal/r53/r53.go:235-258 | a record batch is exactly one change of type A, TTL 300, whose single value is the resource; reading it back gives the action and the record, and only such a batch reads back |
| `Route53.ByNameSkipsPublicZones` | internal/r53/r53_test.go:125-157 | a public zone named "dns53." is passed over for the private one behind it |
| `Route53.ByNameExactMatchOnly` | internal/r53/r53_test.go:159-191 | "dns53zone." does not match the query "dns53" |
| `Route53.Client.ByID` | internal/r53/r53.go:162-175 | one zone lookup; an error is passed on, a zone is normalised |
| `Route53.Client.ByVPC` | internal/r53/r53.go:182-200 | one by-VPC listing; an error is passed on, otherwise every entry is mapped in order |
| `Route53.Client.ByName` | internal/r53/r53.go:208-231 | one by-name listing; an error is passed on, otherwise the first exact private match or none |
| `Route53.Client.CreatePrivateHostedZone` | internal/r53/r53.go:113-133 | one create request for a private zone bound to the given VPC and region; the answer is normalised |
| `Route53.Client.DeletePrivateHostedZone` | internal/r53/r53.go:141-155 | one delete request; a zone that is not empty counts as success |
| `Route53.Client.AssociateVPCWithZone` | internal/r53/r53.go:296-313 | one associate request; an existing association counts as success |
| `Route53.Client.DisassociateVPCWithZone` | internal/r53/r53.go:323-340 | one disassociate request; a missing association counts as success |
| `Route53.Client.AssociateRecord` | internal/r53/r53.go:235-258 | exactly one CREATE change of the record, and its error unchanged |
| `Route53.Client.DisassociateRecord` | internal/r53/r53.go:262-285 | exactly one DELETE change of the record, and its error unchanged |
| `Root.AutoAttachToZone` | cmd/root.go:286-318 | the attachment, the error and the requests made are those of the auto-attach specification |
| `Root.AttachLooksUpFirst` | cmd/root.go:292-317 | auto-attach starts with the by-name lookup and makes at most one more request |
| `Root.AttachLookupError` | cmd/root.go:292-295 | a failed lookup is returned at once, with neither create nor associate |
| `Root.AttachFlags` | cmd/root.go:297-317 | success sets exactly one flag; created means the lookup found nothing and the private zone "dns53" was created in the instance's VPC; associated means the found zone was associated; failure sets neither and no zone id |
| `Root.RemoveAttachmentToZone` | cmd/root.go:320-326 | exactly one request: delete for a created zone, disassociate otherwise, with the benign error absorbed |
| `Root.TeardownUndoesAttach` | cmd/root.go:297-326 | after a successful auto-attach, teardown is exactly the inverse of the one change it made |
| `Root.Run` | cmd/root.go:164-199 | a failed attach ends the run with its error, before the program and with no teardown; a successful one replaces --phz-id with the attached zone and is torn down after the program, whose error is returned |
| `Root.PreRun` | cmd/root.go:150-163 | a metadata failure is returned with the domain untouched; an empty domain is left empty; any other domain is resolved, and a failed resolution leaves it empty |
| `ImdsCommand.Accepted` | cmd/imds.go:51-61 | a value is accepted exactly when its lower-case form is "on" or "off", and that form is what is kept |
| `ImdsCommand.ToggleSetting.Set` | cmd/imds.go:51-61 | an accepted value is stored in lower case; any other returns the fixed error and leaves the setting unchanged |
| `ImdsCommand.ToggleSetting.String` | cmd/imds.go:47-49 | the stored value |
| `ImdsCommand.ToggleSetting.Type` | cmd/imds.go:63-65 | "string" |
| `ImdsCommand.AcceptedIdempotent` | cmd/imds.go:51-57 | an accepted value is accepted again as itself |
| `ImdsCommand.AcceptedMixedCase` | cmd/imds_test.go:45-77 | "oN" is accepted as "on" |
| `ImdsCommand.AcceptedRejects` | cmd/imds_test.go:79-84 | "not-supported" is refused |
| `ImdsCommand.TagsState` | cmd/imds.go:122-129 | "on" asks for "enabled", "off" for "disabled", and only those |
| `ImdsCommand.ToggleMetadataTags` | cmd/imds.go:113-132 | a metadata failure is returned before any EC2 request; otherwise exactly one toggle for the metadata's instance id and the requested state |
| `ImdsCommand.ImdsRun` | cmd/imds.go:95-99 | without a setting nothing is requested and no error is returned; with one but no readable metadata root, nothing is sent and the metadata error is returned; otherwise exactly one toggle for the instance id and the requested state is sent and EC2's error, if any, is returned |
| `WizardPage.ItemsOf` | internal/tui/page/wizard.go:108-117 | one list item per zone, in order, with its name and id |
| `WizardPage.LoadItems` | internal/tui/page/wizard.go:110-114 | the loop builds exactly those items |
| `WizardPage.EnterPanicsOnEmptyList` | internal/tui/page/wizard.go:123-124 | as written, Enter with no selectable item panics |
| `WizardPage.EnterSelection` | internal/tui/page/wizard.go:123-130 | Enter announces the selected item's zone, with its id and name, exactly when an item is selected |
| `WizardPage.EnterAgrees` | internal/tui/page/wizard.go:123-130 | the corrected Enter does what the original does wherever the original does not panic |
| `WizardPage.WizardHelp` | internal/tui/page/wizard.go:183-204 | Quit always comes first; Enter exactly when there are items; Escape exactly while filtering; UpDown and ForwardSlash exactly when not filtering; LeftRight only with more than one page |
| `WizardPage.ZonesMsg` | internal/tui/page/wizard.go:226-237 | a listing becomes the zone-selection message; a failure an error naming the VPC and region |
| `WizardPage.ZoneMsg` | internal/tui/page/wizard.go:239-249 | a found zone is selected directly; a failure is an error naming the id |
| `WizardPage.RunQueryHostedZones` | internal/tui/page/wizard.go:226-237 | one by-VPC listing for the instance's VPC and region, and its message |
| `WizardPage.RunQueryHostedZone` | internal/tui/page/wizard.go:239-249 | one lookup of the given zone, and its message |
| `WizardPage.Wizard.constructor` | internal/tui/page/wizard.go:72-86 | the wizard starts with an empty list and no error |
| `WizardPage.Wizard.Init` | internal/tui/page/wizard.go:88-99 | a given zone id is looked up alone; without one, the zones of the instance's VPC and region are listed |
| `WizardPage.Wizard.Update` | internal/tui/page/wizard.go:101-149 | a listing replaces the items and asks for a key-map refresh; an error raises the panel and leaves the list; Enter emits the selected zone; '/' and Escape ask for a refresh; nothing else changes |
| `WizardPage.Wizard.Resize` | internal/tui/page/wizard.go:210-216 | the page takes the given size and nothing else changes |
| `DashboardPage.DefaultNameCount` | internal/tui/page/dashboard.go:250-253 | the default name holds "dns53" once more than the address and the zone name together |
| `DashboardPage.DefaultNameKept` | internal/tui/page/dashboard.go:248-255 | for an address and a zone free of "dns53", the name is "<ip with dashes>.dns53.<zone>" |
| `DashboardPage.DefaultNameInDns53Zone` | internal/tui/page/dashboard.go:250-255 | in the zone "dns53" the doubled label is dropped: "<ip with dashes>.dns53" |
| `DashboardPage.CustomNameInZone` | internal/tui/page/dashboard.go:256-259 | a custom name always ends with ".<zone>", being either itself or itself with ".<zone>" appended |
| `DashboardPage.CustomNameIdempotent` | internal/tui/page/dashboard.go:256-259 | naming a custom name twice gives the same name |
| `DashboardPage.DashboardHelp` | internal/tui/page/dashboard.go:218-225 | Quit first; Copy exactly when connected |
| `DashboardPage.AssociationMsg` | internal/tui/page/dashboard.go:271-278 | success gives the associated message; failure an error naming the zone |
| `DashboardPage.RunInitAssociation` | internal/tui/page/dashboard.go:264-279 | exactly one CREATE of the record, and its message |
| `DashboardPage.Dashboard.constructor` | internal/tui/page/dashboard.go:80-88 | the dashboard starts unconnected, with no zone, name or error |
| `DashboardPage.Dashboard.Update` | internal/tui/page/dashboard.go:94-149 | a selected zone is stored, the record named and exactly one association issued; connected becomes true only on the associated message and never goes back; an error raises the panel and changes nothing else; Quit retracts the published record exactly when connected, and otherwise makes no request |
| `DashboardPage.Dashboard.Resize` | internal/tui/page/dashboard.go:231-237 | the page takes the given size and nothing else changes |
| `UI.NextPageIndexBounds` | internal/tui/ui.go:130-131 | adding the dashboard's index stays within the two pages exactly when the selection arrives on the wizard, and then lands on the dashboard |
| `UI.SecondSelectionPanics` | internal/tui/ui.go:130-133 | as written, the first selection lands on the dashboard and a second one leaves the index past the two pages, where the key-map refresh panics |
| `UI.EnterTwice` | internal/tui/page/wizard.go:121-130 | Enter pressed twice on a selected zone announces the same zone twice, since Enter leaves the list where it was |
| `UI.Ui.constructor` | internal/tui/ui.go:70-96 | two fresh pages, the wizard current, and the footer showing its keys |
| `UI.Ui.Forward` | internal/tui/ui.go:143-146 | only the current page sees the message and is updated in place; the other page and, on the wizard, the API log are untouched |
| `UI.Ui.Update` | internal/tui/ui.go:109-149 | for every message the current page stays one of the two; a resize gives the header and footer width W-2 and every page W-2 by H-(2+header+footer); a selected zone on the wizard moves to the dashboard, shows its keys and is then handled there, and one arriving on the dashboard changes nothing; Quit is seen by the current page and ends the program; every other message reaches only the current page |

## Left out

- I/O and timing. Clipboard copy, the stopwatch and tick messages, the spinner, and the
  time-based CallerReference of a zone creation are left out. Rendering (every View,
  styles, themes, header, footer and error-panel drawing) is left out too.
- The request tracer and its HTTP proxy (networking and concurrency) are left out.
- AWS configuration loading (`awsConfig`, and the config error in cmd/imds.go:81-93)
  and the cobra wiring are left out.
- Asynchrony. Commands are values that are run one at a time. A command captures the
  page's values when it is issued, whereas Go's closure reads them when it runs.
- `cleanTags` is not part of this model. It only rewrites the tag map, which the
  modelled template subset cannot reach.
- Go returns a zero value alongside an error. The model returns `Err` or `None` instead
  of an empty struct or nil.
- Template.Render: covers only the subset of text/template that a domain can use:
  literal text and one field reference per action, optionally surrounded by spaces
  (`{{ .Name }}`). Pipelines, functions, `{{.}}`, `.Tags` and comments are treated as
  bad actions or unknown fields. Go's error messages are reduced to their kind.
- Kebab.KebabLower: stands in for the stringy library's KebabCase. It is proved
  against the library's observable shape and against the repository's "MyEc2 123" and
  "my-ec2" cases. The "-MyEc2 123-" case (cmd/root_test.go:121-126) is covered only by
  the general shape lemma, not as a literal. Words are split on the space character
  only, whereas Go's `strings.Fields` also splits on tabs, newlines and other Unicode
  white space; a Name tag holding those is not modelled.
- The "custom.{{ .Name }}" row of cmd/root_test.go:61-65, with spaces inside the action,
  is not stated as a literal case. The parser trims those spaces (`Template.ActionText`),
  as text/template does.
- Root.Run: the interactive program is a parameter that reports its error. The
  requests it makes through the pages are stated by the page and frame members, not
  in this method's log.
- Root.PreRun: the AWS configuration step before it (PersistentPreRunE) is left out.
- WizardPage.Wizard.Update: the list widget's own handling of a message is left out.
  Its cursor, filter state and page count are fields that only the widget moves, and
  the filtered view is taken to be the whole list.
- DashboardPage.Dashboard.Update: the Copy key and the clipboard status are left out
  (terminal I/O and timing). The stopwatch start on association is left out as well.
- UI.Ui.Update: the footer is taken to hold a pointer to `component.Footer`, so the
  key-map refresh at internal/tui/ui.go:167-170 succeeds. internal/tui/component/footer.go
  builds the footer by value, and ui.go:168 asserts `*component.Footer`; read together,
  that assertion would panic on every zone selection and every refresh message. The
  declaration of `component.Model` is not part of this model, so which revision holds is
  not settled here.

## Findings

| source | as written | input that shows it | evidently intended | confidence | as-written member | corrected member |
|---|---|---|---|---|---|---|
| internal/tui/page/wizard.go:123-124 | Enter type-asserts `SelectedItem()` to a zone item. `SelectedItem()` is nil when the list has no items, so the assertion panics | Enter pressed while the zones are still loading, or after a listing error, when the list is empty | Enter does nothing until a zone is listed and selected | medium, not executed | `WizardPage.EnterAsWritten` (`WizardPage.EnterPanicsOnEmptyList`) | `WizardPage.EnterSelection` (`WizardPage.EnterAgrees`), used by `WizardPage.Wizard.Update` |
| internal/tui/ui.go:130-133 | A zone selection adds the dashboard's index to the current index and then refreshes the footer from the page at that index. The wizard stays current until the first selection is handled, so a second selection can arrive, and it pushes the index to 2, past the two pages | Enter pressed twice on a listed zone before the frame handles the first selection | the dashboard is entered once, and a selection arriving there is ignored | medium, not executed | `UI.SelectAsWritten` (`UI.SecondSelectionPanics`, `UI.EnterTwice`) | `UI.Ui.Update` |
