/**
 * The messages the interactive program passes between its pages, the keys it binds,
 * and the commands an update hands back to be run. A command is a value here; running
 * it is a method of the page that issued it.
 */
module Message {
  import opened Route53

  /** The key bindings of the program. */
  datatype Key = Quit | Copy | Enter | ForwardSlash | Escape | UpDown | LeftRight | OtherKey

  datatype Msg =
    | ZoneSelection(hostedZones: seq<PrivateHostedZone>)  // the wizard's zone listing arrived
    | ZoneSelected(hostedZone: PrivateHostedZone)         // a zone was chosen
    | Associated                                          // the A-record was published
    | ErrorMsg(reason: string, cause: ApiError)
    | RefreshKeymap
    | KeyPress(key: Key)
    | WindowSize(width: int, height: int)

  datatype Cmd =
    | Emit(msg: Msg)
    | QueryHostedZone(id: string)
    | QueryHostedZones(vpc: string, region: string)
    | InitAssociation(record: ResourceRecord, zoneName: string)
}
