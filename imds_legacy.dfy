/**
 * The older, fail-fast metadata walker of pkg/imds. Five fields are fetched in a
 * fixed order, and the first failed fetch ends the walk with an empty result and that
 * error. Each step is modelled as a value that also records the paths it requested,
 * so the order of the requests and the early return can be stated.
 */
module ImdsLegacy {
  import opened Wrappers
  import opened Imds

  datatype LegacyMetadata = LegacyMetadata(
    ipv4: string,
    region: string,
    vpc: string,
    az: string,
    instanceId: string)

  /** A result together with the paths requested, in order, to reach it. */
  datatype Traced<T> = Traced(result: Result<T, ImdsError>, requested: seq<string>)

  /** get: a single request. */
  function Fetch(svc: Service, path: string): Traced<string> {
    Traced(Get(svc, path), [path])
  }

  /** vpc: the MAC address first, then the VPC id under it; a failed MAC fetch stops. */
  function LegacyVpc(svc: Service): Traced<string> {
    var mac := Fetch(svc, PathMacAddress);
    if mac.result.Err? then Traced(Err(mac.result.error), mac.requested)
    else
      var vpc := Fetch(svc, VpcPath(mac.result.value));
      Traced(vpc.result, mac.requested + vpc.requested)
  }

  /** InstanceMetadata: region, IPv4, VPC, AZ, instance id, each returning early on error. */
  function LegacyInstanceMetadata(svc: Service): Traced<LegacyMetadata> {
    var region := Fetch(svc, PathPlacementRegion);
    if region.result.Err? then Traced(Err(region.result.error), region.requested)
    else
      var ipv4 := Fetch(svc, PathIPv4);
      var t1 := region.requested + ipv4.requested;
      if ipv4.result.Err? then Traced(Err(ipv4.result.error), t1)
      else
        var vpc := LegacyVpc(svc);
        var t2 := t1 + vpc.requested;
        if vpc.result.Err? then Traced(Err(vpc.result.error), t2)
        else
          var az := Fetch(svc, PathPlacementAZ);
          var t3 := t2 + az.requested;
          if az.result.Err? then Traced(Err(az.result.error), t3)
          else
            var id := Fetch(svc, PathInstanceID);
            var t4 := t3 + id.requested;
            if id.result.Err? then Traced(Err(id.result.error), t4)
            else
              Traced(Ok(LegacyMetadata(
                ipv4.result.value, region.result.value, vpc.result.value,
                az.result.value, id.result.value)), t4)
  }

  /** Every path the walk would request if nothing failed, in request order. */
  function FullOrder(svc: Service): seq<string> {
    [PathPlacementRegion, PathIPv4, PathMacAddress,
     VpcPath(Content(svc, PathMacAddress)), PathPlacementAZ, PathInstanceID]
  }

  /**
   * The walk succeeds exactly when every path in the order is answered; it then has
   * requested all of them, in order, and each field holds its path's content.
   */
  lemma LegacySuccess(svc: Service)
    ensures var t := LegacyInstanceMetadata(svc);
      t.result.Ok? <==> (forall i :: 0 <= i < |FullOrder(svc)| ==> FullOrder(svc)[i] in svc)
    ensures var t := LegacyInstanceMetadata(svc);
      t.result.Ok? ==>
        && t.requested == FullOrder(svc)
        && t.result.value.region == svc[PathPlacementRegion]
        && t.result.value.ipv4 == svc[PathIPv4]
        && t.result.value.vpc == svc[VpcPath(svc[PathMacAddress])]
        && t.result.value.az == svc[PathPlacementAZ]
        && t.result.value.instanceId == svc[PathInstanceID]
  {
    var order := FullOrder(svc);
    if forall i :: 0 <= i < |order| ==> order[i] in svc {
      assert order[0] in svc && order[1] in svc && order[2] in svc;
      assert order[3] in svc && order[4] in svc && order[5] in svc;
    }
  }

  /**
   * A failed walk stops at the first unanswered path: what it requested is a prefix of
   * the full order, every earlier path was answered, the last one was not, and the error
   * names that last path. No later path is ever requested.
   */
  lemma LegacyEarlyReturn(svc: Service)
    ensures var t := LegacyInstanceMetadata(svc);
      t.result.Err? ==>
        && 0 < |t.requested| <= |FullOrder(svc)|
        && t.requested == FullOrder(svc)[..|t.requested|]
        && t.result.error == NotFound(t.requested[|t.requested| - 1])
        && t.requested[|t.requested| - 1] !in svc
        && (forall i :: 0 <= i < |t.requested| - 1 ==> t.requested[i] in svc)
  {
    var t := LegacyInstanceMetadata(svc);
    var order := FullOrder(svc);
    if t.result.Err? {
      var n := if PathPlacementRegion !in svc then 1
        else if PathIPv4 !in svc then 2
        else if PathMacAddress !in svc then 3
        else if order[3] !in svc then 4
        else if PathPlacementAZ !in svc then 5
        else 6;
      assert t.requested == order[..n];
      assert t.result.error == NotFound(order[n - 1]);
    }
  }

  /** A failed MAC fetch ends the VPC step before the VPC id is requested. */
  lemma VpcStopsOnMac(svc: Service)
    ensures PathMacAddress !in svc ==>
      LegacyVpc(svc) == Traced(Err(NotFound(PathMacAddress)), [PathMacAddress])
    ensures PathMacAddress in svc ==>
      LegacyVpc(svc).requested == [PathMacAddress, VpcPath(svc[PathMacAddress])]
  {
  }
}
