/**
 * The metadata walker of internal/imds: it reads an EC2 instance's identity from the
 * Instance Metadata Service (IMDS). Only the root listing is fatal; every other fetch
 * that fails leaves its field empty.
 *
 * The service is modelled as what it answers: a map from path to content, in which
 * a path that is absent answers with an error.
 */
module Imds {
  import opened Wrappers
  import opened Text

  /** Path to content, as the service would answer it. */
  type Service = map<string, string>

  const PathRoot := ""
  const PathIPv4 := "local-ipv4"
  const PathMacAddress := "mac"
  const PathPlacementRegion := "placement/region"
  const PathPlacementAZ := "placement/availability-zone"
  const PathInstanceID := "instance-id"
  const PathTagsInstance := "tags/instance"

  datatype ImdsError = NotFound(path: string)

  /** What is known about the instance. `tags` is empty unless tags are exposed in IMDS. */
  datatype Metadata = Metadata(
    ipv4: string,
    region: string,
    vpc: string,
    az: string,
    instanceId: string,
    name: string,
    tags: map<string, string>)

  const EmptyMetadata := Metadata("", "", "", "", "", "", map[])

  /** One request: the content of `path`, or the error the service answers with. */
  function Get(svc: Service, path: string): (r: Result<string, ImdsError>)
    ensures r.Ok? <==> path in svc
    ensures r.Ok? ==> r.value == svc[path]
    ensures r.Err? ==> r.error == NotFound(path)
  {
    if path in svc then Ok(svc[path]) else Err(NotFound(path))
  }

  /** A fetch whose error is discarded (`value, _ := get(...)`): "" when it fails. */
  function Content(svc: Service, path: string): string {
    match Get(svc, path)
    case Ok(v) => v
    case Err(_) => ""
  }

  /** checkRoot: the root listing must be readable. */
  function CheckRoot(svc: Service): (r: Option<ImdsError>)
    ensures r.None? <==> PathRoot in svc
    ensures r.Some? ==> r.value == NotFound(PathRoot)
  {
    match Get(svc, PathRoot)
    case Ok(_) => None
    case Err(e) => Some(e)
  }

  /** The path of the VPC id of the network interface with the given MAC address. */
  function VpcPath(mac: string): string {
    "network/interfaces/macs/" + mac + "/vpc-id"
  }

  /** Different MAC addresses never share a VPC path. */
  lemma VpcPathInjective(a: string, b: string)
    requires VpcPath(a) == VpcPath(b)
    ensures a == b
  {
    var prefix := "network/interfaces/macs/";
    var suffix := "/vpc-id";
    assert a == VpcPath(a)[|prefix|..|VpcPath(a)| - |suffix|];
    assert b == VpcPath(b)[|prefix|..|VpcPath(b)| - |suffix|];
  }

  /** vpc: the MAC address is fetched first and names the path of the VPC id. */
  function Vpc(svc: Service): string {
    Content(svc, VpcPath(Content(svc, PathMacAddress)))
  }

  function TagPath(key: string): string {
    PathTagsInstance + "/" + key
  }

  /**
   * What `tags` promises: nothing when the listing cannot be read; otherwise one key per
   * listed name, each mapped to the content of its own path, or "" when that fails.
   */
  predicate TagsFrom(svc: Service, tags: map<string, string>) {
    (PathTagsInstance !in svc ==> tags == map[])
    && (PathTagsInstance in svc ==>
          tags.Keys == set n | n in Split(svc[PathTagsInstance], '\n'))
    && (forall k :: k in tags ==> tags[k] == Content(svc, TagPath(k)))
  }

  /** tags: the instance tags, one fetch per name of the newline-separated listing. */
  method Tags(svc: Service) returns (tags: map<string, string>)
    ensures TagsFrom(svc, tags)
  {
    var listing := Get(svc, PathTagsInstance);
    if listing.Err? {
      return map[];
    }
    var names := Split(listing.value, '\n');
    tags := map[];
    var i := 0;
    while i < |names|
      invariant 0 <= i <= |names|
      invariant tags.Keys == set n | n in names[..i]
      invariant forall k :: k in tags ==> tags[k] == Content(svc, TagPath(k))
    {
      var tag := Content(svc, TagPath(names[i]));
      tags := tags[names[i] := tag];
      assert names[..i + 1] == names[..i] + [names[i]];
      i := i + 1;
    }
    assert names[..i] == names;
  }

  /**
   * A successful read of `svc`: every field holds what its own path answered ("" if it
   * did not), and the name is the "Name" tag.
   */
  predicate Describes(svc: Service, md: Metadata) {
    && md.az == Content(svc, PathPlacementAZ)
    && md.instanceId == Content(svc, PathInstanceID)
    && md.ipv4 == Content(svc, PathIPv4)
    && md.region == Content(svc, PathPlacementRegion)
    && md.vpc == Vpc(svc)
    && TagsFrom(svc, md.tags)
    && md.name == (if "Name" in md.tags then md.tags["Name"] else "")
  }

  /** InstanceMetadata: fails only when the root listing fails. */
  method InstanceMetadata(svc: Service) returns (r: Result<Metadata, ImdsError>)
    ensures r.Err? <==> PathRoot !in svc
    ensures r.Err? ==> r.error == NotFound(PathRoot)
    ensures r.Ok? ==> Describes(svc, r.value)
  {
    var rootErr := CheckRoot(svc);
    if rootErr.Some? {
      return Err(rootErr.value);
    }
    var md := EmptyMetadata;
    md := md.(az := Content(svc, PathPlacementAZ));
    md := md.(instanceId := Content(svc, PathInstanceID));
    md := md.(ipv4 := Content(svc, PathIPv4));
    var tags := Tags(svc);
    md := md.(tags := tags);
    md := md.(region := Content(svc, PathPlacementRegion));
    md := md.(vpc := Vpc(svc));
    md := md.(name := if "Name" in md.tags then md.tags["Name"] else "");
    return Ok(md);
  }

  /**
   * The Name field is the content of the "Name" tag when the listing names it, and ""
   * when tags are unavailable or no "Name" tag is listed.
   */
  lemma NameFromTags(svc: Service, md: Metadata)
    requires Describes(svc, md)
    ensures PathTagsInstance !in svc ==> md.name == ""
    ensures PathTagsInstance in svc && "Name" in Split(svc[PathTagsInstance], '\n') ==>
      md.name == Content(svc, TagPath("Name"))
    ensures PathTagsInstance in svc && "Name" !in Split(svc[PathTagsInstance], '\n') ==>
      md.name == ""
  {
    if PathTagsInstance in svc {
      var names := Split(svc[PathTagsInstance], '\n');
      assert "Name" in md.tags <==> "Name" in names;
    }
  }
}
