/**
 * The `dns53 imds --instance-metadata-tags on|off` command (cmd/imds.go): a flag that
 * accepts "on" or "off" in any letter case, and a toggle of the instance's IMDS tag
 * option through EC2 for the instance named by the metadata.
 */
module ImdsCommand {
  import opened Wrappers
  import opened Text
  import opened Imds

  const SettingOn := "on"
  const SettingOff := "off"

  const SettingError := "supported values are \"on\" or \"off\" (case-insensitive)"

  const ToggleEnabled := "enabled"
  const ToggleDisabled := "disabled"

  /** The setting a flag value stands for: its lower-case form when that is "on" or "off". */
  function Accepted(v: string): (r: Option<string>)
    ensures r.Some? <==> ToLower(v) == SettingOn || ToLower(v) == SettingOff
    ensures r.Some? ==> r.value == ToLower(v)
  {
    var setting := ToLower(v);
    if setting == SettingOn || setting == SettingOff then Some(setting) else None
  }

  /** The flag `--instance-metadata-tags`; "" until it is set. */
  class ToggleSetting {
    var value: string

    constructor()
      ensures value == ""
    {
      value := "";
    }

    /** Set: stores an accepted value in lower case; any other leaves the setting as it was. */
    method Set(v: string) returns (err: Option<string>)
      modifies this
      ensures Accepted(v).Some? ==> value == Accepted(v).value && err.None?
      ensures Accepted(v).None? ==> value == old(value) && err == Some(SettingError)
    {
      var setting := ToLower(v);
      if setting == SettingOn || setting == SettingOff {
        value := setting;
        err := None;
      } else {
        err := Some(SettingError);
      }
    }

    /** String: the stored value, as set. */
    function String(): (r: string)
      reads this
      ensures r == value
    {
      value
    }

    /** Type: the flag is a string flag. */
    function Type(): (r: string)
      ensures r == "string"
    {
      "string"
    }
  }

  /** An accepted value is a fixed point: setting it again stores the same value. */
  lemma AcceptedIdempotent(v: string)
    requires Accepted(v).Some?
    ensures Accepted(Accepted(v).value) == Accepted(v)
  {
    var s := Accepted(v).value;
    if s == SettingOn {
      assert ToLower(s) == SettingOn;
    } else {
      assert ToLower(s) == SettingOff;
    }
  }

  /** Letter case does not matter: "oN" is stored as "on". */
  lemma AcceptedMixedCase()
    ensures Accepted("oN") == Some("on")
  {
    var lower := ToLower("oN");
    assert lower[0] == 'o' && lower[1] == 'n';
    assert lower == "on";
  }

  /** Any other value is refused. */
  lemma AcceptedRejects()
    ensures Accepted("not-supported") == None
  {
    assert |ToLower("not-supported")| == 13;
  }

  /** The EC2 state a setting asks for; "" for a value that is neither (never stored by Set). */
  function TagsState(setting: string): (r: string)
    ensures setting == SettingOn <==> r == ToggleEnabled
    ensures setting == SettingOff <==> r == ToggleDisabled
    ensures setting != SettingOn && setting != SettingOff ==> r == ""
  {
    if setting == SettingOn then ToggleEnabled
    else if setting == SettingOff then ToggleDisabled
    else ""
  }

  /** The EC2 API: answers each toggle as `answer` says and logs (instance id, state). */
  class Ec2Api {
    const answer: (string, string) -> Option<string>
    ghost var toggles: seq<(string, string)>

    constructor(answer: (string, string) -> Option<string>)
      ensures this.answer == answer && toggles == []
    {
      this.answer := answer;
      toggles := [];
    }

    method ToggleInstanceMetadataTags(id: string, state: string) returns (err: Option<string>)
      modifies this
      ensures toggles == old(toggles) + [(id, state)]
      ensures err == answer(id, state)
    {
      toggles := toggles + [(id, state)];
      err := answer(id, state);
    }
  }

  datatype ToggleError = MetadataFailed(imdsCause: ImdsError) | Ec2Failed(message: string)

  /**
   * toggleMetadataTags: a failed metadata read ends the command before EC2 is called;
   * otherwise one toggle is sent for the instance id the metadata holds.
   */
  method ToggleMetadataTags(ec2: Ec2Api, svc: Service, setting: string) returns (err: Option<ToggleError>)
    modifies ec2
    ensures PathRoot !in svc ==> ec2.toggles == old(ec2.toggles) && err == Some(MetadataFailed(NotFound(PathRoot)))
    ensures PathRoot in svc ==>
      var request := (Content(svc, PathInstanceID), TagsState(setting));
      && ec2.toggles == old(ec2.toggles) + [request]
      && err == (if ec2.answer(request.0, request.1).Some? then Some(Ec2Failed(ec2.answer(request.0, request.1).value)) else None)
  {
    var metadata := InstanceMetadata(svc);
    if metadata.Err? {
      return Some(MetadataFailed(metadata.error));
    }
    var toggle := TagsState(setting);
    var e := ec2.ToggleInstanceMetadataTags(metadata.value.instanceId, toggle);
    err := if e.Some? then Some(Ec2Failed(e.value)) else None;
  }

  /** The command's run: without a setting it does nothing at all. */
  method ImdsRun(ec2: Ec2Api, svc: Service, setting: ToggleSetting) returns (err: Option<ToggleError>)
    modifies ec2
    ensures setting.value == "" ==> ec2.toggles == old(ec2.toggles) && err.None?
    ensures setting.value != "" && PathRoot !in svc ==>
      ec2.toggles == old(ec2.toggles) && err == Some(MetadataFailed(NotFound(PathRoot)))
    ensures setting.value != "" && PathRoot in svc ==>
      var request := (Content(svc, PathInstanceID), TagsState(setting.value));
      && ec2.toggles == old(ec2.toggles) + [request]
      && err == (if ec2.answer(request.0, request.1).Some? then Some(Ec2Failed(ec2.answer(request.0, request.1).value)) else None)
  {
    if setting.value == "" {
      return None;
    }
    err := ToggleMetadataTags(ec2, svc, setting.value);
  }
}
