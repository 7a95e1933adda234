/**
 * One EC2 instance record as `describe_instances` returns it, and its normalisation into
 * the Snipe-IT hardware payload (`get_tag_value` and `process_aws_instance`).
 */
module Instances {
  import opened Common
  import opened Text
  import opened Dates

  datatype Tag = Tag(key: string, value: string)

  datatype SecurityGroup = SecurityGroup(groupId: Option<string>)

  datatype NetworkInterface = NetworkInterface(macAddress: Option<string>)

  datatype Placement = Placement(availabilityZone: Option<string>)

  datatype InstanceState = InstanceState(name: Option<string>)

  /** The raw instance: every key but `InstanceId` may be absent (`None`). */
  datatype RawInstance = RawInstance(
    instanceId: string,
    tags: Option<seq<Tag>>,
    platformDetails: Option<string>,
    launchTime: Option<Date>,
    securityGroups: Option<seq<SecurityGroup>>,
    networkInterfaces: Option<seq<NetworkInterface>>,
    instanceType: Option<string>,
    privateIpAddress: Option<string>,
    publicIpAddress: Option<string>,
    vpcId: Option<string>,
    privateDnsName: Option<string>,
    placement: Option<Placement>,
    subnetId: Option<string>,
    state: Option<InstanceState>,
    imageId: Option<string>,
    architecture: Option<string>,
    rootDeviceType: Option<string>,
    virtualizationType: Option<string>)

  /** The configured DEFAULT_STATUS_ID and DEFAULT_MODEL_ID. */
  datatype Config = Config(statusId: int, modelId: int)

  const NOT_APPLICABLE := "N/A"
  const NO_DESCRIPTION := "No description"
  const DEFAULT_CRITICALITY := "Medium"
  const UNASSIGNED := "Unassigned"
  const UNKNOWN_STATE := "unknown"
  const DEFAULT_PLATFORM := "Linux/UNIX"

  /**
   * The Snipe-IT hardware payload. The comment after each custom field gives the JSON key
   * the script writes it under.
   */
  datatype Payload = Payload(
    assetTag: string,
    serial: string,
    name: string,
    statusId: int,
    modelId: int,
    purchaseDate: Option<string>,
    notes: string,
    instanceType: string,      // _snipeit_instance_type_3
    description: string,       // _snipeit_description_4
    privateIp: string,         // _snipeit_private_ip_address_13
    publicIp: string,          // _snipeit_public_ip_address_14
    platform: string,          // _snipeit_platform_7
    vpcId: string,             // _snipeit_vpc_id_8
    dnsName: string,           // _snipeit_dns_name_9
    macAddress: string,        // _snipeit_mac_address_1
    vendorSupportEnd: string,  // _snipeit_vendor_support_end_date_15
    criticality: string,       // _snipeit_criticality_16
    assetOwner: string,        // _snipeit_asset_owner_12
    awsRegion: string,         // _snipeit_aws_region_17
    awsAccount: string,        // _snipeit_aws_account_18
    availabilityZone: string,  // _snipeit_availability_zone_19
    subnetId: string,          // _snipeit_subnet_id_20
    securityGroups: string,    // _snipeit_security_groups_21
    instanceState: string,     // _snipeit_instance_state_22
    launchTime: string,        // _snipeit_launch_time_23
    amiId: string,             // _snipeit_ami_id_24
    architecture: string,      // _snipeit_architecture_25
    rootDeviceType: string,    // _snipeit_root_device_type_26
    virtualizationType: string // _snipeit_virtualization_type_27
  )

  function FirstKeyed(tags: seq<Tag>, key: string): (i: nat)
    ensures i <= |tags|
    ensures forall j :: 0 <= j < i ==> tags[j].key != key
    ensures i < |tags| ==> tags[i].key == key
  {
    FirstIndexWhere(tags, (t: Tag) => t.key == key)
  }

  /** `get_tag_value`: the value of the first tag with this key; `None` for no or empty tags. */
  function TagLookup(tags: Option<seq<Tag>>, key: string): Option<string> {
    if tags.None? then None
    else
      var i := FirstKeyed(tags.value, key);
      if i < |tags.value| then Some(tags.value[i].value) else None
  }

  predicate HasTag(tags: seq<Tag>, key: string) {
    exists j :: 0 <= j < |tags| && tags[j].key == key
  }

  /** Tag `i` is the first one whose key is `key`. */
  predicate IsFirstTag(tags: seq<Tag>, key: string, i: nat) {
    i < |tags| && tags[i].key == key && forall j :: 0 <= j < i ==> tags[j].key != key
  }

  /** The lookup is the first match, and finds nothing exactly when no tag has the key. */
  lemma TagLookupFirstMatch(tags: seq<Tag>, key: string)
    ensures TagLookup(Some(tags), key).None? <==> !HasTag(tags, key)
    ensures forall i: nat :: IsFirstTag(tags, key, i) ==> TagLookup(Some(tags), key) == Some(tags[i].value)
  {
    var k := FirstKeyed(tags, key);
    if HasTag(tags, key) {
      var j :| 0 <= j < |tags| && tags[j].key == key;
      assert k <= j;
    }
    forall i: nat | IsFirstTag(tags, key, i)
      ensures k == i
    {
    }
  }

  /** The search loop of `get_tag_value`, with its early return. */
  method GetTagValue(tags: Option<seq<Tag>>, key: string) returns (v: Option<string>)
    ensures v == TagLookup(tags, key)
  {
    if tags.Some? {
      var ts := tags.value;
      var i := 0;
      while i < |ts|
        invariant 0 <= i <= |ts|
        invariant forall j :: 0 <= j < i ==> ts[j].key != key
      {
        if ts[i].key == key {
          TagLookupFirstMatch(ts, key);
          assert IsFirstTag(ts, key, i);
          return Some(ts[i].value);
        }
        i := i + 1;
      }
      TagLookupFirstMatch(ts, key);
    }
    return None;
  }

  /** A tag-sourced field: `get_tag_value(tags, key) or default`. */
  function TagOr(tags: seq<Tag>, key: string, default: string): string {
    OrElse(TagLookup(Some(tags), key), default)
  }

  function GroupIds(raw: RawInstance): seq<string> {
    var groups := raw.securityGroups.GetOr([]);
    seq(|groups|, i requires 0 <= i < |groups| => groups[i].groupId.GetOr(""))
  }

  function MacAddress(raw: RawInstance): string {
    var interfaces := raw.networkInterfaces.GetOr([]);
    if |interfaces| > 0 then interfaces[0].macAddress.GetOr(NOT_APPLICABLE) else NOT_APPLICABLE
  }

  function LaunchDate(raw: RawInstance): Option<string> {
    if raw.launchTime.Some? then Some(FormatDate(raw.launchTime.value)) else None
  }

  function StateField(raw: RawInstance): string {
    if raw.state.Some? then raw.state.value.name.GetOr(UNKNOWN_STATE) else UNKNOWN_STATE
  }

  function ZoneField(raw: RawInstance): string {
    if raw.placement.Some? then raw.placement.value.availabilityZone.GetOr(NOT_APPLICABLE) else NOT_APPLICABLE
  }

  /** `process_aws_instance`: the payload, and the asset tag returned beside it. */
  function ProcessInstance(raw: RawInstance, accountName: string, regionName: string, cfg: Config): (r: (Payload, string))
    ensures r.1 == raw.instanceId
    ensures r.0.assetTag == r.1 && r.0.serial == r.1
    ensures r.0.awsAccount == accountName && r.0.awsRegion == regionName
    ensures r.0.notes == "AWS Account: " + accountName + ", Region: " + regionName
    ensures r.0.statusId == cfg.statusId && r.0.modelId == cfg.modelId
  {
    var assetTag := raw.instanceId;
    var tags := raw.tags.GetOr([]);
    var launch := LaunchDate(raw);
    var payload := Payload(
      assetTag := assetTag,
      serial := assetTag,
      name := TagOr(tags, "Name", assetTag),
      statusId := cfg.statusId,
      modelId := cfg.modelId,
      purchaseDate := launch,
      notes := "AWS Account: " + accountName + ", Region: " + regionName,
      instanceType := raw.instanceType.GetOr(NOT_APPLICABLE),
      description := TagOr(tags, "Description", NO_DESCRIPTION),
      privateIp := raw.privateIpAddress.GetOr(NOT_APPLICABLE),
      publicIp := raw.publicIpAddress.GetOr(NOT_APPLICABLE),
      platform := raw.platformDetails.GetOr(DEFAULT_PLATFORM),
      vpcId := raw.vpcId.GetOr(NOT_APPLICABLE),
      dnsName := raw.privateDnsName.GetOr(NOT_APPLICABLE),
      macAddress := MacAddress(raw),
      vendorSupportEnd := TagOr(tags, "SupportEnd", NOT_APPLICABLE),
      criticality := TagOr(tags, "Criticity", DEFAULT_CRITICALITY),
      assetOwner := TagOr(tags, "Owner", UNASSIGNED),
      awsRegion := regionName,
      awsAccount := accountName,
      availabilityZone := ZoneField(raw),
      subnetId := raw.subnetId.GetOr(NOT_APPLICABLE),
      securityGroups := Join(GroupIds(raw)),
      instanceState := StateField(raw),
      launchTime := OrElse(launch, NOT_APPLICABLE),
      amiId := raw.imageId.GetOr(NOT_APPLICABLE),
      architecture := raw.architecture.GetOr(NOT_APPLICABLE),
      rootDeviceType := raw.rootDeviceType.GetOr(NOT_APPLICABLE),
      virtualizationType := raw.virtualizationType.GetOr(NOT_APPLICABLE));
    (payload, assetTag)
  }

  /** The display name is the first `Name` tag's value when it is non-empty, else the asset tag. */
  lemma NameRule(raw: RawInstance, accountName: string, regionName: string, cfg: Config)
    ensures var tags := raw.tags.GetOr([]); var name := ProcessInstance(raw, accountName, regionName, cfg).0.name;
      && (!HasTag(tags, "Name") ==> name == raw.instanceId)
      && (forall i: nat :: IsFirstTag(tags, "Name", i) ==>
            name == if tags[i].value == "" then raw.instanceId else tags[i].value)
  {
    TagLookupFirstMatch(raw.tags.GetOr([]), "Name");
  }

  /** Each tag-sourced field takes the first matching tag's non-empty value, else its default. */
  lemma TagFieldRule(raw: RawInstance, accountName: string, regionName: string, cfg: Config, key: string, i: nat)
    requires IsFirstTag(raw.tags.GetOr([]), key, i)
    ensures var p := ProcessInstance(raw, accountName, regionName, cfg).0;
      var v := raw.tags.GetOr([])[i].value;
      && (key == "Description" ==> p.description == if v == "" then NO_DESCRIPTION else v)
      && (key == "SupportEnd" ==> p.vendorSupportEnd == if v == "" then NOT_APPLICABLE else v)
      && (key == "Criticity" ==> p.criticality == if v == "" then DEFAULT_CRITICALITY else v)
      && (key == "Owner" ==> p.assetOwner == if v == "" then UNASSIGNED else v)
  {
    TagLookupFirstMatch(raw.tags.GetOr([]), key);
  }

  /** Without a tag of their key the tag-sourced fields hold their documented defaults. */
  lemma TagDefaults(raw: RawInstance, accountName: string, regionName: string, cfg: Config)
    ensures var tags := raw.tags.GetOr([]); var p := ProcessInstance(raw, accountName, regionName, cfg).0;
      && (!HasTag(tags, "Description") ==> p.description == NO_DESCRIPTION)
      && (!HasTag(tags, "SupportEnd") ==> p.vendorSupportEnd == NOT_APPLICABLE)
      && (!HasTag(tags, "Criticity") ==> p.criticality == DEFAULT_CRITICALITY)
      && (!HasTag(tags, "Owner") ==> p.assetOwner == UNASSIGNED)
  {
    var tags := raw.tags.GetOr([]);
    TagLookupFirstMatch(tags, "Description");
    TagLookupFirstMatch(tags, "SupportEnd");
    TagLookupFirstMatch(tags, "Criticity");
    TagLookupFirstMatch(tags, "Owner");
  }

  /** Each attribute is copied when present and replaced by its sentinel when missing. */
  lemma AttributeDefaults(raw: RawInstance, accountName: string, regionName: string, cfg: Config)
    ensures var p := ProcessInstance(raw, accountName, regionName, cfg).0;
      && (raw.instanceType.None? ==> p.instanceType == NOT_APPLICABLE)
      && (raw.privateIpAddress.None? ==> p.privateIp == NOT_APPLICABLE)
      && (raw.publicIpAddress.None? ==> p.publicIp == NOT_APPLICABLE)
      && (raw.platformDetails.None? ==> p.platform == DEFAULT_PLATFORM)
      && (raw.vpcId.None? ==> p.vpcId == NOT_APPLICABLE)
      && (raw.privateDnsName.None? ==> p.dnsName == NOT_APPLICABLE)
      && ((raw.placement.None? || raw.placement.value.availabilityZone.None?) ==> p.availabilityZone == NOT_APPLICABLE)
      && (raw.subnetId.None? ==> p.subnetId == NOT_APPLICABLE)
      && ((raw.state.None? || raw.state.value.name.None?) ==> p.instanceState == UNKNOWN_STATE)
      && (raw.imageId.None? ==> p.amiId == NOT_APPLICABLE)
      && (raw.architecture.None? ==> p.architecture == NOT_APPLICABLE)
      && (raw.rootDeviceType.None? ==> p.rootDeviceType == NOT_APPLICABLE)
      && (raw.virtualizationType.None? ==> p.virtualizationType == NOT_APPLICABLE)
      && (raw.instanceType.Some? ==> p.instanceType == raw.instanceType.value)
      && (raw.privateIpAddress.Some? ==> p.privateIp == raw.privateIpAddress.value)
      && (raw.publicIpAddress.Some? ==> p.publicIp == raw.publicIpAddress.value)
      && (raw.platformDetails.Some? ==> p.platform == raw.platformDetails.value)
      && (raw.vpcId.Some? ==> p.vpcId == raw.vpcId.value)
      && (raw.privateDnsName.Some? ==> p.dnsName == raw.privateDnsName.value)
      && (raw.placement.Some? && raw.placement.value.availabilityZone.Some? ==>
            p.availabilityZone == raw.placement.value.availabilityZone.value)
      && (raw.subnetId.Some? ==> p.subnetId == raw.subnetId.value)
      && (raw.state.Some? && raw.state.value.name.Some? ==> p.instanceState == raw.state.value.name.value)
      && (raw.imageId.Some? ==> p.amiId == raw.imageId.value)
      && (raw.architecture.Some? ==> p.architecture == raw.architecture.value)
      && (raw.rootDeviceType.Some? ==> p.rootDeviceType == raw.rootDeviceType.value)
      && (raw.virtualizationType.Some? ==> p.virtualizationType == raw.virtualizationType.value)
  {
  }

  /** The MAC address is the first interface's, or "N/A" when there is no interface or it has none. */
  lemma MacAddressRule(raw: RawInstance, accountName: string, regionName: string, cfg: Config)
    ensures var p := ProcessInstance(raw, accountName, regionName, cfg).0;
      var interfaces := raw.networkInterfaces.GetOr([]);
      && (|interfaces| == 0 ==> p.macAddress == NOT_APPLICABLE)
      && (|interfaces| > 0 ==> p.macAddress == interfaces[0].macAddress.GetOr(NOT_APPLICABLE))
  {
  }

  /** The security-group field lists the group ids in their order; comma-free ids are recovered from it. */
  lemma SecurityGroupsRule(raw: RawInstance, accountName: string, regionName: string, cfg: Config)
    ensures var p := ProcessInstance(raw, accountName, regionName, cfg).0;
      var ids := GroupIds(raw);
      && (|ids| == 0 ==> p.securityGroups == "")
      && (|ids| >= 1 && (forall i :: 0 <= i < |ids| ==> ',' !in ids[i]) ==> SplitList(p.securityGroups) == ids)
  {
    var ids := GroupIds(raw);
    if |ids| >= 1 && (forall i :: 0 <= i < |ids| ==> ',' !in ids[i]) {
      SplitJoin(ids);
    }
  }

  /** With a launch time both date fields hold its YYYY-MM-DD text; without one the date is null and the extension "N/A". */
  lemma LaunchDateRule(raw: RawInstance, accountName: string, regionName: string, cfg: Config)
    requires raw.launchTime.Some? ==> ValidDate(raw.launchTime.value)
    ensures var p := ProcessInstance(raw, accountName, regionName, cfg).0;
      && (raw.launchTime.None? ==> p.purchaseDate.None? && p.launchTime == NOT_APPLICABLE)
      && (raw.launchTime.Some? ==>
            && p.purchaseDate.Some?
            && p.launchTime == p.purchaseDate.value
            && |p.launchTime| == 10
            && ParseDate(p.launchTime) == Some(raw.launchTime.value))
  {
    if raw.launchTime.Some? {
      FormatDateRoundTrip(raw.launchTime.value);
    }
  }

  /** The worked example: id "i-0abc", tag Name=web-1, private IP 10.0.0.5, no public IP. */
  lemma WebServerExample(accountName: string, regionName: string, cfg: Config)
    ensures var raw := RawInstance("i-0abc", Some([Tag("Name", "web-1")]), None, None, None, None,
        None, Some("10.0.0.5"), None, None, None, None, None, None, None, None, None, None);
      var r := ProcessInstance(raw, accountName, regionName, cfg);
      && r.1 == "i-0abc"
      && r.0.assetTag == "i-0abc"
      && r.0.name == "web-1"
      && r.0.privateIp == "10.0.0.5"
      && r.0.publicIp == NOT_APPLICABLE
  {
    var tags := [Tag("Name", "web-1")];
    assert IsFirstTag(tags, "Name", 0);
    TagLookupFirstMatch(tags, "Name");
  }
}
