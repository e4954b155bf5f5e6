/**
 * `Subnet.build`: validation of a subnet definition, a string-keyed map holding
 * `range`, `gateway` and a `cloud_properties` map, into a `Subnet` value.
 * Every failure is an error with a fixed message.
 */
module SubnetDefinition {
  import opened Wrappers
  import opened Text
  import opened Ipv4

  /** A value of the definition map: a string, or a nested string-to-string map. */
  datatype Value = StringValue(s: string) | MapValue(entries: map<string, string>)

  type Definition = map<string, Value>

  datatype CloudProperties = CloudProperties(
    edgeClusterId: string,
    t0RouterId: string,
    transportZoneId: string,
    t1Name: Option<string>,     // nil when `t1_name` is absent
    switchName: Option<string>  // nil when `switch_name` is absent
  )

  datatype Subnet = Subnet(range: CidrBlock, gateway: Address, cloudProperties: CloudProperties)

  const CloudPropertiesMissing: string := "cloud_properties must be provided"
  const RangeInvalid: string := "Incorrect subnet definition. Proper CIDR block range must be given"
  const GatewayInvalid: string := "Incorrect subnet definition. Proper gateway must be given"

  /** The cloud properties that must be present and non-empty, in the order they are checked. */
  const RequiredKeys: seq<string> := ["t0_router_id", "edge_cluster_id", "transport_zone_id"]

  function PropertyEmpty(key: string): string {
    key + " cloud property can not be empty"
  }

  /** The CIDR parser's own message for a prefix length that is too large. */
  function NetmaskMessage(n: nat): string {
    "Netmask, " + ShowNat(n) + ", is out of bounds for IPv4."
  }

  predicate Present(props: map<string, string>, key: string) {
    key in props && props[key] != ""
  }

  function Optional(props: map<string, string>, key: string): Option<string> {
    if key in props then Some(props[key]) else None
  }

  /** The string under `key`, when there is one and it is not empty. */
  function NonEmptyString(d: Definition, key: string): Option<string> {
    if key in d && d[key].StringValue? && d[key].s != "" then Some(d[key].s) else None
  }

  predicate HasCloudProperties(d: Definition) {
    "cloud_properties" in d && d["cloud_properties"].MapValue? && d["cloud_properties"].entries != map[]
  }

  /** `cloud_properties` is a non-empty map in which every required key is present and non-empty. */
  predicate CloudPropertiesValid(d: Definition) {
    HasCloudProperties(d) &&
    var props := d["cloud_properties"].entries;
    Present(props, "t0_router_id") && Present(props, "edge_cluster_id") && Present(props, "transport_zone_id")
  }

  /** What every built subnet satisfies. */
  predicate ValidSubnet(s: Subnet) {
    s.cloudProperties.edgeClusterId != "" &&
    s.cloudProperties.t0RouterId != "" &&
    s.cloudProperties.transportZoneId != ""
  }

  ghost predicate IsBuildError(e: string) {
    e == CloudPropertiesMissing || e == RangeInvalid || e == GatewayInvalid ||
    (exists k :: k in RequiredKeys && e == PropertyEmpty(k)) ||
    (exists n: nat :: n > 32 && e == NetmaskMessage(n))
  }

  /** The cloud properties, checked in the order of `RequiredKeys`. */
  function CheckCloudProperties(d: Definition): (r: Result<CloudProperties, string>)
    ensures r.Success? <==> CloudPropertiesValid(d)
    ensures r.Success? ==>
      var props := d["cloud_properties"].entries;
      r.value == CloudProperties(
        props["edge_cluster_id"], props["t0_router_id"], props["transport_zone_id"],
        Optional(props, "t1_name"), Optional(props, "switch_name"))
    ensures r.Failure? ==> r.error == CloudPropertiesMissing || exists k :: k in RequiredKeys && r.error == PropertyEmpty(k)
  {
    if !HasCloudProperties(d) then Failure(CloudPropertiesMissing)
    else
      var props := d["cloud_properties"].entries;
      if !Present(props, "t0_router_id") then Failure(PropertyEmpty("t0_router_id"))
      else if !Present(props, "edge_cluster_id") then Failure(PropertyEmpty("edge_cluster_id"))
      else if !Present(props, "transport_zone_id") then Failure(PropertyEmpty("transport_zone_id"))
      else
        Success(CloudProperties(
          props["edge_cluster_id"], props["t0_router_id"], props["transport_zone_id"],
          Optional(props, "t1_name"), Optional(props, "switch_name")))
  }

  /** `range`: a non-empty string that parses as a CIDR block. */
  function CheckRange(d: Definition): (r: Result<CidrBlock, string>)
    ensures r.Success? <==> NonEmptyString(d, "range").Some? && ParseCidr(d["range"].s).Success?
    ensures r.Success? ==> ParseCidr(d["range"].s) == Success(r.value)
    ensures r.Failure? ==> r.error == RangeInvalid || exists n: nat :: n > 32 && r.error == NetmaskMessage(n)
  {
    match NonEmptyString(d, "range")
    case None => Failure(RangeInvalid)
    case Some(rangeText) =>
      match ParseCidr(rangeText)
      case Failure(Malformed) => Failure(RangeInvalid)
      case Failure(NetmaskOutOfBounds(n)) => Failure(NetmaskMessage(n))
      case Success(block) => Success(block)
  }

  /** `gateway`: a non-empty string that parses as a bare address. */
  function CheckGateway(d: Definition): (r: Result<Address, string>)
    ensures r.Success? <==> NonEmptyString(d, "gateway").Some? && Parse(d["gateway"].s).Some?
    ensures r.Success? ==> Parse(d["gateway"].s) == Some(r.value)
    ensures r.Failure? ==> r.error == GatewayInvalid
  {
    match NonEmptyString(d, "gateway")
    case None => Failure(GatewayInvalid)
    case Some(gatewayText) =>
      match Parse(gatewayText)
      case None => Failure(GatewayInvalid)
      case Some(gateway) => Success(gateway)
  }

  /** `Subnet.build`: cloud properties first, then the range, then the gateway. */
  function Build(d: Definition): (r: Result<Subnet, string>)
    ensures r.Success? <==>
      CloudPropertiesValid(d) && CheckRange(d).Success? && CheckGateway(d).Success?
    ensures r.Success? ==> ValidSubnet(r.value)
    ensures r.Success? ==> r.value == Subnet(CheckRange(d).value, CheckGateway(d).value, CheckCloudProperties(d).value)
    ensures r.Failure? ==> IsBuildError(r.error)
  {
    match CheckCloudProperties(d)
    case Failure(e) => Failure(e)
    case Success(cloud) =>
      match CheckRange(d)
      case Failure(e) => Failure(e)
      case Success(block) =>
        match CheckGateway(d)
        case Failure(e) => Failure(e)
        case Success(gateway) => Success(Subnet(block, gateway, cloud))
  }

  /** The definition a subnet is written as: the optional names appear only when set. */
  function Encode(s: Subnet): Definition {
    var p := s.cloudProperties;
    var required := map[
      "edge_cluster_id" := p.edgeClusterId,
      "t0_router_id" := p.t0RouterId,
      "transport_zone_id" := p.transportZoneId];
    var withRouter := if p.t1Name.Some? then required["t1_name" := p.t1Name.value] else required;
    var props := if p.switchName.Some? then withRouter["switch_name" := p.switchName.value] else withRouter;
    map[
      "range" := StringValue(FormatCidr(s.range)),
      "gateway" := StringValue(Format(s.gateway)),
      "cloud_properties" := MapValue(props)]
  }

  /** Every valid subnet is built back from its own definition. */
  lemma BuildEncode(s: Subnet)
    requires ValidSubnet(s)
    ensures Build(Encode(s)) == Success(s)
  {
    var d := Encode(s);
    EncodeCloudProperties(s);
    ParseCidrFormat(s.range);
    ParseFormat(s.gateway);
    assert d["range"] == StringValue(FormatCidr(s.range));
    assert d["gateway"] == StringValue(Format(s.gateway));
    assert |ShowNat(s.range.prefix)| >= 1;
    assert |ShowNat(s.gateway.a)| >= 1;
    assert CheckRange(d) == Success(s.range);
    assert CheckGateway(d) == Success(s.gateway);
  }

  lemma EncodeCloudProperties(s: Subnet)
    requires ValidSubnet(s)
    ensures CheckCloudProperties(Encode(s)) == Success(s.cloudProperties)
  {
    var p := s.cloudProperties;
    var props := Encode(s)["cloud_properties"].entries;
    assert props["edge_cluster_id"] == p.edgeClusterId;
    assert props["t0_router_id"] == p.t0RouterId;
    assert props["transport_zone_id"] == p.transportZoneId;
    assert Optional(props, "t1_name") == p.t1Name;
    assert Optional(props, "switch_name") == p.switchName;
  }

  /** An absent `cloud_properties`, a string in its place (such as ''), or an empty map is refused first. */
  lemma CloudPropertiesRequired(d: Definition)
    requires "cloud_properties" !in d || d["cloud_properties"].StringValue? || d["cloud_properties"].entries == map[]
    ensures Build(d) == Failure(CloudPropertiesMissing)
  {
  }

  /** A missing or empty required cloud property is refused with a message naming that property. */
  lemma RequiredPropertyRejected(d: Definition, key: string)
    requires HasCloudProperties(d)
    requires key in RequiredKeys && !Present(d["cloud_properties"].entries, key)
    requires forall k :: k in RequiredKeys && k != key ==> Present(d["cloud_properties"].entries, k)
    ensures Build(d) == Failure(PropertyEmpty(key))
  {
    assert RequiredKeys[0] == "t0_router_id" && RequiredKeys[1] == "edge_cluster_id";
  }

  /** A missing or empty `range` is refused. */
  lemma MissingRangeRejected(d: Definition)
    requires CloudPropertiesValid(d)
    requires "range" !in d || d["range"] == StringValue("")
    ensures Build(d) == Failure(RangeInvalid)
  {
    assert Present(d["cloud_properties"].entries, "t0_router_id");
    assert Present(d["cloud_properties"].entries, "edge_cluster_id");
    assert Present(d["cloud_properties"].entries, "transport_zone_id");
  }

  /** A well-formed range whose prefix length exceeds 32 is refused with the netmask message naming it. */
  lemma RangeNetmaskRejected(d: Definition, network: Address, n: nat)
    requires CloudPropertiesValid(d)
    requires n > 32 && "range" in d && d["range"] == StringValue(Format(network) + "/" + ShowNat(n))
    ensures Build(d) == Failure(NetmaskMessage(n))
  {
    assert Present(d["cloud_properties"].entries, "t0_router_id");
    assert Present(d["cloud_properties"].entries, "edge_cluster_id");
    assert Present(d["cloud_properties"].entries, "transport_zone_id");
    Ipv4.NetmaskRejected(network, n);
  }

  /** With a good range, a missing or empty gateway, or one carrying a '/' suffix, is refused. */
  lemma GatewayRejected(d: Definition)
    requires CloudPropertiesValid(d)
    requires NonEmptyString(d, "range").Some? && ParseCidr(d["range"].s).Success?
    requires "gateway" !in d || d["gateway"] == StringValue("") || (d["gateway"].StringValue? && '/' in d["gateway"].s)
    ensures Build(d) == Failure(GatewayInvalid)
  {
    assert Present(d["cloud_properties"].entries, "t0_router_id");
    assert Present(d["cloud_properties"].entries, "edge_cluster_id");
    assert Present(d["cloud_properties"].entries, "transport_zone_id");
    if "gateway" in d && d["gateway"].StringValue? && '/' in d["gateway"].s {
      SuffixedAddressRejected(d["gateway"].s);
    }
  }

  // The definitions exercised by the unit tests of `Subnet.build`. The range and
  // gateway strings are written through `Format` so that the proofs below do not
  // unfold the parsers over string literals; `ExampleTexts` spells them out.

  const ExampleNetwork: Address := Address(192, 168, 111, 0)
  const ExampleBlock: CidrBlock := CidrBlock(ExampleNetwork, 24)
  const ExampleGateway: Address := Address(192, 168, 111, 1)
  const ExampleHost: Address := Address(192, 168, 111, 111)

  const ExampleRange: string := FormatCidr(ExampleBlock)
  const ExampleGatewayText: string := Format(ExampleGateway)
  const RangePrefix33: string := Format(ExampleHost) + "/" + ShowNat(33)
  const GatewayPrefix31: string := Format(ExampleHost) + "/" + ShowNat(31)

  const ExampleProperties: map<string, string> := map[
    "edge_cluster_id" := "cluster_id",
    "t0_router_id" := "t0-router-id",
    "t1_name" := "router-name",
    "transport_zone_id" := "zone-id",
    "switch_name" := "switch-name"]

  const MinimalProperties: map<string, string> := map[
    "edge_cluster_id" := "cluster_id",
    "t0_router_id" := "t0-router-id",
    "transport_zone_id" := "zone-id"]

  function Example(range: string, gateway: string, props: map<string, string>): Definition {
    map["range" := StringValue(range), "gateway" := StringValue(gateway), "cloud_properties" := MapValue(props)]
  }

  lemma ExampleHostText()
    ensures Format(ExampleHost) == "192.168.111.111"
  {
    assert ShowNat(192) == "192" by { assert ShowNat(19) == "19"; }
    assert ShowNat(168) == "168" by { assert ShowNat(16) == "16"; }
    assert ShowNat(111) == "111" by { assert ShowNat(11) == "11"; }
  }

  /** The example strings, spelled out. */
  lemma ExampleTexts()
    ensures ExampleRange == "192.168.111.0/24"
    ensures ExampleGatewayText == "192.168.111.1"
    ensures RangePrefix33 == "192.168.111.111/33"
    ensures GatewayPrefix31 == "192.168.111.111/31"
  {
    assert ShowNat(192) == "192" by { assert ShowNat(19) == "19"; }
    assert ShowNat(168) == "168" by { assert ShowNat(16) == "16"; }
    assert ShowNat(111) == "111" by { assert ShowNat(11) == "11"; }
    assert ShowNat(24) == "24" && ShowNat(0) == "0" && ShowNat(1) == "1";
    ExampleHostText();
    assert ShowNat(33) == "33" && ShowNat(31) == "31";
  }

  lemma ExampleCloudProperties(range: string, gateway: string)
    ensures CheckCloudProperties(Example(range, gateway, ExampleProperties)) ==
      Success(CloudProperties("cluster_id", "t0-router-id", "zone-id", Some("router-name"), Some("switch-name")))
  {
    assert ExampleProperties["edge_cluster_id"] == "cluster_id";
    assert ExampleProperties["t1_name"] == "router-name";
    assert ExampleProperties["switch_name"] == "switch-name";
  }

  lemma MinimalCloudProperties(range: string, gateway: string)
    ensures CheckCloudProperties(Example(range, gateway, MinimalProperties)) ==
      Success(CloudProperties("cluster_id", "t0-router-id", "zone-id", None, None))
  {
    assert MinimalProperties["edge_cluster_id"] == "cluster_id";
    assert "t1_name" !in MinimalProperties;
    assert "switch_name" !in MinimalProperties;
  }

  lemma ExampleRangeAndGateway(props: map<string, string>)
    ensures CheckRange(Example(ExampleRange, ExampleGatewayText, props)) == Success(ExampleBlock)
    ensures CheckGateway(Example(ExampleRange, ExampleGatewayText, props)) == Success(ExampleGateway)
  {
    ParseCidrFormat(ExampleBlock);
    ParseFormat(ExampleGateway);
    assert |ShowNat(24)| >= 1 && |ShowNat(1)| >= 1;
  }

  /** The full example builds, and without `t1_name`/`switch_name` the names are nil. */
  lemma ExampleBuilds()
    ensures Build(Example(ExampleRange, ExampleGatewayText, ExampleProperties)) == Success(Subnet(
      ExampleBlock, ExampleGateway,
      CloudProperties("cluster_id", "t0-router-id", "zone-id", Some("router-name"), Some("switch-name"))))
    ensures Build(Example(ExampleRange, ExampleGatewayText, MinimalProperties)) == Success(Subnet(
      ExampleBlock, ExampleGateway,
      CloudProperties("cluster_id", "t0-router-id", "zone-id", None, None)))
  {
    ExampleCloudProperties(ExampleRange, ExampleGatewayText);
    MinimalCloudProperties(ExampleRange, ExampleGatewayText);
    ExampleRangeAndGateway(ExampleProperties);
    ExampleRangeAndGateway(MinimalProperties);
  }

  lemma NetmaskMessage33()
    ensures NetmaskMessage(33) == "Netmask, 33, is out of bounds for IPv4."
  {
    assert ShowNat(33) == "33";
  }

  /** A prefix length of 33 is refused with the parser's netmask message. */
  lemma ExampleNetmask33()
    ensures Build(Example(RangePrefix33, ExampleGatewayText, ExampleProperties)) ==
      Failure("Netmask, 33, is out of bounds for IPv4.")
  {
    var d := Example(RangePrefix33, ExampleGatewayText, ExampleProperties);
    ExampleCloudProperties(RangePrefix33, ExampleGatewayText);
    RangeNetmaskRejected(d, ExampleHost, 33);
    NetmaskMessage33();
  }

  /** A gateway with a prefix suffix is refused. */
  lemma ExampleSuffixedGateway()
    ensures Build(Example(ExampleRange, GatewayPrefix31, ExampleProperties)) == Failure(GatewayInvalid)
  {
    var d := Example(ExampleRange, GatewayPrefix31, ExampleProperties);
    ExampleCloudProperties(ExampleRange, GatewayPrefix31);
    ExampleRangeAndGateway(ExampleProperties);
    assert CheckRange(d) == Success(ExampleBlock);
    assert GatewayPrefix31[|Format(ExampleHost)|] == '/';
    GatewayRejected(d);
  }
}
