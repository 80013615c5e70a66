/**
 * The request side of the Alibaba Cloud RPC calls in
 * sites/aliyun/static/js/aliyun-api.js: which endpoint and API version an
 * action goes to, the common parameters and the caller's parameters over
 * them, the string to sign with its key, and the parameters of
 * `DescribeInstances` and `DescribeEipAddresses`. HMAC-SHA1 with Base64
 * is the function parameter `sign`; the nonce and the time stamp are
 * parameters.
 */
module AliyunApi {
  import opened Wrappers
  import opened Strs
  import opened ApiParams
  import Percent
  import Json

  const EcsVersion: string := "2014-05-26"
  const VpcVersion: string := "2016-04-28"

  /** Actions of the VPC product (EIP included). */
  predicate VpcAction(action: string) {
    Contains(action, "Vpc") || Contains(action, "VSwitch") || Contains(action, "Eip")
  }

  /** ECS queries: Describe actions about instances or regions. */
  predicate EcsDescribe(action: string) {
    StartsWith(action, "Describe") && (Contains(action, "Instance") || Contains(action, "Region"))
  }

  function Endpoint(product: string, region: string): string {
    "https://" + product + "." + region + ".aliyuncs.com/"
  }

  /** `getApiEndpoint`: ECS for instance and region queries, VPC for VPC actions, ECS otherwise. */
  function ApiEndpoint(action: string, region: string): (url: string)
    ensures url == Endpoint("vpc", region) <==> VpcAction(action) && !EcsDescribe(action)
    ensures url == Endpoint("ecs", region) <==> !(VpcAction(action) && !EcsDescribe(action))
  {
    assert Endpoint("vpc", region)[8] != Endpoint("ecs", region)[8];
    if EcsDescribe(action) then Endpoint("ecs", region)
    else if VpcAction(action) then Endpoint("vpc", region)
    else Endpoint("ecs", region)
  }

  /** `getApiVersion`. */
  function ApiVersion(action: string): (v: string)
    ensures v == VpcVersion <==> VpcAction(action)
    ensures v == EcsVersion <==> !VpcAction(action)
  {
    if VpcAction(action) then VpcVersion else EcsVersion
  }

  /** An action sent to the VPC endpoint is always signed with the VPC version. */
  lemma VpcEndpointHasVpcVersion(action: string, region: string)
    requires ApiEndpoint(action, region) == Endpoint("vpc", region)
    ensures ApiVersion(action) == VpcVersion
  {
  }

  /**
   * `stringToSign` of `generateSignature`: the method, the encoded path
   * ("%2F" is the encoding of "/", `Percent.SlashEncoded`) and the
   * RFC 3986 encoding of the canonical query, joined by '&'.
   */
  function StringToSign(query: string): (s: string)
    ensures |s| >= 8 && s[..8] == "GET&%2F&"
    ensures s[8..] == Percent.Rfc3986Encode(query)
  {
    Percent.PercentEncodeIsRfc3986(query);
    "GET&%2F&" + Percent.PercentEncode(query)
  }

  /** The HMAC key: the secret followed by '&'. */
  function SigningKey(secret: string): string {
    secret + "&"
  }

  /** The parameters every request carries before the caller's, in the order they are written. */
  function CommonParams(accessKeyId: string, nonce: string, timestamp: string, version: string): (p: Params)
    ensures Distinct(p)
    ensures Get(p, "Signature").None? && Get(p, "Action").None? && Get(p, "RegionId").None?
  {
    var p := [("AccessKeyId", accessKeyId), ("Format", "JSON"), ("SignatureMethod", "HMAC-SHA1"),
              ("SignatureVersion", "1.0"), ("SignatureNonce", nonce), ("Timestamp", timestamp),
              ("Version", version)];
    assert Distinct(p) by { DistinctNames(p); }
    assert Get(p, "Signature").None? by { GetMissing(p, "Signature"); }
    assert Get(p, "Action").None? by { GetMissing(p, "Action"); }
    assert Get(p, "RegionId").None? by { GetMissing(p, "RegionId"); }
    p
  }

  /** What each common parameter reads. */
  lemma CommonParamsValues(accessKeyId: string, nonce: string, timestamp: string, version: string)
    ensures var p := CommonParams(accessKeyId, nonce, timestamp, version);
            Get(p, "AccessKeyId") == Some(accessKeyId) && Get(p, "Format") == Some("JSON")
            && Get(p, "SignatureMethod") == Some("HMAC-SHA1") && Get(p, "SignatureVersion") == Some("1.0")
            && Get(p, "SignatureNonce") == Some(nonce) && Get(p, "Timestamp") == Some(timestamp)
            && Get(p, "Version") == Some(version)
  {
    var p := CommonParams(accessKeyId, nonce, timestamp, version);
    GetAt(p, 0); GetAt(p, 1); GetAt(p, 2); GetAt(p, 3); GetAt(p, 4); GetAt(p, 5); GetAt(p, 6);
  }

  datatype Request = Request(endpoint: string, params: Params)

  /** `requestParams3`: the caller's parameters spread over the common ones. */
  function Signed(caller: Params, accessKeyId: string, nonce: string, timestamp: string, version: string): (p: Params)
    requires Distinct(caller)
    ensures Distinct(p)
    ensures forall name :: Get(p, name) == if Get(caller, name).Some? then Get(caller, name)
                                           else Get(CommonParams(accessKeyId, nonce, timestamp, version), name)
    ensures Get(caller, "Signature").None? ==> Get(p, "Signature").None?
  {
    Spread(CommonParams(accessKeyId, nonce, timestamp, version), caller)
  }

  /**
   * `AliyunApi` up to the fetch: the caller's parameters over the common
   * ones, then the signature added. Without an Action, `getApiVersion`
   * throws; a missing RegionId puts "undefined" in the host name.
   */
  function BuildRequest(caller: Params, accessKeyId: string, secret: string, nonce: string, timestamp: string,
                        sign: (string, string) -> string): (r: Option<Request>)
    requires Distinct(caller)
    ensures r.None? <==> Get(caller, "Action").None?
    ensures r.Some? ==> Distinct(r.value.params)
    ensures r.Some? ==> r.value.endpoint == ApiEndpoint(Get(caller, "Action").value, Get(caller, "RegionId").GetOr("undefined"))
  {
    match Get(caller, "Action")
    case None => None
    case Some(action) =>
      var signed := Signed(caller, accessKeyId, nonce, timestamp, ApiVersion(action));
      var signature := sign(SigningKey(secret), StringToSign(CanonicalQuery(signed)));
      Some(Request(ApiEndpoint(action, Get(caller, "RegionId").GetOr("undefined")), Assign(signed, "Signature", signature)))
  }

  /** A parameter the caller gives wins over the common one; the others keep their common value. */
  lemma CallerOverrides(caller: Params, accessKeyId: string, secret: string, nonce: string, timestamp: string,
                        sign: (string, string) -> string, name: string)
    requires Distinct(caller) && Get(caller, "Action").Some? && name != "Signature"
    ensures var r := BuildRequest(caller, accessKeyId, secret, nonce, timestamp, sign).value;
            var common := CommonParams(accessKeyId, nonce, timestamp, ApiVersion(Get(caller, "Action").value));
            Get(r.params, name) == if Get(caller, name).Some? then Get(caller, name) else Get(common, name)
  {
  }

  /**
   * The signature is the HMAC, under the secret and '&', of the string to
   * sign of every other parameter sent: it covers the whole request but
   * itself.
   */
  lemma SignatureCoversOtherParams(caller: Params, accessKeyId: string, secret: string, nonce: string, timestamp: string,
                                   sign: (string, string) -> string)
    requires Distinct(caller) && Get(caller, "Action").Some? && Get(caller, "Signature").None?
    ensures var r := BuildRequest(caller, accessKeyId, secret, nonce, timestamp, sign).value;
            Get(r.params, "Signature") == Some(sign(SigningKey(secret), StringToSign(CanonicalQuery(Remove(r.params, "Signature")))))
  {
    var signed := Signed(caller, accessKeyId, nonce, timestamp, ApiVersion(Get(caller, "Action").value));
    var signature := sign(SigningKey(secret), StringToSign(CanonicalQuery(signed)));
    assert BuildRequest(caller, accessKeyId, secret, nonce, timestamp, sign).value.params
        == Assign(signed, "Signature", signature);
    RemoveAssigned(signed, "Signature", signature);
  }

  /** `if (x)` on an optional string filter: present and not empty. */
  predicate Given(o: Option<string>) {
    o.Some? && o.value != ""
  }

  /** A text filter as sent: the text itself, when given. */
  function TextFilter(o: Option<string>): (r: Option<string>)
    ensures r.Some? <==> Given(o)
    ensures r.Some? ==> r == o
  {
    if Given(o) then o else None
  }

  /** An address filter as sent: `JSON.stringify([x])`, when given. */
  function AddressFilter(o: Option<string>): (r: Option<string>)
    ensures r.Some? <==> Given(o)
    ensures r.Some? ==> r.value == "[" + Json.Quote(o.value) + "]"
  {
    if Given(o) then
      Json.SingletonArray(o.value);
      Some(Json.StringArray([o.value]))
    else None
  }

  /** The instance ids as sent: `JSON.stringify(ids)`, when there are any. */
  function IdsFilter(o: Option<seq<string>>): (r: Option<string>)
    ensures r.Some? <==> o.Some? && |o.value| > 0
    ensures r.Some? ==> r.value == Json.StringArray(o.value)
  {
    if o.Some? && |o.value| > 0 then Some(Json.StringArray(o.value)) else None
  }

  /** `if (value) params[name] = value`. */
  function AssignIf(p: Params, name: string, value: Option<string>): (r: Params)
    ensures Distinct(p) ==> Distinct(r)
    ensures Get(r, name) == if value.Some? then value else Get(p, name)
    ensures forall other | other != name :: Get(r, other) == Get(p, other)
  {
    if value.Some? then Assign(p, name, value.value) else p
  }

  /** The four parameters of every paged Describe call; page numbers as decimal text. */
  function PageParams(action: string, region: string, pageNumber: nat, pageSize: nat): (p: Params)
    ensures Distinct(p)
    ensures Get(p, "Action") == Some(action) && Get(p, "RegionId") == Some(region)
    ensures ParseInt(Get(p, "PageNumber").GetOr("")) == Some(pageNumber)
    ensures ParseInt(Get(p, "PageSize").GetOr("")) == Some(pageSize)
    ensures forall name | Get(p, name).Some? :: name in PageNames
  {
    var p := [("Action", action), ("RegionId", region), ("PageNumber", NatToString(pageNumber)),
              ("PageSize", NatToString(pageSize))];
    assert Distinct(p) by { DistinctNames(p); }
    GetAt(p, 0); GetAt(p, 1); GetAt(p, 2); GetAt(p, 3);
    ParseIntOfNatToString(pageNumber);
    ParseIntOfNatToString(pageSize);
    forall name | Get(p, name).Some? ensures name in PageNames {
      GetFound(p, name);
    }
    p
  }

  const PageNames: seq<string> := ["Action", "RegionId", "PageNumber", "PageSize"]

  datatype InstanceFilters = InstanceFilters(
    instanceName: Option<string>,
    privateIp: Option<string>,
    publicIp: Option<string>,
    instanceIds: Option<seq<string>>,
    eipAddress: Option<string>)

  /** No name twice. */
  predicate DistinctStrings(names: seq<string>) {
    forall i, j | 0 <= i < j < |names| :: names[i] != names[j]
  }

  /** A run of `if (value) params[name] = value` statements, one per name, in order. */
  function AddFilters(p: Params, names: seq<string>, values: seq<Option<string>>): (r: Params)
    requires |names| == |values|
    ensures Distinct(p) ==> Distinct(r)
    decreases |names|
  {
    if names == [] then p else AddFilters(AssignIf(p, names[0], values[0]), names[1..], values[1..])
  }

  /** A name none of the statements mentions keeps its value. */
  lemma {:induction false} AddFiltersKeeps(p: Params, names: seq<string>, values: seq<Option<string>>, name: string)
    requires |names| == |values| && name !in names
    ensures Get(AddFilters(p, names, values), name) == Get(p, name)
    decreases |names|
  {
    if names != [] {
      assert name != names[0] && name !in names[1..];
      AddFiltersKeeps(AssignIf(p, names[0], values[0]), names[1..], values[1..], name);
    }
  }

  /** A filter name ends up with its value when given, and keeps what it had otherwise. */
  lemma {:induction false} AddFiltersSets(p: Params, names: seq<string>, values: seq<Option<string>>, i: nat)
    requires |names| == |values| && i < |names| && DistinctStrings(names)
    ensures Get(AddFilters(p, names, values), names[i]) == if values[i].Some? then values[i] else Get(p, names[i])
    decreases |names|
  {
    var q := AssignIf(p, names[0], values[0]);
    if i == 0 {
      assert names[0] !in names[1..] by {
        forall j | 0 <= j < |names[1..]| ensures names[1..][j] != names[0] {
          assert names[1..][j] == names[j + 1];
        }
      }
      AddFiltersKeeps(q, names[1..], values[1..], names[0]);
    } else {
      assert names[1..][i - 1] == names[i] && values[1..][i - 1] == values[i];
      AddFiltersSets(q, names[1..], values[1..], i - 1);
    }
  }

  /** The statements add no name but theirs. */
  lemma {:induction false} AddFiltersOnly(p: Params, names: seq<string>, values: seq<Option<string>>, name: string)
    requires |names| == |values| && Get(AddFilters(p, names, values), name).Some?
    ensures Get(p, name).Some? || name in names
    decreases |names|
  {
    if names != [] {
      AddFiltersOnly(AssignIf(p, names[0], values[0]), names[1..], values[1..], name);
    }
  }

  /** The filters `DescribeInstances` may add, by name... */
  const InstanceFilterNames: seq<string> :=
    ["InstanceName", "PrivateIpAddresses", "PublicIpAddresses", "InstanceIds", "EipAddresses"]

  /** ...and their values as sent: addresses as one-element JSON arrays, ids as a JSON array. */
  function InstanceFilterValues(f: InstanceFilters): (values: seq<Option<string>>)
    ensures |values| == |InstanceFilterNames|
  {
    [TextFilter(f.instanceName), AddressFilter(f.privateIp), AddressFilter(f.publicIp), IdsFilter(f.instanceIds),
     AddressFilter(f.eipAddress)]
  }

  /** `DescribeInstances`: the page parameters, then each filter that is given. */
  function DescribeInstancesParams(region: string, pageNumber: nat, pageSize: nat, f: InstanceFilters): (p: Params)
    ensures Distinct(p)
  {
    AddFilters(PageParams("DescribeInstances", region, pageNumber, pageSize), InstanceFilterNames, InstanceFilterValues(f))
  }

  /** A page parameter of `DescribeInstances` is what `PageParams` made it: no filter overwrites it. */
  lemma DescribeInstancesPage(region: string, pageNumber: nat, pageSize: nat, f: InstanceFilters, name: string)
    requires name in PageNames
    ensures Get(DescribeInstancesParams(region, pageNumber, pageSize, f), name)
            == Get(PageParams("DescribeInstances", region, pageNumber, pageSize), name)
  {
    assert name !in InstanceFilterNames by {
      assert name == "Action" || name == "RegionId" || name == "PageNumber" || name == "PageSize";
    }
    AddFiltersKeeps(PageParams("DescribeInstances", region, pageNumber, pageSize), InstanceFilterNames, InstanceFilterValues(f), name);
  }

  /** Each `DescribeInstances` filter is sent under its name exactly when it is given, with its value as sent. */
  lemma DescribeInstancesFilters(region: string, pageNumber: nat, pageSize: nat, f: InstanceFilters, i: nat)
    requires i < |InstanceFilterNames|
    ensures Get(DescribeInstancesParams(region, pageNumber, pageSize, f), InstanceFilterNames[i]) == InstanceFilterValues(f)[i]
  {
    var p0 := PageParams("DescribeInstances", region, pageNumber, pageSize);
    assert InstanceFilterNames[i] !in PageNames;
    AddFiltersSets(p0, InstanceFilterNames, InstanceFilterValues(f), i);
  }

  /** `DescribeInstances` sends no parameter but the page parameters and its five filters. */
  lemma DescribeInstancesNothingElse(region: string, pageNumber: nat, pageSize: nat, f: InstanceFilters, name: string)
    requires Get(DescribeInstancesParams(region, pageNumber, pageSize, f), name).Some?
    ensures name in PageNames + InstanceFilterNames
  {
    AddFiltersOnly(PageParams("DescribeInstances", region, pageNumber, pageSize), InstanceFilterNames, InstanceFilterValues(f), name);
  }

  datatype EipFilters = EipFilters(
    eipName: Option<string>,
    eipAddress: Option<string>,
    allocationId: Option<string>,
    associatedInstanceId: Option<string>)

  /** The filters `DescribeEipAddresses` may add, by name; each is sent as it is. */
  const EipFilterNames: seq<string> := ["EipName", "EipAddress", "AllocationId", "AssociatedInstanceId"]

  function EipFilterValues(f: EipFilters): (values: seq<Option<string>>)
    ensures |values| == |EipFilterNames|
  {
    [TextFilter(f.eipName), TextFilter(f.eipAddress), TextFilter(f.allocationId), TextFilter(f.associatedInstanceId)]
  }

  /** `DescribeEipAddresses`: the page parameters, then each filter that is given. */
  function DescribeEipAddressesParams(region: string, pageNumber: nat, pageSize: nat, f: EipFilters): (p: Params)
    ensures Distinct(p)
  {
    AddFilters(PageParams("DescribeEipAddresses", region, pageNumber, pageSize), EipFilterNames, EipFilterValues(f))
  }

  /** A page parameter of `DescribeEipAddresses` is what `PageParams` made it. */
  lemma DescribeEipAddressesPage(region: string, pageNumber: nat, pageSize: nat, f: EipFilters, name: string)
    requires name in PageNames
    ensures Get(DescribeEipAddressesParams(region, pageNumber, pageSize, f), name)
            == Get(PageParams("DescribeEipAddresses", region, pageNumber, pageSize), name)
  {
    assert name !in EipFilterNames by {
      assert name == "Action" || name == "RegionId" || name == "PageNumber" || name == "PageSize";
    }
    AddFiltersKeeps(PageParams("DescribeEipAddresses", region, pageNumber, pageSize), EipFilterNames, EipFilterValues(f), name);
  }

  /** Each `DescribeEipAddresses` filter is sent as it is, under its name, exactly when it is given. */
  lemma DescribeEipAddressesFilters(region: string, pageNumber: nat, pageSize: nat, f: EipFilters, i: nat)
    requires i < |EipFilterNames|
    ensures Get(DescribeEipAddressesParams(region, pageNumber, pageSize, f), EipFilterNames[i]) == EipFilterValues(f)[i]
  {
    var p0 := PageParams("DescribeEipAddresses", region, pageNumber, pageSize);
    assert EipFilterNames[i] !in PageNames;
    AddFiltersSets(p0, EipFilterNames, EipFilterValues(f), i);
  }

  /** `DescribeEipAddresses` sends no parameter but the page parameters and its four filters. */
  lemma DescribeEipAddressesNothingElse(region: string, pageNumber: nat, pageSize: nat, f: EipFilters, name: string)
    requires Get(DescribeEipAddressesParams(region, pageNumber, pageSize, f), name).Some?
    ensures name in PageNames + EipFilterNames
  {
    AddFiltersOnly(PageParams("DescribeEipAddresses", region, pageNumber, pageSize), EipFilterNames, EipFilterValues(f), name);
  }

  /** `DescribeVpcs`, `DescribeVSwitches`: the page parameters alone. */
  function DescribePagedParams(action: string, region: string, pageNumber: nat, pageSize: nat): (p: Params)
    ensures Distinct(p) && Get(p, "Action") == Some(action)
  {
    PageParams(action, region, pageNumber, pageSize)
  }

  /** `DescribeRegions`: asked of the Hangzhou endpoint. */
  function DescribeRegionsParams(): (p: Params)
    ensures Distinct(p) && Get(p, "Action") == Some("DescribeRegions") && Get(p, "RegionId") == Some("cn-hangzhou")
  {
    var p := [("Action", "DescribeRegions"), ("RegionId", "cn-hangzhou")];
    assert Distinct(p) by { DistinctNames(p); }
    GetAt(p, 0); GetAt(p, 1);
    p
  }

  /** `DescribeInstances` goes to the ECS endpoint of its region with the ECS version. */
  lemma DescribeInstancesGoesToEcs(region: string)
    ensures ApiEndpoint("DescribeInstances", region) == Endpoint("ecs", region)
    ensures ApiVersion("DescribeInstances") == EcsVersion
  {
    InstancesIsEcsDescribe();
  }

  lemma InstancesIsEcsDescribe()
    ensures EcsDescribe("DescribeInstances") && !VpcAction("DescribeInstances")
  {
    InstancesHasInstance();
    InstancesLacksV();
    InstancesLacksE();
  }

  lemma InstancesHasInstance()
    ensures Contains("DescribeInstances", "Instance")
  {
    ContainsAt("DescribeInstances", "Instance", 8);
  }

  lemma InstancesLacksV()
    ensures !Contains("DescribeInstances", "Vpc") && !Contains("DescribeInstances", "VSwitch")
  {
    MissingHead("DescribeInstances", "Vpc");
    MissingHead("DescribeInstances", "VSwitch");
  }

  lemma InstancesLacksE()
    ensures !Contains("DescribeInstances", "Eip")
  {
    MissingHead("DescribeInstances", "Eip");
  }

  /** `DescribeEipAddresses` goes to the VPC endpoint of its region with the VPC version. */
  lemma DescribeEipAddressesGoesToVpc(region: string)
    ensures ApiEndpoint("DescribeEipAddresses", region) == Endpoint("vpc", region)
    ensures ApiVersion("DescribeEipAddresses") == VpcVersion
  {
    EipIsVpcAction();
  }

  lemma EipIsVpcAction()
    ensures !EcsDescribe("DescribeEipAddresses") && VpcAction("DescribeEipAddresses")
  {
    EipHasEip();
    EipLacksI();
    EipLacksR();
  }

  lemma EipHasEip()
    ensures Contains("DescribeEipAddresses", "Eip")
  {
    ContainsAt("DescribeEipAddresses", "Eip", 8);
  }

  lemma EipLacksI()
    ensures !Contains("DescribeEipAddresses", "Instance")
  {
    MissingHead("DescribeEipAddresses", "Instance");
  }

  lemma EipLacksR()
    ensures !Contains("DescribeEipAddresses", "Region")
  {
    MissingHead("DescribeEipAddresses", "Region");
  }
}
