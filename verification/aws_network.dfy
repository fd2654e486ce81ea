/** The network and IAM helpers of the AWS service
    (dist/src/src/services/AWSService.js): default VPC and subnet discovery,
    security groups, the IAM permission check, the default route table, and
    the get-or-create of the S3 gateway endpoint and its route. */
module AwsNetwork {
  import opened Common
  import opened Cloud

  // ---------------------------------------------------------------------------
  // Subnets, VPCs and security groups
  // ---------------------------------------------------------------------------

  /** The first subnet of `vpcId` in response order, if any. */
  function FirstSubnetOf(subnets: seq<Subnet>, vpcId: string): (r: Option<string>)
    ensures r.None? <==> forall i :: 0 <= i < |subnets| ==> subnets[i].vpcId != vpcId
    ensures r.Some? ==> exists i :: 0 <= i < |subnets| && subnets[i].vpcId == vpcId && subnets[i].id == r.value
                                    && forall j :: 0 <= j < i ==> subnets[j].vpcId != vpcId
  {
    if |subnets| == 0 then None
    else if subnets[0].vpcId == vpcId then Some(subnets[0].id)
    else
      var r := FirstSubnetOf(subnets[1..], vpcId);
      assert r.Some? ==> exists i :: 1 <= i < |subnets| && subnets[i].vpcId == vpcId && subnets[i].id == r.value
                                    && forall j :: 0 <= j < i ==> subnets[j].vpcId != vpcId by {
        if r.Some? {
          var k :| 0 <= k < |subnets[1..]| && subnets[1..][k].vpcId == vpcId && subnets[1..][k].id == r.value
                   && forall j :: 0 <= j < k ==> subnets[1..][j].vpcId != vpcId;
          assert forall j :: 0 <= j < k + 1 ==> subnets[j].vpcId != vpcId by {
            forall j | 0 <= j < k + 1 ensures subnets[j].vpcId != vpcId {
              if j > 0 { assert subnets[j] == subnets[1..][j - 1]; }
            }
          }
        }
      }
      r
  }

  /** `getSubnetIdForVpc(vpcId)`: the VPC's first subnet id, or null;
      a failing `describeSubnets` is not caught. */
  function GetSubnetIdForVpc(env: Env, vpcId: string): (r: Result<Option<string>>)
    ensures r.Err? <==> DescribeSubnets in env.failing
    ensures r.Ok? && r.value.None? ==> forall i :: 0 <= i < |env.subnets| ==> env.subnets[i].vpcId != vpcId
    ensures r.Ok? && r.value.Some? ==> exists i :: 0 <= i < |env.subnets| && env.subnets[i].vpcId == vpcId && env.subnets[i].id == r.value.value
                                              && forall j :: 0 <= j < i ==> env.subnets[j].vpcId != vpcId
  {
    if DescribeSubnets in env.failing then Err(env.failing[DescribeSubnets])
    else Ok(FirstSubnetOf(env.subnets, vpcId))
  }

  /** The first default VPC, if any. */
  function FirstDefaultVpc(vpcs: seq<Vpc>): (r: Option<nat>)
    ensures r.None? <==> forall i :: 0 <= i < |vpcs| ==> !vpcs[i].isDefault
    ensures r.Some? ==> r.value < |vpcs| && vpcs[r.value].isDefault && forall j :: 0 <= j < r.value ==> !vpcs[j].isDefault
  {
    if |vpcs| == 0 then None
    else if vpcs[0].isDefault then Some(0)
    else
      var r := FirstDefaultVpc(vpcs[1..]);
      if r.None? then None else Some(r.value + 1)
  }

  /** `findDefaultSubnetForVPC()`: `[subnet of the default VPC, its id]`,
      or `undefined` when there is no default VPC or a lookup fails; it
      never throws. */
  function FindDefaultSubnetForVpc(env: Env): (r: Option<(Option<string>, string)>)
    ensures r.Some? ==> DescribeVpcs !in env.failing && DescribeSubnets !in env.failing
    ensures r.Some? ==> var k := FirstDefaultVpc(env.vpcs);
                        k.Some? && r.value.1 == env.vpcs[k.value].id && r.value.0 == FirstSubnetOf(env.subnets, r.value.1)
    ensures r.None? <==> DescribeVpcs in env.failing || FirstDefaultVpc(env.vpcs).None? || DescribeSubnets in env.failing
  {
    if DescribeVpcs in env.failing then None
    else
      match FirstDefaultVpc(env.vpcs)
      case None => None
      case Some(k) =>
        var vpcId := env.vpcs[k].id;
        match GetSubnetIdForVpc(env, vpcId)
        case Err(_) => None
        case Ok(subnet) => Some((subnet, vpcId))
  }

  /** `listSecurityGroups()`: every group id in response order, or `[]`
      when the call fails. */
  function ListSecurityGroups(env: Env): (r: seq<string>)
    ensures DescribeSecurityGroups in env.failing ==> r == []
    ensures DescribeSecurityGroups !in env.failing ==>
              |r| == |env.securityGroups| && forall i :: 0 <= i < |r| ==> r[i] == env.securityGroups[i].groupId
  {
    if DescribeSecurityGroups in env.failing then []
    else seq(|env.securityGroups|, i requires 0 <= i < |env.securityGroups| => env.securityGroups[i].groupId)
  }

  // ---------------------------------------------------------------------------
  // IAM permission check
  // ---------------------------------------------------------------------------

  datatype EvalResult = EvalResult(actionName: string, decision: string)

  datatype PermissionReport = PermissionReport(ok: bool, policies: seq<string>)

  /** The action names whose decision is not `allowed`, in order. */
  function Denied(results: seq<EvalResult>): (r: seq<string>)
    ensures |r| <= |results|
  {
    if |results| == 0 then []
    else (if results[0].decision != "allowed" then [results[0].actionName] else []) + Denied(results[1..])
  }

  /** `firePermissionCheck(roleARN, permissions)` given the answer of
      `simulatePrincipalPolicy`: the fold over its evaluation results. */
  method FirePermissionCheck(answer: Result<seq<EvalResult>>) returns (report: PermissionReport)
    ensures report.ok <==> answer.Ok? && forall i :: 0 <= i < |answer.value| ==> answer.value[i].decision == "allowed"
    ensures answer.Ok? ==> report.policies == Denied(answer.value)
    ensures answer.Err? ==> report.policies == []
  {
    if answer.Err? {
      return PermissionReport(false, []);
    }
    var results := answer.value;
    var policies: seq<string> := [];
    var allowed := true;
    var i := 0;
    while i < |results|
      invariant 0 <= i <= |results|
      invariant policies + Denied(results[i..]) == Denied(results)
      invariant allowed <==> forall j :: 0 <= j < i ==> results[j].decision == "allowed"
    {
      assert results[i..][1..] == results[i + 1..];
      if results[i].decision != "allowed" {
        allowed := false;
        policies := policies + [results[i].actionName];
      }
      i := i + 1;
    }
    assert results[i..] == [];
    return PermissionReport(allowed, policies);
  }

  /** `checkForRolePermissions`: the same report as the check it fires. */
  method CheckForRolePermissions(answer: Result<seq<EvalResult>>) returns (report: PermissionReport)
    ensures report.ok <==> answer.Ok? && forall i :: 0 <= i < |answer.value| ==> answer.value[i].decision == "allowed"
    ensures report.policies == (if answer.Ok? then Denied(answer.value) else [])
  {
    report := FirePermissionCheck(answer);
  }

  /** When the simulation answers, the check passes exactly when no action
      is reported back. */
  lemma {:induction false} DeniedEmptyIffAllAllowed(results: seq<EvalResult>)
    ensures Denied(results) == [] <==> forall i :: 0 <= i < |results| ==> results[i].decision == "allowed"
    decreases |results|
  {
    if |results| > 0 {
      DeniedEmptyIffAllAllowed(results[1..]);
      assert forall i :: 1 <= i < |results| ==> results[i] == results[1..][i - 1];
    }
  }

  // ---------------------------------------------------------------------------
  // The default route table
  // ---------------------------------------------------------------------------

  /** A route table with no explicit subnet association. */
  predicate IsDefaultCandidate(rt: RouteTable) {
    rt.associations.None? || forall k :: 0 <= k < |rt.associations.value| ==> !Truthy(rt.associations.value[k].subnetId)
  }

  /** The index of the first route table of `vpcId` without subnet
      associations. */
  function DefaultTableIndex(tables: seq<RouteTable>, vpcId: string): (r: Option<nat>)
    ensures r.Some? ==> r.value < |tables| && tables[r.value].vpcId == vpcId && IsDefaultCandidate(tables[r.value])
    ensures r.Some? ==> forall j :: 0 <= j < r.value ==> !(tables[j].vpcId == vpcId && IsDefaultCandidate(tables[j]))
    ensures r.None? ==> forall j :: 0 <= j < |tables| ==> !(tables[j].vpcId == vpcId && IsDefaultCandidate(tables[j]))
  {
    if |tables| == 0 then None
    else if tables[0].vpcId == vpcId && IsDefaultCandidate(tables[0]) then Some(0)
    else
      var r := DefaultTableIndex(tables[1..], vpcId);
      if r.None? then None else Some(r.value + 1)
  }

  /** `getDefaultRouteTable(vpcId)`: the index of the route table it picks;
      a failing `describeRouteTables` is not caught. */
  function GetDefaultRouteTable(env: Env, w: World, vpcId: string): (r: Result<Option<nat>>)
    ensures r.Err? <==> DescribeRouteTables in env.failing
    ensures r.Ok? ==> r.value == DefaultTableIndex(w.routeTables, vpcId)
  {
    if DescribeRouteTables in env.failing then Err(env.failing[DescribeRouteTables])
    else Ok(DefaultTableIndex(w.routeTables, vpcId))
  }

  /** Replacing a table by one with the same VPC and associations does not
      change which table is the default. */
  lemma {:induction false} DefaultTableStable(tables: seq<RouteTable>, vpcId: string, i: nat, t: RouteTable)
    requires DefaultTableIndex(tables, vpcId) == Some(i)
    requires t.vpcId == tables[i].vpcId && t.associations == tables[i].associations
    ensures DefaultTableIndex(tables[i := t], vpcId) == Some(i)
    decreases |tables|
  {
    if i > 0 {
      DefaultTableStable(tables[1..], vpcId, i - 1, t);
      assert tables[i := t][1..] == tables[1..][i - 1 := t];
    }
  }

  // ---------------------------------------------------------------------------
  // The S3 gateway endpoint
  // ---------------------------------------------------------------------------

  const GatewayName := "RWS-S3-GATE"

  function S3ServiceName(region: string): string {
    "com.amazonaws." + region + ".s3"
  }

  /** The first endpoint carrying the gateway's name tag, in any VPC. */
  function FirstTagged(endpoints: seq<VpcEndpoint>): (r: Option<nat>)
    ensures r.Some? ==> r.value < |endpoints| && endpoints[r.value].nameTag == GatewayName
    ensures r.Some? ==> forall j :: 0 <= j < r.value ==> endpoints[j].nameTag != GatewayName
    ensures r.None? <==> forall j :: 0 <= j < |endpoints| ==> endpoints[j].nameTag != GatewayName
  {
    if |endpoints| == 0 then None
    else if endpoints[0].nameTag == GatewayName then Some(0)
    else
      var r := FirstTagged(endpoints[1..]);
      if r.None? then None else Some(r.value + 1)
  }

  /** Both lookups made before the endpoint is created answer. */
  predicate Lookups(env: Env) {
    DescribeVpcEndpoints !in env.failing && DescribeRouteTables !in env.failing
  }

  /** The id of the default route table of `vpcId`, when there is one. */
  function DefaultTableId(w: World, vpcId: string): string {
    var t := DefaultTableIndex(w.routeTables, vpcId);
    if t.Some? then w.routeTables[t.value].id else ""
  }

  /** What is thrown when `createVpcEndpoint` answers without an endpoint. */
  const NoEndpointError := Error("", "Failed to create VPC Endpoint")

  function TypeError(reading: string): Error {
    Error(TypeErrorCode, "Cannot read properties of undefined (reading '" + reading + "')")
  }

  /** `createVPCEndpointIfNotExist(vpcId)`: the id of the first endpoint
      tagged `RWS-S3-GATE`, or of a new S3 gateway endpoint on the default
      route table. The route table is looked up in both cases. */
  function CreateVpcEndpointIfNotExist(env: Env, w: World, vpcId: string): (o: Outcome<string>)
    ensures DescribeVpcEndpoints in env.failing ==> o == Outcome(w, Err(env.failing[DescribeVpcEndpoints]))
    ensures DescribeVpcEndpoints !in env.failing && DescribeRouteTables in env.failing ==>
              o == Outcome(w, Err(env.failing[DescribeRouteTables]))
    ensures Lookups(env) && FirstTagged(w.endpoints).Some? ==> o.result == Ok(w.endpoints[FirstTagged(w.endpoints).value].id)
    ensures FirstTagged(w.endpoints).Some? ==> o.world == w
    ensures FirstTagged(w.endpoints).Some? && o.result.Ok? ==> o.result.value == w.endpoints[FirstTagged(w.endpoints).value].id
    ensures o.result.Ok? ==> FirstTagged(o.world.endpoints).Some? && o.result.value == o.world.endpoints[FirstTagged(o.world.endpoints).value].id
    ensures o.world != w ==> FirstTagged(w.endpoints).None? && DefaultTableIndex(w.routeTables, vpcId).Some?
    ensures o.world != w ==> o.world.calls == w.calls + [EndpointCreated(vpcId, S3ServiceName(env.region), DefaultTableId(w, vpcId))]
    ensures o.world != w && o.result.Ok? ==>
              o.world.endpoints == w.endpoints + [VpcEndpoint(o.result.value, GatewayName, vpcId, S3ServiceName(env.region), "Gateway", [DefaultTableId(w, vpcId)])]
    ensures o.world != w && o.result.Err? ==> o.world.endpoints == w.endpoints
    ensures Lookups(env) && FirstTagged(w.endpoints).None? ==> (o.world != w <==> DefaultTableIndex(w.routeTables, vpcId).Some?)
    ensures Lookups(env) && FirstTagged(w.endpoints).None? && DefaultTableIndex(w.routeTables, vpcId).None? ==>
              o.result == Err(TypeError("RouteTableId"))
    ensures Lookups(env) && FirstTagged(w.endpoints).None? && DefaultTableIndex(w.routeTables, vpcId).Some? ==>
              (o.result.Ok? <==> CreateVpcEndpoint !in env.failing && w.nextEndpointId.Some?)
    ensures (Lookups(env) && FirstTagged(w.endpoints).None? && DefaultTableIndex(w.routeTables, vpcId).Some? &&
             CreateVpcEndpoint !in env.failing && w.nextEndpointId.None?) ==> o.result == Err(NoEndpointError)
    ensures o.world.routeTables == w.routeTables && o.world.(endpoints := w.endpoints, calls := w.calls) == w
  {
    if DescribeVpcEndpoints in env.failing then Outcome(w, Err(env.failing[DescribeVpcEndpoints]))
    else
      match GetDefaultRouteTable(env, w, vpcId)
      case Err(e) => Outcome(w, Err(e))
      case Ok(table) =>
        match FirstTagged(w.endpoints)
        case Some(k) => Outcome(w, Ok(w.endpoints[k].id))
        case None =>
          if table.None? then Outcome(w, Err(TypeError("RouteTableId")))
          else
            var rtId := w.routeTables[table.value].id;
            var service := S3ServiceName(env.region);
            var w1 := Record(w, EndpointCreated(vpcId, service, rtId));
            if CreateVpcEndpoint in env.failing then Outcome(w1, Err(env.failing[CreateVpcEndpoint]))
            else if w.nextEndpointId.None? then Outcome(w1, Err(NoEndpointError))
            else
              var id := w.nextEndpointId.value;
              var created := VpcEndpoint(id, GatewayName, vpcId, service, "Gateway", [rtId]);
              var ends := w.endpoints + [created];
              assert FirstTagged(ends) == Some(|w.endpoints|) by {
                FirstTaggedAppend(w.endpoints, created);
              }
              Outcome(w1.(endpoints := ends), Ok(id))
  }

  lemma {:induction false} FirstTaggedAppend(endpoints: seq<VpcEndpoint>, e: VpcEndpoint)
    requires FirstTagged(endpoints).None? && e.nameTag == GatewayName
    ensures FirstTagged(endpoints + [e]) == Some(|endpoints|)
    decreases |endpoints|
  {
    if |endpoints| == 0 {
    } else {
      assert (endpoints + [e])[1..] == endpoints[1..] + [e];
      FirstTaggedAppend(endpoints[1..], e);
    }
  }

  /** A second call after a successful one returns the same endpoint and
      does nothing: at most one endpoint is ever created. */
  lemma EndpointIdempotent(env: Env, w: World, vpcId: string)
    requires CreateVpcEndpointIfNotExist(env, w, vpcId).result.Ok?
    ensures var o1 := CreateVpcEndpointIfNotExist(env, w, vpcId);
            var o2 := CreateVpcEndpointIfNotExist(env, o1.world, vpcId);
            o2 == Outcome(o1.world, o1.result)
  {
    var o1 := CreateVpcEndpointIfNotExist(env, w, vpcId);
    assert DescribeVpcEndpoints !in env.failing;
    assert GetDefaultRouteTable(env, w, vpcId).Ok?;
    assert o1.world.routeTables == w.routeTables;
  }

  // ---------------------------------------------------------------------------
  // The route to the endpoint
  // ---------------------------------------------------------------------------

  predicate RoutesTo(routes: seq<Route>, endpointId: string) {
    exists k :: 0 <= k < |routes| && routes[k].gatewayId == Some(endpointId)
  }

  /** The default route table of `vpcId` has a route whose gateway is the endpoint. */
  predicate HasRouteTo(w: World, vpcId: string, endpointId: string) {
    var t := DefaultTableIndex(w.routeTables, vpcId);
    t.Some? && RoutesTo(w.routeTables[t.value].routes.GetOr([]), endpointId)
  }

  /** The endpoint with the given id, if any. */
  function FindEndpoint(endpoints: seq<VpcEndpoint>, id: string): (r: Option<VpcEndpoint>)
    ensures r.Some? ==> r.value in endpoints && r.value.id == id
  {
    if |endpoints| == 0 then None
    else if endpoints[0].id == id then Some(endpoints[0])
    else FindEndpoint(endpoints[1..], id)
  }

  const AnyDestination := "0.0.0.0/0"

  /** `ensureRouteToVPCEndpoint(vpcId, vpcEndpointId)`: adds a `0.0.0.0/0`
      route to the endpoint only when the default table has no route whose
      gateway is the endpoint; every error is swallowed. */
  function EnsureRouteToVpcEndpoint(env: Env, w: World, vpcId: string, endpointId: string): (w': World)
    ensures (DescribeRouteTables !in env.failing && DescribeVpcEndpoints !in env.failing &&
             DefaultTableIndex(w.routeTables, vpcId).Some? && !HasRouteTo(w, vpcId, endpointId) &&
             FindEndpoint(w.endpoints, endpointId).Some?) ==>
              && w'.calls == w.calls + [RouteCreated(w.routeTables[DefaultTableIndex(w.routeTables, vpcId).value].id, AnyDestination, endpointId)]
              && (CreateRoute !in env.failing ==> HasRouteTo(w', vpcId, endpointId))
              && (CreateRoute in env.failing ==> w'.routeTables == w.routeTables)
    ensures DescribeRouteTables in env.failing || DefaultTableIndex(w.routeTables, vpcId).None? ==> w' == w
    ensures HasRouteTo(w, vpcId, endpointId) ==> w' == w
    ensures w' == w || var t := DefaultTableIndex(w.routeTables, vpcId);
                       t.Some? && w'.calls == w.calls + [RouteCreated(w.routeTables[t.value].id, AnyDestination, endpointId)]
    ensures w'.routeTables != w.routeTables ==> !HasRouteTo(w, vpcId, endpointId) && HasRouteTo(w', vpcId, endpointId)
    ensures w'.(routeTables := w.routeTables, calls := w.calls) == w
  {
    match GetDefaultRouteTable(env, w, vpcId)
    case Err(_) => w
    case Ok(None) => w
    case Ok(Some(i)) =>
      var rt := w.routeTables[i];
      var routes := rt.routes.GetOr([]);
      if RoutesTo(routes, endpointId) then w
      else if DescribeVpcEndpoints in env.failing then w
      else
        match FindEndpoint(w.endpoints, endpointId)
        case None => w
        case Some(e) =>
          var w1 := Record(w, RouteCreated(rt.id, AnyDestination, e.id));
          if CreateRoute in env.failing then w1
          else
            var added := rt.(routes := Some(routes + [Route(AnyDestination, Some(e.id))]));
            var w2 := w1.(routeTables := w.routeTables[i := added]);
            DefaultTableStable(w.routeTables, vpcId, i, added);
            assert added.routes.GetOr([])[|routes|].gatewayId == Some(endpointId);
            w2
  }

  /** A second call adds no further route: the route tables after two calls
      are those after one. */
  lemma RouteIdempotent(env: Env, w: World, vpcId: string, endpointId: string)
    ensures var w1 := EnsureRouteToVpcEndpoint(env, w, vpcId, endpointId);
            EnsureRouteToVpcEndpoint(env, w1, vpcId, endpointId).routeTables == w1.routeTables
  {
    var w1 := EnsureRouteToVpcEndpoint(env, w, vpcId, endpointId);
    if w1.routeTables != w.routeTables {
      assert HasRouteTo(w1, vpcId, endpointId);
    } else {
      assert w1.endpoints == w.endpoints;
    }
  }
}
