/**
 * The VPC planner (network.py): the VPC, its internet gateway and public
 * route table, one public subnet per availability zone carved out of the
 * VPC CIDR, and the two security groups with their rule table.
 */
module Network {
  import opened Wrappers
  import opened Strings
  import opened Ipv4
  import opened Resources

  datatype Vpc = Vpc(logicalName: string, cidrBlock: string, enableDnsHostnames: bool, enableDnsSupport: bool, tags: Tags)

  datatype InternetGateway = InternetGateway(logicalName: string, vpcId: Ref, tags: Tags)

  datatype Route = Route(cidrBlock: string, gatewayId: Ref)

  datatype RouteTable = RouteTable(logicalName: string, vpcId: Ref, routes: seq<Route>, tags: Tags)

  datatype Subnet = Subnet(
    logicalName: string,
    vpcId: Ref,
    cidrBlock: string,
    mapPublicIpOnLaunch: bool,
    availabilityZone: string,
    tags: Tags)

  datatype RouteTableAssociation = RouteTableAssociation(logicalName: string, subnetId: Ref, routeTableId: Ref)

  /** A subnet and the association that makes it public. */
  datatype PublicSubnet = PublicSubnet(subnet: Subnet, association: RouteTableAssociation)

  /** The three resources registered before the CIDR is looked at. */
  datatype VpcCore = VpcCore(vpc: Vpc, igw: InternetGateway, routeTable: RouteTable)

  /** `Invalid vpc_cidr '<text>'` and `Only IPv4 CIDRs are supported currently.` */
  datatype VpcError = InvalidVpcCidr(cidr: string) | OnlyIpv4

  /** `pulumi.log.warn` calls: too few zones, too few blocks. */
  datatype Warning = FewZones(available: nat) | FewBlocks(cidr: string, wanted: nat, got: nat)

  const DesiredPrefix: nat := 24
  const MaxZones: nat := 3
  const MaxFallbackPrefix: nat := 28

  function Min(a: int, b: int): int {
    if a <= b then a else b
  }

  function CoreResources(clusterName: string, vpcCidr: string, baseTags: Tags): (core: VpcCore)
    ensures core.vpc.tags == baseTags[("Name") := clusterName + "-vpc"]
    ensures core.igw.vpcId == Id(core.vpc.logicalName) && core.routeTable.vpcId == Id(core.vpc.logicalName)
    ensures core.routeTable.routes == [Route("0.0.0.0/0", Id(core.igw.logicalName))]
  {
    VpcCore(
      Vpc("eks-vpc", vpcCidr, true, true, baseTags["Name" := clusterName + "-vpc"]),
      InternetGateway("vpc-igw", Id("eks-vpc"), baseTags["Name" := clusterName + "-igw"]),
      RouteTable("vpc-rt", Id("eks-vpc"), [Route("0.0.0.0/0", Id("vpc-igw"))], baseTags["Name" := clusterName + "-rt"]))
  }

  /**
   * `ipaddress.ip_network(vpc_cidr)` behind the `except ValueError` and the
   * version check. Text that is not an IPv4 network is handed to the IPv6
   * parser, stood for here by `isIpv6Network`.
   */
  function VpcNetwork(vpcCidr: string, isIpv6Network: string -> bool): (r: Result<Network, VpcError>)
    ensures r.Ok? <==> ParseNetwork(vpcCidr).Parsed?
    ensures r.Ok? ==> Valid(r.value) && r.value == ParseNetwork(vpcCidr).net
    ensures r == Err(OnlyIpv4) <==> ParseNetwork(vpcCidr).Malformed? && isIpv6Network(vpcCidr)
  {
    match ParseNetwork(vpcCidr)
    case Parsed(net) => Ok(net)
    case HostBitsSet => Err(InvalidVpcCidr(vpcCidr))
    case Malformed => if isIpv6Network(vpcCidr) then Err(OnlyIpv4) else Err(InvalidVpcCidr(vpcCidr))
  }

  /** Any text `str(net)` produces for a valid network is accepted as that network. */
  lemma VpcNetworkFormat(net: Network, isIpv6Network: string -> bool)
    requires Valid(net)
    ensures VpcNetwork(Format(net), isIpv6Network) == Ok(net)
  {
    ParseFormat(net);
  }

  /** A host address with bits set below the prefix is rejected as invalid, not as IPv6. */
  lemma HostBitsRejected(vpcCidr: string, isIpv6Network: string -> bool)
    requires ParseNetwork(vpcCidr).HostBitsSet?
    ensures VpcNetwork(vpcCidr, isIpv6Network) == Err(InvalidVpcCidr(vpcCidr))
  {
  }

  /**
   * The address blocks the VPC is split into: /24 blocks when the VPC is
   * larger than a /24, else halves (one bit deeper, at most /28), else the
   * VPC itself.
   */
  function SubnetBlocks(net: Network): seq<Network>
    requires Valid(net)
  {
    if net.len >= DesiredPrefix then
      var fallback := Min(net.len + 1, MaxFallbackPrefix);
      if fallback <= 32 && fallback > net.len then Subnets(net, fallback) else [net]
    else Subnets(net, DesiredPrefix)
  }

  /**
   * The three regimes of the split, and in every regime a non-empty list of
   * valid blocks inside the VPC, ascending and pairwise disjoint.
   */
  lemma SubnetBlocksShape(net: Network)
    requires Valid(net)
    ensures var blocks := SubnetBlocks(net);
      && (net.len < 24 ==> |blocks| == Pow2(24 - net.len) && forall i :: 0 <= i < |blocks| ==> blocks[i].len == 24)
      && (24 <= net.len <= 27 ==> |blocks| == 2 && forall i :: 0 <= i < |blocks| ==> blocks[i].len == net.len + 1)
      && (net.len >= 28 ==> blocks == [net])
      && |blocks| >= 1
      && (forall i :: 0 <= i < |blocks| ==> Valid(blocks[i]) && Within(blocks[i], net))
      && (forall i, j :: 0 <= i < j < |blocks| ==> End(blocks[i]) <= blocks[j].base && Disjoint(blocks[i], blocks[j]))
  {
    var blocks := SubnetBlocks(net);
    if net.len < 24 {
      assert blocks == Subnets(net, 24);
      SplitBlocks(net, 24, blocks);
    } else if net.len <= 27 {
      assert blocks == Subnets(net, net.len + 1);
      SplitBlocks(net, net.len + 1, blocks);
      assert Pow2(1) == 2;
    } else {
      assert blocks == [net];
    }
  }

  /** The /`p` subnets the VPC is split into are valid blocks inside it, ascending and pairwise disjoint. */
  lemma SplitBlocks(net: Network, p: nat, blocks: seq<Network>)
    requires Valid(net) && net.len <= p <= 32
    requires blocks == Subnets(net, p)
    ensures |blocks| == Pow2(p - net.len) >= 1
    ensures forall i :: 0 <= i < |blocks| ==> blocks[i].len == p && Valid(blocks[i]) && Within(blocks[i], net)
    ensures forall i, j :: 0 <= i < j < |blocks| ==> End(blocks[i]) <= blocks[j].base && Disjoint(blocks[i], blocks[j])
  {
    SubnetsTile(net, p);
  }

  lemma SubnetBlocksValid(net: Network)
    requires Valid(net)
    ensures forall i :: 0 <= i < |SubnetBlocks(net)| ==> Valid(SubnetBlocks(net)[i])
  {
    SubnetBlocksShape(net);
  }

  /** `min(3, len(azs))`, then capped by the number of blocks. */
  function SubnetCount(zoneCount: nat, blockCount: nat): (n: nat)
    ensures n <= MaxZones && n <= zoneCount && n <= blockCount
    ensures n == MaxZones || n == zoneCount || n == blockCount
  {
    Min(Min(MaxZones, zoneCount), blockCount)
  }

  /** The warnings logged on the way; neither stops the plan. */
  function VpcWarnings(vpcCidr: string, zoneCount: nat, blockCount: Option<nat>): (ws: seq<Warning>)
    ensures (FewZones(zoneCount) in ws) <==> zoneCount < MaxZones
    ensures forall w :: w in ws && w.FewBlocks? ==> blockCount.Some? && w.got == blockCount.value < w.wanted
    ensures forall w :: w in ws && w.FewBlocks? ==> w == FewBlocks(vpcCidr, Min(MaxZones, zoneCount), w.got)
    ensures blockCount.Some? && blockCount.value < Min(MaxZones, zoneCount) ==>
      FewBlocks(vpcCidr, Min(MaxZones, zoneCount), blockCount.value) in ws
  {
    var zones := Min(MaxZones, zoneCount);
    var first := if zones < MaxZones then [FewZones(zones)] else [];
    match blockCount
    case Some(n) => if n < zones then first + [FewBlocks(vpcCidr, zones, n)] else first
    case None => first
  }

  /**
   * The subnet for one zone and the CIDR text of its block, with the
   * cluster's ownership and load-balancer role tags.
   */
  function SubnetFor(clusterName: string, baseTags: Tags, az: string, cidr: string): PublicSubnet {
    var name := "subnet-" + az;
    PublicSubnet(
      Subnet(name, Id("eks-vpc"), cidr, true, az, SubnetTags(clusterName, baseTags, az)),
      RouteTableAssociation("subnet-rta-" + az, Id(name), Id("vpc-rt")))
  }

  function SubnetTagEntries(clusterName: string, az: string): seq<(string, string)> {
    [("Name", clusterName + "-subnet-" + az),
     ("kubernetes.io/cluster/" + clusterName, "owned"),
     ("kubernetes.io/role/elb", "1"),
     ("kubernetes.io/role/internal-elb", "1")]
  }

  function SubnetTags(clusterName: string, baseTags: Tags, az: string): Tags {
    WithEntries(baseTags, SubnetTagEntries(clusterName, az))
  }

  /**
   * The subnet tags: the four subnet keys with their own values, over the
   * base tags, which keep every other key.
   */
  lemma SubnetTagsValues(clusterName: string, baseTags: Tags, az: string)
    ensures var t := SubnetTags(clusterName, baseTags, az);
      && t.Keys == baseTags.Keys + {"Name", "kubernetes.io/cluster/" + clusterName, "kubernetes.io/role/elb", "kubernetes.io/role/internal-elb"}
      && t["Name"] == clusterName + "-subnet-" + az
      && t["kubernetes.io/cluster/" + clusterName] == "owned"
      && t["kubernetes.io/role/elb"] == "1"
      && t["kubernetes.io/role/internal-elb"] == "1"
      && forall k :: k in baseTags && k !in Keys(SubnetTagEntries(clusterName, az)) ==> t[k] == baseTags[k]
  {
    var e := SubnetTagEntries(clusterName, az);
    var clusterKey := "kubernetes.io/cluster/" + clusterName;
    assert clusterKey[14] == 'c';
    assert "kubernetes.io/role/elb"[14] == 'r' && "kubernetes.io/role/internal-elb"[14] == 'r';
    assert |clusterKey| >= 22 && clusterKey != "Name";
    assert Keys(e) == {"Name", clusterKey, "kubernetes.io/role/elb", "kubernetes.io/role/internal-elb"} by {
      assert e[0].0 == "Name" && e[1].0 == clusterKey;
      assert e[2].0 == "kubernetes.io/role/elb" && e[3].0 == "kubernetes.io/role/internal-elb";
    }
    WithEntriesValues(baseTags, e);
    assert e[1].0 == clusterKey;
  }

  /** `str(block)` for each block a subnet is laid over: the first `min(3, zones, blocks)` blocks, in order. */
  function PlanCidrs(zoneCount: nat, net: Network): (cidrs: seq<string>)
    requires Valid(net)
    ensures |cidrs| == SubnetCount(zoneCount, |SubnetBlocks(net)|)
  {
    var blocks := SubnetBlocks(net);
    SubnetBlocksValid(net);
    var n := SubnetCount(zoneCount, |blocks|);
    seq(n, i requires 0 <= i < n => Format(blocks[i]))
  }

  /** The planned subnets: the i-th zone, in the given order, receives the i-th block. */
  function SubnetPlan(clusterName: string, baseTags: Tags, zones: seq<string>, net: Network): (plan: seq<PublicSubnet>)
    requires Valid(net)
  {
    var cidrs := PlanCidrs(|zones|, net);
    seq(|cidrs|, i requires 0 <= i < |cidrs| => SubnetFor(clusterName, baseTags, zones[i], cidrs[i]))
  }

  /**
   * `create_vpc`: registers the VPC, gateway and route table, then parses the
   * CIDR and lays one subnet per zone over the blocks, appending as it goes.
   */
  method CreateVpc(clusterName: string, vpcCidr: string, baseTags: Tags, zones: seq<string>, isIpv6Network: string -> bool)
    returns (core: VpcCore, warnings: seq<Warning>, subnets: Result<seq<PublicSubnet>, VpcError>, subnetIds: seq<Ref>)
    ensures core == CoreResources(clusterName, vpcCidr, baseTags)
    ensures subnets.Err? <==> VpcNetwork(vpcCidr, isIpv6Network).Err?
    ensures subnets.Err? ==> subnets.error == VpcNetwork(vpcCidr, isIpv6Network).error && subnetIds == []
    ensures subnets.Ok? ==> var net := VpcNetwork(vpcCidr, isIpv6Network).value;
      && subnets.value == SubnetPlan(clusterName, baseTags, zones, net)
      && warnings == VpcWarnings(vpcCidr, |zones|, Some(|SubnetBlocks(net)|))
      && |subnetIds| == |subnets.value|
      && forall i :: 0 <= i < |subnetIds| ==> subnetIds[i] == Id(subnets.value[i].subnet.logicalName)
    ensures subnets.Err? ==> warnings == VpcWarnings(vpcCidr, |zones|, None)
  {
    core := CoreResources(clusterName, vpcCidr, baseTags);
    var maxZones := Min(MaxZones, |zones|);
    warnings := if maxZones < MaxZones then [FewZones(maxZones)] else [];
    var parsed := VpcNetwork(vpcCidr, isIpv6Network);
    if parsed.Err? {
      subnets := Err(parsed.error);
      subnetIds := [];
      return;
    }
    var net := parsed.value;
    var blocks := SubnetBlocks(net);
    SubnetBlocksValid(net);
    if |blocks| < maxZones {
      warnings := warnings + [FewBlocks(vpcCidr, maxZones, |blocks|)];
      maxZones := Min(maxZones, |blocks|);
    }
    var cidrs := PlanCidrs(|zones|, net);
    assert |cidrs| == maxZones;
    var planned;
    planned, subnetIds := LaySubnets(clusterName, baseTags, zones, cidrs, maxZones);
    assert planned == SubnetPlan(clusterName, baseTags, zones, net);
    subnets := Ok(planned);
  }

  /**
   * The loop of `create_vpc`: the `i`-th zone gets a subnet over the `i`-th
   * block, whose CIDR text `str(block)` is `cidrs[i]`, appended in order.
   */
  method LaySubnets(clusterName: string, baseTags: Tags, zones: seq<string>, cidrs: seq<string>, count: nat)
    returns (planned: seq<PublicSubnet>, subnetIds: seq<Ref>)
    requires count <= |zones| && count <= |cidrs|
    ensures |planned| == count && |subnetIds| == count
    ensures forall k :: 0 <= k < count ==> planned[k] == SubnetFor(clusterName, baseTags, zones[k], cidrs[k])
    ensures forall k :: 0 <= k < count ==> subnetIds[k] == Id(planned[k].subnet.logicalName)
  {
    planned, subnetIds := [], [];
    var i := 0;
    while i < count
      invariant 0 <= i <= count
      invariant |planned| == i && |subnetIds| == i
      invariant forall k :: 0 <= k < i ==> planned[k] == SubnetFor(clusterName, baseTags, zones[k], cidrs[k])
      invariant forall k :: 0 <= k < i ==> subnetIds[k] == Id(planned[k].subnet.logicalName)
    {
      var s := SubnetFor(clusterName, baseTags, zones[i], cidrs[i]);
      planned := planned + [s];
      subnetIds := subnetIds + [Id(s.subnet.logicalName)];
      i := i + 1;
    }
  }

  /**
   * The planned subnets have the count `min(3, zones, blocks)`, sit in the
   * zones in order, and carry CIDR texts that read back as valid blocks
   * inside the VPC, pairwise disjoint.
   */
  lemma SubnetPlanSound(clusterName: string, baseTags: Tags, zones: seq<string>, net: Network)
    requires Valid(net)
    ensures var plan := SubnetPlan(clusterName, baseTags, zones, net);
      && |plan| == SubnetCount(|zones|, |SubnetBlocks(net)|)
      && (forall i :: 0 <= i < |plan| ==> plan[i].subnet.availabilityZone == zones[i])
      && (forall i :: 0 <= i < |plan| ==>
            && ParseNetwork(plan[i].subnet.cidrBlock).Parsed?
            && ParseNetwork(plan[i].subnet.cidrBlock).net == SubnetBlocks(net)[i]
            && Within(SubnetBlocks(net)[i], net))
      && (forall i, j :: 0 <= i < j < |plan| ==> Disjoint(SubnetBlocks(net)[i], SubnetBlocks(net)[j]))
  {
    var plan := SubnetPlan(clusterName, baseTags, zones, net);
    var blocks := SubnetBlocks(net);
    SubnetBlocksShape(net);
    forall i | 0 <= i < |plan|
      ensures ParseNetwork(plan[i].subnet.cidrBlock) == Parsed(blocks[i])
    {
      ParseFormat(blocks[i]);
    }
  }

  /** With at least one zone a valid VPC always yields at least one subnet: the split never fails. */
  lemma SubnetPlanNonEmpty(clusterName: string, baseTags: Tags, zones: seq<string>, net: Network)
    requires Valid(net)
    ensures |zones| >= 1 ==> |SubnetPlan(clusterName, baseTags, zones, net)| >= 1
  {
    SubnetBlocksShape(net);
  }

  // ---------------------------------------------------------------------
  // Security groups
  // ---------------------------------------------------------------------

  /** Where inbound traffic may come from. */
  datatype Source = FromGroups(groups: seq<Ref>) | FromCidrs(cidrs: seq<string>)

  datatype IngressRule = IngressRule(protocol: string, fromPort: int, toPort: int, source: Source)

  datatype EgressRule = EgressRule(protocol: string, fromPort: int, toPort: int, cidrBlocks: seq<string>)

  datatype SecurityGroup = SecurityGroup(
    logicalName: string,
    vpcId: Ref,
    description: string,
    ingress: seq<IngressRule>,
    egress: seq<EgressRule>,
    tags: Tags)

  /** The peer of a stand-alone rule: the group itself, or another group. */
  datatype Peer = Self | SourceGroup(id: Ref)

  datatype SecurityGroupRule = SecurityGroupRule(
    logicalName: string,
    ruleType: string,
    fromPort: int,
    toPort: int,
    protocol: string,
    securityGroupId: Ref,
    peer: Peer)

  /** Protocol `-1` with ports 0 to 0: every protocol and every port. */
  const AllTraffic := "-1"

  const AllEgress := EgressRule(AllTraffic, 0, 0, ["0.0.0.0/0"])

  /** Whether an inline ingress rule admits TCP on `port` from `source`. */
  predicate IngressAdmits(rules: seq<IngressRule>, port: int, source: Source) {
    exists r :: r in rules && r.protocol == "tcp" && r.fromPort <= port <= r.toPort && Admits(r.source, source)
  }

  /** A rule source admits a single group or a single CIDR it lists. */
  predicate Admits(ruleSource: Source, source: Source) {
    match (ruleSource, source)
    case (FromGroups(gs), FromGroups(g)) => |g| == 1 && g[0] in gs
    case (FromCidrs(cs), FromCidrs(c)) => |c| == 1 && c[0] in cs
    case _ => false
  }

  /** Whether a stand-alone rule admits `protocol` traffic on `port` from `peer` into `group`. */
  predicate RuleAdmits(rules: seq<SecurityGroupRule>, group: Ref, port: int, peer: Peer, protocol: string) {
    exists r :: r in rules && r.ruleType == "ingress" && r.securityGroupId == group && r.peer == peer
      && ((r.protocol == AllTraffic && r.fromPort == 0 && r.toPort == 0)
          || (r.protocol == protocol && r.fromPort <= port <= r.toPort))
  }

  /**
   * The groups and rules `create_security_groups` plans in `vpcId`: the node
   * group with no inline ingress, the control-plane group whose ingress list
   * starts with HTTPS from the nodes and gains HTTPS from the trusted CIDRs
   * only when there are any, and the four stand-alone node rules.
   */
  predicate SecurityGroupsPlanned(
    vpcId: Ref, trustedCidrs: seq<string>, clusterName: string, baseTags: Tags,
    nodeSg: SecurityGroup, eksSg: SecurityGroup, rules: seq<SecurityGroupRule>)
  {
    && nodeSg.logicalName == "nodegroup-sg" && eksSg.logicalName == "eks-sg"
    && nodeSg.description == "Security group for EKS worker nodes"
    && eksSg.description == "EKS control plane security group"
    && nodeSg.vpcId == vpcId && eksSg.vpcId == vpcId
    && nodeSg.ingress == [] && nodeSg.egress == [AllEgress] && eksSg.egress == [AllEgress]
    && nodeSg.tags == baseTags["Name" := clusterName + "-node-sg"]
    && eksSg.tags == baseTags["Name" := clusterName + "-controlplane-sg"]
    && |eksSg.ingress| == (if trustedCidrs == [] then 1 else 2)
    && (forall r :: r in eksSg.ingress ==> r.protocol == "tcp" && r.fromPort == 443 && r.toPort == 443)
    && eksSg.ingress[0].source == FromGroups([Id("nodegroup-sg")])
    && (trustedCidrs != [] ==> eksSg.ingress[1].source == FromCidrs(trustedCidrs))
    && |rules| == 4
    && (forall r :: r in rules ==> r.ruleType == "ingress" && r.securityGroupId == Id("nodegroup-sg"))
    && rules[0] == SecurityGroupRule("node-self-all", "ingress", 0, 0, AllTraffic, Id("nodegroup-sg"), Self)
    && (forall k :: 1 <= k < 4 ==> rules[k].protocol == "tcp" && rules[k].peer == SourceGroup(Id("eks-sg")))
    && (rules[1].fromPort, rules[1].toPort) == (10250, 10250)
    && (rules[2].fromPort, rules[2].toPort) == (30000, 32767)
    && (rules[3].fromPort, rules[3].toPort) == (1025, 65535)
    && rules[1].logicalName == "node-from-controlplane-kubelet"
    && rules[2].logicalName == "node-from-controlplane-nodeport"
    && rules[3].logicalName == "node-from-controlplane-ephemeral"
  }

  /** `create_security_groups`. */
  method CreateSecurityGroups(vpcId: Ref, trustedCidrs: seq<string>, clusterName: string, baseTags: Tags)
    returns (nodeSg: SecurityGroup, eksSg: SecurityGroup, rules: seq<SecurityGroupRule>)
    ensures SecurityGroupsPlanned(vpcId, trustedCidrs, clusterName, baseTags, nodeSg, eksSg, rules)
  {
    nodeSg := SecurityGroup("nodegroup-sg", vpcId, "Security group for EKS worker nodes", [], [AllEgress],
                            baseTags["Name" := clusterName + "-node-sg"]);
    var ingressRules := [IngressRule("tcp", 443, 443, FromGroups([Id(nodeSg.logicalName)]))];
    if trustedCidrs != [] {
      ingressRules := ingressRules + [IngressRule("tcp", 443, 443, FromCidrs(trustedCidrs))];
    }
    eksSg := SecurityGroup("eks-sg", vpcId, "EKS control plane security group", ingressRules, [AllEgress],
                           baseTags["Name" := clusterName + "-controlplane-sg"]);
    var nodeId, eksId := Id(nodeSg.logicalName), Id(eksSg.logicalName);
    rules := [
      SecurityGroupRule("node-self-all", "ingress", 0, 0, AllTraffic, nodeId, Self),
      SecurityGroupRule("node-from-controlplane-kubelet", "ingress", 10250, 10250, "tcp", nodeId, SourceGroup(eksId)),
      SecurityGroupRule("node-from-controlplane-nodeport", "ingress", 30000, 32767, "tcp", nodeId, SourceGroup(eksId)),
      SecurityGroupRule("node-from-controlplane-ephemeral", "ingress", 1025, 65535, "tcp", nodeId, SourceGroup(eksId))
    ];
  }

  /**
   * What the control plane accepts: TCP from the node group exactly on 443,
   * and TCP from a single CIDR exactly on 443 when that CIDR is trusted; an
   * empty trusted list opens nothing to any CIDR.
   */
  lemma ControlPlaneAccess(eksSg: SecurityGroup, trustedCidrs: seq<string>, port: int, cidr: string)
    requires |eksSg.ingress| == (if trustedCidrs == [] then 1 else 2)
    requires forall r :: r in eksSg.ingress ==> r.protocol == "tcp" && r.fromPort == 443 && r.toPort == 443
    requires eksSg.ingress[0].source == FromGroups([Id("nodegroup-sg")])
    requires trustedCidrs != [] ==> eksSg.ingress[1].source == FromCidrs(trustedCidrs)
    ensures IngressAdmits(eksSg.ingress, port, FromGroups([Id("nodegroup-sg")])) <==> port == 443
    ensures IngressAdmits(eksSg.ingress, port, FromCidrs([cidr])) <==> port == 443 && cidr in trustedCidrs
  {
    var r0 := eksSg.ingress[0];
    assert r0 in eksSg.ingress;
    if trustedCidrs != [] {
      var r1 := eksSg.ingress[1];
      assert r1 in eksSg.ingress;
    }
  }

  /**
   * What the worker nodes accept from outside their own group: TCP from the
   * control plane on the kubelet port, the NodePort range and the ephemeral
   * range, and nothing else; and everything from each other.
   */
  lemma NodeAccess(rules: seq<SecurityGroupRule>, port: int, protocol: string)
    requires |rules| == 4
    requires forall r :: r in rules ==> r.ruleType == "ingress" && r.securityGroupId == Id("nodegroup-sg")
    requires rules[0] == SecurityGroupRule("node-self-all", "ingress", 0, 0, AllTraffic, Id("nodegroup-sg"), Self)
    requires forall k :: 1 <= k < 4 ==> rules[k].protocol == "tcp" && rules[k].peer == SourceGroup(Id("eks-sg"))
    requires (rules[1].fromPort, rules[1].toPort) == (10250, 10250)
    requires (rules[2].fromPort, rules[2].toPort) == (30000, 32767)
    requires (rules[3].fromPort, rules[3].toPort) == (1025, 65535)
    ensures RuleAdmits(rules, Id("nodegroup-sg"), port, Self, protocol)
    ensures RuleAdmits(rules, Id("nodegroup-sg"), port, SourceGroup(Id("eks-sg")), protocol)
            <==> protocol == "tcp" && (port == 10250 || 30000 <= port <= 32767 || 1025 <= port <= 65535)
  {
    assert rules[0] in rules;
    var group, cp := Id("nodegroup-sg"), SourceGroup(Id("eks-sg"));
    if protocol == "tcp" && (port == 10250 || 30000 <= port <= 32767 || 1025 <= port <= 65535) {
      if port == 10250 {
        assert rules[1] in rules;
      } else if 30000 <= port <= 32767 {
        assert rules[2] in rules;
      } else {
        assert rules[3] in rules;
      }
    }
    if RuleAdmits(rules, group, port, cp, protocol) {
      var r :| r in rules && r.ruleType == "ingress" && r.securityGroupId == group && r.peer == cp
        && ((r.protocol == AllTraffic && r.fromPort == 0 && r.toPort == 0)
            || (r.protocol == protocol && r.fromPort <= port <= r.toPort));
      assert r == rules[1] || r == rules[2] || r == rules[3];
    }
  }

  /**
   * What the planned groups let through: the control plane takes HTTPS
   * alone from the nodes and from exactly the trusted CIDRs; the nodes take
   * everything from each other and, from the control plane, TCP exactly on
   * the kubelet port, the NodePort range and the ephemeral range.
   */
  lemma PlannedAccess(
    vpcId: Ref, trustedCidrs: seq<string>, clusterName: string, baseTags: Tags,
    nodeSg: SecurityGroup, eksSg: SecurityGroup, rules: seq<SecurityGroupRule>, port: int, cidr: string, protocol: string)
    requires SecurityGroupsPlanned(vpcId, trustedCidrs, clusterName, baseTags, nodeSg, eksSg, rules)
    ensures IngressAdmits(eksSg.ingress, port, FromGroups([Id(nodeSg.logicalName)])) <==> port == 443
    ensures IngressAdmits(eksSg.ingress, port, FromCidrs([cidr])) <==> port == 443 && cidr in trustedCidrs
    ensures !IngressAdmits(nodeSg.ingress, port, FromCidrs([cidr]))
    ensures RuleAdmits(rules, Id(nodeSg.logicalName), port, Self, protocol)
    ensures RuleAdmits(rules, Id(nodeSg.logicalName), port, SourceGroup(Id(eksSg.logicalName)), protocol)
            <==> protocol == "tcp" && (port == 10250 || 30000 <= port <= 32767 || 1025 <= port <= 65535)
  {
    ControlPlaneAccess(eksSg, trustedCidrs, port, cidr);
    NodeAccess(rules, port, protocol);
  }
}
