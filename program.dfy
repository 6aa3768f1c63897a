/**
 * The deployment program (__main__.py): load the configuration, plan the
 * network and the control plane, then each node group in configuration
 * order, then the add-ons, the OIDC provider and the autoscaler, and export
 * the kubeconfig and a summary. A raised exception ends the program; here
 * it is an `Err` result, and the trace lists the steps taken up to it.
 *
 * The program as written imports its planners from the older module and
 * calls `create_vpc` and `create_node_group` with argument lists that do not
 * match their definitions; this model makes the evidently intended calls to
 * the cluster planner: the VPC without `max_azs`, and each node group with
 * the cluster name, the cluster-wide subnets and an empty zone map.
 */
module Deploy {
  import opened Wrappers
  import opened Resources
  import opened Settings
  import Network
  import Cluster
  import Irsa

  /** The optional Helm add-ons, in the order they are considered. */
  datatype AddonKind = Efs | Ebs | Ingress | Prometheus

  /** One step of the program, in the order it is taken. */
  datatype Step =
    | ConfigLoaded
    | VpcPlanned
    | SecurityGroupsPlanned
    | KmsKeyPlanned
    | LogGroupPlanned
    | ClusterPlanned
    | KubeProviderPlanned
    | ArchValidated(group: string)
    | AmiResolved(group: string)
    | LaunchTemplatePlanned(group: string)
    | NodeGroupPlanned(group: string)
    | ManagedAddonsPlanned
    | AddonSetUp(kind: AddonKind)
    | OidcPlanned
    | AutoscalerPlanned
    | AccessChecked
    | Exported

  datatype DeployError =
    | ConfigFailed(configError: ConfigError)
    | VpcFailed(vpcError: Network.VpcError)
    | ClusterFailed(clusterError: Cluster.ClusterError)
    | NodeGroupFailed(group: string, groupError: Cluster.ClusterError)
    | AccessCheckFailed

  /** The exported `cluster` summary. */
  datatype Summary = Summary(
    name: string,
    arn: Ref,
    endpoint: Ref,
    region: string,
    version: Ref,
    vpcId: Ref,
    vpcCidr: Ref,
    subnetIds: seq<Ref>,
    eksControlPlaneSg: Ref,
    nodeGroupSg: Ref,
    nodeGroups: seq<(string, Ref)>)

  /** Everything the program plans and exports. */
  datatype Deployment = Deployment(
    config: Config,
    baseTags: Tags,
    controlPlane: ControlPlane,
    launchTemplates: seq<Cluster.LaunchTemplate>,
    nodeGroups: seq<Cluster.NodeGroup>,
    extras: Extras,
    kubeconfig: Cluster.Kubeconfig,
    summary: Summary)

  const ClusterLogicalName := "eks-cluster"
  const KubeProviderLogicalName := "k8s-provider"

  // ---------------------------------------------------------------------
  // One node group
  // ---------------------------------------------------------------------

  /** The labels the program passes: the user's, then `arch`, `ami-family` and `node-group`. */
  function MainLabels(ng: NodeGroupConfig): Tags {
    WithEntries(ng.labels, [("arch", ng.architecture), ("ami-family", ng.amiFamily), ("node-group", ng.name)])
  }

  /** The settings the program passes to `create_node_group`: no subnet choice and no taints. */
  function MainSpec(ng: NodeGroupConfig): (spec: Cluster.NodeGroupSpec)
    ensures spec.subnetIds == [] && spec.subnetAzs == [] && spec.taints == []
  {
    Cluster.NodeGroupSpec([], [], ng.minCapacity, ng.desiredCapacity, ng.maxCapacity, ng.instanceType, MainLabels(ng), [])
  }

  /** The error a node group stops the program with, checked in the program's order. */
  function GroupFailure(clusterVersion: string, ng: NodeGroupConfig, catalog: Cluster.AmiCatalog): Option<Cluster.ClusterError> {
    var archCheck := Cluster.ValidateInstanceTypeArchPair(ng.instanceType, ng.architecture);
    if archCheck.Some? then archCheck
    else
      var ami := Cluster.GetAmiForGroup(clusterVersion, ng.architecture, ng.amiFamily, ng.amiId, catalog);
      if ami.Err? then Some(ami.error)
      else if !(ng.minCapacity <= ng.desiredCapacity <= ng.maxCapacity) then Some(Cluster.CapacityInvalid(ng.name))
      else None
  }

  /** A node group that does not fail has a valid pair, an image, and ordered capacities. */
  lemma {:induction false} GroupFailureMeans(clusterVersion: string, ng: NodeGroupConfig, catalog: Cluster.AmiCatalog)
    ensures GroupFailure(clusterVersion, ng, catalog).None? <==>
      && Cluster.ValidateInstanceTypeArchPair(ng.instanceType, ng.architecture).None?
      && Cluster.GetAmiForGroup(clusterVersion, ng.architecture, ng.amiFamily, ng.amiId, catalog).Ok?
      && ng.minCapacity <= ng.desiredCapacity <= ng.maxCapacity
  {
  }

  /** What the program plans for one node group that does not fail. */
  predicate GroupPlanned(
    cfg: Config, baseTags: Tags, nodeSgId: Ref, nodeRoleArn: Ref, subnetIds: seq<Ref>, catalog: Cluster.AmiCatalog,
    ng: NodeGroupConfig, lt: Cluster.LaunchTemplate, group: Cluster.NodeGroup)
  {
    var ami := Cluster.GetAmiForGroup(cfg.clusterVersion, ng.architecture, ng.amiFamily, ng.amiId, catalog);
    && ami.Ok?
    && lt == Cluster.TemplateFor(ng.name, nodeSgId, ng.sshKeypairName, cfg.clusterName, ami.value, baseTags,
                                 ng.amiFamily, Cluster.Truthy(ng.amiId))
    && group == Cluster.NodeGroupFor(ng.name, cfg.clusterName, MainSpec(ng), nodeRoleArn, subnetIds,
                                     Id(lt.logicalName), ClusterLogicalName, baseTags)
  }

  /** The four steps of one node group, in the program's order. */
  function GroupSteps(name: string): seq<Step> {
    [ArchValidated(name), AmiResolved(name), LaunchTemplatePlanned(name), NodeGroupPlanned(name)]
  }

  /** The steps of a run of node groups that all succeed. */
  function AllGroupSteps(ngs: seq<NodeGroupConfig>): seq<Step> {
    if ngs == [] then [] else AllGroupSteps(ngs[..|ngs| - 1]) + GroupSteps(ngs[|ngs| - 1].name)
  }

  /**
   * One iteration of the node-group loop: validate the pair, resolve the
   * image, plan the launch template and the node group, stopping at the
   * first error.
   */
  method PlanGroup(
    cfg: Config, baseTags: Tags, nodeSgId: Ref, nodeRoleArn: Ref, subnetIds: seq<Ref>, catalog: Cluster.AmiCatalog,
    ng: NodeGroupConfig)
    returns (r: Result<(Cluster.LaunchTemplate, Cluster.NodeGroup), Cluster.ClusterError>, steps: seq<Step>)
    ensures r.Ok? <==> GroupFailure(cfg.clusterVersion, ng, catalog).None?
    ensures r.Err? ==> r.error == GroupFailure(cfg.clusterVersion, ng, catalog).value && steps < GroupSteps(ng.name)
    ensures Cluster.ValidateInstanceTypeArchPair(ng.instanceType, ng.architecture).Some? ==> steps == []
    ensures Cluster.ValidateInstanceTypeArchPair(ng.instanceType, ng.architecture).None?
            && Cluster.GetAmiForGroup(cfg.clusterVersion, ng.architecture, ng.amiFamily, ng.amiId, catalog).Err?
            ==> steps == [ArchValidated(ng.name)]
    ensures r.Err? && Cluster.GetAmiForGroup(cfg.clusterVersion, ng.architecture, ng.amiFamily, ng.amiId, catalog).Ok?
            && Cluster.ValidateInstanceTypeArchPair(ng.instanceType, ng.architecture).None?
            ==> steps == [ArchValidated(ng.name), AmiResolved(ng.name), LaunchTemplatePlanned(ng.name)]
    ensures r.Ok? ==>
      && steps == GroupSteps(ng.name)
      && GroupPlanned(cfg, baseTags, nodeSgId, nodeRoleArn, subnetIds, catalog, ng, r.value.0, r.value.1)
  {
    steps := [];
    var archCheck := Cluster.ValidateInstanceTypeArchPair(ng.instanceType, ng.architecture);
    if archCheck.Some? {
      r := Err(archCheck.value);
      return;
    }
    steps := steps + [ArchValidated(ng.name)];
    var ami := Cluster.GetAmiForGroup(cfg.clusterVersion, ng.architecture, ng.amiFamily, ng.amiId, catalog);
    if ami.Err? {
      r := Err(ami.error);
      return;
    }
    steps := steps + [AmiResolved(ng.name)];
    var lt := Cluster.CreateLaunchTemplate(ng.name, nodeSgId, ng.sshKeypairName, cfg.clusterName, ami.value,
                                           baseTags, ng.amiFamily, Cluster.Truthy(ng.amiId));
    steps := steps + [LaunchTemplatePlanned(ng.name)];
    Cluster.NodeGroupPlanned(ng.name, cfg.clusterName, MainSpec(ng), nodeRoleArn, subnetIds, map[],
                             Id(lt.logicalName), ClusterLogicalName, baseTags);
    var group := Cluster.CreateNodeGroup(ng.name, cfg.clusterName, MainSpec(ng), nodeRoleArn, subnetIds, map[],
                                         Id(lt.logicalName), ClusterLogicalName, baseTags);
    if group.Err? {
      r := Err(group.error);
      return;
    }
    steps := steps + [NodeGroupPlanned(ng.name)];
    r := Ok((lt, group.value));
  }

  /** Every group of `ngs` gets through the loop. */
  predicate AllSucceed(clusterVersion: string, ngs: seq<NodeGroupConfig>, catalog: Cluster.AmiCatalog)
    decreases |ngs|
  {
    ngs == [] || (AllSucceed(clusterVersion, ngs[..|ngs| - 1], catalog) && GroupFailure(clusterVersion, ngs[|ngs| - 1], catalog).None?)
  }

  /** Every group of `ngs` is planned as `lts` and `groups` say, position by position. */
  predicate AllPlanned(
    cfg: Config, baseTags: Tags, nodeSgId: Ref, nodeRoleArn: Ref, subnetIds: seq<Ref>, catalog: Cluster.AmiCatalog,
    ngs: seq<NodeGroupConfig>, lts: seq<Cluster.LaunchTemplate>, groups: seq<Cluster.NodeGroup>)
    decreases |ngs|
  {
    && |lts| == |groups| == |ngs|
    && (ngs == [] ||
        (&& AllPlanned(cfg, baseTags, nodeSgId, nodeRoleArn, subnetIds, catalog, ngs[..|ngs| - 1], lts[..|ngs| - 1], groups[..|ngs| - 1])
         && GroupPlanned(cfg, baseTags, nodeSgId, nodeRoleArn, subnetIds, catalog, ngs[|ngs| - 1], lts[|ngs| - 1], groups[|ngs| - 1])))
  }

  lemma {:induction false} AllSucceedMeans(clusterVersion: string, ngs: seq<NodeGroupConfig>, catalog: Cluster.AmiCatalog)
    ensures AllSucceed(clusterVersion, ngs, catalog) <==> forall i :: 0 <= i < |ngs| ==> GroupFailure(clusterVersion, ngs[i], catalog).None?
  {
    if AllSucceed(clusterVersion, ngs, catalog) {
      AllSucceedEach(clusterVersion, ngs, catalog);
    }
    if forall i :: 0 <= i < |ngs| ==> GroupFailure(clusterVersion, ngs[i], catalog).None? {
      EachAllSucceed(clusterVersion, ngs, catalog);
    }
  }

  lemma {:induction false} AllSucceedEach(clusterVersion: string, ngs: seq<NodeGroupConfig>, catalog: Cluster.AmiCatalog)
    requires AllSucceed(clusterVersion, ngs, catalog)
    ensures forall i :: 0 <= i < |ngs| ==> GroupFailure(clusterVersion, ngs[i], catalog).None?
    decreases |ngs|
  {
    if ngs != [] {
      var n := |ngs| - 1;
      var init := ngs[..n];
      AllSucceedEach(clusterVersion, init, catalog);
      forall i | 0 <= i < |ngs|
        ensures GroupFailure(clusterVersion, ngs[i], catalog).None?
      {
        if i < n {
          assert init[i] == ngs[i];
        }
      }
    }
  }

  lemma {:induction false} EachAllSucceed(clusterVersion: string, ngs: seq<NodeGroupConfig>, catalog: Cluster.AmiCatalog)
    requires forall i :: 0 <= i < |ngs| ==> GroupFailure(clusterVersion, ngs[i], catalog).None?
    ensures AllSucceed(clusterVersion, ngs, catalog)
    decreases |ngs|
  {
    if ngs != [] {
      var n := |ngs| - 1;
      var init := ngs[..n];
      forall i | 0 <= i < n
        ensures GroupFailure(clusterVersion, init[i], catalog).None?
      {
        assert init[i] == ngs[i];
      }
      EachAllSucceed(clusterVersion, init, catalog);
    }
  }

  lemma {:induction false} AllPlannedMeans(
    cfg: Config, baseTags: Tags, nodeSgId: Ref, nodeRoleArn: Ref, subnetIds: seq<Ref>, catalog: Cluster.AmiCatalog,
    ngs: seq<NodeGroupConfig>, lts: seq<Cluster.LaunchTemplate>, groups: seq<Cluster.NodeGroup>)
    requires AllPlanned(cfg, baseTags, nodeSgId, nodeRoleArn, subnetIds, catalog, ngs, lts, groups)
    ensures |lts| == |groups| == |ngs|
    ensures forall i :: 0 <= i < |ngs| ==> GroupPlanned(cfg, baseTags, nodeSgId, nodeRoleArn, subnetIds, catalog, ngs[i], lts[i], groups[i])
    decreases |ngs|
  {
    if ngs != [] {
      var n := |ngs| - 1;
      AllPlannedMeans(cfg, baseTags, nodeSgId, nodeRoleArn, subnetIds, catalog, ngs[..n], lts[..n], groups[..n]);
      forall i | 0 <= i < |ngs|
        ensures GroupPlanned(cfg, baseTags, nodeSgId, nodeRoleArn, subnetIds, catalog, ngs[i], lts[i], groups[i])
      {
        if i < n {
          assert ngs[..n][i] == ngs[i] && lts[..n][i] == lts[i] && groups[..n][i] == groups[i];
        }
      }
    }
  }

  /** A group that fails means the run as a whole does not succeed. */
  lemma FailureStopsRun(clusterVersion: string, ngs: seq<NodeGroupConfig>, catalog: Cluster.AmiCatalog, i: nat)
    requires i < |ngs| && GroupFailure(clusterVersion, ngs[i], catalog).Some?
    ensures !AllSucceed(clusterVersion, ngs, catalog)
  {
    AllSucceedMeans(clusterVersion, ngs, catalog);
  }

  /** One more group that gets through the loop extends the run of groups that succeed. */
  lemma ExtendSucceed(clusterVersion: string, ngs: seq<NodeGroupConfig>, catalog: Cluster.AmiCatalog, i: nat)
    requires i < |ngs|
    requires AllSucceed(clusterVersion, ngs[..i], catalog)
    requires GroupFailure(clusterVersion, ngs[i], catalog).None?
    ensures AllSucceed(clusterVersion, ngs[..i + 1], catalog)
  {
    var next := ngs[..i + 1];
    assert next[..i] == ngs[..i] && next[i] == ngs[i];
  }

  /** One more planned group extends the run of planned groups by its launch template and node group. */
  lemma ExtendPlanned(
    cfg: Config, baseTags: Tags, nodeSgId: Ref, nodeRoleArn: Ref, subnetIds: seq<Ref>, catalog: Cluster.AmiCatalog,
    i: nat, lts: seq<Cluster.LaunchTemplate>, groups: seq<Cluster.NodeGroup>, lt: Cluster.LaunchTemplate, group: Cluster.NodeGroup)
    requires i < |cfg.nodeGroups|
    requires AllPlanned(cfg, baseTags, nodeSgId, nodeRoleArn, subnetIds, catalog, cfg.nodeGroups[..i], lts, groups)
    requires GroupPlanned(cfg, baseTags, nodeSgId, nodeRoleArn, subnetIds, catalog, cfg.nodeGroups[i], lt, group)
    ensures AllPlanned(cfg, baseTags, nodeSgId, nodeRoleArn, subnetIds, catalog, cfg.nodeGroups[..i + 1], lts + [lt], groups + [group])
  {
    var next := cfg.nodeGroups[..i + 1];
    assert next[..i] == cfg.nodeGroups[..i] && next[i] == cfg.nodeGroups[i];
    assert (lts + [lt])[..i] == lts && (groups + [group])[..i] == groups;
  }

  /** One more group that gets through the loop appends its four steps. */
  lemma ExtendSteps(ngs: seq<NodeGroupConfig>, i: nat)
    requires i < |ngs|
    ensures AllGroupSteps(ngs[..i + 1]) == AllGroupSteps(ngs[..i]) + GroupSteps(ngs[i].name)
  {
    var next := ngs[..i + 1];
    assert next[..i] == ngs[..i] && next[i] == ngs[i];
  }

  /**
   * The node-group loop (`created_node_groups`): each configured group in
   * order; the first group that fails ends the program with its error.
   */
  method PlanNodeGroups(
    cfg: Config, baseTags: Tags, nodeSgId: Ref, nodeRoleArn: Ref, subnetIds: seq<Ref>, catalog: Cluster.AmiCatalog)
    returns (r: Result<(seq<Cluster.LaunchTemplate>, seq<Cluster.NodeGroup>), DeployError>, steps: seq<Step>)
    ensures r.Ok? <==> AllSucceed(cfg.clusterVersion, cfg.nodeGroups, catalog)
    ensures r.Ok? ==>
      && |r.value.0| == |r.value.1| == |cfg.nodeGroups|
      && steps == AllGroupSteps(cfg.nodeGroups)
      && AllPlanned(cfg, baseTags, nodeSgId, nodeRoleArn, subnetIds, catalog, cfg.nodeGroups, r.value.0, r.value.1)
    ensures r.Err? ==> exists j :: (
      && 0 <= j < |cfg.nodeGroups|
      && AllSucceed(cfg.clusterVersion, cfg.nodeGroups[..j], catalog)
      && GroupFailure(cfg.clusterVersion, cfg.nodeGroups[j], catalog).Some?
      && r.error == NodeGroupFailed(cfg.nodeGroups[j].name, GroupFailure(cfg.clusterVersion, cfg.nodeGroups[j], catalog).value)
      && AllGroupSteps(cfg.nodeGroups[..j]) <= steps)
  {
    var lts: seq<Cluster.LaunchTemplate> := [];
    var groups: seq<Cluster.NodeGroup> := [];
    steps := [];
    var i := 0;
    while i < |cfg.nodeGroups|
      invariant 0 <= i <= |cfg.nodeGroups|
      invariant AllSucceed(cfg.clusterVersion, cfg.nodeGroups[..i], catalog)
      invariant AllPlanned(cfg, baseTags, nodeSgId, nodeRoleArn, subnetIds, catalog, cfg.nodeGroups[..i], lts, groups)
      invariant steps == AllGroupSteps(cfg.nodeGroups[..i])
    {
      var ng := cfg.nodeGroups[i];
      var planned, groupSteps := PlanGroup(cfg, baseTags, nodeSgId, nodeRoleArn, subnetIds, catalog, ng);
      if planned.Err? {
        FailureStopsRun(cfg.clusterVersion, cfg.nodeGroups, catalog, i);
        steps := steps + groupSteps;
        r := Err(NodeGroupFailed(ng.name, planned.error));
        return;
      }
      ExtendSucceed(cfg.clusterVersion, cfg.nodeGroups, catalog, i);
      ExtendPlanned(cfg, baseTags, nodeSgId, nodeRoleArn, subnetIds, catalog, i, lts, groups, planned.value.0, planned.value.1);
      ExtendSteps(cfg.nodeGroups, i);
      steps := steps + groupSteps;
      lts, groups := lts + [planned.value.0], groups + [planned.value.1];
      i := i + 1;
    }
    assert cfg.nodeGroups[..i] == cfg.nodeGroups;
    r := Ok((lts, groups));
  }

  /** The labels reaching the node group are the user's with `arch`, `ami-family` and `node-group` written over them. */
  lemma MainLabelsAsUpdates(ng: NodeGroupConfig)
    ensures Cluster.NodeGroupLabels(ng.name, MainLabels(ng))
      == ng.labels["arch" := ng.architecture]["ami-family" := ng.amiFamily]["node-group" := ng.name]["node-group" := ng.name]
  {
    var e := [("arch", ng.architecture), ("ami-family", ng.amiFamily), ("node-group", ng.name)];
    WithThreeEntries(ng.labels, e);
    var m := ng.labels["arch" := ng.architecture]["ami-family" := ng.amiFamily]["node-group" := ng.name];
    assert MainLabels(ng) == m;
    var one := [("node-group", ng.name)];
    assert one[..0] == [] && one[0] == ("node-group", ng.name);
    assert WithEntries(m, one) == WithEntries(m, [])["node-group" := ng.name];
  }

  /** The labels reaching the node group: the user's, with `arch`, `ami-family` and `node-group` set by the program. */
  lemma MainLabelsValues(ng: NodeGroupConfig)
    ensures var l := Cluster.NodeGroupLabels(ng.name, MainLabels(ng));
      && l.Keys == ng.labels.Keys + {"arch", "ami-family", "node-group"}
      && l["arch"] == ng.architecture && l["ami-family"] == ng.amiFamily && l["node-group"] == ng.name
      && forall k :: k in ng.labels && k !in {"arch", "ami-family", "node-group"} ==> l[k] == ng.labels[k]
  {
    MainLabelsAsUpdates(ng);
    assert "arch"[0] != "node-group"[0] && "ami-family"[0] != "node-group"[0] && "arch"[1] != "ami-family"[1];
  }

  // ---------------------------------------------------------------------
  // Add-on gating, the late check, the summary
  // ---------------------------------------------------------------------

  /** The order in which the program sets the Helm add-ons up: EFS, EBS, ingress, Prometheus. */
  function SetUpOrder(kind: AddonKind): nat {
    match kind
    case Efs => 0
    case Ebs => 1
    case Ingress => 2
    case Prometheus => 3
  }

  /** Add-ons listed strictly in the program's set-up order, hence each at most once. */
  predicate InSetUpOrder(kinds: seq<AddonKind>) {
    forall i, j :: 0 <= i < j < |kinds| ==> SetUpOrder(kinds[i]) < SetUpOrder(kinds[j])
  }

  /** One guarded set-up step: an add-on later in the order than all so far keeps the list in order. */
  method AppendInOrder(kinds: seq<AddonKind>, kind: AddonKind) returns (next: seq<AddonKind>)
    requires InSetUpOrder(kinds)
    requires forall k :: k in kinds ==> SetUpOrder(k) < SetUpOrder(kind)
    ensures next == kinds + [kind]
    ensures InSetUpOrder(next)
    ensures forall k :: k in next ==> SetUpOrder(k) <= SetUpOrder(kind)
  {
    next := kinds + [kind];
  }

  /**
   * The Helm add-ons set up: each whose flag is on, provided there is a
   * primary node group.
   */
  method SetUpOptionalAddons(cfg: Config, primary: Option<Cluster.NodeGroup>) returns (kinds: seq<AddonKind>)
    ensures forall k :: k in kinds ==> primary.Some?
    ensures Efs in kinds <==> cfg.enableEfs && primary.Some?
    ensures Ebs in kinds <==> cfg.enableEbs && primary.Some?
    ensures Ingress in kinds <==> cfg.enableIngress && primary.Some?
    ensures Prometheus in kinds <==> cfg.enablePrometheus && primary.Some?
    ensures forall i, j :: 0 <= i < j < |kinds| ==> kinds[i] != kinds[j]
    ensures InSetUpOrder(kinds)
  {
    kinds := [];
    if cfg.enableEfs && primary.Some? {
      kinds := AppendInOrder(kinds, Efs);
    }
    if cfg.enableEbs && primary.Some? {
      kinds := AppendInOrder(kinds, Ebs);
    }
    if cfg.enableIngress && primary.Some? {
      kinds := AppendInOrder(kinds, Ingress);
    }
    if cfg.enablePrometheus && primary.Some? {
      kinds := AppendInOrder(kinds, Prometheus);
    }
  }

  /**
   * The late access check: it fails when public access is off and private
   * access is off, an absent private setting counting as on.
   */
  function LateAccessCheck(publicAccess: bool, privateAccess: Option<bool>): (ok: bool)
    ensures !ok <==> !publicAccess && privateAccess == Some(false)
  {
    publicAccess || privateAccess.GetOr(true)
  }

  /**
   * The late check can never fail: a configuration that would fail it has
   * already stopped the program when the control plane was planned.
   */
  lemma LateCheckUnreachable(cfg: Config, eksRoleArn: Ref, eksSgId: Ref, subnetIds: seq<Ref>, kmsKey: Option<Cluster.KmsKey>, baseTags: Tags, logGroup: Option<Cluster.LogGroup>)
    requires Cluster.CreateEksCluster(cfg, eksRoleArn, eksSgId, subnetIds, kmsKey, baseTags, logGroup).Ok?
    ensures LateAccessCheck(cfg.publicAccess, Some(cfg.privateAccess))
  {
  }

  function SummaryGroups(groups: seq<Cluster.NodeGroup>): (entries: seq<(string, Ref)>)
    ensures |entries| == |groups|
    ensures forall i :: 0 <= i < |groups| ==> entries[i] == (groups[i].nodeGroupName, Arn(groups[i].logicalName))
  {
    seq(|groups|, i requires 0 <= i < |groups| => (groups[i].nodeGroupName, Arn(groups[i].logicalName)))
  }

  // ---------------------------------------------------------------------
  // The program
  // ---------------------------------------------------------------------

  /** The planned network and control plane. */
  datatype ControlPlane = ControlPlane(
    core: Network.VpcCore,
    warnings: seq<Network.Warning>,
    subnets: seq<Network.PublicSubnet>,
    subnetIds: seq<Ref>,
    nodeSg: Network.SecurityGroup,
    eksSg: Network.SecurityGroup,
    sgRules: seq<Network.SecurityGroupRule>,
    kms: Option<(Cluster.KmsKey, Cluster.KmsAlias)>,
    logGroup: Cluster.LogGroup,
    cluster: Cluster.EksCluster,
    kubeProvider: Cluster.KubeProvider)

  function KeyOf(kms: Option<(Cluster.KmsKey, Cluster.KmsAlias)>): Option<Cluster.KmsKey> {
    if kms.Some? then Some(kms.value.0) else None
  }

  /** The steps from the VPC to the log group, taken before the cluster is planned. */
  function PreClusterSteps(kmsEnabled: bool): (steps: seq<Step>)
    ensures ClusterPlanned !in steps
  {
    [VpcPlanned, SecurityGroupsPlanned] + (if kmsEnabled then [KmsKeyPlanned] else []) + [LogGroupPlanned]
  }

  /** The steps from the VPC to the Kubernetes provider. */
  function ControlPlaneSteps(kmsEnabled: bool): (steps: seq<Step>)
    ensures ClusterPlanned in steps
  {
    PreClusterSteps(kmsEnabled) + [ClusterPlanned, KubeProviderPlanned]
  }

  /** What the network and control-plane phase plans when it succeeds. */
  predicate ControlPlanePlanned(
    cfg: Config, baseTags: Tags, zones: seq<string>, isIpv6Network: string -> bool, eksRoleArn: Ref,
    endpoint: string, certificateAuthorityData: string, cp: ControlPlane)
  {
    var net := Network.VpcNetwork(cfg.vpcCidr, isIpv6Network);
    && net.Ok?
    && cp.core == Network.CoreResources(cfg.clusterName, cfg.vpcCidr, baseTags)
    && cp.subnets == Network.SubnetPlan(cfg.clusterName, baseTags, zones, net.value)
    && |cp.subnetIds| == |cp.subnets|
    && (forall i :: 0 <= i < |cp.subnetIds| ==> cp.subnetIds[i] == Id(cp.subnets[i].subnet.logicalName))
    && cp.warnings == Network.VpcWarnings(cfg.vpcCidr, |zones|, Some(|Network.SubnetBlocks(net.value)|))
    && cp.nodeSg.logicalName == "nodegroup-sg" && cp.eksSg.logicalName == "eks-sg"
    && Network.SecurityGroupsPlanned(Id(cp.core.vpc.logicalName), cfg.trustedCidrs, cfg.clusterName, baseTags,
                                     cp.nodeSg, cp.eksSg, cp.sgRules)
    && cp.kms == Cluster.CreateKmsKey(cfg, baseTags)
    && cp.logGroup == Cluster.CreateClusterLogGroup(cfg, baseTags)
    && Cluster.CreateEksCluster(cfg, eksRoleArn, Id(cp.eksSg.logicalName), cp.subnetIds, KeyOf(cp.kms), baseTags,
                                Some(cp.logGroup)) == Ok(cp.cluster)
    && cp.kubeProvider == Cluster.CreateKubeProvider(endpoint, certificateAuthorityData, cfg.clusterName)
  }

  /** The VPC, its subnets and the two security groups. */
  datatype NetworkPlan = NetworkPlan(
    core: Network.VpcCore,
    warnings: seq<Network.Warning>,
    subnets: seq<Network.PublicSubnet>,
    subnetIds: seq<Ref>,
    nodeSg: Network.SecurityGroup,
    eksSg: Network.SecurityGroup,
    sgRules: seq<Network.SecurityGroupRule>)

  /** The network half of the control-plane phase: the VPC and, when it has a usable CIDR, the security groups. */
  method PlanNetwork(cfg: Config, baseTags: Tags, zones: seq<string>, isIpv6Network: string -> bool)
    returns (r: Result<NetworkPlan, Network.VpcError>)
    ensures r.Err? <==> Network.VpcNetwork(cfg.vpcCidr, isIpv6Network).Err?
    ensures r.Err? ==> r.error == Network.VpcNetwork(cfg.vpcCidr, isIpv6Network).error
    ensures r.Ok? ==> var p, net := r.value, Network.VpcNetwork(cfg.vpcCidr, isIpv6Network).value;
      && p.core == Network.CoreResources(cfg.clusterName, cfg.vpcCidr, baseTags)
      && p.subnets == Network.SubnetPlan(cfg.clusterName, baseTags, zones, net)
      && |p.subnetIds| == |p.subnets|
      && (forall i :: 0 <= i < |p.subnetIds| ==> p.subnetIds[i] == Id(p.subnets[i].subnet.logicalName))
      && p.warnings == Network.VpcWarnings(cfg.vpcCidr, |zones|, Some(|Network.SubnetBlocks(net)|))
      && p.nodeSg.logicalName == "nodegroup-sg" && p.eksSg.logicalName == "eks-sg"
      && p.nodeSg.vpcId == p.eksSg.vpcId == Id(p.core.vpc.logicalName)
      && Network.SecurityGroupsPlanned(Id(p.core.vpc.logicalName), cfg.trustedCidrs, cfg.clusterName, baseTags,
                                       p.nodeSg, p.eksSg, p.sgRules)
  {
    var core, warnings, subnets, subnetIds := Network.CreateVpc(cfg.clusterName, cfg.vpcCidr, baseTags, zones, isIpv6Network);
    if subnets.Err? {
      r := Err(subnets.error);
      return;
    }
    var nodeSg, eksSg, rules := Network.CreateSecurityGroups(Id(core.vpc.logicalName), cfg.trustedCidrs, cfg.clusterName, baseTags);
    r := Ok(NetworkPlan(core, warnings, subnets.value, subnetIds, nodeSg, eksSg, rules));
  }

  /**
   * The network and the control plane (__main__.py up to the Kubernetes
   * provider): an unusable VPC CIDR or a cluster with no endpoint stops
   * the program.
   */
  method PlanControlPlane(
    cfg: Config, baseTags: Tags, zones: seq<string>, isIpv6Network: string -> bool, eksRoleArn: Ref,
    endpoint: string, certificateAuthorityData: string)
    returns (r: Result<ControlPlane, DeployError>, steps: seq<Step>)
    ensures r.Ok? <==> Network.VpcNetwork(cfg.vpcCidr, isIpv6Network).Ok? && (cfg.publicAccess || cfg.privateAccess)
    ensures Network.VpcNetwork(cfg.vpcCidr, isIpv6Network).Err? ==>
      r == Err(VpcFailed(Network.VpcNetwork(cfg.vpcCidr, isIpv6Network).error)) && steps == [VpcPlanned]
    ensures Network.VpcNetwork(cfg.vpcCidr, isIpv6Network).Ok? && !cfg.publicAccess && !cfg.privateAccess ==>
      r == Err(ClusterFailed(Cluster.NoEndpointAccess)) && steps == PreClusterSteps(cfg.enableKmsEncryption)
    ensures r.Ok? ==>
      && ControlPlanePlanned(cfg, baseTags, zones, isIpv6Network, eksRoleArn, endpoint, certificateAuthorityData, r.value)
      && steps == ControlPlaneSteps(cfg.enableKmsEncryption)
  {
    var net := PlanNetwork(cfg, baseTags, zones, isIpv6Network);
    if net.Err? {
      r, steps := Err(VpcFailed(net.error)), [VpcPlanned];
      return;
    }
    var NetworkPlan(core, warnings, subnets, subnetIds, nodeSg, eksSg, rules) := net.value;
    var kms := Cluster.CreateKmsKey(cfg, baseTags);
    var logGroup := Cluster.CreateClusterLogGroup(cfg, baseTags);
    var head := PreClusterSteps(cfg.enableKmsEncryption);
    var cluster := Cluster.CreateEksCluster(cfg, eksRoleArn, Id(eksSg.logicalName), subnetIds, KeyOf(kms), baseTags, Some(logGroup));
    if cluster.Err? {
      r, steps := Err(ClusterFailed(cluster.error)), head;
      return;
    }
    var kubeProvider := Cluster.CreateKubeProvider(endpoint, certificateAuthorityData, cfg.clusterName);
    steps := head + [ClusterPlanned, KubeProviderPlanned];
    r := Ok(ControlPlane(core, warnings, subnets, subnetIds, nodeSg, eksSg, rules, kms, logGroup, cluster.value, kubeProvider));
  }

  /** The flag of an optional add-on. */
  function Flag(cfg: Config, kind: AddonKind): bool {
    match kind
    case Efs => cfg.enableEfs
    case Ebs => cfg.enableEbs
    case Ingress => cfg.enableIngress
    case Prometheus => cfg.enablePrometheus
  }

  /** The add-on set-up steps, one per add-on set up. */
  function AddonSteps(kinds: seq<AddonKind>): (steps: seq<Step>)
    ensures |steps| == |kinds|
  {
    if kinds == [] then [] else [AddonSetUp(kinds[0])] + AddonSteps(kinds[1..])
  }

  /** The steps after the node groups and before the late check. */
  function ExtraSteps(kinds: seq<AddonKind>, autoscaler: bool): seq<Step> {
    [ManagedAddonsPlanned] + AddonSteps(kinds) + [OidcPlanned] + (if autoscaler then [AutoscalerPlanned] else [])
  }

  /** The phase after the node groups. */
  datatype Extras = Extras(
    addons: seq<Cluster.Addon>,
    primary: Option<Cluster.NodeGroup>,
    optionalAddons: seq<AddonKind>,
    oidc: Irsa.OidcProvider,
    autoscaler: Option<Irsa.AutoscalerPlan>)

  /** The logical names of the node groups, which the autoscaler chart waits for. */
  function GroupNames(groups: seq<Cluster.NodeGroup>): (names: seq<string>)
    ensures |names| == |groups|
    ensures forall i :: 0 <= i < |groups| ==> names[i] == groups[i].logicalName
  {
    seq(|groups|, i requires 0 <= i < |groups| => groups[i].logicalName)
  }

  /**
   * What the phase after the node groups plans: the managed add-ons, one
   * per configured entry in order; the primary node group and the optional
   * add-ons it gates, in set-up order; the OIDC provider (always) and the
   * autoscaler (only with node groups).
   */
  predicate ExtrasPlanned(cfg: Config, baseTags: Tags, groups: seq<Cluster.NodeGroup>, issuer: string, x: Extras) {
    && (cfg.enableManagedAddons ==> |x.addons| == |cfg.addonVersions|)
    && (cfg.enableManagedAddons ==>
          forall i :: 0 <= i < |x.addons| ==> x.addons[i] == Cluster.AddonFor(cfg.addonVersions[i], ClusterLogicalName, baseTags))
    && (!cfg.enableManagedAddons ==> x.addons == [])
    && x.primary == (if groups == [] then None else Some(groups[0]))
    && (forall k :: k in x.optionalAddons <==> Flag(cfg, k) && groups != [])
    && InSetUpOrder(x.optionalAddons)
    && x.oidc == Irsa.SetupOidc(ClusterLogicalName, issuer, cfg.oidcThumbprint)
    && (x.autoscaler.Some? <==> groups != [])
    && x.autoscaler == Irsa.SetupAutoscaler(cfg.autoscalerChartVersion, x.oidc, KubeProviderLogicalName, GroupNames(groups),
                                            cfg.clusterName, cfg.region, baseTags)
  }

  /** The phase after the node groups, in the program's order. */
  method PlanExtras(cfg: Config, baseTags: Tags, groups: seq<Cluster.NodeGroup>, issuer: string)
    returns (x: Extras, steps: seq<Step>)
    ensures ExtrasPlanned(cfg, baseTags, groups, issuer, x)
    ensures steps == ExtraSteps(x.optionalAddons, groups != [])
  {
    var addons := Cluster.CreateManagedAddons(cfg.enableManagedAddons, cfg.addonVersions, ClusterLogicalName, baseTags);
    steps := [ManagedAddonsPlanned];
    var primary := if groups != [] then Some(groups[0]) else None;
    var optional := SetUpOptionalAddons(cfg, primary);
    steps := steps + AddonSteps(optional);
    var oidc := Irsa.SetupOidc(ClusterLogicalName, issuer, cfg.oidcThumbprint);
    steps := steps + [OidcPlanned];
    var autoscaler: Option<Irsa.AutoscalerPlan> := None;
    if groups != [] {
      autoscaler := Irsa.SetupAutoscaler(cfg.autoscalerChartVersion, oidc, KubeProviderLogicalName, GroupNames(groups),
                                         cfg.clusterName, cfg.region, baseTags);
      steps := steps + [AutoscalerPlanned];
    }
    x := Extras(addons, primary, optional, oidc, autoscaler);
    forall k ensures k in optional <==> Flag(cfg, k) && groups != [] {
      match k
      case Efs =>
      case Ebs =>
      case Ingress =>
      case Prometheus =>
    }
  }

  /** The steps of a run from a loaded configuration that gets to the exports. */
  function RunSteps(cfg: Config, kinds: seq<AddonKind>, autoscaler: bool): seq<Step> {
    ControlPlaneSteps(cfg.enableKmsEncryption) + AllGroupSteps(cfg.nodeGroups) + ExtraSteps(kinds, autoscaler)
      + [AccessChecked, Exported]
  }

  /** The exported `cluster` summary of a planned control plane and node groups. */
  function SummaryOf(cfg: Config, cp: ControlPlane, groups: seq<Cluster.NodeGroup>): Summary {
    Summary(
      cfg.clusterName, Arn(ClusterLogicalName), Ref(ClusterLogicalName, "endpoint"), cfg.region,
      Ref(ClusterLogicalName, "version"), Id(cp.core.vpc.logicalName), Ref(cp.core.vpc.logicalName, "cidr_block"),
      cp.subnetIds, Id(cp.eksSg.logicalName), Id(cp.nodeSg.logicalName), SummaryGroups(groups))
  }

  /** What a run from the loaded configuration `cfg` plans and exports. */
  predicate Deployed(
    cfg: Config, stack: string, project: string, zones: seq<string>, isIpv6Network: string -> bool,
    eksRoleArn: Ref, nodeRoleArn: Ref, catalog: Cluster.AmiCatalog,
    endpoint: string, certificateAuthorityData: string, issuer: string, d: Deployment)
  {
    && d.config == cfg
    && d.baseTags == Cluster.BuildBaseTags(cfg, stack, project)
    && |d.launchTemplates| == |d.nodeGroups| == |cfg.nodeGroups|
    && ControlPlanePlanned(cfg, d.baseTags, zones, isIpv6Network, eksRoleArn, endpoint, certificateAuthorityData, d.controlPlane)
    && AllPlanned(cfg, d.baseTags, Id(d.controlPlane.nodeSg.logicalName), nodeRoleArn, d.controlPlane.subnetIds, catalog,
                  cfg.nodeGroups, d.launchTemplates, d.nodeGroups)
    && ExtrasPlanned(cfg, d.baseTags, d.nodeGroups, issuer, d.extras)
    && d.kubeconfig == Cluster.BuildKubeconfig(endpoint, certificateAuthorityData, cfg.clusterName)
    && d.summary == SummaryOf(cfg, d.controlPlane, d.nodeGroups)
  }

  /**
   * The program from a loaded configuration on: the control plane, the
   * node groups in order, the add-ons and the autoscaler, the late check
   * and the exports.
   */
  method DeployFrom(
    cfg: Config, stack: string, project: string, zones: seq<string>, isIpv6Network: string -> bool,
    eksRoleArn: Ref, nodeRoleArn: Ref, catalog: Cluster.AmiCatalog,
    endpoint: string, certificateAuthorityData: string, issuer: string)
    returns (r: Result<Deployment, DeployError>, steps: seq<Step>)
    ensures r.Ok? <==>
      && Network.VpcNetwork(cfg.vpcCidr, isIpv6Network).Ok?
      && (cfg.publicAccess || cfg.privateAccess)
      && AllSucceed(cfg.clusterVersion, cfg.nodeGroups, catalog)
    ensures r.Ok? ==> var d := r.value;
      && Deployed(cfg, stack, project, zones, isIpv6Network, eksRoleArn, nodeRoleArn, catalog,
                  endpoint, certificateAuthorityData, issuer, d)
      && (d.extras.autoscaler.Some? ==> d.extras.autoscaler.value.chart.dependsOn == GroupNames(d.nodeGroups))
      && |d.summary.nodeGroups| == |cfg.nodeGroups|
      && (forall i :: 0 <= i < |cfg.nodeGroups| ==>
            d.summary.nodeGroups[i] == (cfg.nodeGroups[i].name, Arn("ng-" + cfg.nodeGroups[i].name)))
      && steps == RunSteps(cfg, d.extras.optionalAddons, cfg.nodeGroups != [])
    ensures r.Err? && r.error.VpcFailed? ==> steps == [VpcPlanned]
    ensures r.Err? && r.error.ClusterFailed? ==> r.error.clusterError == Cluster.NoEndpointAccess && ClusterPlanned !in steps
    ensures r.Err? && r.error.NodeGroupFailed? ==> ClusterPlanned in steps
    ensures r.Err? ==> !r.error.ConfigFailed? && !r.error.AccessCheckFailed?
  {
    var baseTags := Cluster.BuildBaseTags(cfg, stack, project);
    var plane, planeSteps := PlanControlPlane(cfg, baseTags, zones, isIpv6Network, eksRoleArn, endpoint, certificateAuthorityData);
    if plane.Err? {
      r, steps := Err(plane.error), planeSteps;
      return;
    }
    var cp := plane.value;

    var planned, groupSteps := PlanNodeGroups(cfg, baseTags, Id(cp.nodeSg.logicalName), nodeRoleArn, cp.subnetIds, catalog);
    if planned.Err? {
      r, steps := Err(planned.error), planeSteps + groupSteps;
      return;
    }
    var (lts, groups) := planned.value;
    SummaryFollowsConfig(cfg, baseTags, Id(cp.nodeSg.logicalName), nodeRoleArn, cp.subnetIds, catalog, lts, groups);

    var extras, extraSteps := PlanExtras(cfg, baseTags, groups, issuer);
    var accessOk := LateAccessCheck(cfg.publicAccess, Some(cfg.privateAccess));
    var kubeconfig := Cluster.BuildKubeconfig(endpoint, certificateAuthorityData, cfg.clusterName);
    var summary := SummaryOf(cfg, cp, groups);
    steps := planeSteps + groupSteps + extraSteps + [AccessChecked, Exported];
    r := if accessOk then Ok(Deployment(cfg, baseTags, cp, lts, groups, extras, kubeconfig, summary)) else Err(AccessCheckFailed);
  }

  /**
   * The whole program. The stack and project names, the availability
   * zones, the IPv6 parser, the IAM roles, the image catalog and the
   * cluster's endpoint, certificate and issuer come from outside. A loaded
   * configuration always has a node group, so a successful run always
   * plans the primary node group and the autoscaler.
   */
  method Provision(
    raw: RawConfig, stack: string, project: string, zones: seq<string>, isIpv6Network: string -> bool,
    eksRoleArn: Ref, nodeRoleArn: Ref, catalog: Cluster.AmiCatalog,
    endpoint: string, certificateAuthorityData: string, issuer: string)
    returns (r: Result<Deployment, DeployError>, steps: seq<Step>)
    ensures r.Ok? ==> var d := r.value;
      && raw.nodeGroups.AList? && |d.config.nodeGroups| == |raw.nodeGroups.items| >= 1
      && (forall i :: 0 <= i < |raw.nodeGroups.items| ==> NormalizeEntry(i, raw.nodeGroups.items[i]) == Ok(d.config.nodeGroups[i]))
      && d.config == Defaults(raw, d.config.nodeGroups)
      && AllSucceed(d.config.clusterVersion, d.config.nodeGroups, catalog)
      && |d.nodeGroups| == |d.launchTemplates| == |d.config.nodeGroups|
      && d.extras.primary == Some(d.nodeGroups[0])
      && (forall k :: k in d.extras.optionalAddons <==> Flag(d.config, k))
      && d.extras.autoscaler.Some?
      && steps == [ConfigLoaded] + RunSteps(d.config, d.extras.optionalAddons, true)
    ensures r.Err? && r.error.ConfigFailed? <==> !Loadable(raw)
    ensures Loadable(raw) ==>
      (r.Ok? <==>
        && Network.VpcNetwork(TextOr(raw.vpcCidr, "10.100.0.0/16"), isIpv6Network).Ok?
        && (BoolOr(raw.publicAccess, false) || BoolOr(raw.privateAccess, true))
        && AllSucceed(TextOr(raw.clusterVersion, "1.30"), LoadedConfig(raw).nodeGroups, catalog))
    ensures r.Ok? ==> r.value.config == LoadedConfig(raw)
    ensures r.Ok? ==> Deployed(LoadedConfig(raw), stack, project, zones, isIpv6Network, eksRoleArn, nodeRoleArn, catalog,
                               endpoint, certificateAuthorityData, issuer, r.value)
    ensures r.Err? && r.error.ConfigFailed? ==> steps == []
    ensures r.Err? && r.error.VpcFailed? ==> steps == [ConfigLoaded, VpcPlanned]
    ensures r.Err? && r.error.NodeGroupFailed? ==> ClusterPlanned in steps
    ensures r.Err? ==> !r.error.AccessCheckFailed?
  {
    var loaded := LoadConfig(raw);
    if loaded.Err? {
      r, steps := Err(ConfigFailed(loaded.error)), [];
      return;
    }
    var cfg := loaded.value;
    var deploySteps;
    r, deploySteps := DeployFrom(cfg, stack, project, zones, isIpv6Network, eksRoleArn, nodeRoleArn, catalog,
                                 endpoint, certificateAuthorityData, issuer);
    steps := [ConfigLoaded] + deploySteps;
  }

  /** The exported summary lists every configured node group, by name, in configuration order. */
  lemma SummaryFollowsConfig(
    cfg: Config, baseTags: Tags, nodeSgId: Ref, nodeRoleArn: Ref, subnetIds: seq<Ref>, catalog: Cluster.AmiCatalog,
    lts: seq<Cluster.LaunchTemplate>, groups: seq<Cluster.NodeGroup>)
    requires AllPlanned(cfg, baseTags, nodeSgId, nodeRoleArn, subnetIds, catalog, cfg.nodeGroups, lts, groups)
    ensures |SummaryGroups(groups)| == |cfg.nodeGroups|
    ensures forall i :: 0 <= i < |groups| ==>
      SummaryGroups(groups)[i] == (cfg.nodeGroups[i].name, Arn("ng-" + cfg.nodeGroups[i].name))
  {
    AllPlannedMeans(cfg, baseTags, nodeSgId, nodeRoleArn, subnetIds, catalog, cfg.nodeGroups, lts, groups);
    forall i | 0 <= i < |groups|
      ensures SummaryGroups(groups)[i] == (cfg.nodeGroups[i].name, Arn("ng-" + cfg.nodeGroups[i].name))
    {
      assert GroupPlanned(cfg, baseTags, nodeSgId, nodeRoleArn, subnetIds, catalog, cfg.nodeGroups[i], lts[i], groups[i]);
    }
  }
}
