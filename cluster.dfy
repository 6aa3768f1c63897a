/**
 * The cluster planner (cluster.py): base tags, AMI selection, the
 * instance-family check, the launch template, the control plane, node
 * groups, the kubeconfig document and the managed add-ons.
 */
module Cluster {
  import opened Wrappers
  import opened Strings
  import opened Resources
  import opened Settings
  import Base64

  datatype ClusterError =
    | UnsupportedArchitecture(arch: string)
    | UnsupportedAmiFamily(family: string)
    | AmiLookupFailed
    | NotArm(instanceType: string)
    | IsArmFamily(instanceType: string)
    | NoEndpointAccess
    | UnknownAzs(group: string, missing: seq<string>)
    | CapacityInvalid(group: string)

  /** The stack tags; the stack and project names come from the deployment engine. */
  function BuildBaseTags(cfg: Config, stack: string, project: string): (tags: Tags)
    ensures tags.Keys == {"Environment", "Owner", "CostCenter", "ManagedBy", "Stack", "Project", "Cluster"}
    ensures tags["ManagedBy"] == "Pulumi" && tags["Cluster"] == cfg.clusterName
  {
    map["Environment" := cfg.environment, "Owner" := cfg.owner, "CostCenter" := cfg.costCenter,
        "ManagedBy" := "Pulumi", "Stack" := stack, "Project" := project, "Cluster" := cfg.clusterName]
  }

  // ---------------------------------------------------------------------
  // AMI selection
  // ---------------------------------------------------------------------

  /** One `GetAmiFilterArgs`: a filter name and the values it accepts. */
  datatype AmiFilter = AmiFilter(name: string, values: seq<string>)

  /** An image lookup: account owners and filters (always `most_recent=True`). */
  datatype AmiQuery = AmiQuery(owners: seq<string>, filters: seq<AmiFilter>)

  /** The image catalog: the id of the most recent match, if any. */
  type AmiCatalog = AmiQuery -> Option<string>

  const EksAmiOwner := "602401143452"
  const BottlerocketOwner := "679593333241"

  predicate SupportedArch(arch: string) {
    arch == "x86_64" || arch == "arm64"
  }

  /** The lookup for an architecture and family; the architecture is checked first. */
  function AmiQueryFor(clusterVersion: string, arch: string, amiFamily: string): (r: Result<AmiQuery, ClusterError>)
    ensures !SupportedArch(arch) ==> r == Err(UnsupportedArchitecture(arch))
    ensures SupportedArch(arch) && amiFamily != "al2" && amiFamily != "bottlerocket" ==> r == Err(UnsupportedAmiFamily(amiFamily))
    ensures r.Ok? ==>
      && SupportedArch(arch) && |r.value.owners| == 1 && |r.value.filters| == 2
      && r.value.filters[1] == AmiFilter("architecture", [arch])
      && r.value.filters[0].name == "name"
    ensures amiFamily == "al2" && SupportedArch(arch) ==>
      r == Ok(AmiQuery([EksAmiOwner], [AmiFilter("name", ["amazon-eks-node-" + clusterVersion + "-*"]), AmiFilter("architecture", [arch])]))
    ensures amiFamily == "bottlerocket" && SupportedArch(arch) ==>
      r == Ok(AmiQuery([BottlerocketOwner], [AmiFilter("name", ["bottlerocket-aws-k8s-" + clusterVersion + "-*"]), AmiFilter("architecture", [arch])]))
  {
    if !SupportedArch(arch) then Err(UnsupportedArchitecture(arch))
    else if amiFamily == "al2" then
      Ok(AmiQuery([EksAmiOwner], [AmiFilter("name", ["amazon-eks-node-" + clusterVersion + "-*"]), AmiFilter("architecture", [arch])]))
    else if amiFamily == "bottlerocket" then
      Ok(AmiQuery([BottlerocketOwner], [AmiFilter("name", ["bottlerocket-aws-k8s-" + clusterVersion + "-*"]), AmiFilter("architecture", [arch])]))
    else Err(UnsupportedAmiFamily(amiFamily))
  }

  /** Python truthiness of an optional string: present and not empty. */
  predicate Truthy(s: Option<string>) {
    s.Some? && s.value != ""
  }

  /**
   * `get_ami_for_group`: a user-supplied AMI wins unchecked; otherwise the
   * catalog is asked and an empty answer is fatal.
   */
  function GetAmiForGroup(clusterVersion: string, arch: string, amiFamily: string, userAmi: Option<string>, catalog: AmiCatalog)
    : (r: Result<string, ClusterError>)
    ensures Truthy(userAmi) ==> r == Ok(userAmi.value)
    ensures !Truthy(userAmi) ==>
      match AmiQueryFor(clusterVersion, arch, amiFamily)
      case Err(e) => r == Err(e)
      case Ok(q) => (r.Ok? <==> Truthy(catalog(q))) && (r.Ok? ==> r.value == catalog(q).value)
                    && (r.Err? ==> r.error == AmiLookupFailed)
    ensures r.Ok? ==> r.value != ""
  {
    if Truthy(userAmi) then Ok(userAmi.value)
    else
      match AmiQueryFor(clusterVersion, arch, amiFamily)
      case Err(e) => Err(e)
      case Ok(q) =>
        var ami := catalog(q);
        if !Truthy(ami) then Err(AmiLookupFailed) else Ok(ami.value)
  }

  /**
   * The errors come in the source's order: an unsupported architecture is
   * reported even when the family is unsupported too, and neither is looked
   * at when the user supplies an AMI.
   */
  lemma AmiErrorOrder(clusterVersion: string, arch: string, amiFamily: string, userAmi: Option<string>, catalog: AmiCatalog)
    ensures var r := GetAmiForGroup(clusterVersion, arch, amiFamily, userAmi, catalog);
      && (Truthy(userAmi) ==> r.Ok?)
      && (!Truthy(userAmi) && !SupportedArch(arch) ==> r == Err(UnsupportedArchitecture(arch)))
      && (r == Err(UnsupportedAmiFamily(amiFamily)) <==>
            !Truthy(userAmi) && SupportedArch(arch) && amiFamily != "al2" && amiFamily != "bottlerocket")
      && (r == Err(AmiLookupFailed) ==> !Truthy(userAmi) && SupportedArch(arch) && (amiFamily == "al2" || amiFamily == "bottlerocket"))
  {
  }

  // ---------------------------------------------------------------------
  // Instance family and architecture
  // ---------------------------------------------------------------------

  const ArmFamilies: seq<string> := ["c6g", "c7g", "m6g", "m7g", "r6g", "r7g", "t4g", "x2g", "a1"]

  /** The instance family: the text before the first `.`. */
  function InstanceFamily(instanceType: string): (family: string)
    ensures family <= instanceType && '.' !in family
    ensures |family| < |instanceType| ==> instanceType[|family|] == '.'
  {
    FirstField(instanceType, '.')
  }

  /** The source's ARM test: a listed family, or a family ending in `g` other than `g5` and `g4dn`. */
  predicate IsArm(family: string) {
    family in ArmFamilies || (EndsWith(family, "g") && family != "g5" && family != "g4dn")
  }

  /**
   * An independent statement of the same test: a family is ARM exactly when
   * it is `a1` or ends in `g`. The `g5`/`g4dn` exclusion never applies,
   * because neither name ends in `g`.
   */
  lemma IsArmSimplified(family: string)
    ensures IsArm(family) <==> family == "a1" || EndsWith(family, "g")
  {
    if family in ArmFamilies && family != "a1" {
      assert family[|family| - 1..] == "g";
    }
    assert !EndsWith("g5", "g") && !EndsWith("g4dn", "g");
  }

  /** `validate_instance_type_arch_pair`: `None` when the pair is accepted. */
  function ValidateInstanceTypeArchPair(instanceType: string, arch: string): (r: Option<ClusterError>)
    ensures r == None <==> !(arch == "arm64" && !IsArm(InstanceFamily(instanceType)))
                           && !(arch == "x86_64" && IsArm(InstanceFamily(instanceType)))
    ensures arch == "arm64" && !IsArm(InstanceFamily(instanceType)) ==> r == Some(NotArm(instanceType))
    ensures arch == "x86_64" && IsArm(InstanceFamily(instanceType)) ==> r == Some(IsArmFamily(instanceType))
  {
    var isArm := IsArm(InstanceFamily(instanceType));
    if arch == "arm64" && !isArm then Some(NotArm(instanceType))
    else if arch == "x86_64" && isArm then Some(IsArmFamily(instanceType))
    else None
  }

  /** The family of `<family>.<size>` is `<family>`. */
  lemma FamilyOf(family: string, size: string)
    requires '.' !in family
    ensures InstanceFamily(family + "." + size) == family
  {
    FirstFieldOfSplit(family + "." + size, '.');
    SplitField(family, size, '.');
    assert family + "." + size == family + ['.'] + size;
  }

  /** A GPU family is not ARM, so it is accepted on x86_64. */
  lemma G5IsNotArm()
    ensures ValidateInstanceTypeArchPair("g5.xlarge", "x86_64") == None
  {
    FamilyOf("g5", "xlarge");
    assert "g5.xlarge" == "g5" + "." + "xlarge";
    IsArmSimplified("g5");
  }

  /** A GPU family is not ARM, so it is refused on arm64. */
  lemma G4dnIsNotArm()
    ensures ValidateInstanceTypeArchPair("g4dn.xlarge", "arm64") == Some(NotArm("g4dn.xlarge"))
  {
    FamilyOf("g4dn", "xlarge");
    assert "g4dn.xlarge" == "g4dn" + "." + "xlarge";
    IsArmSimplified("g4dn");
  }

  /** A Graviton family is ARM, so it is refused on x86_64. */
  lemma M6gIsArm()
    ensures ValidateInstanceTypeArchPair("m6g.large", "x86_64") == Some(IsArmFamily("m6g.large"))
  {
    FamilyOf("m6g", "large");
    assert "m6g.large" == "m6g" + "." + "large";
    IsArmSimplified("m6g");
  }

  /** `a1` is ARM without ending in `g`, so it is accepted on arm64. */
  lemma A1IsArm()
    ensures ValidateInstanceTypeArchPair("a1.medium", "arm64") == None
  {
    FamilyOf("a1", "medium");
    assert "a1.medium" == "a1" + "." + "medium";
    IsArmSimplified("a1");
  }

  /** An architecture other than the two is never refused. */
  lemma OtherArchitecturesAccepted(instanceType: string)
    ensures ValidateInstanceTypeArchPair(instanceType, "riscv64") == None
  {
  }

  // ---------------------------------------------------------------------
  // Launch template
  // ---------------------------------------------------------------------

  datatype TagSpecification = TagSpecification(resourceType: string, tags: Tags)

  /** The launch-template arguments; `userData` and `imageId` are `None` when the key is not set. */
  datatype LaunchTemplate = LaunchTemplate(
    logicalName: string,
    vpcSecurityGroupIds: seq<Ref>,
    keyName: Option<string>,
    tagSpecifications: seq<TagSpecification>,
    tags: Tags,
    userData: Option<string>,
    imageId: Option<string>)

  /** The node bootstrap script for a cluster. */
  function BootstrapScript(clusterName: string): string {
    "#!/bin/bash\n/etc/eks/bootstrap.sh " + clusterName
  }

  /** `base64.b64encode(text.encode()).decode()`. */
  function EncodeUserData(script: string): string {
    Base64.Encode(Base64.Utf8Encode(script))
  }

  /** The launch template `create_launch_template` registers for these arguments. */
  function TemplateFor(
    name: string, nodeSgId: Ref, sshKeypairName: Option<string>, clusterName: string,
    amiId: string, baseTags: Tags, amiFamily: string, userSuppliedAmi: bool): LaunchTemplate
  {
    LaunchTemplate(
      "lt-" + name,
      [nodeSgId],
      if Truthy(sshKeypairName) then sshKeypairName else None,
      [TagSpecification("instance", baseTags["Name" := clusterName + "-" + name + "-node"])],
      baseTags,
      if userSuppliedAmi && amiFamily == "al2" then Some(EncodeUserData(BootstrapScript(clusterName))) else None,
      if amiId != "" then Some(amiId) else None)
  }

  /**
   * `create_launch_template`: bootstrap user data only for a user-supplied
   * AL2 image, the image id only when there is one, the SSH key only when
   * it is not empty.
   */
  method CreateLaunchTemplate(
    name: string, nodeSgId: Ref, sshKeypairName: Option<string>, clusterName: string,
    amiId: string, baseTags: Tags, amiFamily: string, userSuppliedAmi: bool)
    returns (lt: LaunchTemplate)
    ensures lt.logicalName == "lt-" + name
    ensures lt.vpcSecurityGroupIds == [nodeSgId] && lt.tags == baseTags
    ensures lt.keyName == (if Truthy(sshKeypairName) then sshKeypairName else None)
    ensures lt.tagSpecifications == [TagSpecification("instance", baseTags["Name" := clusterName + "-" + name + "-node"])]
    ensures lt.userData.Some? <==> userSuppliedAmi && amiFamily == "al2"
    ensures lt.userData.Some? ==> lt.userData.value == EncodeUserData(BootstrapScript(clusterName))
    ensures lt.userData.Some? ==> Base64.Decode(lt.userData.value) == Some(Base64.Utf8Encode(BootstrapScript(clusterName)))
    ensures lt.imageId == (if amiId != "" then Some(amiId) else None)
    ensures lt == TemplateFor(name, nodeSgId, sshKeypairName, clusterName, amiId, baseTags, amiFamily, userSuppliedAmi)
  {
    var userDataEncoded: Option<string> := None;
    if userSuppliedAmi && amiFamily == "al2" {
      var userData := BootstrapScript(clusterName);
      userDataEncoded := Some(EncodeUserData(userData));
      Base64.DecodeEncode(Base64.Utf8Encode(userData));
      assert |Base64.Utf8Encode(userData)| >= |userData| > 0;
      Base64.EncodeNonEmpty(Base64.Utf8Encode(userData));
    }
    lt := LaunchTemplate(
      "lt-" + name,
      [nodeSgId],
      if Truthy(sshKeypairName) then sshKeypairName else None,
      [TagSpecification("instance", baseTags["Name" := clusterName + "-" + name + "-node"])],
      baseTags,
      None,
      None);
    if userDataEncoded.Some? && userDataEncoded.value != "" {
      lt := lt.(userData := userDataEncoded);
    }
    if amiId != "" {
      lt := lt.(imageId := Some(amiId));
    }
  }

  // ---------------------------------------------------------------------
  // Control plane
  // ---------------------------------------------------------------------

  datatype KmsKey = KmsKey(logicalName: string, description: string, deletionWindowInDays: int, enableKeyRotation: bool, tags: Tags)

  datatype KmsAlias = KmsAlias(logicalName: string, targetKeyId: Ref, name: string)

  /** `create_kms_key`: nothing when encryption is off, else the key and its alias. */
  function CreateKmsKey(cfg: Config, baseTags: Tags): (r: Option<(KmsKey, KmsAlias)>)
    ensures r.Some? <==> cfg.enableKmsEncryption
    ensures r.Some? ==>
      && r.value.1.targetKeyId == Ref(r.value.0.logicalName, "key_id")
      && r.value.1.name == "alias/" + cfg.clusterName + "-secrets"
      && r.value.0.description == "EKS secrets encryption (" + cfg.clusterName + ")"
      && r.value.0.deletionWindowInDays == 7
      && r.value.0.enableKeyRotation
      && r.value.0.tags == baseTags
  {
    if !cfg.enableKmsEncryption then None
    else
      Some((KmsKey("kms-secrets", "EKS secrets encryption (" + cfg.clusterName + ")", 7, true, baseTags),
            KmsAlias("kms-secrets-alias", Ref("kms-secrets", "key_id"), "alias/" + cfg.clusterName + "-secrets")))
  }

  datatype LogGroup = LogGroup(logicalName: string, name: string, retentionInDays: int, tags: Tags)

  /** `create_cluster_log_group`: the log group EKS writes control-plane logs to. */
  function CreateClusterLogGroup(cfg: Config, baseTags: Tags): (lg: LogGroup)
    ensures lg.name == "/aws/eks/" + cfg.clusterName + "/cluster" && lg.retentionInDays == cfg.logRetentionDays
  {
    LogGroup("lg-cluster", "/aws/eks/" + cfg.clusterName + "/cluster", cfg.logRetentionDays, baseTags)
  }

  datatype EncryptionConfig = EncryptionConfig(keyArn: Ref, resources: seq<string>)

  datatype VpcConfig = VpcConfig(
    subnetIds: seq<Ref>,
    securityGroupIds: seq<Ref>,
    endpointPublicAccess: bool,
    endpointPrivateAccess: bool,
    publicAccessCidrs: Option<seq<string>>)

  datatype EksCluster = EksCluster(
    logicalName: string,
    name: string,
    roleArn: Ref,
    version: string,
    encryptionConfig: Option<seq<EncryptionConfig>>,
    enabledClusterLogTypes: seq<string>,
    vpcConfig: VpcConfig,
    deletionProtection: bool,
    tags: Tags,
    dependsOn: seq<string>)

  /**
   * `create_eks_cluster`: refuses a cluster with neither endpoint; secrets
   * are encrypted exactly when a key is given; public CIDRs are sent only
   * with the public endpoint.
   */
  function CreateEksCluster(
    cfg: Config, eksRoleArn: Ref, eksSgId: Ref, subnetIds: seq<Ref>, kmsKey: Option<KmsKey>, baseTags: Tags, logGroup: Option<LogGroup>)
    : (r: Result<EksCluster, ClusterError>)
    ensures r.Err? <==> !cfg.publicAccess && !cfg.privateAccess
    ensures r.Err? ==> r.error == NoEndpointAccess
    ensures r.Ok? ==> var c := r.value;
      && c.name == cfg.clusterName
      && c.roleArn == eksRoleArn && c.version == cfg.clusterVersion
      && c.enabledClusterLogTypes == cfg.clusterLogTypes
      && c.deletionProtection == cfg.clusterDeletionProtection
      && (c.encryptionConfig.Some? <==> kmsKey.Some?)
      && (kmsKey.Some? ==> c.encryptionConfig.value == [EncryptionConfig(Arn(kmsKey.value.logicalName), ["secrets"])])
      && c.vpcConfig.endpointPublicAccess == cfg.publicAccess
      && c.vpcConfig.endpointPrivateAccess == cfg.privateAccess
      && (c.vpcConfig.publicAccessCidrs.Some? <==> cfg.publicAccess)
      && (cfg.publicAccess ==> c.vpcConfig.publicAccessCidrs.value == cfg.publicAccessCidrs)
      && c.vpcConfig.subnetIds == subnetIds && c.vpcConfig.securityGroupIds == [eksSgId]
      && c.tags == baseTags["Name" := cfg.clusterName]
      && c.dependsOn == (if logGroup.Some? then [logGroup.value.logicalName] else [])
  {
    if !(cfg.publicAccess || cfg.privateAccess) then Err(NoEndpointAccess)
    else
      var encryption := if kmsKey.Some? then Some([EncryptionConfig(Arn(kmsKey.value.logicalName), ["secrets"])]) else None;
      Ok(EksCluster(
        "eks-cluster",
        cfg.clusterName,
        eksRoleArn,
        cfg.clusterVersion,
        encryption,
        cfg.clusterLogTypes,
        VpcConfig(subnetIds, [eksSgId], cfg.publicAccess, cfg.privateAccess,
                  if cfg.publicAccess then Some(cfg.publicAccessCidrs) else None),
        cfg.clusterDeletionProtection,
        baseTags["Name" := cfg.clusterName],
        if logGroup.Some? then [logGroup.value.logicalName] else []))
  }

  // ---------------------------------------------------------------------
  // Node groups
  // ---------------------------------------------------------------------

  datatype TaintSpec = TaintSpec(key: string, value: Option<string>, effect: string)

  /**
   * The node-group settings `create_node_group` reads; an absent list or map
   * is the empty one, as `get(key, default)` and the truthiness tests read it.
   */
  datatype NodeGroupSpec = NodeGroupSpec(
    subnetIds: seq<Ref>,
    subnetAzs: seq<string>,
    minCapacity: int,
    desiredCapacity: int,
    maxCapacity: int,
    instanceType: string,
    labels: Tags,
    taints: seq<TaintSpec>)

  datatype ScalingConfig = ScalingConfig(desiredSize: int, minSize: int, maxSize: int)

  datatype LaunchTemplateSpec = LaunchTemplateSpec(id: Ref, version: string)

  datatype NodeGroup = NodeGroup(
    logicalName: string,
    clusterName: Ref,
    nodeGroupName: string,
    nodeRoleArn: Ref,
    subnetIds: seq<Ref>,
    scalingConfig: ScalingConfig,
    instanceTypes: seq<string>,
    labels: Tags,
    taints: Option<seq<TaintSpec>>,
    launchTemplate: LaunchTemplateSpec,
    tags: Tags,
    dependsOn: seq<string>)

  /** The requested zones with no subnet in the map, in request order. */
  function MissingAzs(azs: seq<string>, azSubnets: map<string, Ref>): (missing: seq<string>)
    ensures forall az :: az in missing <==> az in azs && az !in azSubnets
    ensures |missing| <= |azs|
  {
    if azs == [] then []
    else (if azs[0] in azSubnets then [] else [azs[0]]) + MissingAzs(azs[1..], azSubnets)
  }

  /**
   * The subnets of a node group: its own `subnet_ids` when not empty, else
   * its `subnet_azs` looked up in the zone map (every unknown zone reported
   * at once), else the cluster-wide subnets.
   */
  function ResolveSubnets(name: string, spec: NodeGroupSpec, globalSubnetIds: seq<Ref>, azSubnets: map<string, Ref>)
    : (r: Result<seq<Ref>, ClusterError>)
    ensures spec.subnetIds != [] ==> r == Ok(spec.subnetIds)
    ensures spec.subnetIds == [] && spec.subnetAzs == [] ==> r == Ok(globalSubnetIds)
    ensures spec.subnetIds == [] && spec.subnetAzs != [] ==>
      && (r.Err? <==> exists az :: az in spec.subnetAzs && az !in azSubnets)
      && (r.Err? ==> r.error == UnknownAzs(name, MissingAzs(spec.subnetAzs, azSubnets)))
      && (r.Ok? ==> |r.value| == |spec.subnetAzs|
                    && forall i :: 0 <= i < |spec.subnetAzs| ==> r.value[i] == azSubnets[spec.subnetAzs[i]])
  {
    if spec.subnetIds != [] then Ok(spec.subnetIds)
    else if spec.subnetAzs != [] then
      var missing := MissingAzs(spec.subnetAzs, azSubnets);
      if missing != [] then
        assert missing[0] in missing;
        Err(UnknownAzs(name, missing))
      else
        assert forall az :: az in spec.subnetAzs ==> az in azSubnets;
        Ok(seq(|spec.subnetAzs|, i requires 0 <= i < |spec.subnetAzs| => azSubnets[spec.subnetAzs[i]]))
    else Ok(globalSubnetIds)
  }

  function NodeGroupLabels(name: string, labels: Tags): Tags {
    WithEntries(labels, [("node-group", name)])
  }

  function NodeGroupTagEntries(name: string, clusterName: string): seq<(string, string)> {
    [("Name", "eks-ng-" + name),
     ("k8s.io/cluster-autoscaler/enabled", "true"),
     ("k8s.io/cluster-autoscaler/" + clusterName, "owned")]
  }

  function NodeGroupTags(name: string, clusterName: string, baseTags: Tags): Tags {
    WithEntries(baseTags, NodeGroupTagEntries(name, clusterName))
  }

  /**
   * `create_node_group`: subnets are resolved first, then the capacity
   * ordering is checked; the labels force `node-group` to the name and the
   * tags add the name and the autoscaler discovery keys over the base tags.
   */
  function CreateNodeGroup(
    name: string, clusterName: string, spec: NodeGroupSpec, nodeRoleArn: Ref,
    globalSubnetIds: seq<Ref>, azSubnets: map<string, Ref>, ltId: Ref, clusterLogicalName: string, baseTags: Tags)
    : (r: Result<NodeGroup, ClusterError>)
    ensures ResolveSubnets(name, spec, globalSubnetIds, azSubnets).Err? ==> r == ResolveSubnets(name, spec, globalSubnetIds, azSubnets).PropagateFailure()
    ensures ResolveSubnets(name, spec, globalSubnetIds, azSubnets).Ok? ==>
      && (r.Err? <==> !(spec.minCapacity <= spec.desiredCapacity <= spec.maxCapacity))
      && (r.Err? ==> r.error == CapacityInvalid(name))
    ensures r.Ok? ==> var ng := r.value;
      && ng.logicalName == "ng-" + name && ng.nodeGroupName == name
      && ng.subnetIds == ResolveSubnets(name, spec, globalSubnetIds, azSubnets).value
      && ng.clusterName == Ref(clusterLogicalName, "name") && ng.nodeRoleArn == nodeRoleArn
      && ng.scalingConfig == ScalingConfig(spec.desiredCapacity, spec.minCapacity, spec.maxCapacity)
      && ng.scalingConfig.minSize <= ng.scalingConfig.desiredSize <= ng.scalingConfig.maxSize
      && ng.instanceTypes == [spec.instanceType]
      && ng.labels == NodeGroupLabels(name, spec.labels)
      && ng.tags == NodeGroupTags(name, clusterName, baseTags)
      && ng.taints == (if spec.taints == [] then None else Some(spec.taints))
      && ng.launchTemplate == LaunchTemplateSpec(ltId, "$Latest")
      && ng.dependsOn == [clusterLogicalName]
  {
    var subnets :- ResolveSubnets(name, spec, globalSubnetIds, azSubnets);
    if !(spec.minCapacity <= spec.desiredCapacity <= spec.maxCapacity) then Err(CapacityInvalid(name))
    else Ok(NodeGroupFor(name, clusterName, spec, nodeRoleArn, subnets, ltId, clusterLogicalName, baseTags))
  }

  /** The node group `create_node_group` registers once its subnets are resolved. */
  function NodeGroupFor(
    name: string, clusterName: string, spec: NodeGroupSpec, nodeRoleArn: Ref,
    subnets: seq<Ref>, ltId: Ref, clusterLogicalName: string, baseTags: Tags): NodeGroup
  {
    NodeGroup(
      "ng-" + name,
      Ref(clusterLogicalName, "name"),
      name,
      nodeRoleArn,
      subnets,
      ScalingConfig(spec.desiredCapacity, spec.minCapacity, spec.maxCapacity),
      [spec.instanceType],
      NodeGroupLabels(name, spec.labels),
      if spec.taints == [] then None else Some(spec.taints),
      LaunchTemplateSpec(ltId, "$Latest"),
      NodeGroupTags(name, clusterName, baseTags),
      [clusterLogicalName])
  }

  /** The labels: `node-group` is the group's name whatever the user wrote; every other label is kept. */
  lemma NodeGroupLabelsValues(name: string, labels: Tags)
    ensures var l := NodeGroupLabels(name, labels);
      && l.Keys == labels.Keys + {"node-group"}
      && l["node-group"] == name
      && forall k :: k in labels && k != "node-group" ==> l[k] == labels[k]
  {
    var e := [("node-group", name)];
    assert Keys(e) == {"node-group"} by { assert e[0].0 == "node-group"; }
    WithEntriesValues(labels, e);
  }

  /**
   * The tags: the name and both discovery keys over the base tags. A cluster
   * literally named `enabled` makes the two discovery keys one key, and the
   * later `owned` wins.
   */
  lemma NodeGroupTagsValues(name: string, clusterName: string, baseTags: Tags)
    ensures var t := NodeGroupTags(name, clusterName, baseTags);
      && t.Keys == baseTags.Keys + {"Name", "k8s.io/cluster-autoscaler/enabled", "k8s.io/cluster-autoscaler/" + clusterName}
      && t["Name"] == "eks-ng-" + name
      && t["k8s.io/cluster-autoscaler/" + clusterName] == "owned"
      && (clusterName != "enabled" ==> t["k8s.io/cluster-autoscaler/enabled"] == "true")
      && (clusterName == "enabled" ==> t["k8s.io/cluster-autoscaler/enabled"] == "owned")
      && forall k :: k in baseTags && k !in Keys(NodeGroupTagEntries(name, clusterName)) ==> t[k] == baseTags[k]
  {
    var e := NodeGroupTagEntries(name, clusterName);
    var p := "k8s.io/cluster-autoscaler/";
    var ownerKey := p + clusterName;
    assert |ownerKey| >= |p| && ownerKey != "Name";
    assert Keys(e) == {"Name", p + "enabled", ownerKey} by {
      assert e[0].0 == "Name" && e[1].0 == p + "enabled" && e[2].0 == ownerKey;
    }
    if clusterName != "enabled" {
      assert ownerKey[|p|..] == clusterName;
      assert (p + "enabled")[|p|..] == "enabled";
    }
    WithEntriesValues(baseTags, e);
    assert e[1].0 == p + "enabled" && e[2].0 == ownerKey;
  }

  /** When subnets are resolved and capacities are in order, the node group is planned. */
  lemma NodeGroupPlanned(
    name: string, clusterName: string, spec: NodeGroupSpec, nodeRoleArn: Ref,
    globalSubnetIds: seq<Ref>, azSubnets: map<string, Ref>, ltId: Ref, clusterLogicalName: string, baseTags: Tags)
    requires spec.subnetIds == [] && spec.subnetAzs == []
    ensures CreateNodeGroup(name, clusterName, spec, nodeRoleArn, globalSubnetIds, azSubnets, ltId, clusterLogicalName, baseTags)
            == if spec.minCapacity <= spec.desiredCapacity <= spec.maxCapacity
               then Ok(NodeGroupFor(name, clusterName, spec, nodeRoleArn, globalSubnetIds, ltId, clusterLogicalName, baseTags))
               else Err(CapacityInvalid(name))
  {
  }

  // ---------------------------------------------------------------------
  // Kubeconfig
  // ---------------------------------------------------------------------

  datatype KubeCluster = KubeCluster(name: string, server: string, certificateAuthorityData: string)
  datatype KubeContext = KubeContext(name: string, cluster: string, user: string)
  datatype ExecConfig = ExecConfig(apiVersion: string, command: string, args: seq<string>)
  datatype KubeUser = KubeUser(name: string, exec: ExecConfig)

  /** The kubeconfig document (before JSON serialisation). */
  datatype Kubeconfig = Kubeconfig(
    apiVersion: string,
    kind: string,
    clusters: seq<KubeCluster>,
    contexts: seq<KubeContext>,
    currentContext: string,
    users: seq<KubeUser>)

  /**
   * A self-consistent single-cluster kubeconfig: the current context exists,
   * it names an existing cluster and an existing user, and that user fetches
   * a token for that same cluster.
   */
  predicate SingleClusterConfig(kc: Kubeconfig, clusterName: string) {
    && |kc.clusters| == 1 && |kc.contexts| == 1 && |kc.users| == 1
    && kc.currentContext == kc.contexts[0].name
    && kc.contexts[0].cluster == kc.clusters[0].name == clusterName
    && kc.contexts[0].user == kc.users[0].name
    && |kc.users[0].exec.args| >= 1
    && kc.users[0].exec.args[|kc.users[0].exec.args| - 1] == clusterName
  }

  /** `build_kubeconfig`: endpoint and certificate data are the cluster's outputs, taken as plain text. */
  function BuildKubeconfig(endpoint: string, certificateAuthorityData: string, clusterName: string): (kc: Kubeconfig)
    ensures SingleClusterConfig(kc, clusterName)
    ensures kc.currentContext == "aws" && kc.clusters[0].server == endpoint
    ensures kc.clusters[0].certificateAuthorityData == certificateAuthorityData
    ensures kc.users[0].exec.command == "aws"
    ensures kc.users[0].exec.args == ["eks", "get-token", "--cluster-name", clusterName]
  {
    Kubeconfig(
      "v1",
      "Config",
      [KubeCluster(clusterName, endpoint, certificateAuthorityData)],
      [KubeContext("aws", clusterName, "aws")],
      "aws",
      [KubeUser("aws", ExecConfig("client.authentication.k8s.io/v1", "aws", ["eks", "get-token", "--cluster-name", clusterName]))])
  }

  datatype KubeProvider = KubeProvider(logicalName: string, kubeconfig: Kubeconfig)

  function CreateKubeProvider(endpoint: string, certificateAuthorityData: string, clusterName: string): (p: KubeProvider)
    ensures SingleClusterConfig(p.kubeconfig, clusterName)
    ensures p.kubeconfig == BuildKubeconfig(endpoint, certificateAuthorityData, clusterName)
  {
    KubeProvider("k8s-provider", BuildKubeconfig(endpoint, certificateAuthorityData, clusterName))
  }

  // ---------------------------------------------------------------------
  // Managed add-ons
  // ---------------------------------------------------------------------

  datatype Addon = Addon(
    logicalName: string,
    clusterName: Ref,
    addonName: string,
    resolveConflicts: string,
    tags: Tags,
    addonVersion: Option<string>,
    dependsOn: seq<string>)

  /** The add-on for one entry of `addon_versions`; the version is set only when it is not empty. */
  function AddonFor(entry: (string, Option<string>), clusterLogicalName: string, baseTags: Tags): (a: Addon)
    ensures a.addonVersion == (if Truthy(entry.1) then entry.1 else None)
  {
    Addon("addon-" + entry.0, Ref(clusterLogicalName, "name"), entry.0, "OVERWRITE", baseTags,
          if Truthy(entry.1) then entry.1 else None, [clusterLogicalName])
  }

  /**
   * `create_managed_addons`: nothing when disabled, else one add-on per entry
   * of `addon_versions`, in order, each built from a fresh argument set.
   */
  method CreateManagedAddons(enabled: bool, addonVersions: seq<(string, Option<string>)>, clusterLogicalName: string, baseTags: Tags)
    returns (addons: seq<Addon>)
    ensures !enabled ==> addons == []
    ensures enabled ==>
      && |addons| == |addonVersions|
      && forall i :: 0 <= i < |addons| ==> addons[i] == AddonFor(addonVersions[i], clusterLogicalName, baseTags)
  {
    addons := [];
    if !enabled {
      return;
    }
    var i := 0;
    while i < |addonVersions|
      invariant 0 <= i <= |addonVersions|
      invariant |addons| == i
      invariant forall k :: 0 <= k < i ==> addons[k] == AddonFor(addonVersions[k], clusterLogicalName, baseTags)
    {
      var (addonName, ver) := addonVersions[i];
      var addon := Addon("addon-" + addonName, Ref(clusterLogicalName, "name"), addonName, "OVERWRITE", baseTags, None,
                         [clusterLogicalName]);
      if ver.Some? && ver.value != "" {
        addon := addon.(addonVersion := ver);
      }
      addons := addons + [addon];
      i := i + 1;
    }
  }

  /** Each add-on resolves conflicts by overwriting, depends on the cluster, and is named after its entry. */
  lemma AddonsShape(entry: (string, Option<string>), clusterLogicalName: string, baseTags: Tags)
    ensures var a := AddonFor(entry, clusterLogicalName, baseTags);
      a.logicalName == "addon-" + entry.0 && a.resolveConflicts == "OVERWRITE" && a.dependsOn == [clusterLogicalName]
      && (entry.1 == Some("") ==> a.addonVersion.None?)
  {
  }
}
