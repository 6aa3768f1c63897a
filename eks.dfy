/**
 * The older planning helpers (eks.py). They build the same records as the
 * cluster planner, and the lemmas here say where the two agree and where
 * they differ: the Bottlerocket image name, the unchecked lookup result, the
 * user-data choice and script, the single node group, and add-on versions.
 */
module EksLegacy {
  import opened Wrappers
  import opened Resources
  import opened Settings
  import Base64
  import Cluster

  datatype LegacyError =
    | InvalidArchitecture
    | UnsupportedFamily
    | AmiNotFound
    | NoEndpointAccess
    | CapacityViolated

  /** The Bottlerocket image names use `aarch64` for arm64. */
  function BottlerocketArch(arch: string): string
    requires Cluster.SupportedArch(arch)
  {
    if arch == "x86_64" then "x86_64" else "aarch64"
  }

  /** The lookup of `get_ami`: Bottlerocket is matched by name alone, with the architecture in the name. */
  function LegacyAmiQuery(version: string, arch: string, fam: string): (r: Result<Cluster.AmiQuery, LegacyError>)
    ensures !Cluster.SupportedArch(arch) ==> r == Err(InvalidArchitecture)
    ensures Cluster.SupportedArch(arch) && fam != "al2" && fam != "bottlerocket" ==> r == Err(UnsupportedFamily)
    ensures fam == "bottlerocket" && Cluster.SupportedArch(arch) ==>
      r == Ok(Cluster.AmiQuery([Cluster.BottlerocketOwner],
                               [Cluster.AmiFilter("name", ["bottlerocket-aws-k8s-" + version + "-" + BottlerocketArch(arch) + "-*"])]))
  {
    if !Cluster.SupportedArch(arch) then Err(InvalidArchitecture)
    else if fam == "al2" then
      Ok(Cluster.AmiQuery([Cluster.EksAmiOwner],
        [Cluster.AmiFilter("name", ["amazon-eks-node-" + version + "-*"]), Cluster.AmiFilter("architecture", [arch])]))
    else if fam == "bottlerocket" then
      Ok(Cluster.AmiQuery([Cluster.BottlerocketOwner],
        [Cluster.AmiFilter("name", ["bottlerocket-aws-k8s-" + version + "-" + BottlerocketArch(arch) + "-*"])]))
    else Err(UnsupportedFamily)
  }

  /** For AL2 the older lookup is the cluster planner's lookup. */
  lemma Al2QueriesAgree(version: string, arch: string)
    requires Cluster.SupportedArch(arch)
    ensures LegacyAmiQuery(version, arch, "al2").Ok?
    ensures LegacyAmiQuery(version, arch, "al2").value == Cluster.AmiQueryFor(version, arch, "al2").value
  {
  }

  /**
   * For Bottlerocket the two lookups differ: the older one has no
   * architecture filter and puts `aarch64` (not `arm64`) in the name.
   */
  lemma BottlerocketQueriesDiffer(version: string, arch: string)
    requires Cluster.SupportedArch(arch)
    ensures var legacy := LegacyAmiQuery(version, arch, "bottlerocket").value;
      var current := Cluster.AmiQueryFor(version, arch, "bottlerocket").value;
      && legacy.owners == current.owners
      && |legacy.filters| == 1 && |current.filters| == 2
      && (forall f :: f in legacy.filters ==> f.name != "architecture")
      && (arch == "arm64" ==> legacy.filters[0].values == ["bottlerocket-aws-k8s-" + version + "-aarch64-*"])
  {
    if arch == "arm64" {
      assert "bottlerocket-aws-k8s-" + version + "-" + BottlerocketArch(arch) + "-*"
          == "bottlerocket-aws-k8s-" + version + "-aarch64-*";
    }
  }

  /**
   * `get_ami`: a truthy `ami_id` wins; otherwise the lookup's id is returned
   * as is, even when empty. A lookup without a match is the provider's
   * error.
   */
  function GetAmi(amiId: Option<string>, arch: string, fam: string, version: string, catalog: Cluster.AmiCatalog)
    : (r: Result<string, LegacyError>)
    ensures Cluster.Truthy(amiId) ==> r == Ok(amiId.value)
    ensures !Cluster.Truthy(amiId) ==>
      match LegacyAmiQuery(version, arch, fam)
      case Err(e) => r == Err(e)
      case Ok(q) => (r.Ok? <==> catalog(q).Some?) && (r.Ok? ==> r.value == catalog(q).value)
  {
    if Cluster.Truthy(amiId) then Ok(amiId.value)
    else
      match LegacyAmiQuery(version, arch, fam)
      case Err(e) => Err(e)
      case Ok(q) =>
        match catalog(q)
        case None => Err(AmiNotFound)
        case Some(id) => Ok(id)
  }

  /**
   * Where the newer planner fails on an empty lookup result, the older one
   * hands the empty id on.
   */
  lemma EmptyLookupAccepted(arch: string, version: string, catalog: Cluster.AmiCatalog)
    requires Cluster.SupportedArch(arch)
    requires catalog(LegacyAmiQuery(version, arch, "al2").value) == Some("")
    ensures GetAmi(None, arch, "al2", version, catalog) == Ok("")
    ensures Cluster.GetAmiForGroup(version, arch, "al2", None, catalog) == Err(Cluster.AmiLookupFailed)
  {
    Al2QueriesAgree(version, arch);
  }

  /** The script of the older launch template ends with a newline. */
  function LegacyBootstrapScript(clusterName: string): string {
    "#!/bin/bash\n/etc/eks/bootstrap.sh " + clusterName + "\n"
  }

  /**
   * `create_launch_template` (older): user data whenever a custom AMI is
   * used, whatever its family; the instance name omits the group.
   */
  method CreateLaunchTemplate(
    nodeSgId: Ref, sshKeypairName: Option<string>, clusterName: string, amiId: string, baseTags: Tags, customAmiUsed: bool)
    returns (lt: Cluster.LaunchTemplate)
    ensures lt.logicalName == "eks-nodegroup-lt"
    ensures lt.vpcSecurityGroupIds == [nodeSgId] && lt.tags == baseTags
    ensures lt.keyName == (if Cluster.Truthy(sshKeypairName) then sshKeypairName else None)
    ensures lt.tagSpecifications == [Cluster.TagSpecification("instance", baseTags["Name" := clusterName + "-node"])]
    ensures lt.userData.Some? <==> customAmiUsed
    ensures lt.userData.Some? ==> lt.userData.value == Base64.Encode(Base64.Utf8Encode(LegacyBootstrapScript(clusterName)))
    ensures lt.userData.Some? ==> Base64.Decode(lt.userData.value) == Some(Base64.Utf8Encode(LegacyBootstrapScript(clusterName)))
    ensures lt.imageId == (if amiId != "" then Some(amiId) else None)
  {
    var userDataEncoded: Option<string> := None;
    if customAmiUsed {
      var script := LegacyBootstrapScript(clusterName);
      var bytes := Base64.Utf8Encode(script);
      userDataEncoded := Some(Base64.Encode(bytes));
      Base64.DecodeEncode(bytes);
      assert |bytes| >= |script| > 0;
      Base64.EncodeNonEmpty(bytes);
    }
    lt := Cluster.LaunchTemplate(
      "eks-nodegroup-lt",
      [nodeSgId],
      if Cluster.Truthy(sshKeypairName) then sshKeypairName else None,
      [Cluster.TagSpecification("instance", baseTags["Name" := clusterName + "-node"])],
      baseTags,
      None,
      None);
    if userDataEncoded.Some? && userDataEncoded.value != "" {
      lt := lt.(userData := userDataEncoded);
    }
    if amiId != "" {
      lt := lt.(imageId := Some(amiId));
    }
  }

  /**
   * `create_eks_cluster` (older): the same checks and arguments as the
   * newer one, without a log group to wait for.
   */
  function CreateEksCluster(cfg: Config, eksRoleArn: Ref, eksSgId: Ref, subnetIds: seq<Ref>, kmsKey: Option<Cluster.KmsKey>, baseTags: Tags)
    : (r: Result<Cluster.EksCluster, LegacyError>)
    ensures r.Err? <==> !cfg.publicAccess && !cfg.privateAccess
    ensures r.Err? ==> r.error == NoEndpointAccess
    ensures r.Ok? ==> var c := r.value;
      && (c.encryptionConfig.Some? <==> kmsKey.Some?)
      && (c.vpcConfig.publicAccessCidrs.Some? <==> cfg.publicAccess)
      && c.dependsOn == []
  {
    if !(cfg.publicAccess || cfg.privateAccess) then Err(NoEndpointAccess)
    else
      var encryption := if kmsKey.Some? then Some([Cluster.EncryptionConfig(Arn(kmsKey.value.logicalName), ["secrets"])]) else None;
      Ok(Cluster.EksCluster(
        "eks-cluster",
        cfg.clusterName,
        eksRoleArn,
        cfg.clusterVersion,
        encryption,
        cfg.clusterLogTypes,
        Cluster.VpcConfig(subnetIds, [eksSgId], cfg.publicAccess, cfg.privateAccess,
                          if cfg.publicAccess then Some(cfg.publicAccessCidrs) else None),
        cfg.clusterDeletionProtection,
        baseTags["Name" := cfg.clusterName],
        []))
  }

  /** The older control plane is the newer one planned without a log group. */
  lemma ClusterAgreesWithoutLogGroup(cfg: Config, eksRoleArn: Ref, eksSgId: Ref, subnetIds: seq<Ref>, kmsKey: Option<Cluster.KmsKey>, baseTags: Tags)
    ensures var legacy := CreateEksCluster(cfg, eksRoleArn, eksSgId, subnetIds, kmsKey, baseTags);
      var current := Cluster.CreateEksCluster(cfg, eksRoleArn, eksSgId, subnetIds, kmsKey, baseTags, None);
      (legacy.Ok? <==> current.Ok?) && (legacy.Ok? ==> legacy.value == current.value)
  {
  }

  /** The keys the older `create_node_group` reads from its flat configuration. */
  datatype LegacyNodeGroupConfig = LegacyNodeGroupConfig(
    clusterName: string,
    nodeGroupName: string,
    minCapacity: int,
    desiredCapacity: int,
    maxCapacity: int,
    instanceType: string)

  datatype LegacyNodeGroup = LegacyNodeGroup(
    logicalName: string,
    clusterName: string,
    nodeGroupName: string,
    nodeRoleArn: Ref,
    subnetIds: seq<Ref>,
    scalingConfig: Cluster.ScalingConfig,
    instanceTypes: seq<string>,
    launchTemplate: Cluster.LaunchTemplateSpec,
    tags: Tags,
    dependsOn: seq<string>)

  function LegacyTagEntries(clusterName: string): seq<(string, string)> {
    [("Name", "eks-node-group"),
     ("k8s.io/cluster-autoscaler/enabled", "true"),
     ("k8s.io/cluster-autoscaler/" + clusterName, "owned")]
  }

  /** `create_node_group` (older): only the capacity check, one fixed logical name, no labels or taints. */
  function CreateNodeGroup(cfg: LegacyNodeGroupConfig, nodeRoleArn: Ref, subnetIds: seq<Ref>, ltId: Ref, clusterLogicalName: string, baseTags: Tags)
    : (r: Result<LegacyNodeGroup, LegacyError>)
    ensures r.Err? <==> !(cfg.minCapacity <= cfg.desiredCapacity <= cfg.maxCapacity)
    ensures r.Err? ==> r.error == CapacityViolated
    ensures r.Ok? ==>
      && r.value.logicalName == "eks-node-group"
      && r.value.clusterName == cfg.clusterName && r.value.nodeGroupName == cfg.nodeGroupName
      && r.value.nodeRoleArn == nodeRoleArn && r.value.subnetIds == subnetIds
      && r.value.scalingConfig == Cluster.ScalingConfig(cfg.desiredCapacity, cfg.minCapacity, cfg.maxCapacity)
      && r.value.instanceTypes == [cfg.instanceType]
      && r.value.launchTemplate == Cluster.LaunchTemplateSpec(ltId, "$Latest")
      && r.value.scalingConfig.minSize <= r.value.scalingConfig.desiredSize <= r.value.scalingConfig.maxSize
      && r.value.dependsOn == [clusterLogicalName]
  {
    if !(cfg.minCapacity <= cfg.desiredCapacity <= cfg.maxCapacity) then Err(CapacityViolated)
    else
      Ok(LegacyNodeGroup(
        "eks-node-group",
        cfg.clusterName,
        cfg.nodeGroupName,
        nodeRoleArn,
        subnetIds,
        Cluster.ScalingConfig(cfg.desiredCapacity, cfg.minCapacity, cfg.maxCapacity),
        [cfg.instanceType],
        Cluster.LaunchTemplateSpec(ltId, "$Latest"),
        WithEntries(baseTags, LegacyTagEntries(cfg.clusterName)),
        [clusterLogicalName]))
  }

  /**
   * The older node-group tags are the newer ones with `Name` fixed to
   * `eks-node-group` instead of `eks-ng-<name>`.
   */
  lemma TagsDifferOnlyInName(cfg: LegacyNodeGroupConfig, nodeRoleArn: Ref, subnetIds: seq<Ref>, ltId: Ref, clusterLogicalName: string, baseTags: Tags)
    requires cfg.minCapacity <= cfg.desiredCapacity <= cfg.maxCapacity
    ensures CreateNodeGroup(cfg, nodeRoleArn, subnetIds, ltId, clusterLogicalName, baseTags).value.tags
         == Cluster.NodeGroupTags(cfg.nodeGroupName, cfg.clusterName, baseTags)["Name" := "eks-node-group"]
  {
    var p := "k8s.io/cluster-autoscaler/";
    var enabledKey := p + "enabled";
    var ownerKey := p + cfg.clusterName;
    assert |enabledKey| > 4 && |ownerKey| >= |p| > 4;
    var legacy := LegacyTagEntries(cfg.clusterName);
    var current := Cluster.NodeGroupTagEntries(cfg.nodeGroupName, cfg.clusterName);
    assert "k8s.io/cluster-autoscaler/enabled" == enabledKey;
    assert legacy[1] == current[1] == (enabledKey, "true");
    assert legacy[2] == current[2] == (ownerKey, "owned");
    WithThreeEntries(baseTags, legacy);
    WithThreeEntries(baseTags, current);
    RewriteFirst(baseTags, "Name", enabledKey, ownerKey, "eks-node-group", "eks-ng-" + cfg.nodeGroupName, "true", "owned");
  }

  /** The add-on for one entry: the version is passed on as given, `None` and empty text included. */
  function LegacyAddonFor(entry: (string, Option<string>), clusterLogicalName: string, baseTags: Tags): (a: Cluster.Addon)
    ensures a.addonVersion == entry.1 && a.dependsOn == []
  {
    Cluster.Addon("addon-" + entry.0, Ref(clusterLogicalName, "name"), entry.0, "OVERWRITE", baseTags, entry.1, [])
  }

  /** `create_managed_addons` (older): one add-on per entry, in order, with no dependency on the cluster. */
  method CreateManagedAddons(enabled: bool, addonVersions: seq<(string, Option<string>)>, clusterLogicalName: string, baseTags: Tags)
    returns (addons: seq<Cluster.Addon>)
    ensures !enabled ==> addons == []
    ensures enabled ==>
      && |addons| == |addonVersions|
      && forall i :: 0 <= i < |addons| ==> addons[i] == LegacyAddonFor(addonVersions[i], clusterLogicalName, baseTags)
  {
    addons := [];
    if !enabled {
      return;
    }
    for i := 0 to |addonVersions|
      invariant |addons| == i
      invariant forall k :: 0 <= k < i ==> addons[k] == LegacyAddonFor(addonVersions[k], clusterLogicalName, baseTags)
    {
      var (addonName, ver) := addonVersions[i];
      addons := addons + [Cluster.Addon("addon-" + addonName, Ref(clusterLogicalName, "name"), addonName, "OVERWRITE", baseTags, ver, [])];
    }
  }

  /**
   * The two add-on planners agree on every entry with a non-empty version
   * or no version, apart from the dependency on the cluster; an empty
   * version is sent by the older one and dropped by the newer one.
   */
  lemma AddonsCompared(entry: (string, Option<string>), clusterLogicalName: string, baseTags: Tags)
    ensures var legacy := LegacyAddonFor(entry, clusterLogicalName, baseTags);
      var current := Cluster.AddonFor(entry, clusterLogicalName, baseTags);
      && (entry.1 != Some("") ==> legacy == current.(dependsOn := []))
      && (entry.1 == Some("") ==> legacy.addonVersion == Some("") && current.addonVersion == None)
  {
  }
}
