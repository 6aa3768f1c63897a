/**
 * The configuration loader (config.py): reads the stack settings, applies
 * defaults, and normalises the node-group list, refusing entries that lack
 * what a node group cannot do without.
 *
 * A setting that is not present reads as `None`. Python's `x or default`
 * replaces every falsy value (`None`, `""`, `0`, `[]`, `{}`); `get_bool`
 * replaces only `None`.
 */
module Settings {
  import opened Wrappers
  import opened Strings
  import opened Resources

  /**
   * The `addon_versions` dictionary: add-on names with an optional version,
   * in insertion order, each name at most once, as a Python dict holds them.
   */
  type AddonVersions = entries: seq<(string, Option<string>)>
    | forall i, j :: 0 <= i < j < |entries| ==> entries[i].0 != entries[j].0

  /** A node-group entry as written in the stack settings. */
  datatype RawNodeGroup =
    | NotAnObject
    | RawObject(
        name: Option<string>,
        instanceType: Option<string>,
        desiredCapacity: Option<int>,
        minCapacity: Option<int>,
        maxCapacity: Option<int>,
        architecture: Option<string>,
        amiFamily: Option<string>,
        amiId: Option<string>,
        sshKeypairName: Option<string>,
        labels: Option<Tags>,
        subnetIds: Option<seq<string>>,
        subnetAzs: Option<seq<string>>)

  /** The `node_groups` setting: absent, some value that is not a list, or a list. */
  datatype RawNodeGroups = Absent | NotAList | AList(items: seq<RawNodeGroup>)

  /** The stack settings `load_config` reads; Helm values objects are not part of this model. */
  datatype RawConfig = RawConfig(
    region: Option<string>,
    environment: Option<string>,
    owner: Option<string>,
    costCenter: Option<string>,
    clusterName: Option<string>,
    clusterVersion: Option<string>,
    clusterLogTypes: Option<seq<string>>,
    logRetentionDays: Option<int>,
    publicAccess: Option<bool>,
    privateAccess: Option<bool>,
    publicAccessCidrs: Option<seq<string>>,
    trustedCidrs: Option<seq<string>>,
    enableEfs: Option<bool>,
    enableEbs: Option<bool>,
    enablePrometheus: Option<bool>,
    enableIngress: Option<bool>,
    enableManagedAddons: Option<bool>,
    enableKmsEncryption: Option<bool>,
    efsCsiDriverVersion: Option<string>,
    ebsCsiDriverVersion: Option<string>,
    ingressNginxVersion: Option<string>,
    prometheusStackVersion: Option<string>,
    autoscalerChartVersion: Option<string>,
    clusterDeletionProtection: Option<bool>,
    efsDeletionProtection: Option<bool>,
    vpcCidr: Option<string>,
    oidcThumbprint: Option<string>,
    addonVersions: Option<AddonVersions>,
    nodeGroups: RawNodeGroups,
    maxAzs: Option<int>)

  /** A normalised node group: exactly the ten keys the loader keeps. */
  datatype NodeGroupConfig = NodeGroupConfig(
    name: string,
    instanceType: string,
    desiredCapacity: int,
    minCapacity: int,
    maxCapacity: int,
    architecture: string,
    amiFamily: string,
    amiId: Option<string>,
    sshKeypairName: Option<string>,
    labels: Tags)

  /** The loaded configuration. */
  datatype Config = Config(
    environment: string,
    owner: string,
    costCenter: string,
    clusterName: string,
    region: string,
    clusterVersion: string,
    clusterLogTypes: seq<string>,
    logRetentionDays: int,
    publicAccess: bool,
    privateAccess: bool,
    publicAccessCidrs: seq<string>,
    trustedCidrs: seq<string>,
    enableEfs: bool,
    enableEbs: bool,
    enablePrometheus: bool,
    enableIngress: bool,
    enableManagedAddons: bool,
    enableKmsEncryption: bool,
    efsCsiDriverVersion: string,
    ebsCsiDriverVersion: string,
    ingressNginxVersion: string,
    prometheusStackVersion: string,
    autoscalerChartVersion: string,
    clusterDeletionProtection: bool,
    efsDeletionProtection: bool,
    vpcCidr: string,
    oidcThumbprint: string,
    addonVersions: AddonVersions,
    nodeGroups: seq<NodeGroupConfig>,
    maxAzs: Option<int>)

  datatype ConfigError =
    | NodeGroupsNotAList
    | NodeGroupNotAnObject(index: nat)
    | MissingInstanceType(index: nat)
    | MissingCapacity(index: nat)
    | MaxAzsNotPositive

  /** `value or default` for a text setting. */
  function TextOr(value: Option<string>, default: string): (r: string)
    ensures value.Some? && value.value != "" ==> r == value.value
    ensures (value.None? || value.value == "") ==> r == default
  {
    if value.Some? && value.value != "" then value.value else default
  }

  /** `value or default` for a list setting. */
  function ListOr<T>(value: Option<seq<T>>, default: seq<T>): (r: seq<T>)
    ensures value.Some? && value.value != [] ==> r == value.value
    ensures (value.None? || value.value == []) ==> r == default
  {
    if value.Some? && value.value != [] then value.value else default
  }

  /** `get_bool(key, default)`: only a missing value takes the default; an explicit `False` is kept. */
  function BoolOr(value: Option<bool>, default: bool): (r: bool)
    ensures value.Some? ==> r == value.value
    ensures value.None? ==> r == default
  {
    match value
    case Some(b) => b
    case None => default
  }

  /** The name a node group at `index` gets when it has none: `node-group-<index>`. */
  function DefaultNodeGroupName(index: nat): string {
    "node-group-" + NatToString(index)
  }

  /** One loop iteration of the normaliser, for the entry at `index`. */
  function NormalizeEntry(index: nat, raw: RawNodeGroup): (r: Result<NodeGroupConfig, ConfigError>)
    ensures r.Err? <==> raw.NotAnObject? || TextOr(raw.instanceType, "") == ""
                        || raw.desiredCapacity.None? || raw.minCapacity.None? || raw.maxCapacity.None?
    ensures r.Err? ==> !r.error.NodeGroupsNotAList? && !r.error.MaxAzsNotPositive? && r.error.index == index
    ensures raw.NotAnObject? ==> r == Err(NodeGroupNotAnObject(index))
    ensures raw.RawObject? && TextOr(raw.instanceType, "") == "" ==> r == Err(MissingInstanceType(index))
    ensures raw.RawObject? && TextOr(raw.instanceType, "") != ""
            && (raw.desiredCapacity.None? || raw.minCapacity.None? || raw.maxCapacity.None?)
            ==> r == Err(MissingCapacity(index))
    ensures r.Ok? ==> var ng := r.value;
      && ng.name == TextOr(raw.name, DefaultNodeGroupName(index))
      && ng.instanceType == raw.instanceType.value
      && ng.desiredCapacity == raw.desiredCapacity.value
      && ng.minCapacity == raw.minCapacity.value
      && ng.maxCapacity == raw.maxCapacity.value
      && ng.architecture == TextOr(raw.architecture, "x86_64")
      && ng.amiFamily == TextOr(raw.amiFamily, "al2")
      && ng.amiId == raw.amiId
      && ng.sshKeypairName == raw.sshKeypairName
      && ng.labels == (if raw.labels.Some? && raw.labels.value != map[] then raw.labels.value else map[])
  {
    match raw
    case NotAnObject => Err(NodeGroupNotAnObject(index))
    case RawObject(_, _, _, _, _, _, _, _, _, _, _, _) =>
      if raw.instanceType.None? || raw.instanceType.value == "" then Err(MissingInstanceType(index))
      else if raw.desiredCapacity.None? || raw.minCapacity.None? || raw.maxCapacity.None? then Err(MissingCapacity(index))
      else
        var labels := if raw.labels.Some? && raw.labels.value != map[] then raw.labels.value else map[];
        Ok(NodeGroupConfig(
          TextOr(raw.name, DefaultNodeGroupName(index)),
          raw.instanceType.value,
          raw.desiredCapacity.value,
          raw.minCapacity.value,
          raw.maxCapacity.value,
          TextOr(raw.architecture, "x86_64"),
          TextOr(raw.amiFamily, "al2"),
          raw.amiId,
          raw.sshKeypairName,
          labels))
  }

  /**
   * The normaliser's loop over the list: stops at the first bad entry with
   * that entry's error, else yields one normalised entry per raw entry, in order.
   */
  method NormalizeNodeGroups(raw: seq<RawNodeGroup>) returns (r: Result<seq<NodeGroupConfig>, ConfigError>)
    ensures r.Ok? <==> forall i :: 0 <= i < |raw| ==> NormalizeEntry(i, raw[i]).Ok?
    ensures r.Ok? ==> |r.value| == |raw| && forall i :: 0 <= i < |raw| ==> NormalizeEntry(i, raw[i]) == Ok(r.value[i])
    ensures r.Err? ==> exists i :: (0 <= i < |raw| && NormalizeEntry(i, raw[i]) == Err(r.error)
                                    && forall j :: 0 <= j < i ==> NormalizeEntry(j, raw[j]).Ok?)
  {
    var normalized: seq<NodeGroupConfig> := [];
    var i := 0;
    while i < |raw|
      invariant 0 <= i <= |raw|
      invariant |normalized| == i
      invariant forall j :: 0 <= j < i ==> NormalizeEntry(j, raw[j]) == Ok(normalized[j])
    {
      var entry := NormalizeEntry(i, raw[i]);
      if entry.Err? {
        return Err(entry.error);
      }
      normalized := normalized + [entry.value];
      i := i + 1;
    }
    return Ok(normalized);
  }

  /** The settings that do not depend on the node groups, with their defaults. */
  function Defaults(raw: RawConfig, nodeGroups: seq<NodeGroupConfig>): (c: Config)
    ensures c.nodeGroups == nodeGroups && c.maxAzs == raw.maxAzs
  {
    var environment := TextOr(raw.environment, "dev");
    Config(
      environment,
      TextOr(raw.owner, "team-platform"),
      TextOr(raw.costCenter, "shared"),
      TextOr(raw.clusterName, "eks-cluster"),
      TextOr(raw.region, "us-west-2"),
      TextOr(raw.clusterVersion, "1.30"),
      ListOr(raw.clusterLogTypes, ["api", "audit", "authenticator", "controllerManager", "scheduler"]),
      if raw.logRetentionDays.Some? && raw.logRetentionDays.value != 0 then raw.logRetentionDays.value else 30,
      BoolOr(raw.publicAccess, false),
      BoolOr(raw.privateAccess, true),
      ListOr(raw.publicAccessCidrs, ["0.0.0.0/0"]),
      ListOr(raw.trustedCidrs, []),
      BoolOr(raw.enableEfs, false),
      BoolOr(raw.enableEbs, false),
      BoolOr(raw.enablePrometheus, false),
      BoolOr(raw.enableIngress, false),
      BoolOr(raw.enableManagedAddons, true),
      BoolOr(raw.enableKmsEncryption, true),
      TextOr(raw.efsCsiDriverVersion, "2.5.0"),
      TextOr(raw.ebsCsiDriverVersion, "2.26.1"),
      TextOr(raw.ingressNginxVersion, "4.10.0"),
      TextOr(raw.prometheusStackVersion, "55.5.0"),
      TextOr(raw.autoscalerChartVersion, "9.29.0"),
      BoolOr(raw.clusterDeletionProtection, environment == "prod"),
      BoolOr(raw.efsDeletionProtection, environment == "prod"),
      TextOr(raw.vpcCidr, "10.100.0.0/16"),
      TextOr(raw.oidcThumbprint, "9e99a48a9960b14926bb7f3b02e22da0ecd2e9d0"),
      ListOr(raw.addonVersions, [("vpc-cni", None), ("kube-proxy", None), ("coredns", None)]),
      nodeGroups,
      raw.maxAzs)
  }

  /**
   * A raw configuration that loads: a non-empty node-group list whose every
   * entry normalises, and a `max_azs` that is unset or positive.
   */
  predicate Loadable(raw: RawConfig) {
    && raw.nodeGroups.AList? && raw.nodeGroups.items != []
    && (forall i :: 0 <= i < |raw.nodeGroups.items| ==> NormalizeEntry(i, raw.nodeGroups.items[i]).Ok?)
    && (raw.maxAzs.None? || raw.maxAzs.value > 0)
  }

  /** The configuration a loadable raw configuration yields: the defaults over its normalised entries. */
  function LoadedConfig(raw: RawConfig): (c: Config)
    requires Loadable(raw)
    ensures |c.nodeGroups| == |raw.nodeGroups.items|
    ensures forall i :: 0 <= i < |raw.nodeGroups.items| ==> NormalizeEntry(i, raw.nodeGroups.items[i]) == Ok(c.nodeGroups[i])
    ensures c == Defaults(raw, c.nodeGroups)
  {
    var items := raw.nodeGroups.items;
    Defaults(raw, seq(|items|, i requires 0 <= i < |items| => NormalizeEntry(i, items[i]).value))
  }

  /**
   * `load_config`: the node-group list must be a non-empty list, every entry
   * must normalise, and a given `max_azs` must be positive, checked in that
   * order; everything else takes its default.
   */
  method LoadConfig(raw: RawConfig) returns (r: Result<Config, ConfigError>)
    ensures (raw.nodeGroups.Absent? || raw.nodeGroups.NotAList? || raw.nodeGroups == AList([]))
            ==> r == Err(NodeGroupsNotAList)
    ensures r.Ok? ==>
      && raw.nodeGroups.AList? && |r.value.nodeGroups| == |raw.nodeGroups.items| >= 1
      && (forall i :: 0 <= i < |raw.nodeGroups.items| ==> NormalizeEntry(i, raw.nodeGroups.items[i]) == Ok(r.value.nodeGroups[i]))
      && (raw.maxAzs.None? || raw.maxAzs.value > 0)
      && r.value == Defaults(raw, r.value.nodeGroups)
    ensures r == Err(MaxAzsNotPositive) <==>
      && raw.nodeGroups.AList? && raw.nodeGroups.items != []
      && (forall i :: 0 <= i < |raw.nodeGroups.items| ==> NormalizeEntry(i, raw.nodeGroups.items[i]).Ok?)
      && raw.maxAzs.Some? && raw.maxAzs.value <= 0
    ensures r.Ok? <==> Loadable(raw)
    ensures r.Ok? ==> r.value == LoadedConfig(raw)
    ensures raw.nodeGroups.AList? && raw.nodeGroups.items != [] && r.Err? && r != Err(MaxAzsNotPositive) ==>
      exists i :: && 0 <= i < |raw.nodeGroups.items|
                  && NormalizeEntry(i, raw.nodeGroups.items[i]) == Err(r.error)
                  && forall j :: 0 <= j < i ==> NormalizeEntry(j, raw.nodeGroups.items[j]).Ok?
  {
    if !raw.nodeGroups.AList? || raw.nodeGroups.items == [] {
      return Err(NodeGroupsNotAList);
    }
    var normalized := NormalizeNodeGroups(raw.nodeGroups.items);
    if normalized.Err? {
      return Err(normalized.error);
    }
    if raw.maxAzs.Some? && raw.maxAzs.value <= 0 {
      return Err(MaxAzsNotPositive);
    }
    assert normalized.value == LoadedConfig(raw).nodeGroups;
    return Ok(Defaults(raw, normalized.value));
  }

  /**
   * Deletion protection follows the environment only when it is not set:
   * unset means "on in prod, off elsewhere", an explicit value is kept.
   */
  lemma DeletionProtectionDefault(raw: RawConfig, nodeGroups: seq<NodeGroupConfig>)
    ensures var c := Defaults(raw, nodeGroups);
      && (raw.clusterDeletionProtection.None? ==> (c.clusterDeletionProtection <==> c.environment == "prod"))
      && (raw.clusterDeletionProtection.Some? ==> c.clusterDeletionProtection == raw.clusterDeletionProtection.value)
      && (raw.efsDeletionProtection.None? ==> (c.efsDeletionProtection <==> c.environment == "prod"))
      && (raw.efsDeletionProtection.Some? ==> c.efsDeletionProtection == raw.efsDeletionProtection.value)
      && (raw.environment.None? && raw.clusterDeletionProtection.None? ==> c.environment == "dev" && !c.clusterDeletionProtection)
  {
  }

  /** `or` and `get_bool` differ on falsy values: a retention of 0 becomes 30, an explicit `False` stays. */
  lemma FalsyValues(raw: RawConfig, nodeGroups: seq<NodeGroupConfig>)
    ensures raw.logRetentionDays == Some(0) ==> Defaults(raw, nodeGroups).logRetentionDays == 30
    ensures raw.privateAccess == Some(false) ==> !Defaults(raw, nodeGroups).privateAccess
    ensures raw.enableManagedAddons == Some(false) ==> !Defaults(raw, nodeGroups).enableManagedAddons
    ensures raw.clusterName == Some("") ==> Defaults(raw, nodeGroups).clusterName == "eks-cluster"
  {
  }

  /** Without access settings the defaults give private access only, which satisfies the access-mode rule. */
  lemma DefaultAccessModes(raw: RawConfig, nodeGroups: seq<NodeGroupConfig>)
    requires raw.publicAccess.None? && raw.privateAccess.None?
    ensures var c := Defaults(raw, nodeGroups); !c.publicAccess && c.privateAccess && (c.publicAccess || c.privateAccess)
  {
  }

  /** An unnamed entry is named after its position; named entries keep their name. */
  lemma DefaultNames(raw: seq<RawNodeGroup>, out: seq<NodeGroupConfig>, i: nat)
    requires |out| == |raw| && i < |raw|
    requires forall j :: 0 <= j < |raw| ==> NormalizeEntry(j, raw[j]) == Ok(out[j])
    ensures raw[i].RawObject?
    ensures raw[i].name.None? ==> out[i].name == DefaultNodeGroupName(i)
    ensures raw[i].name.Some? && raw[i].name.value != "" ==> out[i].name == raw[i].name.value
    ensures out[i].architecture in {"x86_64"} + (if raw[i].architecture.Some? then {raw[i].architecture.value} else {})
  {
    assert NormalizeEntry(i, raw[i]) == Ok(out[i]);
  }

  /** Two unnamed entries never get the same default name. */
  lemma DefaultNamesDistinct(i: nat, j: nat)
    requires i != j
    ensures DefaultNodeGroupName(i) != DefaultNodeGroupName(j)
  {
    var p := "node-group-";
    if DefaultNodeGroupName(i) == DefaultNodeGroupName(j) {
      assert NatToString(i) == DefaultNodeGroupName(i)[|p|..];
      assert NatToString(j) == DefaultNodeGroupName(j)[|p|..];
      NatToStringInjective(i, j);
    }
  }
}
