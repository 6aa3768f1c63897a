# EKS cluster planner, modelled in Dafny

This project models the planning core of a Pulumi program that stands up an
Amazon EKS cluster. The model covers these parts:

- **Configuration loading.** Defaults are applied, the node-group list is
  normalised, and `max_azs` is checked. The `addon_versions` dictionary is a
  list of entries whose names are distinct, as a dictionary's keys are.
- **The VPC planner.** The VPC CIDR is parsed the way Python's `ipaddress`
  parses it. The address space is split into /24 blocks, or halves, or the
  VPC itself. One public subnet goes into each availability zone, in order.
- **The two security groups** and their rule table.
- **The cluster planner.** It covers:
  - base tags, AMI selection and the instance-family/architecture check;
  - launch templates, with bootstrap user data encoded in base64 (section 4
    of RFC 4648);
  - the KMS key, the log group and the control plane;
  - node groups: subnet precedence, the capacity check, labels and tags;
  - the kubeconfig document and the managed add-ons.
- **The IRSA builder.** It plans the OIDC provider and the cluster-autoscaler
  role. The role's trust condition pins the `sub` and `aud` token claims
  (sections 4.1.2 and 4.1.3 of RFC 7519).
- **The older variant of the planning helpers** (`eks.py`). Lemmas say where
  it agrees with the cluster planner and where it differs.
- **The program itself** (`__main__.py`). It runs these phases in order:
  1. the VPC and the control plane;
  2. the node-group loop, which stops at the first failing group;
  3. add-on gating on the primary node group;
  4. the OIDC provider, then the autoscaler, which is planned only when node
     groups exist;
  5. the late access check;
  6. the exported kubeconfig and summary.

Cloud resources are plain records. A resource's outputs (`id`, `arn`, `name`)
are symbolic references of the form `<logical name>.<attribute>`. The program
returns a result together with the steps it took. A raised exception is an
`Err` value, so the order of the source is visible: for example, the cluster
is planned before any node group is validated.

Layout, one module per file:

- `wrappers.dfy`: `Option` and `Result`.
- `resources.dfy`: `Resources` (tags, references, dict displays).
- `strings.dfy`: `Strings` (`split`, `replace`, decimal text).
- `base64.dfy`: `Base64` (UTF-8 encoding, base64 encode and decode).
- `ipv4.dfy`: `Ipv4` (parse, print and split networks).
- `network.dfy`: `Network`.
- `config.dfy`: `Settings`.
- `cluster.dfy`: `Cluster`.
- `irsa.dfy`: `Irsa`.
- `eks.dfy`: `EksLegacy`.
- `program.dfy`: `Deploy`.

Some functions of the source update state step by step. They are modelled as
methods (with loops and invariants where the source loops):

- `create_vpc` and its subnet loop;
- the node-group normaliser;
- `create_launch_template`, which builds its `kwargs` step by step;
- `create_managed_addons`;
- the program's node-group loop and its flag-guarded steps.

Everything else is functions and lemmas.

**Where the code and its description differ, the model follows the code.**

- Bootstrap user data is added only when the AMI is user-supplied *and* the
  family is `al2` (`cluster.py:79`). It is not added when a lookup is used.
- A VPC too small to split is never an error. A /28 or longer prefix yields
  the VPC itself as the only block (`network.py:46-52`).
- `max_azs` is never used: the zone cap is the constant 3 (`network.py:32`).
- The cluster is planned before any node group is validated
  (`__main__.py:38`, `__main__.py:49`).
- A configuration with both endpoints off fails only when the cluster is
  planned. By then the VPC, the security groups, the key and the log group
  are already planned.
- No trust document is ever rejected as under-scoped: the code always writes
  both claims.

**The program as written does not match its helpers:**

- It imports from `eks` names that exist only in `cluster.py`.
- It calls `create_vpc` with four arguments, but the function takes three.
- Its call to `create_node_group` does not match that function's parameters.

`Deploy` makes the evidently intended calls instead:

- the cluster planner's functions;
- `create_vpc` without `max_azs`;
- each node group with the cluster name, the cluster-wide subnets and an
  empty zone map.

Because of this, the late access check (`__main__.py:101-102`) can never fail
(`Deploy.LateCheckUnreachable`). Every successful run has at least one node
group, so the primary group and the autoscaler are always planned.

## Model

| member | source | states |
|---|---|---|
| Resources.WithEntries | cluster.py:156-161 | a dict display `{**base, k: v, ...}` has the base keys plus the written keys |
| Resources.WithEntriesValues | cluster.py:156-161 | in a dict display, base keys not written keep their value, and the last write of a key wins |
| Strings.Split | cluster.py:69 | `split(sep)` is never empty, its parts hold no separator, joining them gives the text back, and the first part is the text up to the first separator |
| Strings.SplitJoin | cluster.py:69 | splitting a join of separator-free fields gives the fields back |
| Strings.SplitField | cluster.py:69 | a separator-free field in front of a separator becomes the first part of the split |
| Strings.FirstFieldOfSplit | cluster.py:69 | the text before the first `.` is `split(".")[0]` |
| Strings.RemoveAllAbsent | irsa_autoscaler.py:64-65 | `replace(pat, "")` leaves text without the pattern unchanged |
| Strings.RemoveAllPrefix | irsa_autoscaler.py:64-65 | `replace(pat, "")` drops a leading occurrence and continues on the rest |
| Strings.NatToString | config.py:31 | `str(n)` is a non-empty string of ASCII digits with no leading zero |
| Strings.DecimalOfNatToString | config.py:31 | reading the decimal text of `n` gives `n` back |
| Strings.NatToStringInjective | config.py:31 | distinct numbers have distinct decimal texts |
| Base64.Utf8EncodeAscii | cluster.py:81 | `encode()` of ASCII text is one byte per character, its code |
| Base64.Utf8Encode | cluster.py:81 | `encode()` gives between one and four bytes per character; for ASCII text see `Utf8EncodeAscii` |
| Base64.EncodeLength | cluster.py:81 | `b64encode` yields four characters per started group of three bytes |
| Base64.EncodeUsesAlphabet | cluster.py:81 | every character of an encoding is from the alphabet or is `=` |
| Base64.DecodeEncode | cluster.py:81 | decoding an encoding gives back the bytes encoded |
| Base64.EncodeNonEmpty | cluster.py:81 | a non-empty payload never encodes to the falsy empty string |
| Base64.Encode | cluster.py:81 | `b64encode` yields a multiple of four characters, and a non-empty text for a non-empty payload; its length, alphabet and round trip are stated by `EncodeLength`, `EncodeUsesAlphabet` and `DecodeEncode` |
| Ipv4.ParseNetwork | network.py:38 | `ip_network(text)` in strict mode yields only aligned networks inside the address space |
| Ipv4.ParseFormat | network.py:38 | parsing `str(net)` of a valid network gives the same network |
| Ipv4.FormatInjective | network.py:64 | distinct valid networks print to distinct CIDR texts |
| Ipv4.Format | network.py:64 | `Format`: see `ParseFormat` (it reads back as the same network) and `FormatInjective` (distinct networks print differently) |
| Ipv4.SubnetInside | network.py:50 | each `subnets(new_prefix=p)` block has prefix `p`, is aligned, and lies inside the network |
| Ipv4.SubnetsOrdered | network.py:50 | a later block starts no earlier than an earlier one ends, so blocks are disjoint |
| Ipv4.SubnetsAdjacent | network.py:50 | each block starts where the previous one ends |
| Ipv4.SubnetsCover | network.py:50 | the first block starts at the network's base and the last ends at its end |
| Ipv4.SubnetsTile | network.py:50 | the blocks tile the network: valid, inside, ascending, adjacent, pairwise disjoint, covering |
| Ipv4.Subnets | network.py:50-54 | `subnets(new_prefix=p)` yields 2^(p-len) blocks; their shape is stated by `SubnetsTile` |
| Network.CoreResources | network.py:7-29 | the VPC, gateway and route table: the gateway and table belong to the VPC, the one route is `0.0.0.0/0` through the gateway, and the VPC's name tag is written over the base tags |
| Network.VpcNetwork | network.py:37-45 | the CIDR is accepted exactly when it parses as an IPv4 network; host bits or other bad text give the invalid-CIDR error, and the IPv4-only error comes exactly for text the IPv6 parser accepts |
| Network.VpcNetworkFormat | network.py:37-40 | any printed valid network is accepted as that network |
| Network.HostBitsRejected | network.py:37-40 | host bits below the prefix give the invalid-CIDR error, never the IPv4-only error |
| Network.SubnetBlocksShape | network.py:42-54 | prefix below 24: 2^(24-p) blocks of /24; 24 to 27: two blocks of /(p+1); 28 or more: the VPC itself; always non-empty, valid, inside, ascending and disjoint |
| Network.SubnetBlocks | network.py:42-54 | `SubnetBlocks`: see `SubnetBlocksShape` |
| Network.SubnetCount | network.py:56-60 | the subnet count is at most 3, the zone count and the block count, and equals one of them |
| Network.VpcWarnings | network.py:32-60 | the few-zones warning appears exactly when fewer than 3 zones exist; the few-blocks warning appears exactly when the CIDR yields fewer blocks than min(3, zones), and it names that wanted count and the blocks got |
| Network.SubnetTagsValues | network.py:71-77 | subnet tags are the base tags plus the name, cluster-ownership and two ELB role tags, which win over base keys |
| Network.SubnetTags | network.py:71-77 | `SubnetTags`: see `SubnetTagsValues` |
| Network.SubnetFor | network.py:64-78 | `SubnetFor`: see `SubnetPlanSound` (zone, CIDR text) and `SubnetTagsValues` (tags) |
| Network.PlanCidrs | network.py:62-64 | one CIDR text per planned subnet, min(3, zones, blocks) of them; see `SubnetPlanSound` for what they read back as |
| Network.SubnetPlan | network.py:62-79 | `SubnetPlan`: see `SubnetPlanSound` and `SubnetPlanNonEmpty` |
| Network.CreateVpc | network.py:6-84 | the VPC, gateway and table come first; the subnets fail exactly when the CIDR is rejected; otherwise they are the subnet plan, with one id per subnet, in order, and the warnings logged |
| Network.LaySubnets | network.py:62-82 | the loop gives the k-th zone a subnet over the k-th block's CIDR text and appends that subnet's id, for every k below the count |
| Network.SubnetPlanSound | network.py:56-82 | the plan has min(3, zones, blocks) subnets; the i-th sits in the i-th zone; its CIDR text reads back as the i-th block, inside the VPC and disjoint from the others |
| Network.SubnetPlanNonEmpty | network.py:46-60 | with at least one zone, a valid VPC always yields a subnet |
| Network.CreateSecurityGroups | network.py:87-169 | the two groups carry their fixed names and descriptions; the node group has no inline ingress; control-plane ingress is TCP 443 from the node group, plus the trusted CIDRs only when there are any; both groups allow all egress; exactly the four node rules, self-all then the kubelet, NodePort and ephemeral rules under their names |
| Network.ControlPlaneAccess | network.py:101-114 | the control plane admits the node group exactly on 443, and a CIDR exactly on 443 when it is trusted; an empty trusted list opens nothing |
| Network.NodeAccess | network.py:129-167 | nodes admit everything from each other, and from the control plane exactly TCP 10250, 30000-32767 and 1025-65535 |
| Settings.TextOr | config.py:13 | `value or default` keeps a non-empty text and otherwise takes the default |
| Settings.ListOr | config.py:68 | `value or default` keeps a non-empty list and otherwise takes the default |
| Settings.BoolOr | config.py:9-11 | `get_bool` takes the default only for a missing value |
| Settings.NormalizeEntry | config.py:28-54 | an entry fails, with its index, exactly when it is not an object, lacks an instance type or lacks a capacity, and with that error, in that order of checks; otherwise it has the defaulted name, architecture, family and labels, the given capacities, and nothing else |
| Settings.NormalizeNodeGroups | config.py:27-55 | the normaliser succeeds exactly when every entry does, keeps length and order, and otherwise reports the first failing entry's error |
| Settings.Defaults | config.py:61-94 | the loaded configuration carries the normalised node groups and the given `max_azs` unchanged |
| Settings.LoadedConfig | config.py:23-94 | a loadable configuration has one normalised entry per raw entry, in order, under the defaults |
| Settings.LoadConfig | config.py:5-94 | it loads exactly when the list is non-empty, every entry normalises and `max_azs` is unset or positive, and then yields the defaults over the normalised entries; a missing, empty or non-list `node_groups` fails first; otherwise the first bad entry's error, with its index; the `max_azs` error comes exactly when everything else is fine |
| Settings.DeletionProtectionDefault | config.py:15-21 | unset deletion protection means "on exactly in prod"; an explicit value is kept |
| Settings.FalsyValues | config.py:65-71 | `or` replaces falsy values (a retention of 0 becomes 30, an empty cluster name the default) while `get_bool` keeps an explicit `False` |
| Settings.DefaultAccessModes | config.py:70-71 | the defaults give private access only, which satisfies the access-mode rule |
| Settings.DefaultNames | config.py:31-41 | an unnamed entry is named after its index; a named one keeps its name; the architecture is the given one or `x86_64` |
| Settings.DefaultNamesDistinct | config.py:31 | two unnamed entries never get the same default name |
| Cluster.BuildBaseTags | cluster.py:8-17 | the seven base tag keys, with `ManagedBy=Pulumi` and the cluster name |
| Cluster.AmiQueryFor | cluster.py:22-37 | the architecture is checked before the family; al2 and bottlerocket each get their owner, name pattern and an architecture filter |
| Cluster.GetAmiForGroup | cluster.py:19-41 | a truthy user AMI is returned unchecked; otherwise the lookup's id when it is truthy, else the lookup error; a success is never empty |
| Cluster.AmiErrorOrder | cluster.py:20-40 | the unsupported-architecture error wins over the family error; the family error comes exactly for a supported architecture and an unknown family; a failed lookup only for a valid query |
| Cluster.InstanceFamily | cluster.py:69 | the family is the longest dot-free prefix of the instance type |
| Cluster.IsArmSimplified | cluster.py:70-71 | a family is ARM exactly when it is `a1` or ends in `g`; the `g5`/`g4dn` exclusion never applies |
| Cluster.IsArm | cluster.py:70-71 | `IsArm`: see `IsArmSimplified` and the four family examples below |
| Cluster.ValidateInstanceTypeArchPair | cluster.py:68-75 | the pair is refused exactly when arm64 meets a non-ARM family (with the not-ARM error) or x86_64 meets an ARM family (with the is-ARM error) |
| Cluster.FamilyOf | cluster.py:69 | the family of `<family>.<size>` is `<family>` |
| Cluster.G5IsNotArm | cluster.py:70-75 | `g5.xlarge` is accepted on x86_64 |
| Cluster.G4dnIsNotArm | cluster.py:70-75 | `g4dn.xlarge` is refused on arm64 |
| Cluster.M6gIsArm | cluster.py:70-75 | `m6g.large` is refused on x86_64 |
| Cluster.A1IsArm | cluster.py:70-75 | `a1.medium` is accepted on arm64 |
| Cluster.OtherArchitecturesAccepted | cluster.py:72-75 | an architecture other than the two is never refused |
| Cluster.CreateLaunchTemplate | cluster.py:77-95 | user data exactly for a user-supplied al2 image, as the canonical base64 text of the UTF-8 bootstrap script, which decodes back to it; the image id only when not empty; the key only when truthy; the instance name tag over the base tags |
| Cluster.BootstrapScript | cluster.py:80 | `BootstrapScript`: see `CreateLaunchTemplate` (the user data decodes back to its UTF-8 bytes) |
| Cluster.EncodeUserData | cluster.py:81 | `EncodeUserData`: see `CreateLaunchTemplate` and `Base64.DecodeEncode` |
| Cluster.TemplateFor | cluster.py:77-95 | `TemplateFor`: see `CreateLaunchTemplate`, which states each of its fields |
| Cluster.CreateKmsKey | cluster.py:43-58 | a key and alias exactly when encryption is on; the key carries the `EKS secrets encryption (<cluster>)` description, a 7-day deletion window, rotation on and the base tags; the alias targets the key and is named after the cluster |
| Cluster.CreateClusterLogGroup | cluster.py:60-66 | the log group path and retention follow the configuration |
| Cluster.CreateEksCluster | cluster.py:97-123 | it fails exactly when both endpoints are off; on success the cluster carries the given role, the configured version, log types and deletion protection; secrets are encrypted exactly when a key is given; public CIDRs are sent exactly with public access; it waits on the log group when there is one |
| Cluster.MissingAzs | cluster.py:139 | the missing zones are exactly the requested zones absent from the map |
| Cluster.ResolveSubnets | cluster.py:136-144 | the group's own subnet ids win, then its zones mapped in order (failing, with every unknown zone listed, exactly when one is unknown), then the cluster-wide subnets |
| Cluster.CreateNodeGroup | cluster.py:125-182 | a subnet error propagates; capacities out of order then fail; a planned group has the configured capacities (so ordered), the resolved subnets, the node role, the cluster's name, the instance type, forced labels and tags, the taints exactly when given, the latest template, and waits on the cluster |
| Cluster.NodeGroupFor | cluster.py:155-182 | `NodeGroupFor`: see `CreateNodeGroup`, which states each of its fields |
| Cluster.NodeGroupLabelsValues | cluster.py:155 | `node-group` is the group's name whatever the user wrote; every other label is kept |
| Cluster.NodeGroupLabels | cluster.py:155 | `NodeGroupLabels`: see `NodeGroupLabelsValues` |
| Cluster.NodeGroupTagsValues | cluster.py:156-161 | node-group tags are the base tags plus the name and both discovery tags; a cluster named `enabled` merges the two discovery keys and `owned` wins |
| Cluster.NodeGroupTags | cluster.py:156-161 | `NodeGroupTags`: see `NodeGroupTagsValues` |
| Cluster.NodeGroupPlanned | cluster.py:143-146 | with no subnet choice, the group uses the cluster-wide subnets and fails only on the capacity order |
| Cluster.BuildKubeconfig | cluster.py:184-214 | one cluster, with the given endpoint and certificate-authority data, one context and one user, with the current context `aws` naming them; the user runs `aws eks get-token --cluster-name` for the same cluster |
| Cluster.CreateKubeProvider | cluster.py:230-234 | the provider's kubeconfig is exactly the kubeconfig built for this cluster's endpoint, CA data and name |
| Cluster.AddonFor | cluster.py:220-227 | the add-on version is set only when it is not empty |
| Cluster.CreateManagedAddons | cluster.py:216-228 | nothing when disabled; otherwise one add-on per entry, in order |
| Cluster.AddonsShape | cluster.py:220-228 | each add-on overwrites conflicts, waits on the cluster, and drops an empty version |
| Irsa.SetupOidc | irsa_autoscaler.py:6-16 | the provider trusts the issuer with the given thumbprint, lists STS as its only client, and depends on the cluster alone |
| Irsa.IssuerHostPath | irsa_autoscaler.py:64-65 | removing `https://` never lengthens the URL |
| Irsa.IssuerHostPathOfUrl | irsa_autoscaler.py:64-65 | `https://<host/path>` yields exactly `<host/path>` |
| Irsa.ClaimKeysDiffer | irsa_autoscaler.py:63-66 | the `sub` and `aud` condition keys are two distinct keys |
| Irsa.AutoscalerTrustPolicy | irsa_autoscaler.py:53-72 | one Allow statement, for web-identity assumption, federated to the provider, with exactly the `sub` and `aud` keys |
| Irsa.TrustAdmitsOnlyAutoscaler | irsa_autoscaler.py:58-67 | the role admits a token exactly when it comes from the provider, for the autoscaler's service account, with the STS audience |
| Irsa.AudienceIsClientId | irsa_autoscaler.py:11-65 | the demanded audience is the provider's sole client id |
| Irsa.SetupAutoscaler | irsa_autoscaler.py:19-112 | nothing exactly when there are no node groups; otherwise the policy, the role trusted by the provider, their attachment, and the chart annotated with the role, discovering the cluster and waiting on every node group |
| Irsa.AutoscalerWiring | irsa_autoscaler.py:51-112 | the chart creates the service account that the role's `sub` names, in the namespace it names, annotated with that role, and the role accepts its token |
| Irsa.ServiceAccountSubject | irsa_autoscaler.py:64 | `ServiceAccountSubject`: see `TrustAdmitsOnlyAutoscaler` and `AutoscalerWiring` (the `sub` names the chart's service account) |
| EksLegacy.LegacyAmiQuery | eks.py:24-48 | the older lookup checks the architecture first; bottlerocket is matched by name alone, with `aarch64` for arm64 |
| EksLegacy.Al2QueriesAgree | eks.py:33-38 | for al2 the older lookup is the cluster planner's |
| EksLegacy.BottlerocketQueriesDiffer | eks.py:39-46 | for bottlerocket the older lookup has no architecture filter and names `aarch64` for arm64 |
| EksLegacy.GetAmi | eks.py:19-51 | a truthy AMI id wins; otherwise the lookup's id is returned as found, without an emptiness check |
| EksLegacy.EmptyLookupAccepted | eks.py:50-51 | an empty lookup id passes the older resolver but fails the cluster planner's |
| EksLegacy.CreateLaunchTemplate | eks.py:67-89 | user data whenever a custom AMI is used, whatever its family, as the canonical base64 text of the script, which decodes back to it; the image id only when not empty |
| EksLegacy.LegacyBootstrapScript | eks.py:72-74 | `LegacyBootstrapScript`: see `EksLegacy.CreateLaunchTemplate` (the user data decodes back to its UTF-8 bytes) |
| EksLegacy.CreateEksCluster | eks.py:91-115 | it fails exactly when both endpoints are off; encryption exactly with a key; public CIDRs exactly with public access |
| EksLegacy.ClusterAgreesWithoutLogGroup | eks.py:91-115 | the older control plane is the newer one planned without a log group |
| EksLegacy.CreateNodeGroup | eks.py:117-142 | it fails exactly when capacities are out of order; a planned group has one fixed logical name, the configured names, capacities, instance type and role, the given subnets, the latest template, and waits on the cluster |
| EksLegacy.TagsDifferOnlyInName | eks.py:135-140 | the older node-group tags are the newer ones with `Name` fixed to `eks-node-group` |
| EksLegacy.LegacyAddonFor | eks.py:184-189 | the version is passed on as given, empty or absent included |
| EksLegacy.CreateManagedAddons | eks.py:180-189 | nothing when disabled; otherwise one add-on per entry, in order |
| EksLegacy.AddonsCompared | eks.py:183-189 | the two add-on planners agree apart from the dependency, except on an empty version, which only the older one sends |
| Deploy.MainSpec | __main__.py:63-82 | the program passes no subnet choice and no taints to the node-group planner |
| Deploy.GroupFailureMeans | __main__.py:49-82 | a group gets through exactly when its pair is valid, its image resolves and its capacities are ordered |
| Deploy.GroupFailure | __main__.py:49-82 | `GroupFailure`: see `GroupFailureMeans` and `PlanGroup` |
| Deploy.PlanGroup | __main__.py:43-83 | one iteration: it validates, resolves, then plans the template and the group, stopping at the first error with that error; a step is recorded only once it succeeds, so an architecture error records nothing, an image error only the validation, and a capacity error the validation, the image and the template; on success the template has the resolved image, the node security group, the key pair only when set, the `<cluster>-<group>-node` instance tag specification and the canonical base64 bootstrap text exactly for a user-supplied al2 image, and the group is the one the cluster planner builds from the program's labels and the cluster-wide subnets |
| Deploy.AllSucceedMeans | __main__.py:42-83 | every group gets through exactly when each one does |
| Deploy.AllPlannedMeans | __main__.py:42-83 | the run of planned groups matches the configuration position by position |
| Deploy.FailureStopsRun | __main__.py:42-83 | one failing group makes the whole run fail |
| Deploy.ExtendSucceed | __main__.py:42-83 | one more group that gets through extends the run that succeeds |
| Deploy.ExtendPlanned | __main__.py:52-83 | appending one planned template and group extends the planned run |
| Deploy.ExtendSteps | __main__.py:42-83 | one more group appends its four steps |
| Deploy.PlanNodeGroups | __main__.py:41-83 | the loop succeeds exactly when every group does, keeping configuration order; otherwise it fails with the first failing group's error, after the earlier groups' steps |
| Deploy.MainLabelsAsUpdates | __main__.py:70-75 | the labels reaching the node group are the user's with `arch`, `ami-family` and `node-group` written over them |
| Deploy.MainLabelsValues | __main__.py:70-75 | those labels have the user's keys plus the three, with the program's values, and keep every other user label |
| Deploy.MainLabels | __main__.py:70-75 | `MainLabels`: see `MainLabelsAsUpdates` and `MainLabelsValues` |
| Deploy.SetUpOptionalAddons | __main__.py:87-95 | each Helm add-on is set up exactly when its flag is on and a primary group exists, independently, each at most once and in the program's order EFS, EBS, ingress, Prometheus |
| Deploy.LateAccessCheck | __main__.py:101-102 | the late check fails exactly when public access is off and private access is explicitly off |
| Deploy.LateCheckUnreachable | __main__.py:101-102 | a planned cluster always passes the late check |
| Deploy.SummaryGroups | __main__.py:122-128 | one `(name, arn)` entry per created node group, in order |
| Deploy.GroupNames | __main__.py:99 | the autoscaler receives every created node group, in order |
| Deploy.PreClusterSteps | __main__.py:27-36 | the steps before the cluster do not plan it |
| Deploy.ControlPlaneSteps | __main__.py:27-39 | the control-plane phase plans the cluster |
| Deploy.PlanNetwork | __main__.py:27-33 | the network phase fails exactly when the VPC CIDR is rejected, with that error; otherwise the VPC, the subnet plan with its ids, the degraded-topology warnings, both security groups in the VPC with their tags, ingress and egress, and the four-rule node table |
| Deploy.PlanControlPlane | __main__.py:27-39 | the phase succeeds exactly when the CIDR is accepted and an endpoint is on; a bad CIDR stops it after the VPC; no endpoint stops it after the log group; success plans, in order, the network as `PlanNetwork` states it (warnings and rule table included), the key, the log group, the cluster over the subnet ids and the control-plane group, and the Kubernetes provider |
| Deploy.PlanExtras | __main__.py:85-99 | the managed add-ons, one per configured entry in order, each as the cluster planner builds it; the primary group is the first or none; add-on gating; the OIDC provider always; the autoscaler exactly with node groups, waiting on all of them |
| Deploy.DeployFrom | __main__.py:23-130 | from a loaded configuration the run succeeds exactly when the CIDR is accepted, an endpoint is on and every node group gets through; a success holds the control plane, every template and group, the managed add-ons, the gated Helm add-ons in set-up order, the OIDC provider, the autoscaler, the kubeconfig and the full exported summary, with the steps in program order; a node-group failure comes after the cluster is planned |
| Deploy.Provision | __main__.py:22-130 | the whole program: a configuration error comes exactly when the raw configuration does not load, and takes no step; a loadable configuration succeeds exactly when its CIDR (default `10.100.0.0/16`) is accepted, an endpoint is on (defaults: public off, private on) and every normalised node group gets through; a success plans for the loaded configuration exactly what `DeployFrom` plans, has at least one node group, so a primary group and an autoscaler; the late check never fails |
| Deploy.SummaryFollowsConfig | __main__.py:122-128 | the exported node-group list names each configured group, in configuration order, with its group's ARN |
| Deploy.SummaryOf | __main__.py:107-129 | `SummaryOf`: see `DeployFrom`, `SummaryGroups` and `SummaryFollowsConfig` |

## Left out

- `addons.py` (the EFS, EBS, ingress and Prometheus Helm charts and the EFS mount targets) is not part of this model. Its set-up calls are modelled as steps, `Deploy.AddonSetUp`.
- `iam.py` (constant roles and policy attachments) is not part of this model. The two role ARNs are parameters.
- External context becomes parameters: the image catalog (an uninterpreted lookup), the availability zones, and the stack and project names. So do the cluster's endpoint, certificate data and OIDC issuer, which the source reads asynchronously.
- The IPv6 parser is a parameter of `Network.VpcNetwork`. Only whether it accepts the text matters.
- `json.dumps` is left out. The kubeconfig and the policy documents are records, not serialised text.
- `pulumi.log.warn` is modelled as a list of `Network.Warning` values. Nothing is printed.
- The resource engine is left out: registration, realisation and dependency ordering. Dependencies are `dependsOn` name lists.
- `eks.py`'s `build_base_tags`, `create_kms_key`, `build_kubeconfig` and `create_kube_provider` are not modelled separately. The first, third and fourth repeat `cluster.py`'s; the key differs only in its logical names and description.
- Taint, label and capacity values are taken as already typed. The configuration reader's type coercions are left out.
- The OIDC thumbprint is carried as given. TLS verification is left out.
- Settings.Defaults: states only that the node groups and `max_azs` pass through unchanged. The other defaults are stated by `Settings.DeletionProtectionDefault`, `Settings.FalsyValues` and `Settings.DefaultAccessModes`.
- Deploy.PreClusterSteps: states only that the cluster is not among these steps. The full list is fixed by `Deploy.PlanControlPlane`.
