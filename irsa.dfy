/**
 * IAM roles for service accounts (irsa_autoscaler.py): the cluster's OIDC
 * identity provider and the cluster-autoscaler, whose role may only be
 * assumed with a web-identity token whose `sub` and `aud` claims (sections
 * 4.1.2 and 4.1.3 of RFC 7519) name the autoscaler's service account and the
 * STS audience.
 */
module Irsa {
  import opened Wrappers
  import opened Strings
  import opened Resources

  /** The audience STS expects in a web-identity token. */
  const StsAudience := "sts.amazonaws.com"

  const AutoscalerNamespace := "kube-system"
  const AutoscalerServiceAccount := "cluster-autoscaler"
  const AssumeAction := "sts:AssumeRoleWithWebIdentity"

  datatype OidcProvider = OidcProvider(
    logicalName: string,
    clientIdList: seq<string>,
    thumbprintList: seq<string>,
    url: string,
    dependsOn: seq<string>)

  /**
   * `setup_oidc`: the provider trusts the cluster's issuer (taken as an
   * already-resolved value) and registers STS as its only client.
   */
  function SetupOidc(clusterLogicalName: string, issuer: string, thumbprint: string): (p: OidcProvider)
    ensures p.clientIdList == [StsAudience] && p.thumbprintList == [thumbprint]
    ensures p.url == issuer && p.dependsOn == [clusterLogicalName]
  {
    OidcProvider("oidc-provider", [StsAudience], [thumbprint], issuer, [clusterLogicalName])
  }

  /** The issuer host and path: the URL with every `https://` removed. */
  function IssuerHostPath(url: string): (hostPath: string)
    ensures |hostPath| <= |url|
  {
    RemoveAll(url, "https://")
  }

  /** An issuer URL `https://<host/path>` whose rest has no further `https://` yields exactly the host and path. */
  lemma IssuerHostPathOfUrl(hostPath: string)
    requires !Contains(hostPath, "https://")
    ensures IssuerHostPath("https://" + hostPath) == hostPath
  {
    RemoveAllPrefix("https://", hostPath);
    RemoveAllAbsent(hostPath, "https://");
  }

  /** The `sub` claim Kubernetes puts in a service account's token. */
  function ServiceAccountSubject(namespace: string, name: string): string {
    "system:serviceaccount:" + namespace + ":" + name
  }

  /** The trust statement: who may assume the role and under which claims. */
  datatype TrustStatement = TrustStatement(effect: string, federated: Ref, action: string, stringEquals: map<string, string>)

  datatype TrustPolicy = TrustPolicy(version: string, statements: seq<TrustStatement>)

  function SubKey(hostPath: string): string {
    hostPath + ":sub"
  }

  function AudKey(hostPath: string): string {
    hostPath + ":aud"
  }

  lemma ClaimKeysDiffer(hostPath: string)
    ensures SubKey(hostPath) != AudKey(hostPath)
  {
    assert SubKey(hostPath)[|hostPath| + 1] == 's';
    assert AudKey(hostPath)[|hostPath| + 1] == 'a';
  }

  /** The assume-role policy of the autoscaler's role, for the provider's URL and ARN. */
  function AutoscalerTrustPolicy(url: string, providerArn: Ref): (doc: TrustPolicy)
    ensures |doc.statements| == 1
    ensures var st := doc.statements[0];
      && st.effect == "Allow" && st.federated == providerArn && st.action == AssumeAction
      && st.stringEquals.Keys == {SubKey(IssuerHostPath(url)), AudKey(IssuerHostPath(url))}
  {
    var hostPath := IssuerHostPath(url);
    TrustPolicy("2012-10-17", [TrustStatement(
      "Allow", providerArn, AssumeAction,
      map[SubKey(hostPath) := ServiceAccountSubject(AutoscalerNamespace, AutoscalerServiceAccount),
          AudKey(hostPath) := StsAudience])])
  }

  /**
   * How STS reads the policy for a token from the provider `provider`
   * whose issuer host-path is `hostPath`: some Allow statement for the
   * web-identity action names the provider, and each of its `StringEquals`
   * keys is `<hostPath>:sub` or `<hostPath>:aud` and equals the matching
   * claim.
   */
  predicate TokenAccepted(doc: TrustPolicy, provider: Ref, hostPath: string, sub: string, aud: string) {
    exists i :: 0 <= i < |doc.statements| && StatementAccepts(doc.statements[i], provider, hostPath, sub, aud)
  }

  predicate StatementAccepts(st: TrustStatement, provider: Ref, hostPath: string, sub: string, aud: string) {
    && st.effect == "Allow" && st.action == AssumeAction && st.federated == provider
    && forall k :: k in st.stringEquals ==>
        (k == SubKey(hostPath) && st.stringEquals[k] == sub) || (k == AudKey(hostPath) && st.stringEquals[k] == aud)
  }

  /**
   * The role admits exactly the autoscaler's service account with the STS
   * audience, and only tokens from its own provider.
   */
  lemma TrustAdmitsOnlyAutoscaler(url: string, providerArn: Ref, provider: Ref, sub: string, aud: string)
    ensures TokenAccepted(AutoscalerTrustPolicy(url, providerArn), provider, IssuerHostPath(url), sub, aud)
      <==> provider == providerArn
           && sub == ServiceAccountSubject(AutoscalerNamespace, AutoscalerServiceAccount)
           && aud == StsAudience
  {
    var hostPath := IssuerHostPath(url);
    var doc := AutoscalerTrustPolicy(url, providerArn);
    var st := doc.statements[0];
    ClaimKeysDiffer(hostPath);
    if TokenAccepted(doc, provider, hostPath, sub, aud) {
      assert StatementAccepts(st, provider, hostPath, sub, aud);
      assert SubKey(hostPath) in st.stringEquals && AudKey(hostPath) in st.stringEquals;
    }
    if provider == providerArn && sub == ServiceAccountSubject(AutoscalerNamespace, AutoscalerServiceAccount) && aud == StsAudience {
      assert StatementAccepts(st, provider, hostPath, sub, aud);
    }
  }

  /** The audience the role demands is the sole client id registered on the provider. */
  lemma AudienceIsClientId(clusterLogicalName: string, issuer: string, thumbprint: string, providerArn: Ref)
    ensures var p := SetupOidc(clusterLogicalName, issuer, thumbprint);
      var st := AutoscalerTrustPolicy(p.url, providerArn).statements[0];
      |p.clientIdList| == 1 && st.stringEquals[AudKey(IssuerHostPath(p.url))] == p.clientIdList[0]
  {
    ClaimKeysDiffer(IssuerHostPath(issuer));
  }

  // ---------------------------------------------------------------------
  // The autoscaler
  // ---------------------------------------------------------------------

  datatype PermissionStatement = PermissionStatement(effect: string, actions: seq<string>, resource: string)

  datatype PermissionPolicy = PermissionPolicy(version: string, statements: seq<PermissionStatement>)

  datatype IamPolicy = IamPolicy(logicalName: string, document: PermissionPolicy, tags: Tags)

  datatype IamRole = IamRole(logicalName: string, assumeRolePolicy: TrustPolicy, tags: Tags)

  datatype RolePolicyAttachment = RolePolicyAttachment(logicalName: string, role: Ref, policyArn: Ref)

  /** The Helm values of the autoscaler chart. */
  datatype ChartValues = ChartValues(
    cloudProvider: string,
    autoDiscoveryClusterName: string,
    awsRegion: string,
    createServiceAccount: bool,
    serviceAccountName: string,
    serviceAccountAnnotations: map<string, Ref>,
    extraArgs: map<string, string>,
    podAnnotations: map<string, string>)

  datatype HelmChart = HelmChart(
    logicalName: string,
    chart: string,
    version: string,
    repo: string,
    namespace: string,
    values: ChartValues,
    provider: string,
    dependsOn: seq<string>)

  datatype AutoscalerPlan = AutoscalerPlan(
    policy: IamPolicy,
    role: IamRole,
    attachment: RolePolicyAttachment,
    chart: HelmChart)

  const RoleArnAnnotation := "eks.amazonaws.com/role-arn"

  const AutoscalerActions: seq<string> := [
    "autoscaling:DescribeAutoScalingGroups",
    "autoscaling:DescribeAutoScalingInstances",
    "autoscaling:DescribeLaunchConfigurations",
    "autoscaling:DescribeTags",
    "autoscaling:SetDesiredCapacity",
    "autoscaling:TerminateInstanceInAutoScalingGroup",
    "autoscaling:DescribeScalingActivities",
    "autoscaling:DescribeScheduledActions",
    "ec2:DescribeLaunchTemplateVersions",
    "ec2:DescribeInstanceTypes",
    "eks:DescribeCluster",
    "eks:DescribeNodegroup"]

  /**
   * `setup_autoscaler`: nothing without node groups; otherwise the policy,
   * the IRSA role, their attachment and the chart, whose service account is
   * annotated with the role and which waits for every node group.
   */
  function SetupAutoscaler(
    chartVersion: string, oidc: OidcProvider, kubeProvider: string, nodeGroups: seq<string>,
    clusterName: string, region: string, baseTags: Tags)
    : (r: Option<AutoscalerPlan>)
    ensures r.None? <==> nodeGroups == []
    ensures r.Some? ==> var plan := r.value;
      && plan.role.assumeRolePolicy == AutoscalerTrustPolicy(oidc.url, Arn(oidc.logicalName))
      && plan.attachment.role == Ref(plan.role.logicalName, "name")
      && plan.attachment.policyArn == Arn(plan.policy.logicalName)
      && plan.chart.values.serviceAccountAnnotations == map[RoleArnAnnotation := Arn(plan.role.logicalName)]
      && plan.chart.values.autoDiscoveryClusterName == clusterName
      && plan.chart.values.awsRegion == region
      && plan.chart.version == chartVersion
      && plan.chart.provider == kubeProvider
      && plan.chart.dependsOn == nodeGroups
      && plan.policy.document.statements == [PermissionStatement("Allow", AutoscalerActions, "*")]
  {
    if nodeGroups == [] then None
    else
      var policy := IamPolicy("cluster-autoscaler-policy",
        PermissionPolicy("2012-10-17", [PermissionStatement("Allow", AutoscalerActions, "*")]), baseTags);
      var role := IamRole("cluster-autoscaler-role", AutoscalerTrustPolicy(oidc.url, Arn(oidc.logicalName)), baseTags);
      var attachment := RolePolicyAttachment("cluster-autoscaler-policy-attach", Ref(role.logicalName, "name"), Arn(policy.logicalName));
      var values := ChartValues(
        "aws", clusterName, region, true, AutoscalerServiceAccount,
        map[RoleArnAnnotation := Arn(role.logicalName)],
        map["skip-nodes-with-local-storage" := "false", "expander" := "least-waste", "balance-similar-node-groups" := "true"],
        map["cluster-autoscaler.kubernetes.io/safe-to-evict" := "false"]);
      var chart := HelmChart("cluster-autoscaler", "cluster-autoscaler", chartVersion, "https://kubernetes.github.io/autoscaler",
        AutoscalerNamespace, values, kubeProvider, nodeGroups);
      Some(AutoscalerPlan(policy, role, attachment, chart))
  }

  /**
   * The wiring closes: the chart creates the service account the role's
   * `sub` condition names, in the namespace it names, annotated with that
   * same role, and the role trusts the given provider.
   */
  lemma AutoscalerWiring(
    chartVersion: string, oidc: OidcProvider, kubeProvider: string, nodeGroups: seq<string>,
    clusterName: string, region: string, baseTags: Tags)
    requires nodeGroups != []
    ensures var plan := SetupAutoscaler(chartVersion, oidc, kubeProvider, nodeGroups, clusterName, region, baseTags).value;
      var st := plan.role.assumeRolePolicy.statements[0];
      && plan.chart.values.createServiceAccount
      && st.stringEquals[SubKey(IssuerHostPath(oidc.url))]
         == ServiceAccountSubject(plan.chart.namespace, plan.chart.values.serviceAccountName)
      && plan.chart.values.serviceAccountAnnotations[RoleArnAnnotation] == Arn(plan.role.logicalName)
      && st.federated == Arn(oidc.logicalName)
      && TokenAccepted(plan.role.assumeRolePolicy, Arn(oidc.logicalName), IssuerHostPath(oidc.url),
                       ServiceAccountSubject(plan.chart.namespace, plan.chart.values.serviceAccountName), StsAudience)
  {
    ClaimKeysDiffer(IssuerHostPath(oidc.url));
    TrustAdmitsOnlyAutoscaler(oidc.url, Arn(oidc.logicalName), Arn(oidc.logicalName),
      ServiceAccountSubject(AutoscalerNamespace, AutoscalerServiceAccount), StsAudience);
  }
}
