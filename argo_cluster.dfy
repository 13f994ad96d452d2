/**
 * The target side of the conversion: the Argo CD cluster record, the fixed
 * ownership labels, the naming policy, the mapping from a parsed CAPI
 * cluster, and the TLS field check (controllers/argo_cluster.go).
 */
module Argo {
  import Base64

  const OwnedLabel := "capi-to-argocd/owned"
  const SecretTypeLabel := "argocd.argoproj.io/secret-type"
  const SecretNameLabel := "capi-to-argocd/cluster-secret-name"
  const ClusterNamespaceLabel := "capi-to-argocd/cluster-namespace"
  const KubeconfigSuffix := "-kubeconfig"
  const ClusterPrefix := "cluster-"

  /**
   * The process-wide settings the Go code keeps in package variables:
   * EnableNamespacedNames, EnableGarbageCollection, ArgoNamespace,
   * ArgoEndpoint and authToken.
   */
  datatype Config = Config(
    enableNamespacedNames: bool,
    enableGarbageCollection: bool,
    argoNamespace: string,
    argoEndpoint: string,
    authToken: string)

  /** Kubernetes `types.NamespacedName`. */
  datatype NamespacedName = NamespacedName(namespace: string, name: string)

  /** Argo cluster `config.tlsClientConfig`. */
  datatype ArgoTLS = ArgoTLS(caData: string, certData: string, keyData: string)

  /** Argo cluster `config`. */
  datatype ArgoConfig = ArgoConfig(tlsClientConfig: ArgoTLS)

  /** One Argo CD cluster registration, as sent to and listed by the registry. */
  datatype ArgoCluster = ArgoCluster(
    namespacedName: NamespacedName,
    clusterName: string,
    clusterServer: string,
    clusterLabels: map<string, string>,
    clusterConfig: ArgoConfig)

  /** The registry's listing, `{"items": [...]}`. */
  datatype ClusterList = ClusterList(clusters: seq<ArgoCluster>)

  /**
   * The parsed CAPI cluster the controller reads: its name and namespace and
   * the clusters and users of its kubeconfig. Its parser (`NewCapiCluster`,
   * `CapiCluster.Unmarshal`) is not part of this model.
   */
  datatype KubeConfigCluster = KubeConfigCluster(name: string, server: string, caData: string)
  datatype KubeConfigUser = KubeConfigUser(certData: string, keyData: string)
  datatype KubeConfig = KubeConfig(clusters: seq<KubeConfigCluster>, users: seq<KubeConfigUser>)
  datatype CapiCluster = CapiCluster(name: string, namespace: string, kubeConfig: KubeConfig)

  /** Go's `m[k]` on a `map[string]string`: the empty string for a missing key. */
  function LabelValue(labels: map<string, string>, key: string): (v: string)
    ensures key in labels ==> v == labels[key]
    ensures key !in labels ==> v == ""
  {
    if key in labels then labels[key] else ""
  }

  /** The labels every reconciled registration must carry. */
  function ArgoCommonLabels(): (labels: map<string, string>)
    ensures labels.Keys == {OwnedLabel, SecretTypeLabel}
    ensures labels[OwnedLabel] == "true" && labels[SecretTypeLabel] == "cluster"
  {
    map[OwnedLabel := "true", SecretTypeLabel := "cluster"]
  }

  predicate HasSuffix(s: string, suffix: string) {
    |suffix| <= |s| && s[|s| - |suffix|..] == suffix
  }

  /** Go's `strings.TrimSuffix`: drops one trailing `suffix`, if there is one. */
  function TrimSuffix(s: string, suffix: string): (r: string)
    ensures HasSuffix(s, suffix) ==> r + suffix == s
    ensures !HasSuffix(s, suffix) ==> r == s
  {
    if HasSuffix(s, suffix) then s[..|s| - |suffix|] else s
  }

  /** The cluster name after the naming policy: optionally prefixed by the namespace. */
  function BuildClusterName(s: string, namespace: string, cfg: Config): (r: string)
    ensures !cfg.enableNamespacedNames ==> r == s
    ensures cfg.enableNamespacedNames ==> r == namespace + "-" + s
  {
    var prefix := if cfg.enableNamespacedNames then namespace + "-" else "";
    prefix + s
  }

  /** The object identifier of the registration derived from a secret's name and namespace. */
  function BuildNamespacedName(s: string, namespace: string, cfg: Config): (r: NamespacedName)
    ensures r.namespace == cfg.argoNamespace
    ensures r.name == ClusterPrefix + BuildClusterName(TrimSuffix(s, KubeconfigSuffix), namespace, cfg)
  {
    NamespacedName(cfg.argoNamespace, ClusterPrefix + BuildClusterName(TrimSuffix(s, KubeconfigSuffix), namespace, cfg))
  }

  /** The kubeconfig names a first cluster and a first user. */
  predicate HasPrimaryEntries(k: KubeConfig) {
    |k.clusters| > 0 && |k.users| > 0
  }

  /** The provenance labels `NewArgoCluster` attaches. */
  function ProvenanceLabels(c: CapiCluster): map<string, string> {
    map[SecretNameLabel := c.name + KubeconfigSuffix, ClusterNamespaceLabel := c.namespace]
  }

  /** The registration built from a parsed CAPI cluster and its secret's name and namespace. */
  function NewArgoCluster(c: CapiCluster, secretName: string, secretNamespace: string, cfg: Config): (a: ArgoCluster)
    requires HasPrimaryEntries(c.kubeConfig)
    ensures a.namespacedName == BuildNamespacedName(secretName, secretNamespace, cfg)
    ensures a.clusterName == BuildClusterName(c.kubeConfig.clusters[0].name, secretNamespace, cfg)
    ensures a.clusterServer == c.kubeConfig.clusters[0].server
    ensures a.clusterLabels.Keys == {SecretNameLabel, ClusterNamespaceLabel}
    ensures a.clusterLabels[SecretNameLabel] == c.name + KubeconfigSuffix
    ensures a.clusterLabels[ClusterNamespaceLabel] == c.namespace
    ensures a.clusterConfig.tlsClientConfig
      == ArgoTLS(c.kubeConfig.clusters[0].caData, c.kubeConfig.users[0].certData, c.kubeConfig.users[0].keyData)
  {
    var cluster := c.kubeConfig.clusters[0];
    var user := c.kubeConfig.users[0];
    ArgoCluster(
      BuildNamespacedName(secretName, secretNamespace, cfg),
      BuildClusterName(cluster.name, secretNamespace, cfg),
      cluster.server,
      ProvenanceLabels(c),
      ArgoConfig(ArgoTLS(cluster.caData, user.certData, user.keyData)))
  }

  /** Why `ValidateClusterTLSConfig` rejects a field. */
  datatype TlsError = MissingKey | CorruptInput

  /** A nil or non-nil `error` from the TLS check. */
  datatype Check = Pass | Fail(err: TlsError)

  /** A field the TLS check accepts: present and standard base64. */
  predicate UsableField(v: string) {
    v != "" && Base64.IsStdBase64(v)
  }

  /** The check of one field: emptiness first, then decoding. */
  function CheckField(v: string): (r: Check)
    ensures r.Pass? <==> UsableField(v)
    ensures r == Fail(MissingKey) <==> v == ""
  {
    if v == "" then Fail(MissingKey)
    else if !Base64.IsStdBase64(v) then Fail(CorruptInput)
    else Pass
  }

  /** The loop over the fields: the first field that fails decides the error. */
  function CheckFields(fields: seq<string>): (r: Check)
    ensures r.Pass? <==> forall i :: 0 <= i < |fields| ==> UsableField(fields[i])
    ensures r.Fail? ==> exists k :: 0 <= k < |fields| && !UsableField(fields[k]) && r == CheckField(fields[k])
                          && forall j :: 0 <= j < k ==> UsableField(fields[j])
  {
    if fields == [] then Pass
    else if CheckField(fields[0]).Fail? then CheckField(fields[0])
    else CheckFields(fields[1..])
  }

  /** `ValidateClusterTLSConfig`: CA, then certificate, then key. */
  function ValidateClusterTLSConfig(a: ArgoTLS): (r: Check)
    ensures r.Pass? <==> UsableField(a.caData) && UsableField(a.certData) && UsableField(a.keyData)
    ensures a.caData == "" ==> r == Fail(MissingKey)
    ensures a.caData != "" && !Base64.IsStdBase64(a.caData) ==> r == Fail(CorruptInput)
    ensures UsableField(a.caData) && a.certData == "" ==> r == Fail(MissingKey)
    ensures UsableField(a.caData) && a.certData != "" && !Base64.IsStdBase64(a.certData) ==> r == Fail(CorruptInput)
    ensures UsableField(a.caData) && UsableField(a.certData) && a.keyData == "" ==> r == Fail(MissingKey)
    ensures (UsableField(a.caData) && UsableField(a.certData) && a.keyData != "" && !Base64.IsStdBase64(a.keyData))
              ==> r == Fail(CorruptInput)
  {
    var fields := [a.caData, a.certData, a.keyData];
    assert fields[1..] == [a.certData, a.keyData];
    assert [a.certData, a.keyData][1..] == [a.keyData];
    assert [a.keyData][1..] == [];
    assert CheckFields([a.keyData]) == if CheckField(a.keyData).Fail? then CheckField(a.keyData) else Pass;
    assert CheckFields([a.certData, a.keyData])
      == if CheckField(a.certData).Fail? then CheckField(a.certData) else CheckFields([a.keyData]);
    assert CheckFields(fields)
      == if CheckField(a.caData).Fail? then CheckField(a.caData) else CheckFields([a.certData, a.keyData]);
    CheckFields(fields)
  }

  // Properties of the naming policy.

  /** Exactly one trailing `-kubeconfig` is removed, whatever precedes it. */
  lemma TrimSuffixStripsOnce(x: string)
    ensures TrimSuffix(x + KubeconfigSuffix, KubeconfigSuffix) == x
  {
    var s := x + KubeconfigSuffix;
    assert s[|s| - |KubeconfigSuffix|..] == KubeconfigSuffix;
    assert s[..|s| - |KubeconfigSuffix|] == x;
  }

  /** The identifier of the registration for the secret `x-kubeconfig`. */
  lemma NamespacedNameOfKubeconfigSecret(x: string, namespace: string, cfg: Config)
    ensures BuildNamespacedName(x + KubeconfigSuffix, namespace, cfg)
         == NamespacedName(cfg.argoNamespace,
                           if cfg.enableNamespacedNames then ClusterPrefix + namespace + "-" + x else ClusterPrefix + x)
  {
    TrimSuffixStripsOnce(x);
  }

  /** Within one namespace different names stay different, in both modes. */
  lemma BuildClusterNameInjective(s1: string, s2: string, namespace: string, cfg: Config)
    requires BuildClusterName(s1, namespace, cfg) == BuildClusterName(s2, namespace, cfg)
    ensures s1 == s2
  {
    var p := |BuildClusterName(s1, namespace, cfg)| - |s1|;
    assert s1 == BuildClusterName(s1, namespace, cfg)[p..];
    assert s2 == BuildClusterName(s2, namespace, cfg)[p..];
  }

  /**
   * With namespaced names on, two secrets in namespaces without a hyphen
   * get the same name only if both the namespace and the name agree.
   */
  lemma NamespacedNamesSeparateNamespaces(s1: string, ns1: string, s2: string, ns2: string, cfg: Config)
    requires cfg.enableNamespacedNames
    requires '-' !in ns1 && '-' !in ns2
    requires BuildClusterName(s1, ns1, cfg) == BuildClusterName(s2, ns2, cfg)
    ensures ns1 == ns2 && s1 == s2
  {
    var n := BuildClusterName(s1, ns1, cfg);
    assert n == ns1 + "-" + s1 && n == ns2 + "-" + s2;
    assert n[|ns1|] == '-' && n[|ns2|] == '-';
    assert ns1 == n[..|ns1|] == ns2;
    assert s1 == n[|ns1| + 1..] == s2;
  }

  /** With hyphenated namespaces the namespaced names can still collide. */
  lemma NamespacedNamesCanCollide(cfg: Config)
    requires cfg.enableNamespacedNames
    ensures BuildNamespacedName("b-c-kubeconfig", "a", cfg) == BuildNamespacedName("c-kubeconfig", "a-b", cfg)
  {
    assert "b-c" + KubeconfigSuffix == "b-c-kubeconfig";
    assert "c" + KubeconfigSuffix == "c-kubeconfig";
    NamespacedNameOfKubeconfigSecret("b-c", "a", cfg);
    NamespacedNameOfKubeconfigSecret("c", "a-b", cfg);
  }

  /** `TrimSuffix` on the literal secret names used below. */
  lemma TrimSuffixExamples()
    ensures TrimSuffix("test-XXX-kubeconfig", KubeconfigSuffix) == "test-XXX"
    ensures TrimSuffix("prod-kubeconfig", KubeconfigSuffix) == "prod"
    ensures TrimSuffix("capi-XXX", KubeconfigSuffix) == "capi-XXX"
  {
    assert "test-XXX-kubeconfig"[|"test-XXX-kubeconfig"| - |KubeconfigSuffix|..] == KubeconfigSuffix;
    assert |"test-XXX-kubeconfig"| - |KubeconfigSuffix| == 8;
    assert "test-XXX-kubeconfig"[..8] == "test-XXX";
    assert "prod-kubeconfig"[|"prod-kubeconfig"| - |KubeconfigSuffix|..] == KubeconfigSuffix;
    assert "prod-kubeconfig"[..|"prod-kubeconfig"| - |KubeconfigSuffix|] == "prod";
    assert |"capi-XXX"| < |KubeconfigSuffix|;
  }

  /** The cases of the naming test table with namespaced names off, and the secret `prod-kubeconfig` in `team-a`. */
  lemma BuildNamespacedNameExamplesPlain(cfg: Config)
    requires !cfg.enableNamespacedNames
    ensures BuildNamespacedName("test-XXX-kubeconfig", "test-ns", cfg) == NamespacedName(cfg.argoNamespace, "cluster-test-XXX")
    ensures BuildNamespacedName("capi-XXX", "test-ns", cfg) == NamespacedName(cfg.argoNamespace, "cluster-capi-XXX")
    ensures BuildNamespacedName("prod-kubeconfig", "team-a", cfg).name == "cluster-prod"
    ensures BuildClusterName("prod", "team-a", cfg) == "prod"
  {
    TrimSuffixExamples();
  }

  /** The namespaced case of the naming test table, and the secret `prod-kubeconfig` in `team-a`. */
  lemma BuildNamespacedNameExamplesNamespaced(cfg: Config)
    requires cfg.enableNamespacedNames
    ensures BuildNamespacedName("test-XXX-kubeconfig", "test-ns", cfg) == NamespacedName(cfg.argoNamespace, "cluster-test-ns-test-XXX")
    ensures BuildNamespacedName("prod-kubeconfig", "team-a", cfg).name == "cluster-team-a-prod"
    ensures BuildClusterName("prod", "team-a", cfg) == "team-a-prod"
  {
    TrimSuffixExamples();
  }

  /**
   * The controller names the parsed cluster after the secret without its
   * suffix; the provenance label then gives back the secret's own name.
   */
  lemma ProvenanceRecordsSecret(secretName: string, secretNamespace: string, k: KubeConfig, cfg: Config)
    requires HasPrimaryEntries(k) && HasSuffix(secretName, KubeconfigSuffix)
    ensures var a := NewArgoCluster(CapiCluster(TrimSuffix(secretName, KubeconfigSuffix), secretNamespace, k),
                                    secretName, secretNamespace, cfg);
      a.clusterLabels == map[SecretNameLabel := secretName, ClusterNamespaceLabel := secretNamespace]
  {
  }

  // Properties of the TLS check.

  /** The cases of the TLS test table. */
  lemma ValidateClusterTLSConfigExamples()
    ensures var enc := Base64.Encode([116, 101, 115, 116]);
      && ValidateClusterTLSConfig(ArgoTLS(enc, enc, enc)) == Pass
      && ValidateClusterTLSConfig(ArgoTLS("non-valid", enc, enc)) == Fail(CorruptInput)
      && ValidateClusterTLSConfig(ArgoTLS(enc, "", "")) == Fail(MissingKey)
      && ValidateClusterTLSConfig(ArgoTLS("", "", "")) == Fail(MissingKey)
  {
    var enc := Base64.Encode([116, 101, 115, 116]);
    Base64.EncodeIsStdBase64([116, 101, 115, 116]);
    Base64.EncodeTest();
    NonValidRejected();
  }

  lemma NonValidRejected()
    ensures !Base64.IsStdBase64("non-valid")
  {
    Base64.StripNewlinesNoop("non-valid");
    assert !Base64.IsAlphabet("non-valid"[3]);
  }

  /** Every field that is a standard encoding of some octets passes. */
  lemma EncodedTlsPasses(ca: seq<Base64.byte>, cert: seq<Base64.byte>, key: seq<Base64.byte>)
    requires ca != [] && cert != [] && key != []
    ensures ValidateClusterTLSConfig(ArgoTLS(Base64.Encode(ca), Base64.Encode(cert), Base64.Encode(key))) == Pass
  {
    Base64.EncodeIsStdBase64(ca);
    Base64.EncodeIsStdBase64(cert);
    Base64.EncodeIsStdBase64(key);
  }
}
