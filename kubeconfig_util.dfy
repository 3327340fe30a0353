/**
 * A kubeconfig built from a certificate secret
 * (internal/manifests/manifestutils/kubeconfig.go).
 */
module KubeconfigUtil {
  import opened Wrappers
  import opened Errors
  import opened Objects
  import opened Foreign

  const CAKey: string := "ca.crt"
  const CertKey: string := "tls.crt"
  const PrivateKeyKey: string := "tls.key"

  /** How a `types.NamespacedName` prints: "namespace/name". */
  function NamespacedName(namespace: string, name: string): string
  {
    namespace + "/" + name
  }

  /**
   * `NewKubeconfigFor`. `secret` is the answer of the store to the Get of
   * `secretRef`: the secret's data, or the error the Get returned.
   * `secretRef` is the secret's key as it prints (`NamespacedName`).
   */
  function NewKubeconfigFor(name: string, endpoint: string, secretRef: string, secret: Res<map<string, Bytes>>): (r: Res<KubeConfig>)
    ensures secret.Err? ==> r == Err(Wrapped("failed to fetch secret " + secretRef, secret.error))
    ensures secret.Ok? ==>
      (r.Err? <==> !(CAKey in secret.value && CertKey in secret.value && PrivateKeyKey in secret.value))
    ensures secret.Ok? && r.Err? ==> r.error == Wrapped(secretRef, RequiredFieldMissing)
    ensures r.Ok? ==> (secret.Ok? &&
      r.value.clusters == [NamedCluster(name, endpoint, secret.value[CAKey])] &&
      r.value.authInfos == [NamedAuthInfo(name, secret.value[CertKey], secret.value[PrivateKeyKey])] &&
      r.value.contexts == [NamedContext(name, name, name)] &&
      r.value.currentContext == name)
  {
    match secret
    case Err(e) => Err(Wrapped("failed to fetch secret " + secretRef, e))
    case Ok(data) =>
      if CAKey !in data || CertKey !in data || PrivateKeyKey !in data then
        Err(Wrapped(secretRef, RequiredFieldMissing))
      else
        Ok(KubeConfig(
          [NamedCluster(name, endpoint, data[CAKey])],
          [NamedAuthInfo(name, data[CertKey], data[PrivateKeyKey])],
          [NamedContext(name, name, name)],
          name))
  }

  /** The context of a built kubeconfig names the only cluster and the only user, and it is the current one. */
  lemma KubeconfigSelfConsistent(name: string, endpoint: string, secretRef: string, secret: Res<map<string, Bytes>>)
    requires NewKubeconfigFor(name, endpoint, secretRef, secret).Ok?
    ensures var c := NewKubeconfigFor(name, endpoint, secretRef, secret).value;
      |c.contexts| == 1 && c.contexts[0].cluster == c.clusters[0].name &&
      c.contexts[0].authInfo == c.authInfos[0].name && c.currentContext == c.contexts[0].name
  {
  }

  /** Presence of the keys is what counts: empty values still give a kubeconfig. */
  lemma EmptyValuesAccepted(name: string, endpoint: string, secretRef: string)
    ensures NewKubeconfigFor(name, endpoint, secretRef,
      Ok(map[CAKey := [], CertKey := [], PrivateKeyKey := []])).Ok?
  {
  }
}
