/** Kine endpoint and the DNS names put into serving certificates (internal/naming/endpoints.go). */
module Endpoints {
  import Naming

  const ClusterDomainSuffix: string := ".svc.cluster.local"

  /** The etcd URL the API server uses to reach Kine. */
  function KineEndpoint(name: string, namespace: string): (url: string)
    ensures namespace == "" ==> url == "https://" + Naming.Kine(name) + ":2379"
    ensures namespace != "" ==> url == "https://" + Naming.Kine(name) + "." + namespace + ClusterDomainSuffix + ":2379"
  {
    if namespace == "" then "https://" + Naming.Kine(name) + ":2379"
    else "https://" + Naming.Kine(name) + "." + namespace + ".svc.cluster.local:2379"
  }

  function KineDNSNames(name: string, namespace: string): (names: seq<string>)
    ensures |names| == if namespace == "" then 2 else 3
    ensures names[0] == Naming.Kine(name) && names[1] == "localhost"
    ensures namespace != "" ==> names[2] == Naming.Kine(name) + "." + namespace + ClusterDomainSuffix
  {
    var base := [Naming.Kine(name), "localhost"];
    if namespace != "" then base + [Naming.Kine(name) + "." + namespace + ".svc.cluster.local"] else base
  }

  const KubernetesServiceNames: seq<string> :=
    ["kubernetes", "kubernetes.default", "kubernetes.default.svc", "kubernetes.default.svc.cluster.local"]

  function KubernetesDNSNames(name: string, namespace: string): (names: seq<string>)
    ensures |names| == if namespace == "" then 5 else 8
    ensures names[0] == Naming.APIServer(name)
    ensures names[1..5] == KubernetesServiceNames
    ensures namespace != "" ==>
      && names[5] == Naming.APIServer(name) + "." + namespace
      && names[6] == Naming.APIServer(name) + "." + namespace + ".svc"
      && names[7] == Naming.APIServer(name) + "." + namespace + ClusterDomainSuffix
  {
    var serviceName := Naming.APIServer(name);
    var base := [serviceName, "kubernetes", "kubernetes.default", "kubernetes.default.svc", "kubernetes.default.svc.cluster.local"];
    if namespace != "" then
      base + [serviceName + "." + namespace, serviceName + "." + namespace + ".svc", serviceName + "." + namespace + ".svc.cluster.local"]
    else base
  }

  /** Every namespace-qualified name starts with the service name, then a dot and the namespace. */
  lemma QualifiedNamesStartWithService(name: string, namespace: string)
    requires namespace != ""
    ensures forall i | 5 <= i < 8 ::
      var n := KubernetesDNSNames(name, namespace)[i];
      var prefix := Naming.APIServer(name) + "." + namespace;
      |prefix| <= |n| && n[..|prefix|] == prefix
    ensures var n := KineDNSNames(name, namespace)[2];
      var prefix := Naming.Kine(name) + "." + namespace;
      |prefix| <= |n| && n[..|prefix|] == prefix
  {
    var names := KubernetesDNSNames(name, namespace);
    var prefix := Naming.APIServer(name) + "." + namespace;
    assert names[6] == prefix + ".svc";
    assert names[7] == prefix + ClusterDomainSuffix;
    var kine := Naming.Kine(name) + "." + namespace;
    assert KineDNSNames(name, namespace)[2] == kine + ClusterDomainSuffix;
  }
}
