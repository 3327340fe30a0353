/**
 * The API server of a control plane (internal/manifests/controlplane/apiserver.go):
 * its Service, its Deployment with the API server and Konnectivity containers,
 * the ConfigMap holding the egress selector configuration, and optionally a
 * Gateway with an HTTPRoute and an Ingress.
 */
module ApiServer {
  import opened Wrappers
  import opened Errors
  import opened Strings
  import opened Objects
  import opened Api
  import opened Foreign
  import opened ControlPlane
  import opened Manifests
  import Version
  import Naming
  import Endpoints
  import Labels
  import Image
  import AffinityDefaults

  const ApiServerPKIPath: string := "/etc/pki/kube-apiserver"
  const ApiServerCertificateFile: string := "tls.crt"
  const ApiServerKeyFile: string := "tls.key"
  const EtcdPKIPath: string := "/etc/pki/etcd"
  const EtcdCAFile: string := "ca.crt"
  const EtcdCertificateFile: string := "tls.crt"
  const EtcdKeyFile: string := "tls.key"
  const EgressSelectorConfigurationPath: string := "/etc/konnectivity"
  const EgressSelectorConfigurationFile: string := "egress-selector-configuration.yaml"

  /** The API server image, resolved against the control plane's version. */
  function ApiServerImage(env: Env, defaults: Version.Defaults, kcp: KinkControlPlane): Res<string>
  {
    Image.Image(env, kcp.spec.apiServer.container.image, kcp.spec.version, defaults.apiServer)
  }

  /** The Konnectivity image: the configured one, otherwise the default. */
  function KonnectivityImage(defaults: Version.Defaults, kcp: KinkControlPlane): (image: string)
    ensures kcp.spec.konnectivityServer.container.image != "" ==> image == kcp.spec.konnectivityServer.container.image
    ensures kcp.spec.konnectivityServer.container.image == "" ==> image == defaults.konnectivityServer
  {
    if kcp.spec.konnectivityServer.container.image == "" then defaults.konnectivityServer
    else kcp.spec.konnectivityServer.container.image
  }

  function ApiServerLabels(kcp: KinkControlPlane, name: string, image: string): StringMap
  {
    ComponentLabels(kcp.meta, name, image, ComponentAPIServer, ConceptControlPlane)
  }

  function Selector(kcp: KinkControlPlane): StringMap
  {
    Labels.SelectorLabels(kcp.meta, ComponentAPIServer, ConceptControlPlane)
  }

  /** The data of the ConfigMap: the egress selector configuration under its file name. */
  function ConfigData(env: Env): Res<StringMap>
  {
    match env.egressSelectorConfiguration
    case Err(e) => Err(Wrapped("failed to generate EgressSelectorConfiguration", e))
    case Ok(esc) => Ok(map[EgressSelectorConfigurationFile := esc])
  }

  /** The hash of the configuration data, from which the ConfigMap takes its name. */
  function ConfigHash(env: Env): (r: Res<string>)
    ensures r.Ok? ==> ConfigData(env).Ok?
  {
    match ConfigData(env)
    case Err(e) => Err(e)
    case Ok(data) =>
      match env.configMapHash(data)
      case Err(e) => Err(Wrapped("failed to calculate ConfigMap hash", e))
      case Ok(hash) => Ok(hash)
  }

  /** The ConfigMap of the egress selector configuration, named after the hash of its data. */
  function ConfigMap(env: Env, defaults: Version.Defaults, kcp: KinkControlPlane): (r: Res<Obj>)
    ensures r.Err? <==> ConfigHash(env).Err? || ApiServerImage(env, defaults, kcp).Err?
    ensures r.Ok? ==> KindOf(r.value) == Kind.ConfigMap
    ensures r.Ok? ==> r.value.meta.name == Naming.ConfigMap(kcp.meta.name, ConfigHash(env).value)
  {
    match ConfigHash(env)
    case Err(e) => Err(e)
    case Ok(hash) =>
      var name := Naming.ConfigMap(kcp.meta.name, hash);
      match ApiServerImage(env, defaults, kcp)
      case Err(e) => Err(Wrapped("failed to assess image", e))
      case Ok(image) =>
        Ok(Obj(NewMeta(name, kcp.meta.namespace, ApiServerLabels(kcp, name, image), InstanceAnnotations(kcp.meta)),
               ConfigMapBody(ConfigData(env).value, map[])))
  }

  /** The pod volumes: five secrets, the Konnectivity socket directory and, last, the ConfigMap of this configuration. */
  function Volumes(env: Env, kcp: KinkControlPlane): (r: Res<seq<Volume>>)
    ensures r.Err? <==> ConfigHash(env).Err?
    ensures r.Ok? ==> |r.value| == 7 && r.value[6] == Volume("configs", ConfigMapVolume(Naming.ConfigMap(kcp.meta.name, ConfigHash(env).value)))
  {
    match ConfigHash(env)
    case Err(e) => Err(e)
    case Ok(hash) =>
      var name := kcp.meta.name;
      Ok([SecretVolumeFor("etcd", Naming.KineAPIServerClientCertificate(name)),
          SecretVolumeFor("apiserver-tls", Naming.APIServerCertificate(name)),
          SecretVolumeFor("root-ca", Naming.ClusterCA(name)),
          SecretVolumeFor("service-accounts-cert", Naming.ServiceAccountCertificate(name)),
          SecretVolumeFor("kubeconfig", Naming.Kubeconfig(Naming.KonnectivityServer(name))),
          Volume("uds", EmptyDir(EmptyDirSource("", None))),
          Volume("configs", ConfigMapVolume(Naming.ConfigMap(name, hash)))])
  }

  /** The API server's default flags. */
  function ApiServerDefaultArgs(kcp: KinkControlPlane): StringMap
  {
    map[
      "v" := NatToString(kcp.spec.apiServer.verbosity),
      "client-ca-file" := JoinPath(RootPKIPath, RootCAFile),
      "tls-cert-file" := JoinPath(ApiServerPKIPath, ApiServerCertificateFile),
      "tls-private-key-file" := JoinPath(ApiServerPKIPath, ApiServerKeyFile),
      "service-account-key-file" := JoinPath(ServiceAccountsPKIPath, ServiceAccountsCertificateFile),
      "service-account-signing-key-file" := JoinPath(ServiceAccountsPKIPath, ServiceAccountsKeyFile),
      "service-account-issuer" := "https://kubernetes.default.svc.cluster.local",
      "etcd-cafile" := JoinPath(EtcdPKIPath, EtcdCAFile),
      "etcd-certfile" := JoinPath(EtcdPKIPath, EtcdCertificateFile),
      "etcd-keyfile" := JoinPath(EtcdPKIPath, EtcdKeyFile),
      "etcd-servers" := Endpoints.KineEndpoint(kcp.meta.name, kcp.meta.namespace),
      "authorization-mode" := "Node,RBAC",
      "service-cluster-ip-range" := "10.32.0.0/24",
      "egress-selector-config-file" := JoinPath(EgressSelectorConfigurationPath, EgressSelectorConfigurationFile)]
  }

  /** The Konnectivity server's default flags. */
  function KonnectivityDefaultArgs(env: Env, kcp: KinkControlPlane): StringMap
  {
    map[
      "v" := NatToString(kcp.spec.konnectivityServer.verbosity),
      "mode" := "grpc",
      "cluster-cert" := JoinPath(RootPKIPath, RootCertFile),
      "cluster-key" := JoinPath(RootPKIPath, RootKeyFile),
      "uds-name" := env.konnectivitySocketPath,
      "delete-existing-uds-file" := "true",
      "server-port" := "0",
      "agent-port" := "8132",
      "admin-port" := "8133",
      "health-port" := "8134",
      "agent-namespace" := "kube-system",
      "agent-service-account" := "konnectivity-agent",
      "kubeconfig" := JoinPath(KubeconfigPath, KubeconfigName),
      "authentication-audience" := "system:konnectivity-server"]
  }

  function ContainerApiServer(env: Env, kcp: KinkControlPlane, image: string): Container
  {
    var args := MergedArgs(ApiServerDefaultArgs(kcp), kcp.spec.apiServer.extraArgs);
    Container(Naming.APIServerContainer, image, ["kube-apiserver"], env.buildKubernetesArgs(args), [6443],
              kcp.spec.apiServer.container.imagePullPolicy)
  }

  function ContainerKonnectivity(env: Env, kcp: KinkControlPlane, image: string): Container
  {
    var args := MergedArgs(KonnectivityDefaultArgs(env, kcp), kcp.spec.konnectivityServer.extraArgs);
    Container(Naming.KonnectivityContainer, image, ["/proxy-server"], env.buildKubernetesArgs(args), [8132, 8133, 8134],
              kcp.spec.konnectivityServer.container.imagePullPolicy)
  }

  function Deployment(env: Env, defaults: Version.Defaults, kcp: KinkControlPlane): (r: Res<Obj>)
    ensures r.Err? <==> ApiServerImage(env, defaults, kcp).Err? || ConfigHash(env).Err?
    ensures r.Ok? ==> KindOf(r.value) == Kind.Deployment
  {
    var name := Naming.APIServer(kcp.meta.name);
    match ApiServerImage(env, defaults, kcp)
    case Err(e) => Err(Wrapped("failed to assess API Server image", e))
    case Ok(image) =>
      match Volumes(env, kcp)
      case Err(e) => Err(Wrapped("failed to generate volumes", e))
      case Ok(volumes) =>
        var labels := ApiServerLabels(kcp, name, image);
        var podSpec := PodSpec(
          AffinityDefaults.AffinityFor(ControlPlaneInstance(kcp)),
          [ContainerApiServer(env, kcp, image), ContainerKonnectivity(env, kcp, KonnectivityImage(defaults, kcp))],
          volumes,
          kcp.spec.imagePullSecrets);
        Ok(DeploymentObject(
          NewMeta(name, kcp.meta.namespace, labels, InstanceAnnotations(kcp.meta)),
          Selector(kcp), Replicas(kcp),
          PodTemplate(labels, InstanceAnnotations(kcp.meta), podSpec)))
  }

  function Service(env: Env, defaults: Version.Defaults, kcp: KinkControlPlane): (r: Res<Obj>)
    ensures r.Err? <==> ApiServerImage(env, defaults, kcp).Err?
    ensures r.Ok? ==> KindOf(r.value) == Kind.Service
  {
    var name := Naming.APIServer(kcp.meta.name);
    match ApiServerImage(env, defaults, kcp)
    case Err(e) => Err(Wrapped("failed to assess image", e))
    case Ok(image) =>
      Ok(ServiceObject(
        NewMeta(name, kcp.meta.namespace, ApiServerLabels(kcp, name, image), InstanceAnnotations(kcp.meta)),
        kcp.spec.endpointsTemplate.serviceType, "", Selector(kcp),
        [ServicePort("server", 6443), ServicePort("agent", 8132), ServicePort("admin", 8133)]))
  }

  function Gateway(env: Env, defaults: Version.Defaults, kcp: KinkControlPlane): (r: Res<Obj>)
    requires kcp.spec.endpointsTemplate.gateway.Some?
    ensures r.Err? <==> ApiServerImage(env, defaults, kcp).Err?
    ensures r.Ok? ==> KindOf(r.value) == Kind.Gateway
  {
    var name := Naming.APIServer(kcp.meta.name);
    match ApiServerImage(env, defaults, kcp)
    case Err(e) => Err(Wrapped("failed to assess image", e))
    case Ok(image) =>
      var endpoint := kcp.spec.controlPlaneEndpoint;
      var listener := Listener(name, endpoint.host, endpoint.port, "TLS", Naming.APIServerCertificate(kcp.meta.name));
      Ok(Obj(NewMeta(name, kcp.meta.namespace, ApiServerLabels(kcp, name, image), InstanceAnnotations(kcp.meta)),
             GatewayBody(GatewaySpec(kcp.spec.endpointsTemplate.gateway.value.gatewayClassName, [listener], []))))
  }

  function HTTPRoute(env: Env, defaults: Version.Defaults, kcp: KinkControlPlane): (r: Res<Obj>)
    ensures r.Err? <==> ApiServerImage(env, defaults, kcp).Err?
    ensures r.Ok? ==> KindOf(r.value) == Kind.HTTPRoute
  {
    var name := Naming.APIServer(kcp.meta.name);
    match ApiServerImage(env, defaults, kcp)
    case Err(e) => Err(Wrapped("failed to assess image", e))
    case Ok(image) =>
      Ok(Obj(NewMeta(name, kcp.meta.namespace, ApiServerLabels(kcp, name, image), InstanceAnnotations(kcp.meta)),
             HTTPRouteBody(HTTPRouteSpec([name], [kcp.spec.controlPlaneEndpoint.host], [BackendRef(name, 6443)]))))
  }

  /** The Ingress: its annotations are the instance's, overlaid by the template's. */
  function Ingress(env: Env, defaults: Version.Defaults, kcp: KinkControlPlane): (r: Res<Obj>)
    requires kcp.spec.endpointsTemplate.ingress.Some?
    ensures r.Err? <==> ApiServerImage(env, defaults, kcp).Err?
    ensures r.Ok? ==> KindOf(r.value) == Kind.Ingress
  {
    var name := Naming.APIServer(kcp.meta.name);
    var template := kcp.spec.endpointsTemplate.ingress.value;
    match ApiServerImage(env, defaults, kcp)
    case Err(e) => Err(Wrapped("failed to assess image", e))
    case Ok(image) =>
      var host := kcp.spec.controlPlaneEndpoint.host;
      Ok(Obj(NewMeta(name, kcp.meta.namespace, ApiServerLabels(kcp, name, image),
                     InstanceAnnotations(kcp.meta) + template.annotations),
             IngressBody(IngressSpec(template.ingressClassName, [host], Naming.APIServerCertificate(kcp.meta.name),
                                     host, "/", name, "server"))))
  }

  /** Gateway and HTTPRoute, when the endpoints template asks for a Gateway. */
  function GatewaySteps(env: Env, defaults: Version.Defaults, kcp: KinkControlPlane): seq<Part>
  {
    if kcp.spec.endpointsTemplate.gateway.None? then []
    else [Part("failed to build Gateway", Single(Gateway(env, defaults, kcp))),
          Part("failed to build HTTPRoute", Single(HTTPRoute(env, defaults, kcp)))]
  }

  /** The Ingress, when the endpoints template asks for one. */
  function IngressSteps(env: Env, defaults: Version.Defaults, kcp: KinkControlPlane): seq<Part>
  {
    if kcp.spec.endpointsTemplate.ingress.None? then []
    else [Part("failed to build Ingress", Single(Ingress(env, defaults, kcp)))]
  }

  /** `APIServer.Build`: Service, Deployment and ConfigMap, then the endpoint objects; the first error, wrapped, gives no objects. */
  function Build(env: Env, defaults: Version.Defaults, kcp: KinkControlPlane): (r: Res<seq<Obj>>)
  {
    Collect([Part("failed to build Service", Single(Service(env, defaults, kcp))),
             Part("failed to build Deployment", Single(Deployment(env, defaults, kcp))),
             Part("failed to build ConfigMap", Single(ConfigMap(env, defaults, kcp)))]
            + (GatewaySteps(env, defaults, kcp) + IngressSteps(env, defaults, kcp)))
  }

  /** The kinds of the endpoint objects: Gateway and HTTPRoute, then Ingress, each group when configured. */
  function EndpointKinds(kcp: KinkControlPlane): seq<Kind>
  {
    (if kcp.spec.endpointsTemplate.gateway.Some? then [Kind.Gateway, Kind.HTTPRoute] else [])
    + (if kcp.spec.endpointsTemplate.ingress.Some? then [Kind.Ingress] else [])
  }

  lemma GatewayObjects(env: Env, defaults: Version.Defaults, kcp: KinkControlPlane)
    ensures var r := Collect(GatewaySteps(env, defaults, kcp));
      (r.Ok? <==> kcp.spec.endpointsTemplate.gateway.None? || ApiServerImage(env, defaults, kcp).Ok?) &&
      (r.Ok? ==> Kinds(r.value) == if kcp.spec.endpointsTemplate.gateway.Some? then [Kind.Gateway, Kind.HTTPRoute] else [])
  {
    if kcp.spec.endpointsTemplate.gateway.Some? {
      Collect2("failed to build Gateway", Gateway(env, defaults, kcp), "failed to build HTTPRoute", HTTPRoute(env, defaults, kcp));
    }
  }

  lemma IngressObjects(env: Env, defaults: Version.Defaults, kcp: KinkControlPlane)
    ensures var r := Collect(IngressSteps(env, defaults, kcp));
      (r.Ok? <==> kcp.spec.endpointsTemplate.ingress.None? || ApiServerImage(env, defaults, kcp).Ok?) &&
      (r.Ok? ==> Kinds(r.value) == if kcp.spec.endpointsTemplate.ingress.Some? then [Kind.Ingress] else [])
  {
    if kcp.spec.endpointsTemplate.ingress.Some? {
      Collect1("failed to build Ingress", Ingress(env, defaults, kcp));
    }
  }

  /** What the optional steps return: the configured endpoint objects in order; they fail only on the image. */
  lemma EndpointObjects(env: Env, defaults: Version.Defaults, kcp: KinkControlPlane)
    ensures var r := Collect(GatewaySteps(env, defaults, kcp) + IngressSteps(env, defaults, kcp));
      (r.Err? ==> ApiServerImage(env, defaults, kcp).Err?) &&
      (ApiServerImage(env, defaults, kcp).Ok? ==> r.Ok?) &&
      (r.Ok? ==> Kinds(r.value) == EndpointKinds(kcp))
  {
    GatewayObjects(env, defaults, kcp);
    IngressObjects(env, defaults, kcp);
    var g, i := Collect(GatewaySteps(env, defaults, kcp)), Collect(IngressSteps(env, defaults, kcp));
    CollectAppend(GatewaySteps(env, defaults, kcp), IngressSteps(env, defaults, kcp));
    if Then(g, i).Ok? {
      ThenKinds(g, i);
    }
  }

  /** `Build` returns a Service, a Deployment and a ConfigMap, then Gateway and HTTPRoute, then Ingress, the last two groups when configured. */
  lemma BuildKinds(env: Env, defaults: Version.Defaults, kcp: KinkControlPlane)
    requires Build(env, defaults, kcp).Ok?
    ensures Kinds(Build(env, defaults, kcp).value) == [Kind.Service, Kind.Deployment, Kind.ConfigMap] + EndpointKinds(kcp)
  {
    Collect3("failed to build Service", Service(env, defaults, kcp),
             "failed to build Deployment", Deployment(env, defaults, kcp),
             "failed to build ConfigMap", ConfigMap(env, defaults, kcp),
             GatewaySteps(env, defaults, kcp) + IngressSteps(env, defaults, kcp));
    EndpointObjects(env, defaults, kcp);
  }

  /** `Build` fails exactly when the image cannot be resolved or the configuration cannot be generated or hashed. */
  lemma BuildFails(env: Env, defaults: Version.Defaults, kcp: KinkControlPlane)
    ensures Build(env, defaults, kcp).Err? <==> ApiServerImage(env, defaults, kcp).Err? || ConfigHash(env).Err?
  {
    Collect3("failed to build Service", Service(env, defaults, kcp),
             "failed to build Deployment", Deployment(env, defaults, kcp),
             "failed to build ConfigMap", ConfigMap(env, defaults, kcp),
             GatewaySteps(env, defaults, kcp) + IngressSteps(env, defaults, kcp));
    EndpointObjects(env, defaults, kcp);
  }

  /** The Deployment runs the configured number of replicas, one when unset, and its selector is a sub-map of its pod labels. */
  lemma DeploymentSelector(env: Env, defaults: Version.Defaults, kcp: KinkControlPlane)
    requires Deployment(env, defaults, kcp).Ok?
    ensures var d := Deployment(env, defaults, kcp).value.body.deployment;
      d.replicas == Some(Replicas(kcp)) &&
      d.selector.Some? && SubMap(d.selector.value.matchLabels, d.template.labels)
  {
    var name := Naming.APIServer(kcp.meta.name);
    var image := ApiServerImage(env, defaults, kcp).value;
    SelectorWithinComponentLabels(kcp.meta, name, image, ComponentAPIServer, ConceptControlPlane);
  }

  /**
   * The Deployment's pods mount the ConfigMap of the same configuration as
   * their last volume, and run the API server and then Konnectivity, the
   * latter with the configured image or the default.
   */
  lemma DeploymentPods(env: Env, defaults: Version.Defaults, kcp: KinkControlPlane)
    requires Deployment(env, defaults, kcp).Ok?
    ensures var d := Deployment(env, defaults, kcp).value.body.deployment;
      |d.template.spec.volumes| == 7 &&
      d.template.spec.volumes[6] == Volume("configs", ConfigMapVolume(Naming.ConfigMap(kcp.meta.name, ConfigHash(env).value))) &&
      |d.template.spec.containers| == 2 &&
      d.template.spec.containers[0].name == Naming.APIServerContainer &&
      d.template.spec.containers[1].image == KonnectivityImage(defaults, kcp)
  {
  }

  /** In the objects `Build` returns, the Deployment mounts the ConfigMap returned beside it. */
  lemma BuildConfigVolume(env: Env, defaults: Version.Defaults, kcp: KinkControlPlane)
    requires Build(env, defaults, kcp).Ok?
    ensures var objs := Build(env, defaults, kcp).value;
      |objs| >= 3 && objs[1].body.DeploymentBody? && |objs[1].body.deployment.template.spec.volumes| == 7 &&
      objs[1].body.deployment.template.spec.volumes[6] == Volume("configs", ConfigMapVolume(objs[2].meta.name))
  {
    Collect3("failed to build Service", Service(env, defaults, kcp),
             "failed to build Deployment", Deployment(env, defaults, kcp),
             "failed to build ConfigMap", ConfigMap(env, defaults, kcp),
             GatewaySteps(env, defaults, kcp) + IngressSteps(env, defaults, kcp));
    DeploymentPods(env, defaults, kcp);
  }

  /** Extra flags reach the API server only under keys its defaults do not set. */
  lemma ApiServerFlagsKeepDefaults(env: Env, kcp: KinkControlPlane, image: string, k: string)
    requires k in ApiServerDefaultArgs(kcp)
    ensures var args := MergedArgs(ApiServerDefaultArgs(kcp), kcp.spec.apiServer.extraArgs);
      args[k] == ApiServerDefaultArgs(kcp)[k] &&
      ContainerApiServer(env, kcp, image).args == env.buildKubernetesArgs(args)
  {
  }

  /** The Ingress carries every template annotation, and the instance annotations the template does not override. */
  lemma IngressAnnotations(env: Env, defaults: Version.Defaults, kcp: KinkControlPlane)
    requires kcp.spec.endpointsTemplate.ingress.Some? && Ingress(env, defaults, kcp).Ok?
    ensures var a := Ingress(env, defaults, kcp).value.meta.annotations;
      var t := kcp.spec.endpointsTemplate.ingress.value.annotations;
      (forall k | k in t :: k in a && a[k] == t[k]) &&
      (forall k | k in kcp.meta.annotations && k !in t :: k in a && a[k] == kcp.meta.annotations[k])
  {
    InstanceAnnotationsCopied(kcp.meta);
  }
}
