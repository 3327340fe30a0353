/**
 * The controller manager of a control plane
 * (internal/manifests/controlplane/controllermanager.go): a ClusterIP Service
 * and a Deployment running `kube-controller-manager`, with leader election
 * switched on exactly when more than one replica runs.
 */
module ControllerManager {
  import opened Wrappers
  import opened Errors
  import opened Strings
  import opened Objects
  import opened Api
  import opened Foreign
  import opened ControlPlane
  import opened Manifests
  import Version
  import Naming
  import Labels
  import Image
  import AffinityDefaults

  const FrontProxyPKIPath: string := "/etc/pki/front-proxy"
  const FrontProxyCAFile: string := "ca.crt"
  const Port: int := 10257

  /** The controller manager image, resolved against the control plane's version. */
  function ControllerManagerImage(env: Env, defaults: Version.Defaults, kcp: KinkControlPlane): Res<string>
  {
    Image.Image(env, kcp.spec.controllerManager.container.image, kcp.spec.version, defaults.controllerManager)
  }

  function Selector(kcp: KinkControlPlane): StringMap
  {
    Labels.SelectorLabels(kcp.meta, ComponentControllerManager, ConceptControlPlane)
  }

  /** High availability: more than one replica, counting an unset count as one. */
  predicate HighlyAvailable(kcp: KinkControlPlane)
  {
    Replicas(kcp) > 1
  }

  /** The controller manager's default flags; `leader-elect` follows high availability. */
  function DefaultArgs(kcp: KinkControlPlane): (args: StringMap)
    ensures "leader-elect" in args && args["leader-elect"] == BoolString(HighlyAvailable(kcp))
    ensures "v" in args && args["v"] == NatToString(kcp.spec.controllerManager.verbosity)
  {
    map[
      "v" := NatToString(kcp.spec.controllerManager.verbosity),
      "leader-elect" := BoolString(HighlyAvailable(kcp)),
      "kubeconfig" := JoinPath(KubeconfigPath, KubeconfigName),
      "authorization-kubeconfig" := JoinPath(KubeconfigPath, KubeconfigName),
      "authentication-kubeconfig" := JoinPath(KubeconfigPath, KubeconfigName),
      "cluster-signing-cert-file" := JoinPath(RootPKIPath, RootCertFile),
      "cluster-signing-key-file" := JoinPath(RootPKIPath, RootKeyFile),
      "service-account-private-key-file" := JoinPath(ServiceAccountsPKIPath, ServiceAccountsKeyFile),
      "requestheader-client-ca-file" := JoinPath(FrontProxyPKIPath, FrontProxyCAFile),
      "controllers" := "*,bootstrapsigner,tokencleaner",
      "use-service-account-credentials" := "true",
      "cluster-cidr" := "10.200.0.0/16",
      "service-cluster-ip-range" := "10.32.0.0/24"]
  }

  /** The flags the container runs with: the defaults, plus the extra flags without a default. */
  function Args(kcp: KinkControlPlane): StringMap
  {
    MergedArgs(DefaultArgs(kcp), kcp.spec.controllerManager.extraArgs)
  }

  /** The container; its pull policy is the API server's, as in the source. */
  function ControllerManagerContainer(kcp: KinkControlPlane, image: string): Container
  {
    Container(Naming.ControllerManagerContainer, image, ["kube-controller-manager"], RenderArgs(Args(kcp)), [Port],
              kcp.spec.apiServer.container.imagePullPolicy)
  }

  function Volumes(kcp: KinkControlPlane): seq<Volume>
  {
    var name := kcp.meta.name;
    [SecretVolumeFor("kubeconfig", Naming.Kubeconfig(Naming.ControllerManager(name))),
     SecretVolumeFor("root-ca", Naming.ClusterCA(name)),
     SecretVolumeFor("front-proxy-ca", Naming.FrontProxyCA(name)),
     SecretVolumeFor("service-accounts-cert", Naming.ServiceAccountCertificate(name))]
  }

  function Deployment(env: Env, defaults: Version.Defaults, kcp: KinkControlPlane): (r: Res<Obj>)
    ensures r.Err? <==> ControllerManagerImage(env, defaults, kcp).Err?
    ensures r.Ok? ==> KindOf(r.value) == Kind.Deployment
  {
    var name := Naming.ControllerManager(kcp.meta.name);
    match ControllerManagerImage(env, defaults, kcp)
    case Err(e) => Err(Wrapped("failed to assess image", e))
    case Ok(image) =>
      var labels := ComponentLabels(kcp.meta, name, image, ComponentControllerManager, ConceptControlPlane);
      var podSpec := PodSpec(
        AffinityDefaults.AffinityFor(ControlPlaneInstance(kcp)),
        [ControllerManagerContainer(kcp, image)],
        Volumes(kcp),
        kcp.spec.imagePullSecrets);
      Ok(DeploymentObject(
        NewMeta(name, kcp.meta.namespace, labels, InstanceAnnotations(kcp.meta)),
        Selector(kcp), Replicas(kcp),
        PodTemplate(labels, InstanceAnnotations(kcp.meta), podSpec)))
  }

  function Service(env: Env, defaults: Version.Defaults, kcp: KinkControlPlane): (r: Res<Obj>)
    ensures r.Err? <==> ControllerManagerImage(env, defaults, kcp).Err?
    ensures r.Ok? ==> KindOf(r.value) == Kind.Service
  {
    var name := Naming.ControllerManager(kcp.meta.name);
    match ControllerManagerImage(env, defaults, kcp)
    case Err(e) => Err(Wrapped("failed to assess image", e))
    case Ok(image) =>
      Ok(ServiceObject(
        NewMeta(name, kcp.meta.namespace,
                ComponentLabels(kcp.meta, name, image, ComponentControllerManager, ConceptControlPlane),
                InstanceAnnotations(kcp.meta)),
        "ClusterIP", "", Selector(kcp), [ServicePort("self", Port)]))
  }

  /** `ControllerManager.Build`: the Service, then the Deployment; the first error, wrapped, gives no objects. */
  function Build(env: Env, defaults: Version.Defaults, kcp: KinkControlPlane): Res<seq<Obj>>
  {
    Collect([Part("failed to build Service", Single(Service(env, defaults, kcp))),
             Part("failed to build Deployment", Single(Deployment(env, defaults, kcp)))])
  }

  /** `Build` returns a Service and a Deployment, in that order, and fails exactly when the image cannot be resolved. */
  lemma BuildKinds(env: Env, defaults: Version.Defaults, kcp: KinkControlPlane)
    ensures Build(env, defaults, kcp).Err? <==> ControllerManagerImage(env, defaults, kcp).Err?
    ensures Build(env, defaults, kcp).Ok? ==> Kinds(Build(env, defaults, kcp).value) == [Kind.Service, Kind.Deployment]
  {
    Collect2("failed to build Service", Service(env, defaults, kcp), "failed to build Deployment", Deployment(env, defaults, kcp));
  }

  /** The Deployment runs the configured number of replicas, one when unset, and its selector is a sub-map of its pod labels. */
  lemma DeploymentSelector(env: Env, defaults: Version.Defaults, kcp: KinkControlPlane)
    requires Deployment(env, defaults, kcp).Ok?
    ensures var d := Deployment(env, defaults, kcp).value.body.deployment;
      d.replicas == Some(Replicas(kcp)) &&
      d.selector.Some? && SubMap(d.selector.value.matchLabels, d.template.labels)
  {
    var name := Naming.ControllerManager(kcp.meta.name);
    var image := ControllerManagerImage(env, defaults, kcp).value;
    SelectorWithinComponentLabels(kcp.meta, name, image, ComponentControllerManager, ConceptControlPlane);
  }

  /**
   * The one container runs with the rendered flags, in which leader election is
   * "true" exactly when more than one replica runs, and the API server's pull
   * policy.
   */
  lemma DeploymentContainer(env: Env, defaults: Version.Defaults, kcp: KinkControlPlane)
    requires Deployment(env, defaults, kcp).Ok?
    ensures var spec := Deployment(env, defaults, kcp).value.body.deployment.template.spec;
      |spec.containers| == 1 &&
      spec.containers[0].args == RenderArgs(Args(kcp)) &&
      spec.containers[0].imagePullPolicy == kcp.spec.apiServer.container.imagePullPolicy &&
      |spec.volumes| == 4
  {
  }

  /** Leader election is on exactly when more than one replica runs, whatever the extra flags say. */
  lemma LeaderElection(kcp: KinkControlPlane)
    ensures Flag("leader-elect", "true") in RenderArgs(Args(kcp)) <==> Replicas(kcp) > 1
    ensures Flag("leader-elect", "false") in RenderArgs(Args(kcp)) <==> Replicas(kcp) <= 1
  {
    assert '=' !in "leader-elect";
    BoolFlagExact(DefaultArgs(kcp), kcp.spec.controllerManager.extraArgs, "leader-elect", HighlyAvailable(kcp));
  }
}
