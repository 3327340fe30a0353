/**
 * The scheduler of a control plane (internal/manifests/controlplane/scheduler.go):
 * a ClusterIP Service and a Deployment running `kube-scheduler`. Unlike the
 * other components it takes its replica count from its own settings, with no
 * default, and leader election is on exactly when that count exceeds one.
 */
module Scheduler {
  import opened Wrappers
  import opened Errors
  import opened Strings
  import opened Objects
  import opened Api
  import opened Foreign
  import opened ControlPlane
  import opened Manifests
  import Version
  import Naming
  import Labels
  import Image
  import AffinityDefaults

  const Port: int := 10259

  /** The scheduler image, resolved against the control plane's version. */
  function SchedulerImage(env: Env, defaults: Version.Defaults, kcp: KinkControlPlane): Res<string>
  {
    Image.Image(env, kcp.spec.scheduler.component.container.image, kcp.spec.version, defaults.scheduler)
  }

  function Selector(kcp: KinkControlPlane): StringMap
  {
    Labels.SelectorLabels(kcp.meta, ComponentScheduler, ConceptControlPlane)
  }

  /** The scheduler's replicas: its own setting, taken as it is. */
  function SchedulerReplicas(kcp: KinkControlPlane): int
  {
    kcp.spec.scheduler.replicas
  }

  /** High availability: more than one scheduler replica. */
  predicate HighlyAvailable(kcp: KinkControlPlane)
  {
    SchedulerReplicas(kcp) > 1
  }

  /** The scheduler's default flags; `leader-elect` follows high availability. */
  function DefaultArgs(kcp: KinkControlPlane): (args: StringMap)
    ensures "leader-elect" in args && args["leader-elect"] == BoolString(HighlyAvailable(kcp))
    ensures "v" in args && args["v"] == NatToString(kcp.spec.scheduler.component.verbosity)
  {
    map[
      "v" := NatToString(kcp.spec.scheduler.component.verbosity),
      "leader-elect" := BoolString(HighlyAvailable(kcp)),
      "kubeconfig" := JoinPath(KubeconfigPath, KubeconfigName),
      "authorization-kubeconfig" := JoinPath(KubeconfigPath, KubeconfigName),
      "authentication-kubeconfig" := JoinPath(KubeconfigPath, KubeconfigName)]
  }

  /** The flags the container runs with: the defaults, plus the extra flags without a default. */
  function Args(kcp: KinkControlPlane): StringMap
  {
    MergedArgs(DefaultArgs(kcp), kcp.spec.scheduler.component.extraArgs)
  }

  /** The container; its pull policy is the API server's, as in the source. */
  function SchedulerContainer(kcp: KinkControlPlane, image: string): Container
  {
    Container(Naming.SchedulerContainer, image, ["kube-scheduler"], RenderArgs(Args(kcp)), [Port],
              kcp.spec.apiServer.container.imagePullPolicy)
  }

  function Volumes(kcp: KinkControlPlane): seq<Volume>
  {
    [SecretVolumeFor("kubeconfig", Naming.Kubeconfig(Naming.Scheduler(kcp.meta.name)))]
  }

  function Deployment(env: Env, defaults: Version.Defaults, kcp: KinkControlPlane): (r: Res<Obj>)
    ensures r.Err? <==> SchedulerImage(env, defaults, kcp).Err?
    ensures r.Ok? ==> KindOf(r.value) == Kind.Deployment
  {
    var name := Naming.Scheduler(kcp.meta.name);
    match SchedulerImage(env, defaults, kcp)
    case Err(e) => Err(Wrapped("failed to assess image", e))
    case Ok(image) =>
      var labels := ComponentLabels(kcp.meta, name, image, ComponentScheduler, ConceptControlPlane);
      var podSpec := PodSpec(
        AffinityDefaults.AffinityFor(ControlPlaneInstance(kcp)),
        [SchedulerContainer(kcp, image)],
        Volumes(kcp),
        kcp.spec.imagePullSecrets);
      Ok(DeploymentObject(
        NewMeta(name, kcp.meta.namespace, labels, InstanceAnnotations(kcp.meta)),
        Selector(kcp), SchedulerReplicas(kcp),
        PodTemplate(labels, InstanceAnnotations(kcp.meta), podSpec)))
  }

  function Service(env: Env, defaults: Version.Defaults, kcp: KinkControlPlane): (r: Res<Obj>)
    ensures r.Err? <==> SchedulerImage(env, defaults, kcp).Err?
    ensures r.Ok? ==> KindOf(r.value) == Kind.Service
  {
    var name := Naming.Scheduler(kcp.meta.name);
    match SchedulerImage(env, defaults, kcp)
    case Err(e) => Err(Wrapped("failed to assess image", e))
    case Ok(image) =>
      Ok(ServiceObject(
        NewMeta(name, kcp.meta.namespace,
                ComponentLabels(kcp.meta, name, image, ComponentScheduler, ConceptControlPlane),
                InstanceAnnotations(kcp.meta)),
        "ClusterIP", "", Selector(kcp), [ServicePort("self", Port)]))
  }

  /** `Scheduler.Build`: the Service, then the Deployment; the first error, wrapped, gives no objects. */
  function Build(env: Env, defaults: Version.Defaults, kcp: KinkControlPlane): Res<seq<Obj>>
  {
    Collect([Part("failed to build Service", Single(Service(env, defaults, kcp))),
             Part("failed to build Deployment", Single(Deployment(env, defaults, kcp)))])
  }

  /** `Build` returns a Service and a Deployment, in that order, and fails exactly when the image cannot be resolved. */
  lemma BuildKinds(env: Env, defaults: Version.Defaults, kcp: KinkControlPlane)
    ensures Build(env, defaults, kcp).Err? <==> SchedulerImage(env, defaults, kcp).Err?
    ensures Build(env, defaults, kcp).Ok? ==> Kinds(Build(env, defaults, kcp).value) == [Kind.Service, Kind.Deployment]
  {
    Collect2("failed to build Service", Service(env, defaults, kcp), "failed to build Deployment", Deployment(env, defaults, kcp));
  }

  /** The Deployment runs the scheduler's own replica count, unchanged, and its selector is a sub-map of its pod labels. */
  lemma DeploymentSelector(env: Env, defaults: Version.Defaults, kcp: KinkControlPlane)
    requires Deployment(env, defaults, kcp).Ok?
    ensures var d := Deployment(env, defaults, kcp).value.body.deployment;
      d.replicas == Some(kcp.spec.scheduler.replicas) &&
      d.selector.Some? && SubMap(d.selector.value.matchLabels, d.template.labels)
  {
    var name := Naming.Scheduler(kcp.meta.name);
    var image := SchedulerImage(env, defaults, kcp).value;
    SelectorWithinComponentLabels(kcp.meta, name, image, ComponentScheduler, ConceptControlPlane);
  }

  /**
   * The one container runs with the rendered flags, in which leader election is
   * "true" exactly when more than one replica runs, and the API server's pull
   * policy.
   */
  lemma DeploymentContainer(env: Env, defaults: Version.Defaults, kcp: KinkControlPlane)
    requires Deployment(env, defaults, kcp).Ok?
    ensures var spec := Deployment(env, defaults, kcp).value.body.deployment.template.spec;
      |spec.containers| == 1 &&
      spec.containers[0].args == RenderArgs(Args(kcp)) &&
      spec.containers[0].imagePullPolicy == kcp.spec.apiServer.container.imagePullPolicy &&
      |spec.volumes| == 1
  {
  }

  /** Leader election is on exactly when more than one scheduler replica runs, whatever the extra flags say. */
  lemma LeaderElection(kcp: KinkControlPlane)
    ensures Flag("leader-elect", "true") in RenderArgs(Args(kcp)) <==> kcp.spec.scheduler.replicas > 1
    ensures Flag("leader-elect", "false") in RenderArgs(Args(kcp)) <==> kcp.spec.scheduler.replicas <= 1
  {
    assert '=' !in "leader-elect";
    BoolFlagExact(DefaultArgs(kcp), kcp.spec.scheduler.component.extraArgs, "leader-elect", HighlyAvailable(kcp));
  }
}
