/**
 * The operator's own resources, KinkControlPlane, KinkMachine and KinkCluster,
 * with the spec fields the builders and controllers read.
 */
module Api {
  import opened Wrappers
  import opened Objects

  /** `kinkcorev1alpha1.Container`, the image settings shared by every component. */
  datatype ContainerSettings = ContainerSettings(image: string, imagePullPolicy: string)

  /** A control-plane component: container settings, verbosity and extra flags. */
  datatype KubeComponent = KubeComponent(container: ContainerSettings, verbosity: nat, extraArgs: StringMap)

  datatype SchedulerSpec = SchedulerSpec(component: KubeComponent, replicas: int)

  /** `kinkcorev1alpha1.Persistence`: a claim, or an EmptyDir with optional medium and size. */
  datatype Persistence = Persistence(claim: Option<ClaimSource>, emptyDir: Option<EmptyDirSource>)

  datatype KineSpec = KineSpec(container: ContainerSettings, persistence: Option<Persistence>)

  datatype GatewayTemplate = GatewayTemplate(gatewayClassName: string)

  datatype IngressTemplate = IngressTemplate(ingressClassName: string, annotations: StringMap)

  datatype EndpointsTemplate = EndpointsTemplate(
    serviceType: string,
    gateway: Option<GatewayTemplate>,
    ingress: Option<IngressTemplate>)

  datatype APIEndpoint = APIEndpoint(host: string, port: int)

  datatype KinkControlPlaneSpec = KinkControlPlaneSpec(
    version: string,
    replicas: Option<int>,
    affinity: Option<Affinity>,
    imagePullSecrets: seq<string>,
    controlPlaneEndpoint: APIEndpoint,
    endpointsTemplate: EndpointsTemplate,
    apiServer: KubeComponent,
    konnectivityServer: KubeComponent,
    controllerManager: KubeComponent,
    scheduler: SchedulerSpec,
    kine: KineSpec)

  datatype KinkControlPlaneStatus = KinkControlPlaneStatus(
    version: Option<string>,
    replicas: int,
    readyReplicas: int,
    updatedReplicas: int,
    unavailableReplicas: int,
    initialized: bool,
    ready: bool)

  datatype KinkControlPlane = KinkControlPlane(meta: ObjectMeta, spec: KinkControlPlaneSpec, status: KinkControlPlaneStatus)

  datatype KinkMachineSpec = KinkMachineSpec(
    container: ContainerSettings,
    imagePullSecrets: seq<string>,
    affinity: Option<Affinity>,
    persistence: Option<Persistence>)

  datatype KinkMachine = KinkMachine(meta: ObjectMeta, spec: KinkMachineSpec)

  datatype KinkCluster = KinkCluster(meta: ObjectMeta)

  /** The `client.Object` a shared helper receives, for the helpers that switch on its type. */
  datatype Instance =
    | ControlPlaneInstance(controlPlane: KinkControlPlane)
    | MachineInstance(machine: KinkMachine)
    | ClusterInstance(cluster: KinkCluster)

  function InstanceMeta(i: Instance): ObjectMeta
  {
    match i
    case ControlPlaneInstance(cp) => cp.meta
    case MachineInstance(m) => m.meta
    case ClusterInstance(c) => c.meta
  }
}
