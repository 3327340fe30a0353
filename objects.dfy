/**
 * The Kubernetes objects the operator builds, stores and mutates, reduced to the
 * fields the modelled code reads or writes. Go maps become Dafny maps: the
 * semantic equality the code compares with treats a nil map and an empty map
 * alike, so the model does not separate them.
 */
module Objects {
  import opened Wrappers

  newtype byte = b: int | 0 <= b < 256
  type Bytes = seq<byte>
  type StringMap = map<string, string>

  /** Object UIDs; 0 stands for the empty UID of an object the store has not yet created. */
  type Uid = nat

  /** The Go types the operator handles, one per `client.Object` implementation. */
  datatype Kind =
    | Deployment | StatefulSet | Service | ConfigMap | Secret | Issuer | Certificate
    | Ingress | Gateway | HTTPRoute | DaemonSet | ServiceAccount | ClusterRole | ClusterRoleBinding

  datatype OwnerReference = OwnerReference(kind: string, name: string, uid: Uid, controller: bool)

  /**
   * `metav1.ObjectMeta`. `persisted` is "CreationTimestamp is non-zero", `deleting`
   * is "DeletionTimestamp is set".
   */
  datatype ObjectMeta = ObjectMeta(
    name: string,
    namespace: string,
    uid: Uid,
    labels: StringMap,
    annotations: StringMap,
    ownerReferences: seq<OwnerReference>,
    finalizers: seq<string>,
    persisted: bool,
    deleting: bool)

  /** Metadata of an object the operator builds: no UID, owners or finalizers yet. */
  function NewMeta(name: string, namespace: string, labels: StringMap, annotations: StringMap): (m: ObjectMeta)
    ensures m.name == name && m.namespace == namespace && m.labels == labels && m.annotations == annotations
    ensures m.uid == 0 && m.ownerReferences == [] && !m.persisted && !m.deleting
  {
    ObjectMeta(name, namespace, 0, labels, annotations, [], [], false, false)
  }

  datatype LabelSelector = LabelSelector(matchLabels: StringMap)

  datatype EmptyDirSource = EmptyDirSource(medium: string, sizeLimit: Option<string>)
  datatype ClaimSource = ClaimSource(claimName: string, readOnly: bool)

  datatype VolumeSource =
    | NoSource
    | SecretVolume(secretName: string)
    | ConfigMapVolume(configMapName: string)
    | EmptyDir(emptyDir: EmptyDirSource)
    | ClaimVolume(claim: ClaimSource)

  datatype Volume = Volume(name: string, source: VolumeSource)

  datatype Container = Container(
    name: string,
    image: string,
    command: seq<string>,
    args: seq<string>,
    ports: seq<int>,
    imagePullPolicy: string)

  datatype NodeSelectorRequirement = NodeSelectorRequirement(key: string, operator: string, values: seq<string>)

  /** A required node affinity: the terms are ORed, the requirements of one term ANDed. */
  datatype Affinity = Affinity(requiredTerms: seq<seq<NodeSelectorRequirement>>)

  datatype PodSpec = PodSpec(
    affinity: Affinity,
    containers: seq<Container>,
    volumes: seq<Volume>,
    imagePullSecrets: seq<string>)

  datatype PodTemplate = PodTemplate(labels: StringMap, annotations: StringMap, spec: PodSpec)

  datatype DeploymentSpec = DeploymentSpec(
    selector: Option<LabelSelector>,
    replicas: Option<int>,
    minReadySeconds: int,
    paused: bool,
    progressDeadlineSeconds: Option<int>,
    revisionHistoryLimit: Option<int>,
    strategy: string,
    template: PodTemplate)

  datatype DeploymentStatus = DeploymentStatus(
    replicas: int,
    readyReplicas: int,
    availableReplicas: int,
    updatedReplicas: int,
    unavailableReplicas: int)

  const NoStatus := DeploymentStatus(0, 0, 0, 0, 0)

  /** `PersistentVolumeClaimSpec`; `volumeMode` None or Some("") is "unset". */
  datatype ClaimSpec = ClaimSpec(volumeMode: Option<string>, accessModes: seq<string>, storage: string)

  /** One entry of `Spec.VolumeClaimTemplates`: a `PersistentVolumeClaim`. */
  datatype ClaimTemplate = ClaimTemplate(typeMeta: string, meta: ObjectMeta, spec: ClaimSpec, status: string)

  datatype StatefulSetSpec = StatefulSetSpec(
    selector: Option<LabelSelector>,
    replicas: Option<int>,
    minReadySeconds: int,
    ordinals: Option<int>,
    retentionPolicy: Option<string>,
    podManagementPolicy: string,
    revisionHistoryLimit: Option<int>,
    serviceName: string,
    updateStrategy: string,
    volumeClaimTemplates: seq<ClaimTemplate>,
    template: PodTemplate)

  datatype ServicePort = ServicePort(name: string, port: int)

  datatype ServiceSpec = ServiceSpec(
    serviceType: string,
    clusterIP: string,
    selector: StringMap,
    ports: seq<ServicePort>)

  datatype Listener = Listener(name: string, hostname: string, port: int, protocol: string, certificateRef: string)

  datatype GatewaySpec = GatewaySpec(gatewayClassName: string, listeners: seq<Listener>, addresses: seq<string>)

  datatype BackendRef = BackendRef(name: string, port: int)

  datatype HTTPRouteSpec = HTTPRouteSpec(parentRefs: seq<string>, hostnames: seq<string>, rules: seq<BackendRef>)

  datatype IngressSpec = IngressSpec(
    ingressClassName: string,
    tlsHosts: seq<string>,
    tlsSecretName: string,
    host: string,
    path: string,
    backendService: string,
    backendPort: string)

  /** cert-manager `CertificateSpec`, reduced to what names and issues the secret. */
  datatype CertificateSpec = CertificateSpec(secretName: string, commonName: string, dnsNames: seq<string>, issuerName: string, isCA: bool)

  /** cert-manager `IssuerSpec`: a CA issuer backed by a secret, or self-signed. */
  datatype IssuerSpec = CAIssuer(secretName: string) | SelfSigned

  datatype Body =
    | DeploymentBody(deployment: DeploymentSpec, status: DeploymentStatus)
    | StatefulSetBody(statefulSet: StatefulSetSpec)
    | ServiceBody(service: ServiceSpec)
    | ConfigMapBody(data: StringMap, binaryData: map<string, Bytes>)
    | SecretBody(secretType: string, secretData: map<string, Bytes>)
    | IssuerBody(issuer: IssuerSpec)
    | CertificateBody(certificate: CertificateSpec)
    | IngressBody(ingress: IngressSpec)
    | GatewayBody(gateway: GatewaySpec)
    | HTTPRouteBody(route: HTTPRouteSpec)
    | DaemonSetBody
    | ServiceAccountBody
    | ClusterRoleBody
    | ClusterRoleBindingBody

  function BodyKind(b: Body): Kind
  {
      match b
      case DeploymentBody(_, _) => Kind.Deployment
      case StatefulSetBody(_) => Kind.StatefulSet
      case ServiceBody(_) => Kind.Service
      case ConfigMapBody(_, _) => Kind.ConfigMap
      case SecretBody(_, _) => Kind.Secret
      case IssuerBody(_) => Kind.Issuer
      case CertificateBody(_) => Kind.Certificate
      case IngressBody(_) => Kind.Ingress
      case GatewayBody(_) => Kind.Gateway
      case HTTPRouteBody(_) => Kind.HTTPRoute
      case DaemonSetBody => Kind.DaemonSet
      case ServiceAccountBody => Kind.ServiceAccount
      case ClusterRoleBody => Kind.ClusterRole
      case ClusterRoleBindingBody => Kind.ClusterRoleBinding
  }

  /** A `client.Object`: metadata plus the kind-specific part. */
  datatype Obj = Obj(meta: ObjectMeta, body: Body)

  function KindOf(o: Obj): Kind
  {
    BodyKind(o.body)
  }

  /** What the store indexes objects by: `client.ObjectKeyFromObject` plus the Go type. */
  datatype Key = Key(kind: Kind, namespace: string, name: string)

  function KeyOf(o: Obj): (k: Key)
    ensures k.kind == KindOf(o) && k.namespace == o.meta.namespace && k.name == o.meta.name
  {
    Key(KindOf(o), o.meta.namespace, o.meta.name)
  }

  function WithMeta(o: Obj, m: ObjectMeta): (r: Obj)
    ensures r.meta == m && r.body == o.body
  {
    o.(meta := m)
  }

  /** Every pair in `sub` is also in `sup`: the "selector is a sub-map of the labels" relation. */
  predicate SubMap(sub: StringMap, sup: StringMap)
  {
    forall k | k in sub :: k in sup && sup[k] == sub[k]
  }
}
