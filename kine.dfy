/**
 * Kine, the etcd replacement a control plane stores its state in
 * (internal/manifests/controlplane/kine.go): a ClusterIP Service and a single
 * replica Deployment serving the etcd protocol on port 2379 from a SQLite file
 * on the "data" volume, with TLS from the Kine server certificate.
 */
module Kine {
  import opened Wrappers
  import opened Strings
  import opened Objects
  import opened Api
  import opened ControlPlane
  import opened Manifests
  import Version
  import Naming
  import Labels
  import Endpoints
  import AffinityDefaults

  const DataMountPoint: string := "/etc/kine/db"
  const TLSMountPoint: string := "/etc/kine/tls"
  const MetricsPort: int := 8080
  const ClientPort: int := 2379

  /** The image: the configured one, or the default Kine image when none is set. */
  function KineImage(defaults: Version.Defaults, kcp: KinkControlPlane): (image: string)
    ensures kcp.spec.kine.container.image == "" ==> image == defaults.kine
    ensures kcp.spec.kine.container.image != "" ==> image == kcp.spec.kine.container.image
  {
    if kcp.spec.kine.container.image == "" then defaults.kine else kcp.spec.kine.container.image
  }

  /** The SQLite data source inside the data volume. */
  function Endpoint(): (url: string)
    ensures HasPrefix(url, "sqlite://" + DataMountPoint)
  {
    "sqlite://" + DataMountPoint + "/db.sqlite"
  }

  function Selector(kcp: KinkControlPlane): StringMap
  {
    Labels.SelectorLabels(kcp.meta, ComponentKine, ConceptControlPlane)
  }

  function KineContainer(kcp: KinkControlPlane, image: string): Container
  {
    Container(Naming.KineContainer, image, ["kine"],
              ["--listen-address", "0.0.0.0:2379",
               "--endpoint", Endpoint(),
               "--server-cert-file", JoinPath(TLSMountPoint, "tls.crt"),
               "--server-key-file", JoinPath(TLSMountPoint, "tls.key")],
              [MetricsPort, ClientPort],
              kcp.spec.kine.container.imagePullPolicy)
  }

  /** The data volume chosen by the persistence settings, then the server certificate. */
  function Volumes(kcp: KinkControlPlane): (v: seq<Volume>)
    ensures |v| == 2
    ensures v[0] == DataVolume(kcp.spec.kine.persistence)
    ensures v[1] == Volume("tls", SecretVolume(Naming.KineServerCertificate(kcp.meta.name)))
  {
    [DataVolume(kcp.spec.kine.persistence),
     SecretVolumeFor("tls", Naming.KineServerCertificate(kcp.meta.name))]
  }

  function Deployment(defaults: Version.Defaults, kcp: KinkControlPlane): Obj
  {
    var name := Naming.Kine(kcp.meta.name);
    var image := KineImage(defaults, kcp);
    var labels := ComponentLabels(kcp.meta, name, image, ComponentKine, ConceptControlPlane);
    var podSpec := PodSpec(
      AffinityDefaults.AffinityFor(ControlPlaneInstance(kcp)),
      [KineContainer(kcp, image)],
      Volumes(kcp),
      kcp.spec.imagePullSecrets);
    DeploymentObject(
      NewMeta(name, kcp.meta.namespace, labels, InstanceAnnotations(kcp.meta)),
      Selector(kcp), 1,
      PodTemplate(labels, InstanceAnnotations(kcp.meta), podSpec))
  }

  function Service(defaults: Version.Defaults, kcp: KinkControlPlane): Obj
  {
    var name := Naming.Kine(kcp.meta.name);
    ServiceObject(
      NewMeta(name, kcp.meta.namespace,
              ComponentLabels(kcp.meta, name, KineImage(defaults, kcp), ComponentKine, ConceptControlPlane),
              InstanceAnnotations(kcp.meta)),
      "ClusterIP", "", Selector(kcp),
      [ServicePort("metrics", MetricsPort), ServicePort("kine", ClientPort)])
  }

  /** `Kine.Build`: the Service, then the Deployment; it cannot fail. */
  function Build(defaults: Version.Defaults, kcp: KinkControlPlane): (objs: seq<Obj>)
  {
    [Service(defaults, kcp), Deployment(defaults, kcp)]
  }

  lemma BuildKinds(defaults: Version.Defaults, kcp: KinkControlPlane)
    ensures Kinds(Build(defaults, kcp)) == [Kind.Service, Kind.Deployment]
  {
  }

  /** Kine runs one replica whose selector is a sub-map of its pod labels. */
  lemma DeploymentSelector(defaults: Version.Defaults, kcp: KinkControlPlane)
    ensures var d := Deployment(defaults, kcp).body.deployment;
      d.replicas == Some(1) &&
      d.selector.Some? && SubMap(d.selector.value.matchLabels, d.template.labels)
  {
    var name := Naming.Kine(kcp.meta.name);
    SelectorWithinComponentLabels(kcp.meta, name, KineImage(defaults, kcp), ComponentKine, ConceptControlPlane);
  }

  /**
   * The one container serves from the data volume's SQLite file, with Kine's
   * own pull policy; the data volume follows the persistence settings and the
   * TLS volume holds the Kine server certificate.
   */
  lemma DeploymentPods(defaults: Version.Defaults, kcp: KinkControlPlane)
    ensures var spec := Deployment(defaults, kcp).body.deployment.template.spec;
      |spec.containers| == 1 &&
      spec.containers[0].image == KineImage(defaults, kcp) &&
      spec.containers[0].imagePullPolicy == kcp.spec.kine.container.imagePullPolicy &&
      |spec.containers[0].args| == 8 && spec.containers[0].args[2..4] == ["--endpoint", Endpoint()] &&
      ClientPort in spec.containers[0].ports &&
      spec.volumes == [DataVolume(kcp.spec.kine.persistence),
                       Volume("tls", SecretVolume(Naming.KineServerCertificate(kcp.meta.name)))]
  {
  }

  /**
   * The API server finds Kine: its `etcd-servers` URL names the Kine Service,
   * in the control plane's namespace, at the client port the Service exposes.
   */
  lemma APIServerReachesKine(defaults: Version.Defaults, kcp: KinkControlPlane)
    ensures var svc := Service(defaults, kcp);
      var host := if svc.meta.namespace == "" then svc.meta.name
                  else svc.meta.name + "." + svc.meta.namespace + Endpoints.ClusterDomainSuffix;
      Endpoints.KineEndpoint(kcp.meta.name, kcp.meta.namespace) == "https://" + host + ":2379" &&
      ClientPort == 2379 && ServicePort("kine", ClientPort) in svc.body.service.ports
  {
  }
}
