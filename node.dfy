/**
 * The workload of a KinkMachine (internal/manifests/infrastructure/node.go):
 * a headless Service exposing the kubelet and kube-proxy ports, and a
 * single-replica StatefulSet running the node image with its data volume.
 */
module Node {
  import opened Wrappers
  import opened Objects
  import opened Api
  import opened Manifests
  import Version
  import Naming
  import Labels
  import AffinityDefaults

  const ConceptInfra: string := "kink-infrastructure"
  const ComponentNode: string := "node"
  const NodePortRangeLabel: string := "kink.anza-labs.com/node-port-range"
  const KubeletPort: int := 10250
  const KubeProxyPort: int := 10256

  /** The labels only the Service carries. */
  const ExtraServiceLabels: StringMap := map[NodePortRangeLabel := "30000-32767"]

  /** `corev1.ClusterIPNone`: a headless Service. */
  const ClusterIPNone: string := "None"

  /** The node image: the configured one, or the default node base image when none is set. */
  function NodeImage(defaults: Version.Defaults, m: KinkMachine): (image: string)
    ensures m.spec.container.image == "" ==> image == defaults.nodeBase
    ensures m.spec.container.image != "" ==> image == m.spec.container.image
  {
    if m.spec.container.image == "" then defaults.nodeBase else m.spec.container.image
  }

  function NodeLabels(defaults: Version.Defaults, m: KinkMachine): StringMap
  {
    ComponentLabels(m.meta, Naming.Node(m.meta.name), NodeImage(defaults, m), ComponentNode, ConceptInfra)
  }

  function Selector(m: KinkMachine): StringMap
  {
    Labels.SelectorLabels(m.meta, ComponentNode, ConceptInfra)
  }

  /** The container runs no command of its own yet; it exposes the two node ports. */
  function NodeContainer(m: KinkMachine, image: string): Container
  {
    Container(Naming.NodeBaseContainer, image, [], [], [KubeletPort, KubeProxyPort], m.spec.container.imagePullPolicy)
  }

  function StatefulSet(defaults: Version.Defaults, m: KinkMachine): Obj
  {
    var name := Naming.Node(m.meta.name);
    var labels := NodeLabels(defaults, m);
    var podSpec := PodSpec(
      AffinityDefaults.AffinityFor(MachineInstance(m)),
      [NodeContainer(m, NodeImage(defaults, m))],
      [DataVolume(m.spec.persistence)],
      m.spec.imagePullSecrets);
    Obj(NewMeta(name, m.meta.namespace, labels, InstanceAnnotations(m.meta)),
        StatefulSetBody(StatefulSetSpec(
          Some(LabelSelector(Selector(m))), Some(1), 0, None, None, "", None, "", "", [],
          PodTemplate(labels, InstanceAnnotations(m.meta), podSpec))))
  }

  /** The Service's labels are the node's, with the node-port range added over them. */
  function Service(defaults: Version.Defaults, m: KinkMachine): Obj
  {
    ServiceObject(
      NewMeta(Naming.Node(m.meta.name), m.meta.namespace,
              NodeLabels(defaults, m) + ExtraServiceLabels, InstanceAnnotations(m.meta)),
      "ClusterIP", ClusterIPNone, Selector(m),
      [ServicePort("kubelet", KubeletPort), ServicePort("kube-proxy", KubeProxyPort)])
  }

  /** `Node.Build`: the Service, then the StatefulSet. */
  function Build(defaults: Version.Defaults, m: KinkMachine): seq<Obj>
  {
    [Service(defaults, m), StatefulSet(defaults, m)]
  }

  lemma BuildKinds(defaults: Version.Defaults, m: KinkMachine)
    ensures Kinds(Build(defaults, m)) == [Kind.Service, Kind.StatefulSet]
  {
  }

  /**
   * Service and StatefulSet share the node's name and the machine's
   * namespace, and the Service's selector picks the StatefulSet's pods.
   */
  lemma ServiceSelectsNode(defaults: Version.Defaults, m: KinkMachine)
    ensures var svc, sts := Service(defaults, m), StatefulSet(defaults, m);
      svc.meta.name == sts.meta.name == Naming.Node(m.meta.name) &&
      svc.meta.namespace == sts.meta.namespace == m.meta.namespace &&
      svc.body.service.clusterIP == ClusterIPNone &&
      sts.body.statefulSet.selector == Some(LabelSelector(svc.body.service.selector)) &&
      SubMap(svc.body.service.selector, sts.body.statefulSet.template.labels)
  {
    SelectorWithinComponentLabels(m.meta, Naming.Node(m.meta.name), NodeImage(defaults, m), ComponentNode, ConceptInfra);
  }

  /**
   * The Service carries every label of the StatefulSet except that the
   * node-port range is always its own; nothing else is added.
   */
  lemma ServiceLabels(defaults: Version.Defaults, m: KinkMachine)
    ensures var svc, sts := Service(defaults, m), StatefulSet(defaults, m);
      svc.meta.labels.Keys == sts.meta.labels.Keys + {NodePortRangeLabel} &&
      svc.meta.labels[NodePortRangeLabel] == "30000-32767" &&
      forall k | k in sts.meta.labels && k != NodePortRangeLabel :: svc.meta.labels[k] == sts.meta.labels[k]
  {
    Overlay(NodeLabels(defaults, m));
  }

  lemma Overlay(labels: StringMap)
    ensures var r := labels + ExtraServiceLabels;
      r.Keys == labels.Keys + {NodePortRangeLabel} && r[NodePortRangeLabel] == "30000-32767" &&
      forall k | k in labels && k != NodePortRangeLabel :: r[k] == labels[k]
  {
  }

  /** One replica, running the node image on the data volume the persistence settings choose. */
  lemma StatefulSetPods(defaults: Version.Defaults, m: KinkMachine)
    ensures var s := StatefulSet(defaults, m).body.statefulSet;
      s.replicas == Some(1) &&
      |s.template.spec.containers| == 1 &&
      s.template.spec.containers[0].image == NodeImage(defaults, m) &&
      s.template.spec.containers[0].ports == [KubeletPort, KubeProxyPort] &&
      s.template.spec.volumes == [DataVolume(m.spec.persistence)]
  {
  }
}
