/**
 * Scheduling constraints of the pods built for a managed resource
 * (internal/manifests/manifestutils/affinity.go).
 */
module AffinityDefaults {
  import opened Wrappers
  import opened Objects
  import opened Api

  const LabelOS: string := "kubernetes.io/os"
  const LabelArch: string := "kubernetes.io/arch"
  const OpIn: string := "In"

  /** Linux nodes on amd64 or arm64: one required term with two requirements. */
  const DefaultAffinity: Affinity := Affinity([[
    NodeSelectorRequirement(LabelArch, OpIn, ["amd64", "arm64"]),
    NodeSelectorRequirement(LabelOS, OpIn, ["linux"])]])

  /** The affinity the instance sets, if it is a kind that has one. */
  function Configured(instance: Instance): Option<Affinity>
  {
    match instance
    case ControlPlaneInstance(cp) => cp.spec.affinity
    case MachineInstance(m) => m.spec.affinity
    case ClusterInstance(_) => None
  }

  /** `Affinity`: the configured affinity of a control plane or a machine, otherwise the default. */
  function AffinityFor(instance: Instance): (a: Affinity)
    ensures instance.ControlPlaneInstance? && instance.controlPlane.spec.affinity.Some? ==>
      a == instance.controlPlane.spec.affinity.value
    ensures instance.MachineInstance? && instance.machine.spec.affinity.Some? ==>
      a == instance.machine.spec.affinity.value
    ensures Configured(instance).None? ==> a == DefaultAffinity
  {
    match Configured(instance)
    case Some(a) => a
    case None => DefaultAffinity
  }

  /** The default asks for exactly one term: arch In [amd64, arm64], then os In [linux]. */
  lemma DefaultAffinityShape()
    ensures |DefaultAffinity.requiredTerms| == 1
    ensures |DefaultAffinity.requiredTerms[0]| == 2
    ensures DefaultAffinity.requiredTerms[0][0].key == LabelArch
    ensures DefaultAffinity.requiredTerms[0][0].values == ["amd64", "arm64"]
    ensures DefaultAffinity.requiredTerms[0][1].key == LabelOS
    ensures DefaultAffinity.requiredTerms[0][1].values == ["linux"]
    ensures forall r | r in DefaultAffinity.requiredTerms[0] :: r.operator == OpIn
  {
  }
}
