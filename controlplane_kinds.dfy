/**
 * The kinds of object a KinkControlPlane owns, and the two filtered views of
 * them its reconcile uses: the components without the secrets, and the
 * kubeconfig secrets alone.
 */
module ControlPlaneKinds {
  import opened Objects
  import opened Filter

  /** The kinds `GetOwnedResourceTypes` lists, in its order. */
  const OwnedKinds: seq<Kind> := [Deployment, ConfigMap, Secret, Service, Issuer, Certificate, Ingress, Gateway, HTTPRoute]

  /** `GetOwnedResourceTypes(Exclude[*corev1.Secret])`: the kinds of the components. */
  const ComponentKinds: seq<Kind> := ApplyAll([Exclude(Secret)], OwnedKinds)

  /** `GetOwnedResourceTypes(Only[*corev1.Secret])`: the kind of the kubeconfigs. */
  const SecretKinds: seq<Kind> := ApplyAll([Only(Secret)], OwnedKinds)

  /**
   * The two filters split the owned kinds: the components are listed without
   * the secrets and the kubeconfigs with nothing but them, so neither
   * reconcile prunes the other's objects.
   */
  lemma FilteredKinds()
    ensures forall k :: k in ComponentKinds <==> k in OwnedKinds && k != Secret
    ensures SecretKinds == [Secret]
  {
    ApplyOne(Exclude(Secret), OwnedKinds);
    OnlySecrets();
  }

  lemma OnlySecrets()
    ensures SecretKinds == [Secret]
  {
    var front, rest := [Deployment, ConfigMap], [Service, Issuer, Certificate, Ingress, Gateway, HTTPRoute];
    assert OwnedKinds == front + [Secret] + rest;
    OnlySingle(Secret, front, rest);
    ApplyOne(Only(Secret), OwnedKinds);
  }
}
