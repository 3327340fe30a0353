/**
 * The mutation policy (internal/manifests/mutate.go): how an object read from
 * the store (`existing`) is brought in line with the object the operator
 * built (`desired`) before it is written back. Labels and annotations are
 * merged with the desired value winning, owner references replaced when
 * desired has some, and each kind's spec fields copied by its own rule;
 * persisted Deployments and StatefulSets refuse changes to their immutable
 * fields.
 *
 * `Mutate` states the whole outcome as a function; `MutateFuncFor` and the
 * StatefulSet mutator work in place on `ObjectHandle`s, as the Go code does
 * through pointers, and are proved to reach that outcome.
 */
module Mutate {
  import opened Wrappers
  import opened Errors
  import opened Objects
  import opened Strings

  /** A `client.Object` pointer: the object it designates can be rewritten in place. */
  class ObjectHandle {
    var obj: Obj

    constructor (o: Obj)
      ensures obj == o
    {
      obj := o;
    }
  }

  /** `mergo.Merge(&dst, src, mergo.WithOverride)` on string maps: every key of both, src winning. */
  function MergeWithOverride(dst: StringMap, src: StringMap): (r: StringMap)
    ensures r.Keys == dst.Keys + src.Keys
    ensures forall k | k in src :: r[k] == src[k]
    ensures forall k | k in dst && k !in src :: r[k] == dst[k]
  {
    dst + src
  }

  /** The first part of every mutation: merged annotations and labels, desired's owners if it has any. */
  function MergeMeta(existing: ObjectMeta, desired: ObjectMeta): ObjectMeta
  {
    existing.(annotations := MergeWithOverride(existing.annotations, desired.annotations),
              labels := MergeWithOverride(existing.labels, desired.labels),
              ownerReferences := if |desired.ownerReferences| > 0 then desired.ownerReferences else existing.ownerReferences)
  }

  /** What a mutation leaves behind: both objects (desired can be rewritten too) and the error, if any. */
  datatype Outcome = Outcome(existing: Obj, desired: Obj, err: Option<Error>)

  /** `hasImmutableLabelChange`: some selector label is missing from, or differs in, the desired template labels. */
  function HasImmutableLabelChange(selectorLabels: StringMap, desiredLabels: StringMap): (r: Option<Error>)
    ensures r.None? <==> forall k | k in selectorLabels :: k in desiredLabels && desiredLabels[k] == selectorLabels[k]
    ensures r.Some? ==> r.value == ImmutableFieldChange("Spec.Template.Metadata.Labels")
  {
    if SubMap(selectorLabels, desiredLabels) then None
    else Some(ImmutableFieldChange("Spec.Template.Metadata.Labels"))
  }

  /** `mutatePodTemplate`: labels and annotations merged, the pod spec replaced. */
  function MutatePodTemplate(existing: PodTemplate, desired: PodTemplate): PodTemplate
  {
    PodTemplate(MergeWithOverride(existing.labels, desired.labels),
                MergeWithOverride(existing.annotations, desired.annotations),
                desired.spec)
  }

  /** The fields `mutateDeployment` copies once the immutability checks have passed. */
  function UpdateDeployment(existing: DeploymentSpec, desired: DeploymentSpec): DeploymentSpec
  {
    existing.(minReadySeconds := desired.minReadySeconds,
              paused := desired.paused,
              progressDeadlineSeconds := desired.progressDeadlineSeconds,
              replicas := desired.replicas,
              revisionHistoryLimit := desired.revisionHistoryLimit,
              strategy := desired.strategy,
              template := MutatePodTemplate(existing.template, desired.template))
  }

  /**
   * The checks of a persisted workload's selector: it must equal desired's,
   * and its labels must appear unchanged in desired's template. Dereferencing
   * a selector that is nil on both sides panics.
   */
  function SelectorCheck(existing: Option<LabelSelector>, desired: Option<LabelSelector>, desiredLabels: StringMap): (r: Option<Error>)
  {
    if desired != existing then Some(ImmutableFieldChange("Spec.Selector"))
    else if existing.None? then Some(Panic("nil selector"))
    else HasImmutableLabelChange(existing.value.matchLabels, desiredLabels)
  }

  function MutateDeployment(existing: Obj, desired: Obj): (r: Outcome)
    requires existing.body.DeploymentBody? && desired.body.DeploymentBody?
    ensures r.existing.meta == existing.meta && r.existing.body.DeploymentBody? && r.desired == desired
  {
    var e, d := existing.body.deployment, desired.body.deployment;
    var check := if existing.meta.persisted then SelectorCheck(e.selector, d.selector, d.template.labels) else None;
    if check.Some? then Outcome(existing, desired, check)
    else Outcome(existing.(body := existing.body.(deployment := UpdateDeployment(e, d))), desired, None)
  }

  /** A volume-claim template whose unset volume mode is taken from the existing one. */
  function Fill(existing: ClaimTemplate, desired: ClaimTemplate): (r: ClaimTemplate)
    ensures r.typeMeta == desired.typeMeta && r.meta == desired.meta && r.status == desired.status
    ensures r.spec.accessModes == desired.spec.accessModes && r.spec.storage == desired.spec.storage
  {
    if desired.spec.volumeMode.None? || desired.spec.volumeMode == Some("") then
      desired.(spec := desired.spec.(volumeMode := existing.spec.volumeMode))
    else desired
  }

  /** The comparisons of `hasVolumeClaimsTemplatesChanged`: name, annotations, labels and spec. */
  predicate Differs(existing: ClaimTemplate, desired: ClaimTemplate)
  {
    desired.meta.name != existing.meta.name || desired.meta.annotations != existing.meta.annotations ||
    desired.meta.labels != existing.meta.labels || desired.spec != existing.spec
  }

  /**
   * The scan from index `i`: each desired template is filled in place, then
   * compared; the first difference stops the scan. Returns whether a change
   * was found and desired's templates as the scan left them.
   */
  function ScanFrom(existing: seq<ClaimTemplate>, desired: seq<ClaimTemplate>, i: nat): (r: (bool, seq<ClaimTemplate>))
    requires |existing| == |desired| && i <= |desired|
    ensures |r.1| == |desired|
    decreases |desired| - i
  {
    if i == |desired| then (false, desired)
    else
      var filled := desired[i := Fill(existing[i], desired[i])];
      if Differs(existing[i], filled[i]) then (true, filled) else ScanFrom(existing, filled, i + 1)
  }

  /** `hasVolumeClaimsTemplatesChanged`, with desired's templates as it leaves them. */
  function VolumeClaimsChanged(existing: seq<ClaimTemplate>, desired: seq<ClaimTemplate>): (r: (bool, seq<ClaimTemplate>))
    ensures |r.1| == |desired|
  {
    if |desired| != |existing| then (true, desired) else ScanFrom(existing, desired, 0)
  }

  /**
   * The copy loop: each existing template takes desired's type, metadata and
   * spec at the same index and keeps its status. Indices desired lacks are
   * left alone; the loop reaches the first of them only to panic.
   */
  function CopyClaims(existing: seq<ClaimTemplate>, desired: seq<ClaimTemplate>): (r: seq<ClaimTemplate>)
    ensures |r| == |existing|
    ensures forall i | 0 <= i < |existing| && i < |desired| ::
      r[i] == ClaimTemplate(desired[i].typeMeta, desired[i].meta, desired[i].spec, existing[i].status)
    ensures forall i | |desired| <= i < |existing| :: r[i] == existing[i]
  {
    seq(|existing|, i requires 0 <= i < |existing| =>
      if i < |desired| then ClaimTemplate(desired[i].typeMeta, desired[i].meta, desired[i].spec, existing[i].status)
      else existing[i])
  }

  /** The fields `mutateStatefulSet` copies before the template loop. */
  function UpdateStatefulSetFields(existing: StatefulSetSpec, desired: StatefulSetSpec): StatefulSetSpec
  {
    existing.(minReadySeconds := desired.minReadySeconds,
              ordinals := desired.ordinals,
              retentionPolicy := desired.retentionPolicy,
              podManagementPolicy := desired.podManagementPolicy,
              replicas := desired.replicas,
              revisionHistoryLimit := desired.revisionHistoryLimit,
              serviceName := desired.serviceName,
              updateStrategy := desired.updateStrategy)
  }

  function WithStatefulSet(o: Obj, s: StatefulSetSpec): Obj
    requires o.body.StatefulSetBody?
  {
    o.(body := StatefulSetBody(s))
  }

  function WithClaims(o: Obj, claims: seq<ClaimTemplate>): (r: Obj)
    requires o.body.StatefulSetBody?
    ensures r.body.StatefulSetBody? && r.body.statefulSet.volumeClaimTemplates == claims
  {
    WithStatefulSet(o, o.body.statefulSet.(volumeClaimTemplates := claims))
  }

  /**
   * `mutateStatefulSet`, after the checks: field copies, the template loop, the
   * pod template. A desired list shorter than the existing one panics in the
   * loop, after the fields and the shared prefix have been copied.
   */
  function UpdateStatefulSet(existing: Obj, desired: Obj): Outcome
    requires existing.body.StatefulSetBody? && desired.body.StatefulSetBody?
  {
    var e, d := existing.body.statefulSet, desired.body.statefulSet;
    var copied := UpdateStatefulSetFields(e, d).(volumeClaimTemplates := CopyClaims(e.volumeClaimTemplates, d.volumeClaimTemplates));
    if |d.volumeClaimTemplates| < |e.volumeClaimTemplates| then
      Outcome(WithStatefulSet(existing, copied), desired, Some(Panic("index out of range")))
    else
      Outcome(WithStatefulSet(existing, copied.(template := MutatePodTemplate(e.template, d.template))), desired, None)
  }

  function MutateStatefulSet(existing: Obj, desired: Obj): (r: Outcome)
    requires existing.body.StatefulSetBody? && desired.body.StatefulSetBody?
    ensures r.existing.meta == existing.meta && r.existing.body.StatefulSetBody? && r.desired.body.StatefulSetBody?
    ensures r.err.Some? ==> r.err.value.ImmutableFieldChange? || r.err.value.Panic?
  {
    var e, d := existing.body.statefulSet, desired.body.statefulSet;
    if !existing.meta.persisted then UpdateStatefulSet(existing, desired)
    else
      var check := SelectorCheck(e.selector, d.selector, d.template.labels);
      if check.Some? then Outcome(existing, desired, check)
      else
        var (changed, filled) := VolumeClaimsChanged(e.volumeClaimTemplates, d.volumeClaimTemplates);
        var desired' := WithClaims(desired, filled);
        if changed then Outcome(existing, desired', Some(ImmutableFieldChange("Spec.VolumeClaimTemplates")))
        else UpdateStatefulSet(existing, desired')
  }

  /** The Go type name `reflect` reports: every handled type lives in a package named `v1`. */
  function TypeName(k: Kind): (name: string)
    ensures HasPrefix(name, "*v1.")
  {
    "*v1." +
    match k
    case Deployment => "Deployment"
    case StatefulSet => "StatefulSet"
    case Service => "Service"
    case ConfigMap => "ConfigMap"
    case Secret => "Secret"
    case Issuer => "Issuer"
    case Certificate => "Certificate"
    case Ingress => "Ingress"
    case Gateway => "Gateway"
    case HTTPRoute => "HTTPRoute"
    case DaemonSet => "DaemonSet"
    case ServiceAccount => "ServiceAccount"
    case ClusterRole => "ClusterRole"
    case ClusterRoleBinding => "ClusterRoleBinding"
  }

  /** The types `MutateFuncFor` has a case for. */
  predicate HasMutateRule(k: Kind)
  {
    !(k == Kind.Ingress || k == Kind.DaemonSet || k == Kind.ServiceAccount || k == Kind.ClusterRole || k == Kind.ClusterRoleBinding)
  }

  /** The kind-specific rule, applied after the metadata merge. */
  function MutateBody(existing: Obj, desired: Obj): (r: Outcome)
    requires KindOf(existing) == KindOf(desired)
    ensures KindOf(r.existing) == KindOf(existing) && KindOf(r.desired) == KindOf(desired)
  {
    match existing.body
    case ServiceBody(s) =>
      var want := desired.body.service;
      Outcome(existing.(body := ServiceBody(s.(ports := want.ports, selector := want.selector))), desired, None)
    case DeploymentBody(_, _) => MutateDeployment(existing, desired)
    case StatefulSetBody(_) => MutateStatefulSet(existing, desired)
    case GatewayBody(g) =>
      var want := desired.body.gateway;
      Outcome(Obj(existing.meta.(labels := desired.meta.labels, annotations := desired.meta.annotations),
                  GatewayBody(g.(gatewayClassName := want.gatewayClassName, listeners := want.listeners))), desired, None)
    case HTTPRouteBody(_) =>
      Outcome(Obj(existing.meta.(labels := desired.meta.labels, annotations := desired.meta.annotations),
                  HTTPRouteBody(desired.body.route)), desired, None)
    case SecretBody(t, _) =>
      Outcome(Obj(existing.meta.(labels := desired.meta.labels, annotations := desired.meta.annotations),
                  SecretBody(t, desired.body.secretData)), desired, None)
    case ConfigMapBody(_, _) =>
      Outcome(existing.(body := ConfigMapBody(desired.body.data, desired.body.binaryData)), desired, None)
    case CertificateBody(_) =>
      Outcome(Obj(existing.meta.(labels := desired.meta.labels, annotations := desired.meta.annotations),
                  CertificateBody(desired.body.certificate)), desired, None)
    case IssuerBody(_) =>
      Outcome(Obj(existing.meta.(labels := desired.meta.labels, annotations := desired.meta.annotations),
                  IssuerBody(desired.body.issuer)), desired, None)
    case _ => Outcome(existing, desired, Some(MissingMutateImplementation(TypeName(KindOf(existing)))))
  }

  /**
   * The mutate function `MutateFuncFor(existing, desired)` returns, run once.
   * Both objects have the same Go type: the reconcile loop makes `existing` as
   * a deep copy of `desired`, and a type assertion would panic otherwise.
   */
  function Mutate(existing: Obj, desired: Obj): (r: Outcome)
    requires KindOf(existing) == KindOf(desired)
    ensures KindOf(r.existing) == KindOf(existing) && KindOf(r.desired) == KindOf(desired)
  {
    MutateBody(existing.(meta := MergeMeta(existing.meta, desired.meta)), desired)
  }

  /** The in-place form of `hasVolumeClaimsTemplatesChanged`: desired's templates are filled as the scan goes. */
  method HasVolumeClaimsTemplatesChanged(existing: ObjectHandle, desired: ObjectHandle) returns (changed: bool)
    requires existing != desired
    requires existing.obj.body.StatefulSetBody? && desired.obj.body.StatefulSetBody?
    modifies desired
    ensures var (c, filled) := VolumeClaimsChanged(existing.obj.body.statefulSet.volumeClaimTemplates,
                                                   old(desired.obj.body.statefulSet.volumeClaimTemplates));
      changed == c && desired.obj == WithClaims(old(desired.obj), filled)
  {
    var e := existing.obj.body.statefulSet.volumeClaimTemplates;
    ghost var start := desired.obj;
    if |desired.obj.body.statefulSet.volumeClaimTemplates| != |e| {
      assert desired.obj == WithClaims(start, start.body.statefulSet.volumeClaimTemplates);
      return true;
    }
    var i := 0;
    while i < |e|
      invariant i <= |e|
      invariant desired.obj.body.StatefulSetBody?
      invariant |desired.obj.body.statefulSet.volumeClaimTemplates| == |e|
      invariant desired.obj == WithClaims(start, desired.obj.body.statefulSet.volumeClaimTemplates)
      invariant ScanFrom(e, desired.obj.body.statefulSet.volumeClaimTemplates, i) ==
        VolumeClaimsChanged(e, start.body.statefulSet.volumeClaimTemplates)
    {
      var d := desired.obj.body.statefulSet.volumeClaimTemplates;
      if d[i].spec.volumeMode.None? || d[i].spec.volumeMode == Some("") {
        desired.obj := WithClaims(desired.obj, d[i := d[i].(spec := d[i].spec.(volumeMode := e[i].spec.volumeMode))]);
      } else {
        assert d[i := d[i]] == d;
      }
      var f := desired.obj.body.statefulSet.volumeClaimTemplates[i];
      if f.meta.name != e[i].meta.name || f.meta.annotations != e[i].meta.annotations ||
         f.meta.labels != e[i].meta.labels || f.spec != e[i].spec {
        return true;
      }
      i := i + 1;
    }
    return false;
  }

  /** The copy loop of `mutateStatefulSet`, over existing's indices; it reports the out-of-range panic. */
  method CopyClaimTemplates(existing: ObjectHandle, desired: ObjectHandle) returns (panicked: bool)
    requires existing != desired
    requires existing.obj.body.StatefulSetBody? && desired.obj.body.StatefulSetBody?
    modifies existing
    ensures panicked <==> |desired.obj.body.statefulSet.volumeClaimTemplates| < |old(existing.obj.body.statefulSet.volumeClaimTemplates)|
    ensures existing.obj == WithClaims(old(existing.obj),
      CopyClaims(old(existing.obj.body.statefulSet.volumeClaimTemplates), desired.obj.body.statefulSet.volumeClaimTemplates))
  {
    ghost var start := existing.obj;
    var e0 := existing.obj.body.statefulSet.volumeClaimTemplates;
    var d := desired.obj.body.statefulSet.volumeClaimTemplates;
    ghost var target := CopyClaims(e0, d);
    for i := 0 to |e0|
      invariant existing.obj.body.StatefulSetBody?
      invariant existing.obj == WithClaims(start, existing.obj.body.statefulSet.volumeClaimTemplates)
      invariant i <= |d|
      invariant |existing.obj.body.statefulSet.volumeClaimTemplates| == |e0|
      invariant forall j | 0 <= j < i :: existing.obj.body.statefulSet.volumeClaimTemplates[j] == target[j]
      invariant forall j | i <= j < |e0| :: existing.obj.body.statefulSet.volumeClaimTemplates[j] == e0[j]
    {
      if i >= |d| {
        assert existing.obj.body.statefulSet.volumeClaimTemplates == target;
        return true;
      }
      var cur := existing.obj.body.statefulSet.volumeClaimTemplates;
      existing.obj := WithClaims(existing.obj, cur[i := cur[i].(typeMeta := d[i].typeMeta, meta := d[i].meta, spec := d[i].spec)]);
    }
    assert existing.obj.body.statefulSet.volumeClaimTemplates == target;
    return false;
  }

  /** `mutateStatefulSet` in place: the checks, the field copies, the template loop and the pod template. */
  method MutateStatefulSetInPlace(existing: ObjectHandle, desired: ObjectHandle) returns (err: Option<Error>)
    requires existing != desired
    requires existing.obj.body.StatefulSetBody? && desired.obj.body.StatefulSetBody?
    modifies existing, desired
    ensures Outcome(existing.obj, desired.obj, err) == MutateStatefulSet(old(existing.obj), old(desired.obj))
  {
    var e := existing.obj.body.statefulSet;
    if existing.obj.meta.persisted {
      var d := desired.obj.body.statefulSet;
      var check := SelectorCheck(e.selector, d.selector, d.template.labels);
      if check.Some? {
        return check;
      }
      var changed := HasVolumeClaimsTemplatesChanged(existing, desired);
      if changed {
        return Some(ImmutableFieldChange("Spec.VolumeClaimTemplates"));
      }
    }
    var d := desired.obj.body.statefulSet;
    existing.obj := WithStatefulSet(existing.obj, UpdateStatefulSetFields(e, d));
    var panicked := CopyClaimTemplates(existing, desired);
    if panicked {
      return Some(Panic("index out of range"));
    }
    var s := existing.obj.body.statefulSet;
    existing.obj := WithStatefulSet(existing.obj, s.(template := MutatePodTemplate(s.template, d.template)));
    return None;
  }

  /** The closure `MutateFuncFor` returns, run on the two objects in place. */
  method MutateFuncFor(existing: ObjectHandle, desired: ObjectHandle) returns (err: Option<Error>)
    requires existing != desired
    requires KindOf(existing.obj) == KindOf(desired.obj)
    modifies existing, desired
    ensures Outcome(existing.obj, desired.obj, err) == Mutate(old(existing.obj), old(desired.obj))
  {
    var want := desired.obj;
    var m := existing.obj.meta;
    existing.obj := existing.obj.(meta := m.(annotations := MergeWithOverride(m.annotations, want.meta.annotations)));
    m := existing.obj.meta;
    existing.obj := existing.obj.(meta := m.(labels := MergeWithOverride(m.labels, want.meta.labels)));
    if |want.meta.ownerReferences| > 0 {
      existing.obj := existing.obj.(meta := existing.obj.meta.(ownerReferences := want.meta.ownerReferences));
    }
    assert existing.obj == old(existing.obj).(meta := MergeMeta(old(existing.obj).meta, want.meta));
    if existing.obj.body.StatefulSetBody? {
      assert MutateBody(existing.obj, want) == MutateStatefulSet(existing.obj, want);
      err := MutateStatefulSetInPlace(existing, desired);
    } else {
      var r := MutateBody(existing.obj, want);
      existing.obj := r.existing;
      err := r.err;
    }
  }

  /** The kinds whose rule sets labels and annotations to exactly desired's. */
  predicate TakesDesiredMetadata(k: Kind)
  {
    k == Kind.Secret || k == Kind.Gateway || k == Kind.HTTPRoute || k == Kind.Certificate || k == Kind.Issuer
  }

  /** The metadata a mutation leaves on `existing`, kind by kind. */
  lemma MutatedMeta(existing: Obj, desired: Obj)
    requires KindOf(existing) == KindOf(desired)
    ensures var m := MergeMeta(existing.meta, desired.meta);
      Mutate(existing, desired).existing.meta ==
        if TakesDesiredMetadata(KindOf(existing)) then m.(labels := desired.meta.labels, annotations := desired.meta.annotations)
        else m
  {
    BodyMeta(existing.(meta := MergeMeta(existing.meta, desired.meta)), desired);
  }

  /** The kind-specific rules touch only the labels and annotations of the object's metadata. */
  lemma BodyMeta(existing: Obj, desired: Obj)
    requires KindOf(existing) == KindOf(desired)
    ensures MutateBody(existing, desired).existing.meta ==
      if TakesDesiredMetadata(KindOf(existing)) then existing.meta.(labels := desired.meta.labels, annotations := desired.meta.annotations)
      else existing.meta
  {
    if existing.body.DeploymentBody? || existing.body.StatefulSetBody? {
      WorkloadMeta(existing, desired);
    }
  }

  /** The rules for Deployments and StatefulSets leave the metadata alone. */
  lemma WorkloadMeta(existing: Obj, desired: Obj)
    requires KindOf(existing) == KindOf(desired)
    requires existing.body.DeploymentBody? || existing.body.StatefulSetBody?
    ensures MutateBody(existing, desired).existing.meta == existing.meta
  {
  }

  /** After any mutation, every desired label and annotation is present with its desired value. */
  lemma DesiredMetadataWins(existing: Obj, desired: Obj)
    requires KindOf(existing) == KindOf(desired)
    ensures var r := Mutate(existing, desired).existing;
      (forall k | k in desired.meta.labels :: k in r.meta.labels && r.meta.labels[k] == desired.meta.labels[k]) &&
      (forall k | k in desired.meta.annotations :: k in r.meta.annotations && r.meta.annotations[k] == desired.meta.annotations[k])
  {
    MutatedMeta(existing, desired);
  }

  /**
   * Existing-only labels and annotations survive, except for the kinds whose
   * rule sets them to exactly desired's: Secret, Gateway, HTTPRoute,
   * Certificate and Issuer.
   */
  lemma ExistingMetadataKept(existing: Obj, desired: Obj)
    requires KindOf(existing) == KindOf(desired)
    ensures var r := Mutate(existing, desired).existing;
      if TakesDesiredMetadata(KindOf(existing)) then
        r.meta.labels == desired.meta.labels && r.meta.annotations == desired.meta.annotations
      else
        r.meta.labels == MergeWithOverride(existing.meta.labels, desired.meta.labels) &&
        r.meta.annotations == MergeWithOverride(existing.meta.annotations, desired.meta.annotations)
  {
    MutatedMeta(existing, desired);
  }

  /** Owner references become desired's exactly when desired has some; name, namespace and UID never change. */
  lemma OwnerReferencesRule(existing: Obj, desired: Obj)
    requires KindOf(existing) == KindOf(desired)
    ensures var r := Mutate(existing, desired).existing;
      r.meta.ownerReferences == (if |desired.meta.ownerReferences| > 0 then desired.meta.ownerReferences
                                 else existing.meta.ownerReferences) &&
      r.meta.name == existing.meta.name && r.meta.namespace == existing.meta.namespace && r.meta.uid == existing.meta.uid
  {
    MutatedMeta(existing, desired);
  }

  /** Exactly the kinds without a rule fail with "missing mutate implementation"; the metadata is merged all the same. */
  lemma MissingRule(existing: Obj, desired: Obj)
    requires KindOf(existing) == KindOf(desired)
    ensures var o := Mutate(existing, desired);
      (o.err.Some? && o.err.value.MissingMutateImplementation?) <==> !HasMutateRule(KindOf(existing))
    ensures !HasMutateRule(KindOf(existing)) ==>
      Mutate(existing, desired) == Outcome(existing.(meta := MergeMeta(existing.meta, desired.meta)), desired,
                                           Some(MissingMutateImplementation(TypeName(KindOf(existing)))))
  {
    BodyMissing(existing.(meta := MergeMeta(existing.meta, desired.meta)), desired);
  }

  lemma BodyMissing(existing: Obj, desired: Obj)
    requires KindOf(existing) == KindOf(desired)
    ensures var o := MutateBody(existing, desired);
      (o.err.Some? && o.err.value.MissingMutateImplementation?) <==> !HasMutateRule(KindOf(existing))
    ensures !HasMutateRule(KindOf(existing)) ==>
      MutateBody(existing, desired) == Outcome(existing, desired, Some(MissingMutateImplementation(TypeName(KindOf(existing)))))
  {
    match existing.body
    case DeploymentBody(_, _) =>
    case StatefulSetBody(_) =>
    case _ =>
  }

  /** Only Deployments and StatefulSets can be refused, and only when persisted. */
  lemma OnlyPersistedWorkloadsRefuse(existing: Obj, desired: Obj)
    requires KindOf(existing) == KindOf(desired)
    ensures var o := Mutate(existing, desired);
      o.err.Some? && o.err.value.ImmutableFieldChange? ==>
        existing.meta.persisted && KindOf(existing) in {Kind.Deployment, Kind.StatefulSet}
  {
    var merged := existing.(meta := MergeMeta(existing.meta, desired.meta));
    assert Mutate(existing, desired) == MutateBody(merged, desired);
  }

  /** A Service keeps its type and cluster IP, and takes desired's ports and selector. */
  lemma ServiceRule(existing: Obj, desired: Obj)
    requires existing.body.ServiceBody? && desired.body.ServiceBody?
    ensures var o := Mutate(existing, desired);
      o.err.None? && o.desired == desired &&
      o.existing.body == ServiceBody(ServiceSpec(existing.body.service.serviceType, existing.body.service.clusterIP,
                                                 desired.body.service.selector, desired.body.service.ports))
  {
    var merged := existing.(meta := MergeMeta(existing.meta, desired.meta));
    assert Mutate(existing, desired) == MutateBody(merged, desired);
  }

  /** A ConfigMap takes desired's text and binary data and keeps its merged metadata. */
  lemma ConfigMapRule(existing: Obj, desired: Obj)
    requires existing.body.ConfigMapBody? && desired.body.ConfigMapBody?
    ensures var o := Mutate(existing, desired);
      o.err.None? && o.desired == desired &&
      o.existing == Obj(MergeMeta(existing.meta, desired.meta), desired.body)
  {
    var merged := existing.(meta := MergeMeta(existing.meta, desired.meta));
    assert Mutate(existing, desired) == MutateBody(merged, desired);
  }

  /** A Secret keeps its type, and takes desired's data, labels and annotations. */
  lemma SecretRule(existing: Obj, desired: Obj)
    requires existing.body.SecretBody? && desired.body.SecretBody?
    ensures var o := Mutate(existing, desired);
      o.err.None? &&
      o.existing.body == SecretBody(existing.body.secretType, desired.body.secretData) &&
      o.existing.meta.labels == desired.meta.labels && o.existing.meta.annotations == desired.meta.annotations
  {
    var merged := existing.(meta := MergeMeta(existing.meta, desired.meta));
    assert Mutate(existing, desired) == MutateBody(merged, desired);
  }

  /** A Gateway keeps its addresses, and takes desired's class and listeners. */
  lemma GatewayRule(existing: Obj, desired: Obj)
    requires existing.body.GatewayBody? && desired.body.GatewayBody?
    ensures var o := Mutate(existing, desired);
      o.err.None? &&
      o.existing.body == GatewayBody(GatewaySpec(desired.body.gateway.gatewayClassName, desired.body.gateway.listeners,
                                                 existing.body.gateway.addresses))
  {
    var merged := existing.(meta := MergeMeta(existing.meta, desired.meta));
    assert Mutate(existing, desired) == MutateBody(merged, desired);
  }

  /** An HTTPRoute takes desired's parent references, host names and rules, labels and annotations. */
  lemma HTTPRouteRule(existing: Obj, desired: Obj)
    requires existing.body.HTTPRouteBody? && desired.body.HTTPRouteBody?
    ensures var o := Mutate(existing, desired);
      o.err.None? && o.desired == desired &&
      o.existing.body.route.parentRefs == desired.body.route.parentRefs &&
      o.existing.body.route.hostnames == desired.body.route.hostnames &&
      o.existing.body.route.rules == desired.body.route.rules &&
      o.existing.meta.labels == desired.meta.labels && o.existing.meta.annotations == desired.meta.annotations
  {
    var merged := existing.(meta := MergeMeta(existing.meta, desired.meta));
    assert Mutate(existing, desired) == MutateBody(merged, desired);
  }

  /** A Certificate takes desired's whole spec, labels and annotations. */
  lemma CertificateRule(existing: Obj, desired: Obj)
    requires existing.body.CertificateBody? && desired.body.CertificateBody?
    ensures var o := Mutate(existing, desired);
      o.err.None? && o.desired == desired &&
      o.existing.body == CertificateBody(desired.body.certificate) &&
      o.existing.meta.labels == desired.meta.labels && o.existing.meta.annotations == desired.meta.annotations
  {
    var merged := existing.(meta := MergeMeta(existing.meta, desired.meta));
    assert Mutate(existing, desired) == MutateBody(merged, desired);
  }

  /** An Issuer takes desired's whole spec, labels and annotations. */
  lemma IssuerRule(existing: Obj, desired: Obj)
    requires existing.body.IssuerBody? && desired.body.IssuerBody?
    ensures var o := Mutate(existing, desired);
      o.err.None? && o.desired == desired &&
      o.existing.body == IssuerBody(desired.body.issuer) &&
      o.existing.meta.labels == desired.meta.labels && o.existing.meta.annotations == desired.meta.annotations
  {
    var merged := existing.(meta := MergeMeta(existing.meta, desired.meta));
    assert Mutate(existing, desired) == MutateBody(merged, desired);
  }

  /** A persisted Deployment whose selector or template labels would change is refused before any spec field is written. */
  lemma DeploymentRefused(existing: Obj, desired: Obj)
    requires existing.body.DeploymentBody? && desired.body.DeploymentBody?
    requires existing.meta.persisted
    ensures var e, d := existing.body.deployment, desired.body.deployment;
      var o := Mutate(existing, desired);
      (d.selector != e.selector ==> o.err == Some(ImmutableFieldChange("Spec.Selector"))) &&
      (d.selector == e.selector && e.selector.Some? && !SubMap(e.selector.value.matchLabels, d.template.labels) ==>
        o.err == Some(ImmutableFieldChange("Spec.Template.Metadata.Labels"))) &&
      (o.err.Some? ==> o.existing.body == existing.body)
  {
    var merged := existing.(meta := MergeMeta(existing.meta, desired.meta));
    assert Mutate(existing, desired) == MutateBody(merged, desired);
  }

  /**
   * A Deployment that is accepted takes desired's replica count, rollout
   * settings and pod spec, merges its template metadata and keeps its selector
   * and status. An unpersisted Deployment is always accepted.
   */
  lemma DeploymentAccepted(existing: Obj, desired: Obj)
    requires existing.body.DeploymentBody? && desired.body.DeploymentBody?
    ensures !existing.meta.persisted ==> Mutate(existing, desired).err.None?
    ensures var o := Mutate(existing, desired);
      var e, d := existing.body.deployment, desired.body.deployment;
      o.err.None? ==>
        o.existing.body == DeploymentBody(
          DeploymentSpec(e.selector, d.replicas, d.minReadySeconds, d.paused, d.progressDeadlineSeconds,
                         d.revisionHistoryLimit, d.strategy, MutatePodTemplate(e.template, d.template)),
          existing.body.status)
  {
    var merged := existing.(meta := MergeMeta(existing.meta, desired.meta));
    assert Mutate(existing, desired) == MutateBody(merged, desired);
  }

  /**
   * A persisted StatefulSet is refused, untouched, when its selector would
   * change or when the volume-claim templates differ; the check may still
   * have filled desired's unset volume modes.
   */
  lemma StatefulSetRefused(existing: Obj, desired: Obj)
    requires existing.body.StatefulSetBody? && desired.body.StatefulSetBody?
    requires existing.meta.persisted
    ensures var e, d := existing.body.statefulSet, desired.body.statefulSet;
      var o := Mutate(existing, desired);
      (d.selector != e.selector ==> o.err == Some(ImmutableFieldChange("Spec.Selector"))) &&
      (d.selector == e.selector && e.selector.Some? && SubMap(e.selector.value.matchLabels, d.template.labels) &&
       VolumeClaimsChanged(e.volumeClaimTemplates, d.volumeClaimTemplates).0 ==>
         o.err == Some(ImmutableFieldChange("Spec.VolumeClaimTemplates"))) &&
      (o.err.Some? && o.err.value.ImmutableFieldChange? ==> o.existing.body == existing.body)
  {
    var merged := existing.(meta := MergeMeta(existing.meta, desired.meta));
    assert Mutate(existing, desired) == MutateStatefulSet(merged, desired);
  }

  /**
   * A StatefulSet that is accepted takes desired's replica count, policies,
   * service name and pod spec, keeps its selector, and copies desired's
   * volume-claim templates (as the check filled them) over its own, keeping
   * their status. An unpersisted one is accepted exactly when desired has at
   * least as many templates; with fewer the copy loop panics.
   */
  lemma StatefulSetAccepted(existing: Obj, desired: Obj)
    requires existing.body.StatefulSetBody? && desired.body.StatefulSetBody?
    ensures var e, d := existing.body.statefulSet, desired.body.statefulSet;
      var o := Mutate(existing, desired);
      (!existing.meta.persisted ==>
         o.desired == desired &&
         (o.err.None? <==> |d.volumeClaimTemplates| >= |e.volumeClaimTemplates|) &&
         (o.err.Some? ==> o.err == Some(Panic("index out of range")))) &&
      (o.err.None? ==>
         var filled := o.desired.body.statefulSet.volumeClaimTemplates;
         o.desired.body.StatefulSetBody? &&
         (existing.meta.persisted ==> filled == VolumeClaimsChanged(e.volumeClaimTemplates, d.volumeClaimTemplates).1) &&
         o.existing.body == StatefulSetBody(StatefulSetSpec(
           e.selector, d.replicas, d.minReadySeconds, d.ordinals, d.retentionPolicy, d.podManagementPolicy,
           d.revisionHistoryLimit, d.serviceName, d.updateStrategy,
           CopyClaims(e.volumeClaimTemplates, filled), MutatePodTemplate(e.template, d.template))))
  {
    var merged := existing.(meta := MergeMeta(existing.meta, desired.meta));
    assert Mutate(existing, desired) == MutateStatefulSet(merged, desired);
  }

  /**
   * Running the mutation a second time with the same desired object changes
   * nothing: merged maps absorb the same overrides again and copied fields are
   * already desired's. Persisted StatefulSets, whose check rewrites desired,
   * are not covered.
   */
  lemma MutateIdempotent(existing: Obj, desired: Obj)
    requires KindOf(existing) == KindOf(desired)
    requires !(existing.body.StatefulSetBody? && existing.meta.persisted)
    ensures var o := Mutate(existing, desired);
      o.err.None? ==> Mutate(o.existing, desired) == o
  {
    var m := MergeMeta(existing.meta, desired.meta);
    MergeMetaIdempotent(existing.meta, desired.meta);
    BodyMeta(existing.(meta := m), desired);
    var o := Mutate(existing, desired);
    if o.err.None? {
      BodyIdempotent(existing.(meta := m), desired);
      var r := o.existing;
      MergeTwice(desired.meta.labels, desired.meta.labels);
      MergeTwice(desired.meta.annotations, desired.meta.annotations);
      assert MergeMeta(r.meta, desired.meta) == r.meta;
      assert r.(meta := r.meta) == r;
    }
  }

  lemma MergeTwice(a: StringMap, b: StringMap)
    ensures (a + b) + b == a + b && b + b == b
  {
  }

  lemma MergeMetaIdempotent(m: ObjectMeta, d: ObjectMeta)
    ensures MergeMeta(MergeMeta(m, d), d) == MergeMeta(m, d)
  {
    MergeTwice(m.labels, d.labels);
    MergeTwice(m.annotations, d.annotations);
  }

  /** The kind-specific rule applied to its own result, metadata aside, changes nothing. */
  lemma BodyIdempotent(x: Obj, desired: Obj)
    requires KindOf(x) == KindOf(desired)
    requires !(x.body.StatefulSetBody? && x.meta.persisted)
    ensures var o := MutateBody(x, desired);
      o.err.None? ==> o.desired == desired && MutateBody(o.existing, desired) == o
  {
    var o := MutateBody(x, desired);
    if o.err.None? {
      match x.body
      case DeploymentBody(dep, _) =>
        var t := dep.template;
        var dt := desired.body.deployment.template;
        MergeTwice(t.labels, dt.labels);
        MergeTwice(t.annotations, dt.annotations);
        assert o.existing.meta.persisted ==> dep.selector == desired.body.deployment.selector;
      case StatefulSetBody(sts) =>
        var t := sts.template;
        var dt := desired.body.statefulSet.template;
        MergeTwice(t.labels, dt.labels);
        MergeTwice(t.annotations, dt.annotations);
        var c := CopyClaims(sts.volumeClaimTemplates, desired.body.statefulSet.volumeClaimTemplates);
        assert CopyClaims(c, desired.body.statefulSet.volumeClaimTemplates) == c;
      case _ =>
    }
  }

  /**
   * Desired templates that match the existing ones once their unset volume
   * modes are filled in are exactly the ones that pass the check; the filled
   * templates are then what the check leaves in desired.
   */
  lemma {:induction false} ScanMeaning(existing: seq<ClaimTemplate>, desired: seq<ClaimTemplate>, i: nat)
    requires |existing| == |desired| && i <= |desired|
    ensures var (changed, filled) := ScanFrom(existing, desired, i);
      (changed <==> exists j | i <= j < |desired| :: Differs(existing[j], Fill(existing[j], desired[j]))) &&
      (!changed ==> filled == desired[..i] + seq(|desired| - i, j requires 0 <= j < |desired| - i =>
                                                   Fill(existing[i + j], desired[i + j])))
    decreases |desired| - i
  {
    if i < |desired| {
      var filled := desired[i := Fill(existing[i], desired[i])];
      if !Differs(existing[i], filled[i]) {
        ScanMeaning(existing, filled, i + 1);
        var (c, f) := ScanFrom(existing, filled, i + 1);
        assert forall j | i + 1 <= j < |desired| :: filled[j] == desired[j];
        if !c {
          assert f == desired[..i] + seq(|desired| - i, j requires 0 <= j < |desired| - i => Fill(existing[i + j], desired[i + j]));
        }
      }
    }
  }

  /**
   * The volume-claim check passes exactly when both lists have the same
   * length and no desired template, once filled, differs from the existing
   * one at its index.
   */
  lemma VolumeClaimsChangedMeaning(existing: seq<ClaimTemplate>, desired: seq<ClaimTemplate>)
    ensures VolumeClaimsChanged(existing, desired).0 <==>
      |existing| != |desired| || exists j | 0 <= j < |desired| :: Differs(existing[j], Fill(existing[j], desired[j]))
  {
    if |existing| == |desired| {
      ScanMeaning(existing, desired, 0);
    }
  }

  /** For a Deployment, `mutateDeployment` on a copy of desired gives desired back. */
  lemma MutateCopyOfDeployment(desired: Obj)
    requires desired.body.DeploymentBody?
    requires desired.meta.persisted ==>
      desired.body.deployment.selector.Some? &&
      SubMap(desired.body.deployment.selector.value.matchLabels, desired.body.deployment.template.labels)
    ensures Mutate(desired, desired) == Outcome(desired, desired, None)
  {
    var d := desired.body.deployment;
    assert MergeWithOverride(d.template.labels, d.template.labels) == d.template.labels;
    assert MergeWithOverride(d.template.annotations, d.template.annotations) == d.template.annotations;
    assert MergeWithOverride(desired.meta.labels, desired.meta.labels) == desired.meta.labels;
    assert MergeWithOverride(desired.meta.annotations, desired.meta.annotations) == desired.meta.annotations;
  }

  /**
   * A desired Deployment whose selector labels are a sub-map of its own
   * template labels, as every builder's are, is never refused for its
   * template labels when the stored selector is the same.
   */
  lemma BuiltSelectorsPassLabelCheck(existing: Obj, desired: Obj)
    requires existing.body.DeploymentBody? && desired.body.DeploymentBody?
    requires desired.body.deployment.selector.Some?
    requires existing.body.deployment.selector == desired.body.deployment.selector
    requires SubMap(desired.body.deployment.selector.value.matchLabels, desired.body.deployment.template.labels)
    ensures Mutate(existing, desired).err.None?
  {
    var merged := existing.(meta := MergeMeta(existing.meta, desired.meta));
    assert Mutate(existing, desired) == MutateBody(merged, desired);
  }
}
