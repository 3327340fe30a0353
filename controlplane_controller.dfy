/**
 * The KinkControlPlane reconciler: the deletion branch, the wait for a
 * Cluster API owner, the finalizer, the reconcile of the built components
 * and of the kubeconfig secrets, and the status written from the owned
 * Deployments.
 *
 * The builders are passed in as functions (`Components`, `Kubeconfigs`) so
 * that what is proved about the controller's flow does not depend on them.
 */
module ControlPlaneController {
  import opened Wrappers
  import opened Errors
  import opened Objects
  import opened Api
  import opened Foreign
  import opened Store
  import opened Filter
  import opened Util
  import opened Lifecycle
  import opened KubeconfigSecrets
  import opened ControlPlaneStatus
  import opened ControlPlaneKinds
  import Version
  import ControlPlaneBuilder

  const ControlPlaneFinalizer: string := "control-plane.kink.anza-labs.dev/finalizer"

  /** There is an owner reference of kind Cluster. */
  predicate HasClusterOwner(refs: seq<OwnerReference>)
  {
    exists i | 0 <= i < |refs| :: refs[i].kind == "Cluster"
  }

  /** `checkOwnership`: wait until Cluster API has made a Cluster an owner of the control plane. */
  method CheckOwnership(kcp: KinkControlPlane) returns (err: Option<Error>)
    ensures err.None? <==> HasClusterOwner(kcp.meta.ownerReferences)
    ensures err.Some? ==> err.value == MissingClusterOwner
  {
    var owners := kcp.meta.ownerReferences;
    for i := 0 to |owners|
      invariant forall j | 0 <= j < i :: owners[j].kind != "Cluster"
    {
      if owners[i].kind == "Cluster" {
        return None;
      }
    }
    return Some(MissingClusterOwner);
  }

  /** What builds a control plane's components. */
  type ComponentBuilder = KinkControlPlane -> Res<seq<Obj>>

  /** What builds a control plane's kubeconfig secrets, reading the stored objects: the secrets and the joined error. */
  type KubeconfigBuilder = (map<Key, Obj>, KinkControlPlane) -> (seq<Obj>, Option<Error>)

  /** `Builder.Build` for the control plane, with the certificates' objects given. */
  function Components(env: Env, defaults: Version.Defaults, certificates: seq<Obj>): (build: ComponentBuilder)
  {
    kcp => ControlPlaneBuilder.Build(env, defaults, certificates, kcp)
  }

  /** A Get of a secret in `namespace`, answered from the stored objects. */
  function SecretsIn(objects: map<Key, Obj>, namespace: string): (get: SecretGetter)
  {
    name =>
      var k := Key(Kind.Secret, namespace, name);
      if k in objects && objects[k].body.SecretBody? then Ok(objects[k].body.secretData) else Err(NotFound)
  }

  /** `Kubeconfig.Build` over the stored objects: the secrets built and the joined error of the others. */
  function Kubeconfigs(env: Env, labels: StringMap): (build: KubeconfigBuilder)
  {
    (objects: map<Key, Obj>, kcp: KinkControlPlane) =>
      var get := SecretsIn(objects, kcp.meta.namespace);
      (Built(env, get, labels, kcp, Order), JoinAll(Failures(env, get, labels, kcp, Order)))
  }

  /** The owner the reconciled objects get a controller reference to. */
  function OwnerOf(kcp: KinkControlPlane): Owner
  {
    Owner("KinkControlPlane", kcp.meta)
  }

  /** The contexts `reconcileResources` wraps its failures with, one per step. */
  const ResourceSteps: seq<string> := [
    "failed to build components", "failed to find owned objects", "failed to ensure resources",
    "failed to build kubeconfigs", "failed to find owned secrets", "failed to ensure secrets"]

  /**
   * `reconcileResources`: build the components and reconcile them against
   * the owned objects other than secrets, then build the kubeconfigs and
   * reconcile them against the owned secrets. The first failure ends it.
   */
  function ResourcesSpec(s: State, faults: Faults, build: ComponentBuilder,
                         kubeconfigs: KubeconfigBuilder,
                         kcp: KinkControlPlane): (r: (Option<Error>, State))
    requires Consistent(s)
    ensures Consistent(r.1)
    ensures build(kcp).Err? ==> r == (Some(Wrapped("failed to build components", build(kcp).error)), s)
    // every failure names the step it happened in
    ensures r.0.Some? ==> r.0.value.Wrapped? && r.0.value.context in ResourceSteps
  {
    var built := build(kcp);
    if built.Err? then (Some(Wrapped("failed to build components", built.error)), s)
    else
      var (found, s1) := FindOwned(s, faults, kcp.meta, ComponentKinds);
      if found.Err? then (Some(Wrapped("failed to find owned objects", found.error)), s1)
      else
        var (err, s2, _) := ReconcileDesired(s1, faults, OwnerOf(kcp), built.value, found.value);
        if err.Some? then (Some(Wrapped("failed to ensure resources", err.value)), s2)
        else
          var (secrets, kcErr) := kubeconfigs(s2.objects, kcp);
          if kcErr.Some? then (Some(Wrapped("failed to build kubeconfigs", kcErr.value)), s2)
          else
            var (foundSecrets, s3) := FindOwned(s2, faults, kcp.meta, SecretKinds);
            if foundSecrets.Err? then (Some(Wrapped("failed to find owned secrets", foundSecrets.error)), s3)
            else
              var (secretErr, s4, _) := ReconcileDesired(s3, faults, OwnerOf(kcp), secrets, foundSecrets.value);
              if secretErr.Some? then (Some(Wrapped("failed to ensure secrets", secretErr.value)), s4) else (None, s4)
  }

  method ReconcileResources(c: Client, build: ComponentBuilder, kubeconfigs: KubeconfigBuilder, kcp: KinkControlPlane)
    returns (err: Option<Error>)
    requires c.Valid()
    modifies c
    ensures c.Valid()
    ensures (err, c.state) == ResourcesSpec(old(c.state), c.faults, build, kubeconfigs, kcp)
  {
    var built := build(kcp);
    if built.Err? {
      return Some(Wrapped("failed to build components", built.error));
    }
    var kinds := OwnedResourceTypes(OwnedKinds, [Exclude(Secret)]);
    var found := FindOwnedObjects(c, kcp.meta, kinds);
    if found.Err? {
      return Some(Wrapped("failed to find owned objects", found.error));
    }
    var ensureErr, _ := ReconcileDesiredObjects(c, OwnerOf(kcp), built.value, found.value);
    if ensureErr.Some? {
      return Some(Wrapped("failed to ensure resources", ensureErr.value));
    }
    var (secrets, kcErr) := kubeconfigs(c.state.objects, kcp);
    if kcErr.Some? {
      return Some(Wrapped("failed to build kubeconfigs", kcErr.value));
    }
    var secretKinds := OwnedResourceTypes(OwnedKinds, [Only(Secret)]);
    var foundSecrets := FindOwnedObjects(c, kcp.meta, secretKinds);
    if foundSecrets.Err? {
      return Some(Wrapped("failed to find owned secrets", foundSecrets.error));
    }
    var secretErr, _ := ReconcileDesiredObjects(c, OwnerOf(kcp), secrets, foundSecrets.value);
    if secretErr.Some? {
      return Some(Wrapped("failed to ensure secrets", secretErr.value));
    }
    return None;
  }

  /** What one `Reconcile` did: its error, the resource it sent in an `Update`, the status it wrote, the store after. */
  datatype Outcome = Outcome(err: Option<Error>, update: Option<ObjectMeta>, status: Option<KinkControlPlaneStatus>, state: State)

  /** The last two steps of `Reconcile`, once the finalizer is on `kcp`: the resources, then the status. */
  function Proceed(s: State, faults: Faults, build: ComponentBuilder,
                   kubeconfigs: KubeconfigBuilder,
                   parse: string -> Res<SemVer>, kcp: KinkControlPlane, update: Option<ObjectMeta>): (r: Outcome)
    requires Consistent(s)
    ensures Consistent(r.state) && r.update == update
  {
    var (resourcesErr, s1) := ResourcesSpec(s, faults, build, kubeconfigs, kcp);
    if resourcesErr.Some? then Outcome(resourcesErr, update, None, s1)
    else
      var st := StatusSpec(s1, faults, parse, kcp, ComponentKinds);
      Outcome(st.err, update, st.written, st.state)
  }

  /**
   * `Reconcile`: fetch the control plane; run the deletion branch; wait for
   * a Cluster owner; add the finalizer when it is missing; reconcile the
   * resources and then the status.
   */
  function ReconcileSpec(s: State, faults: Faults, build: ComponentBuilder,
                         kubeconfigs: KubeconfigBuilder,
                         parse: string -> Res<SemVer>, current: Option<KinkControlPlane>): (r: Outcome)
    requires Consistent(s)
    ensures Consistent(r.state)
    // a failed Get returns its error unless it is NotFound, and does nothing else
    ensures faults(s.calls).Some? || current.None? ==>
      r == Outcome(if faults(s.calls).Some? then IgnoreNotFound(faults(s.calls).value) else None, None, None, Tick(s))
    // without a Cluster owner, a control plane not being deleted is left alone
    ensures faults(s.calls).None? && current.Some? && !current.value.meta.deleting &&
            !HasClusterOwner(current.value.meta.ownerReferences) ==>
      r == Outcome(Some(MissingClusterOwner), None, None, Tick(s))
    // otherwise the finalizer is sent exactly when it was missing, and a failed update stops there
    ensures faults(s.calls).None? && current.Some? && !current.value.meta.deleting &&
            HasClusterOwner(current.value.meta.ownerReferences) ==>
      (r.update.Some? <==> !ContainsFinalizer(current.value.meta, ControlPlaneFinalizer)) &&
      (r.update.Some? ==> r.update.value == AddFinalizer(current.value.meta, ControlPlaneFinalizer)) &&
      (r.update.Some? && faults(s.calls + 1).Some? ==>
         r.err == faults(s.calls + 1) && r.status.None? && r.state.objects == s.objects)
  {
    var (got, s1) := ResourceGetReply(s, faults, current);
    if got.Err? then Outcome(IgnoreNotFound(got.error), None, None, s1)
    else
      var kcp := got.value;
      if kcp.meta.deleting then
        var f := Finalize(s1, faults, kcp.meta, ControlPlaneFinalizer, OwnedKinds);
        Outcome(f.err, f.update, None, f.state)
      else if !HasClusterOwner(kcp.meta.ownerReferences) then Outcome(Some(MissingClusterOwner), None, None, s1)
      else if ContainsFinalizer(kcp.meta, ControlPlaneFinalizer) then
        Proceed(s1, faults, build, kubeconfigs, parse, kcp, None)
      else
        var added := kcp.(meta := AddFinalizer(kcp.meta, ControlPlaneFinalizer));
        var (updateErr, s2) := ResourceUpdateReply(s1, faults);
        if updateErr.Some? then Outcome(updateErr, Some(added.meta), None, s2)
        else Proceed(s2, faults, build, kubeconfigs, parse, added, Some(added.meta))
  }

  /**
   * The reconciler, with the builders it is run with as parameters: the
   * manager's are `Components(env, defaults, certificates)`,
   * `Kubeconfigs(env, labels)` and `env.parseSemVer`.
   */
  method Reconcile(c: Client, build: ComponentBuilder, kubeconfigs: KubeconfigBuilder, parse: string -> Res<SemVer>,
                   current: Option<KinkControlPlane>)
    returns (err: Option<Error>, update: Option<ObjectMeta>, status: Option<KinkControlPlaneStatus>)
    requires c.Valid()
    modifies c
    ensures c.Valid()
    ensures Outcome(err, update, status, c.state) == ReconcileSpec(old(c.state), c.faults, build, kubeconfigs, parse, current)
  {
    update, status := None, None;
    var got := c.GetResource(current);
    if got.Err? {
      return IgnoreNotFound(got.error), None, None;
    }
    var kcp := got.value;
    if kcp.meta.deleting {
      var kinds := OwnedResourceTypes(OwnedKinds, []);
      err, update := FinalizeResource(c, kcp.meta, ControlPlaneFinalizer, kinds);
      return;
    }
    err := CheckOwnership(kcp);
    if err.Some? {
      return;
    }
    if !ContainsFinalizer(kcp.meta, ControlPlaneFinalizer) {
      kcp := kcp.(meta := AddFinalizer(kcp.meta, ControlPlaneFinalizer));
      update := Some(kcp.meta);
      err := c.UpdateResource();
      if err.Some? {
        return;
      }
    }
    err := ReconcileResources(c, build, kubeconfigs, kcp);
    if err.Some? {
      return;
    }
    var kinds := OwnedResourceTypes(OwnedKinds, [Exclude(Secret)]);
    err, status := ReconcileStatus(c, parse, kcp, kinds);
  }

  /**
   * A control plane being deleted only loses objects it owns among the nine
   * kinds, gets no status, and keeps its finalizer until none of those
   * objects is left.
   */
  lemma ReconcileDeleting(s: State, faults: Faults, build: ComponentBuilder, kubeconfigs: KubeconfigBuilder,
                          parse: string -> Res<SemVer>, current: Option<KinkControlPlane>)
    requires Consistent(s)
    requires faults(s.calls).None? && current.Some? && current.value.meta.deleting
    ensures var r := ReconcileSpec(s, faults, build, kubeconfigs, parse, current);
      var m := current.value.meta;
      r.status.None? &&
      r.state.objects.Keys <= s.objects.Keys &&
      (forall k | k in s.objects && !OwnedBy(s.objects[k], m, OwnedKinds) :: k in r.state.objects) &&
      (r.update.Some? ==>
         ContainsFinalizer(m, ControlPlaneFinalizer) && r.update.value == RemoveFinalizer(m, ControlPlaneFinalizer) &&
         forall k | k in r.state.objects :: !OwnedBy(r.state.objects[k], m, OwnedKinds))
  {
    FinalizeMeaning(Tick(s), faults, current.value.meta, ControlPlaneFinalizer, OwnedKinds);
  }

  /** Once the finalizer is on: a status only after clean resources, and no error only with a ready status. */
  lemma ProceedSucceeds(s: State, faults: Faults, build: ComponentBuilder, kubeconfigs: KubeconfigBuilder,
                        parse: string -> Res<SemVer>, kcp: KinkControlPlane, update: Option<ObjectMeta>)
    requires Consistent(s)
    ensures var r := Proceed(s, faults, build, kubeconfigs, parse, kcp, update);
      (r.status.Some? ==> ResourcesSpec(s, faults, build, kubeconfigs, kcp).0.None?) &&
      (r.err.None? ==> build(kcp).Ok? && r.status.Some? && r.status.value.ready)
  {
    var (resourcesErr, s1) := ResourcesSpec(s, faults, build, kubeconfigs, kcp);
    if resourcesErr.None? {
      StatusOutcome(s1, faults, parse, kcp, ComponentKinds);
    }
  }

  /**
   * A status is written only after the resources were reconciled without
   * error, and a reconcile that reports no error has found a Cluster owner,
   * built the components and written a status that says ready.
   */
  lemma ReconcileSucceeds(s: State, faults: Faults, build: ComponentBuilder, kubeconfigs: KubeconfigBuilder,
                          parse: string -> Res<SemVer>, current: Option<KinkControlPlane>)
    requires Consistent(s)
    requires faults(s.calls).None? && current.Some? && !current.value.meta.deleting
    ensures var r := ReconcileSpec(s, faults, build, kubeconfigs, parse, current);
      var kcp := current.value;
      var withFinalizer := kcp.(meta := AddFinalizer(kcp.meta, ControlPlaneFinalizer));
      var s1 := if ContainsFinalizer(kcp.meta, ControlPlaneFinalizer) then Tick(s) else Tick(Tick(s));
      (r.status.Some? ==>
         HasClusterOwner(kcp.meta.ownerReferences) &&
         ResourcesSpec(s1, faults, build, kubeconfigs, withFinalizer).0.None?) &&
      (r.err.None? ==>
         HasClusterOwner(kcp.meta.ownerReferences) && build(withFinalizer).Ok? &&
         r.status.Some? && r.status.value.ready)
  {
    var kcp := current.value;
    var withFinalizer := kcp.(meta := AddFinalizer(kcp.meta, ControlPlaneFinalizer));
    var s1 := if ContainsFinalizer(kcp.meta, ControlPlaneFinalizer) then Tick(s) else Tick(Tick(s));
    var r := ReconcileSpec(s, faults, build, kubeconfigs, parse, current);
    if HasClusterOwner(kcp.meta.ownerReferences) {
      if ContainsFinalizer(kcp.meta, ControlPlaneFinalizer) {
        assert withFinalizer == kcp;
        assert r == Proceed(s1, faults, build, kubeconfigs, parse, kcp, None);
        ProceedSucceeds(s1, faults, build, kubeconfigs, parse, kcp, None);
      } else if faults(s.calls + 1).None? {
        assert r == Proceed(s1, faults, build, kubeconfigs, parse, withFinalizer, Some(withFinalizer.meta));
        ProceedSucceeds(s1, faults, build, kubeconfigs, parse, withFinalizer, Some(withFinalizer.meta));
      }
    }
  }
}
