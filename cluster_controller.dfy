/**
 * The KinkCluster reconciler: it keeps its finalizer on the resource and, once
 * the resource is being deleted, removes it again. It owns no kinds of object
 * and its own reconcile step does nothing yet.
 */
module ClusterController {
  import opened Wrappers
  import opened Errors
  import opened Objects
  import opened Api
  import opened Store
  import opened Util
  import opened Lifecycle

  const ClusterFinalizer: string := "cluster.kink.anza-labs.com/finalizer"

  /** The kinds `GetOwnedResourceTypes` lists: none. */
  const OwnedKinds: seq<Kind> := []

  /** The reconcile step proper, which never fails. */
  function ReconcileCluster(cluster: KinkCluster): (r: Option<Error>)
    ensures r.None?
  {
    None
  }

  /** `Reconcile`: fetch the resource, then either run the deletion branch or make sure the finalizer is on it. */
  function ReconcileSpec(s: State, faults: Faults, current: Option<KinkCluster>): (r: Reconciled)
    requires Consistent(s)
    ensures Consistent(r.state)
    // a failed Get returns its error unless it is NotFound, and does nothing else
    ensures faults(s.calls).Some? || current.None? ==>
      r.err == (if faults(s.calls).Some? then IgnoreNotFound(faults(s.calls).value) else None) &&
      r.update.None? && r.state.objects == s.objects
    // a cluster not being deleted is sent back with the finalizer exactly when it lacked it
    ensures faults(s.calls).None? && current.Some? && !current.value.meta.deleting ==>
      r.state.objects == s.objects &&
      (r.update.Some? <==> !ContainsFinalizer(current.value.meta, ClusterFinalizer)) &&
      (r.update.Some? ==> r.update.value == AddFinalizer(current.value.meta, ClusterFinalizer) &&
                          ContainsFinalizer(r.update.value, ClusterFinalizer) && r.err == faults(s.calls + 1)) &&
      (r.update.None? ==> r.err.None?)
  {
    var (got, s1) := ResourceGetReply(s, faults, current);
    if got.Err? then Reconciled(IgnoreNotFound(got.error), None, s1)
    else
      var cluster := got.value;
      if cluster.meta.deleting then Finalize(s1, faults, cluster.meta, ClusterFinalizer, OwnedKinds)
      else if ContainsFinalizer(cluster.meta, ClusterFinalizer) then Reconciled(ReconcileCluster(cluster), None, s1)
      else
        var added := cluster.(meta := AddFinalizer(cluster.meta, ClusterFinalizer));
        var (updateErr, s2) := ResourceUpdateReply(s1, faults);
        if updateErr.Some? then Reconciled(updateErr, Some(added.meta), s2)
        else Reconciled(ReconcileCluster(added), Some(added.meta), s2)
  }

  method Reconcile(c: Client, current: Option<KinkCluster>) returns (err: Option<Error>, update: Option<ObjectMeta>)
    requires c.Valid()
    modifies c
    ensures c.Valid()
    ensures Reconciled(err, update, c.state) == ReconcileSpec(old(c.state), c.faults, current)
  {
    update := None;
    var got := c.GetResource(current);
    if got.Err? {
      return IgnoreNotFound(got.error), None;
    }
    var cluster := got.value;
    if !cluster.meta.deleting {
      if !ContainsFinalizer(cluster.meta, ClusterFinalizer) {
        cluster := cluster.(meta := AddFinalizer(cluster.meta, ClusterFinalizer));
        update := Some(cluster.meta);
        err := c.UpdateResource();
        if err.Some? {
          return;
        }
      }
    } else {
      var kinds := OwnedResourceTypes(OwnedKinds, []);
      err, update := FinalizeResource(c, cluster.meta, ClusterFinalizer, kinds);
      return;
    }
    err := ReconcileCluster(cluster);
  }

  /**
   * A cluster being deleted keeps every stored object, since it owns no
   * kinds; with the finalizer on it, the finalizer is always taken off and
   * the update's error is the result.
   */
  lemma ReconcileDeleting(s: State, faults: Faults, current: Option<KinkCluster>)
    requires Consistent(s)
    requires faults(s.calls).None? && current.Some? && current.value.meta.deleting
    ensures var r := ReconcileSpec(s, faults, current);
      var m := current.value.meta;
      r.state.objects == s.objects &&
      (r.update.Some? <==> ContainsFinalizer(m, ClusterFinalizer)) &&
      (r.update.Some? ==> r.update.value == RemoveFinalizer(m, ClusterFinalizer) && r.err == faults(s.calls + 1)) &&
      (r.update.None? ==> r.err.None?)
  {
    var m := current.value.meta;
    NothingToClean(Tick(s), faults, m);
    assert ReconcileSpec(s, faults, current) == Finalize(Tick(s), faults, m, ClusterFinalizer, OwnedKinds);
  }

  /** With no kinds owned, the cleanup finds nothing, deletes nothing and makes no call. */
  lemma NothingToClean(s: State, faults: Faults, m: ObjectMeta)
    requires Consistent(s)
    ensures Cleanup(s, faults, m, OwnedKinds) == (None, s)
  {
    FindOwnedFails(s, faults, m, OwnedKinds);
  }
}
