/**
 * The KinkMachine reconciler: the finalizer lifecycle of every controller,
 * and a reconcile step that brings the machine's StatefulSet and Service in
 * line with what `Node.Build` describes.
 */
module MachineController {
  import opened Wrappers
  import opened Errors
  import opened Objects
  import opened Api
  import opened Store
  import opened Util
  import opened Lifecycle
  import Version
  import Node

  const MachineFinalizer: string := "machine.kink.anza-labs.dev/finalizer"

  /** The kinds `GetOwnedResourceTypes` lists. */
  const OwnedKinds: seq<Kind> := [StatefulSet, Service]

  /** `reconcile`: find what the machine owns, then reconcile the built objects against it. */
  function ReconcileNode(s: State, faults: Faults, desired: seq<Obj>, m: KinkMachine): (r: (Option<Error>, State))
    requires Consistent(s)
    ensures Consistent(r.1)
  {
    var (found, s1) := FindOwned(s, faults, m.meta, OwnedKinds);
    if found.Err? then (Some(Wrapped("failed to find owned objects", found.error)), s1)
    else
      var (err, s2, _) := ReconcileDesired(s1, faults, Owner("KinkMachine", m.meta), desired, found.value);
      if err.Some? then (Some(Wrapped("failed to ensure resources", err.value)), s2) else (None, s2)
  }

  method ReconcileMachine(c: Client, defaults: Version.Defaults, m: KinkMachine) returns (err: Option<Error>)
    requires c.Valid()
    modifies c
    ensures c.Valid()
    ensures (err, c.state) == ReconcileNode(old(c.state), c.faults, Node.Build(defaults, m), m)
  {
    var desired := Node.Build(defaults, m);
    var kinds := OwnedResourceTypes(OwnedKinds, []);
    var found := FindOwnedObjects(c, m.meta, kinds);
    if found.Err? {
      return Some(Wrapped("failed to find owned objects", found.error));
    }
    var ensureErr, _ := ReconcileDesiredObjects(c, Owner("KinkMachine", m.meta), desired, found.value);
    if ensureErr.Some? {
      return Some(Wrapped("failed to ensure resources", ensureErr.value));
    }
    return None;
  }

  /**
   * `Reconcile`: fetch the machine; run the deletion branch, or add the
   * finalizer when it is missing and then reconcile. `build` stands for the
   * machine builder.
   */
  function ReconcileSpec(s: State, faults: Faults, build: KinkMachine -> seq<Obj>, current: Option<KinkMachine>): (r: Reconciled)
    requires Consistent(s)
    ensures Consistent(r.state)
    // a failed Get returns its error unless it is NotFound, and does nothing else
    ensures faults(s.calls).Some? || current.None? ==>
      r.err == (if faults(s.calls).Some? then IgnoreNotFound(faults(s.calls).value) else None) &&
      r.update.None? && r.state.objects == s.objects
    // a machine not being deleted is sent back with the finalizer exactly when it lacked it,
    // and a failed update stops before anything is reconciled
    ensures faults(s.calls).None? && current.Some? && !current.value.meta.deleting ==>
      (r.update.Some? <==> !ContainsFinalizer(current.value.meta, MachineFinalizer)) &&
      (r.update.Some? ==> r.update.value == AddFinalizer(current.value.meta, MachineFinalizer) &&
                          ContainsFinalizer(r.update.value, MachineFinalizer)) &&
      (r.update.Some? && faults(s.calls + 1).Some? ==> r.err == faults(s.calls + 1) && r.state.objects == s.objects)
  {
    var (got, s1) := ResourceGetReply(s, faults, current);
    if got.Err? then Reconciled(IgnoreNotFound(got.error), None, s1)
    else
      var m := got.value;
      if m.meta.deleting then Finalize(s1, faults, m.meta, MachineFinalizer, OwnedKinds)
      else if ContainsFinalizer(m.meta, MachineFinalizer) then
        var (err, s2) := ReconcileNode(s1, faults, build(m), m);
        Reconciled(err, None, s2)
      else
        var added := m.(meta := AddFinalizer(m.meta, MachineFinalizer));
        var (updateErr, s2) := ResourceUpdateReply(s1, faults);
        if updateErr.Some? then Reconciled(updateErr, Some(added.meta), s2)
        else
          var (err, s3) := ReconcileNode(s2, faults, build(added), added);
          Reconciled(err, Some(added.meta), s3)
  }

  method Reconcile(c: Client, defaults: Version.Defaults, current: Option<KinkMachine>)
    returns (err: Option<Error>, update: Option<ObjectMeta>)
    requires c.Valid()
    modifies c
    ensures c.Valid()
    ensures Reconciled(err, update, c.state) == ReconcileSpec(old(c.state), c.faults, m => Node.Build(defaults, m), current)
  {
    update := None;
    var got := c.GetResource(current);
    if got.Err? {
      return IgnoreNotFound(got.error), None;
    }
    var machine := got.value;
    if !machine.meta.deleting {
      if !ContainsFinalizer(machine.meta, MachineFinalizer) {
        machine := machine.(meta := AddFinalizer(machine.meta, MachineFinalizer));
        update := Some(machine.meta);
        err := c.UpdateResource();
        if err.Some? {
          return;
        }
      }
    } else {
      var kinds := OwnedResourceTypes(OwnedKinds, []);
      err, update := FinalizeResource(c, machine.meta, MachineFinalizer, kinds);
      return;
    }
    err := ReconcileMachine(c, defaults, machine);
  }

  /**
   * The reconcile step reports no error only when the search for owned
   * objects succeeded and no object was left to prune afterwards: every
   * owned object the walk over the built objects did not account for is
   * gone from the store. A failed search changes nothing in the store.
   */
  lemma ReconcileNodeMeaning(s: State, faults: Faults, desired: seq<Obj>, m: KinkMachine)
    requires Consistent(s)
    ensures var r := ReconcileNode(s, faults, desired, m);
      var (found, s1) := FindOwned(s, faults, m.meta, OwnedKinds);
      (found.Err? ==> r.1.objects == s.objects &&
                      r.0 == Some(Wrapped("failed to find owned objects", found.error))) &&
      (r.0.None? ==>
         found.Ok? &&
         var w := ReconcileFrom(Progress(s1, found.value, []), faults, Owner("KinkMachine", m.meta), desired);
         w.Continue? && w.p.errs == [] && forall u | u in w.p.owned :: KeyOf(w.p.owned[u]) !in r.1.objects)
  {
    FindOwnedFails(s, faults, m.meta, OwnedKinds);
    var (found, s1) := FindOwned(s, faults, m.meta, OwnedKinds);
    if found.Ok? {
      ReconcileDesiredPrunes(s1, faults, Owner("KinkMachine", m.meta), desired, found.value);
    }
  }

  /**
   * A machine being deleted only loses objects it owns among its kinds, and
   * its finalizer is taken off only once none of them is left.
   */
  lemma ReconcileDeleting(s: State, faults: Faults, build: KinkMachine -> seq<Obj>, current: Option<KinkMachine>)
    requires Consistent(s)
    requires faults(s.calls).None? && current.Some? && current.value.meta.deleting
    ensures var r := ReconcileSpec(s, faults, build, current);
      var m := current.value.meta;
      r.state.objects.Keys <= s.objects.Keys &&
      (forall k | k in s.objects && !OwnedBy(s.objects[k], m, OwnedKinds) :: k in r.state.objects) &&
      (r.update.Some? ==>
         ContainsFinalizer(m, MachineFinalizer) && r.update.value == RemoveFinalizer(m, MachineFinalizer) &&
         forall k | k in r.state.objects :: !OwnedBy(r.state.objects[k], m, OwnedKinds))
  {
    FinalizeMeaning(Tick(s), faults, current.value.meta, MachineFinalizer, OwnedKinds);
  }
}
