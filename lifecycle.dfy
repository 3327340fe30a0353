/**
 * What the three controllers' `Reconcile` functions share: the finalizer
 * helpers of `controllerutil`, `client.IgnoreNotFound`, the clean-up that
 * deletes every owned object, the deletion branch built on it, and the loop
 * of `GetOwnedResourceTypes`.
 */
module Lifecycle {
  import opened Wrappers
  import opened Errors
  import opened Objects
  import opened Store
  import opened Filter
  import opened Util

  /** `controllerutil.ContainsFinalizer`. */
  predicate ContainsFinalizer(m: ObjectMeta, f: string)
  {
    f in m.finalizers
  }

  /** `controllerutil.AddFinalizer`: the finalizer is appended when it is missing. */
  function AddFinalizer(m: ObjectMeta, f: string): (r: ObjectMeta)
    ensures ContainsFinalizer(r, f) && r == m.(finalizers := r.finalizers)
    ensures forall g | ContainsFinalizer(m, g) :: ContainsFinalizer(r, g)
    ensures forall g | ContainsFinalizer(r, g) && g != f :: ContainsFinalizer(m, g)
    ensures ContainsFinalizer(m, f) ==> r == m
  {
    if f in m.finalizers then m else m.(finalizers := m.finalizers + [f])
  }

  /** The finalizers other than `f`, in their order. */
  function Without(fs: seq<string>, f: string): (r: seq<string>)
    ensures f !in r
    ensures forall g | g in fs && g != f :: g in r
    ensures forall g | g in r :: g in fs
  {
    if fs == [] then []
    else if fs[0] == f then Without(fs[1..], f)
    else [fs[0]] + Without(fs[1..], f)
  }

  /** `controllerutil.RemoveFinalizer`: every occurrence goes, the other finalizers stay. */
  function RemoveFinalizer(m: ObjectMeta, f: string): (r: ObjectMeta)
    ensures !ContainsFinalizer(r, f) && r == m.(finalizers := r.finalizers)
    ensures forall g | g != f :: ContainsFinalizer(r, g) == ContainsFinalizer(m, g)
  {
    m.(finalizers := Without(m.finalizers, f))
  }

  lemma {:induction false} WithoutAbsent(fs: seq<string>, f: string)
    requires f !in fs
    ensures Without(fs, f) == fs
  {
    if fs != [] {
      WithoutAbsent(fs[1..], f);
      assert fs == [fs[0]] + fs[1..];
    }
  }

  lemma {:induction false} WithoutAppended(fs: seq<string>, f: string)
    ensures Without(fs + [f], f) == Without(fs, f)
  {
    if fs == [] {
      assert [f][1..] == [];
    } else {
      assert (fs + [f])[1..] == fs[1..] + [f];
      WithoutAppended(fs[1..], f);
    }
  }

  /** Removing a finalizer that was just added gives back the object as it was. */
  lemma RemoveUndoesAdd(m: ObjectMeta, f: string)
    requires !ContainsFinalizer(m, f)
    ensures RemoveFinalizer(AddFinalizer(m, f), f) == m
  {
    WithoutAppended(m.finalizers, f);
    WithoutAbsent(m.finalizers, f);
  }

  /** `client.IgnoreNotFound`: a NotFound answer is no error; any other error stays as it is. */
  function IgnoreNotFound(e: Error): (r: Option<Error>)
    ensures r.None? <==> IsNotFound(e)
    ensures r.Some? ==> r.value == e
  {
    if IsNotFound(e) then None else Some(e)
  }

  /**
   * `cleanupResources`, alike in the three controllers: find every object the
   * resource owns among its kinds, then delete them all.
   */
  function Cleanup(s: State, faults: Faults, owner: ObjectMeta, kinds: seq<Kind>): (r: (Option<Error>, State))
    requires Consistent(s)
    ensures Consistent(r.1)
  {
    var (found, s1) := FindOwned(s, faults, owner, kinds);
    if found.Err? then (Some(Wrapped("failed to find owned objects", found.error)), s1)
    else
      var (errs, s2) := DeleteAll(s1, faults, found.value, found.value.Keys);
      (if errs == [] then None else Some(Wrapped("failed to delete owned objects", Joined(errs))), s2)
  }

  method CleanupResources(c: Client, owner: ObjectMeta, kinds: seq<Kind>) returns (err: Option<Error>)
    requires c.Valid()
    modifies c
    ensures c.Valid()
    ensures (err, c.state) == Cleanup(old(c.state), c.faults, owner, kinds)
  {
    var found := FindOwnedObjects(c, owner, kinds);
    if found.Err? {
      return Some(Wrapped("failed to find owned objects", found.error));
    }
    var deleted := DeleteObjects(c, found.value);
    if deleted.Some? {
      return Some(Wrapped("failed to delete owned objects", deleted.value));
    }
    return None;
  }

  /**
   * A clean-up only deletes, and one that reports no error leaves nothing of
   * the listed kinds that the resource owns.
   */
  lemma CleanupRemovesOwned(s: State, faults: Faults, owner: ObjectMeta, kinds: seq<Kind>)
    requires Consistent(s)
    ensures var (err, s') := Cleanup(s, faults, owner, kinds);
      s'.objects.Keys <= s.objects.Keys && (forall k | k in s'.objects :: s'.objects[k] == s.objects[k]) &&
      (err.None? ==> forall k | k in s'.objects :: !OwnedBy(s'.objects[k], owner, kinds))
  {
    var (found, s1) := FindOwned(s, faults, owner, kinds);
    if found.Ok? {
      var owned := found.value;
      var (errs, s2) := DeleteAll(s1, faults, owned, owned.Keys);
      DeleteAllOnlyRemoves(s1, faults, owned, owned.Keys);
      DeleteAllMeaning(s1, faults, owned, owned.Keys);
      forall k | k in s2.objects
        ensures errs == [] ==> !OwnedBy(s2.objects[k], owner, kinds)
      {
        FindOwnedComplete(s, faults, owner, kinds, k);
      }
    }
  }

  /** A clean-up never deletes an object the resource does not own among the listed kinds. */
  lemma CleanupSparesOthers(s: State, faults: Faults, owner: ObjectMeta, kinds: seq<Kind>, k: Key)
    requires Consistent(s) && k in s.objects && !OwnedBy(s.objects[k], owner, kinds)
    ensures k in Cleanup(s, faults, owner, kinds).1.objects
  {
    var (found, s1) := FindOwned(s, faults, owner, kinds);
    if found.Ok? {
      forall u | u in found.value
        ensures KeyOf(found.value[u]) != k
      {
        FindOwnedSound(s, faults, owner, kinds, u);
      }
      DeleteAllSpares(s1, faults, found.value, found.value.Keys, k);
    }
  }

  /** What one `Reconcile` did: the error it returns, the resource metadata it sent in an `Update`, the store after. */
  datatype Reconciled = Reconciled(err: Option<Error>, update: Option<ObjectMeta>, state: State)

  /**
   * The deletion branch of every controller's `Reconcile`: while its finalizer
   * is on the resource, clean up, and only after a clean-up that succeeded
   * remove the finalizer and update the resource.
   */
  function Finalize(s: State, faults: Faults, m: ObjectMeta, finalizer: string, kinds: seq<Kind>): (r: Reconciled)
    requires Consistent(s)
    ensures Consistent(r.state)
  {
    if !ContainsFinalizer(m, finalizer) then Reconciled(None, None, s)
    else
      var (err, s1) := Cleanup(s, faults, m, kinds);
      if err.Some? then Reconciled(err, None, s1)
      else
        var (updateErr, s2) := ResourceUpdateReply(s1, faults);
        Reconciled(updateErr, Some(RemoveFinalizer(m, finalizer)), s2)
  }

  method FinalizeResource(c: Client, m: ObjectMeta, finalizer: string, kinds: seq<Kind>) returns (err: Option<Error>, update: Option<ObjectMeta>)
    requires c.Valid()
    modifies c
    ensures c.Valid()
    ensures Reconciled(err, update, c.state) == Finalize(old(c.state), c.faults, m, finalizer, kinds)
  {
    update := None;
    if ContainsFinalizer(m, finalizer) {
      err := CleanupResources(c, m, kinds);
      if err.Some? {
        return;
      }
      var removed := RemoveFinalizer(m, finalizer);
      update := Some(removed);
      err := c.UpdateResource();
      return;
    }
    return None, None;
  }

  /**
   * A resource being deleted only loses owned objects; its finalizer is taken
   * off only once nothing it owns among the listed kinds is left; without
   * the finalizer nothing happens at all.
   */
  lemma FinalizeMeaning(s: State, faults: Faults, m: ObjectMeta, finalizer: string, kinds: seq<Kind>)
    requires Consistent(s)
    ensures var r := Finalize(s, faults, m, finalizer, kinds);
      r.state.objects.Keys <= s.objects.Keys && (forall k | k in r.state.objects :: r.state.objects[k] == s.objects[k]) &&
      (forall k | k in s.objects && !OwnedBy(s.objects[k], m, kinds) :: k in r.state.objects) &&
      (r.update.Some? ==>
         ContainsFinalizer(m, finalizer) && r.update.value == RemoveFinalizer(m, finalizer) &&
         forall k | k in r.state.objects :: !OwnedBy(r.state.objects[k], m, kinds)) &&
      (r.err.None? && ContainsFinalizer(m, finalizer) ==> r.update.Some?) &&
      (!ContainsFinalizer(m, finalizer) ==> r == Reconciled(None, None, s))
  {
    if ContainsFinalizer(m, finalizer) {
      CleanupRemovesOwned(s, faults, m, kinds);
      forall k | k in s.objects && !OwnedBy(s.objects[k], m, kinds)
        ensures k in Cleanup(s, faults, m, kinds).1.objects
      {
        CleanupSparesOthers(s, faults, m, kinds, k);
      }
    }
  }

  /** The loop of every `GetOwnedResourceTypes`: the controller's kinds with the filters applied in turn. */
  method OwnedResourceTypes(kinds: seq<Kind>, filters: seq<Filterer>) returns (r: seq<Kind>)
    ensures r == ApplyAll(filters, kinds)
  {
    r := kinds;
    for i := 0 to |filters|
      invariant ApplyAll(filters[i..], r) == ApplyAll(filters, kinds)
    {
      assert filters[i..][1..] == filters[i + 1..];
      r := Apply(filters[i], r);
    }
  }
}
