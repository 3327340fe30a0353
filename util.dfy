/**
 * The reconcile loop shared by the controllers (internal/controller/util/util.go):
 * find the objects an owner already owns, create or update every desired object
 * through the mutation policy, recover from immutable-field changes by deleting,
 * and prune what is owned but no longer desired.
 *
 * Each operation is a method on the `Store.Client` and on `Mutate.ObjectHandle`s,
 * proved to end as a pure function of the initial store describes; the
 * properties the loop promises are lemmas about those functions.
 */
module Util {
  import opened Wrappers
  import opened Errors
  import opened Objects
  import opened Store
  import opened Mutate

  /** `isNamespaceScoped`: every handled type except the two cluster-wide RBAC types. */
  predicate IsNamespaceScoped(k: Kind)
  {
    k != Kind.ClusterRole && k != Kind.ClusterRoleBinding
  }

  /** The object whose reconcile is running: its API kind and its metadata. */
  datatype Owner = Owner(kind: string, meta: ObjectMeta)

  /** `referSameObject`: two references name the same object (group versions are not modelled). */
  predicate SameObject(a: OwnerReference, b: OwnerReference)
  {
    a.kind == b.kind && a.name == b.name
  }

  /** `metav1.GetControllerOf`: the first reference marked as controller. */
  function ControllerOf(refs: seq<OwnerReference>): (r: Option<OwnerReference>)
    ensures r.None? <==> forall i | 0 <= i < |refs| :: !refs[i].controller
    ensures r.Some? ==> r.value in refs && r.value.controller
  {
    if refs == [] then None
    else if refs[0].controller then Some(refs[0])
    else ControllerOf(refs[1..])
  }

  /** `upsertOwnerRef`: replace the first reference to the same object, or append. */
  function Upsert(refs: seq<OwnerReference>, ref: OwnerReference): (r: seq<OwnerReference>)
  {
    if refs == [] then [ref]
    else if SameObject(refs[0], ref) then [ref] + refs[1..]
    else [refs[0]] + Upsert(refs[1..], ref)
  }

  /** The reference `SetControllerReference` writes. */
  function ControllerRef(owner: Owner): (ref: OwnerReference)
  {
    OwnerReference(owner.kind, owner.meta.name, owner.meta.uid, true)
  }

  /**
   * `ctrl.SetControllerReference`: a namespaced owner may only own objects in
   * its own namespace, and an object already controlled by another owner is
   * refused; otherwise the controller reference is inserted or replaced.
   */
  function SetControllerReference(owner: Owner, o: Obj): (r: Result<Obj, Error>)
  {
    if owner.meta.namespace != "" && o.meta.namespace != owner.meta.namespace then Err(CrossNamespaceOwner)
    else
      var ref := ControllerRef(owner);
      var current := ControllerOf(o.meta.ownerReferences);
      if current.Some? && !SameObject(current.value, ref) then Err(AlreadyOwned)
      else Ok(o.(meta := o.meta.(ownerReferences := Upsert(o.meta.ownerReferences, ref))))
  }

  /**
   * After an upsert, the first controller reference is the inserted one,
   * provided any controller already present referred to the same object; every
   * reference to another object is kept in order.
   */
  lemma {:induction false} UpsertMakesController(refs: seq<OwnerReference>, ref: OwnerReference)
    requires ref.controller
    requires ControllerOf(refs).Some? ==> SameObject(ControllerOf(refs).value, ref)
    ensures ControllerOf(Upsert(refs, ref)) == Some(ref)
    ensures ref in Upsert(refs, ref)
    ensures |Upsert(refs, ref)| == |refs| || |Upsert(refs, ref)| == |refs| + 1
    ensures forall x | x in refs && !SameObject(x, ref) :: x in Upsert(refs, ref)
  {
    if refs != [] && !SameObject(refs[0], ref) {
      assert !refs[0].controller;
      UpsertMakesController(refs[1..], ref);
      assert Upsert(refs, ref) == [refs[0]] + Upsert(refs[1..], ref);
      forall x | x in refs && !SameObject(x, ref) ensures x in Upsert(refs, ref) {
        if x != refs[0] {
          assert x in refs[1..];
        }
      }
    }
  }

  /**
   * `SetControllerReference` succeeds exactly when the namespaces allow it and
   * no other object controls `o`; on success `o` changes only in its owner
   * references, whose controller is now the owner.
   */
  lemma SetControllerReferenceMeaning(owner: Owner, o: Obj)
    ensures var r := SetControllerReference(owner, o);
      (r.Ok? <==> (owner.meta.namespace == "" || o.meta.namespace == owner.meta.namespace) &&
                  (ControllerOf(o.meta.ownerReferences).None? ||
                   SameObject(ControllerOf(o.meta.ownerReferences).value, ControllerRef(owner)))) &&
      (r.Ok? ==>
         r.value.body == o.body && r.value.meta == o.meta.(ownerReferences := r.value.meta.ownerReferences) &&
         ControllerOf(r.value.meta.ownerReferences) == Some(ControllerRef(owner)) &&
         ControllerRef(owner).uid == owner.meta.uid &&
         forall x | x in o.meta.ownerReferences && !SameObject(x, ControllerRef(owner)) :: x in r.value.meta.ownerReferences)
  {
    if SetControllerReference(owner, o).Ok? {
      UpsertMakesController(o.meta.ownerReferences, ControllerRef(owner));
    }
  }

  /** `o` names `uid` among its owner references. */
  predicate RefersTo(o: Obj, uid: Uid)
  {
    exists i | 0 <= i < |o.meta.ownerReferences| :: o.meta.ownerReferences[i].uid == uid
  }

  /** The listed objects that name the owner's UID, still keyed by their own UID. */
  function OwnedAmong(objs: map<Uid, Obj>, uid: Uid): (r: map<Uid, Obj>)
  {
    map u | u in objs && RefersTo(objs[u], uid) :: objs[u]
  }

  /** `getList`'s failure: the list error wrapped with the Go type being listed. */
  function ListError(k: Kind, e: Error): (r: Error)
    ensures r.Wrapped? && r.inner == e
  {
    Wrapped("error listing " + TypeName(k), e)
  }

  /** The objects the owner owns: of a listed kind, in its namespace, naming its UID. */
  predicate OwnedBy(o: Obj, owner: ObjectMeta, kinds: seq<Kind>)
  {
    KindOf(o) in kinds && InScope(o, owner.namespace) && RefersTo(o, owner.uid)
  }

  /** What one list of `kind` contributes: the listed objects naming the owner, by UID. */
  function OwnedOfKind(s: State, owner: ObjectMeta, kind: Kind): (r: map<Uid, Obj>)
    requires Consistent(s)
  {
    OwnedAmong(Listed(s, kind, owner.namespace), owner.uid)
  }

  /** One list contributes exactly the stored objects of its kind, in scope, that name the owner. */
  lemma OwnedOfKindMeaning(s: State, owner: ObjectMeta, kind: Kind)
    requires Consistent(s)
    ensures var r := OwnedOfKind(s, owner, kind);
      (forall u | u in r ::
         r[u].meta.uid == u && KeyOf(r[u]) in s.objects && s.objects[KeyOf(r[u])] == r[u] &&
         KindOf(r[u]) == kind && InScope(r[u], owner.namespace) && RefersTo(r[u], owner.uid)) &&
      (forall k | k in s.objects && k.kind == kind && InScope(s.objects[k], owner.namespace) && RefersTo(s.objects[k], owner.uid) ::
         s.objects[k].meta.uid in r && r[s.objects[k].meta.uid] == s.objects[k])
  {
    ListedMeaning(s, kind, owner.namespace);
  }

  /** The lists of the owner's objects, one per kind in listing order. */
  function OwnedLists(s: State, owner: ObjectMeta, kinds: seq<Kind>): (r: seq<map<Uid, Obj>>)
    requires Consistent(s)
    ensures |r| == |kinds|
  {
    seq(|kinds|, i requires 0 <= i < |kinds| && Consistent(s) => OwnedOfKind(s, owner, kinds[i]))
  }

  /** The first `n` maps merged in order, a later map overwriting an earlier one. */
  function MergeUpTo(lists: seq<map<Uid, Obj>>, n: nat): (r: map<Uid, Obj>)
    requires n <= |lists|
  {
    if n == 0 then map[] else MergeUpTo(lists, n - 1) + lists[n - 1]
  }

  /** Every entry of a merge comes from one of the merged maps, the last that holds its key. */
  lemma {:induction false} MergeSource(lists: seq<map<Uid, Obj>>, n: nat, u: Uid) returns (i: nat)
    requires n <= |lists| && u in MergeUpTo(lists, n)
    ensures i < n && u in lists[i] && MergeUpTo(lists, n)[u] == lists[i][u]
  {
    if u in lists[n - 1] {
      i := n - 1;
    } else {
      i := MergeSource(lists, n - 1, u);
    }
  }

  /** A key of any merged map is a key of the merge. */
  lemma {:induction false} MergeHas(lists: seq<map<Uid, Obj>>, n: nat, i: nat, u: Uid)
    requires i < n <= |lists| && u in lists[i]
    ensures u in MergeUpTo(lists, n)
  {
    if i < n - 1 {
      MergeHas(lists, n - 1, i, u);
    }
  }

  /** The index `FindOwnedObjects` has built after listing the first `n` kinds. */
  function OwnedUpTo(s: State, owner: ObjectMeta, kinds: seq<Kind>, n: nat): (r: map<Uid, Obj>)
    requires Consistent(s) && n <= |kinds|
  {
    MergeUpTo(OwnedLists(s, owner, kinds), n)
  }

  /** Membership in a prefix, by position. */
  lemma PositionInPrefix<T>(xs: seq<T>, n: nat, x: T) returns (j: nat)
    requires n <= |xs| && x in xs[..n]
    ensures j < n && xs[j] == x
  {
    var k :| 0 <= k < n && xs[..n][k] == x;
    j := k;
  }

  /** What one list holds under a UID is the stored object of that UID, of the listed kind, naming the owner. */
  lemma OwnedOfKindAt(s: State, owner: ObjectMeta, kind: Kind, u: Uid)
    requires Consistent(s) && u in OwnedOfKind(s, owner, kind)
    ensures var o := OwnedOfKind(s, owner, kind)[u];
      o.meta.uid == u && KeyOf(o) in s.objects && s.objects[KeyOf(o)] == o &&
      KindOf(o) == kind && InScope(o, owner.namespace) && RefersTo(o, owner.uid)
  {
    OwnedOfKindMeaning(s, owner, kind);
  }

  /** A stored object the owner owns is in the list of its own kind, under its UID. */
  lemma OwnedOfOwnKind(s: State, owner: ObjectMeta, k: Key)
    requires Consistent(s) && k in s.objects && InScope(s.objects[k], owner.namespace) && RefersTo(s.objects[k], owner.uid)
    ensures var o := s.objects[k]; var r := OwnedOfKind(s, owner, KindOf(o));
      o.meta.uid in r && r[o.meta.uid] == o
  {
    OwnedOfKindMeaning(s, owner, KindOf(s.objects[k]));
  }

  /** Everything in the index is a stored object the owner owns, under its own UID. */
  lemma OwnedUpToSound(s: State, owner: ObjectMeta, kinds: seq<Kind>, n: nat, u: Uid)
    requires Consistent(s) && n <= |kinds| && u in OwnedUpTo(s, owner, kinds, n)
    ensures var o := OwnedUpTo(s, owner, kinds, n)[u];
      o.meta.uid == u && KeyOf(o) in s.objects && s.objects[KeyOf(o)] == o && OwnedBy(o, owner, kinds[..n])
  {
    var lists := OwnedLists(s, owner, kinds);
    var i := MergeSource(lists, n, u);
    OwnedOfKindAt(s, owner, kinds[i], u);
    assert kinds[..n][i] == kinds[i];
  }

  /** Every stored object the owner owns is in the index, under its own UID. */
  lemma OwnedUpToComplete(s: State, owner: ObjectMeta, kinds: seq<Kind>, n: nat, k: Key)
    requires Consistent(s) && n <= |kinds| && k in s.objects && OwnedBy(s.objects[k], owner, kinds[..n])
    ensures var o := s.objects[k];
      o.meta.uid in OwnedUpTo(s, owner, kinds, n) && OwnedUpTo(s, owner, kinds, n)[o.meta.uid] == o
  {
    var u := s.objects[k].meta.uid;
    var j := PositionInPrefix(kinds, n, KindOf(s.objects[k]));
    OwnedOfOwnKind(s, owner, k);
    MergeHas(OwnedLists(s, owner, kinds), n, j, u);
    OwnedUpToSound(s, owner, kinds, n, u);
    assert UidAt(s.objects, KeyOf(OwnedUpTo(s, owner, kinds, n)[u])) == UidAt(s.objects, k);
  }

  /** The first of the `count` calls from call number `from` that the server fails, if any. */
  function FirstFault(faults: Faults, from: nat, count: nat): (r: Option<nat>)
    ensures r.Some? ==> from <= r.value < from + count && faults(r.value).Some?
    decreases count
  {
    if count == 0 then None
    else if faults(from).Some? then Some(from)
    else FirstFault(faults, from + 1, count - 1)
  }

  /** `FirstFault` finds no fault exactly when there is none, and otherwise the earliest one. */
  lemma {:induction false} FirstFaultMeaning(faults: Faults, from: nat, count: nat)
    ensures var r := FirstFault(faults, from, count);
      (r.None? <==> forall n | from <= n < from + count :: faults(n).None?) &&
      (r.Some? ==> faults(r.value).Some? && forall n | from <= n < r.value :: faults(n).None?)
    decreases count
  {
    if count > 0 && faults(from).None? {
      FirstFaultMeaning(faults, from + 1, count - 1);
    }
  }

  /** A run without faults followed by a call without a fault is a longer run without faults. */
  lemma {:induction false} FirstFaultExtend(faults: Faults, from: nat, i: nat)
    requires FirstFault(faults, from, i).None? && faults(from + i).None?
    ensures FirstFault(faults, from, i + 1).None?
    decreases i
  {
    if i > 0 {
      FirstFaultExtend(faults, from + 1, i - 1);
    }
  }

  /**
   * What `FindOwnedObjects` answers: one list call per kind until the first
   * that fails, whose error it returns wrapped with the type being listed and
   * no index at all; when none fails, every stored object the owner owns.
   */
  function FindOwned(s: State, faults: Faults, owner: ObjectMeta, kinds: seq<Kind>): (r: (Result<map<Uid, Obj>, Error>, State))
    requires Consistent(s)
    ensures Consistent(r.1) && r.1.objects == s.objects
  {
    match FirstFault(faults, s.calls, |kinds|)
    case Some(n) => (Err(ListError(kinds[n - s.calls], faults(n).value)), s.(calls := n + 1))
    case None => (Ok(OwnedUpTo(s, owner, kinds, |kinds|)), s.(calls := s.calls + |kinds|))
  }

  /** A fault right after a fault-free run is the first fault of any longer run. */
  lemma {:induction false} FirstFaultAt(faults: Faults, from: nat, i: nat, count: nat)
    requires i < count && FirstFault(faults, from, i).None? && faults(from + i).Some?
    ensures FirstFault(faults, from, count) == Some(from + i)
    decreases i
  {
    if i > 0 {
      FirstFaultAt(faults, from + 1, i - 1, count - 1);
    }
  }

  /** Listing reads only the stored objects, not the call count. */
  lemma ListedIgnoresCalls(s: State, n: nat, kind: Kind, namespace: string)
    requires Consistent(s)
    ensures Listed(s.(calls := n), kind, namespace) == Listed(s, kind, namespace)
  {
    var a, b := Listed(s.(calls := n), kind, namespace), Listed(s, kind, namespace);
    assert forall u | u in a :: u in b;
    assert forall u | u in b :: u in a;
  }

  /** A list that fails after `i` that did not ends the search with that failure. */
  lemma FindFailsAt(s: State, faults: Faults, owner: ObjectMeta, kinds: seq<Kind>, i: nat)
    requires Consistent(s) && i < |kinds| && FirstFault(faults, s.calls, i).None? && faults(s.calls + i).Some?
    ensures FindOwned(s, faults, owner, kinds) ==
      (Err(ListError(kinds[i], faults(s.calls + i).value)), s.(calls := s.calls + i + 1))
  {
    FirstFaultAt(faults, s.calls, i, |kinds|);
  }

  /** A list that succeeds after `i` that did extends the index by its kind's owned objects. */
  lemma FindGoesOn(s: State, faults: Faults, owner: ObjectMeta, kinds: seq<Kind>, i: nat)
    requires Consistent(s) && i < |kinds| && FirstFault(faults, s.calls, i).None? && faults(s.calls + i).None?
    ensures FirstFault(faults, s.calls, i + 1).None?
    ensures OwnedUpTo(s, owner, kinds, i) + OwnedAmong(Listed(s.(calls := s.calls + i), kinds[i], owner.namespace), owner.uid) ==
      OwnedUpTo(s, owner, kinds, i + 1)
  {
    FirstFaultExtend(faults, s.calls, i);
    ListedIgnoresCalls(s, s.calls + i, kinds[i], owner.namespace);
  }

  /** `FindOwnedObjects`: one list per kind in the owner's namespace, gathering what names the owner. */
  method FindOwnedObjects(c: Client, owner: ObjectMeta, kinds: seq<Kind>) returns (r: Result<map<Uid, Obj>, Error>)
    requires c.Valid()
    modifies c
    ensures c.Valid()
    ensures (r, c.state) == FindOwned(old(c.state), c.faults, owner, kinds)
  {
    ghost var s0 := c.state;
    var owned: map<Uid, Obj> := map[];
    var i := 0;
    while i < |kinds|
      invariant 0 <= i <= |kinds| && c.Valid()
      invariant c.state == s0.(calls := s0.calls + i)
      invariant FirstFault(c.faults, s0.calls, i).None?
      invariant owned == OwnedUpTo(s0, owner, kinds, i)
    {
      var listed := c.List(kinds[i], owner.namespace);
      if listed.Err? {
        assert c.faults(s0.calls + i) == Some(listed.error);
        FindFailsAt(s0, c.faults, owner, kinds, i);
        return Err(ListError(kinds[i], listed.error));
      }
      assert c.faults(s0.calls + i).None? && listed.value == Listed(s0.(calls := s0.calls + i), kinds[i], owner.namespace);
      FindGoesOn(s0, c.faults, owner, kinds, i);
      owned := owned + OwnedAmong(listed.value, owner.uid);
      i := i + 1;
    }
    FindSucceeds(s0, c.faults, owner, kinds);
    return Ok(owned);
  }

  /** A search whose list calls all succeed returns the whole index. */
  lemma FindSucceeds(s: State, faults: Faults, owner: ObjectMeta, kinds: seq<Kind>)
    requires Consistent(s) && FirstFault(faults, s.calls, |kinds|).None?
    ensures FindOwned(s, faults, owner, kinds) == (Ok(OwnedUpTo(s, owner, kinds, |kinds|)), s.(calls := s.calls + |kinds|))
  {
  }

  /**
   * The search fails exactly when one of its list calls does: with the first
   * failure's error, wrapped with the kind being listed, after which nothing
   * more is listed. A search that succeeds makes one call per kind.
   */
  lemma FindOwnedFails(s: State, faults: Faults, owner: ObjectMeta, kinds: seq<Kind>)
    requires Consistent(s)
    ensures var (r, s') := FindOwned(s, faults, owner, kinds);
      (r.Err? <==> exists n | s.calls <= n < s.calls + |kinds| :: faults(n).Some?) &&
      (r.Err? ==> exists i | 0 <= i < |kinds| ::
         (forall n | s.calls <= n < s.calls + i :: faults(n).None?) && faults(s.calls + i).Some? &&
         r.error == ListError(kinds[i], faults(s.calls + i).value) && s'.calls == s.calls + i + 1) &&
      (r.Ok? ==> s'.calls == s.calls + |kinds|)
  {
    FirstFaultMeaning(faults, s.calls, |kinds|);
    var f := FirstFault(faults, s.calls, |kinds|);
    if f.Some? {
      var i := f.value - s.calls;
      assert s.calls + i == f.value;
    }
  }

  /** Everything a successful search returns is a stored object the owner owns, under its own UID. */
  lemma FindOwnedSound(s: State, faults: Faults, owner: ObjectMeta, kinds: seq<Kind>, u: Uid)
    requires Consistent(s)
    requires var r := FindOwned(s, faults, owner, kinds).0; r.Ok? && u in r.value
    ensures var o := FindOwned(s, faults, owner, kinds).0.value[u];
      o.meta.uid == u && KeyOf(o) in s.objects && s.objects[KeyOf(o)] == o && OwnedBy(o, owner, kinds)
  {
    OwnedUpToSound(s, owner, kinds, |kinds|, u);
    assert kinds[..|kinds|] == kinds;
  }

  /** A successful search returns every stored object the owner owns among the listed kinds. */
  lemma FindOwnedComplete(s: State, faults: Faults, owner: ObjectMeta, kinds: seq<Kind>, k: Key)
    requires Consistent(s) && FindOwned(s, faults, owner, kinds).0.Ok? && k in s.objects
    ensures var r := FindOwned(s, faults, owner, kinds).0.value;
      OwnedBy(s.objects[k], owner, kinds) ==> s.objects[k].meta.uid in r && r[s.objects[k].meta.uid] == s.objects[k]
  {
    assert kinds[..|kinds|] == kinds;
    if OwnedBy(s.objects[k], owner, kinds) {
      OwnedUpToComplete(s, owner, kinds, |kinds|, k);
    }
  }

  /** One create-or-update attempt: the store after it, both objects as it left them, and its error. */
  datatype Attempt = Attempt(state: State, existing: Obj, desired: Obj, err: Option<Error>)

  /** The create branch, once the mutation of the absent object has been computed. */
  function CreateMutated(s: State, faults: Faults, m: Outcome): (a: Attempt)
    requires Consistent(s) && KindOf(m.existing) == KindOf(m.desired)
    ensures Consistent(a.state) && KindOf(a.existing) == KindOf(a.desired) && a.desired == m.desired
    ensures s.calls <= a.state.calls <= s.calls + 1
  {
    if m.err.Some? then Attempt(s, m.existing, m.desired, m.err)
    else
      CreateKeepsConsistent(s, faults, m.existing);
      var (created, s2) := CreateReply(s, faults, m.existing);
      match created
      case Err(ce) => Attempt(s2, m.existing, m.desired, Some(ce))
      case Ok(o) => Attempt(s2, o, m.desired, None)
  }

  /** The update branch, once the mutation of the fetched object `cur` has been computed. */
  function UpdateMutated(s: State, faults: Faults, cur: Obj, m: Outcome): (a: Attempt)
    requires Consistent(s) && KindOf(m.existing) == KindOf(m.desired)
    ensures Consistent(a.state) && KindOf(a.existing) == KindOf(a.desired) && a.desired == m.desired
    ensures s.calls <= a.state.calls <= s.calls + 1
  {
    if m.err.Some? then Attempt(s, m.existing, m.desired, m.err)
    else if m.existing == cur then Attempt(s, cur, m.desired, None)
    else
      UpdateKeepsConsistent(s, faults, m.existing);
      var (updated, s2) := UpdateReply(s, faults, m.existing);
      match updated
      case Err(ue) => Attempt(s2, m.existing, m.desired, Some(ue))
      case Ok(o) => Attempt(s2, o, m.desired, None)
  }

  /**
   * `controllerutil.CreateOrUpdate` with the mutate function of the two
   * objects: fetch by key; when absent, mutate and create; when present,
   * mutate the fetched object and update it only if the mutation changed it.
   */
  function CreateOrUpdateSpec(s: State, faults: Faults, e: Obj, d: Obj): (a: Attempt)
    requires Consistent(s) && KindOf(e) == KindOf(d)
    ensures Consistent(a.state) && KindOf(a.existing) == KindOf(a.desired) && KindOf(a.desired) == KindOf(d)
    ensures s.calls < a.state.calls <= s.calls + 2
  {
    var (got, s1) := GetReply(s, faults, KeyOf(e));
    match got
    case Err(ge) =>
      if !IsNotFound(ge) then Attempt(s1, e, d, Some(ge))
      else CreateMutated(s1, faults, Mutate.Mutate(e, d))
    case Ok(cur) =>
      UpdateMutated(s1, faults, cur, Mutate.Mutate(cur, d))
  }

  /** `controllerutil.CreateOrUpdate(ctx, c, existing, MutateFuncFor(existing, desired))`. */
  method CreateOrUpdate(c: Client, existing: ObjectHandle, desired: ObjectHandle) returns (err: Option<Error>)
    requires c.Valid() && existing != desired && KindOf(existing.obj) == KindOf(desired.obj)
    modifies c, existing, desired
    ensures c.Valid()
    ensures Attempt(c.state, existing.obj, desired.obj, err) ==
      CreateOrUpdateSpec(old(c.state), c.faults, old(existing.obj), old(desired.obj))
  {
    var got := c.Get(KeyOf(existing.obj));
    if got.Err? {
      if !IsNotFound(got.error) {
        return Some(got.error);
      }
      err := MutateFuncFor(existing, desired);
      if err.Some? {
        return;
      }
      var created := c.Create(existing.obj);
      if created.Err? {
        return Some(created.error);
      }
      existing.obj := created.value;
      return None;
    }
    existing.obj := got.value;
    var before := existing.obj;
    err := MutateFuncFor(existing, desired);
    if err.Some? {
      return;
    }
    if existing.obj == before {
      return None;
    }
    var updated := c.Update(existing.obj);
    if updated.Err? {
      return Some(updated.error);
    }
    existing.obj := updated.value;
    return None;
  }

  /** `retry.DefaultRetry.Steps`: at most five attempts. */
  const DefaultRetrySteps: nat := 5

  /** The attempt that `RetryOnConflict` stops at, given one attempt's outcome and the attempts left. */
  function RetryAfter(a: Attempt, faults: Faults, steps: nat): (r: Attempt)
    requires Consistent(a.state) && KindOf(a.existing) == KindOf(a.desired) && steps >= 1
    ensures Consistent(r.state) && KindOf(r.existing) == KindOf(r.desired) && KindOf(r.desired) == KindOf(a.desired)
    ensures a.state.calls <= r.state.calls <= a.state.calls + 2 * (steps - 1)
    decreases steps
  {
    if steps > 1 && a.err.Some? && IsConflict(a.err.value) then
      RetryAfter(CreateOrUpdateSpec(a.state, faults, a.existing, a.desired), faults, steps - 1)
    else a
  }

  /** `retry.RetryOnConflict(retry.DefaultRetry, ...)` around one create-or-update. */
  function Retry(s: State, faults: Faults, e: Obj, d: Obj): (a: Attempt)
    requires Consistent(s) && KindOf(e) == KindOf(d)
    ensures Consistent(a.state) && KindOf(a.existing) == KindOf(a.desired) && KindOf(a.desired) == KindOf(d)
  {
    RetryAfter(CreateOrUpdateSpec(s, faults, e, d), faults, DefaultRetrySteps)
  }

  /**
   * Retrying makes at most five attempts of at most two calls each; an attempt
   * that does not end in a conflict is the answer; a conflict is returned only
   * when all five attempts conflicted.
   */
  lemma {:induction false} RetryBounds(a: Attempt, faults: Faults, steps: nat)
    requires Consistent(a.state) && KindOf(a.existing) == KindOf(a.desired) && steps >= 1
    ensures var r := RetryAfter(a, faults, steps);
      r.state.calls <= a.state.calls + 2 * (steps - 1) &&
      (!(a.err.Some? && IsConflict(a.err.value)) ==> r == a) &&
      (r.err.Some? && IsConflict(r.err.value) && steps > 1 ==> r.state.calls >= a.state.calls + steps - 1)
    decreases steps
  {
    if steps > 1 && a.err.Some? && IsConflict(a.err.value) {
      RetryBounds(CreateOrUpdateSpec(a.state, faults, a.existing, a.desired), faults, steps - 1);
    }
  }

  /** `retry.RetryOnConflict`: repeat the create-or-update while it ends in a conflict, five attempts at most. */
  method RetryOnConflict(c: Client, existing: ObjectHandle, desired: ObjectHandle) returns (err: Option<Error>)
    requires c.Valid() && existing != desired && KindOf(existing.obj) == KindOf(desired.obj)
    modifies c, existing, desired
    ensures c.Valid()
    ensures Attempt(c.state, existing.obj, desired.obj, err) ==
      Retry(old(c.state), c.faults, old(existing.obj), old(desired.obj))
  {
    var steps := DefaultRetrySteps;
    err := CreateOrUpdate(c, existing, desired);
    while steps > 1 && err.Some? && IsConflict(err.value)
      invariant 1 <= steps && c.Valid() && KindOf(existing.obj) == KindOf(desired.obj)
      invariant RetryAfter(Attempt(c.state, existing.obj, desired.obj, err), c.faults, steps) ==
        Retry(old(c.state), c.faults, old(existing.obj), old(desired.obj))
      decreases steps
    {
      err := CreateOrUpdate(c, existing, desired);
      steps := steps - 1;
    }
  }

  /**
   * A create-or-update that succeeds leaves the store holding, under the
   * desired object's key, the object it returns; that object carries every
   * desired label with its desired value.
   */
  lemma CreateOrUpdateStores(s: State, faults: Faults, e: Obj, d: Obj)
    requires Consistent(s) && KindOf(e) == KindOf(d) && KeyOf(e) == KeyOf(d)
    ensures var a := CreateOrUpdateSpec(s, faults, e, d);
      a.err.None? ==>
        KeyOf(a.existing) == KeyOf(d) && KeyOf(d) in a.state.objects && a.state.objects[KeyOf(d)] == a.existing &&
        forall k | k in d.meta.labels :: k in a.existing.meta.labels && a.existing.meta.labels[k] == d.meta.labels[k]
  {
    var (got, s1) := GetReply(s, faults, KeyOf(e));
    var base := if got.Ok? then got.value else e;
    DesiredMetadataWins(base, d);
    OwnerReferencesRule(base, d);
  }

  /** The smallest UID of a non-empty set: the order the prune visits the owned objects in. */
  function LeastUid(us: set<Uid>): (m: Uid)
    requires us != {}
    ensures m in us && forall u | u in us :: m <= u
  {
    assert MinimumOf(us) in us;
    var m :| m in us && forall u | u in us :: m <= u;
    m
  }

  ghost function MinimumOf(us: set<Uid>): (m: Uid)
    requires us != {}
    ensures m in us && forall u | u in us :: m <= u
    decreases |us|
  {
    var x :| x in us;
    if us == {x} then x
    else
      var rest := us - {x};
      var m := MinimumOf(rest);
      assert forall u | u in us && u != x :: u in rest;
      if x < m then x else m
  }

  /** The prune over the UIDs still to visit, smallest first: the failures in order and the store after. */
  function DeleteAll(s: State, faults: Faults, objs: map<Uid, Obj>, todo: set<Uid>): (r: (seq<Error>, State))
    requires Consistent(s) && todo <= objs.Keys
    ensures Consistent(r.1) && r.1.calls == s.calls + |todo| && r.1.nextUid == s.nextUid
    ensures |r.0| <= |todo|
    decreases |todo|
  {
    if todo == {} then ([], s)
    else
      var u := LeastUid(todo);
      DeleteKeepsConsistent(s, faults, KeyOf(objs[u]));
      var (e, s1) := DeleteReply(s, faults, KeyOf(objs[u]));
      var (rest, s2) := DeleteAll(s1, faults, objs, todo - {u});
      (if e.Some? then [e.value] + rest else rest, s2)
  }

  /** `DeleteObjects`: one delete per entry, whatever earlier deletes answered; the failures joined. */
  method DeleteObjects(c: Client, objs: map<Uid, Obj>) returns (err: Option<Error>)
    requires c.Valid()
    modifies c
    ensures c.Valid()
    ensures var (errs, s') := DeleteAll(old(c.state), c.faults, objs, objs.Keys);
      err == Join(errs) && c.state == s'
  {
    ghost var s0 := c.state;
    var todo := objs.Keys;
    var errs: seq<Error> := [];
    assert errs + DeleteAll(s0, c.faults, objs, todo).0 == DeleteAll(s0, c.faults, objs, todo).0;
    while todo != {}
      invariant todo <= objs.Keys && c.Valid()
      invariant var (rest, s') := DeleteAll(c.state, c.faults, objs, todo);
        (errs + rest, s') == DeleteAll(s0, c.faults, objs, objs.Keys)
      decreases |todo|
    {
      var u := LeastUid(todo);
      ghost var before := c.state;
      var e := c.Delete(KeyOf(objs[u]));
      ghost var rest := DeleteAll(c.state, c.faults, objs, todo - {u});
      assert DeleteAll(before, c.faults, objs, todo) == (if e.Some? then [e.value] + rest.0 else rest.0, rest.1);
      if e.Some? {
        assert errs + ([e.value] + rest.0) == (errs + [e.value]) + rest.0;
        errs := errs + [e.value];
      }
      todo := todo - {u};
    }
    assert errs + [] == errs;
    return Join(errs);
  }

  /**
   * The prune makes one delete call per entry and fails exactly when some
   * call failed; an entry whose object is already gone, with no fault
   * injected, is reported as NotFound.
   */
  lemma {:induction false} DeleteAllMeaning(s: State, faults: Faults, objs: map<Uid, Obj>, todo: set<Uid>)
    requires Consistent(s) && todo <= objs.Keys
    ensures var (errs, s') := DeleteAll(s, faults, objs, todo);
      s'.calls == s.calls + |todo| &&
      (errs == [] ==> forall u | u in todo :: KeyOf(objs[u]) !in s'.objects) &&
      ((forall n | s.calls <= n < s.calls + |todo| :: faults(n).None?) &&
         (exists u | u in todo :: KeyOf(objs[u]) !in s.objects)
       ==> NotFound in errs)
    decreases |todo|
  {
    if todo != {} {
      var u := LeastUid(todo);
      var (e, s1) := DeleteReply(s, faults, KeyOf(objs[u]));
      DeleteKeepsConsistent(s, faults, KeyOf(objs[u]));
      DeleteAllMeaning(s1, faults, objs, todo - {u});
      var (rest, s2) := DeleteAll(s1, faults, objs, todo - {u});
      if (forall n | s.calls <= n < s.calls + |todo| :: faults(n).None?) && (exists v | v in todo :: KeyOf(objs[v]) !in s.objects) {
        var v :| v in todo && KeyOf(objs[v]) !in s.objects;
        assert faults(s.calls).None?;
        if v != u {
          assert KeyOf(objs[v]) !in s1.objects;
        }
      }
      if DeleteAll(s, faults, objs, todo).0 == [] {
        assert e.None? && rest == [];
        forall v | v in todo ensures KeyOf(objs[v]) !in s2.objects {
          if v == u {
            DeletesStayDeleted(s1, faults, objs, todo - {u}, KeyOf(objs[u]));
          }
        }
      }
    }
  }

  /** The prune never brings an object back. */
  lemma {:induction false} DeletesStayDeleted(s: State, faults: Faults, objs: map<Uid, Obj>, todo: set<Uid>, k: Key)
    requires Consistent(s) && todo <= objs.Keys && k !in s.objects
    ensures k !in DeleteAll(s, faults, objs, todo).1.objects
    decreases |todo|
  {
    if todo != {} {
      var u := LeastUid(todo);
      DeleteKeepsConsistent(s, faults, KeyOf(objs[u]));
      DeletesStayDeleted(DeleteReply(s, faults, KeyOf(objs[u])).1, faults, objs, todo - {u}, k);
    }
  }

  /** The prune only takes objects away: whatever is left is as it was. */
  lemma {:induction false} DeleteAllOnlyRemoves(s: State, faults: Faults, objs: map<Uid, Obj>, todo: set<Uid>)
    requires Consistent(s) && todo <= objs.Keys
    ensures var s' := DeleteAll(s, faults, objs, todo).1;
      s'.objects.Keys <= s.objects.Keys && forall k | k in s'.objects :: s'.objects[k] == s.objects[k]
    decreases |todo|
  {
    if todo != {} {
      var u := LeastUid(todo);
      DeleteKeepsConsistent(s, faults, KeyOf(objs[u]));
      DeleteAllOnlyRemoves(DeleteReply(s, faults, KeyOf(objs[u])).1, faults, objs, todo - {u});
    }
  }

  /** The prune deletes nothing but what is stored under the keys of the entries it visits. */
  lemma {:induction false} DeleteAllSpares(s: State, faults: Faults, objs: map<Uid, Obj>, todo: set<Uid>, k: Key)
    requires Consistent(s) && todo <= objs.Keys && k in s.objects
    requires forall u | u in todo :: KeyOf(objs[u]) != k
    ensures k in DeleteAll(s, faults, objs, todo).1.objects
    decreases |todo|
  {
    if todo != {} {
      var u := LeastUid(todo);
      DeleteKeepsConsistent(s, faults, KeyOf(objs[u]));
      DeleteAllSpares(DeleteReply(s, faults, KeyOf(objs[u])).1, faults, objs, todo - {u}, k);
    }
  }

  /** Where the walk over the desired objects stands: the store, the owned index, the failures so far. */
  datatype Progress = Progress(state: State, owned: map<Uid, Obj>, errs: seq<Error>)

  /** The walk goes on, or stops at once with an error (a failed recovery delete). */
  datatype Walk = Continue(p: Progress) | Abort(p: Progress, err: Error)

  /**
   * One desired object: set the controller reference (namespaced kinds only),
   * create or update a copy with retries, recover an immutable change by
   * deleting, record any other failure, and on success drop the object's UID
   * from the owned index.
   */
  function ReconcileOne(p: Progress, faults: Faults, owner: Owner, d: Obj): (w: Walk)
    requires Consistent(p.state)
    ensures Consistent(w.p.state) && w.p.owned.Keys <= p.owned.Keys
    // only a success takes a UID out of the index (which one, and what each branch does: `ReconcileOneMeaning`)
    ensures w.p.owned != p.owned ==> w.Continue? && w.p.errs == p.errs
    ensures w.Abort? || |w.p.errs| > |p.errs| ==> w.p.owned == p.owned
    // at most one failure is recorded per object
    ensures w.p.errs == p.errs || (|w.p.errs| == |p.errs| + 1 && w.p.errs[..|p.errs|] == p.errs)
  {
    match WithReference(owner, d)
    case Err(e) => Continue(p.(errs := p.errs + [e]))
    case Ok(d1) =>
      var a := Retry(p.state, faults, d1, d1);
      if a.err.Some? && IsImmutableChange(a.err.value) then
        DeleteKeepsConsistent(a.state, faults, KeyOf(a.existing));
        var (del, s2) := DeleteReply(a.state, faults, KeyOf(a.existing));
        if del.Some? then Abort(p.(state := s2), del.value) else Continue(p.(state := s2))
      else if a.err.Some? then Continue(p.(state := a.state, errs := p.errs + [a.err.value]))
      else Continue(p.(state := a.state, owned := p.owned - {a.existing.meta.uid}))
  }

  function ReconcileFrom(p: Progress, faults: Faults, owner: Owner, ds: seq<Obj>): (w: Walk)
    requires Consistent(p.state)
    ensures Consistent(w.p.state) && w.p.owned.Keys <= p.owned.Keys
    decreases |ds|
  {
    if ds == [] then Continue(p)
    else
      match ReconcileOne(p, faults, owner, ds[0])
      case Abort(p1, e) => Abort(p1, e)
      case Continue(p1) => ReconcileFrom(p1, faults, owner, ds[1..])
  }

  /** `ReconcileDesiredObjects`: the error, the store after, and the owned index as the walk left it. */
  function ReconcileDesired(s: State, faults: Faults, owner: Owner, desired: seq<Obj>, owned: map<Uid, Obj>)
    : (r: (Option<Error>, State, map<Uid, Obj>))
    requires Consistent(s)
    ensures Consistent(r.1) && r.2.Keys <= owned.Keys
  {
    match ReconcileFrom(Progress(s, owned, []), faults, owner, desired)
    case Abort(p, e) => (Some(e), p.state, p.owned)
    case Continue(p) =>
      if |p.errs| > 0 then (Some(Wrapped("failed to create objects for " + owner.meta.name, Joined(p.errs))), p.state, p.owned)
      else
        var (pruneErrs, s') := DeleteAll(p.state, faults, p.owned, p.owned.Keys);
        (if pruneErrs == [] then None else Some(Wrapped("failed to prune objects for " + owner.meta.name, Joined(pruneErrs))),
         s', p.owned)
  }

  /**
   * `ReconcileDesiredObjects`: walks the desired objects, then prunes the
   * owned objects no desired object accounted for, unless something failed.
   * The owned index is the caller's map, updated in place; it is returned.
   */
  method ReconcileDesiredObjects(c: Client, owner: Owner, desired: seq<Obj>, owned: map<Uid, Obj>)
    returns (err: Option<Error>, remaining: map<Uid, Obj>)
    requires c.Valid()
    modifies c
    ensures c.Valid()
    ensures (err, c.state, remaining) == ReconcileDesired(old(c.state), c.faults, owner, desired, owned)
  {
    ghost var s0 := c.state;
    remaining := owned;
    var errs: seq<Error> := [];
    var i := 0;
    while i < |desired|
      invariant 0 <= i <= |desired| && c.Valid()
      invariant ReconcileFrom(Progress(c.state, remaining, errs), c.faults, owner, desired[i..]) ==
        ReconcileFrom(Progress(s0, owned, []), c.faults, owner, desired)
    {
      assert desired[i..][1..] == desired[i + 1..];
      var d := desired[i];
      i := i + 1;
      if IsNamespaceScoped(KindOf(d)) {
        var withRef := SetControllerReference(owner, d);
        if withRef.Err? {
          errs := errs + [withRef.error];
          continue;
        }
        d := withRef.value;
      }
      var existing := new ObjectHandle(d);
      var want := new ObjectHandle(d);
      var crudErr := RetryOnConflict(c, existing, want);
      if crudErr.Some? && IsImmutableChange(crudErr.value) {
        var delErr := c.Delete(KeyOf(existing.obj));
        if delErr.Some? {
          return delErr, remaining;
        }
        continue;
      } else if crudErr.Some? {
        errs := errs + [crudErr.value];
        continue;
      }
      remaining := remaining - {existing.obj.meta.uid};
    }
    if |errs| > 0 {
      return Some(Wrapped("failed to create objects for " + owner.meta.name, Joined(errs))), remaining;
    }
    var pruneErr := DeleteObjects(c, remaining);
    if pruneErr.Some? {
      return Some(Wrapped("failed to prune objects for " + owner.meta.name, pruneErr.value)), remaining;
    }
    return None, remaining;
  }

  /**
   * The prune runs only after a walk that neither aborted nor recorded a
   * failure, and then makes one delete call per object left in the index; a
   * reconcile that reports no error has removed every one of them.
   */
  lemma ReconcileDesiredPrunes(s: State, faults: Faults, owner: Owner, desired: seq<Obj>, owned: map<Uid, Obj>)
    requires Consistent(s)
    ensures var r := ReconcileDesired(s, faults, owner, desired, owned);
      var w := ReconcileFrom(Progress(s, owned, []), faults, owner, desired);
      r.2 == w.p.owned &&
      r.1.calls == w.p.state.calls + (if w.Continue? && w.p.errs == [] then |w.p.owned.Keys| else 0) &&
      (r.0.None? ==> w.Continue? && w.p.errs == [] && forall u | u in r.2 :: KeyOf(r.2[u]) !in r.1.objects)
  {
    var w := ReconcileFrom(Progress(s, owned, []), faults, owner, desired);
    if w.Continue? && w.p.errs == [] {
      DeleteAllMeaning(w.p.state, faults, w.p.owned, w.p.owned.Keys);
    }
  }

  /** The desired object as the walk hands it to the create-or-update: with the controller reference when namespaced. */
  function WithReference(owner: Owner, d: Obj): (r: Result<Obj, Error>)
    ensures !IsNamespaceScoped(KindOf(d)) ==> r == Ok(d)
  {
    if IsNamespaceScoped(KindOf(d)) then SetControllerReference(owner, d) else Ok(d)
  }

  /**
   * One desired object, branch by branch. A failed controller reference is
   * recorded and nothing else changes. An immutable-field refusal records
   * nothing and keeps the owned index as it was; it deletes the stored object
   * under the attempt's key, and a delete that fails (a fault, or nothing
   * stored there) stops the walk with that delete's error. Any other failure
   * is recorded with the attempt's store. A success takes exactly the UID of
   * the object written out of the owned index.
   */
  lemma ReconcileOneMeaning(p: Progress, faults: Faults, owner: Owner, d: Obj)
    requires Consistent(p.state)
    ensures var w := ReconcileOne(p, faults, owner, d);
      var withRef := WithReference(owner, d);
      (withRef.Err? ==> w == Continue(p.(errs := p.errs + [withRef.error]))) &&
      (withRef.Ok? ==>
         var a := Retry(p.state, faults, withRef.value, withRef.value);
         var k := KeyOf(a.existing);
         var fault := faults(a.state.calls);
         (a.err.Some? && IsImmutableChange(a.err.value) ==>
            w.p.owned == p.owned && w.p.errs == p.errs && w.p.state.calls == a.state.calls + 1 &&
            (fault.None? && k in a.state.objects ==>
               w.Continue? && k !in w.p.state.objects && w.p.state.objects == a.state.objects - {k}) &&
            (fault.Some? ==> w == Abort(w.p, fault.value) && w.p.state.objects == a.state.objects) &&
            (fault.None? && k !in a.state.objects ==> w == Abort(w.p, NotFound) && w.p.state.objects == a.state.objects)) &&
         (a.err.Some? && !IsImmutableChange(a.err.value) ==>
            w == Continue(Progress(a.state, p.owned, p.errs + [a.err.value]))) &&
         (a.err.None? ==>
            w == Continue(Progress(a.state, p.owned - {a.existing.meta.uid}, p.errs))))
  {
  }

  /**
   * An immutable-field recovery leaves the object's UID in the owned index,
   * so the prune after a clean walk deletes the same key a second time and
   * the store answers NotFound: a lone desired object whose write is refused
   * as immutable, and whose stored object is among the owned ones, makes the
   * reconcile report an error whenever the recovery delete and the prune's
   * calls do not fail.
   */
  lemma RecoveryThenPruneFails(s: State, faults: Faults, owner: Owner, d: Obj, owned: map<Uid, Obj>, u: Uid)
    requires Consistent(s)
    requires WithReference(owner, d).Ok?
    requires var a := Retry(s, faults, WithReference(owner, d).value, WithReference(owner, d).value);
      a.err.Some? && IsImmutableChange(a.err.value) &&
      u in owned && KeyOf(owned[u]) == KeyOf(a.existing) &&
      forall n | a.state.calls <= n <= a.state.calls + |owned.Keys| :: faults(n).None?
    ensures ReconcileDesired(s, faults, owner, [d], owned).0.Some?
  {
    var p := Progress(s, owned, []);
    var a := Retry(s, faults, WithReference(owner, d).value, WithReference(owner, d).value);
    ReconcileOneMeaning(p, faults, owner, d);
    var w := ReconcileOne(p, faults, owner, d);
    assert [d][1..] == [];
    assert ReconcileFrom(p, faults, owner, [d]) == (if w.Abort? then w else ReconcileFrom(w.p, faults, owner, []));
    if w.Continue? {
      assert w.p.owned == owned && w.p.errs == [] && w.p.state.calls == a.state.calls + 1;
      DeleteAllMeaning(w.p.state, faults, owned, owned.Keys);
    }
  }
}
