/**
 * The Kubernetes API as the reconcile loop sees it through `client.Client`:
 * a store of objects addressed by kind, namespace and name, each carrying the
 * UID the server assigned at creation. Any call may fail; which one does is a
 * fault oracle keyed by the number of calls made so far, so that a conflict
 * on one attempt and success on the next can both be expressed.
 *
 * Every operation is a pure reply function on `State`; the `Client` class
 * holds the state and its methods are proved to answer as those functions do.
 */
module Store {
  import opened Wrappers
  import opened Errors
  import opened Objects

  /** The store's objects, the next UID to hand out, and how many calls have been made. */
  datatype State = State(objects: map<Key, Obj>, nextUid: Uid, calls: nat)

  /** The error, if any, the server answers call number `n` with, whatever the call is. */
  type Faults = nat -> Option<Error>

  /**
   * What the server guarantees: every object is stored under its own key, is
   * persisted, and has a non-empty UID no other object shares.
   */
  predicate Consistent(s: State)
  {
    0 < s.nextUid &&
    (forall k | k in s.objects :: KeyOf(s.objects[k]) == k && s.objects[k].meta.persisted &&
       0 < s.objects[k].meta.uid < s.nextUid) &&
    (forall k1, k2 {:trigger UidAt(s.objects, k1), UidAt(s.objects, k2)}
       | k1 in s.objects && k2 in s.objects && UidAt(s.objects, k1) == UidAt(s.objects, k2) :: k1 == k2)
  }

  /** The UID of the object stored under `k`. */
  function UidAt(objects: map<Key, Obj>, k: Key): Uid
    requires k in objects
  {
    objects[k].meta.uid
  }

  /** In a consistent store no two keys hold objects with the same UID. */
  lemma UniqueUids(s: State)
    requires Consistent(s)
    ensures forall k1, k2 | k1 in s.objects && k2 in s.objects && s.objects[k1].meta.uid == s.objects[k2].meta.uid :: k1 == k2
  {
    forall k1, k2 | k1 in s.objects && k2 in s.objects && s.objects[k1].meta.uid == s.objects[k2].meta.uid
      ensures k1 == k2
    {
      assert UidAt(s.objects, k1) == UidAt(s.objects, k2);
    }
  }

  function Tick(s: State): (r: State)
    ensures r.objects == s.objects && r.nextUid == s.nextUid && r.calls == s.calls + 1
  {
    s.(calls := s.calls + 1)
  }

  /** `client.Get`: the stored object, or NotFound. */
  function GetReply(s: State, faults: Faults, k: Key): (Result<Obj, Error>, State)
  {
    if faults(s.calls).Some? then (Err(faults(s.calls).value), Tick(s))
    else if k in s.objects then (Ok(s.objects[k]), Tick(s))
    else (Err(NotFound), Tick(s))
  }

  /** The scope of a `client.InNamespace` option: "" lists every namespace. */
  predicate InScope(o: Obj, namespace: string)
  {
    namespace == "" || o.meta.namespace == namespace
  }

  /** The objects of one kind in a namespace, keyed by UID as `getList` indexes them. */
  function Listed(s: State, kind: Kind, namespace: string): (r: map<Uid, Obj>)
    requires Consistent(s)
  {
    UniqueUids(s);
    map k | k in s.objects && k.kind == kind && InScope(s.objects[k], namespace) :: s.objects[k].meta.uid := s.objects[k]
  }

  /**
   * A listing holds exactly the stored objects of the kind in scope, each under
   * its own UID; distinct UIDs keep one object from hiding another.
   */
  lemma ListedMeaning(s: State, kind: Kind, namespace: string)
    requires Consistent(s)
    ensures var r := Listed(s, kind, namespace);
      (forall u | u in r ::
         KindOf(r[u]) == kind && InScope(r[u], namespace) && r[u].meta.uid == u &&
         KeyOf(r[u]) in s.objects && s.objects[KeyOf(r[u])] == r[u]) &&
      (forall k | k in s.objects && k.kind == kind && InScope(s.objects[k], namespace) ::
         s.objects[k].meta.uid in r && r[s.objects[k].meta.uid] == s.objects[k])
  {
    UniqueUids(s);
  }

  /** `client.List` of one kind in a namespace. */
  function ListReply(s: State, faults: Faults, kind: Kind, namespace: string): (Result<map<Uid, Obj>, Error>, State)
    requires Consistent(s)
  {
    if faults(s.calls).Some? then (Err(faults(s.calls).value), Tick(s))
    else (Ok(Listed(s, kind, namespace)), Tick(s))
  }

  /** `client.Create`: stores the object under a fresh UID and returns it as the server filled it in. */
  function CreateReply(s: State, faults: Faults, o: Obj): (Result<Obj, Error>, State)
  {
    if faults(s.calls).Some? then (Err(faults(s.calls).value), Tick(s))
    else if KeyOf(o) in s.objects then (Err(AlreadyExists), Tick(s))
    else
      var stored := o.(meta := o.meta.(uid := s.nextUid, persisted := true));
      (Ok(stored), State(s.objects[KeyOf(o) := stored], s.nextUid + 1, s.calls + 1))
  }

  /** `client.Update`: replaces the stored object; a UID other than the stored one is a failed precondition. */
  function UpdateReply(s: State, faults: Faults, o: Obj): (Result<Obj, Error>, State)
  {
    if faults(s.calls).Some? then (Err(faults(s.calls).value), Tick(s))
    else if KeyOf(o) !in s.objects then (Err(NotFound), Tick(s))
    else if s.objects[KeyOf(o)].meta.uid != o.meta.uid then (Err(Conflict), Tick(s))
    else
      var stored := o.(meta := o.meta.(persisted := true));
      (Ok(stored), s.(objects := s.objects[KeyOf(o) := stored], calls := s.calls + 1))
  }

  /** `client.Delete`: removes the object stored under the key, or answers NotFound. */
  function DeleteReply(s: State, faults: Faults, k: Key): (Option<Error>, State)
  {
    if faults(s.calls).Some? then (faults(s.calls), Tick(s))
    else if k !in s.objects then (Some(NotFound), Tick(s))
    else (None, s.(objects := s.objects - {k}, calls := s.calls + 1))
  }

  /** A create keeps the store consistent: the new UID is above every stored one. */
  lemma CreateKeepsConsistent(s: State, faults: Faults, o: Obj)
    requires Consistent(s)
    ensures Consistent(CreateReply(s, faults, o).1)
  {
    var (c, s') := CreateReply(s, faults, o);
    if c.Ok? {
      forall k1 | k1 in s'.objects
        ensures KeyOf(s'.objects[k1]) == k1 && s'.objects[k1].meta.persisted && 0 < s'.objects[k1].meta.uid < s'.nextUid
      {
      }
      forall k1, k2 | k1 in s'.objects && k2 in s'.objects && UidAt(s'.objects, k1) == UidAt(s'.objects, k2)
        ensures k1 == k2
      {
        if k1 != KeyOf(o) && k2 != KeyOf(o) {
          assert UidAt(s.objects, k1) == UidAt(s.objects, k2);
        }
      }
    }
  }

  /** An update keeps the store consistent: the stored UID is kept. */
  lemma UpdateKeepsConsistent(s: State, faults: Faults, o: Obj)
    requires Consistent(s)
    ensures Consistent(UpdateReply(s, faults, o).1)
  {
    var (r, s') := UpdateReply(s, faults, o);
    if r.Ok? {
      forall k1 | k1 in s'.objects
        ensures k1 in s.objects && UidAt(s'.objects, k1) == UidAt(s.objects, k1)
        ensures KeyOf(s'.objects[k1]) == k1 && s'.objects[k1].meta.persisted
      {
      }
      forall k1, k2 | k1 in s'.objects && k2 in s'.objects && UidAt(s'.objects, k1) == UidAt(s'.objects, k2)
        ensures k1 == k2
      {
        assert UidAt(s.objects, k1) == UidAt(s.objects, k2);
      }
    }
  }

  /** A delete keeps the store consistent. */
  lemma DeleteKeepsConsistent(s: State, faults: Faults, k: Key)
    requires Consistent(s)
    ensures Consistent(DeleteReply(s, faults, k).1)
  {
    var (e, s') := DeleteReply(s, faults, k);
    forall k1, k2 | k1 in s'.objects && k2 in s'.objects && UidAt(s'.objects, k1) == UidAt(s'.objects, k2)
      ensures k1 == k2
    {
      assert UidAt(s.objects, k1) == UidAt(s.objects, k2);
    }
  }

  /** A successful create stores the object under its key with a UID no other object had; nothing else changes. */
  lemma CreateStoresFresh(s: State, faults: Faults, o: Obj)
    requires Consistent(s)
    ensures var (r, s') := CreateReply(s, faults, o);
      (r.Ok? <==> faults(s.calls).None? && KeyOf(o) !in s.objects) &&
      (r.Ok? ==>
         KeyOf(r.value) == KeyOf(o) && s'.objects == s.objects[KeyOf(o) := r.value] &&
         r.value.meta.persisted && r.value.meta.uid != 0 &&
         (forall k | k in s.objects :: s.objects[k].meta.uid != r.value.meta.uid) &&
         r.value.body == o.body && r.value.meta.labels == o.meta.labels)
  {
  }

  /**
   * `Get` of the resource being reconciled (a KinkControlPlane, KinkMachine or
   * KinkCluster), which this store does not hold: `current` is the resource as
   * the server has it, if it exists.
   */
  function ResourceGetReply<T>(s: State, faults: Faults, current: Option<T>): (Result<T, Error>, State)
  {
    if faults(s.calls).Some? then (Err(faults(s.calls).value), Tick(s))
    else if current.None? then (Err(NotFound), Tick(s))
    else (Ok(current.value), Tick(s))
  }

  /** `Update` or `Status().Update` of the resource being reconciled: it fails only as the server decides. */
  function ResourceUpdateReply(s: State, faults: Faults): (Option<Error>, State)
  {
    (faults(s.calls), Tick(s))
  }

  /** The client: the store's state and the fault oracle it answers with. */
  class Client {
    var state: State
    const faults: Faults

    predicate Valid()
      reads this
    {
      Consistent(state)
    }

    constructor (s: State, faults: Faults)
      requires Consistent(s)
      ensures state == s && this.faults == faults && Valid()
    {
      state := s;
      this.faults := faults;
    }

    method Get(k: Key) returns (r: Result<Obj, Error>)
      requires Valid()
      modifies this
      ensures (r, state) == GetReply(old(state), faults, k) && Valid()
    {
      var f := faults(state.calls);
      if f.Some? {
        r := Err(f.value);
      } else if k in state.objects {
        r := Ok(state.objects[k]);
      } else {
        r := Err(NotFound);
      }
      state := Tick(state);
    }

    method List(kind: Kind, namespace: string) returns (r: Result<map<Uid, Obj>, Error>)
      requires Valid()
      modifies this
      ensures (r, state) == ListReply(old(state), faults, kind, namespace) && Valid()
    {
      var f := faults(state.calls);
      if f.Some? {
        r := Err(f.value);
      } else {
        r := Ok(Listed(state, kind, namespace));
      }
      state := Tick(state);
    }

    method Create(o: Obj) returns (r: Result<Obj, Error>)
      requires Valid()
      modifies this
      ensures (r, state) == CreateReply(old(state), faults, o) && Valid()
    {
      CreateKeepsConsistent(state, faults, o);
      var f := faults(state.calls);
      if f.Some? {
        r := Err(f.value);
        state := Tick(state);
      } else if KeyOf(o) in state.objects {
        r := Err(AlreadyExists);
        state := Tick(state);
      } else {
        var stored := o.(meta := o.meta.(uid := state.nextUid, persisted := true));
        r := Ok(stored);
        state := State(state.objects[KeyOf(o) := stored], state.nextUid + 1, state.calls + 1);
      }
    }

    method Update(o: Obj) returns (r: Result<Obj, Error>)
      requires Valid()
      modifies this
      ensures (r, state) == UpdateReply(old(state), faults, o) && Valid()
    {
      UpdateKeepsConsistent(state, faults, o);
      var f := faults(state.calls);
      if f.Some? {
        r := Err(f.value);
        state := Tick(state);
      } else if KeyOf(o) !in state.objects {
        r := Err(NotFound);
        state := Tick(state);
      } else if state.objects[KeyOf(o)].meta.uid != o.meta.uid {
        r := Err(Conflict);
        state := Tick(state);
      } else {
        var stored := o.(meta := o.meta.(persisted := true));
        r := Ok(stored);
        state := state.(objects := state.objects[KeyOf(o) := stored], calls := state.calls + 1);
      }
    }

    method GetResource<T>(current: Option<T>) returns (r: Result<T, Error>)
      requires Valid()
      modifies this
      ensures (r, state) == ResourceGetReply(old(state), faults, current) && Valid()
    {
      var f := faults(state.calls);
      if f.Some? {
        r := Err(f.value);
      } else if current.None? {
        r := Err(NotFound);
      } else {
        r := Ok(current.value);
      }
      state := Tick(state);
    }

    method UpdateResource() returns (err: Option<Error>)
      requires Valid()
      modifies this
      ensures (err, state) == ResourceUpdateReply(old(state), faults) && Valid()
    {
      err := faults(state.calls);
      state := Tick(state);
    }

    method Delete(k: Key) returns (err: Option<Error>)
      requires Valid()
      modifies this
      ensures (err, state) == DeleteReply(old(state), faults, k) && Valid()
    {
      DeleteKeepsConsistent(state, faults, k);
      var f := faults(state.calls);
      if f.Some? {
        err := f;
        state := Tick(state);
      } else if k !in state.objects {
        err := Some(NotFound);
        state := Tick(state);
      } else {
        err := None;
        state := state.(objects := state.objects - {k}, calls := state.calls + 1);
      }
    }
  }
}
