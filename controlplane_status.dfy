/**
 * `reconcileStatus` of the KinkControlPlane controller: the owned objects are
 * found again, every owned Deployment is folded into one aggregate (the
 * minimum of each replica count, whether all are ready, whether an API server
 * is ready, the lowest component version and the version labels that failed
 * to parse), the aggregate is written to the status, and the errors are joined.
 */
module ControlPlaneStatus {
  import opened Wrappers
  import opened Errors
  import opened Objects
  import opened Api
  import opened Foreign
  import opened Store
  import opened Util
  import opened SemverOrder
  import Labels
  import ControlPlane

  /** `math.MaxInt32`, where every minimum starts. */
  const MaxInt32: int := 2147483647

  /** `semver.MustParse("v999.999.999")`, the version any lower one replaces. */
  const Sentinel: SemVer := SemVer(999, 999, 999, "", "v999.999.999")

  /** The replica counts of a Deployment's status the aggregate takes the minimum of. */
  datatype Counter = Replicas | Available | Ready | Updated | Unavailable

  function Count(st: DeploymentStatus, c: Counter): int
  {
    match c
    case Replicas => st.replicas
    case Available => st.availableReplicas
    case Ready => st.readyReplicas
    case Updated => st.updatedReplicas
    case Unavailable => st.unavailableReplicas
  }

  /** The loop's variables: two flags, five running minimums, the lowest version, the joined parse errors. */
  datatype Aggregate = Aggregate(
    hasReadyAPIServer: bool,
    allReady: bool,
    minReplicas: int,
    minAvailable: int,
    minReady: int,
    minUpdated: int,
    minUnavailable: int,
    lowest: SemVer,
    errs: Option<Error>)

  function Minimum(a: Aggregate, c: Counter): int
  {
    match c
    case Replicas => a.minReplicas
    case Available => a.minAvailable
    case Ready => a.minReady
    case Updated => a.minUpdated
    case Unavailable => a.minUnavailable
  }

  /** The values the loop starts from. */
  const Start: Aggregate := Aggregate(false, true, MaxInt32, MaxInt32, MaxInt32, MaxInt32, MaxInt32, Sentinel, None)

  predicate IsDeployment(o: Obj)
  {
    o.body.DeploymentBody?
  }

  function Status(o: Obj): DeploymentStatus
    requires IsDeployment(o)
  {
    o.body.status
  }

  /** The replicas a Deployment asks for: `Spec.Replicas`, 1 when unset. */
  function Desired(o: Obj): int
    requires IsDeployment(o)
  {
    if o.body.deployment.replicas.Some? then o.body.deployment.replicas.value else 1
  }

  predicate HasComponent(o: Obj, component: string)
  {
    Labels.LabelComponent in o.meta.labels && o.meta.labels[Labels.LabelComponent] == component
  }

  /** A Deployment of the API server with a ready replica. */
  predicate ReadyAPIServer(o: Obj)
  {
    IsDeployment(o) && HasComponent(o, ControlPlane.ComponentAPIServer) && Status(o).readyReplicas > 0
  }

  /** A Deployment whose version label counts: not Kine's, with a non-empty version label. */
  predicate Versioned(o: Obj)
  {
    IsDeployment(o) && !HasComponent(o, ControlPlane.ComponentKine) &&
    Labels.LabelVersion in o.meta.labels && o.meta.labels[Labels.LabelVersion] != ""
  }

  function VersionLabel(o: Obj): string
    requires Versioned(o)
  {
    o.meta.labels[Labels.LabelVersion]
  }

  /** A Deployment whose version label counts and parses. */
  predicate Contributes(o: Obj, parse: string -> Res<SemVer>)
  {
    Versioned(o) && parse(VersionLabel(o)).Ok?
  }

  function Contributed(o: Obj, parse: string -> Res<SemVer>): SemVer
    requires Contributes(o, parse)
  {
    parse(VersionLabel(o)).value
  }

  /** A Deployment's counts and flags folded in. */
  function Counted(a: Aggregate, o: Obj): Aggregate
    requires IsDeployment(o)
  {
    var st := Status(o);
    Aggregate(
      a.hasReadyAPIServer || ReadyAPIServer(o),
      a.allReady && st.readyReplicas >= Desired(o),
      if st.replicas < a.minReplicas then st.replicas else a.minReplicas,
      if st.availableReplicas < a.minAvailable then st.availableReplicas else a.minAvailable,
      if st.readyReplicas < a.minReady then st.readyReplicas else a.minReady,
      if st.updatedReplicas < a.minUpdated then st.updatedReplicas else a.minUpdated,
      if st.unavailableReplicas < a.minUnavailable then st.unavailableReplicas else a.minUnavailable,
      a.lowest,
      a.errs)
  }

  /** A Deployment's version label folded in: a parse failure joined, a lower version kept. */
  function Versioning(a: Aggregate, o: Obj, parse: string -> Res<SemVer>): Aggregate
  {
    if !Versioned(o) then a
    else
      match parse(VersionLabel(o))
      case Err(e) => a.(errs := Some(JoinTo(a.errs, e)))
      case Ok(v) => if Compare(v, a.lowest) < 0 then a.(lowest := v) else a
  }

  /** One turn of the loop, on one owned object. */
  function Observe(a: Aggregate, o: Obj, parse: string -> Res<SemVer>): (r: Aggregate)
  {
    if !IsDeployment(o) then a else Versioning(Counted(a, o), o, parse)
  }

  /** The loop over the objects still to visit, in ascending UID. */
  function Fold(a: Aggregate, objs: map<Uid, Obj>, todo: set<Uid>, parse: string -> Res<SemVer>): (r: Aggregate)
    requires todo <= objs.Keys
    decreases |todo|
  {
    if todo == {} then a
    else
      var u := LeastUid(todo);
      Fold(Observe(a, objs[u], parse), objs, todo - {u}, parse)
  }

  /** One object lowers a running minimum exactly when it is a Deployment with a smaller count. */
  lemma ObserveMinimum(a: Aggregate, o: Obj, parse: string -> Res<SemVer>, c: Counter)
    ensures Minimum(Observe(a, o, parse), c) ==
      if IsDeployment(o) && Count(Status(o), c) < Minimum(a, c) then Count(Status(o), c) else Minimum(a, c)
  {
    if IsDeployment(o) {
      var b := Counted(a, o);
      assert Minimum(Versioning(b, o, parse), c) == Minimum(b, c);
    }
  }

  /**
   * Each minimum ends at most where it started and at most each visited
   * Deployment's count, and it is where it started or one of those counts.
   */
  lemma {:induction false} FoldMinimum(a: Aggregate, objs: map<Uid, Obj>, todo: set<Uid>, parse: string -> Res<SemVer>, c: Counter)
    requires todo <= objs.Keys
    ensures var m := Minimum(Fold(a, objs, todo, parse), c);
      m <= Minimum(a, c) &&
      (forall u | u in todo && IsDeployment(objs[u]) :: m <= Count(Status(objs[u]), c)) &&
      (m == Minimum(a, c) || exists u | u in todo && IsDeployment(objs[u]) :: m == Count(Status(objs[u]), c))
    decreases |todo|
  {
    if todo != {} {
      var u := LeastUid(todo);
      var a1 := Observe(a, objs[u], parse);
      ObserveMinimum(a, objs[u], parse, c);
      FoldMinimum(a1, objs, todo - {u}, parse, c);
      var m := Minimum(Fold(a, objs, todo, parse), c);
      if m != Minimum(a, c) && m == Minimum(a1, c) {
        assert u in todo && IsDeployment(objs[u]) && m == Count(Status(objs[u]), c);
      }
    }
  }

  /** All are ready after the loop exactly when all were before and every visited Deployment has its desired replicas ready. */
  lemma {:induction false} FoldReady(a: Aggregate, objs: map<Uid, Obj>, todo: set<Uid>, parse: string -> Res<SemVer>)
    requires todo <= objs.Keys
    ensures Fold(a, objs, todo, parse).allReady <==>
      a.allReady && forall u | u in todo && IsDeployment(objs[u]) :: Status(objs[u]).readyReplicas >= Desired(objs[u])
    decreases |todo|
  {
    if todo != {} {
      var u := LeastUid(todo);
      FoldReady(Observe(a, objs[u], parse), objs, todo - {u}, parse);
    }
  }

  /** An API server counts as ready after the loop exactly when one did before or a visited one has a ready replica. */
  lemma {:induction false} FoldInitialized(a: Aggregate, objs: map<Uid, Obj>, todo: set<Uid>, parse: string -> Res<SemVer>)
    requires todo <= objs.Keys
    ensures Fold(a, objs, todo, parse).hasReadyAPIServer <==>
      a.hasReadyAPIServer || exists u | u in todo :: ReadyAPIServer(objs[u])
    decreases |todo|
  {
    if todo != {} {
      var u := LeastUid(todo);
      FoldInitialized(Observe(a, objs[u], parse), objs, todo - {u}, parse);
    }
  }

  /** The loop ends with no error exactly when it started with none and every counted version label parsed. */
  lemma {:induction false} FoldErrors(a: Aggregate, objs: map<Uid, Obj>, todo: set<Uid>, parse: string -> Res<SemVer>)
    requires todo <= objs.Keys
    ensures Fold(a, objs, todo, parse).errs.None? <==>
      a.errs.None? && forall u | u in todo && Versioned(objs[u]) :: parse(VersionLabel(objs[u])).Ok?
    decreases |todo|
  {
    if todo != {} {
      var u := LeastUid(todo);
      FoldErrors(Observe(a, objs[u], parse), objs, todo - {u}, parse);
    }
  }

  /** Ranking at most as high is transitive. */
  lemma CompareAtMostTrans(a: SemVer, b: SemVer, c: SemVer)
    requires Compare(a, b) <= 0 && Compare(b, c) <= 0
    ensures Compare(a, c) <= 0
  {
    if Compare(a, b) < 0 {
      CompareTrans(a, b, c);
    } else {
      CompareAntisym(a, b);
    }
  }

  /** One object leaves the lowest version at most where it was, and at most its own parsed version. */
  lemma ObserveLowest(a: Aggregate, o: Obj, parse: string -> Res<SemVer>)
    ensures var l := Observe(a, o, parse).lowest;
      Compare(l, a.lowest) <= 0 &&
      (Contributes(o, parse) ==> Compare(l, Contributed(o, parse)) <= 0) &&
      (l == a.lowest || (Contributes(o, parse) && l == Contributed(o, parse)))
  {
    var l := Observe(a, o, parse).lowest;
    CompareAntisym(l, a.lowest);
    if Contributes(o, parse) {
      CompareAntisym(Contributed(o, parse), a.lowest);
      CompareAntisym(l, Contributed(o, parse));
    }
  }

  /**
   * The lowest version ends at most where it started and at most every
   * visited version that counts and parses, and it is where it started or one
   * of those versions.
   */
  lemma {:induction false} FoldLowest(a: Aggregate, objs: map<Uid, Obj>, todo: set<Uid>, parse: string -> Res<SemVer>)
    requires todo <= objs.Keys
    ensures var l := Fold(a, objs, todo, parse).lowest;
      Compare(l, a.lowest) <= 0 &&
      (forall u | u in todo && Contributes(objs[u], parse) :: Compare(l, Contributed(objs[u], parse)) <= 0) &&
      (l == a.lowest || exists u | u in todo && Contributes(objs[u], parse) :: l == Contributed(objs[u], parse))
    decreases |todo|
  {
    if todo != {} {
      var u := LeastUid(todo);
      var a1 := Observe(a, objs[u], parse);
      ObserveLowest(a, objs[u], parse);
      FoldLowest(a1, objs, todo - {u}, parse);
      var l := Fold(a, objs, todo, parse).lowest;
      CompareAtMostTrans(l, a1.lowest, a.lowest);
      if Contributes(objs[u], parse) {
        CompareAtMostTrans(l, a1.lowest, Contributed(objs[u], parse));
      }
    }
  }

  /** The status fields the aggregate sets; the version only when the lowest is not in the 999 series. */
  function Summary(a: Aggregate, prev: KinkControlPlaneStatus): (st: KinkControlPlaneStatus)
  {
    prev.(initialized := a.hasReadyAPIServer, ready := a.allReady,
          replicas := a.minReplicas, readyReplicas := a.minReady,
          updatedReplicas := a.minUpdated, unavailableReplicas := a.minUnavailable,
          version := if a.lowest.major != 999 then Some(a.lowest.original) else prev.version)
  }

  /** What `reconcileStatus` returns, the status it sends in `Status().Update`, and the store after. */
  datatype StatusResult = StatusResult(err: Option<Error>, written: Option<KinkControlPlaneStatus>, state: State)

  function StatusSpec(s: State, faults: Faults, parse: string -> Res<SemVer>, kcp: KinkControlPlane, kinds: seq<Kind>): (r: StatusResult)
    requires Consistent(s)
    ensures Consistent(r.state) && r.state.objects == s.objects
  {
    var (found, s1) := FindOwned(s, faults, kcp.meta, kinds);
    if found.Err? then StatusResult(Some(Wrapped("failed to find owned objects", found.error)), None, s1)
    else
      var a := Fold(Start, found.value, found.value.Keys, parse);
      var errs := if a.allReady then a.errs else Some(JoinTo(a.errs, NotAllComponentsReady));
      var (updateErr, s2) := ResourceUpdateReply(s1, faults);
      var errs' := if updateErr.Some? then Some(JoinTo(errs, Wrapped("failed to apply status changes", updateErr.value))) else errs;
      StatusResult(errs', Some(Summary(a, kcp.status)), s2)
  }

  /** `m` is the least count `c` of the owned Deployments, or `MaxInt32` when none is lower. */
  predicate LeastCount(m: int, owned: map<Uid, Obj>, c: Counter)
  {
    m <= MaxInt32 &&
    (forall u | u in owned && IsDeployment(owned[u]) :: m <= Count(Status(owned[u]), c)) &&
    (m == MaxInt32 || exists u | u in owned && IsDeployment(owned[u]) :: m == Count(Status(owned[u]), c))
  }

  /**
   * The status written is ready exactly when every owned Deployment has its
   * desired replicas ready, initialized exactly when an API server Deployment
   * has a ready replica, and its four counts are the least over the owned
   * Deployments (`MaxInt32` when there are none).
   */
  lemma SummaryCounts(owned: map<Uid, Obj>, parse: string -> Res<SemVer>, prev: KinkControlPlaneStatus)
    ensures var st := Summary(Fold(Start, owned, owned.Keys, parse), prev);
      (st.ready <==> forall u | u in owned && IsDeployment(owned[u]) :: Status(owned[u]).readyReplicas >= Desired(owned[u])) &&
      (st.initialized <==> exists u | u in owned :: ReadyAPIServer(owned[u])) &&
      LeastCount(st.replicas, owned, Replicas) && LeastCount(st.readyReplicas, owned, Ready) &&
      LeastCount(st.updatedReplicas, owned, Updated) && LeastCount(st.unavailableReplicas, owned, Unavailable)
  {
    FoldReady(Start, owned, owned.Keys, parse);
    FoldInitialized(Start, owned, owned.Keys, parse);
    FoldMinimum(Start, owned, owned.Keys, parse, Replicas);
    FoldMinimum(Start, owned, owned.Keys, parse, Ready);
    FoldMinimum(Start, owned, owned.Keys, parse, Updated);
    FoldMinimum(Start, owned, owned.Keys, parse, Unavailable);
  }

  /** No counted, parsed version of the owned Deployments ranks below the one at `u`. */
  predicate LowestAt(owned: map<Uid, Obj>, parse: string -> Res<SemVer>, u: Uid)
    requires u in owned && Contributes(owned[u], parse)
  {
    forall w | w in owned && Contributes(owned[w], parse) :: Compare(Contributed(owned[u], parse), Contributed(owned[w], parse)) <= 0
  }

  /**
   * The status version changes only to the text of a lowest counted version,
   * and it is set whenever some counted version is below the 999 series.
   */
  lemma SummaryVersion(owned: map<Uid, Obj>, parse: string -> Res<SemVer>, prev: KinkControlPlaneStatus)
    ensures var st := Summary(Fold(Start, owned, owned.Keys, parse), prev);
      (st.version == prev.version ||
       exists u | u in owned && Contributes(owned[u], parse) ::
         LowestAt(owned, parse, u) && st.version == Some(Contributed(owned[u], parse).original)) &&
      ((exists v | v in owned && Contributes(owned[v], parse) :: Contributed(owned[v], parse).major < 999) ==>
       exists u | u in owned && Contributes(owned[u], parse) ::
         LowestAt(owned, parse, u) && st.version == Some(Contributed(owned[u], parse).original))
  {
    FoldLowest(Start, owned, owned.Keys, parse);
    var l := Fold(Start, owned, owned.Keys, parse).lowest;
    if exists v | v in owned && Contributes(owned[v], parse) :: Contributed(owned[v], parse).major < 999 {
      var v :| v in owned && Contributes(owned[v], parse) && Contributed(owned[v], parse).major < 999;
      assert Compare(l, Contributed(owned[v], parse)) <= 0;
    }
    if l.major != 999 {
      var u :| u in owned && Contributes(owned[u], parse) && l == Contributed(owned[u], parse);
      assert LowestAt(owned, parse, u);
    }
  }

  /**
   * A failed search is returned wrapped and nothing is written. Otherwise the
   * status is written whatever happens, and `reconcileStatus` reports no
   * error exactly when all components are ready, every counted version label
   * parsed and the status update went through.
   */
  lemma StatusOutcome(s: State, faults: Faults, parse: string -> Res<SemVer>, kcp: KinkControlPlane, kinds: seq<Kind>)
    requires Consistent(s)
    ensures var r := StatusSpec(s, faults, parse, kcp, kinds);
      var found := FindOwned(s, faults, kcp.meta, kinds).0;
      (found.Err? ==> r.written.None? && r.err == Some(Wrapped("failed to find owned objects", found.error))) &&
      (found.Ok? ==>
         r.written == Some(Summary(Fold(Start, found.value, found.value.Keys, parse), kcp.status)) &&
         r.state.calls == s.calls + |kinds| + 1 &&
         (r.err.None? <==>
            r.written.value.ready && faults(s.calls + |kinds|).None? &&
            forall u | u in found.value && Versioned(found.value[u]) :: parse(VersionLabel(found.value[u])).Ok?))
  {
    FindOwnedFails(s, faults, kcp.meta, kinds);
    var found := FindOwned(s, faults, kcp.meta, kinds).0;
    if found.Ok? {
      FoldErrors(Start, found.value, found.value.Keys, parse);
    }
  }

  /** The fold takes the least UID first. */
  lemma FoldStep(a: Aggregate, owned: map<Uid, Obj>, todo: set<Uid>, parse: string -> Res<SemVer>)
    requires todo <= owned.Keys && todo != {}
    ensures var u := LeastUid(todo);
      Fold(a, owned, todo, parse) == Fold(Observe(a, owned[u], parse), owned, todo - {u}, parse)
  {
  }

  /** The loop of `reconcileStatus` over the owned objects, visited in ascending UID. */
  method AggregateOwned(owned: map<Uid, Obj>, parse: string -> Res<SemVer>) returns (a: Aggregate)
    ensures a == Fold(Start, owned, owned.Keys, parse)
  {
    var hasReadyAPIServer := false;
    var allReady := true;
    var minReplicas, minAvailable, minReady, minUpdated, minUnavailable := MaxInt32, MaxInt32, MaxInt32, MaxInt32, MaxInt32;
    var lowestVersion := Sentinel;
    var errs: Option<Error> := None;
    var todo := owned.Keys;
    while todo != {}
      invariant todo <= owned.Keys
      invariant Fold(Aggregate(hasReadyAPIServer, allReady, minReplicas, minAvailable, minReady, minUpdated, minUnavailable,
                               lowestVersion, errs), owned, todo, parse) ==
                Fold(Start, owned, owned.Keys, parse)
      decreases |todo|
    {
      var u := LeastUid(todo);
      ghost var before := Aggregate(hasReadyAPIServer, allReady, minReplicas, minAvailable, minReady, minUpdated, minUnavailable,
                                    lowestVersion, errs);
      FoldStep(before, owned, todo, parse);
      todo := todo - {u};
      var obj := owned[u];
      if !obj.body.DeploymentBody? {
        continue;
      }
      var desired := 1;
      if obj.body.deployment.replicas.Some? {
        desired := obj.body.deployment.replicas.value;
      }
      var st := obj.body.status;
      if st.readyReplicas < desired {
        allReady := false;
      }
      if st.replicas < minReplicas {
        minReplicas := st.replicas;
      }
      if st.availableReplicas < minAvailable {
        minAvailable := st.availableReplicas;
      }
      if st.readyReplicas < minReady {
        minReady := st.readyReplicas;
      }
      if st.updatedReplicas < minUpdated {
        minUpdated := st.updatedReplicas;
      }
      if st.unavailableReplicas < minUnavailable {
        minUnavailable := st.unavailableReplicas;
      }
      var labels := obj.meta.labels;
      if Labels.LabelComponent in labels && labels[Labels.LabelComponent] == ControlPlane.ComponentAPIServer {
        if st.readyReplicas > 0 {
          hasReadyAPIServer := true;
        }
      }
      ghost var counted := Aggregate(hasReadyAPIServer, allReady, minReplicas, minAvailable, minReady, minUpdated, minUnavailable,
                                     lowestVersion, errs);
      assert counted == Counted(before, obj);
      assert Observe(before, obj, parse) == Versioning(counted, obj, parse);
      if Labels.LabelComponent in labels && labels[Labels.LabelComponent] == ControlPlane.ComponentKine {
        continue;
      }
      if Labels.LabelVersion in labels && labels[Labels.LabelVersion] != "" {
        var v := parse(labels[Labels.LabelVersion]);
        if v.Err? {
          errs := Some(JoinTo(errs, v.error));
          continue;
        }
        if Compare(v.value, lowestVersion) < 0 {
          lowestVersion := v.value;
        }
      }
    }
    return Aggregate(hasReadyAPIServer, allReady, minReplicas, minAvailable, minReady, minUpdated, minUnavailable,
                     lowestVersion, errs);
  }

  method ReconcileStatus(c: Client, parse: string -> Res<SemVer>, kcp: KinkControlPlane, kinds: seq<Kind>)
    returns (err: Option<Error>, written: Option<KinkControlPlaneStatus>)
    requires c.Valid()
    modifies c
    ensures c.Valid()
    ensures StatusResult(err, written, c.state) == StatusSpec(old(c.state), c.faults, parse, kcp, kinds)
  {
    var found := FindOwnedObjects(c, kcp.meta, kinds);
    if found.Err? {
      return Some(Wrapped("failed to find owned objects", found.error)), None;
    }
    var a := AggregateOwned(found.value, parse);
    var status := Summary(a, kcp.status);
    var errs := a.errs;
    if !a.allReady {
      errs := Some(JoinTo(errs, NotAllComponentsReady));
    }
    var updateErr := c.UpdateResource();
    if updateErr.Some? {
      errs := Some(JoinTo(errs, Wrapped("failed to apply status changes", updateErr.value)));
    }
    return errs, Some(status);
  }
}
