/**
 * The kubeconfig secrets of a control plane
 * (internal/manifests/controlplane/kubeconfig.go): one for Cluster API, with
 * the public endpoint and the admin certificate, and one each for the
 * controller manager, the scheduler and Konnectivity, with the in-cluster
 * endpoint and their own client certificates. `Build` tries all four, keeps
 * the secrets that could be built and joins the errors of the others.
 */
module KubeconfigSecrets {
  import opened Wrappers
  import opened Errors
  import opened Objects
  import opened Api
  import opened Foreign
  import opened Manifests
  import Naming
  import KubeconfigUtil
  import ControlPlane
  import ControllerManager
  import Scheduler
  import ApiServer

  /** `capiv1beta1.ClusterSecretType`. */
  const ClusterSecretType: string := "cluster.x-k8s.io/secret"

  /** Who a kubeconfig secret is for. */
  datatype Consumer = ForClusterAPI | ForControllerManager | ForScheduler | ForKonnectivity

  /** The order in which `Build` tries them. */
  const Order: seq<Consumer> := [ForClusterAPI, ForControllerManager, ForScheduler, ForKonnectivity]

  /** The store's answer to a Get of a secret, by name, in the control plane's namespace. */
  type SecretGetter = string -> Res<map<string, Bytes>>

  function SecretName(c: Consumer, name: string): string
  {
    match c
    case ForClusterAPI => Naming.Kubeconfig(name)
    case ForControllerManager => Naming.Kubeconfig(Naming.ControllerManager(name))
    case ForScheduler => Naming.Kubeconfig(Naming.Scheduler(name))
    case ForKonnectivity => Naming.Kubeconfig(Naming.KonnectivityServer(name))
  }

  /** The certificate secret whose keys the kubeconfig carries. */
  function CertificateName(c: Consumer, name: string): string
  {
    match c
    case ForClusterAPI => Naming.AdminCertificate(name)
    case ForControllerManager => Naming.ControllerManagerCertificate(name)
    case ForScheduler => Naming.SchedulerCertificate(name)
    case ForKonnectivity => Naming.KonnectivityCertificate(name)
  }

  /** Cluster API reaches the control plane from outside; the components from inside the cluster. */
  function Endpoint(c: Consumer, kcp: KinkControlPlane): (url: string)
    ensures c.ForClusterAPI? ==>
      url == Naming.PublicAPIServerEndpoint(kcp.meta.name, kcp.spec.controlPlaneEndpoint.host, kcp.spec.controlPlaneEndpoint.port)
    ensures !c.ForClusterAPI? ==> url == Naming.LocalAPIServerEndpoint(kcp.meta.name, kcp.meta.namespace)
  {
    if c.ForClusterAPI? then
      Naming.PublicAPIServerEndpoint(kcp.meta.name, kcp.spec.controlPlaneEndpoint.host, kcp.spec.controlPlaneEndpoint.port)
    else Naming.LocalAPIServerEndpoint(kcp.meta.name, kcp.meta.namespace)
  }

  /** The text `Build` wraps a consumer's error in. */
  function Context(c: Consumer): string
  {
    match c
    case ForClusterAPI => "error bulding secret for ClusterAPI"
    case ForControllerManager => "error bulding secret for ControllerManager"
    case ForScheduler => "error bulding secret for Scheduler"
    case ForKonnectivity => "error bulding secret for Konnectivity"
  }

  /**
   * One kubeconfig secret: the kubeconfig of the certificate, serialised under
   * the single key "value". `labels` is what `KubeconfigLabels` returns.
   */
  function SecretFor(env: Env, get: SecretGetter, labels: StringMap, kcp: KinkControlPlane, c: Consumer): (r: Res<Obj>)
    ensures r.Ok? ==> KindOf(r.value) == Kind.Secret
  {
    var cert := CertificateName(c, kcp.meta.name);
    var ref := KubeconfigUtil.NamespacedName(kcp.meta.namespace, cert);
    match KubeconfigUtil.NewKubeconfigFor(kcp.meta.name, Endpoint(c, kcp), ref, get(cert))
    case Err(e) => Err(Wrapped("failed to generate kubeconfig", e))
    case Ok(config) =>
      match env.encodeKubeConfig(config)
      case Err(e) => Err(Wrapped("failed to serialize kubeconfig", e))
      case Ok(buf) =>
        Ok(Obj(NewMeta(SecretName(c, kcp.meta.name), kcp.meta.namespace, labels, InstanceAnnotations(kcp.meta)),
               SecretBody(ClusterSecretType, map[ControlPlane.KubeconfigName := buf])))
  }

  /** The secrets built for `cs`, in order, skipping the consumers whose secret failed. */
  function Built(env: Env, get: SecretGetter, labels: StringMap, kcp: KinkControlPlane, cs: seq<Consumer>): seq<Obj>
  {
    if cs == [] then []
    else
      var r := SecretFor(env, get, labels, kcp, cs[|cs| - 1]);
      Built(env, get, labels, kcp, cs[..|cs| - 1]) + (if r.Ok? then [r.value] else [])
  }

  /** The wrapped errors of the consumers whose secret failed, in order. */
  function Failures(env: Env, get: SecretGetter, labels: StringMap, kcp: KinkControlPlane, cs: seq<Consumer>): seq<Error>
  {
    if cs == [] then []
    else
      var c := cs[|cs| - 1];
      var r := SecretFor(env, get, labels, kcp, c);
      Failures(env, get, labels, kcp, cs[..|cs| - 1]) + (if r.Err? then [Wrapped(Context(c), r.error)] else [])
  }

  /** Repeated `errors.Join(errs, e)` starting from nil. */
  function JoinAll(errs: seq<Error>): (r: Option<Error>)
    ensures r.None? <==> errs == []
  {
    if errs == [] then None else Some(JoinTo(JoinAll(errs[..|errs| - 1]), errs[|errs| - 1]))
  }

  /**
   * One block of `Build`: append the consumer's secret, or join its wrapped
   * error; after the consumers `done`, the secrets and the error are those of
   * `done` followed by `c`.
   */
  method Attempt(env: Env, get: SecretGetter, labels: StringMap, kcp: KinkControlPlane, ghost done: seq<Consumer>, c: Consumer,
                 objs: seq<Obj>, err: Option<Error>) returns (objs': seq<Obj>, err': Option<Error>)
    requires objs == Built(env, get, labels, kcp, done) && err == JoinAll(Failures(env, get, labels, kcp, done))
    ensures objs' == Built(env, get, labels, kcp, done + [c]) && err' == JoinAll(Failures(env, get, labels, kcp, done + [c]))
  {
    objs', err' := objs, err;
    var r := SecretFor(env, get, labels, kcp, c);
    if r.Err? {
      err' := Some(JoinTo(err, Wrapped(Context(c), r.error)));
    } else {
      objs' := objs + [r.value];
    }
    Step(env, get, labels, kcp, done, c);
  }

  /** `Kubeconfig.Build`: every consumer is tried in turn; a failure does not stop the others. */
  method Build(env: Env, get: SecretGetter, labels: StringMap, kcp: KinkControlPlane) returns (objs: seq<Obj>, err: Option<Error>)
    ensures objs == Built(env, get, labels, kcp, Order)
    ensures err == JoinAll(Failures(env, get, labels, kcp, Order))
  {
    objs, err := [], None;
    ghost var p0, p1, p2, p3 := [], [ForClusterAPI], [ForClusterAPI, ForControllerManager],
      [ForClusterAPI, ForControllerManager, ForScheduler];
    assert p0 + [ForClusterAPI] == p1 && p1 + [ForControllerManager] == p2;
    assert p2 + [ForScheduler] == p3 && p3 + [ForKonnectivity] == Order;
    objs, err := Attempt(env, get, labels, kcp, p0, ForClusterAPI, objs, err);
    objs, err := Attempt(env, get, labels, kcp, p1, ForControllerManager, objs, err);
    objs, err := Attempt(env, get, labels, kcp, p2, ForScheduler, objs, err);
    objs, err := Attempt(env, get, labels, kcp, p3, ForKonnectivity, objs, err);
  }

  /** Trying one more consumer extends the secrets or the errors, and the joined error with it. */
  lemma Step(env: Env, get: SecretGetter, labels: StringMap, kcp: KinkControlPlane, cs: seq<Consumer>, c: Consumer)
    ensures var r := SecretFor(env, get, labels, kcp, c);
      Built(env, get, labels, kcp, cs + [c]) == Built(env, get, labels, kcp, cs) + (if r.Ok? then [r.value] else []) &&
      JoinAll(Failures(env, get, labels, kcp, cs + [c])) ==
        (if r.Err? then Some(JoinTo(JoinAll(Failures(env, get, labels, kcp, cs)), Wrapped(Context(c), r.error)))
         else JoinAll(Failures(env, get, labels, kcp, cs)))
  {
    assert (cs + [c])[..|cs|] == cs;
    var f := Failures(env, get, labels, kcp, cs);
    var r := SecretFor(env, get, labels, kcp, c);
    if r.Err? {
      assert (f + [Wrapped(Context(c), r.error)])[..|f|] == f;
    } else {
      assert f + [] == f;
    }
  }

  /** Every consumer either gets its secret or contributes one error. */
  lemma {:induction false} BuiltPlusFailures(env: Env, get: SecretGetter, labels: StringMap, kcp: KinkControlPlane, cs: seq<Consumer>)
    ensures |Built(env, get, labels, kcp, cs)| + |Failures(env, get, labels, kcp, cs)| == |cs|
  {
    if cs != [] {
      BuiltPlusFailures(env, get, labels, kcp, cs[..|cs| - 1]);
    }
  }

  /** Every secret built is a Cluster API secret holding one kubeconfig under the "value" key, named for one of the consumers. */
  lemma {:induction false} BuiltAreKubeconfigSecrets(env: Env, get: SecretGetter, labels: StringMap, kcp: KinkControlPlane, cs: seq<Consumer>)
    ensures forall o | o in Built(env, get, labels, kcp, cs) ::
      o.body.SecretBody? && o.body.secretType == ClusterSecretType &&
      o.body.secretData.Keys == {ControlPlane.KubeconfigName} &&
      o.meta.namespace == kcp.meta.namespace &&
      exists i | 0 <= i < |cs| :: o.meta.name == SecretName(cs[i], kcp.meta.name)
  {
    if cs != [] {
      var init, last := cs[..|cs| - 1], cs[|cs| - 1];
      BuiltAreKubeconfigSecrets(env, get, labels, kcp, init);
      SecretShape(env, get, labels, kcp, last);
      var r := SecretFor(env, get, labels, kcp, last);
      assert Built(env, get, labels, kcp, cs) == Built(env, get, labels, kcp, init) + (if r.Ok? then [r.value] else []);
      forall o | o in Built(env, get, labels, kcp, cs)
        ensures exists i | 0 <= i < |cs| :: o.meta.name == SecretName(cs[i], kcp.meta.name)
      {
        if o in Built(env, get, labels, kcp, init) {
          var i :| 0 <= i < |init| && o.meta.name == SecretName(init[i], kcp.meta.name);
          assert cs[i] == init[i];
        } else {
          assert o.meta.name == SecretName(cs[|cs| - 1], kcp.meta.name);
        }
      }
    }
  }

  /** A secret built for `c` is a Cluster API secret in the control plane's namespace, named for `c`. */
  lemma SecretShape(env: Env, get: SecretGetter, labels: StringMap, kcp: KinkControlPlane, c: Consumer)
    ensures var r := SecretFor(env, get, labels, kcp, c);
      r.Ok? ==>
        r.value.body.SecretBody? && r.value.body.secretType == ClusterSecretType &&
        r.value.body.secretData.Keys == {ControlPlane.KubeconfigName} &&
        r.value.meta.namespace == kcp.meta.namespace && r.value.meta.name == SecretName(c, kcp.meta.name)
  {
  }

  /** `Build` returns at most four secrets, and exactly as many errors as secrets are missing; no error means all four. */
  lemma BuildCounts(env: Env, get: SecretGetter, labels: StringMap, kcp: KinkControlPlane)
    ensures |Built(env, get, labels, kcp, Order)| + |Failures(env, get, labels, kcp, Order)| == 4
    ensures JoinAll(Failures(env, get, labels, kcp, Order)).None? <==> |Built(env, get, labels, kcp, Order)| == 4
  {
    BuiltPlusFailures(env, get, labels, kcp, Order);
  }

  /** A consumer fails exactly when its certificate secret cannot be read, lacks a key, or its kubeconfig cannot be serialised. */
  lemma SecretFails(env: Env, get: SecretGetter, labels: StringMap, kcp: KinkControlPlane, c: Consumer)
    ensures var cert := CertificateName(c, kcp.meta.name);
      var data := get(cert);
      SecretFor(env, get, labels, kcp, c).Err? <==>
        data.Err? ||
        !(KubeconfigUtil.CAKey in data.value && KubeconfigUtil.CertKey in data.value && KubeconfigUtil.PrivateKeyKey in data.value) ||
        env.encodeKubeConfig(KubeconfigUtil.NewKubeconfigFor(kcp.meta.name, Endpoint(c, kcp),
                                                             KubeconfigUtil.NamespacedName(kcp.meta.namespace, cert), data).value).Err?
  {
  }

  /**
   * The secrets are the ones the components mount: the controller manager's
   * and the scheduler's "kubeconfig" volumes, and the API server's volume for
   * the Konnectivity kubeconfig.
   */
  lemma MountedByComponents(env: Env, kcp: KinkControlPlane)
    ensures ControllerManager.Volumes(kcp)[0] == Volume("kubeconfig", SecretVolume(SecretName(ForControllerManager, kcp.meta.name)))
    ensures Scheduler.Volumes(kcp)[0] == Volume("kubeconfig", SecretVolume(SecretName(ForScheduler, kcp.meta.name)))
    ensures ApiServer.Volumes(env, kcp).Ok? ==>
      ApiServer.Volumes(env, kcp).value[4] == Volume("kubeconfig", SecretVolume(SecretName(ForKonnectivity, kcp.meta.name)))
  {
  }
}
