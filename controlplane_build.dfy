/**
 * `controlplane.Builder.Build` (internal/manifests/controlplane/controlplane.go):
 * every object of a hosted control plane, in order: the certificates, Kine,
 * the API server, the controller manager and the scheduler. The first
 * component that fails stops the build; its error is wrapped with the
 * component's name and no objects are returned.
 */
module ControlPlaneBuilder {
  import opened Wrappers
  import opened Errors
  import opened Objects
  import opened Api
  import opened Foreign
  import opened Manifests
  import Version
  import Kine
  import ApiServer
  import ControllerManager
  import Scheduler

  const APIServerContext: string := "failed to build API Server components"
  const ControllerManagerContext: string := "failed to build Controller Manager components"
  const SchedulerContext: string := "failed to build Scheduler components"

  /** The five groups of objects in build order; the certificates and Kine cannot fail. */
  function Steps(certificates: seq<Obj>, kine: seq<Obj>, kas: Res<seq<Obj>>, kcm: Res<seq<Obj>>, ks: Res<seq<Obj>>): seq<Part>
  {
    [Part("", Ok(certificates)), Part("", Ok(kine)),
     Part(APIServerContext, kas), Part(ControllerManagerContext, kcm), Part(SchedulerContext, ks)]
  }

  /**
   * Assembling the groups: the objects of all five, concatenated in order,
   * when the three fallible ones succeed; otherwise the first failure, wrapped.
   */
  lemma {:induction false} Assemble(certificates: seq<Obj>, kine: seq<Obj>, kas: Res<seq<Obj>>, kcm: Res<seq<Obj>>, ks: Res<seq<Obj>>)
    ensures var r := Collect(Steps(certificates, kine, kas, kcm, ks));
      (r.Ok? <==> kas.Ok? && kcm.Ok? && ks.Ok?) &&
      (r.Ok? ==> r.value == certificates + kine + kas.value + kcm.value + ks.value) &&
      (kas.Err? ==> r == Err(Wrapped(APIServerContext, kas.error))) &&
      (kas.Ok? && kcm.Err? ==> r == Err(Wrapped(ControllerManagerContext, kcm.error))) &&
      (kas.Ok? && kcm.Ok? && ks.Err? ==> r == Err(Wrapped(SchedulerContext, ks.error)))
  {
    var p0, p1, p2, p3, p4 := Part("", Ok(certificates)), Part("", Ok(kine)),
      Part(APIServerContext, kas), Part(ControllerManagerContext, kcm), Part(SchedulerContext, ks);
    assert Steps(certificates, kine, kas, kcm, ks) == [p0] + ([p1] + ([p2] + ([p3] + ([p4] + []))));
    CollectStep(p4, []);
    CollectStep(p3, [p4] + []);
    CollectStep(p2, [p3] + ([p4] + []));
    CollectStep(p1, [p2] + ([p3] + ([p4] + [])));
    CollectStep(p0, [p1] + ([p2] + ([p3] + ([p4] + []))));
    if kas.Ok? && kcm.Ok? && ks.Ok? {
      var a, b, c := kas.value, kcm.value, ks.value;
      assert Collect([p4] + []) == Ok(c + []);
      assert c + [] == c;
      assert certificates + (kine + (a + (b + c))) == certificates + kine + a + b + c;
    }
  }

  /** `Builder.Build`, with the certificates' objects given: certificates.go is not part of this model. */
  function Build(env: Env, defaults: Version.Defaults, certificates: seq<Obj>, kcp: KinkControlPlane): Res<seq<Obj>>
  {
    Collect(Steps(certificates, Kine.Build(defaults, kcp),
                  ApiServer.Build(env, defaults, kcp),
                  ControllerManager.Build(env, defaults, kcp),
                  Scheduler.Build(env, defaults, kcp)))
  }

  /**
   * The control plane fails to build exactly when one of the API server, the
   * controller manager and the scheduler does, and the error names the first
   * failing one.
   */
  lemma BuildFails(env: Env, defaults: Version.Defaults, certificates: seq<Obj>, kcp: KinkControlPlane)
    ensures var r := Build(env, defaults, certificates, kcp);
      var kas, kcm, ks := ApiServer.Build(env, defaults, kcp), ControllerManager.Build(env, defaults, kcp), Scheduler.Build(env, defaults, kcp);
      (r.Err? <==> kas.Err? || kcm.Err? || ks.Err?) &&
      (kas.Err? ==> r == Err(Wrapped(APIServerContext, kas.error))) &&
      (kas.Ok? && kcm.Err? ==> r == Err(Wrapped(ControllerManagerContext, kcm.error))) &&
      (kas.Ok? && kcm.Ok? && ks.Err? ==> r == Err(Wrapped(SchedulerContext, ks.error)))
  {
    Assemble(certificates, Kine.Build(defaults, kcp), ApiServer.Build(env, defaults, kcp),
             ControllerManager.Build(env, defaults, kcp), Scheduler.Build(env, defaults, kcp));
  }

  /**
   * A successful build holds the certificates, then Kine's Service and
   * Deployment, the API server's objects, and the Services and Deployments of
   * the controller manager and the scheduler.
   */
  lemma BuildKinds(env: Env, defaults: Version.Defaults, certificates: seq<Obj>, kcp: KinkControlPlane)
    requires Build(env, defaults, certificates, kcp).Ok?
    ensures Kinds(Build(env, defaults, certificates, kcp).value) ==
      Kinds(certificates) + [Kind.Service, Kind.Deployment]
      + ([Kind.Service, Kind.Deployment, Kind.ConfigMap] + ApiServer.EndpointKinds(kcp))
      + [Kind.Service, Kind.Deployment] + [Kind.Service, Kind.Deployment]
  {
    var kine, kas, kcm, ks := Kine.Build(defaults, kcp), ApiServer.Build(env, defaults, kcp),
      ControllerManager.Build(env, defaults, kcp), Scheduler.Build(env, defaults, kcp);
    Assemble(certificates, kine, kas, kcm, ks);
    ApiServer.BuildKinds(env, defaults, kcp);
    ControllerManager.BuildKinds(env, defaults, kcp);
    Scheduler.BuildKinds(env, defaults, kcp);
    Kine.BuildKinds(defaults, kcp);
    KindsAppend(certificates + kine + kas.value + kcm.value, ks.value);
    KindsAppend(certificates + kine + kas.value, kcm.value);
    KindsAppend(certificates + kine, kas.value);
    KindsAppend(certificates, kine);
  }
}
