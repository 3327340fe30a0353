/**
 * Object shapes every builder assembles the same way: labels and annotations
 * of the managed resource without filters, a Deployment or a Service around a
 * selector, a secret volume, the data volume chosen by a `Persistence`.
 */
module Manifests {
  import opened Wrappers
  import opened Errors
  import opened Objects
  import opened Api
  import Labels
  import Annotations

  /** The matcher handed to the label and annotation helpers; the builders pass no patterns, so it is never asked. */
  function NoMatch(pattern: string, s: string): bool
  {
    false
  }

  /** `manifestutils.Labels(meta, name, image, component, concept, nil)`. */
  function ComponentLabels(meta: ObjectMeta, name: string, image: string, component: string, concept: string): StringMap
  {
    Labels.Labels(NoMatch, meta, name, image, component, concept, [])
  }

  /** `manifestutils.Annotations(instance, nil)`, and the equal `PodAnnotations`. */
  function InstanceAnnotations(meta: ObjectMeta): (r: StringMap)
    ensures r == Annotations.PodAnnotations(NoMatch, meta, [])
  {
    Annotations.PodAnnotationsAreAnnotations(NoMatch, meta, []);
    Annotations.Annotations(NoMatch, meta, [])
  }

  /** With no patterns nothing is filtered out: the instance's annotations are copied whole. */
  lemma InstanceAnnotationsCopied(meta: ObjectMeta)
    ensures InstanceAnnotations(meta) == meta.annotations
  {
    Annotations.UnfilteredAnnotations(NoMatch, meta);
  }

  /** A component's selector labels are a sub-map of its labels, whatever the name and image. */
  lemma SelectorWithinComponentLabels(meta: ObjectMeta, name: string, image: string, component: string, concept: string)
    ensures SubMap(Labels.SelectorLabels(meta, component, concept), ComponentLabels(meta, name, image, component, concept))
  {
    Labels.SelectorWithinLabels(NoMatch, meta, name, image, component, concept, []);
  }

  /** A Deployment as the builders write it: selector, replicas and pod template, no status. */
  function DeploymentObject(meta: ObjectMeta, selector: StringMap, replicas: int, template: PodTemplate): (o: Obj)
    ensures KindOf(o) == Kind.Deployment
  {
    Obj(meta, DeploymentBody(
      DeploymentSpec(Some(LabelSelector(selector)), Some(replicas), 0, false, None, None, "", template),
      NoStatus))
  }

  /** A Service as the builders write it. */
  function ServiceObject(meta: ObjectMeta, serviceType: string, clusterIP: string, selector: StringMap, ports: seq<ServicePort>): (o: Obj)
    ensures KindOf(o) == Kind.Service
  {
    Obj(meta, ServiceBody(ServiceSpec(serviceType, clusterIP, selector, ports)))
  }

  function SecretVolumeFor(name: string, secretName: string): Volume
  {
    Volume(name, SecretVolume(secretName))
  }

  /**
   * The "data" volume of Kine and of a node: no source without persistence,
   * the claim when one is given, otherwise an EmptyDir that takes the medium
   * and size of the given EmptyDir, if any.
   */
  function DataVolume(persistence: Option<Persistence>): (v: Volume)
    ensures v.name == "data"
    ensures persistence.None? ==> v.source == NoSource
    ensures persistence.Some? && persistence.value.claim.Some? ==> v.source == ClaimVolume(persistence.value.claim.value)
    ensures persistence.Some? && persistence.value.claim.None? ==> v.source.EmptyDir?
    ensures persistence.Some? && persistence.value.claim.None? && persistence.value.emptyDir.Some? ==>
      v.source.emptyDir == persistence.value.emptyDir.value
    ensures persistence.Some? && persistence.value.claim.None? && persistence.value.emptyDir.None? ==>
      v.source.emptyDir == EmptyDirSource("", None)
  {
    match persistence
    case None => Volume("data", NoSource)
    case Some(p) =>
      if p.claim.Some? then Volume("data", ClaimVolume(p.claim.value))
      else if p.emptyDir.Some? then Volume("data", EmptyDir(EmptyDirSource(p.emptyDir.value.medium, p.emptyDir.value.sizeLimit)))
      else Volume("data", EmptyDir(EmptyDirSource("", None)))
  }

  /** With persistence configured exactly one of claim and EmptyDir backs the data volume; without it, neither. */
  lemma DataVolumeExclusive(persistence: Option<Persistence>)
    ensures persistence.Some? <==> (DataVolume(persistence).source.ClaimVolume? || DataVolume(persistence).source.EmptyDir?)
    ensures !(DataVolume(persistence).source.ClaimVolume? && DataVolume(persistence).source.EmptyDir?)
  {
  }

  /** One step of a builder's `Build`: what a sub-builder returned, and the text its error is wrapped in. */
  datatype Part = Part(context: string, result: Res<seq<Obj>>)

  /** A sub-builder that returns one object, seen as a step returning a list. */
  function Single(r: Res<Obj>): Res<seq<Obj>>
  {
    match r
    case Err(e) => Err(e)
    case Ok(o) => Ok([o])
  }

  /** The objects of the steps that succeeded, in step order. */
  function Flatten(parts: seq<Part>): seq<Obj>
  {
    if parts == [] then []
    else (if parts[0].result.Ok? then parts[0].result.value else []) + Flatten(parts[1..])
  }

  /**
   * Running the steps of a `Build` in order: the first failing step stops the
   * build and its error comes back wrapped in the step's context; otherwise
   * every step's objects, concatenated.
   */
  function Collect(parts: seq<Part>): (r: Res<seq<Obj>>)
  {
    if parts == [] then Ok([])
    else match parts[0].result
      case Err(e) => Err(Wrapped(parts[0].context, e))
      case Ok(objs) =>
        match Collect(parts[1..])
        case Err(e) => Err(e)
        case Ok(rest) => Ok(objs + rest)
  }

  /**
   * `Collect` succeeds exactly when every step does, and then returns the
   * objects of all steps; when it fails, its error is the first failing step's,
   * wrapped in that step's context.
   */
  lemma {:induction false} CollectMeaning(parts: seq<Part>)
    ensures Collect(parts).Ok? <==> forall i | 0 <= i < |parts| :: parts[i].result.Ok?
    ensures Collect(parts).Ok? ==> Collect(parts).value == Flatten(parts)
    ensures Collect(parts).Err? ==> exists i | 0 <= i < |parts| ::
      FirstFailure(parts, i) && Collect(parts).error == Wrapped(parts[i].context, parts[i].result.error)
  {
    if parts != [] {
      CollectMeaning(parts[1..]);
      assert forall i | 0 < i < |parts| :: parts[i] == parts[1..][i - 1];
      if parts[0].result.Err? {
        assert FirstFailure(parts, 0);
      } else if Collect(parts[1..]).Err? {
        var i :| 0 <= i < |parts[1..]| && FirstFailure(parts[1..], i) &&
          Collect(parts[1..]).error == Wrapped(parts[1..][i].context, parts[1..][i].result.error);
        assert FirstFailure(parts, i + 1);
      }
    }
  }

  /** Step `i` is the first that failed. */
  predicate FirstFailure(parts: seq<Part>, i: nat)
  {
    i < |parts| && parts[i].result.Err? && forall j | 0 <= j < i :: parts[j].result.Ok?
  }

  /** A step returning one object, run before the others: it fails first, or its object leads the rest. */
  lemma CollectCons(context: string, first: Res<Obj>, rest: seq<Part>)
    ensures var r := Collect([Part(context, Single(first))] + rest);
      (first.Err? ==> r == Err(Wrapped(context, first.error))) &&
      (first.Ok? && Collect(rest).Err? ==> r == Collect(rest)) &&
      (first.Ok? && Collect(rest).Ok? ==> r == Ok([first.value] + Collect(rest).value)) &&
      (r.Ok? ==> Kinds(r.value) == [KindOf(first.value)] + Kinds(Collect(rest).value))
  {
    assert ([Part(context, Single(first))] + rest)[1..] == rest;
    if first.Ok? && Collect(rest).Ok? {
      KindsAppend([first.value], Collect(rest).value);
    }
  }

  /** The outcome of running two groups of steps one after the other. */
  function Then(x: Res<seq<Obj>>, y: Res<seq<Obj>>): Res<seq<Obj>>
  {
    match x
    case Err(e) => Err(e)
    case Ok(u) =>
      match y
      case Err(e) => Err(e)
      case Ok(v) => Ok(u + v)
  }

  /** Two lists of steps run one after the other: the first error of either, or the objects of both. */
  lemma {:induction false} CollectAppend(a: seq<Part>, b: seq<Part>)
    ensures Collect(a + b) == Then(Collect(a), Collect(b))
    decreases |a|
  {
    if a == [] {
      assert a + b == b;
      if Collect(b).Ok? {
        assert [] + Collect(b).value == Collect(b).value;
      }
    } else {
      assert (a + b)[0] == a[0];
      assert (a + b)[1..] == a[1..] + b;
      CollectAppend(a[1..], b);
      if a[0].result.Ok? && Collect(a[1..]).Ok? && Collect(b).Ok? {
        var u, v := Collect(a[1..]).value, Collect(b).value;
        assert a[0].result.value + (u + v) == (a[0].result.value + u) + v;
      }
    }
  }

  /** The kinds of two groups run one after the other. */
  lemma ThenKinds(x: Res<seq<Obj>>, y: Res<seq<Obj>>)
    requires Then(x, y).Ok?
    ensures x.Ok? && y.Ok?
    ensures Kinds(Then(x, y).value) == Kinds(x.value) + Kinds(y.value)
  {
    KindsAppend(x.value, y.value);
  }

  /** One step on its own: its objects, or its error wrapped in its context. */
  function Lift(p: Part): (r: Res<seq<Obj>>)
    ensures r.Ok? <==> p.result.Ok?
    ensures r.Ok? ==> r.value == p.result.value
    ensures r.Err? ==> r.error == Wrapped(p.context, p.result.error)
  {
    match p.result
    case Err(e) => Err(Wrapped(p.context, e))
    case Ok(objs) => Ok(objs)
  }

  /** Running one step and then the others. */
  lemma CollectStep(p: Part, rest: seq<Part>)
    ensures Collect([p] + rest) == Then(Lift(p), Collect(rest))
  {
    assert ([p] + rest)[0] == p;
    assert ([p] + rest)[1..] == rest;
  }

  /** Three one-object steps run before the others. */
  lemma Collect3(c0: string, o0: Res<Obj>, c1: string, o1: Res<Obj>, c2: string, o2: Res<Obj>, rest: seq<Part>)
    ensures var r := Collect([Part(c0, Single(o0)), Part(c1, Single(o1)), Part(c2, Single(o2))] + rest);
      (r.Ok? <==> o0.Ok? && o1.Ok? && o2.Ok? && Collect(rest).Ok?) &&
      (r.Ok? ==> r.value == [o0.value, o1.value, o2.value] + Collect(rest).value) &&
      (r.Ok? ==> |r.value| >= 3 && r.value[0] == o0.value && r.value[1] == o1.value && r.value[2] == o2.value) &&
      (r.Ok? ==> Kinds(r.value) == [KindOf(o0.value), KindOf(o1.value), KindOf(o2.value)] + Kinds(Collect(rest).value)) &&
      (o0.Err? ==> r == Err(Wrapped(c0, o0.error))) &&
      (o0.Ok? && o1.Err? ==> r == Err(Wrapped(c1, o1.error))) &&
      (o0.Ok? && o1.Ok? && o2.Err? ==> r == Err(Wrapped(c2, o2.error)))
  {
    Collect3Value(c0, o0, c1, o1, c2, o2, rest);
    var r := Collect([Part(c0, Single(o0)), Part(c1, Single(o1)), Part(c2, Single(o2))] + rest);
    if r.Ok? {
      KindsAppend([o0.value, o1.value, o2.value], Collect(rest).value);
    }
  }

  lemma Collect3Value(c0: string, o0: Res<Obj>, c1: string, o1: Res<Obj>, c2: string, o2: Res<Obj>, rest: seq<Part>)
    ensures var r := Collect([Part(c0, Single(o0)), Part(c1, Single(o1)), Part(c2, Single(o2))] + rest);
      (r.Ok? <==> o0.Ok? && o1.Ok? && o2.Ok? && Collect(rest).Ok?) &&
      (r.Ok? ==> r.value == [o0.value, o1.value, o2.value] + Collect(rest).value) &&
      (o0.Err? ==> r == Err(Wrapped(c0, o0.error))) &&
      (o0.Ok? && o1.Err? ==> r == Err(Wrapped(c1, o1.error))) &&
      (o0.Ok? && o1.Ok? && o2.Err? ==> r == Err(Wrapped(c2, o2.error)))
  {
    var p0, p1, p2 := Part(c0, Single(o0)), Part(c1, Single(o1)), Part(c2, Single(o2));
    assert [p0, p1, p2] + rest == [p0] + ([p1] + ([p2] + rest));
    CollectCons(c2, o2, rest);
    CollectCons(c1, o1, [p2] + rest);
    CollectCons(c0, o0, [p1] + ([p2] + rest));
    if o0.Ok? && o1.Ok? && o2.Ok? && Collect(rest).Ok? {
      var v := Collect(rest).value;
      assert [o0.value] + ([o1.value] + ([o2.value] + v)) == [o0.value, o1.value, o2.value] + v;
    }
  }

  /** Two one-object steps. */
  lemma Collect2(c0: string, o0: Res<Obj>, c1: string, o1: Res<Obj>)
    ensures var r := Collect([Part(c0, Single(o0)), Part(c1, Single(o1))]);
      (r.Ok? <==> o0.Ok? && o1.Ok?) &&
      (r.Ok? ==> r.value == [o0.value, o1.value] && Kinds(r.value) == [KindOf(o0.value), KindOf(o1.value)])
  {
    var p0, p1 := Part(c0, Single(o0)), Part(c1, Single(o1));
    assert [p0, p1] == [p0] + ([p1] + []);
    CollectCons(c1, o1, []);
    CollectCons(c0, o0, [p1] + []);
  }

  /** One one-object step. */
  lemma Collect1(c0: string, o0: Res<Obj>)
    ensures var r := Collect([Part(c0, Single(o0))]);
      (r.Ok? <==> o0.Ok?) &&
      (r.Ok? ==> r.value == [o0.value] && Kinds(r.value) == [KindOf(o0.value)])
  {
    assert [Part(c0, Single(o0))] == [Part(c0, Single(o0))] + [];
    CollectCons(c0, o0, []);
  }

  /** The kinds of a list of objects, in order. */
  function Kinds(objs: seq<Obj>): (ks: seq<Kind>)
    ensures |ks| == |objs|
    ensures forall i | 0 <= i < |objs| :: ks[i] == KindOf(objs[i])
  {
    seq(|objs|, i requires 0 <= i < |objs| => KindOf(objs[i]))
  }

  lemma KindsAppend(a: seq<Obj>, b: seq<Obj>)
    ensures Kinds(a + b) == Kinds(a) + Kinds(b)
  {
  }
}
