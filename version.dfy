/**
 * Default component images (version/version.go). The Go package computes them
 * once in `init` from embedded values and stores them in package variables;
 * here `Init` returns them as a `Defaults` record that the builders receive.
 */
module Version {
  import opened Strings

  const DockerRegistry: string := "docker.io"
  const GhcrRegistry: string := "ghcr.io"
  const K8sRegistry: string := "registry.k8s.io"
  const QuayRegistry: string := "quay.io"

  /** One `values.Image` entry of the embedded values file. */
  datatype ImageValues = ImageValues(registry: string, repository: string, tag: string)

  /** The decoded values file, keyed by component. */
  type Values = map<string, ImageValues>

  /** A missing entry reads as Go's zero `values.Image`. */
  function Lookup(vals: Values, component: string): (v: ImageValues)
    ensures component !in vals ==> v == ImageValues("", "", "")
    ensures component in vals ==> v == vals[component]
  {
    if component in vals then vals[component] else ImageValues("", "", "")
  }

  /** `initVersion`: "<registry>/<repository>:<tag>", with the registry and tag defaulted. */
  function InitVersion(image: ImageValues, defaultRegistry: string): (ref: string)
    ensures image.registry == "" ==> HasPrefix(ref, defaultRegistry + "/")
    ensures image.registry != "" ==> HasPrefix(ref, image.registry + "/")
    ensures image.tag == "" ==> HasSuffix(ref, ":latest")
    ensures image.tag != "" ==> HasSuffix(ref, ":" + image.tag)
  {
    var registry := if image.registry == "" then defaultRegistry else image.registry;
    var tag := if image.tag == "" then "latest" else image.tag;
    registry + "/" + image.repository + ":" + tag
  }

  /** The package variables the accessors `APIServer()`, `Kine()`, ... return. */
  datatype Defaults = Defaults(
    apiServer: string,
    controllerManager: string,
    scheduler: string,
    kine: string,
    konnectivityServer: string,
    konnectivityAgent: string,
    nodeBase: string)

  /** The components `init` computes a default image for. */
  datatype Component = APIServer | ControllerManager | Scheduler | Kine | KonnectivityServer | KonnectivityAgent

  /** A component's key in the values file. */
  function Key(c: Component): string
  {
    match c
    case APIServer => "apiServer"
    case ControllerManager => "controllerManager"
    case Scheduler => "scheduler"
    case Kine => "kine"
    case KonnectivityServer => "konnectivityServer"
    case KonnectivityAgent => "konnectivityAgent"
  }

  /** The registry a component's image falls back to: ghcr.io for Kine, registry.k8s.io for the others. */
  function DefaultRegistry(c: Component): string
  {
    if c == Kine then GhcrRegistry else K8sRegistry
  }

  /** The default image of a component, as its accessor returns it. */
  function ImageOf(d: Defaults, c: Component): string
  {
    match c
    case APIServer => d.apiServer
    case ControllerManager => d.controllerManager
    case Scheduler => d.scheduler
    case Kine => d.kine
    case KonnectivityServer => d.konnectivityServer
    case KonnectivityAgent => d.konnectivityAgent
  }

  /** One assignment of `init`: the component's entry, with its own default registry. */
  function InitComponent(vals: Values, c: Component): (ref: string)
    ensures var v := Lookup(vals, Key(c));
      HasPrefix(ref, (if v.registry == "" then DefaultRegistry(c) else v.registry) + "/") &&
      HasSuffix(ref, ":" + (if v.tag == "" then "latest" else v.tag))
  {
    InitVersion(Lookup(vals, Key(c)), DefaultRegistry(c))
  }

  /**
   * `init`: every component's image names the registry its entry configures,
   * or else its default one, and ends with the configured tag, or else
   * ":latest". `nodeBase` is supplied by the caller: its accessor is not part
   * of this file.
   */
  function Init(vals: Values, nodeBase: string): (d: Defaults)
    ensures forall c: Component ::
      var v := Lookup(vals, Key(c));
      HasPrefix(ImageOf(d, c), (if v.registry == "" then DefaultRegistry(c) else v.registry) + "/") &&
      HasSuffix(ImageOf(d, c), ":" + (if v.tag == "" then "latest" else v.tag))
    ensures d.nodeBase == nodeBase
  {
    var d := Defaults(
      InitComponent(vals, APIServer),
      InitComponent(vals, ControllerManager),
      InitComponent(vals, Scheduler),
      InitComponent(vals, Kine),
      InitComponent(vals, KonnectivityServer),
      InitComponent(vals, KonnectivityAgent),
      nodeBase);
    assert forall c: Component :: ImageOf(d, c) == InitComponent(vals, c);
    d
  }

  /** Each component's default image depends on its own entry of the values file and on nothing else. */
  lemma InitOwnEntry(vals1: Values, vals2: Values, nodeBase: string, c: Component)
    requires Lookup(vals1, Key(c)) == Lookup(vals2, Key(c))
    ensures ImageOf(Init(vals1, nodeBase), c) == ImageOf(Init(vals2, nodeBase), c)
  {
    var d1, d2 := Init(vals1, nodeBase), Init(vals2, nodeBase);
    assert ImageOf(d1, c) == InitComponent(vals1, c);
    assert ImageOf(d2, c) == InitComponent(vals2, c);
  }
}
