/**
 * Resource names derived from an instance name (internal/naming/naming.go).
 * Every derived name is `DNSName(Truncate(format, 63, base...))`.
 */
module Naming {
  import Strings

  const MaxNameLength: nat := 63

  /**
   * `naming.Truncate` after formatting: the formatted text cut to `max` characters.
   * The formatting is done by the caller by concatenation.
   */
  function Truncate(formatted: string, max: nat): (r: string)
    ensures |r| <= max
    ensures |formatted| <= max ==> r == formatted
    ensures r == formatted[..|r|]
  {
    if |formatted| <= max then formatted else formatted[..max]
  }

  /** `naming.DNSName`, taken as the identity on the already truncated name. */
  function DNSName(s: string): string
  {
    s
  }

  /** The common shape `DNSName(Truncate("%s<suffix>", 63, base))`. */
  function Derived(base: string, suffix: string): (n: string)
    ensures |n| <= MaxNameLength
    ensures |base + suffix| <= MaxNameLength ==> n == base + suffix
  {
    DNSName(Truncate(base + suffix, MaxNameLength))
  }

  function APIServer(base: string): (n: string)
    ensures |n| <= MaxNameLength
    ensures |base| + 11 <= MaxNameLength ==> n == base + "-api-server"
  {
    Derived(base, "-api-server")
  }

  /** Uses the same format as `APIServer`, so the serving certificate shares the Service's name. */
  function APIServerCertificate(base: string): (n: string)
    ensures n == APIServer(base)
  {
    Derived(base, "-api-server")
  }

  function ClusterCA(base: string): (n: string)
    ensures |n| <= MaxNameLength
    ensures |base| + 3 <= MaxNameLength ==> n == base + "-ca"
  {
    Derived(base, "-ca")
  }

  function ConfigMap(base: string, hash: string): (n: string)
    ensures |n| <= MaxNameLength
    ensures |base| + 1 + |hash| <= MaxNameLength ==> n == base + "-" + hash
  {
    Derived(base, "-" + hash)
  }

  function ControllerManager(base: string): (n: string)
    ensures |n| <= MaxNameLength
    ensures |base| + 19 <= MaxNameLength ==> n == base + "-controller-manager"
  {
    Derived(base, "-controller-manager")
  }

  function FrontProxyCA(base: string): (n: string)
    ensures |n| <= MaxNameLength
    ensures |base| + 6 <= MaxNameLength ==> n == base + "-proxy"
  {
    Derived(base, "-proxy")
  }

  function Kine(base: string): (n: string)
    ensures |n| <= MaxNameLength
    ensures |base| + 5 <= MaxNameLength ==> n == base + "-kine"
  {
    Derived(base, "-kine")
  }

  function KineAPIServerClientCertificate(base: string): (n: string)
    ensures |n| <= MaxNameLength
    ensures |base| + 5 <= MaxNameLength ==> n == base + "-etcd"
  {
    Derived(base, "-etcd")
  }

  /** Same format as the API server's Kine client certificate: the two certificates collide. */
  function KineCA(base: string): (n: string)
    ensures n == KineAPIServerClientCertificate(base)
  {
    Derived(base, "-etcd")
  }

  /** Same format again: three distinct Certificates are built under one name. */
  function KineServerCertificate(base: string): (n: string)
    ensures n == KineCA(base) && n == KineAPIServerClientCertificate(base)
  {
    Derived(base, "-etcd")
  }

  function RootCA(base: string): (n: string)
    ensures |n| <= MaxNameLength
    ensures |base| + 8 <= MaxNameLength ==> n == base + "-root-ca"
  {
    Derived(base, "-root-ca")
  }

  function Scheduler(base: string): (n: string)
    ensures |n| <= MaxNameLength
    ensures |base| + 10 <= MaxNameLength ==> n == base + "-scheduler"
  {
    Derived(base, "-scheduler")
  }

  function ServiceAccountCertificate(base: string): (n: string)
    ensures |n| <= MaxNameLength
    ensures |base| + 3 <= MaxNameLength ==> n == base + "-sa"
  {
    Derived(base, "-sa")
  }

  function Node(base: string): (n: string)
    ensures |n| <= MaxNameLength
    ensures |base| + 5 <= MaxNameLength ==> n == base + "-node"
  {
    Derived(base, "-node")
  }

  const APIServerContainer: string := "api-server"
  const ControllerManagerContainer: string := "controller-manager"
  const KineContainer: string := "kine"
  const SchedulerContainer: string := "scheduler"
  const NodeBaseContainer: string := "base"

  /*
   * The formatters below are called by the modelled code but are defined in a
   * file that is not part of this model; the suffixes are placeholders of the
   * same `Derived` shape.
   */

  function Kubeconfig(base: string): (n: string)
    ensures |n| <= MaxNameLength
    ensures |base| + 11 <= MaxNameLength ==> n == base + "-kubeconfig"
  {
    Derived(base, "-kubeconfig")
  }

  function KonnectivityServer(base: string): (n: string)
    ensures |n| <= MaxNameLength
    ensures |base| + 20 <= MaxNameLength ==> n == base + "-konnectivity-server"
  {
    Derived(base, "-konnectivity-server")
  }

  const KonnectivityContainer: string := "konnectivity-server"

  function AdminCertificate(base: string): (n: string)
    ensures |n| <= MaxNameLength
    ensures |base| + 6 <= MaxNameLength ==> n == base + "-admin"
  {
    Derived(base, "-admin")
  }

  function ControllerManagerCertificate(base: string): (n: string)
    ensures |n| <= MaxNameLength
    ensures |base| + 26 <= MaxNameLength ==> n == base + "-controller-manager-client"
  {
    Derived(base, "-controller-manager-client")
  }

  function SchedulerCertificate(base: string): (n: string)
    ensures |n| <= MaxNameLength
    ensures |base| + 17 <= MaxNameLength ==> n == base + "-scheduler-client"
  {
    Derived(base, "-scheduler-client")
  }

  function KonnectivityCertificate(base: string): (n: string)
    ensures |n| <= MaxNameLength
    ensures |base| + 20 <= MaxNameLength ==> n == base + "-konnectivity-client"
  {
    Derived(base, "-konnectivity-client")
  }

  function PublicAPIServerEndpoint(name: string, host: string, port: int): string
  {
    "https://" + host + ":" + Strings.IntToString(port)
  }

  function LocalAPIServerEndpoint(name: string, namespace: string): string
  {
    "https://" + APIServer(name) + "." + namespace + ".svc.cluster.local:6443"
  }
  /** Two instances whose derived names fit are told apart by them: the suffix is never cut. */
  lemma DerivedInjective(a: string, b: string, suffix: string)
    requires |a + suffix| <= MaxNameLength && |b + suffix| <= MaxNameLength
    requires Derived(a, suffix) == Derived(b, suffix)
    ensures a == b
  {
    assert a + suffix == b + suffix;
    assert |a| == |b|;
    assert a == (a + suffix)[..|a|] == (b + suffix)[..|b|] == b;
  }

  /**
   * The four Deployments of one control plane get four different names whenever
   * the longest of them fits, so none of them overwrites another.
   */
  lemma ControlPlaneNamesDistinct(base: string)
    requires |base| + 19 <= MaxNameLength
    ensures var names := [APIServer(base), ControllerManager(base), Scheduler(base), Kine(base)];
      forall i, j | 0 <= i < j < 4 :: names[i] != names[j]
  {
    var k := |base| + 1;
    assert APIServer(base)[k] == 'a';
    assert ControllerManager(base)[k] == 'c';
    assert Scheduler(base)[k] == 's';
    assert Kine(base)[k] == 'k';
  }
}
