/**
 * What the control-plane builders share (internal/manifests/controlplane/controlplane.go):
 * the component names, the mount paths of certificates and kubeconfigs, the
 * merge of a component's extra flags under its default flags, and the
 * rendering of a flag map as a sorted list of "--key=value" arguments.
 */
module ControlPlane {
  import opened Wrappers
  import opened Strings
  import opened Objects
  import opened Api

  const ConceptControlPlane: string := "kink-control-plane"

  const ComponentCertificates: string := "certificates"
  const ComponentAPIServer: string := "api-server"
  const ComponentControllerManager: string := "controller-manager"
  const ComponentKine: string := "kine"
  const ComponentScheduler: string := "scheduler"

  const RootPKIPath: string := "/etc/pki/kubernetes"
  const RootCAFile: string := "ca.crt"
  const RootCertFile: string := "tls.crt"
  const RootKeyFile: string := "tls.key"

  const KubeconfigPath: string := "/etc/kubernetes"
  const KubeconfigName: string := "value"

  const ServiceAccountsPKIPath: string := "/etc/pki/service-accounts"
  const ServiceAccountsCertificateFile: string := "tls.crt"
  const ServiceAccountsKeyFile: string := "tls.key"

  /** The replicas of a control-plane Deployment: the configured count, one when unset. */
  function Replicas(kcp: KinkControlPlane): (n: int)
    ensures kcp.spec.replicas.None? ==> n == 1
    ensures kcp.spec.replicas.Some? ==> n == kcp.spec.replicas.value
  {
    kcp.spec.replicas.GetOr(1)
  }

  /** `fmt.Sprint` of a boolean. */
  function BoolString(b: bool): string
  {
    if b then "true" else "false"
  }

  /** `path.Join` of a directory and a file name. */
  function JoinPath(dir: string, file: string): string
  {
    dir + "/" + file
  }

  /** One command-line flag, `--key=value`. */
  function Flag(key: string, value: string): string
  {
    "--" + key + "=" + value
  }

  /** A flag whose key and value hold no '=' is told apart from every other flag. */
  lemma FlagInjective(k1: string, v1: string, k2: string, v2: string)
    requires '=' !in k1 && '=' !in v1
    requires Flag(k1, v1) == Flag(k2, v2)
    ensures k1 == k2 && v1 == v2
  {
    var s := Flag(k1, v1);
    assert s == "--" + k1 + "=" + v1 && s == "--" + k2 + "=" + v2;
    var eq1, eq2 := 2 + |k1|, 2 + |k2|;
    assert s[eq1] == '=' && s[eq2] == '=';
    assert forall j | 2 <= j < eq1 :: s[j] == k1[j - 2];
    assert forall j | eq1 < j < |s| :: s[j] == v1[j - eq1 - 1];
    assert forall j | 2 <= j < |s| && j != eq1 :: s[j] != '=';
    assert k1 == s[2..eq1] == k2;
    assert v1 == s[eq1 + 1..] == v2;
  }

  /** The flags of the entries of `args` under `keys`, taken in ascending key order. */
  function FlagsOf(args: StringMap, keys: set<string>): (r: seq<string>)
    requires keys <= args.Keys
    ensures |r| == |keys|
    decreases keys
  {
    if keys == {} then []
    else
      var k := Least(keys);
      [Flag(k, args[k])] + FlagsOf(args, keys - {k})
  }

  /** The flags of a map, one per entry, in ascending key order. */
  function Flags(args: StringMap): (r: seq<string>)
  {
    FlagsOf(args, args.Keys)
  }

  /** What `buildArgs` returns: the flags of the map, sorted. */
  function RenderArgs(args: StringMap): (r: seq<string>)
  {
    Sort(Flags(args))
  }

  /** Taking a key out takes its flag out of the flags. */
  lemma {:induction false} FlagsRemove(args: StringMap, keys: set<string>, k: string)
    requires keys <= args.Keys && k in keys
    ensures multiset(FlagsOf(args, keys)) == multiset{Flag(k, args[k])} + multiset(FlagsOf(args, keys - {k}))
    decreases keys
  {
    var j := Least(keys);
    if j != k {
      var fj, fk := Flag(j, args[j]), Flag(k, args[k]);
      var withoutJ, withoutK := keys - {j}, keys - {k};
      var withoutBoth := keys - {j} - {k};
      assert withoutBoth == withoutK - {j};
      assert FlagsOf(args, keys) == [fj] + FlagsOf(args, withoutJ);
      FlagsRemove(args, withoutJ, k);
      FlagsRemove(args, withoutK, j);
      calc {
        multiset(FlagsOf(args, keys));
        multiset{fj} + multiset(FlagsOf(args, withoutJ));
        multiset{fj} + (multiset{fk} + multiset(FlagsOf(args, withoutBoth)));
        multiset{fk} + (multiset{fj} + multiset(FlagsOf(args, withoutBoth)));
        multiset{fk} + multiset(FlagsOf(args, withoutK));
      }
    }
  }

  /** Every key has its flag among the flags, and every flag comes from a key. */
  lemma {:induction false} FlagsOfEntries(args: StringMap, keys: set<string>)
    requires keys <= args.Keys
    ensures forall k | k in keys :: Flag(k, args[k]) in FlagsOf(args, keys)
    ensures forall f | f in FlagsOf(args, keys) :: exists k | k in keys :: f == Flag(k, args[k])
    decreases keys
  {
    if keys != {} {
      var j := Least(keys);
      FlagsOfEntries(args, keys - {j});
    }
  }

  /**
   * The rendered arguments: one per entry, sorted, so that they do not depend on
   * the order in which the map was walked.
   */
  lemma RenderArgsContents(args: StringMap)
    ensures |RenderArgs(args)| == |args|
    ensures Sorted(RenderArgs(args))
    ensures forall k | k in args :: Flag(k, args[k]) in RenderArgs(args)
    ensures forall f | f in RenderArgs(args) :: exists k | k in args :: f == Flag(k, args[k])
  {
    FlagsOfEntries(args, args.Keys);
    assert forall f :: f in RenderArgs(args) <==> f in Flags(args) by {
      forall f ensures f in RenderArgs(args) <==> f in Flags(args) {
        assert f in RenderArgs(args) <==> f in multiset(RenderArgs(args));
      }
    }
  }

  /**
   * `buildArgs`: the flags collected from the map in whatever order the walk
   * takes, then sorted.
   */
  method BuildArgs(args: StringMap) returns (cmd: seq<string>)
    ensures cmd == RenderArgs(args)
  {
    var collected := [];
    var remaining := args.Keys;
    while remaining != {}
      invariant remaining <= args.Keys
      invariant multiset(collected) + multiset(FlagsOf(args, remaining)) == multiset(Flags(args))
      decreases remaining
    {
      var k :| k in remaining;
      FlagsRemove(args, remaining, k);
      collected := collected + [Flag(k, args[k])];
      remaining := remaining - {k};
    }
    cmd := Sort(collected);
    SortedUnique(cmd, RenderArgs(args));
  }

  /** The component's flags: every default, plus the extra flags whose key has no default. */
  function MergedArgs(defaults: StringMap, extra: StringMap): (r: StringMap)
    ensures r.Keys == defaults.Keys + extra.Keys
    ensures forall k | k in defaults :: r[k] == defaults[k]
    ensures forall k | k in extra && k !in defaults :: r[k] == extra[k]
  {
    map k | k in defaults.Keys + extra.Keys :: if k in defaults then defaults[k] else extra[k]
  }

  /**
   * The `ExtraArgs` loop of the container builders: each extra flag is added
   * unless the map already has the key.
   */
  method MergeExtraArgs(defaults: StringMap, extra: StringMap) returns (args: StringMap)
    ensures args == MergedArgs(defaults, extra)
  {
    args := defaults;
    var remaining := extra.Keys;
    ghost var done: set<string> := {};
    while remaining != {}
      invariant remaining <= extra.Keys && done == extra.Keys - remaining
      invariant MergedSoFar(defaults, extra, done, args)
      decreases remaining
    {
      var k :| k in remaining;
      MergeStep(defaults, extra, done, args, k);
      if k !in args {
        args := args[k := extra[k]];
      }
      remaining := remaining - {k};
      done := done + {k};
    }
    MergedArgsUnique(defaults, extra, args);
  }

  /** The merge after the extra keys in `done` have been walked. */
  ghost predicate MergedSoFar(defaults: StringMap, extra: StringMap, done: set<string>, args: StringMap)
  {
    done <= extra.Keys && args.Keys == defaults.Keys + done &&
    (forall k | k in defaults :: args[k] == defaults[k]) &&
    (forall k | k in args && k !in defaults :: args[k] == extra[k])
  }

  lemma MergeStep(defaults: StringMap, extra: StringMap, done: set<string>, args: StringMap, k: string)
    requires MergedSoFar(defaults, extra, done, args) && k in extra && k !in done
    ensures k in args <==> k in defaults
    ensures MergedSoFar(defaults, extra, done + {k}, if k in args then args else args[k := extra[k]])
  {
  }

  /** A map with the merged keys and the merged values is the merge. */
  lemma MergedArgsUnique(defaults: StringMap, extra: StringMap, args: StringMap)
    requires MergedSoFar(defaults, extra, extra.Keys, args)
    ensures args == MergedArgs(defaults, extra)
  {
    var merged := MergedArgs(defaults, extra);
    assert forall k | k in args :: args[k] == merged[k];
  }

  /** Extra flags never override a default flag, whatever order the extra flags are walked in. */
  lemma DefaultsWin(defaults: StringMap, extra: StringMap, k: string)
    requires k in defaults
    ensures Flag(k, defaults[k]) in RenderArgs(MergedArgs(defaults, extra))
  {
    RenderArgsContents(MergedArgs(defaults, extra));
  }

  /** A default flag whose key and value hold no '=' is rendered with exactly its default value. */
  lemma DefaultFlagExact(defaults: StringMap, extra: StringMap, k: string, v: string)
    requires k in defaults && '=' !in k && '=' !in v
    ensures Flag(k, v) in RenderArgs(MergedArgs(defaults, extra)) <==> v == defaults[k]
  {
    var args := MergedArgs(defaults, extra);
    RenderArgsContents(args);
    if Flag(k, v) in RenderArgs(args) {
      var j :| j in args && Flag(k, v) == Flag(j, args[j]);
      FlagInjective(k, v, j, args[j]);
    }
  }

  /** A boolean default flag is rendered "true" exactly when the boolean holds, and "false" otherwise. */
  lemma BoolFlagExact(defaults: StringMap, extra: StringMap, k: string, b: bool)
    requires k in defaults && '=' !in k && defaults[k] == BoolString(b)
    ensures Flag(k, "true") in RenderArgs(MergedArgs(defaults, extra)) <==> b
    ensures Flag(k, "false") in RenderArgs(MergedArgs(defaults, extra)) <==> !b
  {
    assert '=' !in "true" && '=' !in "false";
    DefaultFlagExact(defaults, extra, k, "true");
    DefaultFlagExact(defaults, extra, k, "false");
  }
}
