/**
 * The common labels of every object built for a managed resource
 * (internal/manifests/manifestutils/labels.go).
 */
module Labels {
  import opened Strings
  import opened Objects
  import Naming

  const LabelComponent: string := "app.kubernetes.io/component"
  const LabelVersion: string := "app.kubernetes.io/version"
  const LabelManagedBy: string := "app.kubernetes.io/managed-by"
  const LabelInstance: string := "app.kubernetes.io/instance"
  const LabelPartOf: string := "app.kubernetes.io/part-of"
  const LabelClusterName: string := "cluster.x-k8s.io/cluster-name"
  const LabelName: string := "app.kubernetes.io/name"
  const Sha256Suffix: string := "@sha256"

  /**
   * `IsFilteredSet`: whether some pattern of `filters` matches `key`.
   * `matches(pattern, s)` is the regular-expression match.
   */
  function IsFilteredSet(matches: (string, string) -> bool, key: string, filters: seq<string>): (r: bool)
    ensures r <==> exists i | 0 <= i < |filters| :: matches(filters[i], key)
  {
    if filters == [] then false
    else if matches(filters[0], key) then true
    else
      var r := IsFilteredSet(matches, key, filters[1..]);
      assert forall i | 1 <= i < |filters| :: filters[i] == filters[1..][i - 1];
      r
  }

  /** A fresh copy of the entries of `m` whose key no filter matches. */
  function Unfiltered(matches: (string, string) -> bool, m: StringMap, filters: seq<string>): StringMap
  {
    map k | k in m && !IsFilteredSet(matches, k, filters) :: m[k]
  }

  /** Exactly the unmatched keys survive, each with its own value. */
  lemma UnfilteredEntries(matches: (string, string) -> bool, m: StringMap, filters: seq<string>, k: string)
    ensures k in Unfiltered(matches, m, filters) <==>
      k in m && forall i | 0 <= i < |filters| :: !matches(filters[i], k)
    ensures k in Unfiltered(matches, m, filters) ==> Unfiltered(matches, m, filters)[k] == m[k]
  {
  }

  /** `SelectorLabels`: the five labels that identify the objects of one component. */
  function SelectorLabels(instance: ObjectMeta, component: string, concept: string): StringMap
  {
    map[LabelManagedBy := "kink",
        LabelInstance := Naming.Truncate(instance.namespace + "." + instance.name, Naming.MaxNameLength),
        LabelPartOf := concept,
        LabelComponent := component,
        LabelClusterName := instance.name]
  }

  const SelectorKeys: set<string> := {LabelManagedBy, LabelInstance, LabelPartOf, LabelComponent, LabelClusterName}

  /** The seven label keys the operator writes are pairwise distinct. */
  lemma KeysDistinct()
    ensures |SelectorKeys| == 5
    ensures LabelVersion !in SelectorKeys && LabelName !in SelectorKeys && LabelVersion != LabelName
  {
    assert |LabelManagedBy| == 28 && |LabelInstance| == 26 && |LabelPartOf| == 25;
    assert |LabelComponent| == 27 && |LabelClusterName| == 29;
    assert |LabelVersion| == 25 && |LabelName| == 22;
    assert LabelVersion[18] != LabelPartOf[18];
    assert |{LabelManagedBy, LabelInstance, LabelPartOf, LabelComponent}| == 4;
  }

  /** The selector labels have exactly the five keys, with the values the operator gives them. */
  lemma SelectorLabelsContents(instance: ObjectMeta, component: string, concept: string)
    ensures SelectorLabels(instance, component, concept).Keys == SelectorKeys
    ensures |SelectorLabels(instance, component, concept)| == 5
    ensures SelectorLabels(instance, component, concept)[LabelManagedBy] == "kink"
    ensures SelectorLabels(instance, component, concept)[LabelPartOf] == concept
    ensures SelectorLabels(instance, component, concept)[LabelComponent] == component
    ensures SelectorLabels(instance, component, concept)[LabelClusterName] == instance.name
    ensures |SelectorLabels(instance, component, concept)[LabelInstance]| <= Naming.MaxNameLength
  {
    KeysDistinct();
    assert SelectorLabels(instance, component, concept).Keys == SelectorKeys;
  }

  /**
   * The digest-carrying part of a split image: the last part ending in "@sha256"
   * with that suffix removed, or "" when none does.
   */
  function DigestPart(parts: seq<string>): (r: string)
    ensures (forall i | 0 <= i < |parts| :: !HasSuffix(parts[i], Sha256Suffix)) ==> r == ""
    ensures forall i | 0 <= i < |parts| && HasSuffix(parts[i], Sha256Suffix) &&
        (forall j | i < j < |parts| :: !HasSuffix(parts[j], Sha256Suffix)) ::
      r == TrimSuffix(parts[i], Sha256Suffix)
  {
    if parts == [] then ""
    else
      var last := parts[|parts| - 1];
      if HasSuffix(last, Sha256Suffix) then TrimSuffix(last, Sha256Suffix)
      else
        var r := DigestPart(parts[..|parts| - 1]);
        assert forall i | 0 <= i < |parts| - 1 :: parts[..|parts| - 1][i] == parts[i];
        r
  }

  /** The value of the version label for an image reference. */
  function VersionLabel(image: string): (v: string)
    ensures |Split(image, ':')| == 2 ==>
      v == Naming.Truncate(Split(image, ':')[1], Naming.MaxNameLength)
    ensures |Split(image, ':')| == 3 ==> v == DigestPart(Split(image, ':'))
    ensures |Split(image, ':')| !in {2, 3} ==> v == "latest"
  {
    var parts := Split(image, ':');
    if |parts| == 3 then DigestPart(parts)
    else if |parts| == 2 then Naming.Truncate(parts[|parts| - 1], Naming.MaxNameLength)
    else "latest"
  }

  /** The labels before the name default: the unfiltered instance labels, the selector, the version. */
  function BaseLabels(
    matches: (string, string) -> bool, instance: ObjectMeta, image: string,
    component: string, concept: string, filterLabels: seq<string>): StringMap
  {
    (Unfiltered(matches, instance.labels, filterLabels) + SelectorLabels(instance, component, concept))
      [LabelVersion := VersionLabel(image)]
  }

  /** `Labels`: a fresh map; the instance's own labels are an input and are never changed. */
  function Labels(
    matches: (string, string) -> bool, instance: ObjectMeta, name: string, image: string,
    component: string, concept: string, filterLabels: seq<string>): StringMap
  {
    var base := BaseLabels(matches, instance, image, component, concept, filterLabels);
    if LabelName in base then base else base[LabelName := name]
  }

  /** The selector labels are a sub-map of the full labels: what the immutability check depends on. */
  lemma SelectorWithinLabels(
    matches: (string, string) -> bool, instance: ObjectMeta, name: string, image: string,
    component: string, concept: string, filterLabels: seq<string>)
    ensures SubMap(SelectorLabels(instance, component, concept),
                   Labels(matches, instance, name, image, component, concept, filterLabels))
  {
    var sel := SelectorLabels(instance, component, concept);
    var base := BaseLabels(matches, instance, image, component, concept, filterLabels);
    SelectorLabelsContents(instance, component, concept);
    KeysDistinct();
    assert forall k | k in sel :: k in base && base[k] == sel[k];
  }

  /** The key set of the labels. */
  lemma LabelsKeys(
    matches: (string, string) -> bool, instance: ObjectMeta, name: string, image: string,
    component: string, concept: string, filterLabels: seq<string>)
    ensures Labels(matches, instance, name, image, component, concept, filterLabels).Keys ==
      Unfiltered(matches, instance.labels, filterLabels).Keys + SelectorKeys + {LabelVersion, LabelName}
  {
    SelectorLabelsContents(instance, component, concept);
  }

  /** The version label is always written, from the image. */
  lemma LabelsVersion(
    matches: (string, string) -> bool, instance: ObjectMeta, name: string, image: string,
    component: string, concept: string, filterLabels: seq<string>)
    ensures Labels(matches, instance, name, image, component, concept, filterLabels)[LabelVersion] == VersionLabel(image)
  {
    KeysDistinct();
  }

  /**
   * An instance label that no filter matches is copied unless the operator
   * writes that key itself; a matched one is dropped.
   */
  lemma LabelsFromInstance(
    matches: (string, string) -> bool, instance: ObjectMeta, name: string, image: string,
    component: string, concept: string, filterLabels: seq<string>, k: string)
    requires k in instance.labels && k !in SelectorKeys && k != LabelVersion
    ensures var l := Labels(matches, instance, name, image, component, concept, filterLabels);
      (!IsFilteredSet(matches, k, filterLabels) ==> k in l && l[k] == instance.labels[k]) &&
      (IsFilteredSet(matches, k, filterLabels) && k != LabelName ==> k !in l)
  {
    SelectorLabelsContents(instance, component, concept);
  }

  /** The name label is `name` only when no unfiltered instance label already sets it. */
  lemma NameLabel(
    matches: (string, string) -> bool, instance: ObjectMeta, name: string, image: string,
    component: string, concept: string, filterLabels: seq<string>)
    ensures var l := Labels(matches, instance, name, image, component, concept, filterLabels);
      LabelName in l &&
      (if LabelName in instance.labels && !IsFilteredSet(matches, LabelName, filterLabels)
       then l[LabelName] == instance.labels[LabelName]
       else l[LabelName] == name)
  {
    SelectorLabelsContents(instance, component, concept);
    KeysDistinct();
  }
}
