/**
 * The annotations copied from a managed resource onto the objects built for it
 * (internal/manifests/manifestutils/annotations.go).
 */
module Annotations {
  import opened Objects
  import Labels

  /** `Annotations`: a fresh copy of the instance annotations without the filtered keys. */
  function Annotations(matches: (string, string) -> bool, instance: ObjectMeta, filterAnnotations: seq<string>): (r: StringMap)
    ensures forall k :: k in r <==>
      k in instance.annotations && forall i | 0 <= i < |filterAnnotations| :: !matches(filterAnnotations[i], k)
    ensures forall k | k in r :: r[k] == instance.annotations[k]
  {
    Labels.Unfiltered(matches, instance.annotations, filterAnnotations)
  }

  /** Copies the entries of `src` whose key `dst` does not hold yet. */
  function CopyMissing(src: StringMap, dst: StringMap): (r: StringMap)
  {
    dst + map k | k in src && k !in dst :: src[k]
  }

  /** `PodAnnotations`: `Annotations` copied into a fresh map, skipping keys already there. */
  function PodAnnotations(matches: (string, string) -> bool, instance: ObjectMeta, filterAnnotations: seq<string>): StringMap
  {
    CopyMissing(Annotations(matches, instance, filterAnnotations), map[])
  }

  /** The "already there" check never fires on a fresh map, so the pod annotations are the annotations. */
  lemma PodAnnotationsAreAnnotations(matches: (string, string) -> bool, instance: ObjectMeta, filterAnnotations: seq<string>)
    ensures PodAnnotations(matches, instance, filterAnnotations) == Annotations(matches, instance, filterAnnotations)
  {
  }

  /** With no filters every instance annotation is kept as it is. */
  lemma UnfilteredAnnotations(matches: (string, string) -> bool, instance: ObjectMeta)
    ensures Annotations(matches, instance, []) == instance.annotations
  {
  }
}
