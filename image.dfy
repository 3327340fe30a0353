/**
 * Resolution of a container image reference against a version and a default
 * image (internal/manifests/manifestutils/image.go).
 */
module Image {
  import opened Wrappers
  import opened Errors
  import opened Strings
  import opened Foreign

  /** `path.Join` of the registry and the repository path, for already clean parts. */
  function PathJoin(a: string, b: string): (r: string)
    ensures a == "" ==> r == b
    ensures b == "" ==> r == a
    ensures a != "" && b != "" ==> r == a + "/" + b
  {
    if a == "" then b else if b == "" then a else a + "/" + b
  }

  /** What `setVersion` appends after the repository, given the parsed tag and digest. */
  function VersionSuffix(ref: ImageReference, version: string, force: bool): string
  {
    var kept :=
      if force then ""
      else (if ref.tag.Some? then ":" + ref.tag.value else "") + (if ref.digest.Some? then "@" + ref.digest.value else "");
    var versionSet := !force && (ref.tag.Some? || ref.digest.Some?);
    kept + (if !versionSet && version != "" then ":" + version else "")
  }

  /** `setVersion`: the normalised name, then the kept tag and digest or the version. */
  function SetVersion(env: Env, image: string, version: string, force: bool): (r: Res<string>)
    ensures env.parseReference(image).Err? ==> r == Err(env.parseReference(image).error)
    ensures env.parseReference(image).Ok? ==> (
      var ref := env.parseReference(image).value;
      r.Ok? && HasPrefix(r.value, PathJoin(ref.domain, ref.path)) &&
      r.value[|PathJoin(ref.domain, ref.path)|..] == VersionSuffix(ref, version, force))
  {
    match env.parseReference(image)
    case Err(e) => Err(e)
    case Ok(ref) => Ok(PathJoin(ref.domain, ref.path) + VersionSuffix(ref, version, force))
  }

  /** `Image`: the configured image, or the default one when none is configured. */
  function Image(env: Env, image: string, version: string, defaultImage: string): (r: Res<string>)
    ensures image == "" && version == "" ==> r == Ok(defaultImage)
    ensures image == "" && version != "" ==> r == SetVersion(env, defaultImage, version, true)
    ensures image != "" ==> r == SetVersion(env, image, version, false)
  {
    if image == "" then
      if version == "" then Ok(defaultImage) else SetVersion(env, defaultImage, version, true)
    else SetVersion(env, image, version, false)
  }

  /**
   * The suffix keeps a tag and a digest (in that order) when the reference has
   * them and the version is not forced; the version is written only when the
   * reference had neither, or when it is forced.
   */
  lemma VersionSuffixCases(ref: ImageReference, version: string, force: bool)
    ensures force && version != "" ==> VersionSuffix(ref, version, force) == ":" + version
    ensures force && version == "" ==> VersionSuffix(ref, version, force) == ""
    ensures !force && ref.tag.Some? && ref.digest.Some? ==>
      VersionSuffix(ref, version, force) == ":" + ref.tag.value + "@" + ref.digest.value
    ensures !force && ref.tag.Some? && ref.digest.None? ==>
      VersionSuffix(ref, version, force) == ":" + ref.tag.value
    ensures !force && ref.tag.None? && ref.digest.Some? ==>
      VersionSuffix(ref, version, force) == "@" + ref.digest.value
    ensures !force && ref.tag.None? && ref.digest.None? ==>
      VersionSuffix(ref, version, force) == (if version == "" then "" else ":" + version)
  {
  }

  /** An empty image with a version uses the default's repository with the version, dropping its tag and digest. */
  lemma DefaultImageWithVersion(env: Env, version: string, defaultImage: string)
    requires version != ""
    requires env.parseReference(defaultImage).Ok?
    ensures var ref := env.parseReference(defaultImage).value;
      Image(env, "", version, defaultImage) == Ok(PathJoin(ref.domain, ref.path) + ":" + version)
  {
    var ref := env.parseReference(defaultImage).value;
    VersionSuffixCases(ref, version, true);
    assert SetVersion(env, defaultImage, version, true) == Ok(PathJoin(ref.domain, ref.path) + VersionSuffix(ref, version, true));
    assert Image(env, "", version, defaultImage) == SetVersion(env, defaultImage, version, true);
    assert PathJoin(ref.domain, ref.path) + VersionSuffix(ref, version, true) == PathJoin(ref.domain, ref.path) + ":" + version;
  }

  /** A configured image that names a tag keeps it, whatever the version. */
  lemma ConfiguredTagKept(env: Env, image: string, version: string, defaultImage: string)
    requires image != ""
    requires env.parseReference(image).Ok? && env.parseReference(image).value.tag.Some?
    ensures var ref := env.parseReference(image).value;
      Image(env, image, version, defaultImage).Ok? &&
      HasPrefix(Image(env, image, version, defaultImage).value,
                PathJoin(ref.domain, ref.path) + ":" + ref.tag.value)
  {
    var ref := env.parseReference(image).value;
    var base := PathJoin(ref.domain, ref.path);
    var r := base + VersionSuffix(ref, version, false);
    assert r == base + ":" + ref.tag.value + VersionSuffix(ref, version, false)[|ref.tag.value| + 1..];
  }
}
