/**
 * Library code the operator calls but whose behaviour is outside this model:
 * image-reference parsing, semantic-version parsing, regular expressions,
 * hashing and serialisation. Each is a function the caller supplies; the model
 * proves its properties for every choice of these functions.
 */
module Foreign {
  import opened Wrappers
  import opened Errors
  import opened Objects

  /** The fields of a parsed, normalised image reference (`reference.ParseNormalizedNamed`). */
  datatype ImageReference = ImageReference(domain: string, path: string, tag: Option<string>, digest: Option<string>)

  /** A parsed semantic version: numeric core, pre-release and the text it was parsed from. */
  datatype SemVer = SemVer(major: nat, minor: nat, patch: nat, prerelease: string, original: string)

  /** `clientcmdapiv1.Config`, reduced to its named lists. */
  datatype NamedCluster = NamedCluster(name: string, server: string, certificateAuthorityData: Bytes)
  datatype NamedAuthInfo = NamedAuthInfo(name: string, clientCertificateData: Bytes, clientKeyData: Bytes)
  datatype NamedContext = NamedContext(name: string, cluster: string, authInfo: string)
  datatype KubeConfig = KubeConfig(
    clusters: seq<NamedCluster>,
    authInfos: seq<NamedAuthInfo>,
    contexts: seq<NamedContext>,
    currentContext: string)

  datatype Env = Env(
    /** `reference.ParseNormalizedNamed`. */
    parseReference: string -> Res<ImageReference>,
    /** `semver.NewVersion`. */
    parseSemVer: string -> Res<SemVer>,
    /** `regexp.Compile(pattern)` followed by `MatchString(s)`. */
    regexMatch: (string, string) -> bool,
    /** `GetConfigMapSHA`: SHA-256 over the JSON encoding of the data. */
    configMapHash: StringMap -> Res<string>,
    /** The YAML text of the API server's egress selector configuration. */
    egressSelectorConfiguration: Res<string>,
    /** `manifestutils.BuildKubernetesArgs`, the flag renderer of the API server and Konnectivity containers. */
    buildKubernetesArgs: StringMap -> seq<string>,
    /** `clientcmdapilatest.Codec.Encode`. */
    encodeKubeConfig: KubeConfig -> Res<Bytes>,
    /** `path.Join(udsPath, udsName)`, the Konnectivity socket; its constants are defined outside this model. */
    konnectivitySocketPath: string)
}
