# kink, modelled in Dafny

kink is a Kubernetes operator that runs the control plane of a Cluster API
workload cluster as ordinary workloads inside a management cluster. This
project models its core and proves properties of that model:

- **The three reconcilers.**
  - The KinkControlPlane reconciler (`ControlPlaneController`, with `ControlPlaneStatus`) does four things:
    - it keeps a finalizer on the resource and cleans up owned objects on deletion;
    - it waits for a Cluster API `Cluster` owner;
    - it builds the control-plane components and the kubeconfig secrets and reconciles both against the objects it owns;
    - it folds the owned Deployments into the status: readiness, initialization, the least replica counts and the lowest component version.
  - The KinkCluster reconciler (`ClusterController`) manages only the finalizer.
  - The KinkMachine reconciler (`MachineController`) reconciles a node's StatefulSet and Service.
- **The shared controller steps.**
  - Finding owned objects kind by kind: each kind is listed in the owner's namespace, and the objects whose owner references carry the owner's UID are kept (`Util`).
  - Creating, updating, recovering from immutable-field refusals, and pruning what is no longer desired (`Util`).
  - The finalizer lifecycle (`Lifecycle`).
  - The kind filters (`Filter`).
- **The builders.** They describe the desired objects of one control plane:
  - the API server with its ConfigMap, Service and Gateway/HTTPRoute or Ingress (`ApiServer`);
  - the controller manager (`ControllerManager`) and the scheduler (`Scheduler`);
  - Kine, the etcd replacement (`Kine`);
  - the kubeconfig secrets (`KubeconfigSecrets`);
  - the machine's node (`Node`);
  - the shared argument, label, annotation, affinity and image helpers (`ControlPlane`, `Labels`, `Annotations`, `AffinityDefaults`, `Image`, `Manifests`).
- **The mutation policy** (`Mutate`). This is how an object read from the API server is brought in line with the built one before it is written back.
- **Naming and versions.** Resource names and endpoints (`Naming`, `Endpoints`) and the default component versions (`Version`, `SemverOrder`).

The API server is modelled by `Store`: a map from keys to objects, a UID
counter and a call counter. A fault oracle names the error, if any, that the
n-th call returns. A `Store.Client` object holds this state, and the
controllers' methods change it in place. Each method is proved equal to a
specification function. The properties are lemmas about those functions, and
each holds whatever the faults are.

Two behaviours of the code are worth knowing.

**Immutable-field recovery.** When an update is refused because an immutable
field changed, `ReconcileDesiredObjects` deletes the stored object and goes
on to the next desired object (util.go:160-167). It does not create the
object again; that is left to the next reconcile. It also does not take the
object out of the owned index, so the prune at the end deletes the same key a
second time. The store then answers NotFound, and the reconcile reports an
error (`Util.RecoveryThenPruneFails`). The model follows the code here.

**Ingress.** `Mutate` has no rule for an Ingress (`Mutate.MissingRule`). So
when the API server is exposed through an Ingress, reconciling the built
Ingress always records "missing mutate implementation". The reconcile then
returns that error before the prune (`Util.ReconcileDesiredPrunes`), so
owned objects that are no longer desired are never deleted.

**Kine certificate names.** The three Kine certificate names share one
format, `<base>-etcd`, so the three certificates collide
(`Naming.KineServerCertificate`).

## Model

| member | source | states |
|---|---|---|
| `AffinityDefaults.AffinityFor` | internal/manifests/manifestutils/affinity.go:31-71 | a control plane or machine that sets an affinity gets exactly that one; any other instance, or one without an affinity, gets the default |
| `AffinityDefaults.DefaultAffinityShape` | internal/manifests/manifestutils/affinity.go:44-70 | the default requires one node-selector term: architecture In [amd64, arm64], then operating system In [linux] |
| `Annotations.Annotations` | internal/manifests/manifestutils/annotations.go:25-38 | a key is in the result exactly when the instance has it and no filter pattern matches it, and it keeps the instance's value |
| `Annotations.PodAnnotationsAreAnnotations` | internal/manifests/manifestutils/annotations.go:41-54 | the pod annotations are exactly the filtered annotations (the "already present" test never fires on a fresh map) |
| `Annotations.UnfilteredAnnotations` | internal/manifests/manifestutils/annotations.go:25-38 | with no filter patterns every instance annotation is copied unchanged |
| `Labels.IsFilteredSet` | internal/manifests/manifestutils/labels.go:41-49 | a key is filtered exactly when some pattern of the list matches it |
| `Labels.UnfilteredEntries` | internal/manifests/manifestutils/labels.go:62-69 | the copied instance labels are exactly those no filter matches, each with its own value |
| `Labels.KeysDistinct` | internal/manifests/manifestutils/labels.go:32-39 | the five selector keys are distinct and differ from the version and name keys |
| `Labels.SelectorLabelsContents` | internal/manifests/manifestutils/labels.go:100-108 | the selector has exactly the five keys: managed-by "kink", part-of the concept, component, cluster name, and an instance value of at most 63 characters |
| `Labels.DigestPart` | internal/manifests/manifestutils/labels.go:75-80 | the version taken from a digest reference is the last part ending in "@sha256" with that suffix trimmed, or empty when there is none |
| `Labels.VersionLabel` | internal/manifests/manifestutils/labels.go:75-88 | two colon-separated parts give the truncated tag, three give the digest part, any other count gives "latest" |
| `Labels.SelectorWithinLabels` | internal/manifests/manifestutils/labels.go:52-95 | every selector label is present with the same value in the full labels, so selectors always match their pod templates |
| `Labels.LabelsKeys` | internal/manifests/manifestutils/labels.go:52-95 | the label keys are the unfiltered instance keys, the selector keys, the version key and the name key, and nothing else |
| `Labels.LabelsVersion` | internal/manifests/manifestutils/labels.go:81-88 | the version label is always written and comes from the image reference |
| `Labels.LabelsFromInstance` | internal/manifests/manifestutils/labels.go:62-73 | an instance label outside the operator's keys survives with its value when unfiltered and is dropped when filtered |
| `Labels.NameLabel` | internal/manifests/manifestutils/labels.go:90-93 | the name label keeps an unfiltered instance value and is the given name otherwise |
| `Image.PathJoin` | internal/manifests/manifestutils/image.go:67 | joining registry and path: an empty side yields the other, two non-empty sides are joined by one slash |
| `Image.SetVersion` | internal/manifests/manifestutils/image.go:56-88 | a reference that does not parse gives its parse error; otherwise the result is the normalised registry/path followed by the version suffix |
| `Image.Image` | internal/manifests/manifestutils/image.go:25-34 | no image and no version gives the default image; no image with a version forces the version onto the default; a configured image keeps its own tag or digest |
| `Image.VersionSuffixCases` | internal/manifests/manifestutils/image.go:69-85 | the six cases of the suffix: forced version, kept tag and/or digest, or the version when the reference names neither |
| `Image.DefaultImageWithVersion` | internal/manifests/manifestutils/image.go:26-30 | an empty image with a version is the default repository with ":version", its tag and digest dropped |
| `Image.ConfiguredTagKept` | internal/manifests/manifestutils/image.go:33 | a configured image that names a tag keeps that tag whatever the version asks |
| `KubeconfigUtil.NewKubeconfigFor` | internal/manifests/manifestutils/kubeconfig.go:35-86 | a failed secret read is wrapped as "failed to fetch secret " followed by the secret's reference; the kubeconfig fails exactly when one of ca.crt, tls.crt, tls.key is missing; otherwise it holds one cluster, one user and one current context of that name, with the secret's bytes |
| `KubeconfigUtil.KubeconfigSelfConsistent` | internal/manifests/manifestutils/kubeconfig.go:54-85 | the only context names the only cluster and the only user and is the current context |
| `KubeconfigUtil.EmptyValuesAccepted` | internal/manifests/manifestutils/kubeconfig.go:46-52 | only the presence of the three keys is checked; empty values still give a kubeconfig |
| `Naming.Truncate` | internal/manifests/manifestutils/labels.go:85 | the result is at most the limit long, is a prefix of the formatted text, and is the whole text when it fits |
| `Naming.Derived` | internal/naming/naming.go:18-20 | a derived name is at most 63 characters and is base plus suffix whenever that fits |
| `Naming.APIServer` | internal/naming/naming.go:18-20 | at most 63 characters; "<base>-api-server" when that fits |
| `Naming.APIServerCertificate` | internal/naming/naming.go:23-25 | the serving certificate has the same name as the API server Service |
| `Naming.ClusterCA` | internal/naming/naming.go:33-35 | at most 63 characters; "<base>-ca" when that fits |
| `Naming.ConfigMap` | internal/naming/naming.go:38-40 | at most 63 characters; "<base>-<hash>" when that fits |
| `Naming.ControllerManager` | internal/naming/naming.go:43-45 | at most 63 characters; "<base>-controller-manager" when that fits |
| `Naming.FrontProxyCA` | internal/naming/naming.go:53-55 | at most 63 characters; "<base>-proxy" when that fits |
| `Naming.Kine` | internal/naming/naming.go:58-60 | at most 63 characters; "<base>-kine" when that fits |
| `Naming.KineAPIServerClientCertificate` | internal/naming/naming.go:63-65 | at most 63 characters; "<base>-etcd" when that fits |
| `Naming.KineCA` | internal/naming/naming.go:68-70 | the Kine CA has the same name as the API server's Kine client certificate |
| `Naming.KineServerCertificate` | internal/naming/naming.go:73-75 | the Kine server certificate has the same name as both of the other Kine certificates |
| `Naming.RootCA` | internal/naming/naming.go:83-85 | at most 63 characters; "<base>-root-ca" when that fits |
| `Naming.Scheduler` | internal/naming/naming.go:88-90 | at most 63 characters; "<base>-scheduler" when that fits |
| `Naming.ServiceAccountCertificate` | internal/naming/naming.go:98-100 | at most 63 characters; "<base>-sa" when that fits |
| `Naming.Node` | internal/naming/naming.go:103-105 | at most 63 characters; "<base>-node" when that fits |
| `Naming.DerivedInjective` | internal/naming/naming.go:18-105 | when the derived names fit, equal names with the same suffix come from equal bases |
| `Naming.ControlPlaneNamesDistinct` | internal/naming/naming.go:18-60 | the API server, controller manager, scheduler and Kine names of one base are pairwise different when the longest fits |
| `Endpoints.KineEndpoint` | internal/naming/endpoints.go:20-25 | the Kine URL on port 2379, short without a namespace and fully qualified with one |
| `Endpoints.KineDNSNames` | internal/naming/endpoints.go:41-50 | the Kine service name and "localhost", plus the fully qualified service name when there is a namespace |
| `Endpoints.KubernetesDNSNames` | internal/naming/endpoints.go:53-70 | the API server service name and the four "kubernetes" names, plus three namespace-qualified names when there is a namespace |
| `Endpoints.QualifiedNamesStartWithService` | internal/naming/endpoints.go:47-67 | every namespace-qualified name begins with "<service>.<namespace>" |
| `Version.Lookup` | version/version.go:51-56 | a component missing from the values reads as an empty image (registry, repository and tag all empty) |
| `Version.InitVersion` | version/version.go:67-78 | the reference starts with the configured registry or the default one, and ends with the configured tag or "latest" |
| `Version.InitComponent` | version/version.go:50-55 | one component's image starts with its configured registry, or with its default one (ghcr.io for Kine, registry.k8s.io for the others), followed by "/", and ends with ":" and its configured tag, or ":latest" |
| `Version.Init` | version/version.go:48-57 | every component's default image starts with its configured or default registry and "/", and ends with ":" and its configured tag or "latest"; the node base image is the one given |
| `Version.InitOwnEntry` | version/version.go:48-57 | a component's default image depends only on its own entry of the values file: two files that agree on that entry give the same image |
| `SemverOrder.Compare` | internal/controller/controlplane/kinkcontrolplane_controller.go:332 | the comparison answers -1, 0 or 1 |
| `SemverOrder.PreBelowTotal` | internal/controller/controlplane/kinkcontrolplane_controller.go:332 | of two different pre-release tags exactly one ranks below the other |
| `SemverOrder.PreBelowTrans` | internal/controller/controlplane/kinkcontrolplane_controller.go:332 | ranking below is transitive on pre-release tags |
| `SemverOrder.CompareAntisym` | internal/controller/controlplane/kinkcontrolplane_controller.go:332 | swapping the operands negates the answer; 0 exactly for equal major, minor, patch and pre-release |
| `SemverOrder.CompareTrans` | internal/controller/controlplane/kinkcontrolplane_controller.go:332 | "below" followed by "at most" is "below" |
| `Strings.Sort` | internal/manifests/controlplane/controlplane.go:53 | the sorted flags are ascending and a permutation of the input |
| `Strings.SortedUnique` | internal/manifests/controlplane/controlplane.go:53 | two ascending lists with the same elements are equal, so the sorted order is unique |
| `Strings.Split` | internal/manifests/manifestutils/labels.go:75 | one more piece than separators, and no piece contains the separator |
| `Strings.SplitJoin` | internal/manifests/manifestutils/labels.go:75 | gluing the pieces back with the separator gives the input |
| `Strings.TrimSuffix` | internal/manifests/manifestutils/labels.go:78 | with the suffix the result plus the suffix is the input; without it the input is unchanged |
| `Errors.Join` | internal/controller/util/util.go:179-181 | the joined error is nil exactly when there are no errors |
| `Objects.NewMeta` | internal/manifests/controlplane/apiserver.go:137-142 | a built object has the given name, namespace, labels and annotations, and no UID, owners or finalizers, and is not persisted |
| `Objects.KeyOf` | internal/controller/util/util.go:155-159 | an object is addressed by its kind, namespace and name |
| `ControlPlane.Replicas` | internal/manifests/controlplane/apiserver.go:200-203 | the configured replica count, or one when none is configured |
| `ControlPlane.FlagInjective` | internal/manifests/controlplane/controlplane.go:51 | a "--key=value" flag whose key and value hold no '=' determines its key and value |
| `ControlPlane.FlagsOf` | internal/manifests/controlplane/controlplane.go:50-52 | one flag per key |
| `ControlPlane.FlagsRemove` | internal/manifests/controlplane/controlplane.go:50-52 | taking a key out of the walk takes exactly its flag out of the flags |
| `ControlPlane.FlagsOfEntries` | internal/manifests/controlplane/controlplane.go:50-52 | every entry has its flag among the flags and every flag comes from an entry |
| `ControlPlane.RenderArgsContents` | internal/manifests/controlplane/controlplane.go:48-55 | the rendered command line has one flag per entry, is sorted, and holds exactly the flags of the entries |
| `ControlPlane.BuildArgs` | internal/manifests/controlplane/controlplane.go:48-55 | the loop over the map followed by the sort yields the rendered command line, whatever order the map is walked in |
| `ControlPlane.MergedArgs` | internal/manifests/controlplane/apiserver.go:623-627 | the merged flags have every default key and every extra key; defaults keep their value, extra keys without a default bring theirs |
| `ControlPlane.MergeExtraArgs` | internal/manifests/controlplane/apiserver.go:623-627 | the in-place loop over the extra flags produces the merged flags |
| `ControlPlane.MergeStep` | internal/manifests/controlplane/apiserver.go:624-626 | one step of the loop: an extra key is added exactly when it has no default, keeping the partial merge |
| `ControlPlane.MergedArgsUnique` | internal/manifests/controlplane/apiserver.go:623-627 | once every extra key is walked, the map is the merge |
| `ControlPlane.DefaultsWin` | internal/manifests/controlplane/apiserver.go:623-627 | an extra flag never overrides a default flag on the command line |
| `ControlPlane.DefaultFlagExact` | internal/manifests/controlplane/apiserver.go:623-627 | a default flag appears with its default value and with no other value |
| `ControlPlane.BoolFlagExact` | internal/manifests/controlplane/controllermanager.go:90 | a boolean default flag reads "true" exactly when the boolean holds and "false" exactly when it does not |
| `Manifests.InstanceAnnotations` | internal/manifests/manifestutils/annotations.go:41-54 | the builders' annotations are the pod annotations with no filter patterns |
| `Manifests.InstanceAnnotationsCopied` | internal/manifests/manifestutils/annotations.go:25-38 | with no patterns the instance's annotations are copied whole |
| `Manifests.SelectorWithinComponentLabels` | internal/manifests/manifestutils/labels.go:52-108 | a component's selector labels are contained in its labels, so Deployment selectors match their templates |
| `Manifests.DeploymentObject` | internal/manifests/controlplane/apiserver.go:224-238 | the object built is a Deployment |
| `Manifests.ServiceObject` | internal/manifests/controlplane/apiserver.go:243-295 | the object built is a Service |
| `Manifests.DataVolume` | internal/manifests/controlplane/kine.go:145-172 | the data volume: none without persistence, the claim when one is named, otherwise an EmptyDir with the configured medium and size |
| `Manifests.DataVolumeExclusive` | internal/manifests/controlplane/kine.go:147-160 | persistence is configured exactly when a claim or an EmptyDir backs the volume, and never both |
| `Manifests.CollectMeaning` | internal/manifests/controlplane/controlplane.go:59-84 | building succeeds exactly when every step succeeds, giving their objects in order; otherwise it fails with the first failing step's error wrapped in its context |
| `Manifests.CollectCons` | internal/manifests/controlplane/apiserver.go:57-101 | a one-object step run first either fails first or puts its object in front of the rest |
| `Manifests.CollectAppend` | internal/manifests/controlplane/controlplane.go:59-84 | two lists of steps run one after the other: the first error of either, or the objects of both |
| `Manifests.Lift` | internal/manifests/controlplane/controlplane.go:65-69 | one step's objects, or its error wrapped in its context |
| `Manifests.Collect3` | internal/manifests/controlplane/apiserver.go:57-101 | three one-object steps then the rest: success exactly when all succeed, objects and kinds in order, else the first failure |
| `Manifests.Kinds` | internal/controller/controlplane/kinkcontrolplane_controller.go:365-381 | the kinds of a list of objects, one per object, in order |
| `ControlPlaneBuilder.Assemble` | internal/manifests/controlplane/controlplane.go:59-84 | the five groups in order: success exactly when the three fallible builders succeed, and otherwise the first failure wrapped in its message |
| `ControlPlaneBuilder.BuildFails` | internal/manifests/controlplane/controlplane.go:65-80 | the build fails exactly when the API server, controller manager or scheduler builder fails, with the first failure's wrapped error |
| `ControlPlaneBuilder.BuildKinds` | internal/manifests/controlplane/controlplane.go:59-84 | a successful build yields the certificates, Kine's Service and Deployment, the API server's Service, Deployment, ConfigMap and endpoints, then the controller manager's and the scheduler's Service and Deployment |
| `ApiServer.KonnectivityImage` | internal/manifests/controlplane/apiserver.go:186-189 | the configured Konnectivity image, or the default one when none is configured |
| `ApiServer.ConfigHash` | internal/manifests/controlplane/apiserver.go:104-116 | a hash exists only when the egress selector configuration could be generated |
| `ApiServer.ConfigMap` | internal/manifests/controlplane/apiserver.go:103-145 | fails exactly when the configuration, its hash or the image fails; otherwise a ConfigMap named after the hash of its data |
| `ApiServer.Volumes` | internal/manifests/controlplane/apiserver.go:469-547 | fails exactly when the configuration hash fails; otherwise seven volumes, the last mounting the ConfigMap named after that hash |
| `ApiServer.Deployment` | internal/manifests/controlplane/apiserver.go:174-241 | fails exactly when the API server image or the volumes fail; otherwise a Deployment |
| `ApiServer.Service` | internal/manifests/controlplane/apiserver.go:243-295 | fails exactly when the image fails; otherwise a Service |
| `ApiServer.Gateway` | internal/manifests/controlplane/apiserver.go:297-348 | fails exactly when the image fails; otherwise a Gateway |
| `ApiServer.HTTPRoute` | internal/manifests/controlplane/apiserver.go:350-403 | fails exactly when the image fails; otherwise an HTTPRoute |
| `ApiServer.Ingress` | internal/manifests/controlplane/apiserver.go:405-467 | fails exactly when the image fails; otherwise an Ingress |
| `ApiServer.GatewayObjects` | internal/manifests/controlplane/apiserver.go:78-90 | with a Gateway template: a Gateway then an HTTPRoute, failing only on the image; without one: nothing |
| `ApiServer.IngressObjects` | internal/manifests/controlplane/apiserver.go:92-98 | with an Ingress template: one Ingress, failing only on the image; without one: nothing |
| `ApiServer.EndpointObjects` | internal/manifests/controlplane/apiserver.go:78-98 | the optional endpoint objects fail only when the image fails, and are the configured ones in order |
| `ApiServer.BuildKinds` | internal/manifests/controlplane/apiserver.go:57-101 | a successful build is a Service, a Deployment and a ConfigMap, then the configured endpoint objects |
| `ApiServer.BuildFails` | internal/manifests/controlplane/apiserver.go:57-101 | the build fails exactly when the image cannot be resolved or the configuration cannot be generated or hashed |
| `ApiServer.DeploymentSelector` | internal/manifests/controlplane/apiserver.go:196-231 | the Deployment runs the configured replicas (one when unset) and its selector is contained in its pod labels |
| `ApiServer.DeploymentPods` | internal/manifests/controlplane/apiserver.go:205-218 | the pod has seven volumes, the last the hashed ConfigMap, and two containers: the API server, then Konnectivity with its image |
| `ApiServer.BuildConfigVolume` | internal/manifests/controlplane/apiserver.go:57-76 | in a successful build the Deployment mounts the very ConfigMap built beside it |
| `ApiServer.ApiServerFlagsKeepDefaults` | internal/manifests/controlplane/apiserver.go:607-633 | an extra flag never changes a default API server flag, and the container's arguments are rendered from the merged flags |
| `ApiServer.IngressAnnotations` | internal/manifests/controlplane/apiserver.go:422-423 | the Ingress carries every template annotation, and every instance annotation the template does not override |
| `ControllerManager.DefaultArgs` | internal/manifests/controlplane/controllermanager.go:237-262 | the default flags set "leader-elect" to the high-availability decision and "v" to the configured verbosity |
| `ControllerManager.Deployment` | internal/manifests/controlplane/controllermanager.go:61-122 | fails exactly when the image fails; otherwise a Deployment |
| `ControllerManager.Service` | internal/manifests/controlplane/controllermanager.go:124-167 | fails exactly when the image fails; otherwise a Service |
| `ControllerManager.BuildKinds` | internal/manifests/controlplane/controllermanager.go:43-59 | the build fails exactly when the image fails, and otherwise yields a Service then a Deployment |
| `ControllerManager.DeploymentSelector` | internal/manifests/controlplane/controllermanager.go:86-112 | the Deployment runs the configured replicas (one when unset) and its selector is contained in its pod labels |
| `ControllerManager.DeploymentContainer` | internal/manifests/controlplane/controllermanager.go:237-289 | one container whose arguments are the rendered merged flags and whose pull policy is the API server's, with four volumes |
| `ControllerManager.LeaderElection` | internal/manifests/controlplane/controllermanager.go:85-92 | leader election is on exactly when more than one replica runs, whatever the extra flags say |
| `Scheduler.DefaultArgs` | internal/manifests/controlplane/scheduler.go:181-198 | the default flags set "leader-elect" to the high-availability decision and "v" to the configured verbosity |
| `Scheduler.Deployment` | internal/manifests/controlplane/scheduler.go:56-111 | fails exactly when the image fails; otherwise a Deployment |
| `Scheduler.Service` | internal/manifests/controlplane/scheduler.go:113-153 | fails exactly when the image fails; otherwise a Service |
| `Scheduler.BuildKinds` | internal/manifests/controlplane/scheduler.go:38-54 | the build fails exactly when the image fails, and otherwise yields a Service then a Deployment |
| `Scheduler.DeploymentSelector` | internal/manifests/controlplane/scheduler.go:77-101 | the Deployment runs the scheduler's own replica count unchanged, and its selector is contained in its pod labels |
| `Scheduler.DeploymentContainer` | internal/manifests/controlplane/scheduler.go:181-225 | one container whose arguments are the rendered merged flags and whose pull policy is the API server's, with one volume |
| `Scheduler.LeaderElection` | internal/manifests/controlplane/scheduler.go:77-82 | leader election is on exactly when more than one scheduler replica runs, whatever the extra flags say |
| `Kine.KineImage` | internal/manifests/controlplane/kine.go:59-62 | the configured image, or the default Kine image when none is configured |
| `Kine.Endpoint` | internal/manifests/controlplane/kine.go:37 | the data source is an SQLite file under the data mount point |
| `Kine.Volumes` | internal/manifests/controlplane/kine.go:145-172 | two volumes: the data volume the persistence settings choose, then the Kine server certificate |
| `Kine.BuildKinds` | internal/manifests/controlplane/kine.go:44-54 | the build cannot fail and yields a Service then a Deployment |
| `Kine.DeploymentSelector` | internal/manifests/controlplane/kine.go:56-101 | one replica, and the selector is contained in the pod labels |
| `Kine.DeploymentPods` | internal/manifests/controlplane/kine.go:189-245 | one container running the Kine image with its own pull policy, the SQLite endpoint argument and the client port, over the two volumes |
| `Kine.APIServerReachesKine` | internal/naming/endpoints.go:20-25 | the etcd URL the API server is given names the Kine Service's host and a port the Service exposes |
| `Node.NodeImage` | internal/manifests/infrastructure/node.go:58-62 | the configured image, or the default node base image when none is configured |
| `Node.BuildKinds` | internal/manifests/infrastructure/node.go:48-54 | the build yields a Service then a StatefulSet |
| `Node.ServiceSelectsNode` | internal/manifests/infrastructure/node.go:56-161 | Service and StatefulSet share name and namespace; the Service is headless and selects the StatefulSet's pods |
| `Node.ServiceLabels` | internal/manifests/infrastructure/node.go:128-130 | the Service's labels are the node's plus the node-port range label "30000-32767" |
| `Node.Overlay` | internal/manifests/infrastructure/node.go:40-42 | overlaying the extra labels adds exactly the node-port range key and keeps every other label |
| `Node.StatefulSetPods` | internal/manifests/infrastructure/node.go:56-114 | one replica running the node image with the kubelet and kube-proxy ports over the chosen data volume |
| `KubeconfigSecrets.Endpoint` | internal/manifests/controlplane/kubeconfig.go:83-87 | Cluster API gets the public control-plane endpoint; the scheduler, controller manager and Konnectivity get the in-cluster API server endpoint |
| `KubeconfigSecrets.SecretFor` | internal/manifests/controlplane/kubeconfig.go:82-121 | a consumer's kubeconfig, when it can be built, is a Secret |
| `KubeconfigSecrets.JoinAll` | internal/manifests/controlplane/kubeconfig.go:45-79 | the joined error is nil exactly when no consumer failed |
| `KubeconfigSecrets.Attempt` | internal/manifests/controlplane/kubeconfig.go:48-53 | one block of the build: the consumer's secret is appended, or its wrapped error is joined to the running error |
| `KubeconfigSecrets.Build` | internal/manifests/controlplane/kubeconfig.go:41-80 | the four consumers are tried in order; the result holds the secrets that could be built and the joined errors of the others |
| `KubeconfigSecrets.Step` | internal/manifests/controlplane/kubeconfig.go:48-77 | trying one more consumer appends its secret or joins its wrapped error, and changes nothing else |
| `KubeconfigSecrets.BuiltPlusFailures` | internal/manifests/controlplane/kubeconfig.go:41-80 | every consumer contributes either one secret or one error |
| `KubeconfigSecrets.BuiltAreKubeconfigSecrets` | internal/manifests/controlplane/kubeconfig.go:109-120 | every secret built is a Cluster API secret in the control plane's namespace, holding only the "value" key, named for one of the consumers |
| `KubeconfigSecrets.SecretShape` | internal/manifests/controlplane/kubeconfig.go:109-120 | a secret built for one consumer is a Cluster API secret in the control plane's namespace named for that consumer, holding only the "value" key |
| `KubeconfigSecrets.BuildCounts` | internal/manifests/controlplane/kubeconfig.go:41-80 | secrets and errors add up to four, and there is no error exactly when all four secrets were built |
| `KubeconfigSecrets.SecretFails` | internal/manifests/controlplane/kubeconfig.go:95-107 | a consumer fails exactly when its certificate secret cannot be read, lacks one of the three keys, or the kubeconfig cannot be serialised; the secret is named in errors as "namespace/name" |
| `KubeconfigSecrets.MountedByComponents` | internal/manifests/controlplane/controllermanager.go:172-180 | the controller manager, the scheduler and the API server pod (for Konnectivity) mount exactly the kubeconfig secrets built for them |
| `Filter.OnlyFilter` | internal/controller/util/filter.go:36-47 | every item kept is of the kind, and as many are kept as the input holds |
| `Filter.ExcludeFilter` | internal/controller/util/filter.go:57-68 | no item kept is of the kind, every item of another kind is kept, and nothing new appears |
| `Filter.IncludeFilter` | internal/controller/util/filter.go:78-93 | a list holding the kind comes back unchanged; otherwise one item of the kind is appended |
| `Filter.ApplyAll` | internal/controller/infrastructure/kinkcluster_controller.go:116-122 | with no filters the kinds come back unchanged |
| `Filter.ExcludeKeepsOrder` | internal/controller/util/filter.go:57-68 | the surviving items keep their original order |
| `Filter.OnlyExcludePartition` | internal/controller/util/filter.go:36-68 | every item goes to exactly one of Only and Exclude |
| `Filter.OnlyIdempotent` | internal/controller/util/filter.go:36-47 | Only applied twice is Only applied once |
| `Filter.ExcludeIdempotent` | internal/controller/util/filter.go:57-68 | Exclude applied twice is Exclude applied once |
| `Filter.FilterIdempotent` | internal/controller/util/filter.go:36-93 | any of the three filters applied twice is the filter applied once |
| `Filter.OnlyAbsent` | internal/controller/util/filter.go:36-47 | Only finds nothing in a list without its kind |
| `Filter.OnlyAppend` | internal/controller/util/filter.go:36-47 | Only distributes over concatenation |
| `Filter.OnlySingle` | internal/controller/util/filter.go:36-47 | Only on a list holding its kind exactly once yields that one item |
| `Filter.ApplyOne` | internal/controller/controlplane/kinkcontrolplane_controller.go:365-381 | a single filter applies as itself |
| `ControlPlaneKinds.FilteredKinds` | internal/controller/controlplane/kinkcontrolplane_controller.go:365-381 | excluding Secrets leaves exactly the other owned kinds, and keeping only Secrets leaves one Secret |
| `ControlPlaneKinds.OnlySecrets` | internal/controller/controlplane/kinkcontrolplane_controller.go:365-381 | keeping only Secrets among the owned kinds leaves exactly one Secret |
| `Store.UniqueUids` | internal/controller/util/util.go:132 | in a consistent store no two keys hold objects with the same UID, so indexing owned objects by UID loses nothing |
| `Store.Tick` | internal/controller/util/util.go:155-159 | a call that changes nothing is still counted |
| `Store.ListedMeaning` | internal/controller/util/util.go:67-81 | a list returns exactly the stored objects of the kind in the namespace scope, each under its own UID |
| `Store.CreateKeepsConsistent` | internal/controller/util/util.go:155-159 | a create keeps the store consistent |
| `Store.UpdateKeepsConsistent` | internal/controller/util/util.go:155-159 | an update keeps the store consistent |
| `Store.DeleteKeepsConsistent` | internal/controller/util/util.go:209 | a delete keeps the store consistent |
| `Store.CreateStoresFresh` | internal/controller/util/util.go:155-159 | a create succeeds exactly when the server allows it and the key is free; it stores the object under a UID no other object has, as persisted, and changes nothing else |
| `Store.Client.constructor` | internal/controller/util/util.go:128 | the client starts on the given consistent store and fault oracle |
| `Store.Client.Get` | internal/controller/util/util.go:156 | a get answers as the store and the server decide, and keeps the store consistent |
| `Store.Client.List` | internal/controller/util/util.go:67-70 | a list answers as the store and the server decide, and keeps the store consistent |
| `Store.Client.Create` | internal/controller/util/util.go:156 | a create answers as the store and the server decide, and keeps the store consistent |
| `Store.Client.Update` | internal/controller/util/util.go:156 | an update answers as the store and the server decide, and keeps the store consistent |
| `Store.Client.GetResource` | internal/controller/infrastructure/kinkcluster_controller.go:58-62 | fetching the reconciled resource answers as the server decides, and counts the call |
| `Store.Client.UpdateResource` | internal/controller/infrastructure/kinkcluster_controller.go:69-72 | updating the reconciled resource answers as the server decides, and counts the call |
| `Store.Client.Delete` | internal/controller/util/util.go:209 | a delete answers as the store and the server decide, and keeps the store consistent |
| `Lifecycle.AddFinalizer` | internal/controller/infrastructure/kinkcluster_controller.go:66-68 | afterwards the finalizer is present, the others are kept and none is invented; nothing changes when it was already there |
| `Lifecycle.Without` | internal/controller/infrastructure/kinkcluster_controller.go:82 | the finalizer is gone, every other finalizer stays, and nothing is added |
| `Lifecycle.RemoveFinalizer` | internal/controller/infrastructure/kinkcluster_controller.go:82 | afterwards the finalizer is absent and every other finalizer is as before |
| `Lifecycle.RemoveUndoesAdd` | internal/controller/infrastructure/kinkcluster_controller.go:66-86 | removing a finalizer just added gives back the metadata as it was |
| `Lifecycle.IgnoreNotFound` | internal/controller/infrastructure/kinkcluster_controller.go:59-62 | a NotFound answer is no error; any other error is kept as it is |
| `Lifecycle.Cleanup` | internal/controller/infrastructure/kinkcluster_controller.go:125-149 | a clean-up keeps the store consistent |
| `Lifecycle.CleanupResources` | internal/controller/infrastructure/kinkcluster_controller.go:125-149 | the in-place clean-up finds the owned objects and deletes them, leaving the error and store its specification gives |
| `Lifecycle.CleanupRemovesOwned` | internal/controller/infrastructure/kinkcluster_controller.go:125-149 | a clean-up only removes objects; when it succeeds nothing the resource owns among the kinds is left |
| `Lifecycle.CleanupSparesOthers` | internal/controller/infrastructure/kinkcluster_controller.go:125-149 | a clean-up never deletes an object the resource does not own among the kinds |
| `Lifecycle.Finalize` | internal/controller/infrastructure/kinkcluster_controller.go:75-88 | the deletion branch keeps the store consistent |
| `Lifecycle.FinalizeResource` | internal/controller/infrastructure/kinkcluster_controller.go:75-88 | the in-place deletion branch leaves the error, the resource update and the store its specification gives |
| `Lifecycle.FinalizeMeaning` | internal/controller/infrastructure/kinkcluster_controller.go:75-88 | without the finalizer nothing happens; with it, owned objects are cleaned and the finalizer is removed only once nothing owned is left; unowned objects always survive |
| `Lifecycle.OwnedResourceTypes` | internal/controller/infrastructure/kinkcluster_controller.go:116-122 | the loop applies the filters to the controller's kinds left to right |
| `Util.ControllerOf` | internal/controller/util/util.go:143 | no controller reference exactly when no reference is marked as controller; otherwise one of them that is |
| `Util.UpsertMakesController` | internal/controller/util/util.go:143 | after upserting a controller reference it is the controller; the list grows by at most one and keeps every reference to another object |
| `Util.SetControllerReferenceMeaning` | internal/controller/util/util.go:142-148 | succeeds exactly when the namespaces allow it and no other controller is set; then only the owner references change, the owner becomes the controller and the other references are kept |
| `Util.ListError` | internal/controller/util/util.go:67-73 | a list failure is wrapped around the server's error |
| `Util.OwnedOfKindMeaning` | internal/controller/util/util.go:98-111 | one list contributes exactly the stored objects of its kind, in scope, that name the owner, each under its UID |
| `Util.OwnedLists` | internal/controller/util/util.go:98-111 | one list per kind |
| `Util.MergeSource` | internal/controller/util/util.go:103-109 | every entry of the index comes from one of the lists |
| `Util.MergeHas` | internal/controller/util/util.go:103-109 | every entry of every list reaches the index |
| `Util.OwnedOfKindAt` | internal/controller/util/util.go:98-111 | what one list holds under a UID is the stored object of that UID, of the listed kind, naming the owner |
| `Util.OwnedOfOwnKind` | internal/controller/util/util.go:98-111 | a stored object naming the owner is in the list of its own kind |
| `Util.OwnedUpToSound` | internal/controller/util/util.go:98-111 | everything in the index is a stored object the owner owns, under its own UID |
| `Util.OwnedUpToComplete` | internal/controller/util/util.go:98-111 | every stored object the owner owns among the listed kinds is in the index |
| `Util.FirstFault` | internal/controller/util/util.go:100-102 | the first failing call of a run, if any, lies in the run and fails |
| `Util.FirstFaultMeaning` | internal/controller/util/util.go:100-102 | no failure is found exactly when none of the calls fails; otherwise the earliest failing call |
| `Util.FirstFaultExtend` | internal/controller/util/util.go:98-111 | a fault-free run followed by a fault-free call is a longer fault-free run |
| `Util.FindOwned` | internal/controller/util/util.go:85-114 | the search only reads: the stored objects are unchanged |
| `Util.FirstFaultAt` | internal/controller/util/util.go:98-111 | a fault right after a fault-free run is the first fault of any longer run |
| `Util.FindFailsAt` | internal/controller/util/util.go:100-102 | the first list that fails ends the search with its wrapped error, after exactly that many calls |
| `Util.FindGoesOn` | internal/controller/util/util.go:103-109 | a list that succeeds extends the index by its kind's owned objects |
| `Util.FindOwnedObjects` | internal/controller/util/util.go:85-114 | the loop of lists yields the result and the store its specification gives |
| `Util.FindSucceeds` | internal/controller/util/util.go:85-114 | when no list fails the search returns the whole index after one call per kind |
| `Util.FindOwnedFails` | internal/controller/util/util.go:85-114 | the search fails exactly when one of its lists fails, with the first failure's wrapped error and after that many calls; otherwise one call per kind |
| `Util.FindOwnedSound` | internal/controller/util/util.go:85-114 | everything a successful search returns is a stored object the owner owns, under its own UID |
| `Util.FindOwnedComplete` | internal/controller/util/util.go:85-114 | a successful search returns every stored object the owner owns among the listed kinds |
| `Util.CreateMutated` | internal/controller/util/util.go:155-159 | the create branch keeps the store consistent and makes at most one call |
| `Util.UpdateMutated` | internal/controller/util/util.go:155-159 | the update branch keeps the store consistent and makes at most one call |
| `Util.CreateOrUpdateSpec` | internal/controller/util/util.go:155-159 | one create-or-update keeps the store consistent and makes one or two calls |
| `Util.CreateOrUpdate` | internal/controller/util/util.go:151-159 | the in-place create-or-update, mutating the deep copy, leaves the objects, the error and the store its specification gives |
| `Util.RetryAfter` | internal/controller/util/util.go:155-159 | the retries keep the store consistent and make at most two calls per further attempt |
| `Util.Retry` | internal/controller/util/util.go:155-159 | retrying on conflict keeps the store consistent and the kinds of the objects |
| `Util.RetryBounds` | internal/controller/util/util.go:155-159 | an attempt that is not a conflict is final; a conflict left at the end means every attempt was made |
| `Util.RetryOnConflict` | internal/controller/util/util.go:155-159 | the retry loop, at most five attempts, ends where its specification says |
| `Util.CreateOrUpdateStores` | internal/controller/util/util.go:155-159 | after a successful create-or-update the store holds the object under the desired key, carrying every desired label |
| `Util.LeastUid` | internal/controller/util/util.go:202 | the UID visited first is the smallest still to visit |
| `Util.DeleteAll` | internal/controller/util/util.go:201-216 | the prune keeps the store consistent, makes one call per object, and records at most one failure per object |
| `Util.DeleteObjects` | internal/controller/util/util.go:192-217 | the loop deletes every object once, whatever earlier deletes answered, and returns the joined failures |
| `Util.DeleteAllMeaning` | internal/controller/util/util.go:192-217 | with no failure every visited object is gone; if the server fails none of the calls but an object was already gone, NotFound is among the failures |
| `Util.DeletesStayDeleted` | internal/controller/util/util.go:192-217 | the prune never brings an object back |
| `Util.DeleteAllOnlyRemoves` | internal/controller/util/util.go:192-217 | the prune only takes objects away; whatever is left is as it was |
| `Util.DeleteAllSpares` | internal/controller/util/util.go:192-217 | the prune deletes nothing but what is stored under the keys it visits |
| `Util.ReconcileOne` | internal/controller/util/util.go:137-177 | one desired object: the owned index only shrinks, and only a success shrinks it (by the written object's UID: `Util.ReconcileOneMeaning`); an abort or a recorded failure leaves it alone; at most one failure is recorded, after the earlier ones |
| `Util.WithReference` | internal/controller/util/util.go:142-148 | a cluster-scoped object is handed on unchanged; a namespaced one gets the owner's controller reference, or fails |
| `Util.ReconcileOneMeaning` | internal/controller/util/util.go:141-176 | per branch: a failed owner reference is recorded and the walk goes on; an immutable-field refusal deletes the stored object without creating it again, keeps the owned index and the errors, and goes on, or aborts with the delete's error (NotFound when the object is already gone); any other failure is recorded and the walk goes on; a success removes the written object's UID from the owned index |
| `Util.RecoveryThenPruneFails` | internal/controller/util/util.go:160-187 | after an immutable-field recovery of an owned object, the owned index still holds it, so the prune deletes it a second time and the reconcile reports an error, even when no call fails |
| `Util.ReconcileFrom` | internal/controller/util/util.go:137-177 | the walk keeps the store consistent and only shrinks the owned index |
| `Util.ReconcileDesired` | internal/controller/util/util.go:126-190 | reconciling keeps the store consistent and only shrinks the owned index |
| `Util.ReconcileDesiredObjects` | internal/controller/util/util.go:126-190 | the in-place loop gives the error, the store and the remaining owned index its specification gives |
| `Util.ReconcileDesiredPrunes` | internal/controller/util/util.go:179-187 | the prune runs only when the walk went through without failures, one delete per remaining owned object; success means every one of them is gone |
| `ClusterController.ReconcileCluster` | internal/controller/infrastructure/kinkcluster_controller.go:102-111 | the cluster's own reconcile step never fails |
| `ClusterController.ReconcileSpec` | internal/controller/infrastructure/kinkcluster_controller.go:54-98 | a failed fetch returns its error unless it is NotFound and changes nothing; a live cluster keeps every stored object and is sent back with the finalizer exactly when it lacked it, the update's error then being the result, and otherwise there is no error |
| `ClusterController.Reconcile` | internal/controller/infrastructure/kinkcluster_controller.go:54-98 | the in-place reconcile leaves the error, the resource update and the store its specification gives |
| `ClusterController.ReconcileDeleting` | internal/controller/infrastructure/kinkcluster_controller.go:74-89 | a cluster being deleted keeps every stored object; it is sent back without its finalizer exactly when it had one, the update's error then being the result, and otherwise there is no error |
| `ClusterController.NothingToClean` | internal/controller/infrastructure/kinkcluster_controller.go:116-149 | with no kinds owned, the clean-up finds nothing, deletes nothing and makes no call |
| `MachineController.ReconcileNode` | internal/controller/infrastructure/kinkmachine_controller.go:123-138 | finding and reconciling the machine's objects keeps the store consistent (its meaning is `MachineController.ReconcileNodeMeaning`) |
| `MachineController.ReconcileMachine` | internal/controller/infrastructure/kinkmachine_controller.go:111-143 | the in-place step builds the node objects, finds what the machine owns and reconciles, leaving the error and the store `ReconcileNode` gives |
| `MachineController.ReconcileSpec` | internal/controller/infrastructure/kinkmachine_controller.go:63-107 | a failed fetch returns its error unless it is NotFound and changes nothing; a live machine is sent back with the finalizer exactly when it lacked it, and a failed update returns its error before anything is reconciled |
| `MachineController.Reconcile` | internal/controller/infrastructure/kinkmachine_controller.go:63-107 | the in-place reconcile leaves the error, the resource update and the store its specification gives |
| `MachineController.ReconcileNodeMeaning` | internal/controller/infrastructure/kinkmachine_controller.go:123-138 | a failed search is wrapped as "failed to find owned objects" and changes nothing; success means every desired object was reconciled and every stale owned object is gone |
| `MachineController.ReconcileDeleting` | internal/controller/infrastructure/kinkmachine_controller.go:83-98 | a machine being deleted only loses objects it owns among its kinds, and is sent back without its finalizer only when it had one and none of those objects is left |
| `ControlPlaneController.CheckOwnership` | internal/controller/controlplane/kinkcontrolplane_controller.go:148-160 | no error exactly when some owner reference is of kind Cluster; otherwise the "missing owner" error |
| `ControlPlaneController.ResourcesSpec` | internal/controller/controlplane/kinkcontrolplane_controller.go:164-234 | a failed build changes nothing and is wrapped as "failed to build components"; every failure is wrapped in the name of the step it happened in |
| `ControlPlaneController.ReconcileResources` | internal/controller/controlplane/kinkcontrolplane_controller.go:164-234 | the in-place step runs build, search, reconcile, kubeconfigs, secret search and secret reconcile as its specification gives |
| `ControlPlaneController.Proceed` | internal/controller/controlplane/kinkcontrolplane_controller.go:133-145 | the resources and the status keep the store consistent and leave the pending resource update alone |
| `ControlPlaneController.ReconcileSpec` | internal/controller/controlplane/kinkcontrolplane_controller.go:90-146 | a failed fetch returns its error unless it is NotFound; a live control plane without a Cluster owner is left alone with the "missing owner" error; otherwise the finalizer is sent exactly when missing and a failed update stops there |
| `ControlPlaneController.Reconcile` | internal/controller/controlplane/kinkcontrolplane_controller.go:90-146 | the in-place reconcile leaves the error, the resource update, the written status and the store its specification gives |
| `ControlPlaneController.ReconcileDeleting` | internal/controller/controlplane/kinkcontrolplane_controller.go:101-116 | a control plane being deleted writes no status, only loses objects it owns, and loses its finalizer only once none of them is left |
| `ControlPlaneController.ProceedSucceeds` | internal/controller/controlplane/kinkcontrolplane_controller.go:133-145 | a status is written only after the resources reconciled cleanly, and no error means the build succeeded and the written status is ready |
| `ControlPlaneController.ReconcileSucceeds` | internal/controller/controlplane/kinkcontrolplane_controller.go:90-146 | for a live control plane, a status is written only with a Cluster owner and clean resources, and no error means a Cluster owner, a successful build and a ready status |
| `ControlPlaneStatus.ObserveMinimum` | internal/controller/controlplane/kinkcontrolplane_controller.go:294-309 | one object lowers a running minimum exactly when it is a Deployment with a smaller count |
| `ControlPlaneStatus.FoldMinimum` | internal/controller/controlplane/kinkcontrolplane_controller.go:267-336 | after the loop each minimum is at most its start and at most every visited Deployment's count, and it is one of them or the start |
| `ControlPlaneStatus.FoldReady` | internal/controller/controlplane/kinkcontrolplane_controller.go:274-292 | all ready after the loop exactly when all were before and every visited Deployment has its desired replicas ready |
| `ControlPlaneStatus.FoldInitialized` | internal/controller/controlplane/kinkcontrolplane_controller.go:311-317 | a ready API server is seen exactly when one was before or a visited API server Deployment has a ready replica |
| `ControlPlaneStatus.FoldErrors` | internal/controller/controlplane/kinkcontrolplane_controller.go:319-331 | the loop ends without error exactly when it started without one and every counted version label parsed |
| `ControlPlaneStatus.CompareAtMostTrans` | internal/controller/controlplane/kinkcontrolplane_controller.go:332 | ranking at most as high is transitive |
| `ControlPlaneStatus.ObserveLowest` | internal/controller/controlplane/kinkcontrolplane_controller.go:326-335 | one object leaves the lowest version at most where it was and at most its own parsed version, and it is one of the two |
| `ControlPlaneStatus.FoldLowest` | internal/controller/controlplane/kinkcontrolplane_controller.go:263-336 | the lowest version after the loop ranks at most the start and every counted parsed version, and is one of them or the start |
| `ControlPlaneStatus.StatusSpec` | internal/controller/controlplane/kinkcontrolplane_controller.go:236-360 | the status step never changes the stored objects |
| `ControlPlaneStatus.SummaryCounts` | internal/controller/controlplane/kinkcontrolplane_controller.go:338-344 | ready exactly when every owned Deployment has its desired replicas ready; initialized exactly when an API server Deployment has a ready replica; each count is the least over the Deployments, or MaxInt32 |
| `ControlPlaneStatus.SummaryVersion` | internal/controller/controlplane/kinkcontrolplane_controller.go:346-349 | the version is kept or set to a lowest counted version; it is always set when some counted version is below the 999 series |
| `ControlPlaneStatus.StatusOutcome` | internal/controller/controlplane/kinkcontrolplane_controller.go:236-360 | a failed search writes nothing; otherwise the summary is written, and there is no error exactly when it is ready, the write succeeds and every version label parsed |
| `ControlPlaneStatus.AggregateOwned` | internal/controller/controlplane/kinkcontrolplane_controller.go:254-336 | the in-place loop over the owned objects computes the fold |
| `ControlPlaneStatus.ReconcileStatus` | internal/controller/controlplane/kinkcontrolplane_controller.go:236-360 | the in-place status step leaves the error, the written status and the store its specification gives |
| `Mutate.ObjectHandle.constructor` | internal/manifests/mutate.go:52 | the handle holds the given object |
| `Mutate.MergeWithOverride` | internal/manifests/mutate.go:128-130 | every key of both maps, the desired value winning |
| `Mutate.HasImmutableLabelChange` | internal/manifests/mutate.go:249-256 | no change exactly when every selector label is in the desired labels with the same value; otherwise the template-labels immutability error |
| `Mutate.MutateDeployment` | internal/manifests/mutate.go:163-185 | the metadata is left alone, the object stays a Deployment and desired is untouched |
| `Mutate.Fill` | internal/manifests/mutate.go:263-289 | a filled claim template keeps desired's metadata, status, access modes and storage |
| `Mutate.ScanFrom` | internal/manifests/mutate.go:263-289 | the scan from an index keeps the number of desired templates (its meaning is `Mutate.ScanMeaning`) |
| `Mutate.VolumeClaimsChanged` | internal/manifests/mutate.go:263-289 | the check keeps the number of desired templates (its meaning is `Mutate.VolumeClaimsChangedMeaning`) |
| `Mutate.CopyClaims` | internal/manifests/mutate.go:201-210 | each existing template takes desired's type, metadata and spec at its index and keeps its status; existing templates past desired's end are unchanged |
| `Mutate.WithClaims` | internal/manifests/mutate.go:201-210 | the StatefulSet gets exactly the given claim templates |
| `Mutate.MutateStatefulSet` | internal/manifests/mutate.go:187-220 | the metadata is left alone, both stay StatefulSets, and the only errors are immutability refusals and panics (a nil selector, the index out of range) |
| `Mutate.TypeName` | internal/manifests/mutate.go:120-122 | every reported type name starts with "*v1." |
| `Mutate.MutateBody` | internal/manifests/mutate.go:74-123 | the kind-specific rule keeps both objects' kinds |
| `Mutate.Mutate` | internal/manifests/mutate.go:52-126 | a mutation keeps both objects' kinds |
| `Mutate.HasVolumeClaimsTemplatesChanged` | internal/manifests/mutate.go:263-289 | the in-place scan reports the change and fills desired's templates as the specification function says |
| `Mutate.CopyClaimTemplates` | internal/manifests/mutate.go:201-210 | the copy loop panics exactly when desired has fewer templates than existing, and otherwise copies as the specification says |
| `Mutate.MutateStatefulSetInPlace` | internal/manifests/mutate.go:187-220 | the in-place StatefulSet rule leaves both objects and the error its specification gives |
| `Mutate.MutateFuncFor` | internal/manifests/mutate.go:52-126 | the in-place closure leaves both objects and the error the specification function gives |
| `Mutate.MutatedMeta` | internal/manifests/mutate.go:56-72 | the metadata after a mutation: the merge, with labels and annotations replaced by desired's for Secrets, Gateways, HTTPRoutes, Certificates and Issuers |
| `Mutate.BodyMeta` | internal/manifests/mutate.go:74-123 | the kind-specific rules touch only labels and annotations, and only for the kinds that take desired's |
| `Mutate.WorkloadMeta` | internal/manifests/mutate.go:163-220 | the Deployment and StatefulSet rules leave the metadata alone |
| `Mutate.DesiredMetadataWins` | internal/manifests/mutate.go:56-68 | after any mutation every desired label and annotation is present with its desired value |
| `Mutate.ExistingMetadataKept` | internal/manifests/mutate.go:56-68 | labels and annotations are exactly desired's for the replacing kinds and the override merge for the others |
| `Mutate.OwnerReferencesRule` | internal/manifests/mutate.go:70-72 | owner references become desired's exactly when desired has some; name, namespace and UID never change |
| `Mutate.MissingRule` | internal/manifests/mutate.go:120-122 | exactly the kinds without a rule fail with "missing mutate implementation", after the metadata merge |
| `Mutate.BodyMissing` | internal/manifests/mutate.go:120-122 | exactly the kinds without a rule fail in the kind-specific step, leaving both objects as they were |
| `Mutate.OnlyPersistedWorkloadsRefuse` | internal/manifests/mutate.go:163-220 | only a persisted Deployment or StatefulSet can be refused as an immutable change |
| `Mutate.ServiceRule` | internal/manifests/mutate.go:158-161 | a Service keeps its type and cluster IP and takes desired's ports and selector |
| `Mutate.ConfigMapRule` | internal/manifests/mutate.go:138-141 | a ConfigMap takes desired's data and keeps its merged metadata |
| `Mutate.SecretRule` | internal/manifests/mutate.go:132-136 | a Secret keeps its type and takes desired's data, labels and annotations |
| `Mutate.GatewayRule` | internal/manifests/mutate.go:143-148 | a Gateway keeps its addresses and takes desired's class and listeners |
| `Mutate.HTTPRouteRule` | internal/manifests/mutate.go:150-156 | an HTTPRoute takes desired's parent references, host names and rules, labels and annotations, without error |
| `Mutate.CertificateRule` | internal/manifests/mutate.go:222-226 | a Certificate takes desired's whole spec, labels and annotations, without error |
| `Mutate.IssuerRule` | internal/manifests/mutate.go:228-232 | an Issuer takes desired's whole spec, labels and annotations, without error |
| `Mutate.DeploymentRefused` | internal/manifests/mutate.go:163-177 | a persisted Deployment whose selector changes, or whose template labels drop a selector label, is refused before any field is written |
| `Mutate.DeploymentAccepted` | internal/manifests/mutate.go:163-185 | an unpersisted Deployment is never refused; an accepted one keeps its selector and status and takes desired's spec fields and merged pod template |
| `Mutate.StatefulSetRefused` | internal/manifests/mutate.go:187-200 | a persisted StatefulSet whose selector changes, or whose claim templates differ, is refused with the matching error and left as it was |
| `Mutate.StatefulSetAccepted` | internal/manifests/mutate.go:187-220 | an unpersisted StatefulSet fails only with the index panic, exactly when desired has fewer templates; an accepted one keeps its selector and takes desired's fields, the copied templates and the merged pod template |
| `Mutate.MutateIdempotent` | internal/manifests/mutate.go:52-126 | a successful mutation applied again to its own result against the same desired changes nothing |
| `Mutate.MergeTwice` | internal/manifests/mutate.go:128-130 | merging the same desired map twice is merging it once |
| `Mutate.MergeMetaIdempotent` | internal/manifests/mutate.go:56-72 | the metadata merge is idempotent |
| `Mutate.BodyIdempotent` | internal/manifests/mutate.go:74-123 | the kind-specific rule applied to its own result changes nothing |
| `Mutate.ScanMeaning` | internal/manifests/mutate.go:263-289 | the scan reports a change exactly when some remaining template differs from its filled desired one; without a change the templates are the filled ones |
| `Mutate.VolumeClaimsChangedMeaning` | internal/manifests/mutate.go:263-289 | claim templates changed exactly when the counts differ or some template differs from its filled desired one |
| `Mutate.MutateCopyOfDeployment` | internal/controller/util/util.go:151-152 | mutating a Deployment with a copy of itself succeeds and changes nothing, provided a persisted one has a selector contained in its template labels |
| `Mutate.BuiltSelectorsPassLabelCheck` | internal/manifests/mutate.go:163-177 | a Deployment whose stored selector equals desired's, present and contained in desired's template labels, is never refused |

## Left out

- Naming.DNSName: the helper is defined in a file that is not part of this model. It is taken as the identity, and `Naming.Truncate` is taken as cutting the formatted name to 63 characters.
- Naming.Kubeconfig, Naming.KonnectivityServer, the client certificate names, Naming.PublicAPIServerEndpoint and Naming.LocalAPIServerEndpoint: these are called by the modelled code but defined outside it. The model gives them placeholder definitions of the same shape, so no property of theirs is a claim about the real names.
- `KubeconfigLabels`, the labels the kubeconfig secrets carry, is a parameter of the kubeconfig builder.
- The certificates, issuers and their secrets (certificates.go) are not part of this model. The control-plane builder takes their objects as a parameter.
- Library code is represented by parameters (`Foreign.Env`), with no behaviour assumed beyond its type:
  - image reference parsing;
  - semantic version parsing;
  - regular-expression matching;
  - the SHA-256 of a ConfigMap's JSON;
  - the egress selector YAML;
  - `BuildKubernetesArgs`;
  - the kubeconfig codec;
  - the Konnectivity socket path (`konnectivitySocketPath`), whose constants are defined outside this model.
- `mergo.Merge` with override is modelled on string maps only, as map union with the source winning.
- SemverOrder.Compare: pre-releases are compared as whole strings byte by byte, not identifier by identifier with numeric identifiers ranked numerically. Build metadata is ignored, as in the library.
- The machine builder cannot fail in the source, so the KinkMachine reconciler has no "failed to build components" path in the model.
- The kubeconfig builder reads the certificate secrets straight from the stored objects. Those reads are not counted as calls and cannot fail through the fault oracle.
- The reconciled custom resource is passed in rather than read from the store. An `Update` of it, or of its status, consumes a call and can fail, but its answer is not written back into the store.
- Integer widths (`int32` replica counts, ports) are not enforced. Every count is an unbounded integer, and `math.MaxInt32` is used only as the starting minimum.
- Go map iteration order is not specified. The model visits owned objects in ascending UID, so every property proved holds for that order only, not for every order.
- Util.SameObject compares kind and name only: API group versions are not modelled.
- Mutate.MutateIdempotent: persisted StatefulSets are excluded, because their check rewrites the desired object's volume-claim templates before it compares.
- A panic in the mutation (an index out of range, a nil selector) is modelled as the error `Panic`, recorded like any other failure, and the walk goes on to the next desired object. In Go the panic unwinds out of the reconcile instead.
- The retry on conflict makes at most five attempts, the default number of steps. Its backoff timing is not modelled.
- Not modelled:
  - logging, panics other than the ones named, and concurrency between reconciles;
  - `SetupWithManager` and the watches;
  - the webhooks;
  - the Konnectivity agent manifests (konnectivity.go);
  - `ClientFromKubeconfig`;
  - probe and volume-mount details beyond the names and paths the builders' lemmas state.
