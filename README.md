# kedge Kubernetes transform, modelled in Dafny

This project models the Kubernetes transform of kedge
(`pkg/transform/kubernetes/kubernetes.go`). The transform takes one
application description and returns an ordered list of Kubernetes objects:

- one Deployment;
- a ConfigMap, if the application has configuration data;
- for every service intent, a Service and, for load-balanced intents, an
  Ingress chosen by a three-way rule on the number of rules and ports;
- a PersistentVolumeClaim for every volume mount of every container.

While it builds the objects it changes the application in place:

- missing labels become `{"app": name}`;
- every volume mount appends a pod volume bound to a claim of the mount's name;
- an undeclared persistent volume is appended with defaults (100Mi, ReadWriteOnce);
- an empty size of a declared volume is set to the default;
- a sole unnamed container takes the application's name;
- the sole container receives one env variable per configuration key, unless
  something already refers to the application's ConfigMap.

`Transform` then stamps every object with its group, version and kind.

Modules:

- `Wrappers`: `Option` and `Result`.
- `Api`: the Kubernetes API values the transform reads and writes, and the
  `Object` union of the five kinds.
- `AppSpec`: the service intent and persistent volume of the application description.
- `Volumes`:
  - the specification of volume lookup: `FirstIndex` and `Declared`. The
    imperative counterparts of `searchVolumeIndex` and `isVolumeDefined` are
    `Kubernetes.App.SearchVolumeIndex` and `Kubernetes.App.IsVolumeDefined`;
  - `createPVC`;
  - the mount loop as a fold `Derive` over all mounts, with its lemmas.
- `Services`: `createServices` as a function, and lemmas on Services and Ingresses.
- `ConfigInjection`: the ConfigMap reference test and the injected variables.
- `Kubernetes`:
  - the class `App`, whose fields the methods update as the Go code updates `*spec.App`;
  - the relation `Synthesized(s0, s1, r, parse)`, which says what `CreateK8sObjects` does;
  - the relation `Transformed`, which says what `Transform` does;
  - the group/version/kind table.
- `Properties`: lemmas about `Synthesized` and `Transformed`. They cover
  output order, labels, Services, volumes, containers, injection, failure,
  re-running and stamping.

Where the code's behaviour is easy to misread, this model follows the code:

- The ConfigMap and the PersistentVolumeClaims carry no labels. Only the
  Deployment, the Services and the Ingresses carry the application's labels.
- PersistentVolumeClaims are not de-duplicated. Two mounts of one name give
  two pod volumes and two claims.
- A load-balanced intent with one rule and more than one port gets no
  Ingress, whether or not it gives HTTP routing. The comment at
  `kubernetes.go:54` asks the user to give HTTP routing in that case, but the
  code logs a warning only when the rule gives no HTTP routing
  (`kubernetes.go:89-92`) and emits no Ingress either way.
- The ConfigMap reference test also looks at the pod volumes, not only at
  container env variables. The comment at `kubernetes.go:262-264` speaks
  only of a ConfigMap reference; the test at `kubernetes.go:183-198` counts
  both kinds.
- The Deployment is built last, from the updated containers and volumes.
  It therefore shows the appended pod volumes, the container name and the
  injected variables.
- Unrecognised access-mode strings are dropped. A volume whose strings are
  all unrecognised gets a claim with no access mode. The ReadWriteOnce
  default applies only to an empty list.
- Running the transform twice appends the mount volumes a second time.

## Model

| member | source | states |
|---|---|---|
| Kubernetes.GetLabels | pkg/transform/kubernetes/kubernetes.go:33-36 | the default labels hold exactly the key "app", mapped to the application's name |
| Kubernetes.App.CreateServices | pkg/transform/kubernetes/kubernetes.go:38-106 | the loop over service intents returns exactly `ServicesFor(services, labels)`: per intent its Service, then its Ingress if any |
| Services.ServiceFor | pkg/transform/kubernetes/kubernetes.go:41-50 | the Service carries the intent's name, the application's labels and the intent's spec; an empty selector becomes the labels, a non-empty one is kept |
| Services.IngressesFor | pkg/transform/kubernetes/kubernetes.go:53-102 | at most one Ingress, and one exactly when the intent is load balanced and has more than one rule, or one rule and one port. One rule: the rule's host, and its HTTP routing or else "/" to the only port. Several rules: the intent's own ingress spec |
| Services.ServicesFor | pkg/transform/kubernetes/kubernetes.go:38-106 | every object is an unstamped Service or Ingress with the application's labels; there are between one and two objects per intent |
| Services.OneServicePerIntent | pkg/transform/kubernetes/kubernetes.go:40-51 | the Services in the output are exactly one per intent, in intent order, each built from its intent |
| Services.IngressCount | pkg/transform/kubernetes/kubernetes.go:53-102 | the number of Ingresses equals the number of intents the three-way rule admits |
| Services.OneRuleOnePortScenario | pkg/transform/kubernetes/kubernetes.go:57-88 | one rule, one port and no HTTP routing give a Service and an Ingress routing "/" to that port |
| Services.OneRuleTwoPortsScenario | pkg/transform/kubernetes/kubernetes.go:89-92 | one rule and two ports give the Service alone |
| Kubernetes.CreateDeployment | pkg/transform/kubernetes/kubernetes.go:108-127 | the Deployment carries the application's name and labels on itself and on its pod template, its replicas, and the pod spec (containers and volumes) as they stand |
| Kubernetes.App.SearchVolumeIndex | pkg/transform/kubernetes/kubernetes.go:136-143 | the loop returns the index of the first persistent volume of that name, or -1 |
| Volumes.FirstIndex | pkg/transform/kubernetes/kubernetes.go:136-143 | the index lies in range or is -1; the volume there has the name; no earlier volume has it, and with -1 none does |
| Kubernetes.App.IsVolumeDefined | pkg/transform/kubernetes/kubernetes.go:129-134 | true exactly when some persistent volume has the name |
| Volumes.DeclaredIffFound | pkg/transform/kubernetes/kubernetes.go:129-143 | a name is declared exactly when the index search does not return -1 |
| Volumes.ClaimFor | pkg/transform/kubernetes/kubernetes.go:145-181 | an empty size becomes 100Mi in the caller's volume; the claim fails exactly when that size does not parse, and the error is wrapped "could not read volume size". Otherwise the claim is named after the volume, has no labels, requests the parsed size, and has ReadWriteOnce for an empty mode list or else the recognised modes in order |
| Volumes.CreatePVC | pkg/transform/kubernetes/kubernetes.go:145-181 | the imperative claim builder, with its access-mode loop, returns exactly `ClaimFor` |
| Volumes.RecognisedNames | pkg/transform/kubernetes/kubernetes.go:166-175 | the reference list of recognised access-mode strings contains a string exactly when it is in the input and recognised |
| Volumes.AccessModesAreRecognisedNames | pkg/transform/kubernetes/kubernetes.go:166-175 | the collected access modes, read back as strings, are exactly the recognised input strings in their order; the others are dropped |
| Kubernetes.App.IsAnyConfigMapRef | pkg/transform/kubernetes/kubernetes.go:183-198 | true exactly when some container's env variable takes a key from the application's ConfigMap, or some pod volume is that ConfigMap |
| Properties.ClaimVolumesAreNoConfigMapRef | pkg/transform/kubernetes/kubernetes.go:191-195 | the pod volumes the mount loop appends never make the ConfigMap reference test true |
| Properties.ConfigMapRefIgnoresNames | pkg/transform/kubernetes/kubernetes.go:184-190 | the reference test depends only on the containers' env, so naming a container does not change it |
| Kubernetes.App.MountVolume | pkg/transform/kubernetes/kubernetes.go:216-245 | one mount appends its pod volume; it either updates the declared persistent volume's size or appends a default one; it returns the claim or the error wrapped "cannot create pvc", all as one `MountStep` |
| Kubernetes.App.DeriveMounts | pkg/transform/kubernetes/kubernetes.go:212-245 | the loop over one container's mounts continues the fold `Derive` over all mounts by that container's mounts |
| Kubernetes.App.DeriveVolumes | pkg/transform/kubernetes/kubernetes.go:210-246 | the nested mount loop leaves the pod volumes, persistent volumes, claims and error of `Derive` over all mounts of all containers |
| Volumes.DeriveStopsAtFailure | pkg/transform/kubernetes/kubernetes.go:228-243 | after the first error the remaining mounts change nothing |
| Volumes.DeriveSucceeds | pkg/transform/kubernetes/kubernetes.go:210-246 | a loop without error yields one claim per mount; declared volumes keep their names; the appended persistent volumes are defaults named after mounts |
| Volumes.DeriveFailsIffUnparsable | pkg/transform/kubernetes/kubernetes.go:226-243 | the loop fails exactly when some mount resolves to a declared volume whose non-empty size does not parse (given that 100Mi parses) |
| Properties.ClaimsFollowMounts | pkg/transform/kubernetes/kubernetes.go:210-246 | on success claim k is an unlabelled claim named after mount k; every mount's name is declared afterwards; the pod volumes are the old ones plus one claim volume per mount |
| Properties.DerivedVolumes | pkg/transform/kubernetes/kubernetes.go:210-246 | on success every mount has its claim pod volume and a declared persistent volume; declared volumes are kept, sizes aside; appended ones are defaults named after some mount |
| Properties.DeriveFailureWrapped | pkg/transform/kubernetes/kubernetes.go:229-243 | a failing mount loop's error is wrapped "cannot create pvc" |
| Kubernetes.NameSoleContainer | pkg/transform/kubernetes/kubernetes.go:248-251 | a sole unnamed container takes the application's name; otherwise the containers are unchanged; nothing but that name changes |
| Kubernetes.App.NameSoleContainerInPlace | pkg/transform/kubernetes/kubernetes.go:248-251 | the in-place naming leaves exactly `NameSoleContainer` of the old containers |
| Kubernetes.ConfigMapsFor | pkg/transform/kubernetes/kubernetes.go:253-260 | one ConfigMap, named after the application, unlabelled, holding the data, exactly when there is data |
| Kubernetes.App.CreateConfigMap | pkg/transform/kubernetes/kubernetes.go:253-285 | returns exactly `ConfigMapsFor`; it injects into the containers when there is data, one container and no existing reference, and otherwise leaves them unchanged |
| Kubernetes.App.InjectConfigData | pkg/transform/kubernetes/kubernetes.go:265-280 | the key loop appends to the sole container's env one variable per key, each taking that key from the application's ConfigMap, and changes nothing else |
| Kubernetes.App.AppendConfigEnvVar | pkg/transform/kubernetes/kubernetes.go:268-279 | one iteration appends the variable for one key to the sole container's env |
| ConfigInjection.InjectionCoversKeys | pkg/transform/kubernetes/kubernetes.go:267-280 | an injection adds exactly as many variables as there are keys, and the variable of every key is among them |
| Kubernetes.App.AssembleObjects | pkg/transform/kubernetes/kubernetes.go:248-302 | after naming and injection the objects are the Deployment of the new state, the ConfigMap if any, the Services, then the claims |
| Kubernetes.App.CreateK8sObjects | pkg/transform/kubernetes/kubernetes.go:200-303 | the method relates old state, new state and result as `Synthesized`: labels defaulted, volumes derived, the mount loop's error returned with containers untouched, or else containers named and injected and the objects in order |
| Properties.CreationOutcome | pkg/transform/kubernetes/kubernetes.go:200-303 | creation fails exactly when the mount loop does, with its error and the containers unchanged; labels are defaulted either way |
| Properties.OutputOrder | pkg/transform/kubernetes/kubernetes.go:287-302 | the Deployment comes first, then the ConfigMap, Services and Ingresses, then claims; there is a ConfigMap exactly when there is data; the claims are the last objects, one per mount, named after the mounts in order |
| Properties.LabelsCarried | pkg/transform/kubernetes/kubernetes.go:204-206 | missing labels become `{"app": name}` and given labels are kept; the Deployment, its pod template, Services and Ingresses carry them; the ConfigMap and claims have none |
| Properties.ServicesInOutput | pkg/transform/kubernetes/kubernetes.go:296 | the output holds exactly one Service per intent, in order, and as many Ingresses as the three-way rule admits |
| Properties.VolumesDerived | pkg/transform/kubernetes/kubernetes.go:210-246 | after creation the pod volumes are the old ones plus one claim volume per mount; every mount is declared; the appended persistent volumes are defaults named after mounts |
| Properties.ContainersKeepShape | pkg/transform/kubernetes/kubernetes.go:248-251 | creation keeps the number of containers and their mounts; only a sole unnamed container is renamed, to the application's name |
| Properties.InjectionEffect | pkg/transform/kubernetes/kubernetes.go:253-285 | with data, one container and no existing reference, the sole container's env gains exactly one ConfigMap variable per key after its old entries; otherwise no env changes |
| Properties.ManyContainersNoInjection | pkg/transform/kubernetes/kubernetes.go:281-283 | with data and several containers the containers are unchanged and the ConfigMap is still emitted |
| Properties.FailsIffUnparsable | pkg/transform/kubernetes/kubernetes.go:226-243 | creation fails exactly when some mount resolves to a declared volume with an unparsable non-empty size; the error is wrapped "cannot create pvc"; the containers stay unchanged |
| Properties.SecondRunDuplicatesVolumes | pkg/transform/kubernetes/kubernetes.go:224 | running creation again on its own result appends the mount volumes a second time: it is not idempotent |
| Properties.WebDataScenario | pkg/transform/kubernetes/kubernetes.go:200-303 | an app "web" with one unnamed container mounting "data" yields its Deployment with the container named "web" and one 100Mi ReadWriteOnce claim "data" |
| Kubernetes.Stamp | pkg/transform/kubernetes/kubernetes.go:314-322 | stamping sets the type meta from the registered kind and changes nothing else |
| Properties.StampIdempotent | pkg/transform/kubernetes/kubernetes.go:322 | stamping twice is stamping once, and never leaves an empty kind or apiVersion |
| Kubernetes.App.StampObjects | pkg/transform/kubernetes/kubernetes.go:312-323 | the loop returns each object stamped, in the same order |
| Kubernetes.App.Transform | pkg/transform/kubernetes/kubernetes.go:305-326 | the result is the created objects, each stamped, or the creation error wrapped "failed to create Kubernetes objects" (`Transformed`) |
| Properties.TransformStamps | pkg/transform/kubernetes/kubernetes.go:305-326 | Transform fails exactly when the mount loop does, with the error wrapped. Otherwise every object carries its kind and apiVersion (extensions/v1beta1 for Deployment and Ingress, v1 for the rest) and equals a created object up to that stamp |

## Left out

- Logging: the debug dumps of the objects and the two warnings (multi-port
  intent without HTTP routing, ConfigMap with several containers) are not
  modelled; they change no state.
- `resource.ParseQuantity`: the resource-quantity grammar is not modelled.
  The parser is a parameter `parse` of type `string -> Option<Quantity>`;
  lemmas that need "100Mi parses" require it. The size error keeps only the
  rejected text as its cause.
- The API scheme: `api.Scheme.ObjectKind` is a static table (`KindOf`)
  over the five kinds the transform emits. Its two error paths (unknown and
  unversioned types) cannot happen for those kinds and are not modelled.
- Kubernetes.App.InjectConfigData: the order of the injected variables
  follows Go's map iteration order, which is unspecified. The contract
  therefore fixes the set of variables (one per key, distinct, each
  referring to the ConfigMap) and not their order.
- Kubernetes.App.CreateK8sObjects: pointer aliasing is not modelled. That
  covers the labels map shared between the application and every object,
  and the pod spec shared with the Deployment. The model copies values.
- The pod spec holds only the containers (name, image, env, volume mounts)
  and the pod volumes. Other pod-spec and container fields pass through
  untouched in Go and are not represented. Env variables have only the
  ConfigMap-key source.
- A service intent's `rules` and its `ingressSpec` are independent fields
  here. In Go, `s.Rules` is most likely the `Rules` of the intent's embedded
  ingress spec, so the model also admits multi-rule intents whose Ingress
  carries rules other than the intent's. The service spec holds only type,
  ports and selector, and the ingress spec only backend and rules. TLS,
  cluster IP and the other fields are not represented.
- Ports are unbounded integers; the 32-bit port type and the `int` to
  `intstr` conversion are not modelled.
- Deserialisation of the application description, the command line and
  output writing are not part of this model.
