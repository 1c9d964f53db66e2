/** The Kubernetes transform: from one application description to the ordered
    list of Kubernetes objects (Deployment, ConfigMap, Services and Ingresses,
    PersistentVolumeClaims), defaulting the description in place on the way,
    and finally stamping every object with its group, version and kind. */
module Kubernetes {
  import opened Wrappers
  import opened Api
  import opened AppSpec
  import opened Volumes
  import opened Services
  import opened ConfigInjection

  /** The labels an application without labels gets. */
  function GetLabels(appName: string): (labels: map<string, string>)
    ensures labels.Keys == {"app"} && labels["app"] == appName
  {
    map["app" := appName]
  }

  /** A snapshot of every field of the application the transform reads or writes. */
  datatype AppState = AppState(
    name: string,
    labels: Labels,
    replicas: Option<int>,
    containers: seq<Container>,
    volumes: seq<Volume>,
    persistentVolumes: seq<PersistentVolume>,
    configData: map<string, string>,
    services: seq<ServiceIntent>)

  function DefaultedLabels(s: AppState): Labels {
    if s.labels.None? then Some(GetLabels(s.name)) else s.labels
  }

  /** The Deployment of an application: its name and labels on the object and
      on the pod template, and its pod spec as it stands. */
  function CreateDeployment(s: AppState): (d: Object)
    ensures d.Deployment? && d.typeMeta == Unstamped && d.meta == ObjectMeta(s.name, s.labels)
    ensures d.deploymentSpec.replicas == s.replicas
    ensures d.deploymentSpec.template.meta == d.meta
    ensures d.deploymentSpec.template.spec == PodSpec(s.containers, s.volumes)
  {
    var meta := ObjectMeta(s.name, s.labels);
    Deployment(Unstamped, meta, DeploymentSpec(s.replicas, PodTemplateSpec(meta, PodSpec(s.containers, s.volumes))))
  }

  /** The ConfigMap, present only when there is configuration data; it carries no labels. */
  function ConfigMapsFor(appName: string, data: map<string, string>): (cms: seq<Object>)
    ensures |cms| == if |data| > 0 then 1 else 0
    ensures forall cm <- cms :: cm == ConfigMap(Unstamped, ObjectMeta(appName, None), data)
  {
    if |data| > 0 then [ConfigMap(Unstamped, ObjectMeta(appName, None), data)] else []
  }

  /** A sole container without a name takes the application's name. */
  function NameSoleContainer(cs: seq<Container>, appName: string): (named: seq<Container>)
    ensures |named| == |cs|
    ensures forall i :: 0 <= i < |cs| ==> named[i].(name := cs[i].name) == cs[i]
    ensures |cs| == 1 && cs[0].name == "" ==> named[0].name == appName
    ensures !(|cs| == 1 && cs[0].name == "") ==> named == cs
  {
    if |cs| == 1 && cs[0].name == "" then cs[0 := cs[0].(name := appName)] else cs
  }

  /** ConfigMap keys are injected only into a sole container, and only when
      nothing refers to the application's ConfigMap yet. */
  ghost predicate ShouldInject(cs: seq<Container>, volumes: seq<Volume>, appName: string, data: map<string, string>) {
    |data| > 0 && |cs| == 1 && !HasConfigMapRef(cs, volumes, appName)
  }

  /** `after` is the sole container of `before` with one variable per key of
      `data` appended to its env and nothing else changed. */
  ghost predicate Injected(before: seq<Container>, after: seq<Container>, appName: string, data: map<string, string>) {
    && |before| == 1 && |after| == 1
    && after[0] == before[0].(env := after[0].env)
    && |before[0].env| <= |after[0].env|
    && after[0].env[..|before[0].env|] == before[0].env
    && IsInjection(after[0].env[|before[0].env|..], data.Keys, appName)
  }

  /** The sole container with the injected variables appended is an injection. */
  lemma InjectedAfter(sole: Container, added: seq<EnvVar>, after: seq<Container>, appName: string, data: map<string, string>)
    requires |after| == 1 && after[0] == sole.(env := sole.env + added)
    requires IsInjection(added, data.Keys, appName)
    ensures Injected([sole], after, appName, data)
  {
    assert after[0].env[..|sole.env|] == sole.env;
    assert after[0].env[|sole.env|..] == added;
  }

  /** The state of the injection loop: the keys of `all` not in `todo` have
      been appended, as `added`, to the env of the sole container `sole`. */
  ghost predicate Injecting(cs: seq<Container>, sole: Container, added: seq<EnvVar>, all: set<string>, todo: set<string>, appName: string) {
    && todo <= all
    && cs == [sole.(env := sole.env + added)]
    && IsInjection(added, all - todo, appName)
  }

  lemma InjectingStart(cs: seq<Container>, appName: string, all: set<string>)
    requires |cs| == 1
    ensures Injecting(cs, cs[0], [], all, all, appName)
  {
    assert cs[0].env + [] == cs[0].env;
    assert all - all == {};
  }

  lemma InjectingStep(cs: seq<Container>, sole: Container, added: seq<EnvVar>, all: set<string>, todo: set<string>, appName: string, key: string)
    requires Injecting(cs, sole, added, all, todo, appName) && key in todo
    ensures |todo - {key}| < |todo|
    ensures Injecting([cs[0].(env := cs[0].env + [ConfigEnvVar(appName, key)])], sole, added + [ConfigEnvVar(appName, key)],
                      all, todo - {key}, appName)
  {
    InjectionStep(added, all, todo, appName, key);
    SoleEnvAppend(cs, sole, added, ConfigEnvVar(appName, key));
  }

  lemma SoleEnvAppend(cs: seq<Container>, sole: Container, added: seq<EnvVar>, e: EnvVar)
    requires cs == [sole.(env := sole.env + added)]
    ensures [cs[0].(env := cs[0].env + [e])] == [sole.(env := sole.env + (added + [e]))]
  {
    assert sole.env + added + [e] == sole.env + (added + [e]);
  }

  lemma InjectingDone(cs: seq<Container>, sole: Container, added: seq<EnvVar>, appName: string, data: map<string, string>)
    requires Injecting(cs, sole, added, data.Keys, {}, appName)
    ensures Injected([sole], cs, appName, data)
  {
    assert data.Keys - {} == data.Keys;
    InjectedAfter(sole, added, cs, appName, data);
  }

  function StartOf(s: AppState): Derivation {
    Derivation(s.volumes, s.persistentVolumes, [], None)
  }

  /** What creating the objects does, relating the application before (`s0`)
      and after (`s1`) and the result `r`. The order of injected env vars is
      left open, as it follows map iteration. */
  ghost predicate Synthesized(s0: AppState, s1: AppState, r: Result<seq<Object>, Error>, parse: QuantityParser) {
    var labels := DefaultedLabels(s0);
    var d := Derive(Mounts(s0.containers), StartOf(s0), parse);
    && s1.name == s0.name && s1.labels == labels && s1.replicas == s0.replicas
    && s1.configData == s0.configData && s1.services == s0.services
    && s1.volumes == d.volumes && s1.persistentVolumes == d.persistentVolumes
    && if d.failure.Some? then
         r == Failure(d.failure.value) && s1.containers == s0.containers
       else
         var named := NameSoleContainer(s0.containers, s0.name);
         && (if ShouldInject(named, d.volumes, s0.name, s0.configData)
             then Injected(named, s1.containers, s0.name, s0.configData)
             else s1.containers == named)
         && r == Success([CreateDeployment(s1)] + ConfigMapsFor(s0.name, s0.configData) + ServicesFor(s0.services, labels) + d.claims)
  }

  /** The failure case of `Synthesized`, on its own. */
  lemma FailureSynthesized(s0: AppState, s1: AppState, r: Result<seq<Object>, Error>, parse: QuantityParser)
    requires Derive(Mounts(s0.containers), StartOf(s0), parse).failure.Some?
    requires r == Failure(Derive(Mounts(s0.containers), StartOf(s0), parse).failure.value)
    requires s1 == s0.(labels := DefaultedLabels(s0),
                       volumes := Derive(Mounts(s0.containers), StartOf(s0), parse).volumes,
                       persistentVolumes := Derive(Mounts(s0.containers), StartOf(s0), parse).persistentVolumes)
    ensures Synthesized(s0, s1, r, parse)
  {
  }

  /** The success case of `Synthesized`, on its own. */
  lemma SuccessSynthesized(s0: AppState, s1: AppState, r: Result<seq<Object>, Error>, parse: QuantityParser,
                           deployment: Object, cms: seq<Object>, svcs: seq<Object>, pvcs: seq<Object>)
    requires Derive(Mounts(s0.containers), StartOf(s0), parse).failure.None?
    requires s1.name == s0.name && s1.labels == DefaultedLabels(s0) && s1.replicas == s0.replicas
    requires s1.configData == s0.configData && s1.services == s0.services
    requires s1.volumes == Derive(Mounts(s0.containers), StartOf(s0), parse).volumes
    requires s1.persistentVolumes == Derive(Mounts(s0.containers), StartOf(s0), parse).persistentVolumes
    requires var named := NameSoleContainer(s0.containers, s0.name);
             if ShouldInject(named, s1.volumes, s0.name, s0.configData)
             then Injected(named, s1.containers, s0.name, s0.configData)
             else s1.containers == named
    requires deployment == CreateDeployment(s1) && cms == ConfigMapsFor(s0.name, s0.configData)
    requires svcs == ServicesFor(s0.services, s1.labels) && pvcs == Derive(Mounts(s0.containers), StartOf(s0), parse).claims
    requires r == Success([deployment] + cms + svcs + pvcs)
    ensures Synthesized(s0, s1, r, parse)
  {
  }

  // ---------------------------------------------------------------------------
  // Group, version and kind

  datatype GroupVersionKind = GroupVersionKind(group: string, version: string, kind: string)

  /** The registered identity of each kind of object the transform emits. */
  function KindOf(o: Object): GroupVersionKind {
    match o
    case Deployment(_, _, _) => GroupVersionKind("extensions", "v1beta1", "Deployment")
    case ConfigMap(_, _, _) => GroupVersionKind("", "v1", "ConfigMap")
    case Service(_, _, _) => GroupVersionKind("", "v1", "Service")
    case Ingress(_, _, _) => GroupVersionKind("extensions", "v1beta1", "Ingress")
    case PersistentVolumeClaim(_, _, _) => GroupVersionKind("", "v1", "PersistentVolumeClaim")
  }

  /** The apiVersion text of a group and version; the core group has no prefix. */
  function ApiVersion(gvk: GroupVersionKind): string {
    if gvk.group == "" then gvk.version else gvk.group + "/" + gvk.version
  }

  /** The object with its type meta set from its registered kind. */
  function Stamp(o: Object): (stamped: Object)
    ensures stamped.typeMeta == TypeMeta(ApiVersion(KindOf(o)), KindOf(o).kind)
    ensures stamped.(typeMeta := o.typeMeta) == o
  {
    var gvk := KindOf(o);
    o.(typeMeta := TypeMeta(ApiVersion(gvk), gvk.kind))
  }

  /** `r` is `created` with every object stamped, or its error wrapped. */
  ghost predicate StampedFrom(created: Result<seq<Object>, Error>, r: Result<seq<Object>, Error>) {
    match created
    case Failure(e) => r == Failure(Wrapped("failed to create Kubernetes objects", e))
    case Success(objs) =>
      && r.Success? && |r.value| == |objs|
      && forall i :: 0 <= i < |objs| ==> r.value[i] == Stamp(objs[i])
  }

  ghost predicate Transformed(s0: AppState, s1: AppState, r: Result<seq<Object>, Error>, parse: QuantityParser) {
    exists created :: Synthesized(s0, s1, created, parse) && StampedFrom(created, r)
  }

  lemma TransformedFrom(s0: AppState, s1: AppState, created: Result<seq<Object>, Error>, r: Result<seq<Object>, Error>, parse: QuantityParser)
    requires Synthesized(s0, s1, created, parse) && StampedFrom(created, r)
    ensures Transformed(s0, s1, r, parse)
  {
  }

  // ---------------------------------------------------------------------------
  // The application, updated in place

  class App {
    var name: string
    var labels: Labels
    var replicas: Option<int>
    var containers: seq<Container>
    var volumes: seq<Volume>
    var persistentVolumes: seq<PersistentVolume>
    var configData: map<string, string>
    var services: seq<ServiceIntent>

    constructor (s: AppState)
      ensures State() == s
    {
      name, labels, replicas := s.name, s.labels, s.replicas;
      containers, volumes, persistentVolumes := s.containers, s.volumes, s.persistentVolumes;
      configData, services := s.configData, s.services;
    }

    function State(): AppState
      reads this
    {
      AppState(name, labels, replicas, containers, volumes, persistentVolumes, configData, services)
    }

    /** The Services and Ingresses of all service intents, in intent order. */
    method CreateServices() returns (svcs: seq<Object>)
      ensures svcs == ServicesFor(services, labels)
    {
      svcs := [];
      var i := 0;
      while i < |services|
        invariant 0 <= i <= |services|
        invariant svcs == ServicesFor(services[..i], labels)
      {
        var s := services[i];
        var spec := s.spec;
        if |spec.selector| == 0 {
          spec := spec.(selector := LabelMap(labels));
        }
        svcs := svcs + [Service(Unstamped, ObjectMeta(s.name, labels), spec)];

        if s.spec.serviceType == LoadBalancer {
          if |s.rules| == 1 && |s.spec.ports| == 1 {
            var http := s.rules[0].http;
            if http.None? {
              http := Some(RootPath(s.name, s.spec.ports[0].port));
            }
            var rule := IngressRule(s.rules[0].host, http);
            svcs := svcs + [Ingress(Unstamped, ObjectMeta(s.name, labels), IngressSpec(None, [rule]))];
          } else if |s.rules| == 1 && |s.spec.ports| > 1 {
            // no Ingress: the user has to give the routing (only a warning)
          } else if |s.rules| > 1 {
            svcs := svcs + [Ingress(Unstamped, ObjectMeta(s.name, labels), s.ingressSpec)];
          }
        }
        assert services[..i + 1][..i] == services[..i];
        i := i + 1;
      }
      assert services[..i] == services;
    }

    /** The index of the first persistent volume named `volumeName`, or -1. */
    method SearchVolumeIndex(volumeName: string) returns (index: int)
      ensures index == FirstIndex(persistentVolumes, volumeName)
    {
      var i := 0;
      while i < |persistentVolumes|
        invariant 0 <= i <= |persistentVolumes|
        invariant forall j :: 0 <= j < i ==> persistentVolumes[j].volume.name != volumeName
      {
        if persistentVolumes[i].volume.name == volumeName {
          return i;
        }
        i := i + 1;
      }
      return -1;
    }

    method IsVolumeDefined(volumeName: string) returns (defined: bool)
      ensures defined <==> Declared(persistentVolumes, volumeName)
    {
      var i := SearchVolumeIndex(volumeName);
      defined := i != -1;
    }

    /** Whether an env var of some container, or a pod volume, already refers
        to the application's ConfigMap. */
    method IsAnyConfigMapRef() returns (found: bool)
      ensures found == HasConfigMapRef(containers, volumes, name)
    {
      var i := 0;
      while i < |containers|
        invariant 0 <= i <= |containers|
        invariant forall i', j :: 0 <= i' < i && 0 <= j < |containers[i'].env| ==> !RefersToConfigMap(containers[i'].env[j], name)
      {
        var env := containers[i].env;
        var j := 0;
        while j < |env|
          invariant 0 <= j <= |env|
          invariant forall j' :: 0 <= j' < j ==> !RefersToConfigMap(env[j'], name)
        {
          var e := env[j];
          if e.valueFrom.Some? && e.valueFrom.value.configMapKeyRef.Some? && e.valueFrom.value.configMapKeyRef.value.configMapName == name {
            return true;
          }
          j := j + 1;
        }
        i := i + 1;
      }
      var k := 0;
      while k < |volumes|
        invariant 0 <= k <= |volumes|
        invariant forall k' :: 0 <= k' < k ==> volumes[k'].source != ConfigMapSource(name)
      {
        if volumes[k].source.ConfigMapSource? && volumes[k].source.configMapName == name {
          return true;
        }
        k := k + 1;
      }
      return false;
    }

    /** One iteration of the mount loop: the pod volume for mount `vm`, the
        persistent volume it resolves to (appended with defaults when none is
        declared) and the claim built from it. */
    method MountVolume(vm: VolumeMount, parse: QuantityParser) returns (claim: Result<Object, Error>)
      modifies this`volumes, this`persistentVolumes
      ensures MountStep(Derivation(old(volumes), old(persistentVolumes), [], None), vm, parse) ==
              Derivation(volumes, persistentVolumes,
                         if claim.Success? then [claim.value] else [],
                         if claim.Success? then None else Some(Wrapped("cannot create pvc", claim.error)))
    {
      var podVolume := Volume(vm.name, ClaimSource(vm.name));
      volumes := volumes + [podVolume];

      var defined := IsVolumeDefined(vm.name);
      DeclaredIffFound(persistentVolumes, vm.name);
      if defined {
        var i := SearchVolumeIndex(vm.name);
        var sized;
        sized, claim := CreatePVC(persistentVolumes[i], parse);
        persistentVolumes := persistentVolumes[i := sized];
        return;
      }

      // no persistent volume of that name: append a default one
      var v := PersistentVolume(podVolume, DefaultVolumeSize, [DefaultVolumeType]);
      persistentVolumes := persistentVolumes + [v];
      var _, c := CreatePVC(v, parse);
      claim := c;
    }

    /** The mount loop of object creation: for every mount of every container,
        appends a pod volume bound to a claim of the mount's name, resolves the
        persistent volume of that name (appending a default one when there is
        none) and builds its claim; stops at the first error. */
    method DeriveVolumes(parse: QuantityParser) returns (pvcs: seq<Object>, failure: Option<Error>)
      modifies this`volumes, this`persistentVolumes
      ensures Derive(Mounts(containers), Derivation(old(volumes), old(persistentVolumes), [], None), parse)
              == Derivation(volumes, persistentVolumes, pvcs, failure)
    {
      ghost var start := Derivation(volumes, persistentVolumes, [], None);
      var cs := containers;
      pvcs, failure := [], None;
      var ci := 0;
      while ci < |cs|
        invariant 0 <= ci <= |cs|
        invariant failure.None?
        invariant Derive(Mounts(cs[..ci]), start, parse) == Derivation(volumes, persistentVolumes, pvcs, None)
      {
        MountsNext(cs, ci);
        pvcs, failure := DeriveMounts(cs[ci].volumeMounts, parse, start, Mounts(cs[..ci]), pvcs);
        if failure.Some? {
          MountsPrefix(cs, ci + 1);
          DeriveStopsAtFailure(Mounts(cs[..ci + 1]), Mounts(cs), start, parse);
          return;
        }
        ci := ci + 1;
      }
      assert cs[..ci] == cs;
    }

    /** The inner loop over the mounts of one container, continuing a
        derivation that has processed `done`. */
    method DeriveMounts(mounts: seq<VolumeMount>, parse: QuantityParser, ghost start: Derivation, ghost done: seq<VolumeMount>, pvcs0: seq<Object>)
      returns (pvcs: seq<Object>, failure: Option<Error>)
      requires Derive(done, start, parse) == Derivation(volumes, persistentVolumes, pvcs0, None)
      modifies this`volumes, this`persistentVolumes
      ensures Derive(done + mounts, start, parse) == Derivation(volumes, persistentVolumes, pvcs, failure)
    {
      pvcs, failure := pvcs0, None;
      MountsBounds(done, mounts);
      var mi := 0;
      while mi < |mounts|
        invariant 0 <= mi <= |mounts|
        invariant Derive(done + mounts[..mi], start, parse) == Derivation(volumes, persistentVolumes, pvcs, None)
      {
        var vm := mounts[mi];
        ghost var current := Derivation(volumes, persistentVolumes, pvcs, None);
        DeriveNextMount(done, mounts, mi, start, parse);
        MountStepClaims(current, vm, parse);
        var claim := MountVolume(vm, parse);
        if claim.Failure? {
          failure := Some(Wrapped("cannot create pvc", claim.error));
          DeriveStopsAtFailure(done + mounts[..mi + 1], done + mounts, start, parse);
          return;
        }
        pvcs := pvcs + [claim.value];
        mi := mi + 1;
      }
    }

    /** The second half of object creation: container defaults, the ConfigMap
        and the env injection, then the list of objects with the Deployment
        built from the updated containers first. */
    method AssembleObjects(svcs: seq<Object>, pvcs: seq<Object>) returns (objects: seq<Object>)
      modifies this`containers
      ensures var named := NameSoleContainer(old(containers), name);
              if ShouldInject(named, volumes, name, configData)
              then Injected(named, containers, name, configData)
              else containers == named
      ensures objects == [CreateDeployment(State())] + ConfigMapsFor(name, configData) + svcs + pvcs
    {
      NameSoleContainerInPlace();
      var configMap := CreateConfigMap();
      var deployment := CreateDeployment(State());
      objects := [deployment];
      if configMap.Some? {
        objects := objects + [configMap.value];
      }
      ghost var cms := if configMap.Some? then [configMap.value] else [];
      assert objects == [deployment] + cms;
      objects := objects + svcs;
      objects := objects + pvcs;
    }

    /** A sole container without a name takes the application's name. */
    method NameSoleContainerInPlace()
      modifies this`containers
      ensures containers == NameSoleContainer(old(containers), name)
    {
      if |containers| == 1 && containers[0].name == "" {
        containers := containers[0 := containers[0].(name := name)];
      }
    }

    /** The ConfigMap of the application, if it has configuration data, after
        injecting its keys into a sole container that does not refer to it yet. */
    method CreateConfigMap() returns (configMap: Option<Object>)
      modifies this`containers
      ensures (if configMap.Some? then [configMap.value] else []) == ConfigMapsFor(name, configData)
      ensures ShouldInject(old(containers), volumes, name, configData) ==> Injected(old(containers), containers, name, configData)
      ensures !ShouldInject(old(containers), volumes, name, configData) ==> containers == old(containers)
    {
      configMap := None;
      if |configData| > 0 {
        configMap := Some(ConfigMap(Unstamped, ObjectMeta(name, None), configData));
        var anyRef := IsAnyConfigMapRef();
        if |containers| == 1 && !anyRef {
          InjectConfigData();
        }
      }
    }

    /** The injection loop of object creation: appends to the sole container's
        env one variable per configuration key, taken from the application's
        ConfigMap, in the (unspecified) order the keys are visited. */
    method InjectConfigData()
      requires |containers| == 1
      modifies this`containers
      ensures Injected(old(containers), containers, name, configData)
    {
      ghost var sole := containers[0];
      var keys := configData.Keys;
      ghost var added: seq<EnvVar> := [];
      InjectingStart(containers, name, configData.Keys);
      while keys != {}
        invariant Injecting(containers, sole, added, configData.Keys, keys, name)
        decreases |keys|
      {
        var key :| key in keys;
        InjectingStep(containers, sole, added, configData.Keys, keys, name, key);
        AppendConfigEnvVar(key);
        added := added + [ConfigEnvVar(name, key)];
        keys := keys - {key};
      }
      InjectingDone(containers, sole, added, name, configData);
    }

    /** Appends to the sole container's env the variable that takes `key` from
        the application's ConfigMap. */
    method AppendConfigEnvVar(key: string)
      requires |containers| == 1
      modifies this`containers
      ensures containers == [old(containers[0]).(env := old(containers[0].env) + [ConfigEnvVar(name, key)])]
    {
      var e := EnvVar(key, "", Some(EnvVarSource(Some(ConfigMapKeySelector(name, key)))));
      containers := containers[0 := containers[0].(env := containers[0].env + [e])];
    }

    /** Creates the objects of the application, defaulting its labels, pod
        volumes, persistent volumes, container name and container env in place. */
    method CreateK8sObjects(parse: QuantityParser) returns (r: Result<seq<Object>, Error>)
      modifies this
      ensures Synthesized(old(State()), State(), r, parse)
    {
      ghost var s0 := State();
      if labels.None? {
        labels := Some(GetLabels(name));
      }
      var svcs := CreateServices();

      var pvcs, failure := DeriveVolumes(parse);
      ghost var d := Derive(Mounts(s0.containers), StartOf(s0), parse);
      assert d == Derivation(volumes, persistentVolumes, pvcs, failure);
      if failure.Some? {
        r := Failure(failure.value);
        FailureSynthesized(s0, State(), r, parse);
        return;
      }

      var objects := AssembleObjects(svcs, pvcs);
      r := Success(objects);
      SuccessSynthesized(s0, State(), r, parse, objects[0], ConfigMapsFor(name, configData), svcs, pvcs);
    }

    /** The loop of `Transform` that sets each object's apiVersion and kind
        from the scheme, in place, keeping the order. */
    static method StampObjects(created: seq<Object>) returns (objects: seq<Object>)
      ensures |objects| == |created|
      ensures forall j :: 0 <= j < |created| ==> objects[j] == Stamp(created[j])
    {
      objects := created;
      var i := 0;
      while i < |objects|
        invariant 0 <= i <= |objects| == |created|
        invariant forall j :: 0 <= j < i ==> objects[j] == Stamp(created[j])
        invariant forall j :: i <= j < |objects| ==> objects[j] == created[j]
      {
        var gvk := KindOf(objects[i]);
        objects := objects[i := objects[i].(typeMeta := TypeMeta(ApiVersion(gvk), gvk.kind))];
        i := i + 1;
      }
    }

    /** Creates the objects and stamps each with its group, version and kind. */
    method Transform(parse: QuantityParser) returns (r: Result<seq<Object>, Error>)
      modifies this
      ensures Transformed(old(State()), State(), r, parse)
    {
      var created := CreateK8sObjects(parse);
      if created.Failure? {
        r := Failure(Wrapped("failed to create Kubernetes objects", created.error));
        TransformedFrom(old(State()), State(), created, r, parse);
        return;
      }
      var objects := StampObjects(created.value);
      r := Success(objects);
      assert StampedFrom(created, r);
      TransformedFrom(old(State()), State(), created, r, parse);
    }
  }
}
