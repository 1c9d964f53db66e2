/** Properties of the whole transform: what object creation and Transform
    promise about the objects they emit, in which order, with which labels,
    and what they leave behind in the application they were given. */
module Properties {
  import opened Wrappers
  import opened Api
  import opened AppSpec
  import opened Volumes
  import opened Services
  import opened ConfigInjection
  import opened Kubernetes

  // ---------------------------------------------------------------------------
  // Volume derivation, from the outside

  /** A successful mount loop yields one claim per mount, in mount order, each
      an unstamped PersistentVolumeClaim named after its mount and carrying no
      labels; it appends one pod volume per mount; and afterwards every mount
      name has a persistent volume entry. */
  lemma ClaimsFollowMounts(ms: seq<VolumeMount>, start: Derivation, parse: QuantityParser)
    requires start.failure.None? && start.claims == []
    requires Derive(ms, start, parse).failure.None?
    ensures var d := Derive(ms, start, parse);
            && |d.claims| == |ms|
            && d.volumes == start.volumes + ClaimVolumes(ms)
            && (forall k :: 0 <= k < |ms| ==>
                  && d.claims[k].PersistentVolumeClaim?
                  && d.claims[k].typeMeta == Unstamped
                  && d.claims[k].meta == ObjectMeta(ms[k].name, None))
            && (forall k :: 0 <= k < |ms| ==> Declared(d.persistentVolumes, ms[k].name))
  {
    var d := Derive(ms, start, parse);
    DeriveSucceeds(ms, start, parse);
    forall k | 0 <= k < |ms|
      ensures d.claims[k].PersistentVolumeClaim? && d.claims[k].typeMeta == Unstamped
      ensures d.claims[k].meta == ObjectMeta(ms[k].name, None)
      ensures Declared(d.persistentVolumes, ms[k].name)
    {
      var i := FirstIndex(d.persistentVolumes, ms[k].name);
      assert ClaimFor(d.persistentVolumes[i], parse).1 == Success(d.claims[k]);
      DeclaredIffFound(d.persistentVolumes, ms[k].name);
    }
  }

  /** Every error the mount loop stops at is a claim error wrapped as "cannot
      create pvc". */
  lemma {:induction false} DeriveFailureWrapped(ms: seq<VolumeMount>, start: Derivation, parse: QuantityParser)
    requires start.failure.None?
    ensures var d := Derive(ms, start, parse);
            d.failure.Some? ==> d.failure.value.Wrapped? && d.failure.value.context == "cannot create pvc"
    decreases |ms|
  {
    if ms != [] {
      DeriveFailureWrapped(ms[..|ms| - 1], start, parse);
    }
  }

  /** The mounts of a container list depend on the mounts of each container only. */
  lemma {:induction false} MountsOfSameShape(a: seq<Container>, b: seq<Container>)
    requires |a| == |b|
    requires forall i :: 0 <= i < |a| ==> a[i].volumeMounts == b[i].volumeMounts
    ensures Mounts(a) == Mounts(b)
    decreases |a|
  {
    if a != [] {
      MountsOfSameShape(a[..|a| - 1], b[..|b| - 1]);
    }
  }

  /** The pod volumes the mount loop appends are all claim volumes, so they never
      count as a reference to a ConfigMap. */
  lemma ClaimVolumesAreNoConfigMapRef(cs: seq<Container>, volumes: seq<Volume>, ms: seq<VolumeMount>, appName: string)
    ensures HasConfigMapRef(cs, volumes + ClaimVolumes(ms), appName) <==> HasConfigMapRef(cs, volumes, appName)
  {
    var all := volumes + ClaimVolumes(ms);
    if exists j :: 0 <= j < |all| && all[j].source == ConfigMapSource(appName) {
      var j :| 0 <= j < |all| && all[j].source == ConfigMapSource(appName);
      assert forall k :: |volumes| <= k < |all| ==> all[k] == ClaimVolume(ms[k - |volumes|].name);
      assert volumes[j] == all[j];
    }
    if exists j :: 0 <= j < |volumes| && volumes[j].source == ConfigMapSource(appName) {
      var j :| 0 <= j < |volumes| && volumes[j].source == ConfigMapSource(appName);
      assert all[j] == volumes[j];
    }
  }

  /** Whether the application's ConfigMap is referred to depends on the
      containers' env only, not on their names. */
  lemma ConfigMapRefIgnoresNames(a: seq<Container>, b: seq<Container>, volumes: seq<Volume>, appName: string)
    requires |a| == |b|
    requires forall i :: 0 <= i < |a| ==> a[i].env == b[i].env
    ensures HasConfigMapRef(a, volumes, appName) <==> HasConfigMapRef(b, volumes, appName)
  {
  }

  // ---------------------------------------------------------------------------
  // The output list

  /** The position class of each kind in the output list. */
  function Rank(o: Object): nat {
    match o
    case Deployment(_, _, _) => 0
    case ConfigMap(_, _, _) => 1
    case Service(_, _, _) => 2
    case Ingress(_, _, _) => 2
    case PersistentVolumeClaim(_, _, _) => 3
  }

  /** The rank an index of the output holds, given where the ConfigMap part and
      the Service part end. */
  function RankAt(i: int, servicesStart: int, claimsStart: int): nat {
    if i == 0 then 0 else if i < servicesStart then 1 else if i < claimsStart then 2 else 3
  }

  /** What a successful creation returns, in the terms of its parts. */
  lemma CreatedObjects(s0: AppState, s1: AppState, r: Result<seq<Object>, Error>, parse: QuantityParser)
    requires Synthesized(s0, s1, r, parse) && r.Success?
    ensures var d := Derive(Mounts(s0.containers), StartOf(s0), parse);
            && d.failure.None?
            && s1.labels == DefaultedLabels(s0)
            && r.value == [CreateDeployment(s1)] + ConfigMapsFor(s0.name, s0.configData) + ServicesFor(s0.services, s1.labels) + d.claims
  {
  }

  /** The layout of an output list: the Deployment `dep`, `cmCount` copies of
      the ConfigMap `cm`, the Services and Ingresses `svcs`, then one unstamped,
      unlabelled claim per mount of `ms`, named after it. */
  ghost predicate Layout(objs: seq<Object>, dep: Object, cmCount: nat, cm: Object, svcs: seq<Object>, ms: seq<VolumeMount>) {
    var b := 1 + cmCount;
    var c := b + |svcs|;
    && |objs| == c + |ms|
    && objs[0] == dep
    && (forall i :: 1 <= i < b ==> objs[i] == cm)
    && (forall i :: b <= i < c ==> objs[i] == svcs[i - b])
    && (forall k :: 0 <= k < |ms| ==>
          && objs[c + k].PersistentVolumeClaim?
          && objs[c + k].typeMeta == Unstamped
          && objs[c + k].meta == ObjectMeta(ms[k].name, None))
  }

  /** A list made of a head object and three parts has the layout of its parts. */
  lemma LayoutOfParts(objs: seq<Object>, dep: Object, cms: seq<Object>, cm: Object, svcs: seq<Object>, claims: seq<Object>, ms: seq<VolumeMount>)
    requires objs == [dep] + cms + svcs + claims
    requires forall o <- cms :: o == cm
    requires |claims| == |ms|
    requires forall k :: 0 <= k < |ms| ==>
               && claims[k].PersistentVolumeClaim?
               && claims[k].typeMeta == Unstamped
               && claims[k].meta == ObjectMeta(ms[k].name, None)
    ensures Layout(objs, dep, |cms|, cm, svcs, ms)
  {
    var head := [dep] + cms;
    var front := head + svcs;
    assert objs == front + claims;
    forall i | 1 + |cms| <= i < 1 + |cms| + |svcs| ensures objs[i] == svcs[i - 1 - |cms|] {
      assert objs[i] == front[i];
    }
    forall i | 1 <= i < 1 + |cms| ensures objs[i] == cm {
      assert objs[i] == front[i] == head[i];
      assert cms[i - 1] in cms;
    }
    forall k | 0 <= k < |ms|
      ensures && objs[1 + |cms| + |svcs| + k].PersistentVolumeClaim?
              && objs[1 + |cms| + |svcs| + k].typeMeta == Unstamped
              && objs[1 + |cms| + |svcs| + k].meta == ObjectMeta(ms[k].name, None)
    {
      assert objs[1 + |cms| + |svcs| + k] == claims[k];
    }
  }

  /** Where every object of a successful creation comes from. */
  lemma OutputParts(s0: AppState, s1: AppState, r: Result<seq<Object>, Error>, parse: QuantityParser)
    requires Synthesized(s0, s1, r, parse) && r.Success?
    ensures Layout(r.value, CreateDeployment(s1), |ConfigMapsFor(s0.name, s0.configData)|, ConfigMap(Unstamped, ObjectMeta(s0.name, None), s0.configData),
                   ServicesFor(s0.services, s1.labels), Mounts(s0.containers))
  {
    var ms := Mounts(s0.containers);
    var d := Derive(ms, StartOf(s0), parse);
    CreatedObjects(s0, s1, r, parse);
    ClaimsFollowMounts(ms, StartOf(s0), parse);
    LayoutOfParts(r.value, CreateDeployment(s1), ConfigMapsFor(s0.name, s0.configData), ConfigMap(Unstamped, ObjectMeta(s0.name, None), s0.configData),
                  ServicesFor(s0.services, s1.labels), d.claims, ms);
  }

  /** What follows from a layout whose parts have the right kinds, labels and
      type meta. */
  lemma LayoutFacts(objs: seq<Object>, dep: Object, cmCount: nat, cm: Object, svcs: seq<Object>, ms: seq<VolumeMount>, labels: Labels)
    requires Layout(objs, dep, cmCount, cm, svcs, ms)
    requires dep.Deployment? && dep.typeMeta == Unstamped && dep.meta.labels == labels
    requires cm.ConfigMap? && cm.typeMeta == Unstamped && cm.meta.labels.None?
    requires forall o <- svcs :: (o.Service? || o.Ingress?) && o.typeMeta == Unstamped && o.meta.labels == labels
    ensures forall i, j :: 0 <= i < j < |objs| ==> Rank(objs[i]) <= Rank(objs[j])
    ensures (exists i :: 0 <= i < |objs| && objs[i].ConfigMap?) <==> cmCount > 0
    ensures forall i :: 0 <= i < |objs| ==> (objs[i].PersistentVolumeClaim? <==> |objs| - |ms| <= i)
    ensures forall k :: 0 <= k < |ms| ==> objs[|objs| - |ms| + k].meta.name == ms[k].name
    ensures forall o <- objs :: (o.Deployment? || o.Service? || o.Ingress?) ==> o.meta.labels == labels
    ensures forall o <- objs :: (o.ConfigMap? || o.PersistentVolumeClaim?) ==> o.meta.labels.None?
    ensures forall o <- objs :: o.typeMeta == Unstamped
  {
    var b := 1 + cmCount;
    var c := b + |svcs|;
    forall i | 0 <= i < |objs|
      ensures Rank(objs[i]) == RankAt(i, b, c)
      ensures (objs[i].Deployment? || objs[i].Service? || objs[i].Ingress?) ==> objs[i].meta.labels == labels
      ensures (objs[i].ConfigMap? || objs[i].PersistentVolumeClaim?) ==> objs[i].meta.labels.None?
      ensures objs[i].typeMeta == Unstamped
    {
      if c <= i {
        var k := i - c;
        assert objs[c + k] == objs[i];
        assert objs[c + k].meta == ObjectMeta(ms[k].name, None);
      } else if b <= i {
        assert objs[i] == svcs[i - b];
        assert svcs[i - b] in svcs;
      } else if 1 <= i {
        assert objs[i] == cm;
      }
    }
    if cmCount > 0 {
      assert objs[1].ConfigMap?;
    }
  }

  /** The facts of `LayoutFacts` for the output of a successful creation. */
  lemma OutputFacts(s0: AppState, s1: AppState, r: Result<seq<Object>, Error>, parse: QuantityParser)
    requires Synthesized(s0, s1, r, parse) && r.Success?
    ensures var objs, ms := r.value, Mounts(s0.containers);
            && |r.value| >= 1 && r.value[0] == CreateDeployment(s1)
            && (forall i, j :: 0 <= i < j < |objs| ==> Rank(objs[i]) <= Rank(objs[j]))
            && ((exists i :: 0 <= i < |objs| && objs[i].ConfigMap?) <==> |s0.configData| > 0)
            && |ms| <= |objs|
            && (forall i :: 0 <= i < |objs| ==> (objs[i].PersistentVolumeClaim? <==> |objs| - |ms| <= i))
            && (forall k :: 0 <= k < |ms| ==> objs[|objs| - |ms| + k].meta.name == ms[k].name)
            && (forall o <- objs :: (o.Deployment? || o.Service? || o.Ingress?) ==> o.meta.labels == s1.labels)
            && (forall o <- objs :: (o.ConfigMap? || o.PersistentVolumeClaim?) ==> o.meta.labels.None?)
            && (forall o <- objs :: o.typeMeta == Unstamped)
  {
    OutputParts(s0, s1, r, parse);
    LayoutFacts(r.value, CreateDeployment(s1), |ConfigMapsFor(s0.name, s0.configData)|, ConfigMap(Unstamped, ObjectMeta(s0.name, None), s0.configData),
                ServicesFor(s0.services, s1.labels), Mounts(s0.containers), s1.labels);
  }

  /** The Deployment comes first; a ConfigMap is present exactly when there is
      configuration data; the Services and Ingresses come next and the claims
      last, one per volume mount in container-then-mount order. */
  lemma OutputOrder(s0: AppState, s1: AppState, r: Result<seq<Object>, Error>, parse: QuantityParser)
    requires Synthesized(s0, s1, r, parse) && r.Success?
    ensures |r.value| >= 1 && r.value[0].Deployment? && r.value[0] == CreateDeployment(s1)
    ensures forall i, j :: 0 <= i < j < |r.value| ==> Rank(r.value[i]) <= Rank(r.value[j])
    ensures (exists i :: 0 <= i < |r.value| && r.value[i].ConfigMap?) <==> |s0.configData| > 0
    ensures var ms := Mounts(s0.containers);
            && |ms| <= |r.value|
            && (forall i :: 0 <= i < |r.value| ==> (r.value[i].PersistentVolumeClaim? <==> |r.value| - |ms| <= i))
            && (forall k :: 0 <= k < |ms| ==> r.value[|r.value| - |ms| + k].meta.name == ms[k].name)
  {
    OutputFacts(s0, s1, r, parse);
  }

  /** The application's labels become `{"app": name}` when unset and stay as
      they are otherwise; the Deployment, its pod template, every Service and
      every Ingress carry them, while the ConfigMap and the claims carry none. */
  lemma LabelsCarried(s0: AppState, s1: AppState, r: Result<seq<Object>, Error>, parse: QuantityParser)
    requires Synthesized(s0, s1, r, parse) && r.Success?
    ensures s0.labels.None? ==> s1.labels == Some(map["app" := s0.name])
    ensures s0.labels.Some? ==> s1.labels == s0.labels
    ensures r.value[0].deploymentSpec.template.meta.labels == s1.labels
    ensures forall o <- r.value :: (o.Deployment? || o.Service? || o.Ingress?) ==> o.meta.labels == s1.labels
    ensures forall o <- r.value :: (o.ConfigMap? || o.PersistentVolumeClaim?) ==> o.meta.labels.None?
  {
    OutputFacts(s0, s1, r, parse);
  }

  /** Filtering a list made of a head, the Services and Ingresses, and a tail
      with neither keeps those of the middle only. */
  lemma ServicesAmid(head: seq<Object>, svcs: seq<Object>, tail: seq<Object>)
    requires forall o <- head :: !o.Service? && !o.Ingress?
    requires forall o <- tail :: !o.Service? && !o.Ingress?
    ensures ServicesIn(head + svcs + tail) == ServicesIn(svcs)
    ensures IngressesIn(head + svcs + tail) == IngressesIn(svcs)
  {
    NoServicesOrIngresses(head);
    NoServicesOrIngresses(tail);
    ServicesInAppend(head, svcs);
    ServicesInAppend(head + svcs, tail);
    IngressesInAppend(head, svcs);
    IngressesInAppend(head + svcs, tail);
  }

  /** The Services of the output are one per service intent, in intent order,
      each built from its intent with the application's labels; the Ingresses
      are one per intent the ingress rule admits. */
  lemma ServicesInOutput(s0: AppState, s1: AppState, r: Result<seq<Object>, Error>, parse: QuantityParser)
    requires Synthesized(s0, s1, r, parse) && r.Success?
    ensures |ServicesIn(r.value)| == |s0.services|
    ensures forall i :: 0 <= i < |s0.services| ==> ServicesIn(r.value)[i] == ServiceFor(s0.services[i], s1.labels)
    ensures |IngressesIn(r.value)| == ExpectedIngresses(s0.services)
  {
    var ms := Mounts(s0.containers);
    var d := Derive(ms, StartOf(s0), parse);
    CreatedObjects(s0, s1, r, parse);
    ClaimsFollowMounts(ms, StartOf(s0), parse);
    var head := [CreateDeployment(s1)] + ConfigMapsFor(s0.name, s0.configData);
    assert forall k :: 0 <= k < |d.claims| ==> d.claims[k].PersistentVolumeClaim?;
    ServicesAmid(head, ServicesFor(s0.services, s1.labels), d.claims);
    OneServicePerIntent(s0.services, s1.labels);
    IngressCount(s0.services, s1.labels);
  }

  lemma {:induction false} NoServicesOrIngresses(objs: seq<Object>)
    requires forall o <- objs :: !o.Service? && !o.Ingress?
    ensures ServicesIn(objs) == [] && IngressesIn(objs) == []
    decreases |objs|
  {
    if objs != [] {
      NoServicesOrIngresses(objs[..|objs| - 1]);
    }
  }

  // ---------------------------------------------------------------------------
  // What creation leaves in the application

  /** What a successful creation leaves in the application, in the terms of the
      mount loop. */
  lemma CreatedState(s0: AppState, s1: AppState, r: Result<seq<Object>, Error>, parse: QuantityParser)
    requires Synthesized(s0, s1, r, parse) && r.Success?
    ensures var d := Derive(Mounts(s0.containers), StartOf(s0), parse);
            && d.failure.None?
            && s1.volumes == d.volumes && s1.persistentVolumes == d.persistentVolumes
  {
  }

  /** What a successful mount loop leaves in the volumes and persistent volumes. */
  lemma DerivedVolumes(ms: seq<VolumeMount>, start: Derivation, parse: QuantityParser)
    requires start.failure.None? && start.claims == []
    requires Derive(ms, start, parse).failure.None?
    ensures var d := Derive(ms, start, parse);
            && d.volumes == start.volumes + ClaimVolumes(ms)
            && (forall m <- ms :: ClaimVolume(m.name) in d.volumes && Declared(d.persistentVolumes, m.name))
            && |start.persistentVolumes| <= |d.persistentVolumes|
            && (forall j :: 0 <= j < |start.persistentVolumes| ==>
                  d.persistentVolumes[j] == start.persistentVolumes[j] || d.persistentVolumes[j] == SizeDefaulted(start.persistentVolumes[j]))
            && (forall j :: |start.persistentVolumes| <= j < |d.persistentVolumes| ==>
                  && d.persistentVolumes[j] == DefaultVolume(d.persistentVolumes[j].volume.name)
                  && exists m <- ms :: m.name == d.persistentVolumes[j].volume.name)
  {
    var d := Derive(ms, start, parse);
    DeriveSucceeds(ms, start, parse);
    ClaimsFollowMounts(ms, start, parse);
    forall m <- ms ensures ClaimVolume(m.name) in d.volumes && Declared(d.persistentVolumes, m.name) {
      var k :| 0 <= k < |ms| && ms[k] == m;
      assert d.volumes[|start.volumes| + k] == ClaimVolume(m.name);
    }
    forall j | |start.persistentVolumes| <= j < |d.persistentVolumes|
      ensures exists m <- ms :: m.name == d.persistentVolumes[j].volume.name
    {
      var k :| 0 <= k < |ms| && ms[k].name == d.persistentVolumes[j].volume.name;
      assert ms[k] in ms;
    }
  }

  /** After a successful creation each mount of each container has a pod volume
      of its name bound to a claim of its name, appended in mount order, and a
      persistent volume entry of its name; declared entries are kept, or kept
      with an empty size set to "100Mi"; every appended entry is a default one
      named after a mount. */
  lemma VolumesDerived(s0: AppState, s1: AppState, r: Result<seq<Object>, Error>, parse: QuantityParser)
    requires Synthesized(s0, s1, r, parse) && r.Success?
    ensures s1.volumes == s0.volumes + ClaimVolumes(Mounts(s0.containers))
    ensures Mounts(s1.containers) == Mounts(s0.containers)
    ensures forall m <- Mounts(s1.containers) :: ClaimVolume(m.name) in s1.volumes && Declared(s1.persistentVolumes, m.name)
    ensures |s0.persistentVolumes| <= |s1.persistentVolumes|
    ensures forall j :: 0 <= j < |s0.persistentVolumes| ==>
              s1.persistentVolumes[j] == s0.persistentVolumes[j] || s1.persistentVolumes[j] == SizeDefaulted(s0.persistentVolumes[j])
    ensures forall j :: |s0.persistentVolumes| <= j < |s1.persistentVolumes| ==>
              && s1.persistentVolumes[j] == DefaultVolume(s1.persistentVolumes[j].volume.name)
              && exists m <- Mounts(s0.containers) :: m.name == s1.persistentVolumes[j].volume.name
  {
    CreatedState(s0, s1, r, parse);
    DerivedVolumes(Mounts(s0.containers), StartOf(s0), parse);
    ContainersKeepShape(s0, s1, r, parse);
    MountsOfSameShape(s1.containers, s0.containers);
  }

  /** A successful creation changes at most the name and the env of a container:
      the sole unnamed container takes the application's name, every other
      name is kept. */
  lemma ContainersKeepShape(s0: AppState, s1: AppState, r: Result<seq<Object>, Error>, parse: QuantityParser)
    requires Synthesized(s0, s1, r, parse) && r.Success?
    ensures |s1.containers| == |s0.containers|
    ensures forall i :: 0 <= i < |s0.containers| ==>
              s1.containers[i].(name := s0.containers[i].name, env := s0.containers[i].env) == s0.containers[i]
    ensures |s0.containers| == 1 && s0.containers[0].name == "" ==> s1.containers[0].name == s0.name
    ensures !(|s0.containers| == 1 && s0.containers[0].name == "") ==>
              forall i :: 0 <= i < |s0.containers| ==> s1.containers[i].name == s0.containers[i].name
  {
    var named := NameSoleContainer(s0.containers, s0.name);
    var d := Derive(Mounts(s0.containers), StartOf(s0), parse);
    if ShouldInject(named, d.volumes, s0.name, s0.configData) {
      assert s1.containers[0] == named[0].(env := s1.containers[0].env);
    }
  }

  /** ConfigMap keys are injected exactly when there is configuration data,
      exactly one container, and neither an env var nor a pod volume refers to
      the application's ConfigMap: the sole container's env then gains one
      variable per key, named after it and taking that key from the ConfigMap,
      after its original env. Otherwise every container keeps its env. */
  lemma InjectionEffect(s0: AppState, s1: AppState, r: Result<seq<Object>, Error>, parse: QuantityParser)
    requires Synthesized(s0, s1, r, parse) && r.Success?
    ensures var inject := |s0.configData| > 0 && |s0.containers| == 1 && !HasConfigMapRef(s0.containers, s0.volumes, s0.name);
            && (inject ==>
                  var before, after := s0.containers[0].env, s1.containers[0].env;
                  && |after| == |before| + |s0.configData|
                  && after[..|before|] == before
                  && (forall k <- s0.configData :: ConfigEnvVar(s0.name, k) in after[|before|..])
                  && (forall e <- after[|before|..] :: e.name in s0.configData && e == ConfigEnvVar(s0.name, e.name)))
            && (!inject ==> forall i :: 0 <= i < |s0.containers| ==> s1.containers[i].env == s0.containers[i].env)
  {
    var named := NameSoleContainer(s0.containers, s0.name);
    var ms := Mounts(s0.containers);
    CreatedContainers(s0, s1, r, parse);
    InjectCondition(s0.containers, named, s0.volumes, ms, s0.name, s0.configData);
    if ShouldInject(named, s0.volumes + ClaimVolumes(ms), s0.name, s0.configData) {
      InjectedEnv(named, s1.containers, s0.name, s0.configData);
    }
  }

  /** What a successful creation does to the containers, in the terms of the
      mount loop's pod volumes. */
  lemma CreatedContainers(s0: AppState, s1: AppState, r: Result<seq<Object>, Error>, parse: QuantityParser)
    requires Synthesized(s0, s1, r, parse) && r.Success?
    ensures var named := NameSoleContainer(s0.containers, s0.name);
            var volumes := s0.volumes + ClaimVolumes(Mounts(s0.containers));
            && (ShouldInject(named, volumes, s0.name, s0.configData) ==> Injected(named, s1.containers, s0.name, s0.configData))
            && (!ShouldInject(named, volumes, s0.name, s0.configData) ==> s1.containers == named)
  {
    CreatedState(s0, s1, r, parse);
    DerivedVolumes(Mounts(s0.containers), StartOf(s0), parse);
  }

  /** Injection is decided on the original containers and pod volumes: naming
      the sole container and appending claim volumes change nothing. */
  lemma InjectCondition(cs: seq<Container>, named: seq<Container>, volumes: seq<Volume>, ms: seq<VolumeMount>,
                        appName: string, data: map<string, string>)
    requires named == NameSoleContainer(cs, appName)
    ensures ShouldInject(named, volumes + ClaimVolumes(ms), appName, data)
            <==> |data| > 0 && |cs| == 1 && !HasConfigMapRef(cs, volumes, appName)
    ensures |named| == |cs| && forall i :: 0 <= i < |cs| ==> named[i].env == cs[i].env
  {
    assert forall i :: 0 <= i < |cs| ==> named[i].env == cs[i].env by {
      forall i | 0 <= i < |cs| ensures named[i].env == cs[i].env {
        assert named[i].(name := cs[i].name) == cs[i];
      }
    }
    ClaimVolumesAreNoConfigMapRef(named, volumes, ms, appName);
    ConfigMapRefIgnoresNames(named, cs, volumes, appName);
  }

  /** An injection keeps the original env as a prefix and adds exactly one
      ConfigMap-key variable per key. */
  lemma InjectedEnv(before: seq<Container>, after: seq<Container>, appName: string, data: map<string, string>)
    requires Injected(before, after, appName, data)
    ensures var b, a := before[0].env, after[0].env;
            && |a| == |b| + |data|
            && a[..|b|] == b
            && (forall k <- data :: ConfigEnvVar(appName, k) in a[|b|..])
            && (forall e <- a[|b|..] :: e.name in data && e == ConfigEnvVar(appName, e.name))
  {
    var b, a := before[0].env, after[0].env;
    var added := a[|b|..];
    InjectionCoversKeys(added, data.Keys, appName);
    EnvNamesMembers(added);
  }

  /** With configuration data and more than one container nothing is injected
      and no container changes, yet the ConfigMap is still emitted. */
  lemma ManyContainersNoInjection(s0: AppState, s1: AppState, r: Result<seq<Object>, Error>, parse: QuantityParser)
    requires Synthesized(s0, s1, r, parse) && r.Success?
    requires |s0.configData| > 0 && |s0.containers| > 1
    ensures s1.containers == s0.containers
    ensures exists o <- r.value :: o == ConfigMap(Unstamped, ObjectMeta(s0.name, None), s0.configData)
  {
    OutputParts(s0, s1, r, parse);
    assert r.value[1] in r.value;
  }

  /** Creation fails exactly when some mount resolves to a declared persistent
      volume whose non-empty size does not parse (the default size parsing);
      the error is then a claim error wrapped as "cannot create pvc", no
      objects are returned, the containers are untouched, and the labels,
      volumes and persistent volumes defaulted so far stay changed. */
  lemma FailsIffUnparsable(s0: AppState, s1: AppState, r: Result<seq<Object>, Error>, parse: QuantityParser)
    requires Synthesized(s0, s1, r, parse)
    requires parse(DefaultVolumeSize).Some?
    ensures var ms := Mounts(s0.containers);
            r.Failure? <==> exists k :: 0 <= k < |ms| && Unparsable(s0.persistentVolumes, ms[k].name, parse)
    ensures r.Failure? ==> r.error.Wrapped? && r.error.context == "cannot create pvc"
    ensures r.Failure? ==> s1.containers == s0.containers && s1.labels == DefaultedLabels(s0)
  {
    var ms := Mounts(s0.containers);
    CreationOutcome(s0, s1, r, parse);
    DeriveFailsIffUnparsable(ms, StartOf(s0), parse);
    DeriveFailureWrapped(ms, StartOf(s0), parse);
  }

  /** Creation fails exactly when the mount loop does, with its error, and
      then leaves the containers as they were. */
  lemma CreationOutcome(s0: AppState, s1: AppState, r: Result<seq<Object>, Error>, parse: QuantityParser)
    requires Synthesized(s0, s1, r, parse)
    ensures var d := Derive(Mounts(s0.containers), StartOf(s0), parse);
            && (r.Failure? <==> d.failure.Some?)
            && (r.Failure? ==> r.error == d.failure.value && s1.containers == s0.containers)
            && s1.labels == DefaultedLabels(s0)
  {
  }

  /** Running creation a second time on the application it already updated is
      not idempotent: every mount gets a second pod volume. */
  lemma SecondRunDuplicatesVolumes(s0: AppState, s1: AppState, r: Result<seq<Object>, Error>,
                                   s2: AppState, r2: Result<seq<Object>, Error>, parse: QuantityParser)
    requires Synthesized(s0, s1, r, parse) && r.Success?
    requires Synthesized(s1, s2, r2, parse) && r2.Success?
    requires Mounts(s0.containers) != []
    ensures var cvs := ClaimVolumes(Mounts(s0.containers));
            s2.volumes == s0.volumes + cvs + cvs
    ensures |s2.volumes| > |s1.volumes| > |s0.volumes|
  {
    VolumesDerived(s0, s1, r, parse);
    VolumesDerived(s1, s2, r2, parse);
  }

  // ---------------------------------------------------------------------------
  // Transform

  /** Transform fails exactly when creation does, with the error wrapped as
      "failed to create Kubernetes objects"; otherwise it returns the created
      objects in order, each with a non-empty kind and apiVersion that name its
      own variant, and stamping any of them again changes nothing. */
  lemma TransformStamps(s0: AppState, s1: AppState, r: Result<seq<Object>, Error>, parse: QuantityParser)
    requires Transformed(s0, s1, r, parse)
    ensures r.Failure? <==> Derive(Mounts(s0.containers), StartOf(s0), parse).failure.Some?
    ensures r.Failure? ==> r.error.Wrapped? && r.error.context == "failed to create Kubernetes objects"
    ensures r.Success? ==> forall o <- r.value ::
              && o.typeMeta.kind != "" && o.typeMeta.apiVersion != ""
              && (o.Deployment? ==> o.typeMeta == TypeMeta("extensions/v1beta1", "Deployment"))
              && (o.Ingress? ==> o.typeMeta == TypeMeta("extensions/v1beta1", "Ingress"))
              && (o.ConfigMap? ==> o.typeMeta == TypeMeta("v1", "ConfigMap"))
              && (o.Service? ==> o.typeMeta == TypeMeta("v1", "Service"))
              && (o.PersistentVolumeClaim? ==> o.typeMeta == TypeMeta("v1", "PersistentVolumeClaim"))
              && Stamp(o) == o
    ensures r.Success? ==>
              exists created: Result<seq<Object>, Error> ::
                && Synthesized(s0, s1, created, parse) && created.Success?
                && |r.value| == |created.value|
                && forall i :: 0 <= i < |r.value| ==> r.value[i].(typeMeta := Unstamped) == created.value[i]
  {
    var created: Result<seq<Object>, Error> :| Synthesized(s0, s1, created, parse) && StampedFrom(created, r);
    CreationOutcome(s0, s1, created, parse);
    if created.Success? {
      OutputFacts(s0, s1, created, parse);
      StampAll(created.value, r.value);
    }
  }

  /** Stamping a list of unstamped objects one by one. */
  lemma StampAll(objs: seq<Object>, out: seq<Object>)
    requires |out| == |objs| && forall i :: 0 <= i < |objs| ==> out[i] == Stamp(objs[i])
    requires forall o <- objs :: o.typeMeta == Unstamped
    ensures forall o <- out ::
              && o.typeMeta.kind != "" && o.typeMeta.apiVersion != ""
              && (o.Deployment? ==> o.typeMeta == TypeMeta("extensions/v1beta1", "Deployment"))
              && (o.Ingress? ==> o.typeMeta == TypeMeta("extensions/v1beta1", "Ingress"))
              && (o.ConfigMap? ==> o.typeMeta == TypeMeta("v1", "ConfigMap"))
              && (o.Service? ==> o.typeMeta == TypeMeta("v1", "Service"))
              && (o.PersistentVolumeClaim? ==> o.typeMeta == TypeMeta("v1", "PersistentVolumeClaim"))
              && Stamp(o) == o
    ensures forall i :: 0 <= i < |out| ==> out[i].(typeMeta := Unstamped) == objs[i]
  {
    forall o <- out
      ensures o.typeMeta.kind != "" && o.typeMeta.apiVersion != ""
      ensures Stamp(o) == o
    {
      var i :| 0 <= i < |out| && out[i] == o;
      StampIdempotent(objs[i]);
    }
    forall i | 0 <= i < |out| ensures out[i].(typeMeta := Unstamped) == objs[i] {
      assert objs[i] in objs;
    }
  }

  /** Stamping is stable under repetition, and never leaves an empty kind or
      apiVersion. */
  lemma StampIdempotent(o: Object)
    ensures Stamp(Stamp(o)) == Stamp(o)
    ensures Stamp(o).typeMeta.kind != "" && Stamp(o).typeMeta.apiVersion != ""
  {
  }

  // ---------------------------------------------------------------------------
  // A scenario

  /** An application "web" with one unnamed container mounting "data" and no
      declared persistent volumes yields its Deployment, whose container is
      now named "web", and one claim "data" of 100Mi, ReadWriteOnce. */
  lemma WebDataScenario(image: string, path: string, q: Quantity, s1: AppState, r: Result<seq<Object>, Error>, parse: QuantityParser)
    requires parse(DefaultVolumeSize) == Some(q)
    requires Synthesized(AppState("web", None, None, [Container("", image, [], [VolumeMount("data", path)])], [], [], map[], []), s1, r, parse)
    ensures r.Success? && |r.value| == 2
    ensures r.value[0].Deployment? && r.value[0].deploymentSpec.template.spec.containers[0].name == "web"
    ensures r.value[1] == PersistentVolumeClaim(Unstamped, ObjectMeta("data", None), ClaimSpec([ReadWriteOnce], q))
    ensures s1.persistentVolumes == [DefaultVolume("data")] && s1.volumes == [ClaimVolume("data")]
  {
    var c := Container("", image, [], [VolumeMount("data", path)]);
    var s0 := AppState("web", None, None, [c], [], [], map[], []);
    assert [c][..0] == [];
    assert Mounts([c]) == [VolumeMount("data", path)];
    assert Derive([VolumeMount("data", path)], StartOf(s0), parse) == MountStep(StartOf(s0), VolumeMount("data", path), parse) by {
      assert [VolumeMount("data", path)][..0] == [];
    }
  }
}
