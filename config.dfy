/** ConfigMap handling of the Kubernetes transform: detecting an existing
    reference to the application's ConfigMap, and the environment variables
    injected into a sole container, one per configuration key. */
module ConfigInjection {
  import opened Wrappers
  import opened Api

  /** The environment variable that takes key `key` from ConfigMap `appName`. */
  function ConfigEnvVar(appName: string, key: string): EnvVar {
    EnvVar(key, "", Some(EnvVarSource(Some(ConfigMapKeySelector(appName, key)))))
  }

  predicate RefersToConfigMap(e: EnvVar, appName: string) {
    && e.valueFrom.Some?
    && e.valueFrom.value.configMapKeyRef.Some?
    && e.valueFrom.value.configMapKeyRef.value.configMapName == appName
  }

  /** Some container's env var takes a key from ConfigMap `appName`, or some
      pod volume is ConfigMap `appName`. */
  ghost predicate HasConfigMapRef(cs: seq<Container>, volumes: seq<Volume>, appName: string) {
    || (exists i, j :: 0 <= i < |cs| && 0 <= j < |cs[i].env| && RefersToConfigMap(cs[i].env[j], appName))
    || (exists j :: 0 <= j < |volumes| && volumes[j].source == ConfigMapSource(appName))
  }

  /** The names of a list of environment variables. */
  function EnvNames(es: seq<EnvVar>): set<string>
    decreases |es|
  {
    if es == [] then {} else EnvNames(es[..|es| - 1]) + {es[|es| - 1].name}
  }

  ghost predicate DistinctNames(es: seq<EnvVar>) {
    forall i, j :: 0 <= i < j < |es| ==> es[i].name != es[j].name
  }

  /** `added` holds exactly one ConfigMap-key variable for every key in `keys`,
      in some order. */
  ghost predicate IsInjection(added: seq<EnvVar>, keys: set<string>, appName: string) {
    && EnvNames(added) == keys
    && DistinctNames(added)
    && forall j :: 0 <= j < |added| ==> added[j] == ConfigEnvVar(appName, added[j].name)
  }

  lemma {:induction false} EnvNamesMembers(es: seq<EnvVar>)
    ensures forall j :: 0 <= j < |es| ==> es[j].name in EnvNames(es)
    ensures forall n :: n in EnvNames(es) ==> exists j :: 0 <= j < |es| && es[j].name == n
    decreases |es|
  {
    if es != [] {
      var front := es[..|es| - 1];
      EnvNamesMembers(front);
      assert forall j :: 0 <= j < |front| ==> es[j] == front[j];
      forall n | n in EnvNames(es) ensures exists j :: 0 <= j < |es| && es[j].name == n {
        if n in EnvNames(front) {
          var j :| 0 <= j < |front| && front[j].name == n;
          assert es[j] == front[j];
        }
      }
    }
  }

  lemma {:induction false} DistinctNamesCount(es: seq<EnvVar>)
    requires DistinctNames(es)
    ensures |EnvNames(es)| == |es|
    decreases |es|
  {
    if es != [] {
      var front, last := es[..|es| - 1], es[|es| - 1];
      assert DistinctNames(front) by {
        assert forall j :: 0 <= j < |front| ==> es[j] == front[j];
      }
      DistinctNamesCount(front);
      EnvNamesMembers(front);
      assert forall j :: 0 <= j < |front| ==> front[j].name != last.name by {
        assert forall j :: 0 <= j < |front| ==> es[j] == front[j];
      }
      assert last.name !in EnvNames(front);
    }
  }

  /** An injection adds as many variables as there are keys, and each key is
      taken from the application's ConfigMap by a variable of that name. */
  lemma InjectionCoversKeys(added: seq<EnvVar>, keys: set<string>, appName: string)
    requires IsInjection(added, keys, appName)
    ensures |added| == |keys|
    ensures forall k :: k in keys ==> ConfigEnvVar(appName, k) in added
  {
    DistinctNamesCount(added);
    EnvNamesMembers(added);
    forall k | k in keys ensures ConfigEnvVar(appName, k) in added {
      var j :| 0 <= j < |added| && added[j].name == k;
      assert added[j] == ConfigEnvVar(appName, k);
    }
  }

  /** Adding the variable for a fresh key extends an injection by that key. */
  lemma InjectionSnoc(added: seq<EnvVar>, keys: set<string>, appName: string, key: string)
    requires IsInjection(added, keys, appName)
    requires key !in keys
    ensures IsInjection(added + [ConfigEnvVar(appName, key)], keys + {key}, appName)
  {
    var added' := added + [ConfigEnvVar(appName, key)];
    assert added'[..|added|] == added;
    EnvNamesMembers(added);
    forall i, j | 0 <= i < j < |added'| ensures added'[i].name != added'[j].name {
      if j < |added| {
        assert added'[i] == added[i] && added'[j] == added[j];
      } else {
        assert added'[i] == added[i];
        assert added[i].name in keys;
      }
    }
  }

  /** One round of the injection loop: taking `key` out of the keys still to
      do adds its variable to the injection of the keys done. */
  lemma InjectionStep(added: seq<EnvVar>, all: set<string>, todo: set<string>, appName: string, key: string)
    requires todo <= all && key in todo
    requires IsInjection(added, all - todo, appName)
    ensures todo - {key} <= all && |todo - {key}| < |todo|
    ensures IsInjection(added + [ConfigEnvVar(appName, key)], all - (todo - {key}), appName)
  {
    assert all - (todo - {key}) == (all - todo) + {key};
    InjectionSnoc(added, all - todo, appName, key);
  }
}
