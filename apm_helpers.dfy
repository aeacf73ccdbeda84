/**
 * The helpers of package `apm` that the .NET injector calls: env-var lookup,
 * set-if-absent, the presence checks on mounts, volumes and init containers,
 * the shared constants, and the base injector's two collaborators. Their Go
 * bodies are not part of this model; each is modelled from its name and its
 * call sites (a lookup returns the first match or -1, a setter with
 * `false` appends only when the name is absent, a "missing" check means no
 * element carries that name).
 *
 * The env-var merge that the injector performs (set-if-absent, applied to a
 * sequence of variables in order) is specified here by `MergeEnv` and
 * characterised by the lemmas below it.
 */
module ApmHelpers {

  import opened Wrappers
  import opened Corev1
  import opened V1alpha2

  /** Name of the shared pod volume that holds the agent payload (`volumeName`). */
  const VolumeName: string := "newrelic-instrumentation"

  /** Base name of every staging init container (`initContainerName`). */
  const InitContainerName: string := "newrelic-instrumentation"

  /** Signature of `injectNewrelicConfig(ctx, resource, ns, pod, containerIndex, licenseKeySecret)`. */
  type ConfigInjector = (ResourceRequirements, Namespace, Pod, nat, string) -> Pod

  /**
   * The embedded `baseInjector`: structural validation of the instrumentation
   * (None is a nil error, Some carries the error's message) and the config
   * delegation that resolves the license key secret. Both are collaborators
   * whose code is not part of this model, so they are given as functions.
   */
  datatype BaseInjector = BaseInjector(
    validate: Instrumentation -> Option<string>,
    injectNewrelicConfig: ConfigInjector)

  // ---------------------------------------------------------------- env vars

  predicate HasEnv(env: seq<EnvVar>, name: string)
  {
    exists i :: 0 <= i < |env| && env[i].name == name
  }

  function EnvNames(env: seq<EnvVar>): set<string>
  {
    set i | 0 <= i < |env| :: env[i].name
  }

  /** Env-var names are the key of a container's env list. */
  predicate UniqueEnvNames(env: seq<EnvVar>)
  {
    forall i, j :: 0 <= i < j < |env| ==> env[i].name != env[j].name
  }

  /** `getIndexOfEnv`: the index of the first variable called `name`, or -1. */
  method GetIndexOfEnv(env: seq<EnvVar>, name: string) returns (idx: int)
    ensures -1 <= idx < |env|
    ensures idx == -1 <==> !HasEnv(env, name)
    ensures idx >= 0 ==> env[idx].name == name && forall j :: 0 <= j < idx ==> env[j].name != name
  {
    var i := 0;
    while i < |env|
      invariant 0 <= i <= |env|
      invariant forall j :: 0 <= j < i ==> env[j].name != name
    {
      if env[i].name == name {
        return i;
      }
      i := i + 1;
    }
    return -1;
  }

  /** The value of the first entry with this name, if any. */
  function Lookup(env: seq<EnvVar>, name: string): (r: Option<string>)
    ensures r.Some? <==> HasEnv(env, name)
    ensures r.Some? ==> EnvVar(name, r.value) in env
  {
    if env == [] then None
    else if env[0].name == name then Some(env[0].value)
    else
      var r := Lookup(env[1..], name);
      assert HasEnv(env[1..], name) ==> HasEnv(env, name) by {
        if HasEnv(env[1..], name) {
          var i :| 0 <= i < |env[1..]| && env[1..][i].name == name;
          assert env[i + 1].name == name;
        }
      }
      r
  }

  /** Set-if-absent: what `setEnvVar(container, name, value, false)` does to the env list. */
  function AppendEnvIfAbsent(env: seq<EnvVar>, v: EnvVar): seq<EnvVar>
  {
    if HasEnv(env, v.name) then env else env + [v]
  }

  /** `setEnvVar(container, name, value, false)`, on the container value it updates. */
  method SetEnvVar(c: Container, name: string, value: string) returns (r: Container)
    ensures r == c.(env := AppendEnvIfAbsent(c.env, EnvVar(name, value)))
  {
    var idx := GetIndexOfEnv(c.env, name);
    if idx < 0 {
      r := c.(env := c.env + [EnvVar(name, value)]);
    } else {
      r := c;
    }
  }

  /**
   * Applies set-if-absent to each variable of `add`, in order: the spec-env loop
   * of the injector and its run of fixed `setEnvVar` calls both have this shape.
   */
  function MergeEnv(env: seq<EnvVar>, add: seq<EnvVar>): (r: seq<EnvVar>)
    ensures env <= r
    decreases |add|
  {
    if add == [] then env else MergeEnv(AppendEnvIfAbsent(env, add[0]), add[1..])
  }

  /**
   * Reference definition of what a merge appends: the entries of `add` whose
   * name is neither in `seen` nor carried by an earlier entry of `add`, in the
   * order of `add`.
   */
  function FirstOccurrences(add: seq<EnvVar>, seen: set<string>): seq<EnvVar>
    decreases |add|
  {
    if add == [] then []
    else if add[0].name in seen then FirstOccurrences(add[1..], seen)
    else [add[0]] + FirstOccurrences(add[1..], seen + {add[0].name})
  }

  // --------------------------------------------------- mounts, volumes, init

  /** `isContainerVolumeMissing`: no mount of the container carries `name`. */
  predicate IsContainerVolumeMissing(c: Container, name: string)
  {
    forall i :: 0 <= i < |c.volumeMounts| ==> c.volumeMounts[i].name != name
  }

  /** `isPodVolumeMissing`: no volume of the pod carries `name`. */
  predicate IsPodVolumeMissing(pod: Pod, name: string)
  {
    forall i :: 0 <= i < |pod.volumes| ==> pod.volumes[i].name != name
  }

  /** `isInitContainerMissing`: no init container of the pod carries `name`. */
  predicate IsInitContainerMissing(pod: Pod, name: string)
  {
    forall i :: 0 <= i < |pod.initContainers| ==> pod.initContainers[i].name != name
  }

  predicate UniqueMountNames(ms: seq<VolumeMount>)
  {
    forall i, j :: 0 <= i < j < |ms| ==> ms[i].name != ms[j].name
  }

  predicate UniqueVolumeNames(vs: seq<Volume>)
  {
    forall i, j :: 0 <= i < j < |vs| ==> vs[i].name != vs[j].name
  }

  predicate UniqueContainerNames(cs: seq<Container>)
  {
    forall i, j :: 0 <= i < j < |cs| ==> cs[i].name != cs[j].name
  }

  // ------------------------------------------------------------------ lemmas

  lemma HasEnvIffInNames(env: seq<EnvVar>, name: string)
    ensures HasEnv(env, name) <==> name in EnvNames(env)
  {
    if HasEnv(env, name) {
      var i :| 0 <= i < |env| && env[i].name == name;
      assert env[i].name in EnvNames(env);
    }
  }

  lemma {:induction false} HasEnvConcat(a: seq<EnvVar>, b: seq<EnvVar>, name: string)
    ensures HasEnv(a + b, name) <==> HasEnv(a, name) || HasEnv(b, name)
  {
    if HasEnv(a + b, name) {
      var i :| 0 <= i < |a + b| && (a + b)[i].name == name;
      if i >= |a| {
        assert b[i - |a|].name == name;
      }
    }
    if HasEnv(a, name) {
      var i :| 0 <= i < |a| && a[i].name == name;
      assert (a + b)[i].name == name;
    }
    if HasEnv(b, name) {
      var i :| 0 <= i < |b| && b[i].name == name;
      assert (a + b)[|a| + i].name == name;
    }
  }

  /** A lookup in `a + b` answers from `a` whenever `a` defines the name. */
  lemma {:induction false} LookupConcat(a: seq<EnvVar>, b: seq<EnvVar>, name: string)
    ensures Lookup(a + b, name) == if HasEnv(a, name) then Lookup(a, name) else Lookup(b, name)
  {
    if a == [] {
      assert a + b == b;
    } else {
      assert (a + b)[1..] == a[1..] + b;
      LookupConcat(a[1..], b, name);
      if a[0].name != name {
        assert HasEnv(a, name) <==> HasEnv(a[1..], name) by {
          HasEnvConcat([a[0]], a[1..], name);
          assert [a[0]] + a[1..] == a;
        }
      }
    }
  }

  /** A lookup answers with the value of the first entry carrying the name. */
  lemma {:induction false} LookupFirst(env: seq<EnvVar>, k: nat)
    requires k < |env|
    requires forall j :: 0 <= j < k ==> env[j].name != env[k].name
    ensures Lookup(env, env[k].name) == Some(env[k].value)
  {
    if k > 0 {
      LookupFirst(env[1..], k - 1);
    }
  }

  /** Set-if-absent never overwrites, always defines the name, and adds at most one entry. */
  lemma AppendEnvIfAbsentLookup(env: seq<EnvVar>, v: EnvVar, name: string)
    ensures env <= AppendEnvIfAbsent(env, v) && |AppendEnvIfAbsent(env, v)| <= |env| + 1
    ensures Lookup(AppendEnvIfAbsent(env, v), name)
         == if HasEnv(env, name) then Lookup(env, name)
            else if name == v.name then Some(v.value)
            else None
  {
    if !HasEnv(env, v.name) {
      LookupConcat(env, [v], name);
    }
  }

  lemma EnvNamesAppend(env: seq<EnvVar>, v: EnvVar)
    ensures EnvNames(env + [v]) == EnvNames(env) + {v.name}
  {
    var r := env + [v];
    assert r[|env|].name == v.name;
    forall n | n in EnvNames(env) ensures n in EnvNames(r) {
      var i :| 0 <= i < |env| && env[i].name == n;
      assert r[i].name == n;
    }
  }

  /** The merge is the old list followed by the first occurrences of the new names. */
  lemma {:induction false} MergeEnvSplit(env: seq<EnvVar>, add: seq<EnvVar>)
    ensures MergeEnv(env, add) == env + FirstOccurrences(add, EnvNames(env))
    decreases |add|
  {
    if add == [] {
      assert env + [] == env;
    } else {
      var env' := AppendEnvIfAbsent(env, add[0]);
      MergeEnvSplit(env', add[1..]);
      HasEnvIffInNames(env, add[0].name);
      if !HasEnv(env, add[0].name) {
        EnvNamesAppend(env, add[0]);
        assert env' + FirstOccurrences(add[1..], EnvNames(env'))
            == env + ([add[0]] + FirstOccurrences(add[1..], EnvNames(env) + {add[0].name}));
      }
    }
  }

  /** Every entry a merge appends comes from `add`, carries a name outside `seen`, and no name twice. */
  lemma {:induction false} FirstOccurrencesFresh(add: seq<EnvVar>, seen: set<string>)
    ensures UniqueEnvNames(FirstOccurrences(add, seen))
    ensures forall v :: v in FirstOccurrences(add, seen) ==> v in add && v.name !in seen
    decreases |add|
  {
    if add != [] {
      var rest := if add[0].name in seen then seen else seen + {add[0].name};
      FirstOccurrencesFresh(add[1..], rest);
      if add[0].name !in seen {
        var fo := FirstOccurrences(add[1..], rest);
        forall j | 0 <= j < |fo| ensures fo[j].name != add[0].name {
          assert fo[j] in fo;
        }
        assert FirstOccurrences(add, seen) == [add[0]] + fo;
      }
    }
  }

  /** Once every name of `add` has been seen, nothing more is appended. */
  lemma {:induction false} FirstOccurrencesCovered(add: seq<EnvVar>, seen: set<string>)
    requires forall i :: 0 <= i < |add| ==> add[i].name in seen
    ensures FirstOccurrences(add, seen) == []
    decreases |add|
  {
    if add != [] {
      FirstOccurrencesCovered(add[1..], seen);
    }
  }

  /**
   * After a merge, a name the old list defined keeps its old value; any other
   * name takes the value of its first entry in `add`.
   */
  lemma {:induction false} MergeEnvLookup(env: seq<EnvVar>, add: seq<EnvVar>, name: string)
    ensures Lookup(MergeEnv(env, add), name)
         == if HasEnv(env, name) then Lookup(env, name) else Lookup(add, name)
    decreases |add|
  {
    if add != [] {
      var env' := AppendEnvIfAbsent(env, add[0]);
      MergeEnvLookup(env', add[1..], name);
      AppendEnvIfAbsentLookup(env, add[0], name);
    }
  }

  /** A merge defines exactly the names of both lists. */
  lemma MergeEnvNames(env: seq<EnvVar>, add: seq<EnvVar>, name: string)
    ensures HasEnv(MergeEnv(env, add), name) <==> HasEnv(env, name) || HasEnv(add, name)
  {
    MergeEnvLookup(env, add, name);
  }

  /** If the old list had unique names, so does the merge, whatever `add` repeats. */
  lemma MergeEnvKeepsUnique(env: seq<EnvVar>, add: seq<EnvVar>)
    requires UniqueEnvNames(env)
    ensures UniqueEnvNames(MergeEnv(env, add))
  {
    MergeEnvSplit(env, add);
    var fo := FirstOccurrences(add, EnvNames(env));
    FirstOccurrencesFresh(add, EnvNames(env));
    var r := env + fo;
    forall i, j | 0 <= i < j < |r| ensures r[i].name != r[j].name {
      if j >= |env| {
        if i >= |env| {
          assert r[i] == fo[i - |env|] && r[j] == fo[j - |env|];
        } else {
          assert r[j] == fo[j - |env|] && r[j] in fo;
          assert r[i] == env[i];
          assert r[i].name in EnvNames(env);
        }
      }
    }
  }

  /** A merge of variables whose names are all defined already leaves the list as it is. */
  lemma MergeEnvCovered(env: seq<EnvVar>, add: seq<EnvVar>)
    requires forall i :: 0 <= i < |add| ==> HasEnv(env, add[i].name)
    ensures MergeEnv(env, add) == env
  {
    MergeEnvSplit(env, add);
    forall i | 0 <= i < |add| ensures add[i].name in EnvNames(env) {
      HasEnvIffInNames(env, add[i].name);
    }
    FirstOccurrencesCovered(add, EnvNames(env));
    assert env + [] == env;
  }

  /** Merging the same variables a second time changes nothing. */
  lemma MergeEnvIdempotent(env: seq<EnvVar>, add: seq<EnvVar>)
    ensures MergeEnv(MergeEnv(env, add), add) == MergeEnv(env, add)
  {
    forall i | 0 <= i < |add| ensures HasEnv(MergeEnv(env, add), add[i].name) {
      MergeEnvNames(env, add, add[i].name);
      assert HasEnv(add, add[i].name);
    }
    MergeEnvCovered(MergeEnv(env, add), add);
  }
}
