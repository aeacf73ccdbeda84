/**
 * What `Inject` promises, stated over `InjectSpec` (the whole call) and
 * `Staged` (the pod handed to the config collaborator): the silent skip,
 * the error cascade, the env-var merge that never overwrites, the guarded
 * additions that never duplicate, the untouched other containers, and the
 * refusal of a second injection.
 */
module DotnetEdgeWindowsProperties {

  import opened Wrappers
  import opened Corev1
  import opened V1alpha2
  import opened ApmHelpers
  import opened DotnetEdgeWindows

  /** None of the two home markers is set, neither in the first container nor in the agent's env. */
  predicate MarkersAbsent(inst: Instrumentation, pod: Pod)
    requires |pod.containers| > 0
  {
    && !HasEnv(pod.containers[0].env, EnvCoreClrNewrelicHome)
    && !HasEnv(inst.spec.agent.env, EnvCoreClrNewrelicHome)
    && !HasEnv(pod.containers[0].env, EnvFrameworkNewrelicHome)
    && !HasEnv(inst.spec.agent.env, EnvFrameworkNewrelicHome)
  }

  /** The four marker checks, in the order `Inject` makes them. */
  const MarkerChecks: seq<(string, EnvLocation)> := [
    (EnvCoreClrNewrelicHome, InContainer),
    (EnvCoreClrNewrelicHome, InSpec),
    (EnvFrameworkNewrelicHome, InContainer),
    (EnvFrameworkNewrelicHome, InSpec)
  ]

  /** Whether a check hits: its variable is set in the env list of its location. */
  predicate Hits(check: (string, EnvLocation), containerEnv: seq<EnvVar>, specEnv: seq<EnvVar>)
  {
    HasEnv(if check.1 == InContainer then containerEnv else specEnv, check.0)
  }

  /**
   * The config collaborator keeps at least one container and only extends the
   * first container's env list (it appends the env vars it resolves).
   */
  ghost predicate KeepsFirstContainerEnv(config: ConfigInjector)
  {
    forall r, ns, p: Pod, i, s ::
      |p.containers| > 0 ==>
        |config(r, ns, p, i, s).containers| > 0 &&
        p.containers[0].env <= config(r, ns, p, i, s).containers[0].env
  }

  // ------------------------------------------------------------ the cascade

  /** Another language or a pod without containers: the pod comes back as it was, with no error. */
  lemma SkipUnlessAcceptable(base: BaseInjector, inst: Instrumentation, ns: Namespace, pod: Pod)
    requires inst.spec.agent.language != "dotnet-edge-windows" || pod.containers == []
    ensures InjectSpec(base, inst, ns, pod) == InjectResult(pod, None)
  {
  }

  /** A validation error is returned as it is, with the pod unchanged. */
  lemma ValidationErrorKeepsPod(base: BaseInjector, inst: Instrumentation, ns: Namespace, pod: Pod)
    requires Acceptable(inst, pod) && base.validate(inst).Some?
    ensures InjectSpec(base, inst, ns, pod)
         == InjectResult(pod, Some(ValidationError(base.validate(inst).value)))
  {
  }

  /** The conflict reported is the first of the four checks that hits, and none hits exactly when there is none. */
  lemma FirstConflictIsFirstHit(containerEnv: seq<EnvVar>, specEnv: seq<EnvVar>)
    ensures FirstConflict(containerEnv, specEnv).None?
        <==> forall j :: 0 <= j < |MarkerChecks| ==> !Hits(MarkerChecks[j], containerEnv, specEnv)
    ensures FirstConflict(containerEnv, specEnv).Some? ==>
      exists j :: 0 <= j < |MarkerChecks|
        && Hits(MarkerChecks[j], containerEnv, specEnv)
        && (forall k :: 0 <= k < j ==> !Hits(MarkerChecks[k], containerEnv, specEnv))
        && FirstConflict(containerEnv, specEnv) == Some(ConflictError(MarkerChecks[j].0, MarkerChecks[j].1))
  {
    var hits := seq(4, j requires 0 <= j < 4 => Hits(MarkerChecks[j], containerEnv, specEnv));
    if hits[0] {
      assert Hits(MarkerChecks[0], containerEnv, specEnv);
    } else if hits[1] {
      assert Hits(MarkerChecks[1], containerEnv, specEnv);
    } else if hits[2] {
      assert Hits(MarkerChecks[2], containerEnv, specEnv);
    } else if hits[3] {
      assert Hits(MarkerChecks[3], containerEnv, specEnv);
    }
  }

  /**
   * A marker already set in the container or in the agent's env: the pod comes
   * back unmodified with a conflict error that names a marker set at the
   * location it names.
   */
  lemma MarkerIsRefused(base: BaseInjector, inst: Instrumentation, ns: Namespace, pod: Pod)
    requires Acceptable(inst, pod) && base.validate(inst).None?
    requires !MarkersAbsent(inst, pod)
    ensures InjectSpec(base, inst, ns, pod).pod == pod
    ensures InjectSpec(base, inst, ns, pod).err.Some?
    ensures var e := InjectSpec(base, inst, ns, pod).err.value;
      && e.ConflictError?
      && e.variable in {EnvCoreClrNewrelicHome, EnvFrameworkNewrelicHome}
      && HasEnv(if e.location == InContainer then pod.containers[0].env else inst.spec.agent.env, e.variable)
  {
  }

  /**
   * A nil error on an acceptable pod means every check passed, and the pod
   * returned is the config collaborator's answer on the staged pod.
   */
  lemma SuccessIsDelegatedStaging(base: BaseInjector, inst: Instrumentation, ns: Namespace, pod: Pod)
    requires Acceptable(inst, pod)
    ensures InjectSpec(base, inst, ns, pod).err.None?
        <==> base.validate(inst).None? && MarkersAbsent(inst, pod)
    ensures InjectSpec(base, inst, ns, pod).err.None? ==>
      InjectSpec(base, inst, ns, pod).pod
        == base.injectNewrelicConfig(inst.spec.resource, ns, Staged(inst, pod), 0, inst.spec.licenseKeySecret)
  {
  }

  // -------------------------------------------------------------- env vars

  lemma EnvNamesOfMerge(env: seq<EnvVar>, add: seq<EnvVar>)
    ensures EnvNames(MergeEnv(env, add)) == EnvNames(env) + EnvNames(add)
  {
    forall n ensures n in EnvNames(MergeEnv(env, add)) <==> n in EnvNames(env) + EnvNames(add) {
      MergeEnvNames(env, add, n);
      HasEnvIffInNames(MergeEnv(env, add), n);
      HasEnvIffInNames(env, n);
      HasEnvIffInNames(add, n);
    }
  }

  /**
   * The instrumented env is the container's own list, then the agent's
   * variables with new names (in the agent's order), then the profiler
   * variables with new names (in the order they are set).
   */
  lemma StagedEnvLayout(inst: Instrumentation, pod: Pod)
    requires |pod.containers| > 0
    ensures var env := pod.containers[0].env;
      Staged(inst, pod).containers[0].env
        == env
         + FirstOccurrences(inst.spec.agent.env, EnvNames(env))
         + FirstOccurrences(FixedEnv, EnvNames(env) + EnvNames(inst.spec.agent.env))
  {
    var env := pod.containers[0].env;
    var specEnv := inst.spec.agent.env;
    MergeEnvSplit(env, specEnv);
    MergeEnvSplit(MergeEnv(env, specEnv), FixedEnv);
    EnvNamesOfMerge(env, specEnv);
  }

  /**
   * User values win: a name the container defined keeps its value; otherwise
   * the agent's first value for it; otherwise the profiler constant.
   */
  lemma StagedEnvValue(inst: Instrumentation, pod: Pod, name: string)
    requires |pod.containers| > 0
    ensures var env := pod.containers[0].env;
      Lookup(Staged(inst, pod).containers[0].env, name)
        == if HasEnv(env, name) then Lookup(env, name)
           else if HasEnv(inst.spec.agent.env, name) then Lookup(inst.spec.agent.env, name)
           else Lookup(FixedEnv, name)
  {
    var env := pod.containers[0].env;
    var specEnv := inst.spec.agent.env;
    MergeEnvLookup(MergeEnv(env, specEnv), FixedEnv, name);
    MergeEnvLookup(env, specEnv, name);
    MergeEnvNames(env, specEnv, name);
  }

  /** Each of the eight profiler variables is defined after staging. */
  lemma StagedDefinesProfilerEnv(inst: Instrumentation, pod: Pod)
    requires |pod.containers| > 0
    ensures forall j :: 0 <= j < |FixedEnv| ==> HasEnv(Staged(inst, pod).containers[0].env, FixedEnv[j].name)
  {
    var env := pod.containers[0].env;
    var specEnv := inst.spec.agent.env;
    forall j | 0 <= j < |FixedEnv| ensures HasEnv(Staged(inst, pod).containers[0].env, FixedEnv[j].name) {
      MergeEnvNames(MergeEnv(env, specEnv), FixedEnv, FixedEnv[j].name);
      assert HasEnv(FixedEnv, FixedEnv[j].name);
    }
  }

  /** In the profiler table, CORECLR_NEWRELIC_HOME is bound to the .NET Core install path. */
  lemma FixedEnvCoreHome()
    ensures Lookup(FixedEnv, EnvCoreClrNewrelicHome) == Some(CoreClrNewrelicHomePath)
  {
    assert FixedEnv[3].name == EnvCoreClrNewrelicHome;
    assert FixedEnv[0].name != EnvCoreClrNewrelicHome;
    assert FixedEnv[1].name != EnvCoreClrNewrelicHome;
    assert FixedEnv[2].name != EnvCoreClrNewrelicHome;
    LookupFirst(FixedEnv, 3);
  }

  /** In the profiler table, NEWRELIC_HOME is bound to the .NET Framework install path. */
  lemma FixedEnvFrameworkHome()
    ensures Lookup(FixedEnv, EnvFrameworkNewrelicHome) == Some(FrameworkNewrelicHomePath)
  {
    assert FixedEnv[7].name == EnvFrameworkNewrelicHome;
    assert FixedEnv[0].name != EnvFrameworkNewrelicHome;
    assert FixedEnv[1].name != EnvFrameworkNewrelicHome;
    assert FixedEnv[2].name != EnvFrameworkNewrelicHome;
    assert FixedEnv[3].name != EnvFrameworkNewrelicHome;
    assert FixedEnv[4].name != EnvFrameworkNewrelicHome;
    assert FixedEnv[5].name != EnvFrameworkNewrelicHome;
    assert FixedEnv[6].name != EnvFrameworkNewrelicHome;
    LookupFirst(FixedEnv, 7);
  }

  /** The eight profiler variables carry eight different names. */
  lemma FixedEnvNamesUnique()
    ensures UniqueEnvNames(FixedEnv)
  {
    // all lengths differ except those of CORECLR_PROFILER_PATH and CORECLR_NEWRELIC_HOME
    var lengths := seq(|FixedEnv|, i requires 0 <= i < |FixedEnv| => |FixedEnv[i].name|);
    assert lengths == [24, 16, 21, 21, 20, 12, 17, 13];
    assert FixedEnv[2].name[8] != FixedEnv[3].name[8];
  }

  /** With both markers absent, both home variables get the install paths of the source. */
  lemma StagedSetsHomes(inst: Instrumentation, pod: Pod)
    requires |pod.containers| > 0 && MarkersAbsent(inst, pod)
    ensures Lookup(Staged(inst, pod).containers[0].env, EnvCoreClrNewrelicHome) == Some(CoreClrNewrelicHomePath)
    ensures Lookup(Staged(inst, pod).containers[0].env, EnvFrameworkNewrelicHome) == Some(FrameworkNewrelicHomePath)
  {
    StagedEnvValue(inst, pod, EnvCoreClrNewrelicHome);
    StagedEnvValue(inst, pod, EnvFrameworkNewrelicHome);
    FixedEnvCoreHome();
    FixedEnvFrameworkHome();
  }

  /** If the container's env names were unique, they still are, whatever the agent's env repeats. */
  lemma StagedKeepsEnvUnique(inst: Instrumentation, pod: Pod)
    requires |pod.containers| > 0 && UniqueEnvNames(pod.containers[0].env)
    ensures UniqueEnvNames(Staged(inst, pod).containers[0].env)
  {
    var env := pod.containers[0].env;
    MergeEnvKeepsUnique(env, inst.spec.agent.env);
    MergeEnvKeepsUnique(MergeEnv(env, inst.spec.agent.env), FixedEnv);
  }

  // ------------------------------------------------ mounts, volumes, init

  /** The shared-volume mount is appended only when missing, so it is present once and never twice. */
  lemma StagedMount(inst: Instrumentation, pod: Pod)
    requires |pod.containers| > 0
    ensures var c := pod.containers[0];
      Staged(inst, pod).containers[0].volumeMounts
        == c.volumeMounts + (if IsContainerVolumeMissing(c, VolumeName) then [InstrumentationMount] else [])
    ensures !IsContainerVolumeMissing(Staged(inst, pod).containers[0], VolumeName)
    ensures UniqueMountNames(pod.containers[0].volumeMounts)
        ==> UniqueMountNames(Staged(inst, pod).containers[0].volumeMounts)
  {
    var c := pod.containers[0];
    var ms := Staged(inst, pod).containers[0].volumeMounts;
    if IsContainerVolumeMissing(c, VolumeName) {
      assert ms[|ms| - 1].name == VolumeName;
    } else {
      assert ms == c.volumeMounts + [];
    }
  }

  /**
   * The init container and the pod volume are added together, once: the init
   * container when none has its name, the volume when additionally no volume
   * has its name.
   */
  lemma StagedInitContainerAndVolume(inst: Instrumentation, pod: Pod)
    requires |pod.containers| > 0
    ensures var missing := IsInitContainerMissing(pod, DotnetInitContainerName);
      && Staged(inst, pod).initContainers
           == pod.initContainers + (if missing then [StagingInitContainer(inst.spec.agent.image)] else [])
      && Staged(inst, pod).volumes
           == pod.volumes + (if missing && IsPodVolumeMissing(pod, VolumeName) then [Volume(VolumeName, EmptyDir)] else [])
    ensures !IsInitContainerMissing(Staged(inst, pod), DotnetInitContainerName)
    ensures UniqueContainerNames(pod.initContainers) ==> UniqueContainerNames(Staged(inst, pod).initContainers)
    ensures UniqueVolumeNames(pod.volumes) ==> UniqueVolumeNames(Staged(inst, pod).volumes)
  {
    var s := Staged(inst, pod);
    if IsInitContainerMissing(pod, DotnetInitContainerName) {
      assert s.initContainers[|s.initContainers| - 1].name == DotnetInitContainerName;
    } else {
      assert s.initContainers == pod.initContainers + [];
    }
    assert s.volumes == pod.volumes + [] || IsPodVolumeMissing(pod, VolumeName);
  }

  /** The new init container: the agent's image, the copy command, one mount of the shared volume. */
  lemma StagingInitContainerShape(image: string)
    ensures var ic := StagingInitContainer(image);
      && ic.name == InitContainerName + "-dotnetEdge-windows"
      && ic.image == image
      && ic.command == ["cmd", "/C", "xcopy C:\\instrumentation C:\\newrelic-instrumentation /E /I /H /Y"]
      && ic.volumeMounts == [VolumeMount(VolumeName, "C:\\newrelic-instrumentation")]
  {
  }

  /**
   * If the pod kept the volume whenever it had the init container (as a pod
   * this injector staged does), the mount added to the first container is
   * backed by a pod volume of that name.
   */
  lemma StagedMountIsBacked(inst: Instrumentation, pod: Pod)
    requires |pod.containers| > 0
    requires !IsInitContainerMissing(pod, DotnetInitContainerName) ==> !IsPodVolumeMissing(pod, VolumeName)
    ensures !IsPodVolumeMissing(Staged(inst, pod), VolumeName)
  {
    var s := Staged(inst, pod);
    if IsInitContainerMissing(pod, DotnetInitContainerName) && IsPodVolumeMissing(pod, VolumeName) {
      assert s.volumes[|s.volumes| - 1].name == VolumeName;
    }
  }

  /**
   * Only the first container changes, and in it only the env list and the
   * mounts; every other container is the same.
   */
  lemma StagedOnlyFirstContainer(inst: Instrumentation, pod: Pod)
    requires |pod.containers| > 0
    ensures |Staged(inst, pod).containers| == |pod.containers|
    ensures Staged(inst, pod).containers[1..] == pod.containers[1..]
    ensures var c, c' := pod.containers[0], Staged(inst, pod).containers[0];
      c'.name == c.name && c'.image == c.image && c'.command == c.command
  {
  }

  // ------------------------------------------------------------ idempotence

  /** Instrumenting an instrumented container again changes nothing. */
  lemma InstrumentedContainerIdempotent(c: Container, specEnv: seq<EnvVar>)
    ensures InstrumentedContainer(InstrumentedContainer(c, specEnv), specEnv) == InstrumentedContainer(c, specEnv)
  {
    var c1 := InstrumentedContainer(c, specEnv);
    var merged := MergeEnv(c.env, specEnv);
    forall i | 0 <= i < |specEnv| ensures HasEnv(c1.env, specEnv[i].name) {
      MergeEnvNames(c.env, specEnv, specEnv[i].name);
      assert HasEnv(specEnv, specEnv[i].name);
      MergeEnvNames(merged, FixedEnv, specEnv[i].name);
    }
    MergeEnvCovered(c1.env, specEnv);
    MergeEnvIdempotent(merged, FixedEnv);
    if IsContainerVolumeMissing(c, VolumeName) {
      assert c1.volumeMounts[|c1.volumeMounts| - 1].name == VolumeName;
    }
  }

  /** The pod-level step is guarded by the init container's name, so a second run adds nothing. */
  lemma StagePodIdempotent(p: Pod, image: string)
    ensures StagePod(StagePod(p, image), image) == StagePod(p, image)
  {
    var p1 := StagePod(p, image);
    if IsInitContainerMissing(p, DotnetInitContainerName) {
      assert p1.initContainers[|p1.initContainers| - 1].name == DotnetInitContainerName;
    }
  }

  /**
   * Staging a staged pod again changes nothing: the merge, the mount and the
   * init container are all guarded, so the env merge alone would not corrupt
   * a pod even without the marker checks.
   */
  lemma StagedIdempotent(inst: Instrumentation, pod: Pod)
    requires |pod.containers| > 0
    ensures Staged(inst, Staged(inst, pod)) == Staged(inst, pod)
  {
    var specEnv, image := inst.spec.agent.env, inst.spec.agent.image;
    var c1 := InstrumentedContainer(pod.containers[0], specEnv);
    var p1 := pod.(containers := pod.containers[0 := c1]);
    var s := StagePod(p1, image);
    assert s.containers == p1.containers;
    InstrumentedContainerIdempotent(pod.containers[0], specEnv);
    assert s.(containers := s.containers[0 := InstrumentedContainer(c1, specEnv)]) == s;
    StagePodIdempotent(p1, image);
  }

  /**
   * A second `Inject` on a pod the first one instrumented is refused with a
   * conflict on CORECLR_NEWRELIC_HOME in the container, the pod unchanged; a
   * pod the first one skipped is skipped again.
   */
  lemma ReinjectionRefused(base: BaseInjector, inst: Instrumentation, ns: Namespace, pod: Pod)
    requires KeepsFirstContainerEnv(base.injectNewrelicConfig)
    requires InjectSpec(base, inst, ns, pod).err.None?
    ensures var once := InjectSpec(base, inst, ns, pod).pod;
      InjectSpec(base, inst, ns, once)
        == if Acceptable(inst, pod) then InjectResult(once, Some(ConflictError(EnvCoreClrNewrelicHome, InContainer)))
           else InjectResult(once, None)
  {
    if Acceptable(inst, pod) {
      var s := Staged(inst, pod);
      var once := InjectSpec(base, inst, ns, pod).pod;
      assert once == base.injectNewrelicConfig(inst.spec.resource, ns, s, 0, inst.spec.licenseKeySecret);
      assert s.containers[0].env <= once.containers[0].env;
      StagedDefinesProfilerEnv(inst, pod);
      assert HasEnv(s.containers[0].env, FixedEnv[3].name);
      var k :| 0 <= k < |s.containers[0].env| && s.containers[0].env[k].name == EnvCoreClrNewrelicHome;
      assert once.containers[0].env[k].name == EnvCoreClrNewrelicHome;
    }
  }

  // -------------------------------------------------------------- scenarios

  /**
   * A first container with no env vars and no mounts, in a pod with no volumes
   * and no init containers, and agent env vars with distinct names that the
   * profiler table does not use (FOO=BAR, say): the env becomes the agent's
   * variables followed by the eight profiler variables in order, with one
   * mount, one emptyDir volume and one init container added.
   */
  lemma FreshPodScenario(inst: Instrumentation, pod: Pod)
    requires |pod.containers| > 0
    requires pod.containers[0].env == [] && pod.containers[0].volumeMounts == []
    requires pod.volumes == [] && pod.initContainers == []
    requires UniqueEnvNames(inst.spec.agent.env)
    requires forall i :: 0 <= i < |inst.spec.agent.env| ==> !HasEnv(FixedEnv, inst.spec.agent.env[i].name)
    ensures Staged(inst, pod).containers[0].env == inst.spec.agent.env + FixedEnv
    ensures Staged(inst, pod).containers[0].volumeMounts == [InstrumentationMount]
    ensures Staged(inst, pod).volumes == [Volume(VolumeName, EmptyDir)]
    ensures Staged(inst, pod).initContainers == [StagingInitContainer(inst.spec.agent.image)]
  {
    var specEnv := inst.spec.agent.env;
    StagedEnvLayout(inst, pod);
    assert EnvNames([]) == {};
    FirstOccurrencesAllNew(specEnv, {});
    FixedEnvNamesUnique();
    forall i | 0 <= i < |FixedEnv| ensures FixedEnv[i].name !in {} + EnvNames(specEnv) {
      forall k | 0 <= k < |specEnv| ensures specEnv[k].name != FixedEnv[i].name {
        assert !HasEnv(FixedEnv, specEnv[k].name);
      }
      HasEnvIffInNames(specEnv, FixedEnv[i].name);
    }
    FirstOccurrencesAllNew(FixedEnv, {} + EnvNames(specEnv));
    assert [] + specEnv == specEnv;
  }

  /** Every name of `add` is new and distinct from the others, so all of `add` is appended. */
  lemma {:induction false} FirstOccurrencesAllNew(add: seq<EnvVar>, seen: set<string>)
    requires UniqueEnvNames(add)
    requires forall i :: 0 <= i < |add| ==> add[i].name !in seen
    ensures FirstOccurrences(add, seen) == add
    decreases |add|
  {
    if add != [] {
      FirstOccurrencesAllNew(add[1..], seen + {add[0].name});
      assert [add[0]] + add[1..] == add;
    }
  }

  /**
   * The four conflict texts are pairwise different: the text alone tells which
   * marker was found and where.
   */
  lemma ConflictMessagesDistinct(v1: string, l1: EnvLocation, v2: string, l2: EnvLocation)
    requires v1 in {EnvCoreClrNewrelicHome, EnvFrameworkNewrelicHome}
    requires v2 in {EnvCoreClrNewrelicHome, EnvFrameworkNewrelicHome}
    requires Message(ConflictError(v1, l1)) == Message(ConflictError(v2, l2))
    ensures v1 == v2 && l1 == l2
  {
    var m := Message(ConflictError(v1, l1));
    assert m[0] == v1[0] && m[0] == v2[0];
    assert EnvCoreClrNewrelicHome[0] != EnvFrameworkNewrelicHome[0];
    var p1, p2 := LocationPhrase(l1), LocationPhrase(l2);
    assert m[|m| - 1] == p1[|p1| - 1] && m[|m| - 1] == p2[|p2| - 1];
    assert LocationPhrase(InContainer)[12] != LocationPhrase(InSpec)[28];
  }

  /**
   * The container already sets CORECLR_NEWRELIC_HOME: the pod comes back
   * unchanged and the error names the variable and the container.
   */
  lemma MarkerInContainerScenario(base: BaseInjector, inst: Instrumentation, ns: Namespace, value: string)
    requires inst.spec.agent.language == "dotnet-edge-windows" && base.validate(inst).None?
    ensures var pod := Pod([Container("app", "app:latest", [], [EnvVar("CORECLR_NEWRELIC_HOME", value)], [])], [], []);
      var r := InjectSpec(base, inst, ns, pod);
      && r.pod == pod
      && r.err == Some(ConflictError(EnvCoreClrNewrelicHome, InContainer))
      && Message(r.err.value) == "CORECLR_NEWRELIC_HOME" + " environment variable is already set in " + "the container"
  {
    var pod := Pod([Container("app", "app:latest", [], [EnvVar("CORECLR_NEWRELIC_HOME", value)], [])], [], []);
    assert pod.containers[0].env[0].name == EnvCoreClrNewrelicHome;
    assert FirstConflict(pod.containers[0].env, inst.spec.agent.env)
        == Some(ConflictError(EnvCoreClrNewrelicHome, InContainer));
  }
}
