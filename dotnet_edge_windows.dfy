/**
 * The .NET-on-Windows injector (`DotnetEdgeWindowsInjector`): it instruments
 * the first container of a pod with both the .NET Core and the .NET Framework
 * CLR profiler, and stages the agent payload through an init container and a
 * shared emptyDir volume.
 *
 * Go passes the pod to `Inject` by value, so the model works on values: the
 * method updates local copies of the first container and of the pod, step by
 * step as the source does, and returns the new pod with an optional error.
 * `InjectSpec` states the same result as a function, and `Staged` is the pod
 * handed to the config collaborator; the properties are lemmas about them.
 */
module DotnetEdgeWindows {

  import opened Wrappers
  import opened Corev1
  import opened V1alpha2
  import opened ApmHelpers

  // .NET Framework profiler variables and their values
  const EnvFrameworkClrEnableProfiling: string := "COR_ENABLE_PROFILING"
  const EnvFrameworkClrProfiler: string := "COR_PROFILER"
  const EnvFrameworkClrProfilerPath: string := "COR_PROFILER_PATH"
  const EnvFrameworkNewrelicHome: string := "NEWRELIC_HOME"
  const FrameworkClrEnableProfilingEnabled: string := "1"
  const FrameworkClrProfilerId: string := "{71DA0A04-7777-4EC6-9643-7D28B46A8A41}"
  const FrameworkClrProfilerPath: string := "C:\\newrelic-instrumentation\\netframework\\NewRelic.Profiler.dll"
  const FrameworkNewrelicHomePath: string := "C:\\newrelic-instrumentation\\netframework"

  // .NET Core profiler variables and their values
  const EnvCoreClrEnableProfiling: string := "CORECLR_ENABLE_PROFILING"
  const EnvCoreClrProfiler: string := "CORECLR_PROFILER"
  const EnvCoreClrProfilerPath: string := "CORECLR_PROFILER_PATH"
  const EnvCoreClrNewrelicHome: string := "CORECLR_NEWRELIC_HOME"
  const CoreClrEnableProfilingEnabled: string := "1"
  const CoreClrProfilerId: string := "{36032161-FFC0-4B61-B559-F6C5D41BAE5A}"
  const CoreClrProfilerPath: string := "C:\\newrelic-instrumentation\\netcore\\NewRelic.Profiler.dll"
  const CoreClrNewrelicHomePath: string := "C:\\newrelic-instrumentation\\netcore"

  /** The name that marks this flavour's staging init container. */
  const DotnetInitContainerName: string := InitContainerName + "-dotnetEdge-windows"

  const InstrumentationMountPath: string := "C:\\newrelic-instrumentation"

  /** The mount of the shared volume, both in the instrumented and in the init container. */
  const InstrumentationMount: VolumeMount := VolumeMount(VolumeName, InstrumentationMountPath)

  /** The init container's command: copy the image's payload into the shared volume. */
  const CopyCommand: seq<string> :=
    ["cmd", "/C", "xcopy C:\\instrumentation C:\\newrelic-instrumentation /E /I /H /Y"]

  /** The eight profiler variables, in the order `Inject` sets them. */
  const FixedEnv: seq<EnvVar> := [
    EnvVar(EnvCoreClrEnableProfiling, CoreClrEnableProfilingEnabled),
    EnvVar(EnvCoreClrProfiler, CoreClrProfilerId),
    EnvVar(EnvCoreClrProfilerPath, CoreClrProfilerPath),
    EnvVar(EnvCoreClrNewrelicHome, CoreClrNewrelicHomePath),
    EnvVar(EnvFrameworkClrEnableProfiling, FrameworkClrEnableProfilingEnabled),
    EnvVar(EnvFrameworkClrProfiler, FrameworkClrProfilerId),
    EnvVar(EnvFrameworkClrProfilerPath, FrameworkClrProfilerPath),
    EnvVar(EnvFrameworkNewrelicHome, FrameworkNewrelicHomePath)
  ]

  /** Where a marker variable was found: the first container's env or the agent's env. */
  datatype EnvLocation = InContainer | InSpec

  /** The errors `Inject` returns: the validator's, or a marker that is already set. */
  datatype InjectError =
    | ValidationError(reason: string)
    | ConflictError(variable: string, location: EnvLocation)

  /** What `Inject` returns: the pod, and a nil (None) or non-nil error. */
  datatype InjectResult = InjectResult(pod: Pod, err: Option<InjectError>)

  /** How a conflict message names the location of the marker. */
  function LocationPhrase(location: EnvLocation): string
  {
    match location
    case InContainer => "the container"
    case InSpec => "the .NET instrumentation spec"
  }

  /**
   * The text of the Go error value: a conflict message opens with the
   * variable's name and closes with the phrase naming its location.
   */
  function Message(e: InjectError): (r: string)
    ensures e.ValidationError? ==> r == e.reason
    ensures e.ConflictError? ==> e.variable <= r && |r| > |e.variable|
    ensures e.ConflictError? ==>
      |r| >= |LocationPhrase(e.location)| && r[|r| - |LocationPhrase(e.location)|..] == LocationPhrase(e.location)
  {
    match e
    case ValidationError(reason) => reason
    case ConflictError(variable, location) =>
      variable + " environment variable is already set in " + LocationPhrase(location)
  }

  /** The registry key of this injector. */
  function Language(): string
  {
    "dotnet-edge-windows"
  }

  /**
   * `acceptable`: the agent's language is this injector's, and the pod has a
   * container, so that `Inject` may take the first one.
   */
  predicate Acceptable(inst: Instrumentation, pod: Pod)
  {
    inst.spec.agent.language == Language() && |pod.containers| > 0
  }

  /**
   * The marker checks, in the order the source makes them; the first hit is the
   * error, which names a marker really set at the location it names.
   */
  function FirstConflict(containerEnv: seq<EnvVar>, specEnv: seq<EnvVar>): (r: Option<InjectError>)
    ensures r.None? <==>
      forall m :: m in {EnvCoreClrNewrelicHome, EnvFrameworkNewrelicHome} ==> !HasEnv(containerEnv, m) && !HasEnv(specEnv, m)
    ensures r.Some? ==>
      && r.value.ConflictError?
      && r.value.variable in {EnvCoreClrNewrelicHome, EnvFrameworkNewrelicHome}
      && HasEnv(if r.value.location == InContainer then containerEnv else specEnv, r.value.variable)
  {
    if HasEnv(containerEnv, EnvCoreClrNewrelicHome) then Some(ConflictError(EnvCoreClrNewrelicHome, InContainer))
    else if HasEnv(specEnv, EnvCoreClrNewrelicHome) then Some(ConflictError(EnvCoreClrNewrelicHome, InSpec))
    else if HasEnv(containerEnv, EnvFrameworkNewrelicHome) then Some(ConflictError(EnvFrameworkNewrelicHome, InContainer))
    else if HasEnv(specEnv, EnvFrameworkNewrelicHome) then Some(ConflictError(EnvFrameworkNewrelicHome, InSpec))
    else None
  }

  /** The first container after the env merge, the eight profiler variables and the mount. */
  function InstrumentedContainer(c: Container, specEnv: seq<EnvVar>): Container
  {
    c.(env := MergeEnv(MergeEnv(c.env, specEnv), FixedEnv),
       volumeMounts := if IsContainerVolumeMissing(c, VolumeName)
                       then c.volumeMounts + [InstrumentationMount]
                       else c.volumeMounts)
  }

  /** The init container that stages the agent payload into the shared volume. */
  function StagingInitContainer(image: string): Container
  {
    Container(DotnetInitContainerName, image, CopyCommand, [], [InstrumentationMount])
  }

  /**
   * The pod-level step: when no init container has this flavour's name, add
   * the shared volume (if no volume has its name) and the staging init container.
   */
  function StagePod(p: Pod, image: string): Pod
  {
    if IsInitContainerMissing(p, DotnetInitContainerName) then
      p.(volumes := if IsPodVolumeMissing(p, VolumeName)
                    then p.volumes + [Volume(VolumeName, EmptyDir)]
                    else p.volumes,
         initContainers := p.initContainers + [StagingInitContainer(image)])
    else p
  }

  /** The pod `Inject` hands to the config collaborator after a successful check. */
  function Staged(inst: Instrumentation, pod: Pod): Pod
    requires |pod.containers| > 0
  {
    var c := InstrumentedContainer(pod.containers[0], inst.spec.agent.env);
    StagePod(pod.(containers := pod.containers[0 := c]), inst.spec.agent.image)
  }

  /** The whole of `Inject` as a function: gate, validation, conflicts, mutation, delegation. */
  function InjectSpec(base: BaseInjector, inst: Instrumentation, ns: Namespace, pod: Pod): InjectResult
  {
    if !Acceptable(inst, pod) then InjectResult(pod, None)
    else match base.validate(inst)
      case Some(reason) => InjectResult(pod, Some(ValidationError(reason)))
      case None =>
        match FirstConflict(pod.containers[0].env, inst.spec.agent.env)
        case Some(e) => InjectResult(pod, Some(e))
        case None =>
          var staged := Staged(inst, pod);
          InjectResult(base.injectNewrelicConfig(inst.spec.resource, ns, staged, 0, inst.spec.licenseKeySecret), None)
  }

  /** Running the eight profiler `setEnvVar` calls one after another is a merge of `FixedEnv`. */
  lemma FixedEnvSteps(env: seq<EnvVar>)
    ensures MergeEnv(env, FixedEnv)
         == AppendEnvIfAbsent(AppendEnvIfAbsent(AppendEnvIfAbsent(AppendEnvIfAbsent(
            AppendEnvIfAbsent(AppendEnvIfAbsent(AppendEnvIfAbsent(AppendEnvIfAbsent(env,
              FixedEnv[0]), FixedEnv[1]), FixedEnv[2]), FixedEnv[3]),
              FixedEnv[4]), FixedEnv[5]), FixedEnv[6]), FixedEnv[7])
  {
    var e1 := AppendEnvIfAbsent(env, FixedEnv[0]);
    var e2 := AppendEnvIfAbsent(e1, FixedEnv[1]);
    var e3 := AppendEnvIfAbsent(e2, FixedEnv[2]);
    var e4 := AppendEnvIfAbsent(e3, FixedEnv[3]);
    var e5 := AppendEnvIfAbsent(e4, FixedEnv[4]);
    var e6 := AppendEnvIfAbsent(e5, FixedEnv[5]);
    var e7 := AppendEnvIfAbsent(e6, FixedEnv[6]);
    var e8 := AppendEnvIfAbsent(e7, FixedEnv[7]);
    assert FixedEnv[7..][1..] == FixedEnv[8..];
    assert MergeEnv(e7, FixedEnv[7..]) == MergeEnv(e8, FixedEnv[8..]);
    assert FixedEnv[6..][1..] == FixedEnv[7..];
    assert MergeEnv(e6, FixedEnv[6..]) == MergeEnv(e7, FixedEnv[7..]);
    assert FixedEnv[5..][1..] == FixedEnv[6..];
    assert MergeEnv(e5, FixedEnv[5..]) == MergeEnv(e6, FixedEnv[6..]);
    assert FixedEnv[4..][1..] == FixedEnv[5..];
    assert MergeEnv(e4, FixedEnv[4..]) == MergeEnv(e5, FixedEnv[5..]);
    assert FixedEnv[3..][1..] == FixedEnv[4..];
    assert MergeEnv(e3, FixedEnv[3..]) == MergeEnv(e4, FixedEnv[4..]);
    assert FixedEnv[2..][1..] == FixedEnv[3..];
    assert MergeEnv(e2, FixedEnv[2..]) == MergeEnv(e3, FixedEnv[3..]);
    assert FixedEnv[1..][1..] == FixedEnv[2..];
    assert MergeEnv(e1, FixedEnv[1..]) == MergeEnv(e2, FixedEnv[2..]);
    assert FixedEnv[0..][1..] == FixedEnv[1..];
    assert MergeEnv(env, FixedEnv[0..]) == MergeEnv(e1, FixedEnv[1..]);
    assert FixedEnv[0..] == FixedEnv;
  }

  /**
   * `Inject`: skips a pod it does not accept, refuses an invalid
   * instrumentation or an already-instrumented pod without touching the pod,
   * and otherwise instruments the first container, adds the shared volume and
   * the staging init container when missing, and delegates to the config
   * collaborator.
   */
  method Inject(base: BaseInjector, inst: Instrumentation, ns: Namespace, pod: Pod)
    returns (out: Pod, err: Option<InjectError>)
    ensures InjectResult(out, err) == InjectSpec(base, inst, ns, pod)
  {
    if !Acceptable(inst, pod) {
      return pod, None;
    }
    var invalid := base.validate(inst);
    if invalid.Some? {
      return pod, Some(ValidationError(invalid.value));
    }

    var container := pod.containers[0];
    var specEnv := inst.spec.agent.env;

    var idx := GetIndexOfEnv(container.env, EnvCoreClrNewrelicHome);
    if idx > -1 {
      return pod, Some(ConflictError(EnvCoreClrNewrelicHome, InContainer));
    }
    idx := GetIndexOfEnv(specEnv, EnvCoreClrNewrelicHome);
    if idx > -1 {
      return pod, Some(ConflictError(EnvCoreClrNewrelicHome, InSpec));
    }
    idx := GetIndexOfEnv(container.env, EnvFrameworkNewrelicHome);
    if idx > -1 {
      return pod, Some(ConflictError(EnvFrameworkNewrelicHome, InContainer));
    }
    idx := GetIndexOfEnv(specEnv, EnvFrameworkNewrelicHome);
    if idx > -1 {
      return pod, Some(ConflictError(EnvFrameworkNewrelicHome, InSpec));
    }

    // the agent's env vars, appended in order when the container lacks the name
    var i := 0;
    while i < |specEnv|
      invariant 0 <= i <= |specEnv|
      invariant container == pod.containers[0].(env := container.env)
      invariant MergeEnv(container.env, specEnv[i..]) == MergeEnv(pod.containers[0].env, specEnv)
    {
      assert specEnv[i..][1..] == specEnv[i + 1..];
      var found := GetIndexOfEnv(container.env, specEnv[i].name);
      if found == -1 {
        container := container.(env := container.env + [specEnv[i]]);
      }
      i := i + 1;
    }
    ghost var afterSpec := container.env;

    container := SetEnvVar(container, EnvCoreClrEnableProfiling, CoreClrEnableProfilingEnabled);
    container := SetEnvVar(container, EnvCoreClrProfiler, CoreClrProfilerId);
    container := SetEnvVar(container, EnvCoreClrProfilerPath, CoreClrProfilerPath);
    container := SetEnvVar(container, EnvCoreClrNewrelicHome, CoreClrNewrelicHomePath);
    container := SetEnvVar(container, EnvFrameworkClrEnableProfiling, FrameworkClrEnableProfilingEnabled);
    container := SetEnvVar(container, EnvFrameworkClrProfiler, FrameworkClrProfilerId);
    container := SetEnvVar(container, EnvFrameworkClrProfilerPath, FrameworkClrProfilerPath);
    container := SetEnvVar(container, EnvFrameworkNewrelicHome, FrameworkNewrelicHomePath);
    FixedEnvSteps(afterSpec);

    if IsContainerVolumeMissing(container, VolumeName) {
      container := container.(volumeMounts := container.volumeMounts + [InstrumentationMount]);
    }

    var staged := pod.(containers := pod.containers[0 := container]);
    if IsInitContainerMissing(staged, DotnetInitContainerName) {
      if IsPodVolumeMissing(staged, VolumeName) {
        staged := staged.(volumes := staged.volumes + [Volume(VolumeName, EmptyDir)]);
      }
      staged := staged.(initContainers := staged.initContainers + [StagingInitContainer(inst.spec.agent.image)]);
    }

    out := base.injectNewrelicConfig(inst.spec.resource, ns, staged, 0, inst.spec.licenseKeySecret);
    err := None;
  }
}
