# .NET-on-Windows APM injector, modelled in Dafny

This project models `DotnetEdgeWindowsInjector`, the pod mutator of the
New Relic Kubernetes agents operator for Windows that instruments .NET
applications. Given an `Instrumentation` resource and a pod, `Inject`:

1. skips the pod silently (pod unchanged, nil error) unless the agent's
   language is `dotnet-edge-windows` and the pod has a container;
2. returns the validator's error, pod unchanged;
3. refuses an already-instrumented pod: if `CORECLR_NEWRELIC_HOME` or
   `NEWRELIC_HOME` is set in the first container's env or in the agent's
   env (checked in that fixed order), it returns the pod unchanged and an
   error naming the variable and the location;
4. merges the agent's env vars into the first container, set-if-absent, then
   sets the eight CLR profiler variables (.NET Core first, then .NET
   Framework), also set-if-absent, so a user's value always wins;
5. adds the mount of the shared volume to the first container if missing,
   and, if the init container named `initContainerName + "-dotnetEdge-windows"`
   is missing, adds it (the agent image, an `xcopy` command, one mount) and
   the emptyDir volume (if that volume is missing);
6. hands the pod to the config collaborator (`injectNewrelicConfig`).

Files and modules:

- `wrappers.dfy` (`Wrappers`): `Option`.
- `corev1.dfy` (`Corev1`), `v1alpha2.dfy` (`V1alpha2`): the fields of `Pod`,
  `Container`, `EnvVar`, `VolumeMount`, `Volume` and `Instrumentation` that
  the injector uses; every collection is a sequence keyed by `name`.
- `apm_helpers.dfy` (`ApmHelpers`): the package helpers the injector calls
  (`getIndexOfEnv`, `setEnvVar`, the three "missing" checks, `volumeName`,
  `initContainerName`), the base injector's collaborators, and `MergeEnv`,
  the set-if-absent merge, with its characterising lemmas.
- `dotnet_edge_windows.dfy` (`DotnetEdgeWindows`): the constants, `Language`,
  `Acceptable`, the method `Inject` and its specification `InjectSpec`
  (with `Staged`, the pod handed to the config collaborator).
- `dotnet_edge_windows_properties.dfy` (`DotnetEdgeWindowsProperties`): the
  properties of `Inject`.

Modelling choices:

- Go passes the pod to `Inject` by value, but that copy shares its
  `Containers` backing array with the caller's pod: `container` (line 84)
  points into the caller's own first container, so the env appends (lines
  111-125) and the mount append (lines 127-132) change the caller's
  `Containers[0].Env` and `.VolumeMounts` in place. Only the appends to
  `Volumes` (line 138) and `InitContainers` (line 148) reach the caller solely
  through the returned pod. The model uses value semantics:
  `Inject` updates local copies of the first container and of the pod, step by
  step as the source does (with a `while` loop for the agent env merge), and
  returns the new pod. It is proved equal to `InjectSpec`.
- The Go source updates `pod.Spec.Containers[0]` through the pointer as it
  goes; the model writes the container back into the pod once, after its last
  change and before the pod-level step, which reads only init containers and
  volumes.
- `validate` and `injectNewrelicConfig` are collaborators whose code is not
  part of this model. They are the two function-valued fields of
  `BaseInjector`, so every property holds for any validator and any config
  collaborator (the one property that depends on the collaborator states its
  assumption as a precondition).
- The helpers `getIndexOfEnv`, `setEnvVar`, `isContainerVolumeMissing`,
  `isPodVolumeMissing` and `isInitContainerMissing`: their code lives
  elsewhere in package `apm` and is not modelled here. Their behaviour is
  taken from their names and call sites:
  `getIndexOfEnv` returns the index of the first match or -1; `setEnvVar` with
  `false` appends the variable only if the name is absent and never
  overwrites; a "missing" check means that no element carries the name.
  `volumeName` and `initContainerName` are taken to be
  `"newrelic-instrumentation"`; every property is stated in terms of the two
  names, so none depends on these values.
- The resource requirements are read from `inst.Spec.Resource`, as line 159 of
  the code does.
- Go errors are the `InjectError` datatype (`ValidationError` carries the
  validator's message, `ConflictError` the variable and its location);
  `Message` gives the text the source builds.

## Model

| member | source | states |
|---|---|---|
| ApmHelpers.GetIndexOfEnv | src/apm/dotnetedgewindows.go:88-112 | returns -1 exactly when no variable has the name, otherwise the index of the first variable with that name |
| ApmHelpers.Lookup | src/apm/dotnetedgewindows.go:111-125 | the value seen for a name is defined exactly when the name is present, and is the value of an entry with that name |
| ApmHelpers.LookupFirst | src/apm/dotnetedgewindows.go:111-125 | a lookup answers with the value of the first entry that carries the name |
| ApmHelpers.SetEnvVar | src/apm/dotnetedgewindows.go:118-125 | `setEnvVar(c, name, value, false)` changes only the env list, and only by set-if-absent |
| ApmHelpers.AppendEnvIfAbsentLookup | src/apm/dotnetedgewindows.go:118-125 | set-if-absent keeps the old list as a prefix, adds at most one entry, keeps every defined value, and defines the name with the given value when it was absent |
| ApmHelpers.MergeEnv | src/apm/dotnetedgewindows.go:110-125 | merging keeps the old env list as a prefix: nothing is removed or overwritten |
| ApmHelpers.MergeEnvSplit | src/apm/dotnetedgewindows.go:110-125 | a merge equals the old list followed by the first entry of each new name, in the order of the added list |
| ApmHelpers.FirstOccurrencesFresh | src/apm/dotnetedgewindows.go:110-116 | what a merge appends has distinct names, none already present, all taken from the added list |
| ApmHelpers.MergeEnvLookup | src/apm/dotnetedgewindows.go:110-125 | after a merge a name already defined keeps its value; any other name takes the value of its first entry in the added list |
| ApmHelpers.MergeEnvNames | src/apm/dotnetedgewindows.go:110-125 | a merge defines a name exactly when the old list or the added list does |
| ApmHelpers.MergeEnvKeepsUnique | src/apm/dotnetedgewindows.go:110-125 | if the old env names were unique they stay unique, even when the added list repeats a name |
| ApmHelpers.MergeEnvCovered | src/apm/dotnetedgewindows.go:110-125 | merging variables whose names are all present already changes nothing |
| ApmHelpers.MergeEnvIdempotent | src/apm/dotnetedgewindows.go:110-125 | merging the same variables twice is the same as merging them once |
| DotnetEdgeWindows.Language | src/apm/dotnetedgewindows.go:60-62 | no contract: the registry key `dotnet-edge-windows`, which `Acceptable` compares with the agent's language |
| DotnetEdgeWindows.Acceptable | src/apm/dotnetedgewindows.go:64-72 | no contract: the source's condition at lines 65-70 (the injector's language and at least one container); SkipUnlessAcceptable and the cascade lemmas, which require it, state the gate |
| DotnetEdgeWindows.Message | src/apm/dotnetedgewindows.go:86-108 | a validation error keeps the validator's text; a conflict message (the texts built at lines 89, 95, 101 and 107) opens with the variable's name and ends with the phrase naming the location, `the container` or `the .NET instrumentation spec` |
| DotnetEdgeWindowsProperties.ConflictMessagesDistinct | src/apm/dotnetedgewindows.go:86-108 | the four conflict texts are pairwise different, so a text determines both the marker and its location |
| DotnetEdgeWindows.FirstConflict | src/apm/dotnetedgewindows.go:86-108 | no conflict exactly when neither marker is set in the container or the agent env; a conflict names a marker that is set at the location it names |
| ApmHelpers.IsContainerVolumeMissing | src/apm/dotnetedgewindows.go:127 | no contract: `isContainerVolumeMissing` holds when no mount of the container carries the name |
| ApmHelpers.IsPodVolumeMissing | src/apm/dotnetedgewindows.go:136 | no contract: `isPodVolumeMissing` holds when no volume of the pod carries the name |
| ApmHelpers.IsInitContainerMissing | src/apm/dotnetedgewindows.go:135 | no contract: `isInitContainerMissing` holds when no init container of the pod carries the name |
| DotnetEdgeWindows.FixedEnvSteps | src/apm/dotnetedgewindows.go:118-125 | the eight successive `setEnvVar` calls amount to merging the profiler table in its order |
| DotnetEdgeWindows.Inject | src/apm/dotnetedgewindows.go:74-162 | the step-by-step mutation (gate, validation, four marker checks, env loop, eight setters, mount, volume, init container, delegation) returns exactly `InjectSpec`'s pod and error |
| DotnetEdgeWindowsProperties.SkipUnlessAcceptable | src/apm/dotnetedgewindows.go:60-77 | a language other than `dotnet-edge-windows` or a pod without containers yields the pod unchanged and a nil error |
| DotnetEdgeWindowsProperties.ValidationErrorKeepsPod | src/apm/dotnetedgewindows.go:78-80 | a validation error is returned as it is, with the pod unchanged |
| DotnetEdgeWindowsProperties.FirstConflictIsFirstHit | src/apm/dotnetedgewindows.go:86-108 | the reported conflict is the first of the four checks (CORECLR/container, CORECLR/spec, NEWRELIC/container, NEWRELIC/spec) that hits, and there is none exactly when no check hits |
| DotnetEdgeWindowsProperties.MarkerIsRefused | src/apm/dotnetedgewindows.go:86-108 | with a marker set in the container or the agent env, the pod comes back unmodified with a conflict error naming a marker set at the named location |
| DotnetEdgeWindowsProperties.SuccessIsDelegatedStaging | src/apm/dotnetedgewindows.go:78-108 | on an accepted pod the error is nil exactly when validation passes and no marker is set, and then the result is the collaborator's answer on the staged pod, for container index 0 |
| DotnetEdgeWindowsProperties.StagedEnvLayout | src/apm/dotnetedgewindows.go:110-125 | the new env is the container's own list, then the agent's variables with new names in agent order, then the profiler variables with new names in the order they are set |
| DotnetEdgeWindowsProperties.StagedEnvValue | src/apm/dotnetedgewindows.go:110-125 | a name the container defined keeps its value; otherwise the agent's first value for it; otherwise the profiler constant |
| DotnetEdgeWindowsProperties.StagedDefinesProfilerEnv | src/apm/dotnetedgewindows.go:118-125 | each of the eight profiler variables is present after staging |
| DotnetEdgeWindowsProperties.FixedEnvCoreHome | src/apm/dotnetedgewindows.go:42-46 | the profiler table binds `CORECLR_NEWRELIC_HOME` to `C:\newrelic-instrumentation\netcore` |
| DotnetEdgeWindowsProperties.FixedEnvFrameworkHome | src/apm/dotnetedgewindows.go:32-36 | the profiler table binds `NEWRELIC_HOME` to `C:\newrelic-instrumentation\netframework` |
| DotnetEdgeWindowsProperties.FixedEnvNamesUnique | src/apm/dotnetedgewindows.go:29-42 | the eight profiler variables have eight different names |
| DotnetEdgeWindowsProperties.StagedSetsHomes | src/apm/dotnetedgewindows.go:121-125 | when no marker was set, both home variables end up with the source's install paths |
| DotnetEdgeWindowsProperties.StagedKeepsEnvUnique | src/apm/dotnetedgewindows.go:110-125 | if the container's env names were unique, they still are |
| DotnetEdgeWindowsProperties.StagedMount | src/apm/dotnetedgewindows.go:127-132 | the shared-volume mount at `C:\newrelic-instrumentation` is appended only when missing, is present afterwards, and unique mount names stay unique |
| DotnetEdgeWindowsProperties.StagedInitContainerAndVolume | src/apm/dotnetedgewindows.go:134-157 | the init container is appended only when missing, the emptyDir volume only when the init container and the volume are both missing; the init container is present afterwards and unique names stay unique |
| DotnetEdgeWindowsProperties.StagingInitContainerShape | src/apm/dotnetedgewindows.go:148-156 | the init container is named `initContainerName + "-dotnetEdge-windows"` (the constant at line 47), runs the agent image with the `xcopy` command and mounts only the shared volume |
| DotnetEdgeWindowsProperties.StagedMountIsBacked | src/apm/dotnetedgewindows.go:127-146 | if the pod had the volume whenever it had the init container, the mount added to the first container is backed by a pod volume |
| DotnetEdgeWindowsProperties.StagedOnlyFirstContainer | src/apm/dotnetedgewindows.go:82-84 | the container count is kept, containers at index 1 and above are untouched, and the first keeps its name, image and command |
| DotnetEdgeWindowsProperties.InstrumentedContainerIdempotent | src/apm/dotnetedgewindows.go:110-132 | instrumenting an instrumented container again changes nothing |
| DotnetEdgeWindowsProperties.StagePodIdempotent | src/apm/dotnetedgewindows.go:134-157 | the guarded pod-level step adds nothing the second time |
| DotnetEdgeWindowsProperties.StagedIdempotent | src/apm/dotnetedgewindows.go:110-157 | the mutation applied to its own result changes nothing, so even without the marker checks a second run would not duplicate anything |
| DotnetEdgeWindowsProperties.ReinjectionRefused | src/apm/dotnetedgewindows.go:86-90 | a second `Inject` on an instrumented pod returns it unchanged with the conflict on `CORECLR_NEWRELIC_HOME` in the container; a skipped pod is skipped again |
| DotnetEdgeWindowsProperties.FreshPodScenario | src/apm/dotnetedgewindows.go:110-157 | a bare container and distinct agent variables outside the profiler table give env = agent variables then the eight profiler variables in order, one mount, one emptyDir volume and one init container |
| DotnetEdgeWindowsProperties.MarkerInContainerScenario | src/apm/dotnetedgewindows.go:86-90 | a container that already sets `CORECLR_NEWRELIC_HOME` is returned unchanged with the error text naming the variable and the container |

## Left out

- The `init()` registration into `DefaultInjectorRegistry` (lines 52-54) and the registry itself: a start-up side effect whose code is not part of this model.
- The body of `validate` and of `injectNewrelicConfig`: not part of this model; both are arbitrary functions supplied in `BaseInjector`, and no property assumes anything of the validator.
- ReinjectionRefused: assumes that the config collaborator keeps at least one container and only extends the first container's env list, because its code (secret resolution) is not part of this model.
- The `true` (concatenating) mode of `setEnvVar`: `Inject` only ever passes `false`, and the helper's code is not part of this model.
- `context.Context`: only forwarded to the config collaborator, so it is not modelled.
- Go slice aliasing between the by-value pod and the caller's pod: `Inject` writes the new env and mounts into the caller's own first container through the shared `Containers` array (lines 84, 111-132), while the new volume and init container reach the caller only through the returned pod (lines 138, 148). The model uses value semantics and returns only the new pod, so it captures neither the in-place change of the caller's first container nor that difference between the two kinds of append.
- Kubernetes types beyond the fields used, and what `cmd /C xcopy` does at run time.
- A pod that already has the init container but not the volume gets the mount without a backing volume, exactly as the source does; StagedMountIsBacked states when the mount is backed.
