/** The fields of the `Instrumentation` custom resource that the injector consumes. */
module V1alpha2 {

  import opened Corev1

  /** Resource limits and requests, uninterpreted here: they are only forwarded. */
  type ResourceRequirements = map<string, string>

  /** `inst.Spec.Agent`: which runtime flavour, which image, which extra env vars (in order). */
  datatype Agent = Agent(language: string, image: string, env: seq<EnvVar>)

  /** `inst.Spec`; the license key secret is an opaque reference (a secret name). */
  datatype InstrumentationSpec = InstrumentationSpec(
    agent: Agent,
    resource: ResourceRequirements,
    licenseKeySecret: string)

  datatype Instrumentation = Instrumentation(spec: InstrumentationSpec)
}
