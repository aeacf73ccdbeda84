/**
 * The part of the Kubernetes core/v1 types that the injector reads or writes.
 * `Pod` flattens `pod.Spec`: only its containers, init containers and volumes
 * are modelled. Every collection is an ordered sequence keyed by `name`.
 */
module Corev1 {

  /** An environment variable of a container; `name` is its key. */
  datatype EnvVar = EnvVar(name: string, value: string)

  /** A container's mount of a pod volume, referring to the volume by name. */
  datatype VolumeMount = VolumeMount(name: string, mountPath: string)

  /** Where a volume's storage comes from; the injector only ever creates `EmptyDir`. */
  datatype VolumeSource = EmptyDir | OtherSource(kind: string)

  datatype Volume = Volume(name: string, source: VolumeSource)

  /** Used both for application containers and for init containers. */
  datatype Container = Container(
    name: string,
    image: string,
    command: seq<string>,
    env: seq<EnvVar>,
    volumeMounts: seq<VolumeMount>)

  datatype Pod = Pod(
    containers: seq<Container>,
    initContainers: seq<Container>,
    volumes: seq<Volume>)

  /** The namespace of the pod; only forwarded to the config collaborator. */
  datatype Namespace = Namespace(name: string)
}
