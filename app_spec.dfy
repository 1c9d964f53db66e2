/** The parts of the application description (`spec.App`) that are not plain
    Kubernetes API types. */
module AppSpec {
  import opened Api

  /** One service the user asks for: a Service spec, optional ingress rules and
      an optional full ingress spec used when several rules are given. */
  datatype ServiceIntent = ServiceIntent(name: string, spec: ServiceSpec, rules: seq<IngressRule>, ingressSpec: IngressSpec)

  /** A persistent volume the user describes by name: the pod volume it stands
      for, the requested size and the requested access modes, all as text. */
  datatype PersistentVolume = PersistentVolume(volume: Volume, size: string, accessModes: seq<string>)
}
