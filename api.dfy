/** The slice of the Kubernetes API (core v1 and extensions v1beta1) that the
    manifest synthesis reads or writes. Fields the synthesis never looks at are
    not represented. */
module Api {
  import opened Wrappers

  /** A Go `map[string]string` that may be nil: `None` is nil, `Some(m)` is a
      (possibly empty) allocated map. */
  type Labels = Option<map<string, string>>

  /** apiVersion and kind; both empty until the object is stamped. */
  datatype TypeMeta = TypeMeta(apiVersion: string, kind: string)

  const Unstamped := TypeMeta("", "")

  datatype ObjectMeta = ObjectMeta(name: string, labels: Labels)

  // ---- pods ----

  datatype ConfigMapKeySelector = ConfigMapKeySelector(configMapName: string, key: string)

  /** Only the ConfigMap-key source is read; other sources are `None` here. */
  datatype EnvVarSource = EnvVarSource(configMapKeyRef: Option<ConfigMapKeySelector>)

  datatype EnvVar = EnvVar(name: string, value: string, valueFrom: Option<EnvVarSource>)

  datatype VolumeMount = VolumeMount(name: string, mountPath: string)

  datatype Container = Container(name: string, image: string, env: seq<EnvVar>, volumeMounts: seq<VolumeMount>)

  datatype VolumeSource =
    | ClaimSource(claimName: string)
    | ConfigMapSource(configMapName: string)
    | OtherSource

  datatype Volume = Volume(name: string, source: VolumeSource)

  datatype PodSpec = PodSpec(containers: seq<Container>, volumes: seq<Volume>)

  datatype PodTemplateSpec = PodTemplateSpec(meta: ObjectMeta, spec: PodSpec)

  datatype DeploymentSpec = DeploymentSpec(replicas: Option<int>, template: PodTemplateSpec)

  // ---- services and ingresses ----

  datatype ServiceType = Unspecified | ClusterIP | NodePort | LoadBalancer | ExternalName

  datatype ServicePort = ServicePort(name: string, port: int)

  datatype ServiceSpec = ServiceSpec(serviceType: ServiceType, ports: seq<ServicePort>, selector: map<string, string>)

  datatype IntOrString = IntValue(intValue: int) | StringValue(stringValue: string)

  datatype IngressBackend = IngressBackend(serviceName: string, servicePort: IntOrString)

  datatype HTTPIngressPath = HTTPIngressPath(path: string, backend: IngressBackend)

  datatype HTTPIngressRuleValue = HTTPIngressRuleValue(paths: seq<HTTPIngressPath>)

  datatype IngressRule = IngressRule(host: string, http: Option<HTTPIngressRuleValue>)

  datatype IngressSpec = IngressSpec(backend: Option<IngressBackend>, rules: seq<IngressRule>)

  // ---- storage ----

  datatype AccessMode = ReadWriteOnce | ReadOnlyMany | ReadWriteMany

  /** A parsed resource quantity; its canonical form is whatever the parser produced. */
  datatype Quantity = Quantity(canonical: string)

  datatype ClaimSpec = ClaimSpec(accessModes: seq<AccessMode>, storage: Quantity)

  // ---- the objects the synthesis emits ----

  datatype Object =
    | Deployment(typeMeta: TypeMeta, meta: ObjectMeta, deploymentSpec: DeploymentSpec)
    | ConfigMap(typeMeta: TypeMeta, meta: ObjectMeta, data: map<string, string>)
    | Service(typeMeta: TypeMeta, meta: ObjectMeta, serviceSpec: ServiceSpec)
    | Ingress(typeMeta: TypeMeta, meta: ObjectMeta, ingressSpec: IngressSpec)
    | PersistentVolumeClaim(typeMeta: TypeMeta, meta: ObjectMeta, claimSpec: ClaimSpec)
}
