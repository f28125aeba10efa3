/** The fields of the Kubernetes Pod API that the mutation engine reads or writes. */
module Kube {
  import opened Wrappers

  datatype VolumeMount = VolumeMount(name: string, mountPath: string)

  /** A volume; `configMap` is the name of a referenced ConfigMap and `secret`
      the `SecretName` of a Secret source, each absent when the source is another kind. */
  datatype Volume = Volume(name: string, configMap: Option<string>, secret: Option<string>)

  /** An environment source; the names of the referenced ConfigMap and Secret. */
  datatype EnvFromSource = EnvFromSource(configMapRef: Option<string>, secretRef: Option<string>)

  datatype Container = Container(name: string, volumeMounts: seq<VolumeMount>, envFrom: seq<EnvFromSource>)

  /** The value of a pod spec at one moment. */
  datatype SpecState = SpecState(containers: seq<Container>, volumes: seq<Volume>)

  /** The pod spec that handlers update in place through a pointer. */
  class PodSpec {
    var containers: seq<Container>
    var volumes: seq<Volume>

    constructor (s: SpecState)
      ensures State() == s
    {
      containers := s.containers;
      volumes := s.volumes;
    }

    function State(): SpecState
      reads this
    {
      SpecState(containers, volumes)
    }
  }
}
