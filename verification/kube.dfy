/**
 * The Kubernetes API values the server provisioning touches, reduced to the
 * fields it sets or reads: object metadata, ConfigMap and Secret artifacts,
 * and the container and volume descriptors of a pod.
 */
module Kube {

  newtype byte = x: int | 0 <= x < 256

  type Bytes = seq<byte>

  /** Container ports and endpoint ports are 32-bit integers. */
  newtype int32 = x: int | -0x8000_0000 <= x < 0x8000_0000

  datatype NamespacedName = NamespacedName(namespace: string, name: string)

  datatype ObjectMeta = ObjectMeta(namespace: string, name: string, labels: map<string, string>)

  datatype Kind = ConfigMapKind | SecretKind

  /** Where the store keeps an artifact: its kind, namespace and name. */
  datatype Key = Key(kind: Kind, namespace: string, name: string)

  datatype Artifact =
    | ConfigMap(meta: ObjectMeta, data: map<string, string>)
    | Secret(meta: ObjectMeta, secretData: map<string, Bytes>)
  {
    function StoreKey(): (r: Key) {
      Key(if ConfigMap? then ConfigMapKind else SecretKind, meta.namespace, meta.name)
    }
  }

  /** The errors a provisioning call can return. */
  datatype Error =
    | TemplateParseError
    | TemplateExecuteError
    | CertGenError(reason: string)
    | AlreadyExists(key: Key)
    | Rejected(key: Key)      // the store refuses this key: not authorised, or an invalid name
    | NotFound(key: Key)
    | Unavailable

  datatype Protocol = TCP | UDP | SCTP

  datatype ContainerPort = ContainerPort(name: string, protocol: Protocol, containerPort: int32)

  /** A mount of a volume; an empty `subPath` mounts the whole volume as a directory. */
  datatype VolumeMount = VolumeMount(name: string, mountPath: string, subPath: string)

  datatype Container = Container(
    name: string,
    image: string,
    command: seq<string>,
    ports: seq<ContainerPort>,
    volumeMounts: seq<VolumeMount>)

  /** A key of an artifact and the file name it is projected to; no items projects every key under its own name. */
  datatype KeyToPath = KeyToPath(key: string, path: string)

  datatype VolumeSource =
    | ConfigMapSource(name: string, items: seq<KeyToPath>)
    | SecretSource(secretName: string, items: seq<KeyToPath>)

  datatype Volume = Volume(name: string, source: VolumeSource)
}
