/**
 * How a container sees files through its volume mounts, and what those
 * files hold in the store. This is the reading side of the descriptors the
 * provisioning computes: a mount with a sub-path shows one key of its volume
 * at the mount path; a mount without one shows the volume as a directory.
 */
module Mounts {
  import opened Wrappers
  import opened Kube

  /** A file a container reads: which artifact, and which key of it. */
  datatype FileRef = FileRef(kind: Kind, artifact: string, key: string)

  datatype FileContent = Text(text: string) | Binary(bytes: Bytes)

  /** The key shown under the file name `file` by a list of items. */
  function ItemKey(items: seq<KeyToPath>, file: string): (r: Option<string>) {
    if items == [] then None
    else if items[0].path == file then Some(items[0].key)
    else ItemKey(items[1..], file)
  }

  /** Without items every key is shown under its own name. */
  function ProjectedKey(items: seq<KeyToPath>, file: string): (r: Option<string>) {
    if items == [] then Some(file) else ItemKey(items, file)
  }

  function SourceFile(source: VolumeSource, file: string): (r: Option<FileRef>) {
    match source
    case ConfigMapSource(name, items) =>
      (match ProjectedKey(items, file)
       case Some(key) => Some(FileRef(ConfigMapKind, name, key))
       case None => None)
    case SecretSource(name, items) =>
      (match ProjectedKey(items, file)
       case Some(key) => Some(FileRef(SecretKind, name, key))
       case None => None)
  }

  /** The first volume with the given name. */
  function VolumeNamed(volumes: seq<Volume>, name: string): (r: Option<Volume>) {
    if volumes == [] then None
    else if volumes[0].name == name then Some(volumes[0])
    else VolumeNamed(volumes[1..], name)
  }

  /** Whether a path is the mounted file itself or a file inside the mounted directory, at any depth. */
  predicate Covers(m: VolumeMount, path: string) {
    if m.subPath != "" then path == m.mountPath
    else |path| > |m.mountPath| + 1 && path[..|m.mountPath|] == m.mountPath && path[|m.mountPath|] == '/'
  }

  /** The file name within the volume that a covered path designates. */
  function FileInVolume(m: VolumeMount, path: string): (r: string)
    requires Covers(m, path)
  {
    if m.subPath != "" then m.subPath else path[|m.mountPath| + 1..]
  }

  /** The artifact key behind a path, going through the first mount that covers it. */
  function ResolveFile(mounts: seq<VolumeMount>, volumes: seq<Volume>, path: string): (r: Option<FileRef>) {
    if mounts == [] then None
    else if Covers(mounts[0], path) then
      match VolumeNamed(volumes, mounts[0].name)
      case None => None
      case Some(v) => SourceFile(v.source, FileInVolume(mounts[0], path))
    else ResolveFile(mounts[1..], volumes, path)
  }

  /** The content of a file reference, in the artifacts of one namespace. */
  function ReadFile(objects: map<Key, Artifact>, namespace: string, ref: FileRef): (r: Option<FileContent>) {
    var key := Key(ref.kind, namespace, ref.artifact);
    if key !in objects then None
    else match objects[key]
      case ConfigMap(_, data) => if ref.key in data then Some(Text(data[ref.key])) else None
      case Secret(_, data) => if ref.key in data then Some(Binary(data[ref.key])) else None
  }

  /** What a container reads at a path, or None when nothing is there. */
  function ContainerFile(objects: map<Key, Artifact>, namespace: string, c: Container,
                         volumes: seq<Volume>, path: string): (r: Option<FileContent>) {
    match ResolveFile(c.volumeMounts, volumes, path)
    case None => None
    case Some(ref) => ReadFile(objects, namespace, ref)
  }
}
