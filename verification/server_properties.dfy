/**
 * What a provisioning call guarantees: the order of its steps and where it
 * stops, what it leaves in the store, that the artifacts read back under the
 * names the lookups use, and that the descriptors wire the proxy to exactly
 * the configuration, certificate and key that were stored.
 */
module ServerProperties {
  import opened Wrappers
  import opened Kube
  import opened Transport
  import opened Naming
  import opened ObjectStore
  import opened Mounts
  import opened StunnelServer
  import StunnelConf

  /** The artifacts are created under the keys the lookups use. */
  lemma ArtifactsUnderLookupKeys(k: Constants, e: Endpoint, text: string, crt: Bytes, key: Bytes)
    ensures ServerConfigMap(k, e, text).StoreKey() == ConfigKey(k, e.namespacedName)
    ensures ServerSecret(k, e, crt, key).StoreKey() == SecretKey(k, e.namespacedName)
    ensures ServerConfigMap(k, e, text).data.Keys == {ConfigDataKey}
    ensures ServerSecret(k, e, crt, key).secretData.Keys == {CrtDataKey, KeyDataKey}
  {
  }

  /** The port is set before anything else, so every outcome carries it. */
  lemma PortSetFirst(k: Constants, e: Endpoint, engine: TemplateEngine, gen: CertGen,
                     s: ServerState, objects: map<Key, Artifact>, online: bool, refused: set<Key>)
    ensures Provision(k, e, engine, gen, s, objects, online, refused).server.port == k.stunnelPort
  {
  }

  /** When the ConfigMap step fails, its error is returned, the store is
      untouched (no Secret is created) and only the port has changed. */
  lemma ConfigFailureAborts(k: Constants, e: Endpoint, engine: TemplateEngine, gen: CertGen,
                            s: ServerState, objects: map<Key, Artifact>, online: bool, refused: set<Key>)
    requires ConfigStep(k, e, engine, objects, online, refused).err.Some?
    ensures var p := Provision(k, e, engine, gen, s, objects, online, refused);
      && p.err == ConfigStep(k, e, engine, objects, online, refused).err
      && p.objects == objects
      && p.server == s.(port := k.stunnelPort)
  {
  }

  /** Once the ConfigMap exists, the certificate and key are taken from the
      generator whether or not it failed; a failed generation returns its
      error, creates no Secret and leaves the ConfigMap in place. */
  lemma CertAssignedBeforeCheck(k: Constants, e: Endpoint, engine: TemplateEngine, gen: CertGen,
                                s: ServerState, objects: map<Key, Artifact>, online: bool, refused: set<Key>)
    requires ConfigStep(k, e, engine, objects, online, refused).err == None
    ensures var p := Provision(k, e, engine, gen, s, objects, online, refused);
      && p.server.crt == gen.crt && p.server.key == gen.key
      && (gen.failure.Some? ==>
            && p.err == Some(CertGenError(gen.failure.value))
            && p.objects == ConfigStep(k, e, engine, objects, online, refused).objects
            && p.server.containers == s.containers && p.server.volumes == s.volumes)
  {
  }

  /** There is no rollback: whatever happens after the ConfigMap was created,
      it stays in the store with the rendered configuration. */
  lemma NoRollback(k: Constants, e: Endpoint, engine: TemplateEngine, gen: CertGen,
                   s: ServerState, objects: map<Key, Artifact>, online: bool, refused: set<Key>)
    requires ConfigStep(k, e, engine, objects, online, refused).err == None
    ensures var p := Provision(k, e, engine, gen, s, objects, online, refused);
      && ConfigKey(k, e.namespacedName) in p.objects
      && p.objects[ConfigKey(k, e.namespacedName)]
           == ServerConfigMap(k, e, StunnelConf.Render(k.stunnelPort as int, e.port as int))
  {
    KeysInjective(k, e.namespacedName, e.namespacedName);
  }

  /** When the store refuses the Secret after it accepted the ConfigMap, the
      call returns the store's error and the ConfigMap stays behind, with the
      certificate and key kept in the transport and no descriptors filled in. */
  lemma SecretRejectedLeavesConfig(k: Constants, e: Endpoint, engine: TemplateEngine, gen: CertGen,
                                   s: ServerState, objects: map<Key, Artifact>, online: bool, refused: set<Key>)
    requires ConfigStep(k, e, engine, objects, online, refused).err == None
    requires gen.failure == None && SecretKey(k, e.namespacedName) in refused
    ensures var p := Provision(k, e, engine, gen, s, objects, online, refused);
      && p.err == Some(Rejected(SecretKey(k, e.namespacedName)))
      && p.objects == objects[ConfigKey(k, e.namespacedName) :=
           ServerConfigMap(k, e, StunnelConf.Render(k.stunnelPort as int, e.port as int))]
      && p.server == s.(port := k.stunnelPort, crt := gen.crt, key := gen.key)
  {
  }

  /** A call succeeds exactly when the template renders, the store is
      reachable and accepts both keys, neither artifact exists yet and
      certificate generation succeeds. */
  lemma ProvisionSucceedsIff(k: Constants, e: Endpoint, engine: TemplateEngine, gen: CertGen,
                             s: ServerState, objects: map<Key, Artifact>, online: bool, refused: set<Key>)
    ensures Provision(k, e, engine, gen, s, objects, online, refused).err == None
      <==> && engine == Renders && online && gen.failure == None
           && ConfigKey(k, e.namespacedName) !in refused
           && SecretKey(k, e.namespacedName) !in refused
           && ConfigKey(k, e.namespacedName) !in objects
           && SecretKey(k, e.namespacedName) !in objects
  {
    var config := ConfigStep(k, e, engine, objects, online, refused);
    if config.err == None {
      KeysInjective(k, e.namespacedName, e.namespacedName);
      assert SecretKey(k, e.namespacedName) in config.objects <==> SecretKey(k, e.namespacedName) in objects;
    }
  }

  /** After a successful call the store holds exactly the two new artifacts
      besides what it held, and the transport holds the accept port, the
      generated certificate and key, and the container and volume descriptors. */
  lemma ProvisionSuccess(k: Constants, e: Endpoint, engine: TemplateEngine, gen: CertGen,
                         s: ServerState, objects: map<Key, Artifact>, online: bool, refused: set<Key>)
    requires Provision(k, e, engine, gen, s, objects, online, refused).err == None
    ensures var p := Provision(k, e, engine, gen, s, objects, online, refused);
      && p.objects == objects
           [ConfigKey(k, e.namespacedName) :=
              ServerConfigMap(k, e, StunnelConf.Render(k.stunnelPort as int, e.port as int))]
           [SecretKey(k, e.namespacedName) := ServerSecret(k, e, gen.crt, gen.key)]
      && p.server == ServerState(k.stunnelPort, gen.crt, gen.key,
                                 ServerContainers(k, e.namespacedName), ServerVolumes(k, e.namespacedName))
  {
  }

  /** After a successful call both lookups return exactly what was written. */
  lemma ReadBackAfterProvision(k: Constants, e: Endpoint, engine: TemplateEngine, gen: CertGen,
                               s: ServerState, objects: map<Key, Artifact>, online: bool, refused: set<Key>)
    requires Provision(k, e, engine, gen, s, objects, online, refused).err == None
    ensures var p := Provision(k, e, engine, gen, s, objects, online, refused);
      && GetFrom(p.objects, online, ConfigKey(k, e.namespacedName))
           == Success(ServerConfigMap(k, e, StunnelConf.Render(k.stunnelPort as int, e.port as int)))
      && GetFrom(p.objects, online, SecretKey(k, e.namespacedName))
           == Success(ServerSecret(k, e, gen.crt, gen.key))
  {
    ProvisionSuccess(k, e, engine, gen, s, objects, online, refused);
    KeysInjective(k, e.namespacedName, e.namespacedName);
  }

  /** A call touches only its own endpoint's two keys: every other key, and
      in particular the artifacts of every other endpoint, reads as before. */
  lemma ProvisionIsolated(k: Constants, e: Endpoint, engine: TemplateEngine, gen: CertGen,
                          s: ServerState, objects: map<Key, Artifact>, online: bool, refused: set<Key>,
                          other: NamespacedName)
    requires other != e.namespacedName
    ensures var p := Provision(k, e, engine, gen, s, objects, online, refused);
      && GetFrom(p.objects, online, ConfigKey(k, other)) == GetFrom(objects, online, ConfigKey(k, other))
      && GetFrom(p.objects, online, SecretKey(k, other)) == GetFrom(objects, online, SecretKey(k, other))
    ensures var p := Provision(k, e, engine, gen, s, objects, online, refused);
      forall key :: key != ConfigKey(k, e.namespacedName) && key != SecretKey(k, e.namespacedName) ==>
        GetFrom(p.objects, online, key) == GetFrom(objects, online, key)
  {
    KeysInjective(k, e.namespacedName, other);
    KeysInjective(k, other, e.namespacedName);
  }

  /** Provisioning the same endpoint again after a success stops at the
      ConfigMap: it fails there, creates nothing and generates no certificate. */
  lemma ReprovisionStopsAtConfig(k: Constants, e: Endpoint, engine: TemplateEngine, gen: CertGen,
                                 s: ServerState, objects: map<Key, Artifact>, online: bool, refused: set<Key>,
                                 engine2: TemplateEngine, gen2: CertGen)
    requires Provision(k, e, engine, gen, s, objects, online, refused).err == None
    ensures var p := Provision(k, e, engine, gen, s, objects, online, refused);
      var p2 := Provision(k, e, engine2, gen2, p.server, p.objects, online, refused);
      && p2.objects == p.objects
      && p2.server == p.server
      && p2.err == match engine2
                   case Renders => Some(AlreadyExists(ConfigKey(k, e.namespacedName)))
                   case ParseFails => Some(TemplateParseError)
                   case ExecuteFails => Some(TemplateExecuteError)
  {
    ProvisionSuccess(k, e, engine, gen, s, objects, online, refused);
  }

  // ---------------------------------------------------------------------------
  // Wiring of the proxy container

  /** Every mount of the proxy container names exactly one volume, and every
      volume is mounted. */
  lemma MountsMatchVolumes(k: Constants, obj: NamespacedName)
    requires k.configPrefix != k.secretPrefix
    ensures var mounts := ServerContainers(k, obj)[0].volumeMounts;
      var volumes := ServerVolumes(k, obj);
      && (forall i :: 0 <= i < |mounts| ==>
            exists j :: 0 <= j < |volumes| && volumes[j].name == mounts[i].name
              && forall j' :: 0 <= j' < |volumes| && volumes[j'].name == mounts[i].name ==> j' == j)
      && (forall j :: 0 <= j < |volumes| ==> exists i :: 0 <= i < |mounts| && mounts[i].name == volumes[j].name)
  {
    ConfigAndSecretNamesDiffer(k, obj.name);
    var mounts := ServerContainers(k, obj)[0].volumeMounts;
    var volumes := ServerVolumes(k, obj);
    assert volumes[0].name == mounts[0].name;
    assert volumes[1].name == mounts[1].name;
  }

  /** The files the proxy reads resolve, through its mounts and volumes, to the
      right keys: the configuration to the ConfigMap's key, the key and
      certificate paths of the configuration to the Secret's two keys. */
  lemma ServerFilesResolve(k: Constants, obj: NamespacedName)
    requires k.configPrefix != k.secretPrefix
    ensures var mounts := ServerContainers(k, obj)[0].volumeMounts;
      var volumes := ServerVolumes(k, obj);
      && ResolveFile(mounts, volumes, ConfigFilePath)
           == Some(FileRef(ConfigMapKind, ConfigName(k, obj.name), ConfigDataKey))
      && ResolveFile(mounts, volumes, StunnelConf.KeyPath)
           == Some(FileRef(SecretKind, SecretName(k, obj.name), KeyDataKey))
      && ResolveFile(mounts, volumes, StunnelConf.CertPath)
           == Some(FileRef(SecretKind, SecretName(k, obj.name), CrtDataKey))
  {
    ConfigAndSecretNamesDiffer(k, obj.name);
    var mounts := ServerContainers(k, obj)[0].volumeMounts;
    var volumes := ServerVolumes(k, obj);
    assert VolumeNamed(volumes, SecretName(k, obj.name)) == Some(volumes[1]);
    CertFilesUnderCertDir();
    FileInDirectory(mounts[1], KeyDataKey);
    FileInDirectory(mounts[1], CrtDataKey);
    assert ItemKey(volumes[1].source.items, KeyDataKey) == Some(KeyDataKey);
  }

  /** A directory mount shows a file name under the mount path followed by a slash. */
  lemma FileInDirectory(m: VolumeMount, file: string)
    requires m.subPath == "" && file != ""
    ensures Covers(m, m.mountPath + "/" + file)
    ensures FileInVolume(m, m.mountPath + "/" + file) == file
  {
    var path := m.mountPath + "/" + file;
    assert path[..|m.mountPath|] == m.mountPath;
    assert path[|m.mountPath| + 1..] == file;
  }

  /** The key and certificate paths of the configuration lie directly in the
      certificate directory, under the Secret's key names. */
  lemma CertFilesUnderCertDir()
    ensures StunnelConf.KeyPath == CertDir + "/" + KeyDataKey
    ensures StunnelConf.CertPath == CertDir + "/" + CrtDataKey
    ensures ConfigFilePath != StunnelConf.KeyPath && ConfigFilePath != StunnelConf.CertPath
  {
  }

  /** A proxy container is wired to its transfer when the file its command
      names holds a configuration whose accept port is the container's only
      exposed port (TCP), whose connect port is the transfer port, and whose
      key and certificate files hold the given key and certificate. */
  predicate ProxyWired(objects: map<Key, Artifact>, namespace: string, c: Container, volumes: seq<Volume>,
                       transferPort: int, crt: Bytes, key: Bytes)
  {
    && |c.command| == 2 && |c.ports| == 1 && c.ports[0].protocol == TCP
    && match ContainerFile(objects, namespace, c, volumes, c.command[1])
       case Some(Text(text)) =>
         (match StunnelConf.ParseConfig(text)
          case Some(conf) =>
            && conf.accept == c.ports[0].containerPort as int
            && conf.connect == transferPort
            && ContainerFile(objects, namespace, c, volumes, conf.key) == Some(Binary(key))
            && ContainerFile(objects, namespace, c, volumes, conf.cert) == Some(Binary(crt))
          case None => false)
       case _ => false
  }

  /** After a successful call the proxy container is wired to the endpoint's
      transfer port and to the certificate and key that were generated. */
  lemma ProvisionedProxyWired(k: Constants, e: Endpoint, engine: TemplateEngine, gen: CertGen,
                              s: ServerState, objects: map<Key, Artifact>, online: bool, refused: set<Key>)
    requires k.configPrefix != k.secretPrefix
    requires Provision(k, e, engine, gen, s, objects, online, refused).err == None
    ensures var p := Provision(k, e, engine, gen, s, objects, online, refused);
      && |p.server.containers| == 1
      && ProxyWired(p.objects, e.namespacedName.namespace, p.server.containers[0], p.server.volumes,
                    e.port as int, gen.crt, gen.key)
  {
    var p := Provision(k, e, engine, gen, s, objects, online, refused);
    var obj := e.namespacedName;
    ProvisionSuccess(k, e, engine, gen, s, objects, online, refused);
    KeysInjective(k, obj, obj);
    ServerFilesResolve(k, obj);
    StunnelConf.ParseRender(k.stunnelPort as int, e.port as int);
    var c := p.server.containers[0];
    var text := StunnelConf.Render(k.stunnelPort as int, e.port as int);
    assert ReadFile(p.objects, obj.namespace, FileRef(ConfigMapKind, ConfigName(k, obj.name), ConfigDataKey))
        == Some(Text(text));
    assert ContainerFile(p.objects, obj.namespace, c, p.server.volumes, c.command[1]) == Some(Text(text));
    assert ReadFile(p.objects, obj.namespace, FileRef(SecretKind, SecretName(k, obj.name), KeyDataKey))
        == Some(Binary(gen.key));
    assert ReadFile(p.objects, obj.namespace, FileRef(SecretKind, SecretName(k, obj.name), CrtDataKey))
        == Some(Binary(gen.crt));
  }

  /** With equal prefixes the two volumes share one name, so the descriptors
      no longer tell them apart: under the first-match lookup of volumes by
      name the key file resolves into the ConfigMap, which has no such key.
      Distinct prefixes are what the wiring depends on. */
  lemma EqualPrefixesMisroute(k: Constants, obj: NamespacedName)
    requires k.configPrefix == k.secretPrefix
    ensures ResolveFile(ServerContainers(k, obj)[0].volumeMounts, ServerVolumes(k, obj), StunnelConf.KeyPath)
         == Some(FileRef(ConfigMapKind, ConfigName(k, obj.name), KeyDataKey))
  {
    var mounts := ServerContainers(k, obj)[0].volumeMounts;
    CertFilesUnderCertDir();
    FileInDirectory(mounts[1], KeyDataKey);
  }
}
