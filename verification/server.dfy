/**
 * Server-side provisioning of the stunnel transport: render the proxy
 * configuration and store it as a ConfigMap, generate a certificate and store
 * it as a Secret, then describe the proxy container and the two volumes that
 * bind both artifacts into it. Each step aborts the call on the first error;
 * nothing already created is removed.
 */
module StunnelServer {
  import opened Wrappers
  import opened Kube
  import opened Transport
  import opened Naming
  import opened ObjectStore
  import StunnelConf

  const ConfigFilePath := "/etc/stunnel/stunnel.conf"
  const CertDir := "/etc/stunnel/certs"
  const ConfigDataKey := "stunnel.conf"
  const CrtDataKey := "tls.crt"
  const KeyDataKey := "tls.key"

  /** What the template engine does with the constant template on this call. */
  datatype TemplateEngine = Renders | ParseFails | ExecuteFails

  /** What certificate generation returned on this call: the certificate,
      the key, and the reason when it failed. Both are kept even on failure. */
  datatype CertGen = CertGen(crt: Bytes, key: Bytes, failure: Option<string>)

  /** The configuration text for the server, or the engine's error. */
  function RenderServerConfig(engine: TemplateEngine, k: Constants, e: Endpoint): (r: Result<string, Error>)
    ensures r.Success? <==> engine == Renders
    ensures r.Success? ==> r.value == StunnelConf.Render(k.stunnelPort as int, e.port as int)
    ensures engine == ParseFails ==> r == Failure(TemplateParseError)
    ensures engine == ExecuteFails ==> r == Failure(TemplateExecuteError)
  {
    match engine
    case ParseFails => Failure(TemplateParseError)
    case ExecuteFails => Failure(TemplateExecuteError)
    case Renders => Success(StunnelConf.Render(k.stunnelPort as int, e.port as int))
  }

  function ServerConfigMap(k: Constants, e: Endpoint, text: string): (r: Artifact) {
    ConfigMap(
      ObjectMeta(e.namespacedName.namespace, ConfigName(k, e.namespacedName.name), e.labels),
      map[ConfigDataKey := text])
  }

  function ServerSecret(k: Constants, e: Endpoint, crt: Bytes, key: Bytes): (r: Artifact) {
    Secret(
      ObjectMeta(e.namespacedName.namespace, SecretName(k, e.namespacedName.name), e.labels),
      map[CrtDataKey := crt, KeyDataKey := key])
  }

  /** The single proxy container: runs stunnel on the mounted configuration,
      exposes the accept port, mounts the configuration file and the certificate directory. */
  function ServerContainers(k: Constants, obj: NamespacedName): (r: seq<Container>) {
    [ Container(
        "stunnel",
        k.image,
        ["/bin/stunnel", ConfigFilePath],
        [ContainerPort("stunnel", TCP, k.stunnelPort)],
        [ VolumeMount(ConfigName(k, obj.name), ConfigFilePath, ConfigDataKey),
          VolumeMount(SecretName(k, obj.name), CertDir, "") ]) ]
  }

  /** The two volumes behind the mounts: the ConfigMap, and the Secret with both keys under their own names. */
  function ServerVolumes(k: Constants, obj: NamespacedName): (r: seq<Volume>) {
    [ Volume(ConfigName(k, obj.name), ConfigMapSource(ConfigName(k, obj.name), [])),
      Volume(SecretName(k, obj.name), SecretSource(SecretName(k, obj.name),
        [KeyToPath(CrtDataKey, CrtDataKey), KeyToPath(KeyDataKey, KeyDataKey)])) ]
  }

  /** Rendering and storing the ConfigMap. A render error and a store error
      are both returned as they are. */
  function ConfigStep(k: Constants, e: Endpoint, engine: TemplateEngine,
                      objects: map<Key, Artifact>, online: bool, refused: set<Key>): (r: Created)
    ensures var key := ConfigKey(k, e.namespacedName);
      r.err == None <==> engine == Renders && online && key !in refused && key !in objects
    ensures engine == ParseFails ==> r.err == Some(TemplateParseError)
    ensures engine == ExecuteFails ==> r.err == Some(TemplateExecuteError)
    ensures engine == Renders && !online ==> r.err == Some(Unavailable)
    ensures var key := ConfigKey(k, e.namespacedName);
      engine == Renders && online && key in refused ==> r.err == Some(Rejected(key))
    ensures var key := ConfigKey(k, e.namespacedName);
      engine == Renders && online && key !in refused && key in objects ==> r.err == Some(AlreadyExists(key))
    ensures r.err == None ==> r.objects == objects[ConfigKey(k, e.namespacedName) :=
      ServerConfigMap(k, e, StunnelConf.Render(k.stunnelPort as int, e.port as int))]
    ensures r.err != None ==> r.objects == objects
  {
    match RenderServerConfig(engine, k, e)
    case Failure(err) => Created(Some(err), objects)
    case Success(text) => CreateIn(objects, online, refused, ServerConfigMap(k, e, text))
  }

  /** Checking the generated certificate and storing the Secret. A generation
      error and a store error are both returned as they are. */
  function SecretStep(k: Constants, e: Endpoint, gen: CertGen,
                      objects: map<Key, Artifact>, online: bool, refused: set<Key>): (r: Created)
    ensures var key := SecretKey(k, e.namespacedName);
      r.err == None <==> gen.failure == None && online && key !in refused && key !in objects
    ensures gen.failure.Some? ==> r.err == Some(CertGenError(gen.failure.value))
    ensures gen.failure == None && !online ==> r.err == Some(Unavailable)
    ensures var key := SecretKey(k, e.namespacedName);
      gen.failure == None && online && key in refused ==> r.err == Some(Rejected(key))
    ensures var key := SecretKey(k, e.namespacedName);
      gen.failure == None && online && key !in refused && key in objects ==> r.err == Some(AlreadyExists(key))
    ensures r.err == None ==> r.objects == objects[SecretKey(k, e.namespacedName) :=
      ServerSecret(k, e, gen.crt, gen.key)]
    ensures r.err != None ==> r.objects == objects
  {
    if gen.failure.Some? then Created(Some(CertGenError(gen.failure.value)), objects)
    else CreateIn(objects, online, refused, ServerSecret(k, e, gen.crt, gen.key))
  }

  /** The server fields of the transport. */
  datatype ServerState = ServerState(
    port: int32,
    crt: Bytes,
    key: Bytes,
    containers: seq<Container>,
    volumes: seq<Volume>)

  datatype Provisioned = Provisioned(err: Option<Error>, server: ServerState, objects: map<Key, Artifact>)

  /** The whole provisioning call: the error it returns, the server fields
      and the store afterwards. */
  function Provision(k: Constants, e: Endpoint, engine: TemplateEngine, gen: CertGen,
                     s: ServerState, objects: map<Key, Artifact>, online: bool, refused: set<Key>): (r: Provisioned)
  {
    var withPort := s.(port := k.stunnelPort);
    var config := ConfigStep(k, e, engine, objects, online, refused);
    if config.err.Some? then Provisioned(config.err, withPort, config.objects)
    else
      var withCert := withPort.(crt := gen.crt, key := gen.key);
      var secret := SecretStep(k, e, gen, config.objects, online, refused);
      if secret.err.Some? then Provisioned(secret.err, withCert, secret.objects)
      else
        var done := withCert.(containers := ServerContainers(k, e.namespacedName),
                              volumes := ServerVolumes(k, e.namespacedName));
        Provisioned(None, done, secret.objects)
  }

  /** The ConfigMap of an endpoint, looked up under the name creation used. */
  function GetServerConfig(k: Constants, c: Store, obj: NamespacedName): (r: Result<Artifact, Error>)
    reads c
    requires c.Valid()
    ensures r.Success? ==> ConfigKey(k, obj) in c.objects && r.value == c.objects[ConfigKey(k, obj)]
    ensures r.Success? ==>
      r.value.ConfigMap? && r.value.meta.namespace == obj.namespace && r.value.meta.name == ConfigName(k, obj.name)
    ensures r.Failure? ==> r.error == (if c.online then NotFound(ConfigKey(k, obj)) else Unavailable)
    ensures r.Failure? <==> !c.online || ConfigKey(k, obj) !in c.objects
  {
    c.Get(ConfigKey(k, obj))
  }

  /** The Secret of an endpoint, looked up under the name creation used. */
  function GetServerSecret(k: Constants, c: Store, obj: NamespacedName): (r: Result<Artifact, Error>)
    reads c
    requires c.Valid()
    ensures r.Success? ==> SecretKey(k, obj) in c.objects && r.value == c.objects[SecretKey(k, obj)]
    ensures r.Success? ==>
      r.value.Secret? && r.value.meta.namespace == obj.namespace && r.value.meta.name == SecretName(k, obj.name)
    ensures r.Failure? ==> r.error == (if c.online then NotFound(SecretKey(k, obj)) else Unavailable)
    ensures r.Failure? <==> !c.online || SecretKey(k, obj) !in c.objects
  {
    c.Get(SecretKey(k, obj))
  }

  class StunnelTransport {
    var port: int32
    var crt: Bytes
    var key: Bytes
    var serverContainers: seq<Container>
    var serverVolumes: seq<Volume>

    function State(): (r: ServerState)
      reads this
    {
      ServerState(port, crt, key, serverContainers, serverVolumes)
    }

    /** A transport with every server field at its zero value. */
    constructor ()
      ensures State() == ServerState(0, [], [], [], [])
    {
      port, crt, key := 0, [], [];
      serverContainers, serverVolumes := [], [];
    }

    method CreateServer(k: Constants, c: Store, e: Endpoint, engine: TemplateEngine, gen: CertGen)
      returns (err: Option<Error>)
      modifies this, c
      ensures c.online == old(c.online) && c.refused == old(c.refused)
      ensures var p := Provision(k, e, engine, gen, old(State()), old(c.objects), c.online, c.refused);
        err == p.err && State() == p.server && c.objects == p.objects
      ensures old(c.Valid()) ==> c.Valid() && (err == None ==>
        && GetServerConfig(k, c, e.namespacedName)
             == Success(ServerConfigMap(k, e, StunnelConf.Render(k.stunnelPort as int, e.port as int)))
        && GetServerSecret(k, c, e.namespacedName) == Success(ServerSecret(k, e, crt, key)))
    {
      err := CreateStunnelServerResources(k, c, this, e, engine, gen);
    }
  }

  method CreateStunnelServerResources(k: Constants, c: Store, s: StunnelTransport, e: Endpoint,
                                      engine: TemplateEngine, gen: CertGen)
    returns (err: Option<Error>)
    modifies c, s
    ensures c.online == old(c.online) && c.refused == old(c.refused)
    ensures var p := Provision(k, e, engine, gen, old(s.State()), old(c.objects), c.online, c.refused);
      err == p.err && s.State() == p.server && c.objects == p.objects
    ensures old(c.Valid()) ==> c.Valid()
  {
    ghost var s0, objects0 := s.State(), c.objects;
    ghost var config := ConfigStep(k, e, engine, objects0, c.online, c.refused);
    s.port := k.stunnelPort;

    err := CreateStunnelServerConfig(k, c, e, engine);
    if err.Some? {
      assert Provision(k, e, engine, gen, s0, objects0, c.online, c.refused)
          == Provisioned(config.err, s.State(), config.objects);
      return;
    }

    ghost var secret := SecretStep(k, e, gen, config.objects, c.online, c.refused);
    err := CreateStunnelServerSecret(k, c, s, e, gen);
    if err.Some? {
      assert Provision(k, e, engine, gen, s0, objects0, c.online, c.refused)
          == Provisioned(secret.err, s.State(), secret.objects);
      return;
    }

    CreateStunnelServerContainers(k, s, e.namespacedName);
    CreateStunnelServerVolumes(k, s, e.namespacedName);
    assert Provision(k, e, engine, gen, s0, objects0, c.online, c.refused)
        == Provisioned(None, s.State(), secret.objects);
  }

  method CreateStunnelServerConfig(k: Constants, c: Store, e: Endpoint, engine: TemplateEngine)
    returns (err: Option<Error>)
    modifies c
    ensures c.online == old(c.online) && c.refused == old(c.refused)
    ensures Created(err, c.objects) == ConfigStep(k, e, engine, old(c.objects), c.online, c.refused)
    ensures old(c.Valid()) ==> c.Valid()
  {
    var text := RenderServerConfig(engine, k, e);
    if text.Failure? {
      return Some(text.error);
    }
    err := c.Create(ServerConfigMap(k, e, text.value));
  }

  method CreateStunnelServerSecret(k: Constants, c: Store, s: StunnelTransport, e: Endpoint, gen: CertGen)
    returns (err: Option<Error>)
    modifies c, s`crt, s`key
    ensures c.online == old(c.online) && c.refused == old(c.refused)
    ensures s.crt == gen.crt && s.key == gen.key
    ensures Created(err, c.objects) == SecretStep(k, e, gen, old(c.objects), c.online, c.refused)
    ensures old(c.Valid()) ==> c.Valid()
  {
    s.key := gen.key;
    s.crt := gen.crt;
    if gen.failure.Some? {
      return Some(CertGenError(gen.failure.value));
    }
    err := c.Create(ServerSecret(k, e, s.crt, s.key));
  }

  method CreateStunnelServerContainers(k: Constants, s: StunnelTransport, obj: NamespacedName)
    modifies s`serverContainers
    ensures s.serverContainers == ServerContainers(k, obj)
  {
    s.serverContainers := ServerContainers(k, obj);
  }

  method CreateStunnelServerVolumes(k: Constants, s: StunnelTransport, obj: NamespacedName)
    modifies s`serverVolumes
    ensures s.serverVolumes == ServerVolumes(k, obj)
  {
    s.serverVolumes := ServerVolumes(k, obj);
  }
}
