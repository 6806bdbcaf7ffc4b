# Stunnel transport: server-side provisioning

This project models, in Dafny, how the stunnel transport of a state-transfer
library provisions the server end of a TLS tunnel
(`state_transfer/transport/stunnel/server.go`). A provisioning call for an
endpoint (namespace, name, labels, transfer port) does four things in a fixed
order. Each step stops the call at its first error, and nothing already
created is removed:

1. it sets the transport's port to the fixed accept port;
2. it renders the stunnel configuration and creates it as a ConfigMap named
   `configPrefix + name`;
3. it generates a certificate and key, keeps them in the transport, and
   creates a Secret named `secretPrefix + name`;
4. it fills in the proxy container and its two volumes.

Two accessors fetch the ConfigMap and the Secret back under the same names.

Modules:

- `Decimal`: Go's `strconv.Itoa`, and a decimal reader that is its partner.
- `StunnelConf`: the configuration template line by line, `Render`, and a
  reader (`ParseConfig`) for what the proxy takes from the `[rsync]` service.
- `Kube`: the API values the code touches: metadata, ConfigMap/Secret
  artifacts, containers, mounts, volumes and errors.
- `ObjectStore`: the cluster store as a map from (kind, namespace, name) to
  artifact. Its state also records whether it is reachable and which keys it
  refuses to create (an unauthorised kind or an invalid name). It has pure
  `CreateIn`/`GetFrom` and a `Store` class that the provisioning mutates.
- `Mounts`: how a container sees a file through its mounts and volumes, and
  what that file holds in the store.
- `Transport`: the package constants (accept port, the two prefixes, the
  image) and the endpoint. Both are parameters of the model.
- `Naming`: the prefix naming scheme and the store keys built from it.
- `StunnelServer`: the descriptors and artifacts, the steps as functions,
  `Provision` for the whole call, the `StunnelTransport` class with the
  source's methods, and the two lookups.
- `ServerProperties`: lemmas about `Provision`. They cover ordering and abort
  points, the missing rollback, read-back, isolation between endpoints, and
  the wiring of the proxy container to what was stored.

Three things are not computed by the model. The cluster client becomes the
`Store` object. Its `online` flag stands for reachability, and its `refused`
set holds the keys it will not create. The template
engine's parse and execute failures become a `TemplateEngine` parameter.
Certificate generation becomes a `CertGen` parameter: the certificate, the
key, and a failure reason if it failed.

Three behaviours of the code worth knowing:

- The code does not check that the generated certificate and key are
  non-empty, so the model does not assume it.
- Artifact names of *different* endpoints stay apart only within one kind.
  A ConfigMap name can equal a Secret name of another endpoint unless neither
  prefix begins the other (`Naming.DistinctPrefixesMayOverlap`). This is
  harmless in the store because the kinds differ.
- The Secret create can fail after the ConfigMap create succeeded, for
  example when the store refuses the Secret's key. The call then returns that
  error, and the ConfigMap stays behind (`ServerProperties.SecretRejectedLeavesConfig`).

## Model

| member | source | states |
|---|---|---|
| `Decimal.Itoa` | state_transfer/transport/stunnel/server.go:63-64 | the decimal text of a port is non-empty, has no newline or space, and is digits after an optional minus sign with no leading zero (only "0" itself starts with `0`) |
| `Decimal.ParseItoa` | state_transfer/transport/stunnel/server.go:63-64 | reading back the decimal text of any integer gives that integer |
| `Decimal.ItoaInjective` | state_transfer/transport/stunnel/server.go:63-64 | distinct port numbers have distinct decimal texts |
| `StunnelConf.RenderedLines` | state_transfer/transport/stunnel/server.go:21-33 | the rendered text's lines are the template's twelve lines verbatim, except that the `accept =` and `connect =` lines end in the two decimal ports |
| `StunnelConf.RenderedTextVerbatim` | state_transfer/transport/stunnel/server.go:21-33 | every rendered line, the last included, ends in a newline, so joining the lines back gives the rendered text byte for byte; the text ends in the template's closing newline |
| `StunnelConf.ParseRender` | state_transfer/transport/stunnel/server.go:21-33 | reading the `[rsync]` service of the rendered text yields exactly the accept port, the connect port and the key and certificate paths |
| `StunnelConf.RenderInjective` | state_transfer/transport/stunnel/server.go:61-76 | the rendered text is determined by the two ports and determines them |
| `Naming.NamesInjective` | state_transfer/transport/stunnel/server.go:81 | prefix + name is injective in the name, for both prefixes |
| `Naming.KeysInjective` | state_transfer/transport/stunnel/server.go:93-100 | distinct (namespace, name) identities get distinct ConfigMap keys and distinct Secret keys; a ConfigMap key never equals a Secret key |
| `Naming.ConfigAndSecretNamesDiffer` | state_transfer/transport/stunnel/server.go:150-160 | with distinct prefixes, an endpoint's ConfigMap and Secret names differ |
| `Naming.NamesDisjointWhenPrefixFree` | state_transfer/transport/stunnel/server.go:165-196 | when neither prefix begins the other, no ConfigMap name equals any Secret name |
| `Naming.DistinctPrefixesMayOverlap` | state_transfer/transport/stunnel/server.go:165-196 | distinct prefixes alone allow a ConfigMap name of one endpoint to equal the Secret name of another |
| `ObjectStore.CreateThenGet` | state_transfer/transport/stunnel/server.go:89 | a create succeeds exactly on a reachable store that accepts the key and does not hold it; otherwise it returns unavailable, rejected or already-exists in that order and leaves the store alone; after a success the artifact reads back and other keys read as before |
| `ObjectStore.CreateKeepsWellKeyed` | state_transfer/transport/stunnel/server.go:89 | creating keeps every artifact under its own kind, namespace and name |
| `ObjectStore.Store.Create` | state_transfer/transport/stunnel/server.go:89 | the store object creates as `CreateIn` says, keeps its reachability and refused keys, and keeps its invariant |
| `ObjectStore.Store.Get` | state_transfer/transport/stunnel/server.go:95-98 | a lookup on success returns exactly the artifact stored under the key; it fails with not-found on a reachable store without the key and with unavailable on an unreachable one |
| `StunnelServer.RenderServerConfig` | state_transfer/transport/stunnel/server.go:67-76 | rendering succeeds exactly when the engine renders, and then yields the template filled with the accept port and the endpoint's port; a parse failure returns the parse error and an execute failure the execute error |
| `StunnelServer.ConfigStep` | state_transfer/transport/stunnel/server.go:61-91 | a render error is returned as it is; otherwise the store's answer is returned: unavailable, rejected or already-exists for the config key; it succeeds exactly when none applies, and then stores the rendered text under the config key; on failure the store is unchanged |
| `StunnelServer.SecretStep` | state_transfer/transport/stunnel/server.go:102-123 | a generation failure is returned and creates nothing; otherwise the store's answer is returned: unavailable, rejected or already-exists for the secret key; on success the Secret with the certificate and key is stored under the secret key |
| `StunnelServer.GetServerConfig` | state_transfer/transport/stunnel/server.go:93-100 | on success the lookup returns exactly the ConfigMap stored under the config key, in the requested namespace and named configPrefix + name; otherwise not-found for that key, or unavailable when the store is unreachable |
| `StunnelServer.GetServerSecret` | state_transfer/transport/stunnel/server.go:125-132 | on success the lookup returns exactly the Secret stored under the secret key, in the requested namespace and named secretPrefix + name; otherwise not-found for that key, or unavailable when the store is unreachable |
| `StunnelServer.StunnelTransport.CreateServer` | state_transfer/transport/stunnel/server.go:36-39 | the entry point has the effect of `Provision`; after a success both lookups return what was written |
| `StunnelServer.CreateStunnelServerResources` | state_transfer/transport/stunnel/server.go:41-59 | the error, the transport's server fields and the store afterwards are those of `Provision` on the state before |
| `StunnelServer.CreateStunnelServerConfig` | state_transfer/transport/stunnel/server.go:61-91 | the error and the store afterwards are those of `ConfigStep` |
| `StunnelServer.CreateStunnelServerSecret` | state_transfer/transport/stunnel/server.go:102-123 | the transport's certificate and key are the generator's, even on failure; the error and store are those of `SecretStep` |
| `StunnelServer.CreateStunnelServerContainers` | state_transfer/transport/stunnel/server.go:134-163 | the transport's container list becomes the single proxy container |
| `StunnelServer.CreateStunnelServerVolumes` | state_transfer/transport/stunnel/server.go:165-196 | the transport's volume list becomes the ConfigMap volume and the Secret volume |
| `ServerProperties.ArtifactsUnderLookupKeys` | state_transfer/transport/stunnel/server.go:78-122 | the ConfigMap and Secret are created under the keys the lookups use; the ConfigMap has the single key `stunnel.conf`, the Secret exactly `tls.crt` and `tls.key` |
| `ServerProperties.PortSetFirst` | state_transfer/transport/stunnel/server.go:41-42 | every outcome, failed or not, carries the accept port |
| `ServerProperties.ConfigFailureAborts` | state_transfer/transport/stunnel/server.go:44-47 | a failed ConfigMap step returns its error, creates nothing (no Secret), and changes only the port |
| `ServerProperties.CertAssignedBeforeCheck` | state_transfer/transport/stunnel/server.go:103-108 | once the ConfigMap exists, the certificate and key are the generator's even when it failed; a failed generation returns its error, creates no Secret and leaves containers and volumes alone |
| `ServerProperties.SecretRejectedLeavesConfig` | state_transfer/transport/stunnel/server.go:49-52 | when the store refuses the Secret after accepting the ConfigMap, the call returns the rejection, the ConfigMap stays in the store, and the transport holds the accept port and the generated certificate and key, with its container and volume lists as they were |
| `ServerProperties.NoRollback` | state_transfer/transport/stunnel/server.go:49-52 | after the ConfigMap was created it stays in the store, whatever the Secret step does |
| `ServerProperties.ProvisionSucceedsIff` | state_transfer/transport/stunnel/server.go:41-59 | a call succeeds exactly when the template renders, the store is reachable and accepts both keys, generation succeeds and neither artifact exists |
| `ServerProperties.ProvisionSuccess` | state_transfer/transport/stunnel/server.go:41-59 | after a success the store gained exactly the two artifacts, and the transport holds the accept port, the generated material and the descriptors |
| `ServerProperties.ReadBackAfterProvision` | state_transfer/transport/stunnel/server.go:93-132 | after a success both lookups return exactly what was written |
| `ServerProperties.ProvisionIsolated` | state_transfer/transport/stunnel/server.go:78-122 | a call leaves the artifacts of every other endpoint identity as they were, and every key other than its own endpoint's two reads as before |
| `ServerProperties.ReprovisionStopsAtConfig` | state_transfer/transport/stunnel/server.go:41-47 | provisioning the same endpoint again fails at the ConfigMap (already-exists, or the template error), changes nothing and takes no new certificate |
| `ServerProperties.MountsMatchVolumes` | state_transfer/transport/stunnel/server.go:150-196 | with distinct prefixes every mount names exactly one volume, and every volume is mounted |
| `ServerProperties.ServerFilesResolve` | state_transfer/transport/stunnel/server.go:134-196 | the configuration path resolves to the ConfigMap's `stunnel.conf` key; the configuration's key and certificate paths resolve to the Secret's `tls.key` and `tls.crt` |
| `ServerProperties.CertFilesUnderCertDir` | state_transfer/transport/stunnel/server.go:30-31 | the key and certificate paths of the template lie directly in the mounted certificate directory, under the Secret's key names |
| `ServerProperties.ProvisionedProxyWired` | state_transfer/transport/stunnel/server.go:41-59 | after a success, the proxy's command names a file holding a configuration whose accept port is the container's one TCP port and whose connect port is the transfer port; its key and certificate files hold the generated key and certificate |
| `ServerProperties.EqualPrefixesMisroute` | state_transfer/transport/stunnel/server.go:150-160 | with equal prefixes the two volumes share one name; under the model's first-match lookup of volumes by name the key file resolves into the ConfigMap, so the distinct-prefix assumption is needed |

## Left out

- The controller-runtime client and `context`. These are I/O plumbing,
  replaced by the `Store` object. Create failures are represented by
  `Unavailable` (unreachable) and `Rejected` (a key the store refuses).
- Lookups fail only with `NotFound` or `Unavailable`. The refused keys govern
  creates only, so a refused read (a caller not allowed to get Secrets, say)
  and the error it would return are not modelled.
- Reachability is one flag for the whole call. A transient outage that begins
  between the ConfigMap create and the Secret create is not modelled. A
  refused Secret key does model the Secret create failing after the ConfigMap
  create succeeded.
- The internals of `text/template`. Rendering is line concatenation. Parse
  and execute failures are outcomes chosen by a parameter, because the
  template is a constant.
- `transport.GenerateSSLCert`. It is cryptography and randomness in a library
  that is not part of this model, so its result is a parameter. The unused
  first result, X.509 content and freshness are not modelled.
- `stunnelPort`, `stunnelImage` and the two prefixes. They are defined in a
  file that is not part of this model, so they are parameters (`Constants`).
  The image is carried into the container unchanged.
- `GetServerConfig` and `GetServerSecret` return only the error on failure.
  The source also returns an empty object next to the error.
- Nil certificate buffers. The certificate and key are byte sequences, so a
  nil buffer is not told apart from an empty one.
- `ParseConfig` is a reference reader, not stunnel's full grammar. It
  recognises `name = value` lines after `[rsync]`.
- `ResolveFile` keeps only what the proxy's files need from mount semantics.
  It uses the first mount that covers a path, not the longest one. A mount
  without a sub-path covers every path inside its directory, at any depth,
  and passes the rest of the path to the volume as the file name. It finds a volume by taking the first one with the
  mount's name. Kubernetes pod validation instead rejects a pod whose volumes
  share a name, so the model does not capture that refusal.
- Client-role provisioning, retries and reconciliation. None of these are in
  the modelled code.
- `StunnelTransport` fields other than the server ones (port, certificate,
  key, containers, volumes). The modelled code does not use them.
