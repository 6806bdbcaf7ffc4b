/**
 * What the provisioning is given: the stunnel package's constants and the
 * endpoint it provisions for.
 */
module Transport {
  import opened Kube

  /** The accept port, the two artifact name prefixes and the proxy image. */
  datatype Constants = Constants(
    stunnelPort: int32,
    configPrefix: string,
    secretPrefix: string,
    image: string)

  /** One side of a transfer: its namespaced name, labels and transfer port. */
  datatype Endpoint = Endpoint(
    namespacedName: NamespacedName,
    labels: map<string, string>,
    port: int32)
}
