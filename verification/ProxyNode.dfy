/** A proxy node as the configuration compiler and the core see it. */
module ProxyNode {
  import opened Text

  /** `details` stands for the protocol-specific settings. */
  datatype NodeProfile = NodeProfile(
    id: string, name: string, group: string, tag: string, protocol: string, address: string, port: int,
    transport: string, stale: bool, details: string)

  predicate RequiresXraySidecar(profile: NodeProfile) {
    EqualFold(Trim(profile.protocol), "vless") && EqualFold(Trim(profile.transport), "xhttp")
  }

  function Address(profile: NodeProfile): string {
    profile.protocol + "://" + profile.address
  }
}
