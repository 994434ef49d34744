/** The parsed form of a wg-quick file: one interface, its peers (internal/vpn/config.go). */
module WgConfig {

  datatype Peer = Peer(
    publicKey: string,
    presharedKey: string,
    allowedIPs: seq<string>,
    endpointHost: string,
    endpointPort: string,
    keepalive: string)

  datatype Config = Config(
    privateKey: string,
    addresses: seq<string>,
    dns: seq<string>,
    mtu: string,
    peers: seq<Peer>)

  const NO_PEER := Peer("", "", [], "", "", "")
  const EMPTY := Config("", [], [], "", [])
}
