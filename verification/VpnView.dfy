/**
 An imported tunnel as netifd and fw4 see it (internal/vpn/vpn.go), read option by option: the interface,
 the routes it will bring up, and the zone made for it.
 */
module VpnView {
  import opened Common
  import opened Uci
  import opened Live
  import V = VpnImport
  import W = WgConfig

  // ---------- netifd ----------

  /** netifd brings an interface up by itself unless told not to. */
  predicate StartsItself(s: Section) {
    s.Get("auto") != Some(Scalar("0"))
  }

  /** The routes of a tunnel: what each peer section allows, if it says that this is to be routed. */
  function RoutesOf(peers: Config): seq<string> {
    if peers == [] then []
    else
      (if peers[0].Get("route_allowed_ips") == Some(Scalar("1")) then Items(peers[0].Get("allowed_ips")) else [])
      + RoutesOf(peers[1..])
  }

  function Routes(c: Config): seq<string> {
    RoutesOf(OfKind(c, "wireguard_wg0"))
  }

  /** Everything the peers of a configuration may carry, in order. */
  function AllowedBy(ps: seq<W.Peer>): seq<string> {
    if ps == [] then [] else ps[0].allowedIPs + AllowedBy(ps[1..])
  }

  predicate IsTunnel(s: Section, cfg: W.Config) {
    && s.kind == "interface" && s.Get("proto") == Some(Scalar("wireguard")) && !StartsItself(s)
    && V.Text(s, "private_key") == cfg.privateKey
    && Items(s.Get("addresses")) == cfg.addresses && Items(s.Get("dns")) == cfg.dns && V.Text(s, "mtu") == cfg.mtu
  }

  predicate IsPeer(s: Section, p: W.Peer) {
    && V.Text(s, "public_key") == p.publicKey && V.Text(s, "preshared_key") == p.presharedKey
    && Items(s.Get("allowed_ips")) == p.allowedIPs && s.Get("route_allowed_ips") == Some(Scalar("1"))
    && V.Text(s, "endpoint_host") == p.endpointHost
    && V.Text(s, "endpoint_port") == (if p.endpointHost == "" then "" else p.endpointPort)
    && V.Text(s, "persistent_keepalive") == p.keepalive
  }

  // ---------- fw4 ----------

  /** A zone that covers the interface, hides it behind its own address and lets only the router out unasked. */
  predicate IsTunnelZone(s: Section, name: string, iface: string) {
    && s.kind == "zone" && s.Get("name") == Some(Scalar(name)) && Items(s.Get("network")) == [iface]
    && s.Get("masq") == Some(Scalar("1")) && s.Get("mtu_fix") == Some(Scalar("1"))
    && s.Get("input") == Some(Scalar("REJECT")) && s.Get("forward") == Some(Scalar("REJECT"))
    && s.Get("output") == Some(Scalar("ACCEPT"))
  }

  predicate Forwards(s: Section, src: string, dest: string) {
    s.kind == "forwarding" && s.Get("src") == Some(Scalar(src)) && s.Get("dest") == Some(Scalar(dest))
  }

  // ---------- What edits leave ----------

  /** A value set once and not touched again stays. */
  lemma SetStays(s: Section, edits: seq<Edit>, i: nat)
    requires i < |edits| && edits[i].Set? && edits[i].text != ""
    requires forall j :: i < j < |edits| ==> edits[j].opt != edits[i].opt
    ensures EditSection(s, edits).Get(edits[i].opt) == Some(Scalar(edits[i].text))
  {
    hide EditSection;
    var before, rest := edits[..i], edits[i + 1..];
    assert edits == before + ([edits[i]] + rest);
    var t := EditSection(s, before);
    EditAppend(s, before, [edits[i]] + rest);
    EditAppend(t, [edits[i]], rest);
    EditOne(t, edits[i]);
    EditsKeepOthers(EditOnce(t, edits[i]), rest, edits[i].opt);
  }

  lemma TunnelSection(cfg: W.Config)
    ensures IsTunnel(V.InterfaceSection(cfg), cfg)
  {
    hide EditSection;
    V.InterfaceReadsBack(cfg);
    var edits := V.InterfaceEdits(cfg);
    SetStays(Section(Some(V.IFACE), "interface", map[]), edits, 0);
    SetStays(Section(Some(V.IFACE), "interface", map[]), edits, 1);
  }

  lemma PeerSectionIs(p: W.Peer)
    ensures IsPeer(V.PeerSection(p), p)
  {
    hide EditSection;
    V.PeerReadsBack(p);
    var edits := V.PeerEdits(p);
    var head := V.PeerHead(p);
    var rest := V.EndpointEdits(p) + V.SetUnlessEmpty("persistent_keepalive", p.keepalive);
    assert edits == head + rest;
    assert edits[|head| - 1] == Set("route_allowed_ips", "1");
    SetStays(Section(None, V.PEER, map[]), edits, |head| - 1);
  }

  lemma ZoneIs(iface: string)
    ensures IsTunnelZone(V.VpnZone(iface), "vpn", iface) && V.VpnZone(iface).name == None
  {
    hide EditSection;
    var s := Section(None, "zone", map[]);
    var e := V.ZoneEdits(iface);
    SetStays(s, e, 0);
    SetStays(s, e, 2);
    SetStays(s, e, 3);
    SetStays(s, e, 4);
    SetStays(s, e, 5);
    SetStays(s, e, 6);
    assert e == e[..2] + e[2..] && e[..2] == [e[0], e[1]];
    EditAppend(s, e[..2], e[2..]);
    EditTwo(s, e[0], e[1]);
    EditsKeepOthers(EditSection(s, e[..2]), e[2..], "network");
  }

  lemma {:induction false} PeersRoute(ps: seq<W.Peer>)
    ensures RoutesOf(V.PeerSections(ps)) == AllowedBy(ps)
    decreases |ps|
  {
    hide V.PeerSection;
    if ps != [] {
      PeerSectionIs(ps[0]);
      assert V.PeerSections(ps)[1..] == V.PeerSections(ps[1..]);
      PeersRoute(ps[1..]);
    }
  }

  // ---------- After an import that reported success ----------

  lemma ImportReloads(cfg: W.Config)
    ensures Reloads(V.ImportCmds(cfg), Network)
  {
    var cmds := V.ImportCmds(cfg);
    assert cmds[|cmds| - 1] == Service("network reload");
  }

  /**
   netifd runs with a wireguard interface wg0 that does not start by itself, whose peers are those of the
   configuration, in order, and whose routes are exactly what they are allowed to carry.
   */
  lemma TunnelView(l: Live, cut: nat, cfg: W.Config)
    requires LiveRun(l, V.ImportCmds(cfg), cut).1
    ensures var m := LiveRun(l, V.ImportCmds(cfg), cut).0;
            var peers := OfKind(m.network, "wireguard_wg0");
            && Lookup(m.network, "wg0").Some? && IsTunnel(Lookup(m.network, "wg0").value, cfg)
            && |peers| == |cfg.peers| && (forall i :: 0 <= i < |peers| ==> IsPeer(peers[i], cfg.peers[i]))
            && Routes(m.network) == AllowedBy(cfg.peers)
            && V.Others(m.network) == V.Others(l.uci.network.staged)
  {
    hide V.ImportCmds, LiveRun, RunAll, Reloads, V.Imported, V.Zoned, V.InterfaceSection, V.PeerSection, V.Others;
    var cmds := V.ImportCmds(cfg);
    LiveIsRun(l, cmds, cut);
    OkMeansFull(l.uci, cmds, cut);
    V.ImportRuns(l.uci, cfg);
    ImportReloads(cfg);
    ReloadSettles(l, cmds, cut, Network);
    var c := l.uci.network.staged;
    V.ImportedInterface(c, cfg);
    V.ImportedPeers(c, cfg);
    V.ImportedOthers(c, cfg);
    TunnelSection(cfg);
    PeersRoute(cfg.peers);
    forall i | 0 <= i < |cfg.peers|
      ensures IsPeer(V.PeerSections(cfg.peers)[i], cfg.peers[i])
    {
      PeerSectionIs(cfg.peers[i]);
    }
  }

  /**
   A firewall without a zone called vpn has one in the end, behind everything that was there: it covers wg0,
   masquerades, clamps the segment size, and takes in nothing by itself; the lan may forward into it.
   */
  lemma ZoneView(l: Live, cut: nat, cfg: W.Config)
    requires LiveRun(l, V.ImportCmds(cfg), cut).1 && !NameShown(l.uci.firewall.staged, "vpn")
    ensures var c := l.uci.firewall.staged;
            var d := LiveRun(l, V.ImportCmds(cfg), cut).0.uci.firewall.committed;
            && |d| == |c| + 2 && d[..|c|] == c
            && IsTunnelZone(d[|c|], "vpn", "wg0") && Forwards(d[|c| + 1], "lan", "vpn")
  {
    hide V.ImportCmds, LiveRun, RunAll, V.Imported, V.VpnZone;
    var cmds := V.ImportCmds(cfg);
    LiveIsRun(l, cmds, cut);
    OkMeansFull(l.uci, cmds, cut);
    V.ImportRuns(l.uci, cfg);
    ZoneIs("wg0");
  }
}
