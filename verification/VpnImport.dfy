/**
 Import (internal/vpn/vpn.go): the compiler from a parsed config to UCI commands, and what its
 output means. The network package ends up holding exactly the imported interface and peers
 besides what was never MistUI's; the firewall gets its vpn zone once.
 */
module VpnImport {
  import opened Common
  import opened Uci
  import opened KillSwitch
  import W = WgConfig

  const IFACE := "wg0"
  const PEER := "wireguard_wg0"
  const LAST_PEER := Indexed(PEER, -1)

  // ---------- The compiler ----------

  function SetUnlessEmpty(opt: string, text: string): seq<Edit> {
    if text == "" then [] else [Set(opt, text)]
  }

  function InterfaceEdits(cfg: W.Config): seq<Edit> {
    [Set("proto", "wireguard"), Set("auto", "0"), Set("private_key", cfg.privateKey)]
    + Pushes("addresses", cfg.addresses)
    + Pushes("dns", cfg.dns)
    + SetUnlessEmpty("mtu", cfg.mtu)
  }

  function EndpointEdits(p: W.Peer): seq<Edit> {
    if p.endpointHost == "" then []
    else [Set("endpoint_host", p.endpointHost), Set("endpoint_port", p.endpointPort)]
  }

  function PeerEdits(p: W.Peer): seq<Edit> {
    [Set("public_key", p.publicKey)]
    + SetUnlessEmpty("preshared_key", p.presharedKey)
    + Pushes("allowed_ips", p.allowedIPs)
    + [Set("route_allowed_ips", "1")]
    + EndpointEdits(p)
    + SetUnlessEmpty("persistent_keepalive", p.keepalive)
  }

  function HeadCmds(cfg: W.Config): seq<Argv> {
    [ Drain(Network, PEER),
      Quiet(Network, DeleteSection(Named(IFACE))),
      Run(Network, SetSection(IFACE, "interface")) ]
    + EditCmds(Network, Named(IFACE), InterfaceEdits(cfg))
  }

  function PeerCmds(p: W.Peer): seq<Argv> {
    [Run(Network, AddSection(PEER))] + EditCmds(Network, LAST_PEER, PeerEdits(p))
  }

  function PeersCmds(ps: seq<W.Peer>): seq<Argv> {
    if ps == [] then [] else PeerCmds(ps[0]) + PeersCmds(ps[1..])
  }

  function Tail(iface: string): seq<Argv> {
    [Commit(Network), EnsureVpnZone(iface), Service("network reload")]
  }

  function ImportCmds(cfg: W.Config): seq<Argv> {
    HeadCmds(cfg) + (PeersCmds(cfg.peers) + Tail(IFACE))
  }

  // ---------- What it leaves behind ----------

  /** Sections an import does not replace. */
  predicate Foreign(s: Section) {
    s.kind != PEER && s.name != Some(IFACE)
  }

  function Others(c: Uci.Config): Uci.Config {
    if c == [] then [] else (if Foreign(c[0]) then [c[0]] else []) + Others(c[1..])
  }

  function InterfaceSection(cfg: W.Config): Section {
    EditSection(Section(Some(IFACE), "interface", map[]), InterfaceEdits(cfg))
  }

  function PeerSection(p: W.Peer): Section {
    EditSection(Section(None, PEER, map[]), PeerEdits(p))
  }

  function PeerSections(ps: seq<W.Peer>): Uci.Config {
    seq(|ps|, i requires 0 <= i < |ps| => PeerSection(ps[i]))
  }

  function Imported(c: Uci.Config, cfg: W.Config): Uci.Config {
    Others(c) + [InterfaceSection(cfg)] + PeerSections(cfg.peers)
  }

  /** The zone and the standing lan→vpn forwarding of the guarded script. */
  function VpnZone(iface: string): Section {
    EditSection(Section(None, "zone", map[]), ZoneEdits(iface))
  }

  const LAN_VPN := Section(None, "forwarding", map["src" := Scalar("lan"), "dest" := Scalar("vpn")])

  function ZonedWith(c: Uci.Config, iface: string): Uci.Config {
    if NameShown(c, "vpn") then c else c + [VpnZone(iface), LAN_VPN]
  }

  function Zoned(c: Uci.Config): Uci.Config {
    ZonedWith(c, IFACE)
  }

  /** The state one full import leaves. */
  function ImportResult(u: State, cfg: W.Config): State {
    var n := Imported(u.network.staged, cfg);
    var f := Zoned(u.firewall.staged);
    u.(network := Package(n, n),
       firewall := if NameShown(u.firewall.staged, "vpn") then u.firewall else Package(f, f))
  }

  // ---------- Reading it back ----------

  function Text(s: Section, opt: string): string {
    match s.Get(opt)
    case Some(Scalar(t)) => t
    case _ => ""
  }

  function ReadPeer(s: Section): W.Peer {
    W.Peer(Text(s, "public_key"), Text(s, "preshared_key"), Items(s.Get("allowed_ips")),
           Text(s, "endpoint_host"), Text(s, "endpoint_port"), Text(s, "persistent_keepalive"))
  }

  function ReadPeers(ss: Uci.Config): seq<W.Peer> {
    seq(|ss|, i requires 0 <= i < |ss| => ReadPeer(ss[i]))
  }

  /** netifd's view: the wg0 interface and its peer sections in file order. */
  function ReadBack(c: Uci.Config): Option<W.Config> {
    match Lookup(c, IFACE)
    case None => None
    case Some(s) =>
      Some(W.Config(Text(s, "private_key"), Items(s.Get("addresses")), Items(s.Get("dns")),
                    Text(s, "mtu"), ReadPeers(OfKind(c, PEER))))
  }

  /** A port without a host does not survive the import. */
  function KeptPeer(p: W.Peer): W.Peer {
    if p.endpointHost == "" then p.(endpointPort := "") else p
  }

  function Kept(cfg: W.Config): W.Config {
    cfg.(peers := seq(|cfg.peers|, i requires 0 <= i < |cfg.peers| => KeptPeer(cfg.peers[i])))
  }

  // ---------- The connector ----------

  class Importer {
    const router: Router

    constructor (r: Router)
      ensures router == r
    {
      router := r;
    }

    /** Appends one add_list line per item, as Import's inner loops do. */
    method AppendLists(cmds: seq<Argv>, ref: Ref, opt: string, items: seq<string>) returns (out: seq<Argv>)
      ensures out == cmds + EditCmds(Network, ref, Pushes(opt, items))
    {
      out := cmds;
      for i := 0 to |items|
        invariant out == cmds + EditCmds(Network, ref, Pushes(opt, items[..i]))
      {
        out := out + [Run(Network, AddList(ref, opt, items[i]))];
      }
      assert items[..|items|] == items;
    }

    method AppendSet(cmds: seq<Argv>, ref: Ref, opt: string, text: string) returns (out: seq<Argv>)
      ensures out == cmds + EditCmds(Network, ref, [Set(opt, text)])
    {
      out := cmds + [Run(Network, SetOption(ref, opt, text))];
    }

    method AppendPeer(cmds: seq<Argv>, p: W.Peer) returns (out: seq<Argv>)
      ensures out == cmds + PeerCmds(p)
    {
      var base := cmds + [Run(Network, AddSection(PEER))];
      ghost var done := [Set("public_key", p.publicKey)];
      out := AppendSet(base, LAST_PEER, "public_key", p.publicKey);
      if p.presharedKey != "" {
        out := AppendSet(out, LAST_PEER, "preshared_key", p.presharedKey);
      }
      EditCmdsAppend(Network, LAST_PEER, done, SetUnlessEmpty("preshared_key", p.presharedKey));
      done := done + SetUnlessEmpty("preshared_key", p.presharedKey);
      assert out == base + EditCmds(Network, LAST_PEER, done);
      out := AppendLists(out, LAST_PEER, "allowed_ips", p.allowedIPs);
      EditCmdsAppend(Network, LAST_PEER, done, Pushes("allowed_ips", p.allowedIPs));
      done := done + Pushes("allowed_ips", p.allowedIPs);
      out := AppendSet(out, LAST_PEER, "route_allowed_ips", "1");
      EditCmdsAppend(Network, LAST_PEER, done, [Set("route_allowed_ips", "1")]);
      done := done + [Set("route_allowed_ips", "1")];
      assert out == base + EditCmds(Network, LAST_PEER, done);
      out := AppendEnd(base, out, p, done);
    }

    method AppendEnd(base: seq<Argv>, cmds: seq<Argv>, p: W.Peer, ghost done: seq<Edit>) returns (out: seq<Argv>)
      requires cmds == base + EditCmds(Network, LAST_PEER, done)
      ensures out == base + EditCmds(Network, LAST_PEER,
                                     done + EndpointEdits(p) + SetUnlessEmpty("persistent_keepalive", p.keepalive))
    {
      out := cmds;
      if p.endpointHost != "" {
        out := AppendSet(out, LAST_PEER, "endpoint_host", p.endpointHost);
        out := AppendSet(out, LAST_PEER, "endpoint_port", p.endpointPort);
      }
      EditCmdsAppend(Network, LAST_PEER, done, EndpointEdits(p));
      assert out == base + EditCmds(Network, LAST_PEER, done + EndpointEdits(p));
      if p.keepalive != "" {
        out := AppendSet(out, LAST_PEER, "persistent_keepalive", p.keepalive);
      }
      EditCmdsAppend(Network, LAST_PEER, done + EndpointEdits(p), SetUnlessEmpty("persistent_keepalive", p.keepalive));
    }

    method AppendHead(cfg: W.Config) returns (cmds: seq<Argv>)
      ensures cmds == HeadCmds(cfg)
    {
      var base: seq<Argv> := [
        Drain(Network, PEER),
        Quiet(Network, DeleteSection(Named(IFACE))),
        Run(Network, SetSection(IFACE, "interface"))
      ];
      ghost var done := [Set("proto", "wireguard"), Set("auto", "0"), Set("private_key", cfg.privateKey)];
      cmds := base + [
        Run(Network, SetOption(Named(IFACE), "proto", "wireguard")),
        Run(Network, SetOption(Named(IFACE), "auto", "0")),
        Run(Network, SetOption(Named(IFACE), "private_key", cfg.privateKey))
      ];
      assert cmds == base + EditCmds(Network, Named(IFACE), done);
      cmds := AppendLists(cmds, Named(IFACE), "addresses", cfg.addresses);
      EditCmdsAppend(Network, Named(IFACE), done, Pushes("addresses", cfg.addresses));
      done := done + Pushes("addresses", cfg.addresses);
      cmds := AppendLists(cmds, Named(IFACE), "dns", cfg.dns);
      EditCmdsAppend(Network, Named(IFACE), done, Pushes("dns", cfg.dns));
      done := done + Pushes("dns", cfg.dns);
      assert cmds == base + EditCmds(Network, Named(IFACE), done);
      if cfg.mtu != "" {
        cmds := AppendSet(cmds, Named(IFACE), "mtu", cfg.mtu);
      }
      EditCmdsAppend(Network, Named(IFACE), done, SetUnlessEmpty("mtu", cfg.mtu));
    }

    method AppendPeers(base: seq<Argv>, ps: seq<W.Peer>) returns (cmds: seq<Argv>)
      ensures cmds == base + PeersCmds(ps)
    {
      cmds := base;
      for i := 0 to |ps|
        invariant cmds == base + PeersCmds(ps[..i])
      {
        cmds := AppendPeer(cmds, ps[i]);
        OneMorePeer(base, ps, i);
      }
      assert ps[..|ps|] == ps;
    }

    method Import(cfg: W.Config, cut: nat) returns (ok: bool)
      modifies router
      ensures (router.uci, ok) == RunAll(old(router.uci), ImportCmds(cfg), cut)
      ensures ok ==> router.uci == ImportResult(old(router.uci), cfg)
      ensures ok ==> ReadBack(router.uci.network.committed) == Some(Kept(cfg))
    {
      var cmds := AppendHead(cfg);
      cmds := AppendPeers(cmds, cfg.peers);
      cmds := cmds + Tail(IFACE);
      assert cmds == ImportCmds(cfg);
      ok := router.RunCommands(cmds, cut);
      if ok {
        OkMeansFull(old(router.uci), cmds, cut);
        ImportRuns(old(router.uci), cfg);
        ImportReadsBack(old(router.uci).network.staged, cfg);
      }
    }
  }

  lemma OneMorePeer(base: seq<Argv>, ps: seq<W.Peer>, i: nat)
    requires i < |ps|
    ensures base + PeersCmds(ps[..i]) + PeerCmds(ps[i]) == base + PeersCmds(ps[..i + 1])
  {
    PeersCmdsAppend(ps[..i], ps[i]);
    assert ps[..i + 1] == ps[..i] + [ps[i]];
    Associative(base, PeersCmds(ps[..i]), PeerCmds(ps[i]));
  }

  lemma Associative<T>(a: seq<T>, b: seq<T>, c: seq<T>)
    ensures a + b + c == a + (b + c)
  {
  }

  lemma {:induction false} PeersCmdsAppend(ps: seq<W.Peer>, p: W.Peer)
    ensures PeersCmds(ps + [p]) == PeersCmds(ps) + PeerCmds(p)
  {
    if ps == [] {
      assert PeersCmds([p]) == PeerCmds(p) + PeersCmds([]);
      assert ps + [p] == [p];
    } else {
      assert (ps + [p])[1..] == ps[1..] + [p];
      PeersCmdsAppend(ps[1..], p);
    }
  }

  // ---------- Running it ----------

  lemma {:induction false} OthersAppend(c: Uci.Config, d: Uci.Config)
    ensures Others(c + d) == Others(c) + Others(d)
  {
    hide Foreign;
    if c == [] {
      assert c + d == d;
    } else {
      assert (c + d)[1..] == c[1..] + d;
      OthersAppend(c[1..], d);
    }
  }

  lemma {:induction false} OthersByDropping(c: Uci.Config)
    ensures DropNamed(DropKind(c, PEER), IFACE) == Others(c)
  {
    if c != [] {
      OthersByDropping(c[1..]);
      if c[0].kind != PEER {
        assert DropKind(c, PEER)[1..] == DropKind(c[1..], PEER);
      } else {
        assert DropKind(c, PEER) == DropKind(c[1..], PEER);
      }
    }
  }

  lemma {:induction false} OthersHaveNoInterface(c: Uci.Config)
    ensures PosNamed(Others(c), IFACE) == |Others(c)|
    ensures OfKind(Others(c), PEER) == []
  {
    if c != [] {
      OthersHaveNoInterface(c[1..]);
      if Foreign(c[0]) {
        assert Others(c)[1..] == Others(c[1..]);
      } else {
        assert Others(c) == Others(c[1..]);
      }
    }
  }

  /** Clearing the previous import and declaring the interface anew. */
  lemma ClearRuns(u: State, clear: seq<Argv>)
    requires clear == [Drain(Network, PEER), Quiet(Network, DeleteSection(Named(IFACE))),
                       Run(Network, SetSection(IFACE, "interface"))]
    ensures var c := Others(u.network.staged) + [Section(Some(IFACE), "interface", map[])];
            RunFull(u, clear) == (u.(network := u.network.(staged := c)), true)
  {
    hide Others, DropKind, DropNamed;
    var c := u.network.staged;
    var c1 := DropKind(c, PEER);
    var c2 := Others(c);
    OthersByDropping(c);
    OthersHaveNoInterface(c);
    if PosNamed(c1, IFACE) == |c1| {
      DropNamedAbsent(c1, IFACE);
    }
    var u1 := u.(network := u.network.(staged := c1));
    var u2 := u.(network := u.network.(staged := c2));
    var u3 := u.(network := u.network.(staged := c2 + [Section(Some(IFACE), "interface", map[])]));
    RunTrace([u, u1, u2, u3], clear);
  }

  lemma HeadRuns(u: State, cfg: W.Config)
    ensures RunFull(u, HeadCmds(cfg))
            == (u.(network := u.network.(staged := Others(u.network.staged) + [InterfaceSection(cfg)])), true)
  {
    hide InterfaceEdits, Others;
    var c := u.network.staged;
    var c2 := Others(c);
    var bare := Section(Some(IFACE), "interface", map[]);
    var c3 := c2 + [bare];
    OthersHaveNoInterface(c);
    var u3 := u.(network := u.network.(staged := c3));
    var clear := HeadCmds(cfg)[..3];
    var edits := EditCmds(Network, Named(IFACE), InterfaceEdits(cfg));
    ClearRuns(u, clear);
    PosNamedIs(c3, IFACE, |c2|);
    EditsRun(u3, Network, Named(IFACE), |c2|, InterfaceEdits(cfg));
    assert c3[|c2| := InterfaceSection(cfg)] == c2 + [InterfaceSection(cfg)];
    assert HeadCmds(cfg) == clear + edits;
    RunThen(u, clear, u3, edits);
  }

  lemma PeerRuns(u: State, p: W.Peer)
    ensures RunFull(u, PeerCmds(p))
            == (u.(network := u.network.(staged := u.network.staged + [PeerSection(p)])), true)
  {
    var c := u.network.staged;
    var bare := Section(None, PEER, map[]);
    LastIsAdded(c, bare);
    var v := u.(network := u.network.(staged := c + [bare]));
    var add := Run(Network, AddSection(PEER));
    assert Exec(u, add) == Some(v);
    EditsRun(v, Network, LAST_PEER, |c|, PeerEdits(p));
    assert (c + [bare])[|c| := PeerSection(p)] == c + [PeerSection(p)];
    var cmds := PeerCmds(p);
    assert cmds[0] == add && cmds[1..] == EditCmds(Network, LAST_PEER, PeerEdits(p));
  }

  lemma {:induction false} PeersRun(u: State, ps: seq<W.Peer>)
    ensures RunFull(u, PeersCmds(ps))
            == (u.(network := u.network.(staged := u.network.staged + PeerSections(ps))), true)
    decreases |ps|
  {
    var c := u.network.staged;
    if ps == [] {
      assert c + PeerSections(ps) == c;
    } else {
      PeerRuns(u, ps[0]);
      var v := u.(network := u.network.(staged := c + [PeerSection(ps[0])]));
      PeersRun(v, ps[1..]);
      RunThen(u, PeerCmds(ps[0]), v, PeersCmds(ps[1..]));
      assert c + [PeerSection(ps[0])] + PeerSections(ps[1..]) == c + PeerSections(ps);
    }
  }

  // ---------- The guarded script ----------

  function EditOps(ref: Ref, edits: seq<Edit>): seq<Op> {
    seq(|edits|, i requires 0 <= i < |edits| => EditOp(ref, edits[i]))
  }

  function ZoneEdits(iface: string): seq<Edit> {
    [ Set("name", "vpn"), Push("network", iface), Set("input", "REJECT"), Set("output", "ACCEPT"),
      Set("forward", "REJECT"), Set("masq", "1"), Set("mtu_fix", "1") ]
  }

  const FORWARDING_EDITS: seq<Edit> := [Set("src", "lan"), Set("dest", "vpn")]

  lemma {:induction false} ScriptAppend(c: Uci.Config, a: seq<Op>, b: seq<Op>)
    ensures ApplyScript(c, a + b) == ApplyScript(ApplyScript(c, a), b)
    decreases |a|
  {
    if a == [] {
      assert a + b == b;
    } else {
      assert (a + b)[1..] == a[1..] + b;
      ScriptAppend(ApplyOrSkip(c, a[0]), a[1..], b);
    }
  }

  lemma {:induction false} ScriptEdits(c: Uci.Config, s: Section, edits: seq<Edit>)
    ensures ApplyScript(c + [s], EditOps(Indexed(s.kind, -1), edits)) == c + [EditSection(s, edits)]
    decreases |edits|
  {
    if edits != [] {
      var ops := EditOps(Indexed(s.kind, -1), edits);
      var t := EditOnce(s, edits[0]);
      LastIsAdded(c, s);
      assert (c + [s])[|c| := t] == c + [t];
      assert ops[1..] == EditOps(Indexed(s.kind, -1), edits[1..]);
      ScriptEdits(c, t, edits[1..]);
    }
  }

  /** A script that adds a zone with some options, then a forwarding with some. */
  function ScriptBody(a: seq<Edit>, b: seq<Edit>): seq<Op> {
    [AddSection("zone")] + EditOps(Indexed("zone", -1), a)
    + ([AddSection("forwarding")] + EditOps(Indexed("forwarding", -1), b))
  }

  lemma BodyShape(iface: string)
    ensures VpnZoneBody(iface) == ScriptBody(ZoneEdits(iface), FORWARDING_EDITS)
  {
  }

  const BARE_ZONE := Section(None, "zone", map[])
  const BARE_FORWARDING := Section(None, "forwarding", map[])

  /** Such a script cut after its k-th command. */
  function Half(c: Uci.Config, a: seq<Edit>, b: seq<Edit>, k: nat): Uci.Config
    requires k <= |a| + |b| + 2
  {
    if k == 0 then c
    else if k <= |a| + 1 then c + [EditSection(BARE_ZONE, a[..k - 1])]
    else c + [EditSection(BARE_ZONE, a)] + [EditSection(BARE_FORWARDING, b[..k - |a| - 2])]
  }

  lemma AddedAndEdited(c: Uci.Config, kind: string, edits: seq<Edit>)
    ensures ApplyScript(c, [AddSection(kind)] + EditOps(Indexed(kind, -1), edits))
            == c + [EditSection(Section(None, kind, map[]), edits)]
  {
    var add := [AddSection(kind)];
    var ops := EditOps(Indexed(kind, -1), edits);
    assert (add + ops)[1..] == ops;
    ScriptEdits(c, Section(None, kind, map[]), edits);
  }

  lemma ScriptPrefix(c: Uci.Config, a: seq<Edit>, b: seq<Edit>, k: nat)
    requires k <= |a| + |b| + 2
    ensures ApplyScript(c, ScriptBody(a, b)[..k]) == Half(c, a, b, k)
  {
    var body := ScriptBody(a, b);
    if 1 <= k <= |a| + 1 {
      assert body[..k] == [AddSection("zone")] + EditOps(Indexed("zone", -1), a[..k - 1]);
      AddedAndEdited(c, "zone", a[..k - 1]);
    } else if k > |a| + 1 {
      var first := [AddSection("zone")] + EditOps(Indexed("zone", -1), a);
      var second := [AddSection("forwarding")] + EditOps(Indexed("forwarding", -1), b[..k - |a| - 2]);
      assert body[..k] == first + second;
      ScriptAppend(c, first, second);
      AddedAndEdited(c, "zone", a);
      AddedAndEdited(c + [EditSection(BARE_ZONE, a)], "forwarding", b[..k - |a| - 2]);
    }
  }

  lemma ForwardingBuilt()
    ensures EditSection(BARE_FORWARDING, FORWARDING_EDITS) == LAN_VPN
  {
    EditTwo(BARE_FORWARDING, Set("src", "lan"), Set("dest", "vpn"));
    assert EditOnce(EditOnce(BARE_FORWARDING, Set("src", "lan")), Set("dest", "vpn")).options == LAN_VPN.options;
  }

  /** Once the first option is written the zone shows its name. */
  lemma ZoneShowsName(iface: string, k: nat)
    requires 1 <= k <= 7
    ensures EditSection(BARE_ZONE, ZoneEdits(iface)[..k]).Get("name") == Some(Scalar("vpn"))
    ensures VpnZone(iface).Get("name") == Some(Scalar("vpn"))
  {
    var es := ZoneEdits(iface);
    var s1 := EditOnce(BARE_ZONE, es[0]);
    EditsKeepOthers(s1, es[..k][1..], "name");
    EditsKeepOthers(s1, es[1..], "name");
  }

  lemma ScriptFull(c: Uci.Config, a: seq<Edit>, b: seq<Edit>)
    ensures ApplyScript(c, ScriptBody(a, b)) == c + [EditSection(BARE_ZONE, a), EditSection(BARE_FORWARDING, b)]
  {
    ScriptPrefix(c, a, b, |a| + |b| + 2);
    assert ScriptBody(a, b)[..|a| + |b| + 2] == ScriptBody(a, b);
    assert b[..|b|] == b && a[..|a|] == a;
    assert c + [EditSection(BARE_ZONE, a)] + [EditSection(BARE_FORWARDING, b)]
        == c + [EditSection(BARE_ZONE, a), EditSection(BARE_FORWARDING, b)];
  }

  /** The guarded script, run whole. */
  lemma ScriptRuns(c: Uci.Config, iface: string)
    requires !NameShown(c, "vpn")
    ensures ApplyScript(c, VpnZoneBody(iface)) == ZonedWith(c, iface)
  {
    BodyShape(iface);
    ScriptFull(c, ZoneEdits(iface), FORWARDING_EDITS);
    ForwardingBuilt();
  }

  lemma TailRuns(u: State, v: State, iface: string)
    requires v == u.(network := Package(u.network.staged, u.network.staged),
                     firewall := if NameShown(u.firewall.staged, "vpn") then u.firewall
                                 else Package(ZonedWith(u.firewall.staged, iface), ZonedWith(u.firewall.staged, iface)))
    ensures RunFull(u, Tail(iface)) == (v, true)
  {
    if !NameShown(u.firewall.staged, "vpn") {
      ScriptRuns(u.firewall.staged, iface);
    }
    RunTrace([u, u.(network := v.network), v, v], Tail(iface));
  }

  /** A full import always runs through, from any prior store. */
  lemma ImportRuns(u: State, cfg: W.Config)
    ensures RunFull(u, ImportCmds(cfg)) == (ImportResult(u, cfg), true)
  {
    HeadRuns(u, cfg);
    var u1 := RunFull(u, HeadCmds(cfg)).0;
    PeersRun(u1, cfg.peers);
    var u2 := RunFull(u1, PeersCmds(cfg.peers)).0;
    assert u2 == u.(network := u.network.(staged := Imported(u.network.staged, cfg)));
    var done := ImportResult(u, cfg);
    TailRuns(u2, done, IFACE);
    RunThen(u1, PeersCmds(cfg.peers), u2, Tail(IFACE));
    RunThen(u, HeadCmds(cfg), u1, PeersCmds(cfg.peers) + Tail(IFACE));
  }

  // ---------- Import preserves meaning ----------

  lemma SetUnlessEmptyText(s: Section, opt: string, text: string)
    requires s.Get(opt) == None
    ensures Text(EditSection(s, SetUnlessEmpty(opt, text)), opt) == text
    ensures forall o :: o != opt ==> EditSection(s, SetUnlessEmpty(opt, text)).Get(o) == s.Get(o)
  {
    if text != "" {
      assert [Set(opt, text)][1..] == [];
      assert EditSection(s, [Set(opt, text)]) == EditOnce(s, Set(opt, text));
    }
  }

  lemma PushesFacts(s: Section, opt: string, items: seq<string>)
    requires s.Get(opt) == None
    ensures Items(EditSection(s, Pushes(opt, items)).Get(opt)) == items
    ensures forall o :: o != opt ==> EditSection(s, Pushes(opt, items)).Get(o) == s.Get(o)
  {
    PushesWritten(s, opt, items);
    assert [] + items == items;
  }

  lemma InterfaceReadsBack(cfg: W.Config)
    ensures var s := InterfaceSection(cfg);
            && Text(s, "private_key") == cfg.privateKey
            && Items(s.Get("addresses")) == cfg.addresses
            && Items(s.Get("dns")) == cfg.dns
            && Text(s, "mtu") == cfg.mtu
  {
    hide Pushes, SetUnlessEmpty, EditSection;
    var s0 := Section(Some(IFACE), "interface", map[]);
    var head := [Set("proto", "wireguard"), Set("auto", "0"), Set("private_key", cfg.privateKey)];
    var a := Pushes("addresses", cfg.addresses);
    var d := Pushes("dns", cfg.dns);
    var m := SetUnlessEmpty("mtu", cfg.mtu);
    var s1 := EditSection(s0, head);
    EditThree(s0, head[0], head[1], head[2]);
    var s2 := EditSection(s1, a);
    var s3 := EditSection(s2, d);
    EditAppend(s0, head, a);
    EditAppend(s0, head + a, d);
    EditAppend(s0, head + a + d, m);
    PushesFacts(s1, "addresses", cfg.addresses);
    PushesFacts(s2, "dns", cfg.dns);
    SetUnlessEmptyText(s3, "mtu", cfg.mtu);
  }

  lemma EndpointReadsBack(s: Section, p: W.Peer)
    requires s.Get("endpoint_host") == None && s.Get("endpoint_port") == None
    ensures var t := EditSection(s, EndpointEdits(p));
            && Text(t, "endpoint_host") == p.endpointHost
            && Text(t, "endpoint_port") == KeptPeer(p).endpointPort
            && forall o :: o != "endpoint_host" && o != "endpoint_port" ==> t.Get(o) == s.Get(o)
  {
    if p.endpointHost != "" {
      EditTwo(s, Set("endpoint_host", p.endpointHost), Set("endpoint_port", p.endpointPort));
    }
  }

  function PeerHead(p: W.Peer): seq<Edit> {
    [Set("public_key", p.publicKey)]
    + SetUnlessEmpty("preshared_key", p.presharedKey)
    + Pushes("allowed_ips", p.allowedIPs)
    + [Set("route_allowed_ips", "1")]
  }

  lemma PeerHeadReadsBack(p: W.Peer)
    ensures var s := EditSection(Section(None, PEER, map[]), PeerHead(p));
            && Text(s, "public_key") == p.publicKey
            && Text(s, "preshared_key") == p.presharedKey
            && Items(s.Get("allowed_ips")) == p.allowedIPs
  {
    var s0 := Section(None, PEER, map[]);
    var h := Set("public_key", p.publicKey);
    var s1 := EditOnce(s0, h);
    EditOne(s0, h);
    PeerKeysReadBack(s1, p.presharedKey, p.allowedIPs);
    var k := SetUnlessEmpty("preshared_key", p.presharedKey);
    var a := Pushes("allowed_ips", p.allowedIPs);
    var r := [Set("route_allowed_ips", "1")];
    assert PeerHead(p) == [h] + (k + a + r);
    EditAppend(s0, [h], k + a + r);
  }

  lemma PeerKeysReadBack(s: Section, psk: string, ips: seq<string>)
    requires s.Get("preshared_key") == None && s.Get("allowed_ips") == None
    ensures var k := SetUnlessEmpty("preshared_key", psk);
            var t := EditSection(s, k + Pushes("allowed_ips", ips) + [Set("route_allowed_ips", "1")]);
            && t.Get("public_key") == s.Get("public_key")
            && Text(t, "preshared_key") == psk
            && Items(t.Get("allowed_ips")) == ips
  {
    var k := SetUnlessEmpty("preshared_key", psk);
    var a := Pushes("allowed_ips", ips);
    var r := Set("route_allowed_ips", "1");
    var s2 := EditSection(s, k);
    var s3 := EditSection(s2, a);
    EditAppend(s, k, a);
    EditAppend(s, k + a, [r]);
    EditOne(s3, r);
    SetUnlessEmptyText(s, "preshared_key", psk);
    PushesFacts(s2, "allowed_ips", ips);
    EditsKeepOthers(s, k + a + [r], "public_key");
  }

  lemma PeerHeadAbsent(p: W.Peer)
    ensures var s := EditSection(Section(None, PEER, map[]), PeerHead(p));
            && s.Get("endpoint_host") == None && s.Get("endpoint_port") == None
            && s.Get("persistent_keepalive") == None
  {
    var s0 := Section(None, PEER, map[]);
    EditsKeepOthers(s0, PeerHead(p), "endpoint_host");
    EditsKeepOthers(s0, PeerHead(p), "endpoint_port");
    EditsKeepOthers(s0, PeerHead(p), "persistent_keepalive");
  }

  lemma PeerReadsBack(p: W.Peer)
    ensures ReadPeer(PeerSection(p)) == KeptPeer(p)
  {
    hide EditSection;
    var s0 := Section(None, PEER, map[]);
    var e := EndpointEdits(p);
    var l := SetUnlessEmpty("persistent_keepalive", p.keepalive);
    var s4 := EditSection(s0, PeerHead(p));
    var s5 := EditSection(s4, e);
    assert PeerEdits(p) == PeerHead(p) + e + l;
    EditAppend(s0, PeerHead(p), e);
    EditAppend(s0, PeerHead(p) + e, l);
    PeerHeadReadsBack(p);
    PeerHeadAbsent(p);
    EndpointReadsBack(s4, p);
    SetUnlessEmptyText(s5, "persistent_keepalive", p.keepalive);
  }

  lemma {:induction false} PeersAreTheirKind(ps: seq<W.Peer>)
    ensures OfKind(PeerSections(ps), PEER) == PeerSections(ps)
    decreases |ps|
  {
    if ps != [] {
      assert PeerSections(ps)[1..] == PeerSections(ps[1..]);
      PeersAreTheirKind(ps[1..]);
    }
  }

  lemma ImportedInterface(c: Uci.Config, cfg: W.Config)
    ensures Lookup(Imported(c, cfg), IFACE) == Some(InterfaceSection(cfg))
  {
    hide InterfaceEdits, PeerEdits, Others;
    var d := Imported(c, cfg);
    OthersHaveNoInterface(c);
    PosNamedIs(d, IFACE, |Others(c)|);
  }

  lemma ImportedPeers(c: Uci.Config, cfg: W.Config)
    ensures OfKind(Imported(c, cfg), PEER) == PeerSections(cfg.peers)
  {
    hide InterfaceEdits, PeerEdits, Others, PeerSections;
    var s := InterfaceSection(cfg);
    var ps := PeerSections(cfg.peers);
    OthersHaveNoInterface(c);
    OfKindAppend(Others(c) + [s], ps, PEER);
    OfKindAppend(Others(c), [s], PEER);
    assert OfKind([s], PEER) == [];
    PeersAreTheirKind(cfg.peers);
  }

  lemma ImportedOthers(c: Uci.Config, cfg: W.Config)
    ensures Others(Imported(c, cfg)) == Others(c)
  {
    hide InterfaceEdits, PeerEdits, PeerSections;
    var s := InterfaceSection(cfg);
    OthersAppend(Others(c) + [s], PeerSections(cfg.peers));
    OthersAppend(Others(c), [s]);
    assert Others([s]) == [];
    OthersTwice(c);
    NoForeignPeers(cfg.peers);
  }

  lemma PeersReadBack(ps: seq<W.Peer>)
    ensures |ReadPeers(PeerSections(ps))| == |ps|
    ensures forall i :: 0 <= i < |ps| ==> ReadPeers(PeerSections(ps))[i] == KeptPeer(ps[i])
  {
    hide ReadPeer, PeerSection, KeptPeer;
    forall i | 0 <= i < |ps|
      ensures ReadPeers(PeerSections(ps))[i] == KeptPeer(ps[i])
    {
      PeerReadsBack(ps[i]);
    }
  }

  /**
   From any prior network package, read back what Import wrote: the config itself, peers in order,
   except that a port without a host is dropped. Everything foreign is kept, in order.
   */
  lemma ImportReadsBack(c: Uci.Config, cfg: W.Config)
    ensures ReadBack(Imported(c, cfg)) == Some(Kept(cfg))
    ensures Others(Imported(c, cfg)) == Others(c)
  {
    hide Imported, PeerSections, ReadPeers, KeptPeer, InterfaceSection, Others;
    ImportedInterface(c, cfg);
    ImportedPeers(c, cfg);
    ImportedOthers(c, cfg);
    InterfaceReadsBack(cfg);
    PeersReadBack(cfg.peers);
    assert ReadPeers(PeerSections(cfg.peers)) == Kept(cfg).peers;
  }

  lemma {:induction false} OthersTwice(c: Uci.Config)
    ensures Others(Others(c)) == Others(c)
  {
    if c != [] {
      OthersTwice(c[1..]);
      if Foreign(c[0]) {
        assert Others(c)[1..] == Others(c[1..]);
      } else {
        assert Others(c) == Others(c[1..]);
      }
    }
  }

  lemma {:induction false} NoForeignPeers(ps: seq<W.Peer>)
    ensures Others(PeerSections(ps)) == []
    decreases |ps|
  {
    if ps != [] {
      assert PeerSections(ps)[1..] == PeerSections(ps[1..]);
      NoForeignPeers(ps[1..]);
    }
  }

  // ---------- Failed imports leave no residue ----------

  predicate ImportCmd(a: Argv) {
    match a
    case Drain(p, kind) => p == Network && kind == PEER
    case Quiet(p, op) => p == Network && op == DeleteSection(Named(IFACE))
    case Run(p, op) =>
      p == Network
      && (op == SetSection(IFACE, "interface") || op == AddSection(PEER)
          || ((op.SetOption? || op.AddList?) && (op.ref == Named(IFACE) || op.ref == LAST_PEER)))
    case Commit(p) => p == Network
    case EnsureVpnZone(i) => i == IFACE
    case Service(_) => true
    case _ => false
  }

  lemma OthersUpdate(c: Uci.Config, p: nat, s: Section)
    requires p < |c| && !Foreign(c[p]) && !Foreign(s)
    ensures Others(c[p := s]) == Others(c)
  {
    assert c == c[..p] + [c[p]] + c[p + 1..];
    assert c[p := s] == c[..p] + [s] + c[p + 1..];
    OthersAppend(c[..p] + [c[p]], c[p + 1..]);
    OthersAppend(c[..p], [c[p]]);
    OthersAppend(c[..p] + [s], c[p + 1..]);
    OthersAppend(c[..p], [s]);
  }

  lemma {:induction false} OthersAfterDrops(c: Uci.Config)
    ensures Others(DropKind(c, PEER)) == Others(c) && Others(DropNamed(c, IFACE)) == Others(c)
  {
    if c != [] {
      OthersAfterDrops(c[1..]);
      if c[0].kind != PEER {
        assert DropKind(c, PEER)[1..] == DropKind(c[1..], PEER);
      } else {
        assert DropKind(c, PEER) == DropKind(c[1..], PEER);
      }
      if c[0].name != Some(IFACE) {
        assert DropNamed(c, IFACE)[1..] == DropNamed(c[1..], IFACE);
      } else {
        assert DropNamed(c, IFACE) == DropNamed(c[1..], IFACE);
      }
    }
  }

  /** The staged firewall only ever moves by the whole script. */
  ghost predicate ImportTouched(u: State, v: State) {
    && Others(v.network.staged) == Others(u.network.staged)
    && v.dhcp == u.dhcp && v.wireless == u.wireless
    && (v.firewall == u.firewall
        || v.firewall == Package(Zoned(u.firewall.staged), Zoned(u.firewall.staged)))
  }

  lemma ImportOpKeepsOthers(c: Uci.Config, op: Op)
    requires ImportCmd(Run(Network, op)) || ImportCmd(Quiet(Network, op))
    ensures Others(ApplyOrSkip(c, op)) == Others(c)
  {
    match op {
      case DeleteSection(_) =>
        OthersAfterDrops(c);
      case SetSection(n, kind) =>
        var p := PosNamed(c, n);
        if p < |c| {
          OthersUpdate(c, p, c[p].(kind := kind));
        } else {
          OthersAppend(c, [Section(Some(n), kind, map[])]);
        }
      case AddSection(kind) =>
        OthersAppend(c, [Section(None, kind, map[])]);
      case SetOption(ref, opt, text) =>
        var p := Resolve(c, ref);
        if p < |c| {
          OthersUpdate(c, p, EditOnce(c[p], Set(opt, text)));
        }
      case AddList(ref, opt, text) =>
        var p := Resolve(c, ref);
        if p < |c| {
          OthersUpdate(c, p, EditOnce(c[p], Push(opt, text)));
        }
    }
  }

  lemma ZonedShows(c: Uci.Config)
    ensures NameShown(Zoned(c), "vpn")
    ensures Zoned(Zoned(c)) == Zoned(c)
  {
    if !NameShown(c, "vpn") {
      ZoneShowsName(IFACE, 1);
      assert NameStarts(Zoned(c)[|c|], "vpn");
    }
  }

  lemma ImportTouchedOnce(u: State, a: Argv)
    requires ImportCmd(a)
    ensures Exec(u, a).Some? ==> ImportTouched(u, Exec(u, a).value)
  {
    hide ImportTouched;
    if a.Drain? || a.Run? || a.Quiet? || a.Commit? || a.Service? {
      NetworkCmdTouches(u, a);
    } else {
      ZoneCmdTouches(u, a);
    }
  }

  lemma NetworkCmdTouches(u: State, a: Argv)
    requires ImportCmd(a) && (a.Drain? || a.Run? || a.Quiet? || a.Commit? || a.Service?)
    ensures Exec(u, a).Some? ==> ImportTouched(u, Exec(u, a).value)
  {
    hide Others, Apply, Zoned;
    if a.Drain? {
      OthersAfterDrops(u.network.staged);
    } else if a.Run? || a.Quiet? {
      ImportOpKeepsOthers(u.network.staged, a.op);
    }
  }

  lemma ZoneCmdTouches(u: State, a: Argv)
    requires a == EnsureVpnZone(IFACE)
    ensures Exec(u, a).Some? && ImportTouched(u, Exec(u, a).value)
  {
    hide Others, VpnZoneBody, VpnZone, NameShown, ApplyScript;
    if !NameShown(u.firewall.staged, "vpn") {
      ScriptRuns(u.firewall.staged, a.iface);
    }
  }

  lemma {:induction false} ImportTouchedRun(u: State, cmds: seq<Argv>, cut: nat)
    requires forall i :: 0 <= i < |cmds| ==> ImportCmd(cmds[i])
    ensures ImportTouched(u, RunAll(u, cmds, cut).0)
    decreases |cmds|
  {
    hide Exec, ImportTouched, ImportCmd;
    if cmds == [] || cut == 0 {
      ImportTouchedNothing(u);
    } else {
      assert ImportCmd(cmds[0]);
      ImportTouchedOnce(u, cmds[0]);
      match Exec(u, cmds[0]) {
        case None =>
          ImportTouchedNothing(u);
        case Some(v) =>
          ImportTouchedRun(v, cmds[1..], cut - 1);
          ImportTouchedTwice(u, v, RunAll(v, cmds[1..], cut - 1).0);
      }
    }
  }

  lemma ImportTouchedNothing(u: State)
    ensures ImportTouched(u, u)
  {
  }

  lemma ImportTouchedTwice(u: State, v: State, w: State)
    requires ImportTouched(u, v) && ImportTouched(v, w)
    ensures ImportTouched(u, w)
  {
    hide Zoned, Others;
    ZonedShows(u.firewall.staged);
  }

  lemma {:induction false} PeersCmdsAre(ps: seq<W.Peer>)
    ensures forall i :: 0 <= i < |PeersCmds(ps)| ==> ImportCmd(PeersCmds(ps)[i])
  {
    if ps != [] {
      PeersCmdsAre(ps[1..]);
      var a := PeerCmds(ps[0]);
      assert forall i :: 0 <= i < |a| ==> ImportCmd(a[i]);
    }
  }

  lemma ImportCmdsAre(cfg: W.Config)
    ensures forall i :: 0 <= i < |ImportCmds(cfg)| ==> ImportCmd(ImportCmds(cfg)[i])
  {
    PeersCmdsAre(cfg.peers);
    var a := HeadCmds(cfg);
    var b := PeersCmds(cfg.peers) + Tail(IFACE);
    assert forall i :: 0 <= i < |a| ==> ImportCmd(a[i]);
    assert forall i :: 0 <= i < |b| ==> ImportCmd(b[i]);
  }

  /**
   An import of one config that stops anywhere, then a full import of another: the whole store is
   the one the second import alone leaves — except that the vpn zone may be committed already.
   */
  lemma ImportConverges(u: State, first: W.Config, cut: nat, second: W.Config)
    ensures var again := ImportResult(RunAll(u, ImportCmds(first), cut).0, second);
            var alone := ImportResult(u, second);
            && again.network == alone.network && again.dhcp == alone.dhcp && again.wireless == alone.wireless
            && again.firewall.staged == alone.firewall.staged
            && (again.firewall.committed == alone.firewall.committed
                || again.firewall.committed == again.firewall.staged)
  {
    ImportCmdsAre(first);
    ImportTouchedRun(u, ImportCmds(first), cut);
    ZonedShows(u.firewall.staged);
  }

  // ---------- Any number of imports ----------

  /** Each attempt is a config and the point where it stops. */
  function Attempts(u: State, tries: seq<(W.Config, nat)>): State
    decreases |tries|
  {
    if tries == [] then u else Attempts(RunAll(u, ImportCmds(tries[0].0), tries[0].1).0, tries[1..])
  }

  /** The attempt got past the zone script. */
  predicate ReachedZone(t: (W.Config, nat)) {
    t.1 >= |ImportCmds(t.0)| - 1
  }

  lemma ZoneStepReached(u: State, cfg: W.Config, cut: nat)
    ensures var v := RunAll(u, ImportCmds(cfg), cut).0;
            v.firewall == if cut >= |ImportCmds(cfg)| - 1 && !NameShown(u.firewall.staged, "vpn")
                          then Package(Zoned(u.firewall.staged), Zoned(u.firewall.staged)) else u.firewall
  {
    var before := HeadCmds(cfg) + PeersCmds(cfg.peers) + [Commit(Network)];
    var after := [EnsureVpnZone(IFACE), Service("network reload")];
    assert ImportCmds(cfg) == before + after;
    RunAppend(u, before, after, cut);
    if cut >= |before| {
      BeforeRuns(u, cfg, before);
      var v := RunFull(u, before).0;
      RunEnough(u, before, cut);
      ZoneThenReload(v, cut - |before|, IFACE);
    } else {
      NoZoneBefore(u, cfg, before, cut);
      ShortRun(u, before, cut);
    }
  }

  lemma BeforeRuns(u: State, cfg: W.Config, before: seq<Argv>)
    requires before == HeadCmds(cfg) + PeersCmds(cfg.peers) + [Commit(Network)]
    ensures RunFull(u, before).1 && RunFull(u, before).0.firewall == u.firewall
  {
    HeadRuns(u, cfg);
    var u1 := RunFull(u, HeadCmds(cfg)).0;
    PeersRun(u1, cfg.peers);
    var u2 := RunFull(u1, PeersCmds(cfg.peers)).0;
    RunThen(u, HeadCmds(cfg), u1, PeersCmds(cfg.peers));
    RunThen(u, HeadCmds(cfg) + PeersCmds(cfg.peers), u2, [Commit(Network)]);
    RunTrace([u2, u2.(network := Package(u2.network.staged, u2.network.staged))], [Commit(Network)]);
  }

  lemma ZoneThenReload(u: State, cut: nat, iface: string)
    ensures RunAll(u, [EnsureVpnZone(iface), Service("network reload")], cut).0.firewall
            == if cut > 0 && !NameShown(u.firewall.staged, "vpn")
               then Package(ZonedWith(u.firewall.staged, iface), ZonedWith(u.firewall.staged, iface)) else u.firewall
  {
    if !NameShown(u.firewall.staged, "vpn") {
      ScriptRuns(u.firewall.staged, iface);
    }
    var cmds := [EnsureVpnZone(iface), Service("network reload")];
    assert cmds[1..] == [Service("network reload")];
    if cut > 0 {
      var v := Exec(u, cmds[0]).value;
      assert RunAll(v, [Service("network reload")], cut - 1).0 == v by {
        assert [Service("network reload")][1..] == [];
      }
    }
  }

  lemma {:induction false} ShortRun(u: State, cmds: seq<Argv>, cut: nat)
    requires cut < |cmds|
    ensures !RunAll(u, cmds, cut).1
    decreases |cmds|
  {
    if cut > 0 {
      match Exec(u, cmds[0]) {
        case None =>
        case Some(v) => ShortRun(v, cmds[1..], cut - 1);
      }
    }
  }

  lemma {:induction false} NetworkOnly(u: State, cmds: seq<Argv>, cut: nat)
    requires forall i :: 0 <= i < |cmds| ==> ImportCmd(cmds[i]) && !cmds[i].EnsureVpnZone?
    ensures RunAll(u, cmds, cut).0.firewall == u.firewall
    decreases |cmds|
  {
    if cmds != [] && cut > 0 {
      match Exec(u, cmds[0]) {
        case None =>
        case Some(v) => NetworkOnly(v, cmds[1..], cut - 1);
      }
    }
  }

  lemma {:induction false} NoZoneInPeers(ps: seq<W.Peer>)
    ensures forall i :: 0 <= i < |PeersCmds(ps)| ==> !PeersCmds(ps)[i].EnsureVpnZone?
  {
    if ps != [] {
      NoZoneInPeers(ps[1..]);
    }
  }

  lemma NoZoneBefore(u: State, cfg: W.Config, before: seq<Argv>, cut: nat)
    requires before == HeadCmds(cfg) + PeersCmds(cfg.peers) + [Commit(Network)]
    ensures RunAll(u, before, cut).0.firewall == u.firewall
  {
    PeersCmdsAre(cfg.peers);
    NoZoneInPeers(cfg.peers);
    NetworkOnly(u, before, cut);
  }

  /** After any attempts, the zone was set up once if any attempt got that far, and never otherwise. */
  lemma {:induction false} AttemptsZone(u: State, tries: seq<(W.Config, nat)>)
    ensures Attempts(u, tries).firewall.staged
            == if exists i :: 0 <= i < |tries| && ReachedZone(tries[i]) then Zoned(u.firewall.staged) else u.firewall.staged
    decreases |tries|
  {
    hide RunAll, ImportCmds, VpnZone;
    if tries != [] {
      var v := RunAll(u, ImportCmds(tries[0].0), tries[0].1).0;
      ZoneStepReached(u, tries[0].0, tries[0].1);
      AttemptsZone(v, tries[1..]);
      ZonedShows(u.firewall.staged);
      assert forall i :: 0 <= i < |tries[1..]| ==> tries[1..][i] == tries[i + 1];
      assert forall i :: 0 < i < |tries| ==> tries[i] == tries[1..][i - 1];
    }
  }

  predicate IsLanVpn(s: Section) {
    s.kind == "forwarding" && s.Shows("src", "lan") && s.Shows("dest", "vpn")
  }

  function CountVpnZones(c: Uci.Config): nat {
    if c == [] then 0 else (if NameStarts(c[0], "vpn") then 1 else 0) + CountVpnZones(c[1..])
  }

  function CountLanVpn(c: Uci.Config): nat {
    if c == [] then 0 else (if IsLanVpn(c[0]) then 1 else 0) + CountLanVpn(c[1..])
  }

  lemma {:induction false} CountsAppend(c: Uci.Config, d: Uci.Config)
    ensures CountVpnZones(c + d) == CountVpnZones(c) + CountVpnZones(d)
    ensures CountLanVpn(c + d) == CountLanVpn(c) + CountLanVpn(d)
  {
    if c == [] {
      assert c + d == d;
    } else {
      assert (c + d)[1..] == c[1..] + d;
      CountsAppend(c[1..], d);
    }
  }

  lemma {:induction false} NoneShown(c: Uci.Config)
    requires !NameShown(c, "vpn")
    ensures CountVpnZones(c) == 0
  {
    if c != [] {
      assert !NameStarts(c[0], "vpn");
      forall i | 0 <= i < |c[1..]|
        ensures !NameStarts(c[1..][i], "vpn")
      {
        assert c[1..][i] == c[i + 1];
      }
      NoneShown(c[1..]);
    }
  }

  lemma ZonedCounts(c: Uci.Config, iface: string)
    requires !NameShown(c, "vpn")
    ensures var d := ZonedWith(c, iface);
            && CountVpnZones(d) == 1
            && CountLanVpn(d) == CountLanVpn(c) + 1
            && Forwardings(d) == Forwardings(c) + [LAN_VPN]
  {
    var zone := VpnZone(iface);
    ZoneShowsName(iface, 1);
    NoneShown(c);
    PairCounts(zone, LAN_VPN);
    CountsAppend(c, [zone, LAN_VPN]);
    ForwardingsAppend(c, [zone, LAN_VPN]);
  }

  lemma PairCounts(s: Section, t: Section)
    requires s.kind == "zone" && s.name == None && NameStarts(s, "vpn") && t == LAN_VPN
    ensures CountVpnZones([s, t]) == 1 && CountLanVpn([s, t]) == 1 && Forwardings([s, t]) == [t]
  {
    assert [s] + [t] == [s, t];
    CountsAppend([s], [t]);
    ForwardingsAppend([s], [t]);
    assert [s][1..] == [] && [t][1..] == [];
    assert CountVpnZones([s]) == 1 && CountVpnZones([t]) == 0;
    assert CountLanVpn([s]) == 0 && CountLanVpn([t]) == 1;
    assert Forwardings([s]) == [] && Forwardings([t]) == [t];
  }

  /**
   Any sequence of imports, each stopping wherever it likes, that starts without a vpn zone and
   gets past the zone script at least once: exactly one vpn zone, exactly one lan→vpn forwarding
   more than before, and the kill switch reads as it did.
   */
  lemma ImportsMakeOneZone(u: State, tries: seq<(W.Config, nat)>)
    requires !NameShown(u.firewall.staged, "vpn")
    requires exists i :: 0 <= i < |tries| && ReachedZone(tries[i])
    ensures var c := Attempts(u, tries).firewall.staged;
            && CountVpnZones(c) == 1
            && CountLanVpn(c) == CountLanVpn(u.firewall.staged) + 1
            && Forwardings(c) == Forwardings(u.firewall.staged) + [LAN_VPN]
  {
    AttemptsZone(u, tries);
    ZonedCounts(u.firewall.staged, IFACE);
  }

  /** No sequence of imports changes what KillSwitch() reports. */
  lemma ImportsKeepKillSwitch(u: State, tries: seq<(W.Config, nat)>)
    ensures IsOn(Attempts(u, tries).firewall.staged) <==> IsOn(u.firewall.staged)
  {
    hide Attempts, NameShown;
    AttemptsZone(u, tries);
    var c := u.firewall.staged;
    var d := Zoned(c);
    assert VpnZone(IFACE).kind == "zone";
    assert forall i :: 0 <= i < |c| ==> d[i] == c[i];
    assert d != c ==> d[|c|] == VpnZone(IFACE) && d[|c| + 1] == LAN_VPN;
  }

  /**
   The script itself is not safe to interrupt. Killed after its k-th command and then run again,
   it brings the lan→vpn forwarding about exactly if it had not yet named the zone, or was done.
   */
  lemma InterruptedZoneScript(c: Uci.Config, iface: string, k: nat)
    requires k <= 11 && !NameShown(c, "vpn") && CountLanVpn(c) == 0
    ensures CountLanVpn(ZonedWith(ApplyScript(c, VpnZoneBody(iface)[..k]), iface)) > 0 <==> k <= 1 || k == 11
  {
    var a := ZoneEdits(iface);
    var b := FORWARDING_EDITS;
    BodyShape(iface);
    ScriptPrefix(c, a, b, k);
    if k <= 1 {
      HalfUnnamed(c, a, b, k);
      ZonedCounts(Half(c, a, b, k), iface);
    } else {
      ZoneShowsName(iface, if k <= 8 then k - 1 else 7);
      if k <= 8 {
        HalfZoneNamed(c, a, b, k);
      } else {
        ForwardingShows(k - 9);
        HalfForwardingNamed(c, a, b, k);
      }
    }
  }

  lemma HalfUnnamed(c: Uci.Config, a: seq<Edit>, b: seq<Edit>, k: nat)
    requires k <= 1 && !NameShown(c, "vpn")
    ensures !NameShown(Half(c, a, b, k), "vpn")
  {
    var d := Half(c, a, b, k);
    if k == 1 {
      assert a[..0] == [];
      assert d == c + [BARE_ZONE];
      forall i | 0 <= i < |d|
        ensures !NameStarts(d[i], "vpn")
      {
        assert i < |c| ==> d[i] == c[i];
      }
    }
  }

  lemma HalfZoneNamed(c: Uci.Config, a: seq<Edit>, b: seq<Edit>, k: nat)
    requires 2 <= k <= |a| + 1
    requires EditSection(BARE_ZONE, a[..k - 1]).Get("name") == Some(Scalar("vpn"))
    ensures var d := Half(c, a, b, k);
            NameShown(d, "vpn") && CountLanVpn(d) == CountLanVpn(c)
  {
    var s := EditSection(BARE_ZONE, a[..k - 1]);
    var d := c + [s];
    assert NameStarts(d[|c|], "vpn");
    CountsAppend(c, [s]);
    assert [s][1..] == [];
  }

  lemma HalfForwardingNamed(c: Uci.Config, a: seq<Edit>, b: seq<Edit>, k: nat)
    requires |a| + 2 <= k <= |a| + |b| + 2
    requires EditSection(BARE_ZONE, a).Get("name") == Some(Scalar("vpn"))
    ensures var d := Half(c, a, b, k);
            && NameShown(d, "vpn")
            && CountLanVpn(d) == CountLanVpn(c) + if IsLanVpn(EditSection(BARE_FORWARDING, b[..k - |a| - 2])) then 1 else 0
  {
    var s := EditSection(BARE_ZONE, a);
    var t := EditSection(BARE_FORWARDING, b[..k - |a| - 2]);
    var d := c + [s] + [t];
    assert NameStarts(d[|c|], "vpn");
    CountsAppend(c + [s], [t]);
    CountsAppend(c, [s]);
    assert [s][1..] == [] && [t][1..] == [];
  }

  lemma ForwardingShows(k: nat)
    requires k <= 2
    ensures IsLanVpn(EditSection(BARE_FORWARDING, FORWARDING_EDITS[..k])) <==> k == 2
  {
    if k == 2 {
      assert FORWARDING_EDITS[..2] == FORWARDING_EDITS;
      ForwardingBuilt();
    } else {
      EditsKeepOthers(BARE_FORWARDING, FORWARDING_EDITS[..k], "dest");
    }
  }
}
