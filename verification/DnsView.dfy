/**
 Encrypted DNS as the router lives it (internal/dns/service.go): after a call that reported success, what
 the running firewall does with packets to port 53 and to the resolvers, and where dnsmasq sends queries.
 */
module DnsView {
  import opened Common
  import opened GoStrings
  import opened Uci
  import opened Live
  import opened FirewallView
  import D = DnsService
  import Posture

  const KS_OPTS: set<string> := {"name", "dest", "proto", "dest_port", "dest_ip", "target"}
  const OUT_OPTS: set<string> := {"name", "dest", "proto", "dest_port", "target"}
  const FWD_OPTS: set<string> := {"name", "src", "dest", "proto", "dest_port", "target"}
  const HIJACK_OPTS: set<string> := {"name", "src", "proto", "src_dport", "target"}

  // ---------- The sections ----------

  /** The fail-closed rule rejects the router's own tcp to port 443 of the known resolvers, and nothing else. */
  lemma RuleMeans(c: Config, p: Packet)
    requires D.RuleInstalled(c) && Pure(c, "mistui_dns_ks", KS_OPTS)
    ensures RuleRejects(c, "mistui_dns_ks", p)
            <==> p.from == None && p.to == "wan" && p.proto == "tcp" && p.port == 443 && p.dst in D.ResolverIps()
  {
    hide D.ResolverIps, Split;
    var s := Lookup(c, "mistui_dns_ks").value;
    var t := D.KS_HEAD;
    assert s.Get(t[1].0) == Some(Scalar(t[1].1)) && s.Get(t[2].0) == Some(Scalar(t[2].1));
    assert s.Get(t[3].0) == Some(Scalar(t[3].1));
    PortTexts();
    PortIs(s, "dest_port", p.port, 443);
    ProtoIs(s, p.proto);
    Absent(s, KS_OPTS, "src");
    Absent(s, KS_OPTS, "enabled");
  }

  lemma Absent(s: Section, opts: set<string>, opt: string)
    requires s.options.Keys <= opts && opt !in opts
    ensures s.Get(opt) == None
  {
  }

  /** The resolvers are those of the providers. */
  lemma ResolversAre()
    ensures D.ResolverIps() == ["9.9.9.9", "149.112.112.112", "1.1.1.1", "1.0.0.1", "194.242.2.2"]
  {
    var ps := D.PROVIDERS;
    assert ps[1..][1..] == [ps[2]] && ps[1..][1..][1..] == [];
    assert D.IpsOf(ps) == ps[0].ips + (ps[1].ips + (ps[2].ips + []));
  }

  /** The first two rules reject every query to port 53 of the wan, the third turns those of the lan to the router. */
  lemma RulesMean(c: Config, p: Packet)
    requires D.RulesInstalled(c)
    requires Pure(c, "mistui_dns_out", OUT_OPTS) && Pure(c, "mistui_dns_fwd", FWD_OPTS) && Pure(c, "mistui_dns_hijack", HIJACK_OPTS)
    ensures var query := (p.proto == "tcp" || p.proto == "udp") && p.port == 53;
            && (RuleRejects(c, "mistui_dns_out", p) <==> query && p.from == None && p.to == "wan")
            && (RuleRejects(c, "mistui_dns_fwd", p) <==> query && p.from == Some("lan") && p.to == "wan")
            && (RedirectCaptures(c, "mistui_dns_hijack", p) <==> query && p.from == Some("lan"))
  {
    OutMeans(Lookup(c, "mistui_dns_out").value, p);
    FwdMeans(Lookup(c, "mistui_dns_fwd").value, p);
    HijackMeans(Lookup(c, "mistui_dns_hijack").value, p);
  }

  lemma OutMeans(s: Section, p: Packet)
    requires Carries(s, "rule", D.OUT_RULE) && s.options.Keys <= OUT_OPTS
    ensures Rejects(s, p) <==> p.from == None && p.to == "wan" && (p.proto == "tcp" || p.proto == "udp") && p.port == 53
  {
    hide Split;
    var t := D.OUT_RULE;
    assert forall i :: 0 <= i < 5 ==> s.Get(t[i].0) == Some(Scalar(t[i].1));
    assert s.Get(t[1].0).Some? && s.Get(t[2].0).Some? && s.Get(t[3].0).Some? && s.Get(t[4].0).Some?;
    PortTexts();
    PortIs(s, "dest_port", p.port, 53);
    ProtoIs(s, p.proto);
    Absent(s, OUT_OPTS, "src");
    Absent(s, OUT_OPTS, "enabled");
    Absent(s, OUT_OPTS, "dest_ip");
  }

  lemma FwdMeans(s: Section, p: Packet)
    requires Carries(s, "rule", D.FWD_RULE) && s.options.Keys <= FWD_OPTS
    ensures Rejects(s, p)
            <==> p.from == Some("lan") && p.to == "wan" && (p.proto == "tcp" || p.proto == "udp") && p.port == 53
  {
    hide Split;
    var t := D.FWD_RULE;
    assert forall i :: 0 <= i < 6 ==> s.Get(t[i].0) == Some(Scalar(t[i].1));
    assert s.Get(t[1].0).Some? && s.Get(t[2].0).Some? && s.Get(t[3].0).Some? && s.Get(t[4].0).Some? && s.Get(t[5].0).Some?;
    PortTexts();
    PortIs(s, "dest_port", p.port, 53);
    ProtoIs(s, p.proto);
    Absent(s, FWD_OPTS, "enabled");
    Absent(s, FWD_OPTS, "dest_ip");
  }

  lemma HijackMeans(s: Section, p: Packet)
    requires Carries(s, "redirect", D.HIJACK_RULE) && s.options.Keys <= HIJACK_OPTS
    ensures Captures(s, p) <==> p.from == Some("lan") && (p.proto == "tcp" || p.proto == "udp") && p.port == 53
  {
    hide Split;
    var t := D.HIJACK_RULE;
    assert forall i :: 0 <= i < 5 ==> s.Get(t[i].0) == Some(Scalar(t[i].1));
    assert s.Get(t[1].0).Some? && s.Get(t[2].0).Some? && s.Get(t[3].0).Some? && s.Get(t[4].0).Some?;
    PortTexts();
    PortIs(s, "src_dport", p.port, 53);
    ProtoIs(s, p.proto);
    Absent(s, HIJACK_OPTS, "enabled");
    Absent(s, HIJACK_OPTS, "dest_ip");
  }

  // ---------- The lists keep the sections pure and end settled ----------

  /** The daemon's sections, as far as they exist, hold no options but its own. */
  predicate Pristine(c: Config) {
    && Pure(c, "mistui_dns_ks", KS_OPTS) && Pure(c, "mistui_dns_out", OUT_OPTS)
    && Pure(c, "mistui_dns_fwd", FWD_OPTS) && Pure(c, "mistui_dns_hijack", HIJACK_OPTS)
  }

  predicate AllTidy(cmds: seq<Argv>, n: string, opts: set<string>) {
    forall i :: 0 <= i < |cmds| ==> Tidy(cmds[i], n, opts)
  }

  lemma EnableTidy(spec: D.Address)
    ensures AllTidy(D.EnableCmds(spec), "mistui_dns_ks", KS_OPTS) && AllTidy(D.EnableCmds(spec), "mistui_dns_out", OUT_OPTS)
    ensures AllTidy(D.EnableCmds(spec), "mistui_dns_fwd", FWD_OPTS) && AllTidy(D.EnableCmds(spec), "mistui_dns_hijack", HIJACK_OPTS)
  {
    hide Tidy;
    var cmds := D.EnableCmds(spec);
    forall i | 0 <= i < |cmds|
      ensures Tidy(cmds[i], "mistui_dns_ks", KS_OPTS) && Tidy(cmds[i], "mistui_dns_out", OUT_OPTS)
      ensures Tidy(cmds[i], "mistui_dns_fwd", FWD_OPTS) && Tidy(cmds[i], "mistui_dns_hijack", HIJACK_OPTS)
    {
      EnableTidyAt(spec, i);
    }
  }

  lemma EnableTidyAt(spec: D.Address, i: nat)
    requires i < |D.EnableCmds(spec)|
    ensures var a := D.EnableCmds(spec)[i];
            && Tidy(a, "mistui_dns_ks", KS_OPTS) && Tidy(a, "mistui_dns_out", OUT_OPTS)
            && Tidy(a, "mistui_dns_fwd", FWD_OPTS) && Tidy(a, "mistui_dns_hijack", HIJACK_OPTS)
  {
  }

  lemma DisableTidy(spec: D.Address)
    ensures AllTidy(D.DisableCmds(spec), "mistui_dns_ks", KS_OPTS) && AllTidy(D.DisableCmds(spec), "mistui_dns_out", OUT_OPTS)
    ensures AllTidy(D.DisableCmds(spec), "mistui_dns_fwd", FWD_OPTS) && AllTidy(D.DisableCmds(spec), "mistui_dns_hijack", HIJACK_OPTS)
  {
  }

  lemma FailClosedTidy(on: bool)
    ensures var cmds := D.FailClosedCmds(on);
            && AllTidy(cmds, "mistui_dns_ks", KS_OPTS) && AllTidy(cmds, "mistui_dns_out", OUT_OPTS)
            && AllTidy(cmds, "mistui_dns_fwd", FWD_OPTS) && AllTidy(cmds, "mistui_dns_hijack", HIJACK_OPTS)
  {
    hide D.ResolverIps, Tidy;
    var cmds := D.FailClosedCmds(on);
    forall i | 0 <= i < |cmds|
      ensures Tidy(cmds[i], "mistui_dns_ks", KS_OPTS) && Tidy(cmds[i], "mistui_dns_out", OUT_OPTS)
      ensures Tidy(cmds[i], "mistui_dns_fwd", FWD_OPTS) && Tidy(cmds[i], "mistui_dns_hijack", HIJACK_OPTS)
    {
      FailClosedTidyAt(on, i);
    }
  }

  lemma FailClosedTidyAt(on: bool, i: nat)
    requires i < |D.FailClosedCmds(on)|
    ensures var a := D.FailClosedCmds(on)[i];
            && Tidy(a, "mistui_dns_ks", KS_OPTS) && Tidy(a, "mistui_dns_out", OUT_OPTS)
            && Tidy(a, "mistui_dns_fwd", FWD_OPTS) && Tidy(a, "mistui_dns_hijack", HIJACK_OPTS)
  {
    hide D.ResolverIps;
  }

  lemma PristineRun(u: State, cmds: seq<Argv>, cut: nat)
    requires Pristine(u.firewall.staged)
    requires AllTidy(cmds, "mistui_dns_ks", KS_OPTS) && AllTidy(cmds, "mistui_dns_out", OUT_OPTS)
    requires AllTidy(cmds, "mistui_dns_fwd", FWD_OPTS) && AllTidy(cmds, "mistui_dns_hijack", HIJACK_OPTS)
    ensures Pristine(RunAll(u, cmds, cut).0.firewall.staged)
  {
    hide Tidy, Pure, RunAll;
    PureRun(u, cmds, cut, "mistui_dns_ks", KS_OPTS);
    PureRun(u, cmds, cut, "mistui_dns_out", OUT_OPTS);
    PureRun(u, cmds, cut, "mistui_dns_fwd", FWD_OPTS);
    PureRun(u, cmds, cut, "mistui_dns_hijack", HIJACK_OPTS);
  }

  lemma EnableReloads(spec: D.Address)
    ensures Reloads(D.EnableCmds(spec), Firewall) && Reloads(D.EnableCmds(spec), Dhcp)
  {
    var cmds := D.EnableCmds(spec);
    var n := |cmds|;
    assert cmds[n - 1] == Service("firewall reload") && cmds[n - 2] == Service("dnsmasq restart");
  }

  lemma DisableReloads(spec: D.Address)
    ensures Reloads(D.DisableCmds(spec), Firewall) && Reloads(D.DisableCmds(spec), Dhcp)
  {
    var cmds := D.DisableCmds(spec);
    var n := |cmds|;
    assert cmds[n - 1] == Service("firewall reload") && cmds[n - 2] == Service("dnsmasq restart");
  }

  lemma FailClosedReloads(on: bool)
    ensures Reloads(D.FailClosedCmds(on), Firewall)
  {
    hide D.ResolverIps;
    var cmds := D.FailClosedCmds(on);
    assert cmds[|cmds| - 1] == Service("firewall reload");
  }

  // ---------- After a call that reported success ----------

  /** The section dnsmasq reads. */
  function Dnsmasq(c: Config): Option<Section> {
    var p := Resolve(c, Indexed("dnsmasq", 0));
    if p < |c| then Some(c[p]) else None
  }

  lemma Succeeded(l: Live, cmds: seq<Argv>, cut: nat)
    requires LiveRun(l, cmds, cut).1
    ensures RunAll(l.uci, cmds, cut).1 && RunFull(l.uci, cmds) == (LiveRun(l, cmds, cut).0.uci, true)
  {
    LiveIsRun(l, cmds, cut);
    OkMeansFull(l.uci, cmds, cut);
  }

  /**
   After Enable the running firewall lets no plain query out: those of the router and of the lan to the
   wan are rejected, and those of the lan reach the router instead, wherever they were bound. dnsmasq,
   restarted, asks nobody it is not told of, keeps the servers it had and has the forwarder last.
   */
  lemma EnableView(l: Live, cut: nat, spec: D.Address, p: Packet)
    requires Pristine(l.uci.firewall.staged) && LiveRun(l, D.EnableCmds(spec), cut).1
    ensures var m := LiveRun(l, D.EnableCmds(spec), cut).0;
            var query := (p.proto == "tcp" || p.proto == "udp") && p.port == 53;
            && (RuleRejects(m.firewall, "mistui_dns_out", p) <==> query && p.from == None && p.to == "wan")
            && (RuleRejects(m.firewall, "mistui_dns_fwd", p) <==> query && p.from == Some("lan") && p.to == "wan")
            && (RedirectCaptures(m.firewall, "mistui_dns_hijack", p) <==> query && p.from == Some("lan"))
            && Dnsmasq(m.dhcp).Some?
            && var s := Dnsmasq(m.dhcp).value;
               && s.Get("noresolv") == Some(Scalar("1"))
               && Items(s.Get("server")) != [] && Items(s.Get("server"))[|Items(s.Get("server"))| - 1] == spec
               && Without(Items(s.Get("server")), spec) == Without(D.Servers(l.uci), spec)
  {
    hide D.EnableCmds, RuleRejects, RedirectCaptures, LiveRun, RunAll, D.RulesInstalled, D.FirewallEnabled, Reloads;
    var cmds := D.EnableCmds(spec);
    var m := LiveRun(l, cmds, cut).0;
    Succeeded(l, cmds, cut);
    D.EnableRuns(l.uci, spec);
    EnableReloads(spec);
    ReloadSettles(l, cmds, cut, Firewall);
    ReloadSettles(l, cmds, cut, Dhcp);
    EnableTidy(spec);
    PristineRun(l.uci, cmds, |cmds|);
    D.EnableInstalls(l.uci.firewall.staged);
    RulesMean(m.firewall, p);
    D.EnableOnlyListed(l.uci, spec);
    D.ForwarderOnce(l.uci, spec);
  }

  /** After Disable nothing of the daemon's is left in the running firewall, and dnsmasq is back on its own. */
  lemma DisableView(l: Live, cut: nat, spec: D.Address)
    requires LiveRun(l, D.DisableCmds(spec), cut).1
    ensures var m := LiveRun(l, D.DisableCmds(spec), cut).0;
            && Lookup(m.firewall, "mistui_dns_out") == None && Lookup(m.firewall, "mistui_dns_fwd") == None
            && Lookup(m.firewall, "mistui_dns_hijack") == None && Lookup(m.firewall, "mistui_dns_ks") == None
            && (Dnsmasq(m.dhcp).Some? ==>
                  && Dnsmasq(m.dhcp).value.Get("noresolv") == None
                  && Items(Dnsmasq(m.dhcp).value.Get("server"))
                     == if D.ServerOption(l.uci).Some? && D.ServerOption(l.uci).value.Scalar? then D.Servers(l.uci)
                        else Without(D.Servers(l.uci), spec))
  {
    hide D.DisableCmds, LiveRun, RunAll, Reloads, DropNames, DelItem;
    var cmds := D.DisableCmds(spec);
    var m := LiveRun(l, cmds, cut).0;
    Succeeded(l, cmds, cut);
    D.DisableRuns(l.uci, spec);
    DisableReloads(spec);
    ReloadSettles(l, cmds, cut, Firewall);
    ReloadSettles(l, cmds, cut, Dhcp);
    DropNamesGone(l.uci.firewall.staged, D.OWNED);
    D.ServersAfterDisable(l.uci, spec);
    DisabledSection(l.uci, spec);
  }

  lemma DisabledSection(u: State, spec: D.Address)
    ensures var v := D.DisableResult(u, spec);
            Dnsmasq(v.dhcp.staged).Some? ==>
              Dnsmasq(v.dhcp.staged).value.Get("noresolv") == None && Items(Dnsmasq(v.dhcp.staged).value.Get("server")) == D.Servers(v)
  {
    hide D.FirewallDisabled;
    if D.HasDnsmasq(u) {
      var s := u.dhcp.staged[D.DnsmasqAt(u)];
      D.DelItemKind(s.Drop("noresolv"), spec);
      ResolveUpdate(u.dhcp.staged, D.DnsmasqAt(u), D.ServerOff(s, spec), D.DNSMASQ);
    }
  }

  /**
   After SetFailClosed(true) the running firewall's rule rejects exactly the router's own tcp to port 443
   of a known resolver on its way to the wan; after SetFailClosed(false) it is gone.
   */
  lemma FailClosedView(l: Live, on: bool, cut: nat, p: Packet)
    requires Pristine(l.uci.firewall.staged) && LiveRun(l, D.FailClosedCmds(on), cut).1
    ensures var m := LiveRun(l, D.FailClosedCmds(on), cut).0;
            RuleRejects(m.firewall, "mistui_dns_ks", p)
            <==> on && p.from == None && p.to == "wan" && p.proto == "tcp" && p.port == 443
                 && p.dst in ["9.9.9.9", "149.112.112.112", "1.1.1.1", "1.0.0.1", "194.242.2.2"]
  {
    hide D.FailClosedCmds, LiveRun, RunAll, D.RuleInstalled, Reloads, D.ResolverIps, D.FailClosedEdits, Rejects, D.KsSection;
    var cmds := D.FailClosedCmds(on);
    var m := LiveRun(l, cmds, cut).0;
    Succeeded(l, cmds, cut);
    D.FailClosedRuns(l.uci, on);
    FailClosedReloads(on);
    ReloadSettles(l, cmds, cut, Firewall);
    FailClosedTidy(on);
    PristineRun(l.uci, cmds, |cmds|);
    Posture.FailClosedOk(l.uci, on, cut);
    OkMeansFull(l.uci, cmds, cut);
    if on {
      RuleMeans(m.firewall, p);
      ResolversAre();
    }
  }
}
