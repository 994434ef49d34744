/**
 How the two protections meet in the store: what the kill-switch script leaves alone of encrypted
 DNS, what any stretch of DNS commands leaves alone of the kill switch, and what a DNS list that
 stops early can have done to the fail-closed rule.
 */
module Posture {
  import opened Common
  import opened Uci
  import K = KillSwitch
  import D = DnsService
  import V = VpnImport
  import W = WgConfig
  import opened PortalMode

  // ---------- The kill-switch script ----------

  lemma {:induction false} DropNamesOfSwitch(c: Config, names: set<string>)
    ensures DropNames(K.DropLanWan(c), names) == K.DropLanWan(DropNames(c, names))
    ensures K.IsOn(DropNames(c, names)) <==> K.IsOn(c)
  {
    if c != [] {
      DropNamesOfSwitch(c[1..], names);
      K.OnByHead(c);
      var d := DropNames(c, names);
      if Called(c[0], names) {
        assert d == DropNames(c[1..], names);
      } else {
        assert d[1..] == DropNames(c[1..], names);
        K.OnByHead(d);
      }
      var e := K.DropLanWan(c);
      if K.IsLanWan(c[0]) {
        assert e == K.DropLanWan(c[1..]);
      } else {
        assert e[1..] == K.DropLanWan(c[1..]);
      }
    }
  }

  /** The part of the firewall package that belongs to nobody in particular. */
  function Unowned(u: State): Config {
    DropNames(u.firewall.staged, D.OWNED)
  }

  /** The switch moves one anonymous forwarding at the end of that part, and nothing else anywhere. */
  lemma SwitchFacts(u: State, on: bool, out: K.Outcome)
    ensures var v := Scripted(u, on, out);
            && v == u.(firewall := v.firewall)
            && (forall n :: Lookup(v.firewall.staged, n) == Lookup(u.firewall.staged, n))
            && (out.started ==> K.IsOn(v.firewall.staged) == on)
            && (!out.started ==> v == u)
            && Unowned(v) == if !out.started || K.IsOn(u.firewall.staged) == on then Unowned(u)
                          else if on then K.DropLanWan(Unowned(u)) else Unowned(u) + [K.LAN_WAN]
  {
    K.ReadsBack(u.firewall, on);
    K.SwitchedFrame(u.firewall, on);
    DropNamesOfSwitch(u.firewall.staged, D.OWNED);
    DropNamesAppend(u.firewall.staged, [K.LAN_WAN], D.OWNED);
    assert DropNames([K.LAN_WAN], D.OWNED) == [K.LAN_WAN];
  }

  // ---------- Stretches of DNS commands ----------

  /** No DNS command, run or not, moves the kill switch. */
  lemma DnsKeepsSwitch(u: State, cmds: seq<Argv>, cut: nat, spec: D.Address)
    requires D.DnsCmds(cmds, spec)
    ensures var v := RunAll(u, cmds, cut).0;
            && D.DnsTouched(u, v, spec)
            && (K.IsOn(v.firewall.staged) <==> K.IsOn(u.firewall.staged))
            && (D.PlainServers(u, spec) ==> D.PlainServers(v, spec))
  {
    D.DnsTouchedRun(u, cmds, cut, spec);
    var v := RunAll(u, cmds, cut).0;
    DropNamesOfSwitch(u.firewall.staged, D.OWNED);
    DropNamesOfSwitch(v.firewall.staged, D.OWNED);
    if D.PlainServers(u, spec) {
      D.PlainKept(u, v, spec);
    }
  }

  lemma HalvesKeep(u: State, a: seq<Argv>, b: seq<Argv>, cut: nat, names: set<string>, n: string)
    requires D.DhcpHalf(a) && AllConfined(b, Firewall, names) && n !in names
    ensures Lookup(RunAll(u, a + b, cut).0.firewall.staged, n) == Lookup(u.firewall.staged, n)
  {
    RunAppend(u, a, b, cut);
    D.DhcpOnly(u, a, cut);
    var v := RunAll(u, a, cut).0;
    if cut >= |a| {
      ConfinedRun(v, b, Firewall, names, cut - |a|);
      OnlyNamesFrame(v.firewall.staged, RunAll(v, b, cut - |a|).0.firewall.staged, names);
    }
  }

  lemma EnableFirewallConfined()
    ensures AllConfined(D.EnableFirewall(), Firewall, D.RULES)
  {
  }

  lemma FailClosedConfined(on: bool)
    ensures AllConfined(D.FailClosedCmds(on), Firewall, {D.KS})
  {
  }

  /** Enable never touches the fail-closed rule. */
  lemma EnableKeepsRule(u: State, cut: nat, spec: D.Address)
    ensures Lookup(RunAll(u, D.EnableCmds(spec), cut).0.firewall.staged, D.KS) == Lookup(u.firewall.staged, D.KS)
  {
    EnableFirewallConfined();
    HalvesKeep(u, D.EnableDhcp(spec), D.EnableFirewall(), cut, D.RULES, D.KS);
  }

  /** SetFailClosed touches nothing but its own rule. */
  lemma FailClosedKeepsRest(u: State, on: bool, cut: nat)
    ensures var v := RunAll(u, D.FailClosedCmds(on), cut).0;
            && v == u.(firewall := v.firewall)
            && Unowned(v) == Unowned(u)
            && (forall n :: n != D.KS ==> Lookup(v.firewall.staged, n) == Lookup(u.firewall.staged, n))
            && (K.IsOn(v.firewall.staged) <==> K.IsOn(u.firewall.staged))
  {
    var v := RunAll(u, D.FailClosedCmds(on), cut).0;
    FailClosedConfined(on);
    ConfinedRun(u, D.FailClosedCmds(on), Firewall, {D.KS}, cut);
    WiderNames(u.firewall.staged, v.firewall.staged, {D.KS}, D.OWNED);
    OnlyNamesFrame(u.firewall.staged, v.firewall.staged, {D.KS});
    DropNamesOfSwitch(u.firewall.staged, D.OWNED);
    DropNamesOfSwitch(v.firewall.staged, D.OWNED);
  }

  /** SetFailClosed that reports success did what it says. */
  lemma FailClosedOk(u: State, on: bool, cut: nat)
    requires RunAll(u, D.FailClosedCmds(on), cut).1
    ensures var c := RunAll(u, D.FailClosedCmds(on), cut).0.firewall.staged;
            if on then D.RuleInstalled(c) else Lookup(c, D.KS) == None
  {
    var cmds := D.FailClosedCmds(on);
    OkMeansFull(u, cmds, cut);
    D.FailClosedRuns(u, on);
    D.FailClosedInstalls(u.firewall.staged);
    DropNamedGone(u.firewall.staged, D.KS);
  }

  lemma EnableOk(u: State, cut: nat, spec: D.Address)
    requires RunAll(u, D.EnableCmds(spec), cut).1
    ensures var v := RunAll(u, D.EnableCmds(spec), cut).0;
            v == D.EnableResult(u, spec) && D.HasDnsmasq(u) && D.Enabled(v, spec)
  {
    OkMeansFull(u, D.EnableCmds(spec), cut);
    D.EnableRuns(u, spec);
    D.ForwarderOnce(u, spec);
    D.EnabledIsMembership(D.EnableResult(u, spec), spec);
  }

  lemma DisableOk(u: State, cut: nat, spec: D.Address)
    requires RunAll(u, D.DisableCmds(spec), cut).1 && D.PlainServers(u, spec)
    ensures !D.Enabled(RunAll(u, D.DisableCmds(spec), cut).0, spec)
  {
    OkMeansFull(u, D.DisableCmds(spec), cut);
    D.DisableRuns(u, spec);
    D.DisabledReadsOff(u, spec);
  }

  // ---------- Disable cut short ----------

  predicate Removal(a: Argv, spec: D.Address) {
    || a == Quiet(Dhcp, DeleteOption(D.DNSMASQ, "noresolv"))
    || a == Quiet(Dhcp, DelList(D.DNSMASQ, "server", spec))
    || a == Commit(Dhcp)
  }

  lemma {:induction false} ServersShrink(u: State, cmds: seq<Argv>, cut: nat, spec: D.Address)
    requires forall i :: 0 <= i < |cmds| ==> Removal(cmds[i], spec)
    ensures forall t :: t in D.Servers(RunAll(u, cmds, cut).0) ==> t in D.Servers(u)
    decreases |cmds|
  {
    if cmds != [] && cut > 0 {
      assert Removal(cmds[0], spec);
      var v := Exec(u, cmds[0]).value;
      if D.HasDnsmasq(u) {
        var c := u.dhcp.staged;
        var s := c[D.DnsmasqAt(u)];
        ResolveUpdate(c, D.DnsmasqAt(u), s.Drop("noresolv"), D.DNSMASQ);
        ResolveUpdate(c, D.DnsmasqAt(u), DelItem(s, "server", spec), D.DNSMASQ);
        WithoutMembers(Items(s.Get("server")), spec);
      }
      ServersShrink(v, cmds[1..], cut - 1, spec);
    }
  }

  predicate Deletion(a: Argv) {
    || (a.Quiet? && a.pkg == Firewall && a.op.DeleteSection? && a.op.ref.Named?)
    || a == Commit(Firewall) || a.Service?
  }

  /** Quiet deletions of named sections: each section ends as it was, or gone. */
  lemma {:induction false} DeletionsOnly(u: State, cmds: seq<Argv>, cut: nat, n: string)
    requires forall i :: 0 <= i < |cmds| ==> Deletion(cmds[i])
    ensures var v := RunAll(u, cmds, cut).0;
            && v == u.(firewall := v.firewall)
            && (Lookup(v.firewall.staged, n) == Lookup(u.firewall.staged, n) || Lookup(v.firewall.staged, n) == None)
    decreases |cmds|
  {
    if cmds != [] && cut > 0 {
      assert Deletion(cmds[0]);
      var v := Exec(u, cmds[0]).value;
      var c := u.firewall.staged;
      if cmds[0].Quiet? {
        var m := cmds[0].op.ref.name;
        D.DropQuietly(c, m);
        DropNamedGone(c, m);
        DropNamedIn(c, m, {m});
        OnlyNamesFrame(c, DropNamed(c, m), {m});
      }
      DeletionsOnly(v, cmds[1..], cut - 1, n);
    }
  }

  /** One half at a time: servers first, then the rules. */
  ghost predicate ShortDisable(u: State, v: State, spec: D.Address) {
    && (D.Enabled(v, spec) ==> D.Enabled(u, spec) && Lookup(v.firewall.staged, D.KS) == Lookup(u.firewall.staged, D.KS))
    && (Lookup(v.firewall.staged, D.KS) == Lookup(u.firewall.staged, D.KS)
        || Lookup(v.firewall.staged, D.KS) == None)
  }

  lemma FirstHalf(u: State, a: seq<Argv>, cut: nat, spec: D.Address)
    requires D.DhcpHalf(a) && forall i :: 0 <= i < |a| ==> Removal(a[i], spec)
    ensures ShortDisable(u, RunAll(u, a, cut).0, spec)
  {
    D.DhcpOnly(u, a, cut);
    ServersShrink(u, a, cut, spec);
  }

  lemma SecondHalf(u: State, v: State, b: seq<Argv>, cut: nat, spec: D.Address)
    requires forall i :: 0 <= i < |b| ==> Deletion(b[i])
    requires v == u.(dhcp := v.dhcp) && !D.Enabled(v, spec)
    ensures ShortDisable(u, RunAll(v, b, cut).0, spec)
  {
    DeletionsOnly(v, b, cut, D.KS);
  }

  lemma HalvesOfDisable(spec: D.Address)
    ensures D.DhcpHalf(D.DisableDhcp(spec))
    ensures forall i :: 0 <= i < |D.DisableDhcp(spec)| ==> Removal(D.DisableDhcp(spec)[i], spec)
    ensures forall i :: 0 <= i < |D.DisableFirewall()| ==> Deletion(D.DisableFirewall()[i])
  {
  }

  lemma DisableShortParts(u: State, a: seq<Argv>, b: seq<Argv>, cut: nat, spec: D.Address)
    requires D.DhcpHalf(a) && forall i :: 0 <= i < |a| ==> Removal(a[i], spec)
    requires forall i :: 0 <= i < |b| ==> Deletion(b[i])
    requires RunFull(u, a).1 && !D.Enabled(RunFull(u, a).0, spec)
    ensures ShortDisable(u, RunAll(u, a + b, cut).0, spec)
  {
    RunAppend(u, a, b, cut);
    D.DhcpOnly(u, a, cut);
    if cut >= |a| {
      RunEnough(u, a, cut);
      SecondHalf(u, RunFull(u, a).0, b, cut - |a|, spec);
    } else {
      FirstHalf(u, a, cut, spec);
    }
  }

  /**
   Disable stopped anywhere enables nothing, leaves the fail-closed rule as it was or gone, and
   does not touch it while the forwarder is still in use.
   */
  lemma DisableShort(u: State, cut: nat, spec: D.Address)
    requires D.PlainServers(u, spec)
    ensures ShortDisable(u, RunAll(u, D.DisableCmds(spec), cut).0, spec)
  {
    HalvesOfDisable(spec);
    D.DisableDhcpRuns(u, spec);
    D.DisabledReadsOff(u, spec);
    var v := D.DisableResult(u, spec);
    assert D.Servers(u.(dhcp := v.dhcp)) == D.Servers(v);
    DisableShortParts(u, D.DisableDhcp(spec), D.DisableFirewall(), cut, spec);
  }

  // ---------- Imports ----------

  lemma ImportKeepsPosture(u: State, cfg: W.Config, cut: nat, spec: D.Address)
    ensures var v := RunAll(u, V.ImportCmds(cfg), cut).0;
            && v.dhcp == u.dhcp
            && (forall n :: Lookup(v.firewall.staged, n) == Lookup(u.firewall.staged, n))
            && (K.IsOn(v.firewall.staged) <==> K.IsOn(u.firewall.staged))
  {
    hide RunAll, V.ImportCmds, V.Others, V.ReachedZone, K.IsOn;
    var v := RunAll(u, V.ImportCmds(cfg), cut).0;
    var tries := [(cfg, cut)];
    V.ImportsKeepKillSwitch(u, tries);
    assert tries[1..] == [];
    assert V.Attempts(u, tries) == v;
    V.ImportCmdsAre(cfg);
    V.ImportTouchedRun(u, V.ImportCmds(cfg), cut);
    V.ZoneStepReached(u, cfg, cut);
    var c := u.firewall.staged;
    if v.firewall.staged != c {
      forall n
        ensures Lookup(v.firewall.staged, n) == Lookup(c, n)
      {
        var d := v.firewall.staged;
        assert d == c + [V.VpnZone(V.IFACE), V.LAN_VPN];
        assert V.VpnZone(V.IFACE).name == None;
        var p := PosNamed(c, n);
        PosNamedIs(d, n, if p < |c| then p else |d|);
      }
    }
  }
}
