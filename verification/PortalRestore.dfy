/**
 Crash-safe restoration: however often the daemon dies, re-enters or begins to leave in between, an
 exit that completes gives back the posture of before the first enter. Then the ways to lose it.
 */
module PortalRestore {
  import opened Common
  import opened Uci
  import K = KillSwitch
  import D = DnsService
  import opened PortalMode
  import opened Posture
  import opened PortalRuns

  // ---------- What a pause can have done ----------

  /**
   u is base with a pause of the given protections in any intermediate state: the firewall outside
   the DNS sections is base's, perhaps with the one forwarding added at the end; dnsmasq differs
   at most in the forwarder; and a protection that was off has not been touched.
   */
  ghost predicate Kept(base: State, u: State, spec: D.Address, ks: bool, dns: bool) {
    && u.network == base.network && u.wireless == base.wireless
    && (Unowned(u) == Unowned(base) || (ks && Unowned(u) == Unowned(base) + [K.LAN_WAN]))
    && D.DnsTouched(base.(firewall := u.firewall), u, spec)
    && (!dns ==> u.dhcp == base.dhcp && forall n :: n in D.OWNED ==>
          Lookup(u.firewall.staged, n) == Lookup(base.firewall.staged, n))
    && (dns && !ks ==>
          (Lookup(u.firewall.staged, D.KS) == Lookup(base.firewall.staged, D.KS)
           || Lookup(u.firewall.staged, D.KS) == None))
  }

  /** Between its two positions the switch only adds and removes the one forwarding. */
  lemma SwitchMoves(b: Config)
    requires K.IsOn(b)
    ensures K.DropLanWan(b + [K.LAN_WAN]) == b && !K.IsOn(b + [K.LAN_WAN])
  {
    K.DropLanWanNone(b);
    K.DropLanWanAppend(b, [K.LAN_WAN]);
    assert K.IsLanWan((b + [K.LAN_WAN])[|b|]);
    assert K.DropLanWan([K.LAN_WAN]) == [];
  }

  lemma KeptSwitch(base: State, u: State, spec: D.Address, dns: bool, on: bool, out: K.Outcome)
    requires K.IsOn(base.firewall.staged) && Kept(base, u, spec, true, dns)
    ensures var v := Scripted(u, on, out);
            && Kept(base, v, spec, true, dns)
            && (on && out.started ==> Unowned(v) == Unowned(base))
  {
    hide K.IsOn, Scripted, Unowned, D.DnsTouched, K.DropLanWan;
    var v := Scripted(u, on, out);
    SwitchFacts(u, on, out);
    OnByRest(base);
    OnByRest(u);
    SwitchMoves(Unowned(base));
    DhcpAlike(base, u, v, spec);
  }

  lemma OnByRest(u: State)
    ensures K.IsOn(Unowned(u)) <==> K.IsOn(u.firewall.staged)
  {
    DropNamesOfSwitch(u.firewall.staged, D.OWNED);
  }

  /** A step that leaves dhcp alone leaves dnsmasq as it was. */
  lemma DhcpAlike(base: State, u: State, v: State, spec: D.Address)
    requires D.DnsTouched(base.(firewall := u.firewall), u, spec)
    requires v == u.(firewall := v.firewall)
    ensures D.DnsTouched(base.(firewall := v.firewall), v, spec)
  {
  }

  lemma KeptCommands(base: State, u: State, spec: D.Address, ks: bool, cmds: seq<Argv>, cut: nat)
    requires Kept(base, u, spec, ks, true) && D.DnsCmds(cmds, spec)
    requires var c := Lookup(RunAll(u, cmds, cut).0.firewall.staged, D.KS);
             ks || c == Lookup(u.firewall.staged, D.KS) || c == None
    ensures var v := RunAll(u, cmds, cut).0; Kept(base, v, spec, ks, true) && Unowned(v) == Unowned(u)
  {
    D.DnsTouchedRun(u, cmds, cut, spec);
    var v := RunAll(u, cmds, cut).0;
    DhcpTouchedTwice(base, u, v, spec);
  }

  lemma DhcpTouchedTwice(base: State, u: State, v: State, spec: D.Address)
    requires D.DnsTouched(base.(firewall := u.firewall), u, spec) && D.DnsTouched(u, v, spec)
    ensures D.DnsTouched(base.(firewall := v.firewall), v, spec)
  {
    var p := D.DnsmasqAt(base);
    if D.HasDnsmasq(base) {
      assert base.dhcp.staged[p := u.dhcp.staged[p]][p := v.dhcp.staged[p]] == base.dhcp.staged[p := v.dhcp.staged[p]];
    }
  }

  /** w is inside a pause that began in a world like w0. */
  ghost predicate InPause(w0: World, w: World) {
    && w.spec == w0.spec && w.configured == w0.configured
    && w.record.Some? && w.record.value.savedKS == w0.SwitchOn() && w.record.value.savedDNS == w0.DnsOn()
    && D.PlainServers(w.uci, w.spec)
    && Kept(w0.uci, w.uci, w.spec, w0.SwitchOn(), w0.DnsOn())
  }

  // ---------- Every act of a pause stays inside it ----------

  lemma SwitchStaysIn(w0: World, w: World, on: bool, f: Fate)
    requires InPause(w0, w) && w.record.value.savedKS
    ensures var (v, ok) := Perform(w, SetSwitch(on), f);
            && InPause(w0, v) && v.record == w.record
            && (ok && on ==> Unowned(v.uci) == Unowned(w0.uci))
  {
    hide Perform, D.Enabled, D.PlainServers, K.IsOn, Kept, Scripted;
    SwitchActs(w, on, f);
    SwitchFacts(w.uci, on, f.script);
    var v := Perform(w, SetSwitch(on), f).0;
    SwitchStays(w, v, on);
    KeptSwitch(w0.uci, w.uci, w.spec, w0.DnsOn(), on, f.script);
  }

  lemma CommandsStayIn(w0: World, w: World, cmds: seq<Argv>, cut: nat)
    requires InPause(w0, w) && w.record.value.savedDNS && D.DnsCmds(cmds, w.spec)
    requires var c := Lookup(RunAll(w.uci, cmds, cut).0.firewall.staged, D.KS);
             w.record.value.savedKS || c == Lookup(w.uci.firewall.staged, D.KS) || c == None
    ensures var v := Commands(w, cmds, cut).0;
            InPause(w0, v) && v.record == w.record && Unowned(v.uci) == Unowned(w.uci)
  {
    hide D.Enabled, K.IsOn, Kept, D.PlainServers;
    DnsKeepsSwitch(w.uci, cmds, cut, w.spec);
    KeptCommands(w0.uci, w.uci, w.spec, w0.SwitchOn(), cmds, cut);
  }

  lemma DnsStaysIn(w0: World, w: World, a: Act, f: Fate)
    requires InPause(w0, w) && Mine(w.record.value, a) && (a == EnableDns || a == DisableDns || a.FailClosed?)
    ensures var v := Perform(w, a, f).0;
            InPause(w0, v) && v.record == w.record && Unowned(v.uci) == Unowned(w.uci)
  {
    hide InPause, RunAll, D.EnableCmds, D.DisableCmds, D.FailClosedCmds, Commands;
    D.ListsAreDnsCmds(w.spec);
    PauseIsPlain(w0, w);
    match a {
      case EnableDns =>
        EnableKeepsRule(w.uci, f.cut, w.spec);
        CommandsStayIn(w0, w, D.EnableCmds(w.spec), f.cut);
      case DisableDns =>
        DisableShort(w.uci, f.cut, w.spec);
        CommandsStayIn(w0, w, D.DisableCmds(w.spec), f.cut);
      case FailClosed(on) =>
        CommandsStayIn(w0, w, D.FailClosedCmds(on), f.cut);
    }
  }

  lemma PauseIsPlain(w0: World, w: World)
    requires InPause(w0, w)
    ensures w.record.Some? && D.PlainServers(w.uci, w.spec)
  {
  }

  lemma AsideActs(w: World, a: Act, f: Fate)
    requires Aside(a)
    ensures var (v, ok) := Perform(w, a, f);
            && v == w.(tunnel := v.tunnel, note := v.note, kick := v.kick)
            && (a == Up && ok ==> v.tunnel) && (a != Up && a != Down ==> v.tunnel == w.tunnel)
  {
    hide Commands, Scripted, ScriptOk, D.EnableCmds, D.DisableCmds, D.FailClosedCmds, D.Enabled, K.IsOn;
  }

  lemma MineStaysIn(w0: World, w: World, a: Act, f: Fate)
    requires InPause(w0, w) && Mine(w.record.value, a)
    ensures var v := Perform(w, a, f).0; InPause(w0, v) && v.record == w.record
  {
    hide Perform, D.Enabled, D.PlainServers, K.IsOn, Kept;
    if a.SetSwitch? {
      SwitchStaysIn(w0, w, a.on, f);
    } else if Aside(a) {
      AsideActs(w, a, f);
    } else {
      DnsStaysIn(w0, w, a, f);
    }
  }

  lemma {:induction false} MineRunStaysIn(w0: World, w: World, steps: seq<Step>, fates: seq<Fate>)
    requires InPause(w0, w) && AllMine(w.record.value, steps)
    ensures var v := Play(w, steps, fates).0; InPause(w0, v) && v.record == w.record
    decreases |steps|
  {
    hide Perform, InPause;
    PauseIsPlain(w0, w);
    if steps != [] && fates != [] {
      assert steps[0].May? && Mine(w.record.value, steps[0].act);
      MineStaysIn(w0, w, steps[0].act, fates[0]);
      MineRunStaysIn(w0, Perform(w, steps[0].act, fates[0]).0, steps[1..], fates[1..]);
    }
  }

  // ---------- Every event of a pause stays inside it ----------

  /** Re-entering, leaving that does not get to forget the record, and what else may happen meanwhile. */
  predicate PauseEvent(e: Event) {
    match e
    case Entered(_, _, _, _, _, _) => true
    case Exited(_, fates) => |fates| <= 4 || !fates[4].ok
    case UrlSeen(_, _) => true
    case TunnelMoved(_) => true
    case KickTaken => true
    case Restart => true
    case _ => false
  }

  /** Saving a record with the same bits keeps the pause. */
  lemma SameBits(w0: World, w: World, v: World)
    requires InPause(w0, w)
    requires v.uci == w.uci && v.spec == w.spec && v.configured == w.configured && v.record.Some?
    requires v.record.value.savedKS == w.record.value.savedKS && v.record.value.savedDNS == w.record.value.savedDNS
    ensures InPause(w0, v)
  {
  }

  lemma NextEntered(w: World, e: Event)
    requires e.Entered?
    ensures var later := w.(clock := e.now);
            var r := Captured(later, e.url, e.began, e.now, e.ksReads, e.dnsReads);
            Next(w, e) == Settled(Play(later, EnterSteps(r), e.fates))
  {
    hide Play, RunAll;
  }

  lemma EnterStaysIn(w0: World, w: World, e: Event)
    requires InPause(w0, w) && e.Entered?
    ensures InPause(w0, Next(w, e))
  {
    hide Perform, InPause, Play, EnterSteps, Pause, Next, RunAll;
    NextEntered(w, e);
    PauseIsPlain(w0, w);
    var later := w.(clock := e.now);
    SameBits(w0, w, later);
    var r := Captured(later, e.url, e.began, e.now, e.ksReads, e.dnsReads);
    var v := Play(later, EnterSteps(r), e.fates).0;
    if e.fates != [] {
      var u := EnterBegins(later, r, e.fates);
      SameBits(w0, later, u);
      PauseIsMine(r);
      MineOfSame(r, u.record.value);
      MineRunStaysIn(w0, u, Pause(r), e.fates[1..]);
    } else {
      EnterNever(later, r);
    }
    PauseIsPlain(w0, v);
    SameBits(w0, v, Restarted(v));
  }

  /** What is the pause r's business is that of any record with the same bits. */
  lemma MineOfSame(r: Record, x: Record)
    requires x.savedKS == r.savedKS && x.savedDNS == r.savedDNS
    ensures AllMine(x, Pause(r))
  {
    PauseIsMine(r);
    forall i | 0 <= i < |Pause(r)|
      ensures Pause(r)[i].May? && Mine(x, Pause(r)[i].act)
    {
      assert Mine(r, Pause(r)[i].act);
    }
  }

  lemma EnterNever(w: World, r: Record)
    ensures Play(w, EnterSteps(r), []) == (w, Died)
  {
    hide Perform;
  }

  /** Entering saves first, then pauses. */
  lemma EnterBegins(w: World, r: Record, fates: seq<Fate>) returns (u: World)
    requires fates != []
    ensures u == if fates[0].ok then w.(record := Some(r)) else w
    ensures Play(w, EnterSteps(r), fates) == Play(u, Pause(r), fates[1..])
  {
    hide Perform;
    var steps := EnterSteps(r);
    assert steps[0] == May(Save(r)) && steps[1..] == Pause(r);
    SaveActs(w, r, fates[0]);
    u := Perform(w, Save(r), fates[0]).0;
  }

  lemma ExitStaysIn(w0: World, w: World, e: Event)
    requires InPause(w0, w) && e.Exited? && PauseEvent(e)
    ensures InPause(w0, Next(w, e))
  {
    hide Perform, InPause, Play, Clear;
    PauseIsPlain(w0, w);
    var r := w.record.value;
    var fates := e.fates;
    var steps := Restore(r, w.configured);
    RestoreIsMine(r, w.configured);
    PlayTwo(w, steps, Clear(e.text), fates);
    MineRunStaysIn(w0, w, steps, if |fates| >= 4 then fates[..4] else fates);
    var v := Exit(w, e.text, fates).0;
    if |fates| >= 4 {
      var u := Play(w, steps, fates[..4]).0;
      PauseIsPlain(w0, u);
      ClearRuns(u, e.text, fates[4..]);
      SameBits(w0, u, v);
    }
    PauseIsPlain(w0, v);
    SameBits(w0, v, Restarted(v));
  }

  lemma EventStaysIn(w0: World, w: World, e: Event)
    requires InPause(w0, w) && PauseEvent(e)
    ensures InPause(w0, Next(w, e))
  {
    hide InPause, Enter, Exit, Play, RunAll;
    PauseIsPlain(w0, w);
    if e.Entered? {
      EnterStaysIn(w0, w, e);
    } else if e.Exited? {
      ExitStaysIn(w0, w, e);
    } else {
      SameBits(w0, w, Next(w, e));
    }
  }

  lemma {:induction false} EventsStayIn(w0: World, w: World, es: seq<Event>)
    requires InPause(w0, w) && forall i :: 0 <= i < |es| ==> PauseEvent(es[i])
    ensures InPause(w0, After(w, es))
    decreases |es|
  {
    hide InPause, Next;
    if es != [] {
      EventStaysIn(w0, w, es[0]);
      EventsStayIn(w0, Next(w, es[0]), es[1..]);
    }
  }

  /** A first enter whose record was saved, however far it got, begins a pause. */
  lemma FirstEnter(w0: World, e: Event)
    requires w0.record == None && D.PlainServers(w0.uci, w0.spec)
    requires e.Entered? && ReadsTrue(w0, e.ksReads, e.dnsReads) && e.fates != [] && e.fates[0].ok
    ensures InPause(w0, Next(w0, e))
  {
    hide Perform, D.Enabled, D.PlainServers, K.IsOn;
    var later := w0.(clock := e.now);
    var r := Captured(later, e.url, e.began, e.now, e.ksReads, e.dnsReads);
    var u := EnterBegins(later, r, e.fates);
    PauseIsMine(r);
    assert u.uci == w0.uci.(firewall := u.uci.firewall);
    assert InPause(w0, u);
    MineRunStaysIn(w0, u, Pause(r), e.fates[1..]);
    var v := Play(u, Pause(r), e.fates[1..]).0;
    SameBits(w0, v, Restarted(v));
  }

  // ---------- The completed exit ----------

  /** v has w0's posture back. */
  ghost predicate Restored(w0: World, v: World) {
    && v.record == None
    && (v.configured ==> v.tunnel)
    && v.uci.network == w0.uci.network && v.uci.wireless == w0.uci.wireless
    && OnlyNames(w0.uci.firewall.staged, v.uci.firewall.staged, D.OWNED)
    && K.Forwardings(v.uci.firewall.staged) == K.Forwardings(w0.uci.firewall.staged)
    && (v.SwitchOn() <==> w0.SwitchOn())
    && (v.DnsOn() <==> w0.DnsOn())
    && Without(D.Servers(v.uci), v.spec) == Without(D.Servers(w0.uci), w0.spec)
    && (w0.SwitchOn() && w0.DnsOn() ==> v.RuleOn())
    && (w0.DnsOn() ==> PortsShut(v))
    && (!w0.DnsOn() ==> v.uci.dhcp == w0.uci.dhcp)
    && (!w0.DnsOn() ==> forall n :: Lookup(v.uci.firewall.staged, n) == Lookup(w0.uci.firewall.staged, n))
    && (w0.DnsOn() && !w0.SwitchOn() ==>
          (Lookup(v.uci.firewall.staged, D.KS) == None
           || Lookup(v.uci.firewall.staged, D.KS) == Lookup(w0.uci.firewall.staged, D.KS)))
  }

  /** The three port-53 rules are in force, and dnsmasq asks nobody but its listed servers. */
  predicate PortsShut(w: World) {
    D.RulesInstalled(w.uci.firewall.staged) && D.OnlyListed(w.uci)
  }

  /** Six clean steps, one by one. */
  lemma CleanExit(w: World, r: Record, text: string, fates: seq<Fate>)
    returns (a: World, b: World, c: World, d: World, v: World)
    requires w.record == Some(r) && Clean(w, ExitSteps(r, w.configured, text), fates)
    ensures |fates| >= 6
    ensures Perform(w, If(w.configured, Up), fates[0]) == (a, true)
    ensures Perform(a, If(r.savedKS, SetSwitch(true)), fates[1]) == (b, true)
    ensures Perform(b, If(r.savedDNS, EnableDns), fates[2]) == (c, true)
    ensures Perform(c, If(r.savedDNS && r.savedKS, FailClosed(true)), fates[3]) == (d, true)
    ensures v == d.(record := None, note := text) && Next(w, Exited(text, fates)) == v
  {
    hide Perform, If;
    var steps := ExitSteps(r, w.configured, text);
    a := Perform(w, If(w.configured, Up), fates[0]).0;
    CleanNext(w, steps, fates);
    b := Perform(a, If(r.savedKS, SetSwitch(true)), fates[1]).0;
    CleanNext(a, steps[1..], fates[1..]);
    c := Perform(b, If(r.savedDNS, EnableDns), fates[2]).0;
    CleanNext(b, steps[2..], fates[2..]);
    d := Perform(c, If(r.savedDNS && r.savedKS, FailClosed(true)), fates[3]).0;
    CleanNext(c, steps[3..], fates[3..]);
    v := Perform(d, Forget, fates[4]).0;
    CleanNext(d, steps[4..], fates[4..]);
    ForgetActs(d, text, fates[4]);
    CleanNext(v, steps[5..], fates[5..]);
    ForgetActs(v, text, fates[5]);
    v := Perform(v, SetNote(text), fates[5]).0;
    assert steps[6..] == [];
  }

  lemma CleanNext(w: World, steps: seq<Step>, fates: seq<Fate>)
    requires steps != [] && Clean(w, steps, fates)
    ensures fates != []
    ensures var (v, ok) := Perform(w, steps[0].act, fates[0]);
            ok && Clean(v, steps[1..], fates[1..]) && Play(w, steps, fates) == Play(v, steps[1..], fates[1..])
    ensures |steps| > 1 ==> steps[1..][1..] == steps[2..] && |fates| > 1 && fates[1..][1..] == fates[2..]
  {
    hide Perform;
  }

  lemma FailClosedActs(w: World, f: Fate)
    requires Perform(w, FailClosed(true), f).1
    ensures var v := Perform(w, FailClosed(true), f).0;
            && v.RuleOn() && (v.DnsOn() <==> w.DnsOn()) && v.tunnel == w.tunnel
            && (PortsShut(w) ==> PortsShut(v))
  {
    hide D.FailClosedCmds, D.EnableCmds, D.DisableCmds, RunAll, D.RuleInstalled, Carries;
    FailClosedKeepsRest(w.uci, true, f.cut);
    FailClosedOk(w.uci, true, f.cut);
  }

  lemma EnableActsMore(w: World, f: Fate)
    ensures var (v, ok) := Perform(w, EnableDns, f); v.tunnel == w.tunnel && (ok ==> PortsShut(v))
  {
    hide D.FailClosedCmds, D.EnableCmds, D.DisableCmds, RunAll, D.RulesInstalled, D.OnlyListed;
    if Perform(w, EnableDns, f).1 {
      EnableOk(w.uci, f.cut, w.spec);
      D.EnableInstalls(w.uci.firewall.staged);
      D.EnableOnlyListed(w.uci, w.spec);
    }
  }

  lemma SkipActs(w: World, f: Fate)
    ensures Perform(w, Skip, f) == (w, true)
  {
    hide RunAll;
  }

  /** The four restoring steps, clean: everything the pause took is back. */
  lemma RestoreCompletes(w0: World, w: World, a: World, b: World, c: World, d: World, fates: seq<Fate>)
    requires InPause(w0, w) && |fates| >= 4
    requires Perform(w, If(w.configured, Up), fates[0]) == (a, true)
    requires Perform(a, If(w.record.value.savedKS, SetSwitch(true)), fates[1]) == (b, true)
    requires Perform(b, If(w.record.value.savedDNS, EnableDns), fates[2]) == (c, true)
    requires Perform(c, If(w.record.value.savedDNS && w.record.value.savedKS, FailClosed(true)), fates[3]) == (d, true)
    ensures InPause(w0, d) && Unowned(d.uci) == Unowned(w0.uci)
    ensures w.configured ==> d.tunnel
    ensures w0.DnsOn() ==> d.DnsOn() && PortsShut(d)
    ensures w0.SwitchOn() && w0.DnsOn() ==> d.RuleOn()
  {
    hide Perform, D.Enabled, D.PlainServers, K.IsOn, D.DnsTouched, D.RuleInstalled, PortsShut;
    SkipActs(w, fates[0]);
    SkipActs(a, fates[1]);
    SkipActs(b, fates[2]);
    SkipActs(c, fates[3]);
    var r := w.record.value;
    AsideActs(w, If(w.configured, Up), fates[0]);
    assert InPause(w0, a);
    if r.savedKS {
      SwitchStaysIn(w0, a, true, fates[1]);
      SwitchActs(a, true, fates[1]);
    }
    if r.savedDNS {
      DnsStaysIn(w0, b, EnableDns, fates[2]);
      EnableActs(b, fates[2]);
      EnableActsMore(b, fates[2]);
    }
    if r.savedDNS && r.savedKS {
      DnsStaysIn(w0, c, FailClosed(true), fates[3]);
      FailClosedActs(c, fates[3]);
    }
  }

  /** The forwarding list and the switch are read off the part of the firewall that is back. */
  lemma RestGivesForwardings(u: State, v: State)
    requires Unowned(v) == Unowned(u)
    ensures K.Forwardings(v.firewall.staged) == K.Forwardings(u.firewall.staged)
    ensures K.IsOn(v.firewall.staged) <==> K.IsOn(u.firewall.staged)
  {
    OnlyNamesFrame(u.firewall.staged, v.firewall.staged, D.OWNED);
    K.ForwardingsOfAnonymous(u.firewall.staged);
    K.ForwardingsOfAnonymous(v.firewall.staged);
    DropNamesOfSwitch(u.firewall.staged, D.OWNED);
    DropNamesOfSwitch(v.firewall.staged, D.OWNED);
  }

  lemma KeptServers(base: State, u: State, spec: D.Address)
    requires D.DnsTouched(base.(firewall := u.firewall), u, spec)
    ensures Without(D.Servers(u), spec) == Without(D.Servers(base), spec)
    ensures u.dhcp == base.dhcp ==> (D.Enabled(u, spec) <==> D.Enabled(base, spec))
  {
  }

  lemma ExitRestores(w0: World, w: World, text: string, fates: seq<Fate>)
    requires InPause(w0, w) && Clean(w, ExitSteps(w.record.value, w.configured, text), fates)
    ensures var v := Next(w, Exited(text, fates)); Restored(w0, v) && v.note == text
  {
    hide Perform, D.Enabled, D.PlainServers, K.IsOn, D.DnsTouched, D.RuleInstalled, Next, Clean, D.RulesInstalled, D.OnlyListed;
    var a, b, c, d, v := CleanExit(w, w.record.value, text, fates);
    RestoreCompletes(w0, w, a, b, c, d, fates);
    RestGivesForwardings(w0.uci, d.uci);
    KeptServers(w0.uci, d.uci, w0.spec);
    OnlyNamesFrame(w0.uci.firewall.staged, d.uci.firewall.staged, D.OWNED);
  }

  /**
   Crash-safe restoration. After a first enter that got its record saved, any number of re-enters,
   restarts, crashes inside enter or exit and exits that could not forget the record, an exit that
   completes without errors restores the posture the first enter found.
   */
  lemma CrashSafeRestoration(w0: World, first: Event, es: seq<Event>, text: string, fates: seq<Fate>)
    requires w0.record == None && D.PlainServers(w0.uci, w0.spec)
    requires first.Entered? && ReadsTrue(w0, first.ksReads, first.dnsReads)
    requires first.fates != [] && first.fates[0].ok
    requires forall i :: 0 <= i < |es| ==> PauseEvent(es[i])
    ensures var w := After(Next(w0, first), es);
            && w.record.Some?
            && (Clean(w, ExitSteps(w.record.value, w.configured, text), fates) ==>
                  var v := After(w, [Exited(text, fates)]);
                  Restored(w0, v) && v.note == text)
  {
    hide Next, InPause, Clean, Restored;
    FirstEnter(w0, first);
    EventsStayIn(w0, Next(w0, first), es);
    var w := After(Next(w0, first), es);
    PauseIsPlain(w0, w);
    if Clean(w, ExitSteps(w.record.value, w.configured, text), fates) {
      ExitRestores(w0, w, text, fates);
      assert [Exited(text, fates)][1..] == [];
    }
  }

  // ---------- The fail-closed rule itself ----------

  /** The same world without the fail-closed rule. */
  function Ruleless(w: World): World {
    w.(uci := w.uci.(firewall := w.uci.firewall.(staged := DropNamed(w.uci.firewall.staged, D.KS))))
  }

  /** A pause of encrypted DNS alone that has dropped the rule is one that found none. */
  lemma PauseWithoutRule(w0: World, w: World)
    requires InPause(w0, w) && w0.DnsOn() && !w0.SwitchOn()
    requires Lookup(w.uci.firewall.staged, D.KS) == None
    ensures InPause(Ruleless(w0), w) && Ruleless(w0).DnsOn() && !Ruleless(w0).SwitchOn()
    ensures Lookup(Ruleless(w0).uci.firewall.staged, D.KS) == None
  {
    hide K.IsOn, D.PlainServers, D.DnsTouched;
    var c := w0.uci.firewall.staged;
    var x := Ruleless(w0);
    DropNamedGone(c, D.KS);
    DropNamedIn(c, D.KS, D.OWNED);
    assert D.OWNED + {D.KS} == D.OWNED;
    OnByRest(w0.uci);
    OnByRest(x.uci);
    assert x.uci.(firewall := w.uci.firewall) == w0.uci.(firewall := w.uci.firewall);
    SameServers(w0, x);
  }

  lemma SameServers(w: World, v: World)
    requires v.uci.dhcp == w.uci.dhcp && v.spec == w.spec
    ensures v.DnsOn() <==> w.DnsOn()
  {
  }

  /** An enter that gets to the end of its DNS step has dropped the rule. */
  lemma EnterDropsRule(w: World, r: Record, fates: seq<Fate>)
    requires r.savedDNS && |fates| >= 4 && fates[3].cut >= |D.DisableCmds(w.spec)|
    ensures Lookup(Play(w, EnterSteps(r), fates).0.uci.firewall.staged, D.KS) == None
  {
    hide Perform, D.DisableCmds;
    var steps := EnterSteps(r);
    var a := Perform(w, Save(r), fates[0]).0;
    SaveActs(w, r, fates[0]);
    assert Play(w, steps, fates) == Play(a, steps[1..], fates[1..]);
    var b := Perform(a, Down, fates[1]).0;
    AsideActs(a, Down, fates[1]);
    assert steps[1..][0] == May(Down);
    assert Play(a, steps[1..], fates[1..]) == Play(b, steps[1..][1..], fates[1..][1..]);
    var c := Perform(b, If(r.savedKS, SetSwitch(false)), fates[2]).0;
    SkipActs(b, fates[2]);
    SwitchActs(b, false, fates[2]);
    assert steps[1..][1..][0] == May(If(r.savedKS, SetSwitch(false)));
    assert Play(b, steps[1..][1..], fates[1..][1..]) == Play(c, steps[1..][1..][1..], fates[1..][1..][1..]);
    var d := Perform(c, DisableDns, fates[3]).0;
    FullDisable(c, fates[3]);
    var rest := [May(SetNote("")), May(Kick)];
    assert steps[1..][1..][1..] == [May(DisableDns)] + rest && steps[1..][1..][1..][1..] == rest;
    assert fates[1..][1..][1..] == fates[3..];
    assert Play(c, steps[1..][1..][1..], fates[3..]) == Play(d, rest, fates[3..][1..]);
    AsideRun(d, rest, fates[3..][1..]);
  }

  lemma {:induction false} AsideRun(w: World, steps: seq<Step>, fates: seq<Fate>)
    requires forall i :: 0 <= i < |steps| ==> steps[i].May? && Aside(steps[i].act)
    ensures Play(w, steps, fates).0.uci == w.uci
    decreases |steps|
  {
    hide Perform;
    if steps != [] && fates != [] {
      AsideActs(w, steps[0].act, fates[0]);
      AsideRun(Perform(w, steps[0].act, fates[0]).0, steps[1..], fates[1..]);
    }
  }

  lemma FullDisable(w: World, f: Fate)
    requires f.cut >= |D.DisableCmds(w.spec)|
    ensures var (v, ok) := Perform(w, DisableDns, f);
            ok && v == w.(uci := v.uci) && Lookup(v.uci.firewall.staged, D.KS) == None
            && (D.PlainServers(w.uci, w.spec) ==> D.PlainServers(v.uci, w.spec))
  {
    hide D.FailClosedCmds, D.EnableCmds, D.DisableCmds, RunAll;
    RunEnough(w.uci, D.DisableCmds(w.spec), f.cut);
    D.DisableRuns(w.uci, w.spec);
    D.ListsAreDnsCmds(w.spec);
    DnsKeepsSwitch(w.uci, D.DisableCmds(w.spec), f.cut, w.spec);
    DropNamesGone(w.uci.firewall.staged, D.OWNED);
  }


  /** What any completed exit says of the rule. */
  lemma RuleAfterwards(w0: World, v: World)
    requires Restored(w0, v)
    ensures w0.SwitchOn() && w0.DnsOn() ==> v.RuleOn()
    ensures !w0.DnsOn() ==> (v.RuleOn() <==> w0.RuleOn())
    ensures w0.DnsOn() && !w0.SwitchOn() && Lookup(w0.uci.firewall.staged, D.KS) == None ==> !v.RuleOn()
  {
  }

  /**
   The rule itself. After a first enter whose DNS step was not cut short, whatever the pause then
   sees, the completed exit leaves the rule standing or missing as it was found if and only if
   encrypted DNS was off or the rule stood just when the switch was on. In a world that kept the
   invariant that leaves one case: DNS on, switch off, and a leftover rule - which is lost.
   */
  lemma RuleRestoredExactly(w0: World, first: Event, es: seq<Event>, text: string, fates: seq<Fate>)
    requires w0.record == None && D.PlainServers(w0.uci, w0.spec)
    requires first.Entered? && ReadsTrue(w0, first.ksReads, first.dnsReads)
    requires |first.fates| >= 4 && first.fates[0].ok && first.fates[3].cut >= |D.DisableCmds(w0.spec)|
    requires forall i :: 0 <= i < |es| ==> PauseEvent(es[i])
    ensures var w := After(Next(w0, first), es);
            && w.record.Some?
            && (Clean(w, ExitSteps(w.record.value, w.configured, text), fates) ==>
                  var v := After(w, [Exited(text, fates)]);
                  && ((v.RuleOn() <==> w0.RuleOn()) <==> !w0.DnsOn() || (w0.SwitchOn() <==> w0.RuleOn()))
                  && (Inv(w0) ==> ((v.RuleOn() <==> w0.RuleOn()) <==> w0.SwitchOn() || !w0.DnsOn() || !w0.RuleOn())))
  {
    hide Next, InPause, Clean, Restored, D.PlainServers, D.Enabled, K.IsOn, D.RuleInstalled;
    CrashSafeRestoration(w0, first, es, text, fates);
    var w := After(Next(w0, first), es);
    if Clean(w, ExitSteps(w.record.value, w.configured, text), fates) {
      var v := After(w, [Exited(text, fates)]);
      RuleAfterwards(w0, v);
      if w0.DnsOn() && !w0.SwitchOn() {
        FirstEnter(w0, first);
        FirstEnterDropsRule(w0, first);
        var x := Ruleless(w0);
        PauseWithoutRule(w0, Next(w0, first));
        EventsStayIn(x, Next(w0, first), es);
        ExitRestores(x, w, text, fates);
        assert [Exited(text, fates)][1..] == [];
        RuleAfterwards(x, v);
      }
    }
  }

  lemma FirstEnterDropsRule(w0: World, first: Event)
    requires w0.record == None && w0.DnsOn() && first.Entered? && ReadsTrue(w0, first.ksReads, first.dnsReads)
    requires |first.fates| >= 4 && first.fates[3].cut >= |D.DisableCmds(w0.spec)|
    ensures Lookup(Next(w0, first).uci.firewall.staged, D.KS) == None
  {
    hide Perform, Play, EnterSteps, Next, RunAll, K.IsOn, D.DisableCmds, D.Enabled;
    NextEntered(w0, first);
    var later := w0.(clock := first.now);
    var r := Captured(later, first.url, first.began, first.now, first.ksReads, first.dnsReads);
    EnterDropsRule(later, r, first.fates);
  }
}
