/**
 Where the promises of portal mode end: the lemmas take one failure each and say exactly when the
 posture, the fail-closed rule or the pause record is lost.
 */
module PortalPitfalls {
  import opened Common
  import opened Uci
  import K = KillSwitch
  import D = DnsService
  import opened PortalMode
  import opened Posture
  import opened PortalRuns
  import opened PortalRestore

  /** The acts of a handler that do not go near the kill switch. */
  predicate Switchless(a: Act) {
    Aside(a) || a.Save? || a == Forget || a == EnableDns || a == DisableDns || a == FailClosed(true)
  }

  lemma SwitchlessActs(w: World, a: Act, f: Fate)
    requires Switchless(a)
    ensures var v := Perform(w, a, f).0;
            && v.spec == w.spec && (v.SwitchOn() <==> w.SwitchOn())
            && (D.PlainServers(w.uci, w.spec) ==> D.PlainServers(v.uci, v.spec))
  {
    hide Perform, K.IsOn, D.PlainServers;
    if a.Save? {
      SaveActs(w, a.record, f);
    } else if a == Forget {
      ForgetActs(w, "", f);
    } else if Aside(a) {
      AsideActs(w, a, f);
    } else {
      DnsActKeepsSwitch(w, a, f);
    }
  }

  lemma DnsActKeepsSwitch(w: World, a: Act, f: Fate)
    requires a == EnableDns || a == DisableDns || a == FailClosed(true)
    ensures var v := Perform(w, a, f).0;
            && v.spec == w.spec && (v.SwitchOn() <==> w.SwitchOn())
            && (D.PlainServers(w.uci, w.spec) ==> D.PlainServers(v.uci, v.spec))
  {
    hide D.EnableCmds, D.DisableCmds, D.FailClosedCmds, RunAll, D.PlainServers, K.IsOn;
    D.ListsAreDnsCmds(w.spec);
    match a {
      case EnableDns => DnsKeepsSwitch(w.uci, D.EnableCmds(w.spec), f.cut, w.spec);
      case DisableDns => DnsKeepsSwitch(w.uci, D.DisableCmds(w.spec), f.cut, w.spec);
      case FailClosed(_) => DnsKeepsSwitch(w.uci, D.FailClosedCmds(true), f.cut, w.spec);
    }
  }

  lemma {:induction false} SwitchlessRun(w: World, steps: seq<Step>, fates: seq<Fate>)
    requires forall i :: 0 <= i < |steps| ==> steps[i].May? && Switchless(steps[i].act)
    ensures var v := Play(w, steps, fates).0;
            && v.spec == w.spec && (v.SwitchOn() <==> w.SwitchOn())
            && (D.PlainServers(w.uci, w.spec) ==> D.PlainServers(v.uci, v.spec))
    decreases |steps|
  {
    hide Perform, K.IsOn, D.PlainServers;
    if steps != [] && fates != [] {
      SwitchlessActs(w, steps[0].act, fates[0]);
      SwitchlessRun(Perform(w, steps[0].act, fates[0]).0, steps[1..], fates[1..]);
    }
  }

  lemma {:induction false} MineKeepsRecord(w: World, r: Record, steps: seq<Step>, fates: seq<Fate>)
    requires AllMine(r, steps)
    ensures Play(w, steps, fates).0.record == w.record
    decreases |steps|
  {
    hide RunAll, D.EnableCmds, D.DisableCmds, D.FailClosedCmds, Scripted;
    if steps != [] && fates != [] {
      assert steps[0].May? && Mine(r, steps[0].act);
      MineKeepsRecord(Perform(w, steps[0].act, fates[0]).0, r, steps[1..], fates[1..]);
    }
  }

  /**
   The first enter leaves a record behind exactly if the store took it; the protections go down
   either way, and without the record no exit, then or later, brings anything back.
   */
  lemma EnterRecordsExactly(w: World, r: Record, fates: seq<Fate>, text: string, later: seq<Fate>)
    requires w.record == None && fates != []
    ensures var v := Play(w, EnterSteps(r), fates).0;
            && (v.record == Some(r) <==> fates[0].ok)
            && (v.record == None ==> Exit(v, text, later) == (v, Done))
  {
    hide Perform, Play, EnterSteps;
    var u := EnterBegins(w, r, fates);
    PauseIsMine(r);
    MineKeepsRecord(u, r, Pause(r), fates[1..]);
  }

  /** Without the save the switch still goes off, and stays off. */
  lemma StrandedWithSwitchOff(w: World, r: Record, fates: seq<Fate>)
    requires w.record == None && r.savedKS && |fates| >= 3 && !fates[0].ok && fates[2].script.started
    ensures var v := Play(w, EnterSteps(r), fates).0; v.record == None && !v.SwitchOn()
  {
    hide Perform, Play, EnterSteps, Pause;
    var u := EnterBegins(w, r, fates);
    PauseIsMine(r);
    MineKeepsRecord(u, r, Pause(r), fates[1..]);
    PauseSwitchesOff(u, r, fates[1..]);
  }

  lemma PauseSwitchesOff(w: World, r: Record, fates: seq<Fate>)
    requires r.savedKS && |fates| >= 2 && fates[1].script.started
    ensures !Play(w, Pause(r), fates).0.SwitchOn()
  {
    hide Perform, K.IsOn;
    var steps := Pause(r);
    var u := Perform(w, Down, fates[0]).0;
    assert Play(w, steps, fates) == Play(u, steps[1..], fates[1..]);
    var v := Perform(u, SetSwitch(false), fates[1]).0;
    assert steps[1..][0] == May(SetSwitch(false));
    assert Play(u, steps[1..], fates[1..]) == Play(v, steps[1..][1..], fates[1..][1..]);
    SwitchActs(u, false, fates[1]);
    SwitchFacts(u.uci, false, fates[1].script);
    SwitchlessRun(v, steps[1..][1..], fates[1..][1..]);
  }

  /**
   An exit that runs to its end drops the record whatever failed on the way: the switch is back
   exactly if its script ran, or it had never gone off.
   */
  lemma DirtyExitSwitch(w: World, text: string, fates: seq<Fate>)
    requires Inv(w) && w.record.Some? && w.record.value.savedKS
    requires |fates| >= 6 && fates[4].ok
    ensures var v := Exit(w, text, fates).0;
            && v.record == None
            && (v.SwitchOn() <==> fates[1].script.started || w.SwitchOn())
  {
    hide Perform, K.IsOn, Play, Inv, Clear, Restore;
    var r := w.record.value;
    RestoreLength(r, w.configured);
    PlayTwo(w, Restore(r, w.configured), Clear(text), fates);
    RestoreSwitch(w, r, w.configured, fates[..4]);
    ClearRuns(Play(w, Restore(r, w.configured), fates[..4]).0, text, fates[4..]);
  }

  lemma RestoreLength(r: Record, configured: bool)
    ensures |Restore(r, configured)| == 4
    ensures forall i :: 0 <= i < 4 ==> Restore(r, configured)[i].May?
  {
  }

  lemma RestoreSwitch(w: World, r: Record, configured: bool, fates: seq<Fate>)
    requires Inv(w) && w.record == Some(r) && r.savedKS && |fates| == 4
    ensures var v := Play(w, Restore(r, configured), fates).0;
            v.SwitchOn() <==> fates[1].script.started || w.SwitchOn()
  {
    hide Perform, K.IsOn, Inv;
    var steps := Restore(r, configured);
    RestoreIsMine(r, configured);
    SkipActs(w, fates[0]);
    var a := Perform(w, steps[0].act, fates[0]).0;
    AsideActs(w, steps[0].act, fates[0]);
    assert Play(w, steps, fates) == Play(a, steps[1..], fates[1..]);
    var b := Perform(a, SetSwitch(true), fates[1]).0;
    assert steps[1..][0] == May(SetSwitch(true));
    assert Play(a, steps[1..], fates[1..]) == Play(b, steps[1..][1..], fates[1..][1..]);
    SwitchActs(a, true, fates[1]);
    SwitchFacts(a.uci, true, fates[1].script);
    SwitchlessRun(b, steps[1..][1..], fates[1..][1..]);
  }

  // ---------- Toggles ----------

  /**
   Turning the switch on over encrypted DNS without a rule. Once the script has run the switch is
   on; the rule follows exactly if the connection table was flushed, the daemon lived on, and the
   DNS query was answered.
   */
  lemma SwitchOnRuleExactly(w: World, fates: seq<Fate>)
    requires D.PlainServers(w.uci, w.spec) && w.DnsOn() && !w.RuleOn()
    requires fates != [] && fates[0].script.started
    requires |fates| > 1 ==> fates[1].cut >= |D.FailClosedCmds(true)|
    ensures var v := Play(w, SwitchSteps(true), fates).0;
            && v.SwitchOn() && v.DnsOn()
            && (v.RuleOn() <==> fates[0].script.flushes != Some(false) && |fates| > 1 && fates[1].ok)
  {
    hide Perform, D.RuleInstalled, D.Enabled, K.IsOn, D.PlainServers, Scripted, D.FailClosedCmds;
    SwitchSequence(w, true, fates);
    SwitchActs(w, true, fates[0]);
    SwitchFacts(w.uci, true, fates[0].script);
    var (u, ok) := Perform(w, SetSwitch(true), fates[0]);
    SwitchStays(w, u, true);
    if ok && |fates| > 1 {
      IfDnsActs(u, true, fates[1]);
      IfDnsUncut(u, fates[1]);
      var t := Perform(u, FailClosedIfDns(true), fates[1]).0;
      if |fates| > 2 {
        CancelActs(t, SWITCH_REASON, fates[2]);
      }
    }
  }

  lemma IfDnsUncut(w: World, f: Fate)
    requires f.cut >= |D.FailClosedCmds(true)|
    ensures var (v, ok) := Perform(w, FailClosedIfDns(true), f);
            ok && (!f.ok ==> v == w)
  {
    hide D.FailClosedCmds, D.EnableCmds, D.DisableCmds, RunAll;
    RunEnough(w.uci, D.FailClosedCmds(true), f.cut);
    D.FailClosedRuns(w.uci, true);
  }

  /**
   Turning encrypted DNS on under the kill switch, without a rule. Once Enable has run, the rule
   follows exactly if the daemon lived on and the switch query was answered.
   */
  lemma DnsOnRuleExactly(w: World, fates: seq<Fate>)
    requires D.PlainServers(w.uci, w.spec) && D.HasDnsmasq(w.uci) && w.SwitchOn() && !w.RuleOn()
    requires fates != [] && fates[0].cut >= |D.EnableCmds(w.spec)|
    requires |fates| > 1 ==> fates[1].cut >= |D.FailClosedCmds(true)|
    ensures var v := Play(w, DnsSteps(true), fates).0;
            && v.SwitchOn() && v.DnsOn()
            && (v.RuleOn() <==> |fates| > 1 && fates[1].ok)
  {
    hide Perform, D.RuleInstalled, D.Enabled, K.IsOn, D.PlainServers, D.FailClosedCmds, D.EnableCmds, D.HasDnsmasq;
    var steps := DnsSteps(true);
    assert steps[1..] == [Must(FailClosedIfSwitch)] + DNS_TAIL && steps[1..][1..] == DNS_TAIL;
    EnableUncut(w, fates[0]);
    EnableActs(w, fates[0]);
    var u := Perform(w, EnableDns, fates[0]).0;
    assert Play(w, steps, fates) == Play(u, steps[1..], fates[1..]);
    if |fates| > 1 {
      assert fates[1..][1..] == fates[2..];
      IfSwitchActs(u, fates[1]);
      IfSwitchUncut(u, fates[1]);
      var t := Perform(u, FailClosedIfSwitch, fates[1]).0;
      assert Play(u, steps[1..], fates[1..]) == Play(t, DNS_TAIL, fates[2..]);
      DnsTail(t, fates[2..]);
    }
  }

  lemma IfSwitchUncut(w: World, f: Fate)
    requires f.cut >= |D.FailClosedCmds(true)|
    ensures var (v, ok) := Perform(w, FailClosedIfSwitch, f);
            ok && (!f.ok ==> v == w)
  {
    hide D.FailClosedCmds, D.EnableCmds, D.DisableCmds, RunAll;
    RunEnough(w.uci, D.FailClosedCmds(true), f.cut);
    D.FailClosedRuns(w.uci, true);
  }

  // ---------- A query that fails when the pause begins ----------

  /** Saving a first record keeps the invariant exactly when both queries told the truth. */
  lemma FirstSaveExactly(w: World, e: Event)
    requires Inv(w) && w.record == None && e.Entered? && w.clock <= e.now
    requires |e.fates| == 1 && e.fates[0].ok
    ensures Inv(Next(w, e)) <==> ReadsTrue(w, e.ksReads, e.dnsReads)
  {
    hide Perform, Play, EnterSteps, Pause, Next, RunAll, D.PlainServers, D.Enabled, K.IsOn, D.RuleInstalled;
    NextEntered(w, e);
    var later := w.(clock := e.now);
    var r := Captured(later, e.url, e.began, e.now, e.ksReads, e.dnsReads);
    var u := EnterBegins(later, r, e.fates);
    PauseDies(u, r, e.fates[1..]);
  }

  lemma PauseDies(w: World, r: Record, fates: seq<Fate>)
    requires fates == []
    ensures Play(w, Pause(r), fates) == (w, Died)
  {
    hide Perform;
  }

  /** The acts that do not go near encrypted DNS. */
  predicate Dnsless(a: Act) {
    Aside(a) || a.Save? || a == Forget || a.SetSwitch?
  }

  lemma DnslessActs(w: World, a: Act, f: Fate)
    requires Dnsless(a)
    ensures var v := Perform(w, a, f).0;
            && v.spec == w.spec && (v.DnsOn() <==> w.DnsOn()) && (v.RuleOn() <==> w.RuleOn())
            && (D.PlainServers(w.uci, w.spec) ==> D.PlainServers(v.uci, v.spec))
  {
    hide D.EnableCmds, D.DisableCmds, D.FailClosedCmds, RunAll, D.PlainServers, D.Enabled, D.RuleInstalled, K.IsOn;
    if a.SetSwitch? {
      SwitchActs(w, a.on, f);
      SwitchFacts(w.uci, a.on, f.script);
      SwitchStays(w, Perform(w, a, f).0, a.on);
    }
  }

  lemma {:induction false} DnslessRun(w: World, steps: seq<Step>, fates: seq<Fate>)
    requires forall i :: 0 <= i < |steps| ==> steps[i].May? && Dnsless(steps[i].act)
    ensures var v := Play(w, steps, fates).0;
            && v.spec == w.spec && (v.DnsOn() <==> w.DnsOn()) && (v.RuleOn() <==> w.RuleOn())
            && (D.PlainServers(w.uci, w.spec) ==> D.PlainServers(v.uci, v.spec))
    decreases |steps|
  {
    hide Perform, D.Enabled, D.PlainServers, D.RuleInstalled;
    if steps != [] && fates != [] {
      DnslessActs(w, steps[0].act, fates[0]);
      DnslessRun(Perform(w, steps[0].act, fates[0]).0, steps[1..], fates[1..]);
    }
  }

  lemma StepsLackWhatIsOff(r: Record, configured: bool, text: string)
    ensures !r.savedKS ==> forall i :: 0 <= i < |EnterSteps(r)| ==> EnterSteps(r)[i].May? && Switchless(EnterSteps(r)[i].act)
    ensures !r.savedKS ==> forall i :: 0 <= i < |ExitSteps(r, configured, text)| ==>
              ExitSteps(r, configured, text)[i].May? && Switchless(ExitSteps(r, configured, text)[i].act)
    ensures !r.savedDNS ==> forall i :: 0 <= i < |EnterSteps(r)| ==> EnterSteps(r)[i].May? && Dnsless(EnterSteps(r)[i].act)
    ensures !r.savedDNS ==> forall i :: 0 <= i < |ExitSteps(r, configured, text)| ==>
              ExitSteps(r, configured, text)[i].May? && Dnsless(ExitSteps(r, configured, text)[i].act)
  {
  }

  /** A first enter whose record is saved leaves that record. */
  lemma EnteredRecord(w: World, e: Event) returns (r: Record)
    requires w.record == None && e.Entered? && e.fates != [] && e.fates[0].ok
    ensures var later := w.(clock := e.now);
            && r == Captured(later, e.url, e.began, e.now, e.ksReads, e.dnsReads)
            && r.savedKS == (e.ksReads && w.SwitchOn()) && r.savedDNS == (e.dnsReads && w.DnsOn())
            && Next(w, e).record == Some(r)
            && Next(w, e) == Settled(Play(later, EnterSteps(r), e.fates))
  {
    hide Perform, Play, EnterSteps, Pause, Next, RunAll, D.Enabled, K.IsOn;
    NextEntered(w, e);
    var later := w.(clock := e.now);
    r := Captured(later, e.url, e.began, e.now, e.ksReads, e.dnsReads);
    var u := EnterBegins(later, r, e.fates);
    PauseIsMine(r);
    MineKeepsRecord(u, r, Pause(r), e.fates[1..]);
  }

  lemma NextExited(w: World, r: Record, text: string, fates: seq<Fate>)
    requires w.record == Some(r)
    ensures Next(w, Exited(text, fates)) == Settled(Play(w, ExitSteps(r, w.configured, text), fates))
  {
    hide Play, RunAll;
  }

  lemma {:induction false} OkNeedsAll(u: State, cmds: seq<Argv>, cut: nat)
    requires RunAll(u, cmds, cut).1
    ensures cut >= |cmds|
    decreases |cmds|
  {
    hide Exec;
    if cmds != [] {
      OkNeedsAll(Exec(u, cmds[0]).value, cmds[1..], cut - 1);
    }
  }

  lemma FailClosedNeedsAll(w: World, f: Fate)
    requires Perform(w, FailClosed(true), f).1
    ensures f.cut >= |D.FailClosedCmds(true)|
  {
    hide D.FailClosedCmds, D.EnableCmds, D.DisableCmds, RunAll;
    OkNeedsAll(w.uci, D.FailClosedCmds(true), f.cut);
  }

  /** A clean exit is one the runs of PortalRuns allow. */
  lemma CleanExitAllowed(w: World, r: Record, text: string, fates: seq<Fate>)
    requires w.record == Some(r) && Clean(w, ExitSteps(r, w.configured, text), fates)
    ensures Allowed(w, Exited(text, fates)) && Next(w, Exited(text, fates)).record == None
  {
    hide Perform, Clean, ExitSteps, Next, D.FailClosedCmds;
    var a, b, c, d, v := CleanExit(w, r, text, fates);
    if r.savedKS && r.savedDNS {
      FailClosedNeedsAll(c, fates[3]);
    }
  }

  /** DNS paused and resumed under a switch the record does not know of: the rule is gone. */
  lemma RuleLostUnderSwitch(w: World, e: Event, text: string, fates: seq<Fate>)
    requires Inv(w) && w.record == None && e.Entered? && w.SwitchOn() && w.DnsOn() && !e.ksReads && e.dnsReads
    requires |e.fates| >= 4 && e.fates[0].ok && e.fates[3].cut >= |D.DisableCmds(w.spec)|
    requires var u := Next(w, e);
             u.record.Some? && Clean(u, ExitSteps(u.record.value, u.configured, text), fates)
    ensures var v := Next(Next(w, e), Exited(text, fates));
            v.record == None && v.SwitchOn() && v.DnsOn() && !v.RuleOn()
  {
    hide Perform, Play, EnterSteps, ExitSteps, Next, RunAll, D.Enabled, K.IsOn, D.PlainServers, D.DisableCmds, Clean,
         D.RuleInstalled;
    var r := EnteredRecord(w, e);
    var later := w.(clock := e.now);
    var u := Next(w, e);
    StepsLackWhatIsOff(r, u.configured, text);
    SwitchlessRun(later, EnterSteps(r), e.fates);
    EnterDropsRule(later, r, e.fates);
    NoRuleNotOn(u);
    var a, b, c, d, v := CleanExit(u, r, text, fates);
    SwitchlessRun(u, ExitSteps(r, u.configured, text), fates);
    NextExited(u, r, text, fates);
    AsideActs(u, If(u.configured, Up), fates[0]);
    SkipActs(u, fates[0]);
    SkipActs(a, fates[1]);
    EnableActs(b, fates[2]);
    SkipActs(c, fates[3]);
  }

  lemma NoRuleNotOn(w: World)
    requires Lookup(w.uci.firewall.staged, D.KS) == None
    ensures !w.RuleOn()
  {
  }

  /** Nothing of encrypted DNS was touched, and the switch is on only if it was. */
  lemma DnsLeftAlone(w: World, e: Event, text: string, fates: seq<Fate>)
    requires Inv(w) && w.record == None && e.Entered? && !(e.dnsReads && w.DnsOn())
    requires e.fates != [] && e.fates[0].ok
    requires var u := Next(w, e);
             u.record.Some? && Clean(u, ExitSteps(u.record.value, u.configured, text), fates)
    ensures Inv(Next(Next(w, e), Exited(text, fates)))
  {
    hide Perform, Play, EnterSteps, ExitSteps, Next, RunAll, D.Enabled, K.IsOn, D.PlainServers, Clean, D.RuleInstalled;
    var r := EnteredRecord(w, e);
    var later := w.(clock := e.now);
    var u := Next(w, e);
    StepsLackWhatIsOff(r, u.configured, text);
    DnslessRun(later, EnterSteps(r), e.fates);
    DnslessRun(u, ExitSteps(r, u.configured, text), fates);
    if !r.savedKS {
      SwitchlessRun(later, EnterSteps(r), e.fates);
      SwitchlessRun(u, ExitSteps(r, u.configured, text), fates);
    }
    NextExited(u, r, text, fates);
    CleanExitAllowed(u, r, text, fates);
  }

  /**
   One pause, from enter to completed exit, in a world that keeps the invariant. It keeps it if and
   only if the switch query answered, or the switch was off, or DNS was not paused: a switch that is
   on but was not seen costs the rule although every command succeeds. A DNS query that fails costs nothing.
   */
  lemma MissedQueryExactly(w: World, e: Event, text: string, fates: seq<Fate>)
    requires Inv(w) && w.record == None && e.Entered? && w.clock <= e.now
    requires |e.fates| >= 4 && e.fates[0].ok && e.fates[3].cut >= |D.DisableCmds(w.spec)|
    requires var u := Next(w, e);
             u.record.Some? && Clean(u, ExitSteps(u.record.value, u.configured, text), fates)
    ensures Inv(After(w, [e, Exited(text, fates)]))
            <==> e.ksReads || !w.SwitchOn() || !(e.dnsReads && w.DnsOn())
  {
    hide Inv, Next, Clean, K.IsOn, D.Enabled, D.DisableCmds, D.RuleInstalled;
    var u := Next(w, e);
    var v := Next(u, Exited(text, fates));
    AfterTwo(w, e, Exited(text, fates));
    if !(e.dnsReads && w.DnsOn()) {
      DnsLeftAlone(w, e, text, fates);
    } else if e.ksReads || !w.SwitchOn() {
      assert ReadsTrue(w, e.ksReads, e.dnsReads);
      NextKeeps(w, e);
      AdvancedIsInv(w, u);
      CleanExitAllowed(u, u.record.value, text, fates);
      NextKeeps(u, Exited(text, fates));
      AdvancedIsInv(u, v);
    } else {
      RuleLostUnderSwitch(w, e, text, fates);
      NoRuleNoInv(v);
    }
  }

  lemma AfterTwo(w: World, e: Event, f: Event)
    ensures After(w, [e, f]) == Next(Next(w, e), f)
  {
    hide Next;
    assert [e, f][1..] == [f] && [f][1..] == [];
    assert After(Next(w, e), [f]) == After(Next(Next(w, e), f), []);
  }

  lemma AdvancedIsInv(w: World, v: World)
    requires Advanced(w, v)
    ensures Inv(v)
  {
  }

  lemma NoRuleNoInv(w: World)
    requires w.record == None && w.SwitchOn() && w.DnsOn() && !w.RuleOn()
    ensures !Inv(w)
  {
  }

  /**
   An exit from a pause of both protections that had dropped the rule, with everything but its last
   command list going through: the invariant holds if and only if that list got as far as its commit.
   */
  lemma ExitRuleExactly(w: World, text: string, fates: seq<Fate>)
    requires Inv(w) && w.record.Some? && w.record.value.savedKS && w.record.value.savedDNS
    requires Lookup(w.uci.firewall.staged, D.KS) == None && D.HasDnsmasq(w.uci)
    requires |fates| > 4 && fates[1].script.started && fates[2].cut >= |D.EnableCmds(w.spec)| && fates[4].ok
    ensures var v := Exit(w, text, fates).0;
            && v.record == None && v.SwitchOn() && v.DnsOn()
            && (Inv(v) <==> fates[3].cut + 2 >= |D.FailClosedCmds(true)|)
  {
    hide Perform, Play, Clear, K.IsOn, D.Enabled, D.PlainServers, D.RuleInstalled, D.FailClosedCmds, D.EnableCmds, D.HasDnsmasq;
    var r := w.record.value;
    var steps := Restore(r, w.configured);
    RestoreLength(r, w.configured);
    RestoreIsMine(r, w.configured);
    RestoreSteps(r, w.configured);
    PlayTwo(w, steps, Clear(text), fates);
    PlayTwo(w, steps[..3], steps[3..], fates[..4]);
    assert fates[..4][..3] == fates[..3] && fates[..4][3..] == [fates[3]];
    var u := Play(w, steps[..3], fates[..3]).0;
    ThreeRestored(w, r, w.configured, fates[..3]);
    OneStep(u, FailClosed(true), [fates[3]]);
    FailClosedCutActs(u, fates[3]);
    MineRun(w, r, steps, fates[..4]);
    var d := Play(w, steps, fates[..4]).0;
    ClearRuns(d, text, fates[4..]);
  }

  lemma ThreeRestored(w: World, r: Record, configured: bool, fates: seq<Fate>)
    requires w.record == Some(r) && r.savedKS && r.savedDNS && D.HasDnsmasq(w.uci)
    requires Inv(w) && Lookup(w.uci.firewall.staged, D.KS) == None
    requires |fates| == 3 && fates[1].script.started && fates[2].cut >= |D.EnableCmds(w.spec)|
    ensures var u := Play(w, Restore(r, configured)[..3], fates).0;
            u.SwitchOn() && u.DnsOn() && Lookup(u.uci.firewall.staged, D.KS) == None
  {
    hide Perform, K.IsOn, D.Enabled, D.PlainServers, D.EnableCmds, D.HasDnsmasq, D.RuleInstalled;
    var steps := Restore(r, configured)[..3];
    var a := Perform(w, If(configured, Up), fates[0]).0;
    AsideActs(w, If(configured, Up), fates[0]);
    assert steps[0] == May(If(configured, Up));
    assert Play(w, steps, fates) == Play(a, steps[1..], fates[1..]);
    var b := Perform(a, SetSwitch(true), fates[1]).0;
    SwitchActs(a, true, fates[1]);
    SwitchFacts(a.uci, true, fates[1].script);
    SwitchStays(a, b, true);
    SameDnsmasq(a.uci, b.uci);
    assert steps[1..] == [May(SetSwitch(true)), May(EnableDns)] && steps[1..][1..] == [May(EnableDns)];
    assert fates[1..][1..] == [fates[2]];
    assert Play(a, steps[1..], fates[1..]) == Play(b, [May(EnableDns)], [fates[2]]);
    OneStep(b, EnableDns, [fates[2]]);
    EnableUncut(b, fates[2]);
    EnableActs(b, fates[2]);
  }

  lemma SameDnsmasq(u: State, v: State)
    requires v.dhcp == u.dhcp
    ensures D.HasDnsmasq(v) <==> D.HasDnsmasq(u)
  {
  }

  lemma EnableUncut(w: World, f: Fate)
    requires D.HasDnsmasq(w.uci) && f.cut >= |D.EnableCmds(w.spec)|
    ensures var (v, ok) := Perform(w, EnableDns, f);
            ok && Lookup(v.uci.firewall.staged, D.KS) == Lookup(w.uci.firewall.staged, D.KS)
  {
    hide D.FailClosedCmds, D.EnableCmds, D.DisableCmds, RunAll;
    RunEnough(w.uci, D.EnableCmds(w.spec), f.cut);
    D.EnableRuns(w.uci, w.spec);
    EnableKeepsRule(w.uci, f.cut, w.spec);
  }

  // ---------- A rule left over from a toggle ----------

  /** Turning the switch off while the DNS query fails leaves the rule behind: an allowed event. */
  lemma LeftoverRuleArises(w: World, fates: seq<Fate>)
    requires Inv(w) && w.record == None && w.SwitchOn() && w.DnsOn()
    requires |fates| >= 3 && ScriptOk(w.uci, false, fates[0].script) && !fates[1].ok
    ensures var v := Next(w, SwitchToggled(false, fates));
            Allowed(w, SwitchToggled(false, fates)) && v.record == None && !v.SwitchOn() && v.DnsOn() && v.RuleOn()
  {
    hide Perform, K.IsOn, D.Enabled, D.PlainServers, D.RuleInstalled, Play, Scripted;
    SwitchSequence(w, false, fates);
    SwitchActs(w, false, fates[0]);
    SwitchFacts(w.uci, false, fates[0].script);
    var a := Perform(w, SetSwitch(false), fates[0]).0;
    SwitchStays(w, a, false);
    UnansweredActs(a, false, fates[1]);
    CancelActs(a, SWITCH_REASON, fates[2]);
  }

  lemma UnansweredActs(w: World, on: bool, f: Fate)
    requires !f.ok
    ensures Perform(w, FailClosedIfDns(on), f) == (w, true)
  {
    hide Commands;
  }

  /** And the next pause, every command of it succeeding, loses that rule. */
  lemma LeftoverRuleLost(w: World, e: Event, text: string, fates: seq<Fate>)
    requires Inv(w) && w.record == None && !w.SwitchOn() && w.DnsOn() && w.RuleOn()
    requires e.Entered? && e.dnsReads
    requires |e.fates| >= 4 && e.fates[0].ok && e.fates[3].cut >= |D.DisableCmds(w.spec)|
    requires var u := Next(w, e);
             u.record.Some? && Clean(u, ExitSteps(u.record.value, u.configured, text), fates)
    ensures var v := After(Next(w, e), [Exited(text, fates)]);
            Restored(w, v) && !v.RuleOn()
  {
    hide Next, Clean, Restored, K.IsOn, D.Enabled, D.DisableCmds, D.RuleInstalled, D.PlainServers;
    assert After(Next(w, e), []) == Next(w, e);
    RuleRestoredExactly(w, e, [], text, fates);
    CrashSafeRestoration(w, e, [], text, fates);
  }
}
