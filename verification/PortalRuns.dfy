/**
 What portal mode keeps over whole runs: the fail-closed invariant and the pause-record invariant
 through crashes, failures, re-entries and toggles, with the steps that would break them.
 */
module PortalRuns {
  import opened Common
  import opened Uci
  import K = KillSwitch
  import D = DnsService
  import V = VpnImport
  import opened PortalMode
  import opened Posture

  // ---------- The invariant ----------

  /**
   No pause on record: a kill switch and encrypted DNS that are both on come with the exact
   fail-closed rule. A pause on record: what is on now was on when the pause began.
   */
  ghost predicate Inv(w: World) {
    && D.PlainServers(w.uci, w.spec)
    && match w.record
       case None => w.SwitchOn() && w.DnsOn() ==> w.RuleOn()
       case Some(r) =>
         && (w.SwitchOn() ==> r.savedKS)
         && (w.DnsOn() ==> r.savedDNS)
         && r.deadline <= w.clock + WINDOW
  }

  /** x continues the pause r records. */
  predicate Continues(r: Record, x: Record) {
    && x.since == r.since && x.savedKS == r.savedKS && x.savedDNS == r.savedDNS
    && x.deadline >= r.deadline
  }

  /** What a handler may do on behalf of the pause r, up to forgetting it. */
  predicate Mine(r: Record, a: Act) {
    match a
    case Skip => true
    case SetNote(_) => true
    case Kick => true
    case Down => true
    case Up => true
    case SetSwitch(_) => r.savedKS
    case EnableDns => r.savedDNS
    case DisableDns => r.savedDNS
    case FailClosed(on) => on && r.savedDNS && r.savedKS
    case _ => false
  }

  /** v is w further on in the same pause. */
  ghost predicate Held(w: World, v: World) {
    Inv(v) && v.record == w.record && v.clock == w.clock && v.spec == w.spec && v.configured == w.configured
  }

  lemma CommandsHold(w: World, r: Record, cmds: seq<Argv>, cut: nat)
    requires Inv(w) && w.record == Some(r) && r.savedDNS && D.DnsCmds(cmds, w.spec)
    ensures Held(w, Commands(w, cmds, cut).0)
  {
    DnsKeepsSwitch(w.uci, cmds, cut, w.spec);
  }

  lemma DnsActHolds(w: World, r: Record, a: Act, f: Fate)
    requires Inv(w) && w.record == Some(r) && r.savedDNS && (a == EnableDns || a == DisableDns || a.FailClosed?)
    ensures Held(w, Perform(w, a, f).0)
  {
    hide Held, Inv, Commands;
    D.ListsAreDnsCmds(w.spec);
    match a {
      case EnableDns => CommandsHold(w, r, D.EnableCmds(w.spec), f.cut);
      case DisableDns => CommandsHold(w, r, D.DisableCmds(w.spec), f.cut);
      case FailClosed(on) => CommandsHold(w, r, D.FailClosedCmds(on), f.cut);
    }
  }

  lemma SwitchActHolds(w: World, r: Record, on: bool, f: Fate)
    requires Inv(w) && w.record == Some(r) && r.savedKS
    ensures Held(w, Perform(w, SetSwitch(on), f).0)
  {
    hide D.EnableCmds, D.DisableCmds, D.FailClosedCmds, RunAll;
    SwitchFacts(w.uci, on, f.script);
  }

  /** Acts that leave the store alone. */
  predicate Aside(a: Act) {
    a == Skip || a.SetNote? || a == Kick || a == Down || a == Up
  }

  lemma AsideHolds(w: World, a: Act, f: Fate)
    requires Inv(w) && Aside(a)
    ensures Held(w, Perform(w, a, f).0)
    ensures var v := Perform(w, a, f).0; v.uci == w.uci
  {
    hide Commands;
  }

  lemma MineKeeps(w: World, r: Record, a: Act, f: Fate)
    requires Inv(w) && w.record == Some(r) && Mine(r, a)
    ensures Held(w, Perform(w, a, f).0)
  {
    hide Held, Inv, Perform;
    if a.SetSwitch? {
      SwitchActHolds(w, r, a.on, f);
    } else if Aside(a) {
      AsideHolds(w, a, f);
    } else {
      DnsActHolds(w, r, a, f);
    }
  }

  predicate AllMine(r: Record, steps: seq<Step>) {
    forall i :: 0 <= i < |steps| ==> steps[i].May? && Mine(r, steps[i].act)
  }

  lemma {:induction false} MineRun(w: World, r: Record, steps: seq<Step>, fates: seq<Fate>)
    requires Inv(w) && w.record == Some(r) && AllMine(r, steps)
    ensures var (v, end) := Play(w, steps, fates);
            Held(w, v) && end == (if |fates| >= |steps| then Done else Died)
    decreases |steps|
  {
    hide Inv, Perform;
    if steps == [] || fates == [] {
      Same(w);
    } else {
      assert steps[0].May? && Mine(r, steps[0].act);
      MineKeeps(w, r, steps[0].act, fates[0]);
      MineRun(Perform(w, steps[0].act, fates[0]).0, r, steps[1..], fates[1..]);
    }
  }

  lemma Same(w: World)
    ensures Inv(w) ==> Held(w, w)
  {
  }

  // ---------- Steps that only switch things off ----------

  predicate Relaxing(a: Act) {
    a == Skip || a.SetNote? || a == Kick || a == Down || a == DisableDns || a == SetSwitch(false)
  }

  /** v is w with no more protections on. */
  ghost predicate Relaxed(w: World, v: World) {
    Held(w, v) && (v.SwitchOn() ==> w.SwitchOn()) && (v.DnsOn() ==> w.DnsOn())
  }

  lemma DisableRelaxes(w: World, f: Fate)
    requires Inv(w)
    ensures Relaxed(w, Perform(w, DisableDns, f).0)
  {
    hide D.EnableCmds, D.DisableCmds, D.FailClosedCmds, RunAll;
    D.ListsAreDnsCmds(w.spec);
    DnsKeepsSwitch(w.uci, D.DisableCmds(w.spec), f.cut, w.spec);
    DisableShort(w.uci, f.cut, w.spec);
  }

  lemma SwitchRelaxes(w: World, f: Fate)
    requires Inv(w)
    ensures Relaxed(w, Perform(w, SetSwitch(false), f).0)
  {
    hide D.EnableCmds, D.DisableCmds, D.FailClosedCmds, RunAll;
    SwitchFacts(w.uci, false, f.script);
  }

  lemma RelaxingKeeps(w: World, a: Act, f: Fate)
    requires Inv(w) && Relaxing(a)
    ensures Relaxed(w, Perform(w, a, f).0)
  {
    hide Inv, Perform;
    if a == DisableDns {
      DisableRelaxes(w, f);
    } else if a.SetSwitch? {
      SwitchRelaxes(w, f);
    } else {
      AsideHolds(w, a, f);
    }
  }

  lemma {:induction false} RelaxingRun(w: World, steps: seq<Step>, fates: seq<Fate>)
    requires Inv(w) && forall i :: 0 <= i < |steps| ==> Relaxing(steps[i].act)
    ensures Held(w, Play(w, steps, fates).0)
    decreases |steps|
  {
    hide Inv, Perform;
    if steps == [] || fates == [] {
      Same(w);
    } else {
      assert Relaxing(steps[0].act);
      RelaxingKeeps(w, steps[0].act, fates[0]);
      var (v, ok) := Perform(w, steps[0].act, fates[0]);
      if ok || steps[0].May? {
        RelaxingRun(v, steps[1..], fates[1..]);
      }
    }
  }

  // ---------- Composing runs ----------

  lemma {:induction false} PlayTwo(w: World, a: seq<Step>, b: seq<Step>, fates: seq<Fate>)
    requires forall i :: 0 <= i < |a| ==> a[i].May?
    ensures Play(w, a + b, fates)
            == if |fates| >= |a| then Play(Play(w, a, fates[..|a|]).0, b, fates[|a|..]) else Play(w, a, fates)
    decreases |a|
  {
    if a == [] {
      assert a + b == b && fates[0..] == fates;
    } else if fates != [] {
      assert (a + b)[1..] == a[1..] + b;
      PlayTwo(Perform(w, a[0].act, fates[0]).0, a[1..], b, fates[1..]);
      if |fates| >= |a| {
        assert fates[1..][..|a| - 1] == fates[..|a|][1..];
        assert fates[1..][|a| - 1..] == fates[|a|..];
      }
    }
  }

  // ---------- Entering ----------

  /** Both posture queries answer, or there is nothing on to be missed. */
  predicate ReadsTrue(w: World, ksReads: bool, dnsReads: bool) {
    w.record.Some? || ((ksReads || !w.SwitchOn()) && (dnsReads || !w.DnsOn()))
  }

  lemma PauseIsMine(r: Record)
    ensures AllMine(r, Pause(r))
    ensures forall i :: 0 <= i < |Pause(r)| ==> Relaxing(Pause(r)[i].act)
  {
  }

  lemma SaveActs(w: World, r: Record, f: Fate)
    ensures Perform(w, Save(r), f) == (if f.ok then w.(record := Some(r)) else w, f.ok)
  {
    hide RunAll;
  }

  /** Entering, cut anywhere, with any command or the record's save failing. */
  lemma EnterKeeps(w: World, url: string, began: int, now: int, ksReads: bool, dnsReads: bool, fates: seq<Fate>)
    requires Inv(w) && w.clock == now && ReadsTrue(w, ksReads, dnsReads)
    ensures var v := Enter(w, url, began, now, ksReads, dnsReads, fates).0;
            && Inv(v) && v.clock == w.clock
            && (w.record.Some? ==> v.record.Some? && Continues(w.record.value, v.record.value))
  {
    hide Perform, D.Enabled, D.RuleInstalled, D.PlainServers, K.IsOn;
    var r := Captured(w, url, began, now, ksReads, dnsReads);
    var steps := EnterSteps(r);
    if fates != [] {
      assert steps[0] == May(Save(r)) && steps[1..] == Pause(r);
      PauseIsMine(r);
      SaveActs(w, r, fates[0]);
      var u := Perform(w, Save(r), fates[0]).0;
      assert Play(w, steps, fates) == Play(u, Pause(r), fates[1..]);
      if fates[0].ok {
        MineRun(u, r, Pause(r), fates[1..]);
      } else {
        RelaxingRun(u, Pause(r), fates[1..]);
      }
    }
  }

  // ---------- Leaving ----------

  /** If this exit gets as far as forgetting a pause of both protections, the rule is back. */
  predicate RuleRestored(r: Record, fates: seq<Fate>) {
    r.savedKS && r.savedDNS && |fates| > 4 && fates[4].ok ==> fates[3].cut + 2 >= |D.FailClosedCmds(true)|
  }

  lemma RestoreIsMine(r: Record, configured: bool)
    ensures AllMine(r, Restore(r, configured))
  {
  }

  lemma RestoreSteps(r: Record, configured: bool)
    ensures Restore(r, configured) == Restore(r, configured)[..3] + Restore(r, configured)[3..]
    ensures Restore(r, configured)[3..] == [May(If(r.savedDNS && r.savedKS, FailClosed(true)))]
    ensures AllMine(r, Restore(r, configured)[..3])
  {
  }

  lemma OneStep(w: World, a: Act, fates: seq<Fate>)
    ensures Play(w, [May(a)], fates) == if fates == [] then (w, Died) else (Perform(w, a, fates[0]).0, Done)
  {
    hide Perform;
    assert [May(a)][1..] == [];
  }

  /** Running the four restoring steps, the last one as far as its edits, leaves the rule installed. */
  lemma RestoreInstallsRule(w: World, r: Record, configured: bool, fates: seq<Fate>)
    requires Inv(w) && w.record == Some(r) && r.savedKS && r.savedDNS
    requires |fates| == 4 && fates[3].cut + 2 >= |D.FailClosedCmds(true)|
    ensures Play(w, Restore(r, configured), fates).0.RuleOn()
  {
    hide Perform, D.FailClosedCmds, Inv;
    var steps := Restore(r, configured);
    RestoreSteps(r, configured);
    PlayTwo(w, steps[..3], steps[3..], fates);
    var u := Play(w, steps[..3], fates[..3]).0;
    OneStep(u, FailClosed(true), fates[3..]);
    FailClosedCutActs(u, fates[3]);
  }

  /** SetFailClosed(true) stopped anywhere: when it has installed the rule, and that it moves nothing else. */
  lemma FailClosedCutActs(w: World, f: Fate)
    ensures var v := Perform(w, FailClosed(true), f).0;
            && v == w.(uci := v.uci)
            && (v.SwitchOn() <==> w.SwitchOn()) && (v.DnsOn() <==> w.DnsOn())
            && (f.cut + 2 >= |D.FailClosedCmds(true)| ==> v.RuleOn())
            && (Lookup(w.uci.firewall.staged, D.KS) == None ==> (v.RuleOn() <==> f.cut + 2 >= |D.FailClosedCmds(true)|))
  {
    hide D.FailClosedCmds, D.RuleInstalled, RunAll, D.EnableCmds, D.DisableCmds;
    FailClosedKeepsRest(w.uci, true, f.cut);
    D.FailClosedInterrupted(w.uci, f.cut);
  }

  lemma ExitKeeps(w: World, text: string, fates: seq<Fate>)
    requires Inv(w) && (w.record.Some? ==> RuleRestored(w.record.value, fates))
    ensures var v := Exit(w, text, fates).0;
            && Inv(v) && v.clock == w.clock
            && (w.record.Some? && v.record.Some? ==> v.record == w.record)
  {
    hide Perform, D.Enabled, D.RuleInstalled, D.PlainServers, K.IsOn, Play, Clear, D.FailClosedCmds;
    if w.record.Some? {
      var r := w.record.value;
      var steps := Restore(r, w.configured);
      RestoreIsMine(r, w.configured);
      PlayTwo(w, steps, Clear(text), fates);
      MineRun(w, r, steps, if |fates| >= 4 then fates[..4] else fates);
      if |fates| >= 4 {
        var u := Play(w, steps, fates[..4]).0;
        ClearRuns(u, text, fates[4..]);
        if |fates| > 4 && fates[4].ok && r.savedKS && r.savedDNS {
          RestoreInstallsRule(w, r, w.configured, fates[..4]);
        }
      }
    }
  }

  lemma ForgetActs(w: World, text: string, f: Fate)
    ensures Perform(w, Forget, f) == (if f.ok then w.(record := None) else w, f.ok)
    ensures Perform(w, SetNote(text), f) == (w.(note := text), true)
  {
    hide RunAll;
  }

  /** Forgetting the record and leaving a note, as far as the fates reach. */
  lemma ClearRuns(w: World, text: string, fates: seq<Fate>)
    ensures var v := Play(w, Clear(text), fates).0;
            var u := if fates != [] && fates[0].ok then w.(record := None) else w;
            v == if |fates| > 1 then u.(note := text) else u
  {
    hide Perform;
    if fates != [] {
      var steps := Clear(text);
      assert steps[1..] == [May(SetNote(text))];
      var u := Perform(w, Forget, fates[0]).0;
      ForgetActs(w, text, fates[0]);
      OneStep(u, SetNote(text), fates[1..]);
      if |fates| > 1 {
        ForgetActs(u, text, fates[1]);
      }
    }
  }

  // ---------- Toggles ----------

  const SWITCH_REASON := "you changed the kill switch manually"
  const DNS_REASON := "you changed encrypted DNS manually"

  /** The toggle went through to the end, its DNS query answered and the pause record is gone. */
  predicate SwitchWentThrough(w: World, on: bool, fates: seq<Fate>) {
    && |fates| >= 3
    && Play(w, SwitchSteps(on), fates).1 == Done
    && (fates[1].ok || !w.DnsOn())
    && (fates[2].ok || w.record.None?)
  }

  lemma SwitchSequence(w: World, on: bool, fates: seq<Fate>)
    requires fates != []
    ensures var (u, ok) := Perform(w, SetSwitch(on), fates[0]);
            Play(w, SwitchSteps(on), fates) ==
            if !ok then (u, Failed)
            else if |fates| == 1 then (u, Died)
            else
              var (t, done) := Perform(u, FailClosedIfDns(on), fates[1]);
              if !done then (t, Failed)
              else if |fates| == 2 then (t, Died)
              else (Perform(t, Cancel(SWITCH_REASON), fates[2]).0, Done)
  {
    hide Perform;
    var steps := SwitchSteps(on);
    assert steps[1..] == [Must(FailClosedIfDns(on)), May(Cancel(SWITCH_REASON))];
    assert steps[1..][1..] == [May(Cancel(SWITCH_REASON))];
    var (u, ok) := Perform(w, SetSwitch(on), fates[0]);
    if ok && |fates| > 1 {
      assert fates[1..][1..] == fates[2..];
      var (t, done) := Perform(u, FailClosedIfDns(on), fates[1]);
      OneStep(t, Cancel(SWITCH_REASON), fates[2..]);
    }
  }

  lemma SwitchActs(w: World, on: bool, f: Fate)
    ensures Perform(w, SetSwitch(on), f)
            == (w.(uci := Scripted(w.uci, on, f.script)), ScriptOk(w.uci, on, f.script))
  {
    hide RunAll;
  }

  lemma CancelActs(w: World, reason: string, f: Fate)
    ensures var v := Perform(w, Cancel(reason), f).0;
            && v == w.(record := v.record, note := v.note)
            && v.record == if f.ok then None else w.record
  {
    hide RunAll;
  }

  /** What the second step of a toggle leaves: nothing but the rule, and that as told on success. */
  lemma IfDnsActs(w: World, on: bool, f: Fate)
    requires D.PlainServers(w.uci, w.spec)
    ensures var (v, ok) := Perform(w, FailClosedIfDns(on), f);
            && v == w.(uci := v.uci) && D.PlainServers(v.uci, v.spec)
            && (v.SwitchOn() <==> w.SwitchOn()) && (v.DnsOn() <==> w.DnsOn())
            && (ok && f.ok && w.DnsOn() && on ==> v.RuleOn())
  {
    hide D.FailClosedCmds, D.EnableCmds, D.DisableCmds, RunAll, D.RuleInstalled;
    FailClosedKeepsRest(w.uci, on, f.cut);
    if f.ok && w.DnsOn() && RunAll(w.uci, D.FailClosedCmds(on), f.cut).1 {
      FailClosedOk(w.uci, on, f.cut);
    }
  }

  /** Turning the switch off keeps the invariant whatever fails; turning it on does when it goes through. */
  lemma SwitchKeeps(w: World, on: bool, fates: seq<Fate>)
    requires Inv(w) && (on ==> SwitchWentThrough(w, on, fates))
    ensures var v := Play(w, SwitchSteps(on), fates).0;
            Inv(v) && v.clock == w.clock && (v.record.Some? ==> v.record == w.record)
  {
    hide Perform, D.RuleInstalled, D.Enabled, K.IsOn, D.PlainServers, Scripted;
    if fates != [] {
      SwitchSequence(w, on, fates);
      SwitchActs(w, on, fates[0]);
      SwitchFacts(w.uci, on, fates[0].script);
      var (u, ok) := Perform(w, SetSwitch(on), fates[0]);
      SwitchStays(w, u, on);
      if ok && |fates| > 1 {
        IfDnsActs(u, on, fates[1]);
        var (t, done) := Perform(u, FailClosedIfDns(on), fates[1]);
        if done && |fates| > 2 {
          CancelActs(t, SWITCH_REASON, fates[2]);
        }
      }
    }
  }

  /** The switch leaves encrypted DNS and the rule alone. */
  lemma SwitchStays(w: World, v: World, on: bool)
    requires v == w.(uci := v.uci) && v.uci == w.uci.(firewall := v.uci.firewall)
    requires Lookup(v.uci.firewall.staged, D.KS) == Lookup(w.uci.firewall.staged, D.KS)
    ensures v.DnsOn() <==> w.DnsOn()
    ensures v.RuleOn() <==> w.RuleOn()
    ensures D.PlainServers(v.uci, v.spec) <==> D.PlainServers(w.uci, w.spec)
  {
  }

  predicate DnsWentThrough(w: World, fates: seq<Fate>) {
    && |fates| >= 4
    && Play(w, DnsSteps(true), fates).1 == Done
    && (fates[1].ok || !w.SwitchOn())
    && (fates[3].ok || w.record.None?)
  }

  lemma MarkActs(w: World, f: Fate)
    ensures Perform(w, MarkDefaulted, f) == (if f.ok then w.(defaulted := true) else w, f.ok)
  {
    hide RunAll;
  }

  const DNS_TAIL: seq<Step> := [May(MarkDefaulted), May(Cancel(DNS_REASON))]

  lemma DnsTail(w: World, fates: seq<Fate>)
    ensures var (v, end) := Play(w, DNS_TAIL, fates);
            && (end == Done <==> |fates| >= 2) && end != Failed
            && v == w.(record := v.record, note := v.note, defaulted := v.defaulted)
            && v.record == if |fates| >= 2 && fates[1].ok then None else w.record
  {
    hide Perform;
    if fates != [] {
      assert DNS_TAIL[1..] == [May(Cancel(DNS_REASON))];
      var u := Perform(w, MarkDefaulted, fates[0]).0;
      MarkActs(w, fates[0]);
      OneStep(u, Cancel(DNS_REASON), fates[1..]);
      if |fates| > 1 {
        CancelActs(u, DNS_REASON, fates[1]);
      }
    }
  }

  lemma DisableActs(w: World, f: Fate)
    requires Inv(w)
    ensures var (v, ok) := Perform(w, DisableDns, f);
            Relaxed(w, v) && (ok ==> !v.DnsOn())
  {
    hide D.EnableCmds, D.DisableCmds, D.FailClosedCmds, RunAll, Relaxed, D.Enabled;
    DisableRelaxes(w, f);
    if Perform(w, DisableDns, f).1 {
      DisableOk(w.uci, f.cut, w.spec);
    }
  }

  lemma DnsOffKeeps(w: World, fates: seq<Fate>)
    requires Inv(w)
    ensures var v := Play(w, DnsSteps(false), fates).0;
            Inv(v) && v.clock == w.clock && (v.record.Some? ==> v.record == w.record)
  {
    hide Perform, D.RuleInstalled, D.Enabled, K.IsOn, D.PlainServers;
    if fates != [] {
      var steps := DnsSteps(false);
      assert steps[1..] == DNS_TAIL;
      DisableActs(w, fates[0]);
      var (u, ok) := Perform(w, DisableDns, fates[0]);
      if ok {
        DnsTail(u, fates[1..]);
      }
    }
  }

  lemma EnableActs(w: World, f: Fate)
    requires D.PlainServers(w.uci, w.spec)
    ensures var (v, ok) := Perform(w, EnableDns, f);
            && v == w.(uci := v.uci) && D.PlainServers(v.uci, v.spec)
            && (v.SwitchOn() <==> w.SwitchOn())
            && (v.RuleOn() <==> w.RuleOn())
            && (ok ==> v.DnsOn())
  {
    hide D.EnableCmds, D.DisableCmds, D.FailClosedCmds, RunAll, D.Enabled;
    D.ListsAreDnsCmds(w.spec);
    DnsKeepsSwitch(w.uci, D.EnableCmds(w.spec), f.cut, w.spec);
    EnableKeepsRule(w.uci, f.cut, w.spec);
    if Perform(w, EnableDns, f).1 {
      EnableOk(w.uci, f.cut, w.spec);
    }
  }

  lemma IfSwitchActs(w: World, f: Fate)
    requires D.PlainServers(w.uci, w.spec)
    ensures var (v, ok) := Perform(w, FailClosedIfSwitch, f);
            && v == w.(uci := v.uci) && D.PlainServers(v.uci, v.spec)
            && (v.SwitchOn() <==> w.SwitchOn()) && (v.DnsOn() <==> w.DnsOn())
            && (ok && f.ok && w.SwitchOn() ==> v.RuleOn())
  {
    hide D.FailClosedCmds, D.EnableCmds, D.DisableCmds, RunAll, D.RuleInstalled;
    FailClosedKeepsRest(w.uci, true, f.cut);
    if f.ok && w.SwitchOn() && RunAll(w.uci, D.FailClosedCmds(true), f.cut).1 {
      FailClosedOk(w.uci, true, f.cut);
    }
  }

  lemma DnsOnKeeps(w: World, fates: seq<Fate>)
    requires Inv(w) && DnsWentThrough(w, fates)
    ensures var v := Play(w, DnsSteps(true), fates).0;
            Inv(v) && v.clock == w.clock && v.record == None
  {
    hide Perform, D.RuleInstalled, D.Enabled, K.IsOn, D.PlainServers;
    var steps := DnsSteps(true);
    assert steps[1..] == [Must(FailClosedIfSwitch)] + DNS_TAIL && steps[1..][1..] == DNS_TAIL;
    var u := Perform(w, EnableDns, fates[0]).0;
    EnableActs(w, fates[0]);
    assert Play(w, steps, fates) == Play(u, steps[1..], fates[1..]);
    assert fates[1..][1..] == fates[2..];
    var (t, ok) := Perform(u, FailClosedIfSwitch, fates[1]);
    IfSwitchActs(u, fates[1]);
    assert Play(u, steps[1..], fates[1..]) == Play(t, DNS_TAIL, fates[2..]);
    DnsTail(t, fates[2..]);
  }

  // ---------- The default ----------

  lemma DefaultRuns(w: World, fates: seq<Fate>)
    requires fates != []
    ensures var (v, end) := Play(w, DEFAULT_STEPS, fates);
            var (u, ok) := Perform(w, EnableDns, fates[0]);
            v == u.(defaulted := v.defaulted) && (end == Done ==> ok)
  {
    hide Perform;
    assert DEFAULT_STEPS[1..] == [May(MarkDefaulted)];
    var (u, ok) := Perform(w, EnableDns, fates[0]);
    if ok {
      OneStep(u, MarkDefaulted, fates[1..]);
      if |fates| > 1 {
        MarkActs(u, fates[1]);
      }
    }
  }

  /** When enabling DNS without its rule does no harm. */
  predicate DefaultHarmless(w: World) {
    match w.record
    case None => !w.SwitchOn() || w.RuleOn()
    case Some(r) => r.savedDNS
  }

  lemma DefaultKeeps(w: World, fates: seq<Fate>)
    requires Inv(w) && DefaultHarmless(w)
    ensures var v := Play(w, DEFAULT_STEPS, fates).0;
            Inv(v) && v.clock == w.clock && v.record == w.record
  {
    hide Perform, D.RuleInstalled, D.Enabled, K.IsOn, D.PlainServers;
    if fates != [] {
      DefaultRuns(w, fates);
      EnableActs(w, fates[0]);
    }
  }

  /**
   A default step that goes through keeps the invariant exactly when, without a pause, the kill switch
   is off or the rule happens to stand already - it never installs the rule itself - and, in a pause,
   when that pause had found DNS on.
   */
  lemma DefaultKeepsExactly(w: World, fates: seq<Fate>)
    requires Inv(w) && Play(w, DEFAULT_STEPS, fates).1 == Done
    ensures Inv(Play(w, DEFAULT_STEPS, fates).0) <==> DefaultHarmless(w)
  {
    hide Perform, D.RuleInstalled, D.Enabled, K.IsOn, D.PlainServers;
    DefaultRuns(w, fates);
    EnableActs(w, fates[0]);
  }

  // ---------- Whole runs ----------

  /** What a run may contain at this point; crashes and failures everywhere else are free. */
  predicate Allowed(w: World, e: Event) {
    match e
    case Entered(_, began, now, ksReads, dnsReads, _) => w.clock <= now && ReadsTrue(w, ksReads, dnsReads)
    case Exited(_, fates) => w.record.Some? ==> RuleRestored(w.record.value, fates)
    case SwitchToggled(on, fates) => on ==> SwitchWentThrough(w, on, fates)
    case DnsToggled(on, fates) => on ==> DnsWentThrough(w, fates)
    case DnsDefaulted(_) => w.defaulted || DefaultHarmless(w)
    case _ => true
  }

  predicate AllAllowed(w: World, es: seq<Event>)
    decreases |es|
  {
    es == [] || (Allowed(w, es[0]) && AllAllowed(Next(w, es[0]), es[1..]))
  }

  /** v comes from w by a step that is allowed. */
  ghost predicate Advanced(w: World, v: World) {
    && Inv(v)
    && v.clock >= w.clock
    && (w.record.Some? && v.record.Some? ==> Continues(w.record.value, v.record.value))
  }

  lemma RestartKeeps(w: World)
    requires Inv(w)
    ensures Inv(Restarted(w))
  {
  }

  lemma ClockKeeps(w: World, now: int)
    requires Inv(w) && w.clock <= now
    ensures Inv(w.(clock := now))
  {
  }

  lemma EnteredKeeps(w: World, e: Event)
    requires e.Entered? && Inv(w) && Allowed(w, e)
    ensures Advanced(w, Next(w, e))
  {
    hide D.RuleInstalled, D.Enabled, K.IsOn, D.PlainServers, Perform;
    var later := w.(clock := e.now);
    ClockKeeps(w, e.now);
    EnterKeeps(later, e.url, e.began, e.now, e.ksReads, e.dnsReads, e.fates);
    RestartKeeps(Enter(later, e.url, e.began, e.now, e.ksReads, e.dnsReads, e.fates).0);
  }

  lemma HandlerKeeps(w: World, e: Event)
    requires Inv(w) && Allowed(w, e) && (e.Exited? || e.SwitchToggled? || e.DnsToggled? || e.DnsDefaulted?)
    ensures Advanced(w, Next(w, e))
  {
    hide D.RuleInstalled, D.Enabled, K.IsOn, D.PlainServers, Perform, Play;
    match e {
      case Exited(text, fates) =>
        ExitKeeps(w, text, fates);
        RestartKeeps(Exit(w, text, fates).0);
      case SwitchToggled(on, fates) =>
        SwitchKeeps(w, on, fates);
        RestartKeeps(Play(w, SwitchSteps(on), fates).0);
      case DnsToggled(on, fates) =>
        if on {
          DnsOnKeeps(w, fates);
        } else {
          DnsOffKeeps(w, fates);
        }
        RestartKeeps(Play(w, DnsSteps(on), fates).0);
      case DnsDefaulted(fates) =>
        if !w.defaulted {
          DefaultKeeps(w, fates);
          RestartKeeps(Play(w, DEFAULT_STEPS, fates).0);
        }
    }
  }

  lemma SameDns(w: World, u: State)
    requires u.dhcp == w.uci.dhcp && Lookup(u.firewall.staged, D.KS) == Lookup(w.uci.firewall.staged, D.KS)
    ensures D.PlainServers(u, w.spec) <==> D.PlainServers(w.uci, w.spec)
    ensures D.Enabled(u, w.spec) <==> w.DnsOn()
    ensures D.RuleInstalled(u.firewall.staged) <==> w.RuleOn()
  {
  }

  lemma OtherKeeps(w: World, e: Event)
    requires Inv(w) && (e.UrlSeen? || e.Imported? || e.TunnelMoved? || e.KickTaken? || e.Restart?)
    ensures Advanced(w, Next(w, e))
  {
    hide D.EnableCmds, D.DisableCmds, D.FailClosedCmds, RunAll, V.ImportCmds, Play, Enter, Exit, SwitchSteps, DnsSteps, D.KS_HEAD,
         D.PlainServers, D.Enabled, K.IsOn, D.RuleInstalled;
    if e.Imported? {
      ImportKeepsPosture(w.uci, e.cfg, e.cut, w.spec);
      var v := Next(w, e);
      SameDns(w, v.uci);
      assert Inv(v);
    }
  }

  lemma NextKeeps(w: World, e: Event)
    requires Inv(w) && Allowed(w, e)
    ensures Advanced(w, Next(w, e))
  {
    hide Inv, Advanced, Allowed;
    if e.Entered? {
      EnteredKeeps(w, e);
    } else if e.Exited? || e.SwitchToggled? || e.DnsToggled? || e.DnsDefaulted? {
      HandlerKeeps(w, e);
    } else {
      OtherKeeps(w, e);
    }
  }

  /** Every reachable world keeps the invariant. */
  lemma {:induction false} InvAlways(w: World, es: seq<Event>)
    requires Inv(w) && AllAllowed(w, es)
    ensures Inv(After(w, es))
    decreases |es|
  {
    if es != [] {
      NextKeeps(w, es[0]);
      InvAlways(Next(w, es[0]), es[1..]);
    }
  }

  /** Fail-closed: with no pause on record, kill switch and encrypted DNS on mean the exact rule. */
  lemma FailClosedAlways(w: World, es: seq<Event>)
    requires Inv(w) && AllAllowed(w, es)
    ensures var v := After(w, es);
            v.record == None && v.SwitchOn() && v.DnsOn() ==> v.RuleOn()
  {
    InvAlways(w, es);
  }

  predicate PausedThroughout(w: World, es: seq<Event>)
    decreases |es|
  {
    w.record.Some? && (es == [] || PausedThroughout(Next(w, es[0]), es[1..]))
  }

  /**
   While a record is active its start and saved bits never change, its deadline never moves back,
   and each protection that is on was saved on.
   */
  lemma {:induction false} PauseRecordKept(w: World, es: seq<Event>)
    requires Inv(w) && AllAllowed(w, es) && PausedThroughout(w, es)
    ensures var v := After(w, es);
            && v.record.Some? && Continues(w.record.value, v.record.value)
            && (v.SwitchOn() ==> w.record.value.savedKS)
            && (v.DnsOn() ==> w.record.value.savedDNS)
    decreases |es|
  {
    if es != [] {
      NextKeeps(w, es[0]);
      PauseRecordKept(Next(w, es[0]), es[1..]);
    }
  }
}
