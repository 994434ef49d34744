/**
 What each handler of internal/httpapi amounts to when it runs to its end: where the tunnel, the switch,
 encrypted DNS, the record, the note and the wake-up stand afterwards, and what every packet to port 53
 or to a resolver meets. The lists of steps are not part of these statements.
 */
module PortalOutcomes {
  import opened Common
  import opened Uci
  import K = KillSwitch
  import D = DnsService
  import opened FirewallView
  import V = DnsView
  import I = VpnImport
  import W = WgConfig
  import opened PortalMode
  import opened Posture
  import opened PortalRuns
  import opened PortalRestore
  import opened PortalPitfalls
  import R = PortalRace

  // ---------- One act at a time ----------

  predicate OnUci(a: Act) {
    a.SetSwitch? || a == EnableDns || a == DisableDns || a.FailClosed? || a.FailClosedIfDns? || a == FailClosedIfSwitch
  }

  /** Which parts of the world an act can move. */
  lemma ActMoves(w: World, a: Act, f: Fate)
    ensures var v := Perform(w, a, f).0;
            && v == w.(uci := v.uci, tunnel := v.tunnel, record := v.record, defaulted := v.defaulted, note := v.note, kick := v.kick)
            && v.tunnel == (if a == Down && f.ok then false else if a == Up && f.ok then true else w.tunnel)
            && v.record == (if a.Save? && f.ok then Some(a.record)
                            else if (a == Forget || a.Cancel?) && f.ok then None else w.record)
            && v.defaulted == (w.defaulted || (a == MarkDefaulted && f.ok))
            && v.kick == (w.kick || a == Kick)
            && (!a.SetNote? && !a.Cancel? ==> v.note == w.note)
            && (a.SetNote? ==> v.note == a.text)
            && (!OnUci(a) ==> v.uci == w.uci)
  {
    hide Commands, D.EnableCmds, D.DisableCmds, D.FailClosedCmds, Scripted, ScriptOk, D.Enabled, K.IsOn;
    if OnUci(a) {
      UciMoves(w, a, f);
    }
  }

  lemma UciMoves(w: World, a: Act, f: Fate)
    requires OnUci(a)
    ensures var v := Perform(w, a, f).0; v == w.(uci := v.uci)
  {
    hide Commands, D.EnableCmds, D.DisableCmds, D.FailClosedCmds, Scripted, ScriptOk, D.Enabled, K.IsOn;
    CommandsMove(w, D.EnableCmds(w.spec), f.cut);
    CommandsMove(w, D.DisableCmds(w.spec), f.cut);
    CommandsMove(w, D.FailClosedCmds(true), f.cut);
    CommandsMove(w, D.FailClosedCmds(false), f.cut);
  }

  lemma CommandsMove(w: World, cmds: seq<Argv>, cut: nat)
    ensures var v := Commands(w, cmds, cut).0; v == w.(uci := v.uci)
  {
    hide RunAll;
  }

  /** A list of steps that may all fail, played to its end. */
  lemma {:induction false} LoggedTrace(w: World, steps: seq<Step>, fates: seq<Fate>) returns (ws: seq<World>)
    requires |fates| >= |steps| && forall i :: 0 <= i < |steps| ==> steps[i].May?
    ensures |ws| == |steps| + 1 && ws[0] == w && Play(w, steps, fates) == (ws[|steps|], Done)
    ensures forall i :: 0 <= i < |steps| ==> ws[i + 1] == Perform(ws[i], steps[i].act, fates[i]).0
    ensures Clean(w, steps, fates) ==> forall i :: 0 <= i < |steps| ==> Perform(ws[i], steps[i].act, fates[i]).1
    decreases |steps|
  {
    hide Perform;
    if steps == [] {
      ws := [w];
    } else {
      var v := Perform(w, steps[0].act, fates[0]).0;
      var rest := LoggedTrace(v, steps[1..], fates[1..]);
      ws := [w] + rest;
      forall i | 0 <= i < |steps|
        ensures ws[i + 1] == Perform(ws[i], steps[i].act, fates[i]).0
        ensures Clean(w, steps, fates) ==> Perform(ws[i], steps[i].act, fates[i]).1
      {
        if i > 0 {
          assert ws[i + 1] == rest[i] && ws[i] == rest[i - 1];
          assert steps[1..][i - 1] == steps[i] && fates[1..][i - 1] == fates[i];
        }
      }
    }
  }

  // ---------- Entering ----------

  /** The record an enter leaves: a first one holds what the queries answered, a later one only extends. */
  function Recorded(w: World, url: string, began: int, now: int, ksReads: bool, dnsReads: bool): Record {
    match w.record
    case None => Record(began, now + 600 * SECOND, url, ksReads && w.SwitchOn(), dnsReads && w.DnsOn())
    case Some(r) => Record(r.since, now + 600 * SECOND, if url == "" then r.url else url, r.savedKS, r.savedDNS)
  }

  lemma CapturedIs(w: World, url: string, began: int, now: int, ksReads: bool, dnsReads: bool)
    ensures Captured(w, url, began, now, ksReads, dnsReads) == Recorded(w, url, began, now, ksReads, dnsReads)
  {
  }

  lemma EnterShape(r: Record)
    ensures var steps := EnterSteps(r);
            && |steps| == 6 && (forall i :: 0 <= i < 6 ==> steps[i].May?)
            && steps[0].act == Save(r) && steps[1].act == Down
            && steps[2].act == If(r.savedKS, SetSwitch(false)) && steps[3].act == If(r.savedDNS, DisableDns)
            && steps[4].act == SetNote("") && steps[5].act == Kick
  {
  }

  /** The DNS step of an enter and what it leaves of the rest. */
  lemma PausesDns(w: World, on: bool, f: Fate)
    ensures var (v, ok) := Perform(w, If(on, DisableDns), f);
            && v.uci.network == w.uci.network && v.uci.wireless == w.uci.wireless && Unowned(v.uci) == Unowned(w.uci)
            && (v.SwitchOn() <==> w.SwitchOn())
            && (!on ==> v.uci == w.uci)
            && (on && ok && D.PlainServers(w.uci, w.spec) ==> !v.DnsOn())
  {
    hide RunAll, D.EnableCmds, D.DisableCmds, D.FailClosedCmds, D.Enabled, D.PlainServers, Scripted;
    if on {
      D.ListsAreDnsCmds(w.spec);
      DnsKeepsSwitch(w.uci, D.DisableCmds(w.spec), f.cut, w.spec);
      if RunAll(w.uci, D.DisableCmds(w.spec), f.cut).1 && D.PlainServers(w.uci, w.spec) {
        DisableOk(w.uci, f.cut, w.spec);
      }
    }
  }

  /** The switch step of an enter: at most the one forwarding is added. */
  lemma PausesSwitch(w: World, on: bool, f: Fate)
    ensures var (v, ok) := Perform(w, If(on, SetSwitch(false)), f);
            && v.uci == w.uci.(firewall := v.uci.firewall)
            && (forall n :: Lookup(v.uci.firewall.staged, n) == Lookup(w.uci.firewall.staged, n))
            && (Unowned(v.uci) == Unowned(w.uci) || (on && Unowned(v.uci) == Unowned(w.uci) + [K.LAN_WAN]))
            && (!on ==> v.uci == w.uci)
            && (on && ok ==> !v.SwitchOn())
            && (v.DnsOn() <==> w.DnsOn()) && (D.PlainServers(v.uci, v.spec) <==> D.PlainServers(w.uci, w.spec))
  {
    hide Perform, D.Enabled, D.PlainServers, Unowned, K.IsOn, Scripted;
    if on {
      SwitchActs(w, false, f);
      SwitchFacts(w.uci, false, f.script);
      SwitchStays(w, Perform(w, SetSwitch(false), f).0, false);
    } else {
      SkipActs(w, f);
    }
  }

  /**
   An enter that the daemon lives through, whatever fails in it. The tunnel is down exactly if ifdown
   answered or it was down; the record is the one the store took; the watch has been kicked; and of the
   store only the DNS sections, dnsmasq and at most the one forwarding moved. If nothing failed, every
   protection the record holds is off, and those it does not hold are as they were.
   */
  lemma EnterOutcome(w: World, url: string, began: int, now: int, ksReads: bool, dnsReads: bool, fates: seq<Fate>)
    requires |fates| >= 6
    ensures var r := Recorded(w, url, began, now, ksReads, dnsReads);
            var (v, end) := Enter(w, url, began, now, ksReads, dnsReads, fates);
            && end == Done
            && (!v.tunnel <==> fates[1].ok || !w.tunnel)
            && v.record == (if fates[0].ok then Some(r) else w.record)
            && v.note == "" && v.kick
            && v.uci.network == w.uci.network && v.uci.wireless == w.uci.wireless
            && (Unowned(v.uci) == Unowned(w.uci) || (r.savedKS && Unowned(v.uci) == Unowned(w.uci) + [K.LAN_WAN]))
            && (!r.savedKS ==> (v.SwitchOn() <==> w.SwitchOn()))
            && (!r.savedDNS ==> v.uci.dhcp == w.uci.dhcp
                                && forall n :: Lookup(v.uci.firewall.staged, n) == Lookup(w.uci.firewall.staged, n))
            && (Clean(w, EnterSteps(r), fates) ==>
                  && !v.tunnel
                  && (r.savedKS ==> !v.SwitchOn())
                  && (r.savedDNS && D.PlainServers(w.uci, w.spec) ==> !v.DnsOn()))
  {
    hide Perform, Play, Clean, EnterSteps, Captured, Recorded, K.IsOn, D.Enabled, D.PlainServers, Unowned, If;
    CapturedIs(w, url, began, now, ksReads, dnsReads);
    var r := Recorded(w, url, began, now, ksReads, dnsReads);
    EnterShape(r);
    var ws := LoggedTrace(w, EnterSteps(r), fates);
    ActMoves(ws[0], Save(r), fates[0]);
    ActMoves(ws[1], Down, fates[1]);
    DownReports(ws[1], fates[1]);
    ActMoves(ws[2], If(r.savedKS, SetSwitch(false)), fates[2]);
    PausesSwitch(ws[2], r.savedKS, fates[2]);
    ActMoves(ws[3], If(r.savedDNS, DisableDns), fates[3]);
    PausesDns(ws[3], r.savedDNS, fates[3]);
    ActMoves(ws[4], SetNote(""), fates[4]);
    ActMoves(ws[5], Kick, fates[5]);
    NotSkipped(r.savedKS, r.savedDNS);
  }

  lemma DownReports(w: World, f: Fate)
    ensures Perform(w, Down, f).1 == f.ok
  {
    hide RunAll;
  }

  lemma NotSkipped(ks: bool, dns: bool)
    ensures var a, b := If(ks, SetSwitch(false)), If(dns, DisableDns);
            && !a.Save? && !b.Save? && !a.Cancel? && !b.Cancel? && a != Forget && b != Forget
            && !a.SetNote? && !b.SetNote? && a != Down && a != Up && b != Down && b != Up && a != Kick && b != Kick
  {
  }

  // ---------- Leaving ----------

  /** An act that stays within the store, or none. */
  predicate Inner(a: Act) {
    a == Skip || OnUci(a)
  }

  lemma InnerMoves(w: World, a: Act, f: Fate)
    requires Inner(a)
    ensures var v := Perform(w, a, f).0; v == w.(uci := v.uci)
  {
    hide Perform;
    ActMoves(w, a, f);
  }

  lemma ExitShape(r: Record, configured: bool, text: string)
    ensures var steps := ExitSteps(r, configured, text);
            && |steps| == 6 && (forall i :: 0 <= i < 6 ==> steps[i].May?)
            && steps[0].act == If(configured, Up)
            && Inner(steps[1].act) && Inner(steps[2].act) && Inner(steps[3].act)
            && steps[4].act == Forget && steps[5].act == SetNote(text)
  {
  }

  /** An exit that the daemon lives through: the tunnel is up exactly if a VPN is configured and ifup answered, or it was. */
  lemma ExitOutcome(w: World, text: string, fates: seq<Fate>)
    requires w.record.Some? && |fates| >= 6
    ensures var (v, end) := Exit(w, text, fates);
            && end == Done
            && (v.tunnel <==> (w.configured && fates[0].ok) || w.tunnel)
            && v.record == (if fates[4].ok then None else w.record)
            && v.note == text && v.kick == w.kick
  {
    hide Perform, Play, Clean, ExitSteps, Inner;
    var steps := ExitSteps(w.record.value, w.configured, text);
    ExitShape(w.record.value, w.configured, text);
    var ws := LoggedTrace(w, steps, fates);
    ActMoves(ws[0], If(w.configured, Up), fates[0]);
    InnerMoves(ws[1], steps[1].act, fates[1]);
    InnerMoves(ws[2], steps[2].act, fates[2]);
    InnerMoves(ws[3], steps[3].act, fates[3]);
    ActMoves(ws[4], Forget, fates[4]);
    ActMoves(ws[5], SetNote(text), fates[5]);
  }

  // ---------- Save before kick ----------

  lemma {:induction false} QuietRun(w: World, steps: seq<Step>, fates: seq<Fate>)
    requires forall i :: 0 <= i < |steps| && i < |fates| ==> steps[i].act != Kick && R.Storeless(steps[i].act)
    ensures var v := Play(w, steps, fates).0; v.kick == w.kick && v.record == w.record
    decreases |steps|
  {
    hide Perform;
    if steps != [] && fates != [] {
      ActMoves(w, steps[0].act, fates[0]);
      QuietRun(Perform(w, steps[0].act, fates[0]).0, steps[1..], fates[1..]);
    }
  }

  /** An enter that dies on the way has saved its record, and has not kicked: the order the wake-up relies on. */
  lemma SavedBeforeKick(w: World, url: string, began: int, now: int, ksReads: bool, dnsReads: bool, fates: seq<Fate>)
    requires 1 <= |fates| < 6
    ensures var v := Enter(w, url, began, now, ksReads, dnsReads, fates).0;
            && v.kick == w.kick
            && v.record == if fates[0].ok then Some(Recorded(w, url, began, now, ksReads, dnsReads)) else w.record
  {
    hide Perform, Play, EnterSteps, Captured, Recorded, K.IsOn, D.Enabled, If;
    CapturedIs(w, url, began, now, ksReads, dnsReads);
    var r := Recorded(w, url, began, now, ksReads, dnsReads);
    var steps := EnterSteps(r);
    EnterShape(r);
    NotSkipped(r.savedKS, r.savedDNS);
    var u := Perform(w, Save(r), fates[0]).0;
    ActMoves(w, Save(r), fates[0]);
    EnterStarts(w, r, fates);
    QuietRun(u, steps[1..], fates[1..]);
  }

  lemma EnterStarts(w: World, r: Record, fates: seq<Fate>)
    requires fates != []
    ensures Play(w, EnterSteps(r), fates) == Play(Perform(w, Save(r), fates[0]).0, EnterSteps(r)[1..], fates[1..])
  {
    hide Perform;
  }

  // ---------- Toggles ----------

  /** SetFailClosed after a query: the rule follows what was asked, or nothing happens. */
  lemma RuleFollows(w: World, on: bool, f: Fate)
    requires RunAll(w.uci, D.FailClosedCmds(on), f.cut).1
    ensures var v := Commands(w, D.FailClosedCmds(on), f.cut).0;
            && (on ==> v.RuleOn()) && (!on ==> Lookup(v.uci.firewall.staged, "mistui_dns_ks") == None)
            && v == w.(uci := w.uci.(firewall := v.uci.firewall))
            && (v.SwitchOn() <==> w.SwitchOn()) && Unowned(v.uci) == Unowned(w.uci)
  {
    hide D.FailClosedCmds, RunAll, D.RuleInstalled;
    FailClosedOk(w.uci, on, f.cut);
    FailClosedKeepsRest(w.uci, on, f.cut);
  }

  lemma FollowsDns(w: World, on: bool, f: Fate)
    requires Perform(w, FailClosedIfDns(on), f).1
    ensures var v := Perform(w, FailClosedIfDns(on), f).0;
            && v == w.(uci := w.uci.(firewall := v.uci.firewall))
            && (v.SwitchOn() <==> w.SwitchOn())
            && (!(f.ok && w.DnsOn()) ==> v == w)
            && (f.ok && w.DnsOn() ==>
                  if on then v.RuleOn() else Lookup(v.uci.firewall.staged, "mistui_dns_ks") == None)
  {
    hide D.FailClosedCmds, D.EnableCmds, D.DisableCmds, RunAll, D.RuleInstalled, D.Enabled, Scripted;
    if f.ok && w.DnsOn() {
      RuleFollows(w, on, f);
    }
  }

  /**
   A kill-switch request that got no error: the switch is where it was asked to be, a pause is cancelled
   with a note, the fail-closed rule follows exactly if encrypted DNS answered that it is on, and neither
   DNS nor the tunnel moved.
   */
  lemma SwitchOutcome(w: World, on: bool, fates: seq<Fate>)
    requires D.PlainServers(w.uci, w.spec) && Play(w, SwitchSteps(on), fates).1 == Done
    ensures |fates| >= 3
    ensures var v := Play(w, SwitchSteps(on), fates).0;
            && (v.SwitchOn() <==> on) && (v.DnsOn() <==> w.DnsOn()) && v.uci.dhcp == w.uci.dhcp
            && v.tunnel == w.tunnel && v.kick == w.kick && v.defaulted == w.defaulted
            && v.record == (if fates[2].ok then None else w.record)
            && (w.record.Some? ==> v.note == "portal pause canceled \U{2014} " + "you changed the kill switch manually")
            && (fates[1].ok && w.DnsOn() ==>
                  if on then v.RuleOn() else Lookup(v.uci.firewall.staged, "mistui_dns_ks") == None)
            && (!(fates[1].ok && w.DnsOn()) ==>
                  Lookup(v.uci.firewall.staged, "mistui_dns_ks") == Lookup(w.uci.firewall.staged, "mistui_dns_ks"))
  {
    hide Perform, K.IsOn, D.Enabled, D.PlainServers, D.RuleInstalled, Scripted;
    assert fates != [] by {
      assert fates == [] ==> Play(w, SwitchSteps(on), fates).1 == Died;
    }
    SwitchSequence(w, on, fates);
    SwitchActs(w, on, fates[0]);
    SwitchFacts(w.uci, on, fates[0].script);
    var a := Perform(w, SetSwitch(on), fates[0]).0;
    SwitchStays(w, a, on);
    ActMoves(w, SetSwitch(on), fates[0]);
    IfDnsActs(a, on, fates[1]);
    FollowsDns(a, on, fates[1]);
    var b := Perform(a, FailClosedIfDns(on), fates[1]).0;
    CancelNotes(b, SWITCH_REASON, fates[2]);
    CancelActs(b, SWITCH_REASON, fates[2]);
    ActMoves(b, Cancel(SWITCH_REASON), fates[2]);
  }

  lemma CancelNotes(w: World, reason: string, f: Fate)
    ensures w.record.Some? ==> Perform(w, Cancel(reason), f).0.note == "portal pause canceled \U{2014} " + reason
  {
    hide RunAll;
  }

  lemma FollowsSwitch(w: World, f: Fate)
    requires Perform(w, FailClosedIfSwitch, f).1
    ensures var v := Perform(w, FailClosedIfSwitch, f).0;
            && v == w.(uci := w.uci.(firewall := v.uci.firewall))
            && (forall n :: n != D.KS ==> Lookup(v.uci.firewall.staged, n) == Lookup(w.uci.firewall.staged, n))
            && (!(f.ok && w.SwitchOn()) ==> v == w)
            && (f.ok && w.SwitchOn() ==> v.RuleOn())
  {
    hide D.FailClosedCmds, D.EnableCmds, D.DisableCmds, RunAll, D.RuleInstalled, Scripted, K.IsOn;
    if f.ok && w.SwitchOn() {
      RuleFollows(w, true, f);
      FailClosedKeepsRest(w.uci, true, f.cut);
    }
  }

  lemma TurnsDnsOn(w: World, f: Fate)
    requires D.PlainServers(w.uci, w.spec) && Perform(w, EnableDns, f).1
    ensures var v := Perform(w, EnableDns, f).0;
            && v.DnsOn() && PortsShut(v) && D.PlainServers(v.uci, v.spec)
            && (v.SwitchOn() <==> w.SwitchOn())
            && Lookup(v.uci.firewall.staged, D.KS) == Lookup(w.uci.firewall.staged, D.KS)
  {
    hide D.FailClosedCmds, D.EnableCmds, D.DisableCmds, RunAll, PortsShut, D.Enabled, D.PlainServers, K.IsOn;
    EnableActs(w, f);
    EnableActsMore(w, f);
    EnableKeepsRule(w.uci, f.cut, w.spec);
  }

  lemma TurnsDnsOff(w: World, f: Fate)
    requires D.PlainServers(w.uci, w.spec) && Perform(w, DisableDns, f).1
    ensures var v := Perform(w, DisableDns, f).0;
            && !v.DnsOn() && (v.SwitchOn() <==> w.SwitchOn())
            && forall n :: n in D.OWNED ==> Lookup(v.uci.firewall.staged, n) == None
  {
    hide D.FailClosedCmds, D.EnableCmds, D.DisableCmds, RunAll, D.Enabled, D.PlainServers, DropNames;
    OkMeansFull(w.uci, D.DisableCmds(w.spec), f.cut);
    D.DisableRuns(w.uci, w.spec);
    DisableOk(w.uci, f.cut, w.spec);
    D.ListsAreDnsCmds(w.spec);
    DnsKeepsSwitch(w.uci, D.DisableCmds(w.spec), f.cut, w.spec);
    DropNamesGone(w.uci.firewall.staged, D.OWNED);
  }

  /** The marking and the cancellation that end a DNS request. */
  lemma DnsEnds(w: World, fates: seq<Fate>)
    requires |fates| >= 2
    ensures var v := Play(w, DNS_TAIL, fates).0;
            && v == w.(record := v.record, note := v.note, defaulted := v.defaulted)
            && v.record == (if fates[1].ok then None else w.record)
            && v.defaulted == (w.defaulted || fates[0].ok)
            && (w.record.Some? ==> v.note == "portal pause canceled \U{2014} " + "you changed encrypted DNS manually")
  {
    hide Perform, K.IsOn, D.Enabled, D.PlainServers, D.RuleInstalled;
    assert DNS_TAIL[1..] == [May(Cancel(DNS_REASON))];
    var u := Perform(w, MarkDefaulted, fates[0]).0;
    ActMoves(w, MarkDefaulted, fates[0]);
    OneStep(u, Cancel(DNS_REASON), fates[1..]);
    CancelActs(u, DNS_REASON, fates[1]);
    ActMoves(u, Cancel(DNS_REASON), fates[1]);
    CancelNotes(u, DNS_REASON, fates[1]);
  }

  /**
   A request for encrypted DNS that got no error: it is on with the port-53 rules in force, and the
   fail-closed rule follows exactly if the switch answered that it is on; the user's choice is on file,
   and a pause is cancelled with a note.
   */
  lemma DnsOnOutcome(w: World, fates: seq<Fate>)
    requires D.PlainServers(w.uci, w.spec) && |fates| >= 4 && Play(w, DnsSteps(true), fates).1 == Done
    ensures var v := Play(w, DnsSteps(true), fates).0;
            && v.DnsOn() && PortsShut(v) && (v.SwitchOn() <==> w.SwitchOn()) && v.tunnel == w.tunnel && v.kick == w.kick
            && (if fates[1].ok && w.SwitchOn() then v.RuleOn()
                else Lookup(v.uci.firewall.staged, D.KS) == Lookup(w.uci.firewall.staged, D.KS))
            && v.defaulted == (w.defaulted || fates[2].ok)
            && v.record == (if fates[3].ok then None else w.record)
            && (w.record.Some? ==> v.note == "portal pause canceled \U{2014} " + "you changed encrypted DNS manually")
  {
    hide Perform, D.RuleInstalled, D.Enabled, K.IsOn, D.PlainServers, D.RulesInstalled, D.OnlyListed;
    var steps := DnsSteps(true);
    assert steps[1..] == [Must(FailClosedIfSwitch)] + DNS_TAIL && steps[1..][1..] == DNS_TAIL;
    var (u, ok) := Perform(w, EnableDns, fates[0]);
    assert Play(w, steps, fates) == if ok then Play(u, steps[1..], fates[1..]) else (u, Failed);
    TurnsDnsOn(w, fates[0]);
    ActMoves(w, EnableDns, fates[0]);
    assert fates[1..][1..] == fates[2..];
    var (t, done) := Perform(u, FailClosedIfSwitch, fates[1]);
    assert Play(u, steps[1..], fates[1..]) == if done then Play(t, DNS_TAIL, fates[2..]) else (t, Failed);
    FollowsSwitch(u, fates[1]);
    IfSwitchActs(u, fates[1]);
    StillShut(u, t);
    DnsEnds(t, fates[2..]);
  }

  lemma StillShut(u: World, t: World)
    requires PortsShut(u) && t == u.(uci := u.uci.(firewall := t.uci.firewall))
    requires forall n :: n != D.KS ==> Lookup(t.uci.firewall.staged, n) == Lookup(u.uci.firewall.staged, n)
    ensures PortsShut(t)
  {
  }

  /** And a request to turn it off: it is off, and none of its firewall sections is left. */
  lemma DnsOffOutcome(w: World, fates: seq<Fate>)
    requires D.PlainServers(w.uci, w.spec) && |fates| >= 3 && Play(w, DnsSteps(false), fates).1 == Done
    ensures var v := Play(w, DnsSteps(false), fates).0;
            && !v.DnsOn() && (v.SwitchOn() <==> w.SwitchOn()) && v.tunnel == w.tunnel && v.kick == w.kick
            && (forall n :: n in D.OWNED ==> Lookup(v.uci.firewall.staged, n) == None)
            && v.defaulted == (w.defaulted || fates[1].ok)
            && v.record == (if fates[2].ok then None else w.record)
            && (w.record.Some? ==> v.note == "portal pause canceled \U{2014} " + "you changed encrypted DNS manually")
  {
    hide Perform, D.Enabled, K.IsOn, D.PlainServers;
    var steps := DnsSteps(false);
    assert steps[1..] == DNS_TAIL;
    var (u, ok) := Perform(w, DisableDns, fates[0]);
    assert Play(w, steps, fates) == if ok then Play(u, DNS_TAIL, fates[1..]) else (u, Failed);
    TurnsDnsOff(w, fates[0]);
    ActMoves(w, DisableDns, fates[0]);
    DnsEnds(u, fates[1..]);
  }

  // ---------- The user's choice and the default ----------

  lemma {:induction false} DefaultedRun(w: World, steps: seq<Step>, fates: seq<Fate>)
    requires w.defaulted
    ensures Play(w, steps, fates).0.defaulted
    decreases |steps|
  {
    hide Perform;
    if steps != [] && fates != [] {
      ActMoves(w, steps[0].act, fates[0]);
      DefaultedRun(Perform(w, steps[0].act, fates[0]).0, steps[1..], fates[1..]);
    }
  }

  lemma DefaultedNext(w: World, e: Event)
    requires w.defaulted
    ensures Next(w, e).defaulted
  {
    hide RunAll, Play, EnterSteps, ExitSteps, SwitchSteps, DnsSteps, Captured;
    match e {
      case Entered(url, began, now, ksReads, dnsReads, fates) =>
        DefaultedRun(w.(clock := now), EnterSteps(Captured(w.(clock := now), url, began, now, ksReads, dnsReads)), fates);
      case Exited(text, fates) =>
        if w.record.Some? {
          DefaultedRun(w, ExitSteps(w.record.value, w.configured, text), fates);
        }
      case SwitchToggled(on, fates) => DefaultedRun(w, SwitchSteps(on), fates);
      case DnsToggled(on, fates) => DefaultedRun(w, DnsSteps(on), fates);
      case _ =>
    }
  }

  lemma {:induction false} DefaultedAlways(w: World, es: seq<Event>)
    requires w.defaulted
    ensures After(w, es).defaulted
    decreases |es|
  {
    hide Next;
    if es != [] {
      DefaultedNext(w, es[0]);
      DefaultedAlways(Next(w, es[0]), es[1..]);
    }
  }

  /**
   Once the user has chosen about encrypted DNS, and the choice was written down, the default never acts
   again: however the run goes on, applying it changes nothing.
   */
  lemma ChoiceStands(w: World, on: bool, fates: seq<Fate>, es: seq<Event>, later: seq<Fate>)
    requires D.PlainServers(w.uci, w.spec) && |fates| >= 4 && Play(w, DnsSteps(on), fates).1 == Done
    requires if on then fates[2].ok else fates[1].ok
    ensures var v := After(Next(w, DnsToggled(on, fates)), es);
            Next(v, DnsDefaulted(later)) == v
  {
    hide Play, DnsSteps, After, D.PlainServers, D.Enabled, K.IsOn, D.RuleInstalled, PortsShut;
    if on {
      DnsOnOutcome(w, fates);
    } else {
      DnsOffOutcome(w, fates);
    }
    DefaultedAlways(Next(w, DnsToggled(on, fates)), es);
  }

  // ---------- Imports ----------

  /**
   A VPN counts as configured, so that an exit brings it up, once an import went through and was written
   down; and if it counts as configured only now, the router holds the imported configuration.
   */
  lemma ImportOutcome(w: World, cfg: W.Config, cut: nat, stored: bool)
    ensures var v := Next(w, Imported(cfg, cut, stored));
            && v == w.(uci := v.uci, configured := v.configured)
            && (w.configured ==> v.configured)
            && (stored && cut >= |I.ImportCmds(cfg)| ==> v.configured)
            && (v.configured && !w.configured ==> stored && I.ReadBack(v.uci.network.committed) == Some(I.Kept(cfg)))
  {
    hide I.ImportCmds, RunAll, I.Imported, I.ReadBack, I.Zoned;
    var cmds := I.ImportCmds(cfg);
    I.ImportRuns(w.uci, cfg);
    I.ImportReadsBack(w.uci.network.staged, cfg);
    if cut >= |cmds| {
      RunEnough(w.uci, cmds, cut);
    }
    if RunAll(w.uci, cmds, cut).1 {
      OkMeansFull(w.uci, cmds, cut);
    }
  }

  // ---------- What packets meet, over whole runs ----------

  lemma SameSectionsPristine(c: Config, d: Config)
    requires V.Pristine(c) && forall n :: Lookup(d, n) == Lookup(c, n)
    ensures V.Pristine(d)
  {
  }

  lemma ActPristine(w: World, a: Act, f: Fate)
    requires V.Pristine(w.uci.firewall.staged)
    ensures V.Pristine(Perform(w, a, f).0.uci.firewall.staged)
  {
    hide V.Pristine, D.EnableCmds, D.DisableCmds, D.FailClosedCmds, RunAll, V.AllTidy, K.IsOn, D.Enabled, Scripted;
    if a.SetSwitch? {
      SwitchFacts(w.uci, a.on, f.script);
      SameSectionsPristine(w.uci.firewall.staged, Scripted(w.uci, a.on, f.script).firewall.staged);
    } else if OnUci(a) {
      var on := if a.FailClosed? || a.FailClosedIfDns? then a.on else true;
      V.EnableTidy(w.spec);
      V.DisableTidy(w.spec);
      V.FailClosedTidy(on);
      V.PristineRun(w.uci, D.EnableCmds(w.spec), f.cut);
      V.PristineRun(w.uci, D.DisableCmds(w.spec), f.cut);
      V.PristineRun(w.uci, D.FailClosedCmds(on), f.cut);
    }
  }

  lemma {:induction false} PlayPristine(w: World, steps: seq<Step>, fates: seq<Fate>)
    requires V.Pristine(w.uci.firewall.staged)
    ensures V.Pristine(Play(w, steps, fates).0.uci.firewall.staged)
    decreases |steps|
  {
    hide Perform, V.Pristine;
    if steps != [] && fates != [] {
      ActPristine(w, steps[0].act, fates[0]);
      PlayPristine(Perform(w, steps[0].act, fates[0]).0, steps[1..], fates[1..]);
    }
  }

  lemma NextPristine(w: World, e: Event)
    requires V.Pristine(w.uci.firewall.staged)
    ensures V.Pristine(Next(w, e).uci.firewall.staged)
  {
    hide RunAll, Play, EnterSteps, ExitSteps, SwitchSteps, DnsSteps, Captured, V.Pristine, K.IsOn;
    match e {
      case Entered(url, began, now, ksReads, dnsReads, fates) =>
        PlayPristine(w.(clock := now), EnterSteps(Captured(w.(clock := now), url, began, now, ksReads, dnsReads)), fates);
      case Exited(text, fates) =>
        if w.record.Some? {
          PlayPristine(w, ExitSteps(w.record.value, w.configured, text), fates);
        }
      case SwitchToggled(on, fates) => PlayPristine(w, SwitchSteps(on), fates);
      case DnsToggled(on, fates) => PlayPristine(w, DnsSteps(on), fates);
      case DnsDefaulted(fates) => PlayPristine(w, DEFAULT_STEPS, fates);
      case Imported(cfg, cut, _) =>
        ImportKeepsPosture(w.uci, cfg, cut, w.spec);
        SameSectionsPristine(w.uci.firewall.staged, Next(w, e).uci.firewall.staged);
      case _ =>
    }
  }

  /** No event gives the daemon's sections an option that is not its own. */
  lemma {:induction false} AlwaysPristine(w: World, es: seq<Event>)
    requires V.Pristine(w.uci.firewall.staged)
    ensures V.Pristine(After(w, es).uci.firewall.staged)
    decreases |es|
  {
    hide Next, V.Pristine;
    if es != [] {
      NextPristine(w, es[0]);
      AlwaysPristine(Next(w, es[0]), es[1..]);
    }
  }

  /**
   Fail-closed, in packets: in every reachable world without a pause where the kill switch and encrypted
   DNS are on, the rule rejects exactly the router's own tcp to port 443 of a known resolver over the wan.
   */
  lemma FailClosedPackets(w: World, es: seq<Event>, p: Packet)
    requires Inv(w) && AllAllowed(w, es) && V.Pristine(w.uci.firewall.staged)
    ensures var v := After(w, es);
            v.record == None && v.SwitchOn() && v.DnsOn() ==>
              (RuleRejects(v.uci.firewall.staged, "mistui_dns_ks", p)
               <==> p.from == None && p.to == "wan" && p.proto == "tcp" && p.port == 443
                    && p.dst in ["9.9.9.9", "149.112.112.112", "1.1.1.1", "1.0.0.1", "194.242.2.2"])
  {
    hide Inv, AllAllowed, After, K.IsOn, D.Enabled, Rejects, D.ResolverIps, D.RuleInstalled;
    FailClosedAlways(w, es);
    AlwaysPristine(w, es);
    var v := After(w, es);
    if v.RuleOn() {
      V.RuleMeans(v.uci.firewall.staged, p);
      V.ResolversAre();
    }
  }

  /** After a pause of encrypted DNS and a completed exit, plain queries meet the three rules again. */
  lemma RestoredPackets(w0: World, first: Event, es: seq<Event>, text: string, fates: seq<Fate>, p: Packet)
    requires w0.record == None && D.PlainServers(w0.uci, w0.spec) && w0.DnsOn() && V.Pristine(w0.uci.firewall.staged)
    requires first.Entered? && ReadsTrue(w0, first.ksReads, first.dnsReads)
    requires first.fates != [] && first.fates[0].ok
    requires forall i :: 0 <= i < |es| ==> PauseEvent(es[i])
    ensures var w := After(Next(w0, first), es);
            && w.record.Some?
            && (Clean(w, ExitSteps(w.record.value, w.configured, text), fates) ==>
                  var c := After(w, [Exited(text, fates)]).uci.firewall.staged;
                  var query := (p.proto == "tcp" || p.proto == "udp") && p.port == 53;
                  && (RuleRejects(c, "mistui_dns_out", p) <==> query && p.from == None && p.to == "wan")
                  && (RuleRejects(c, "mistui_dns_fwd", p) <==> query && p.from == Some("lan") && p.to == "wan")
                  && (RedirectCaptures(c, "mistui_dns_hijack", p) <==> query && p.from == Some("lan")))
  {
    hide Next, Clean, K.IsOn, D.Enabled, Rejects, Captures, D.PlainServers, D.RulesInstalled, After, ReadsTrue, PauseEvent,
         Unowned, D.RuleInstalled;
    CrashSafeRestoration(w0, first, es, text, fates);
    NextPristine(w0, first);
    AlwaysPristine(Next(w0, first), es);
    var w := After(Next(w0, first), es);
    if Clean(w, ExitSteps(w.record.value, w.configured, text), fates) {
      AlwaysPristine(w, [Exited(text, fates)]);
      V.RulesMean(After(w, [Exited(text, fates)]).uci.firewall.staged, p);
    }
  }
}
