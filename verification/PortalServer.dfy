/**
 The server's portal-mode methods and toggles as they run when the daemon lives through them: each
 is proved to do what its list of steps says, so everything shown of those lists holds of them.
 */
module PortalServer {
  import opened Common
  import opened Uci
  import K = KillSwitch
  import D = DnsService
  import opened PortalMode
  import opened PortalRuns

  /** A handler none of whose steps ends it early plays its list to the end. */
  lemma {:induction false} PlayTrace(ws: seq<World>, steps: seq<Step>, fates: seq<Fate>)
    requires |fates| >= |steps| && |ws| == |steps| + 1
    requires forall i :: 0 <= i < |steps| ==>
               var (v, ok) := Perform(ws[i], steps[i].act, fates[i]);
               ws[i + 1] == v && (ok || steps[i].May?)
    ensures Play(ws[0], steps, fates) == (ws[|steps|], Done)
    decreases |steps|
  {
    hide Perform;
    if steps != [] {
      assert ws[1] == Perform(ws[0], steps[0].act, fates[0]).0;
      forall i | 0 <= i < |steps[1..]|
        ensures var (v, ok) := Perform(ws[1..][i], steps[1..][i].act, fates[1..][i]);
                ws[1..][i + 1] == v && (ok || steps[1..][i].May?)
      {
        assert ws[i + 2] == Perform(ws[i + 1], steps[i + 1].act, fates[i + 1]).0;
      }
      PlayTrace(ws[1..], steps[1..], fates[1..]);
    }
  }

  /** A Must step that fails ends its handler there. */
  lemma {:induction false} PlayFails(ws: seq<World>, steps: seq<Step>, fates: seq<Fate>, at: nat)
    requires |fates| > at && |ws| == at + 2 && at < |steps| && steps[at].Must?
    requires forall i :: 0 <= i <= at ==>
               var (v, ok) := Perform(ws[i], steps[i].act, fates[i]);
               ws[i + 1] == v && (if i == at then !ok else (ok || steps[i].May?))
    ensures Play(ws[0], steps, fates) == (ws[at + 1], Failed)
    decreases at
  {
    hide Perform;
    assert ws[1] == Perform(ws[0], steps[0].act, fates[0]).0;
    if at > 0 {
      forall i | 0 <= i <= at - 1
        ensures var (v, ok) := Perform(ws[1..][i], steps[1..][i].act, fates[1..][i]);
                ws[1..][i + 1] == v && (if i == at - 1 then !ok else (ok || steps[1..][i].May?))
      {
        assert ws[i + 2] == Perform(ws[i + 1], steps[i + 1].act, fates[i + 1]).0;
      }
      PlayFails(ws[1..], steps[1..], fates[1..], at - 1);
    }
  }

  class Server {
    const router: Router
    const vpn: K.UciConnector
    const dns: D.DnsControl
    var tunnel: bool
    var record: Option<Record>
    var configured: bool
    var defaulted: bool
    var note: string
    var kick: bool

    ghost predicate Valid() {
      vpn.router == router && dns.router == router
    }

    /** The world as this server sees it at a given time. */
    ghost function View(clock: int): World
      reads this, router
    {
      World(dns.spec, router.uci, tunnel, record, configured, defaulted, note, kick, clock)
    }

    constructor (r: Router, v: K.UciConnector, d: D.DnsControl)
      requires v.router == r && d.router == r
      ensures Valid() && router == r && record == None && !kick && note == ""
    {
      router := r;
      vpn := v;
      dns := d;
      tunnel := false;
      record := None;
      configured := false;
      defaulted := false;
      note := "";
      kick := false;
    }

    method SavePortalRecord(rec: Record, f: Fate)
      modifies this`record
      ensures forall t :: View(t) == Perform(old(View(t)), Save(rec), f).0
    {
      hide RunAll;
      if f.ok {
        record := Some(rec);
      }
    }

    method MoveTunnel(up: bool, f: Fate)
      modifies this`tunnel
      ensures forall t :: View(t) == Perform(old(View(t)), if up then Up else Down, f).0
    {
      hide RunAll;
      if f.ok {
        tunnel := up;
      }
    }

    method SetSwitchOn(on: bool, f: Fate) returns (ok: bool)
      requires Valid()
      modifies router
      ensures forall t :: (View(t), ok) == Perform(old(View(t)), SetSwitch(on), f)
    {
      hide RunAll;
      ok := vpn.SetKillSwitch(on, f.script);
    }

    method EnableDnsNow(f: Fate) returns (ok: bool)
      requires Valid()
      modifies router
      ensures forall t :: (View(t), ok) == Perform(old(View(t)), EnableDns, f)
    {
      hide D.EnableCmds, D.DisableCmds, D.FailClosedCmds, RunAll, D.EnableResult;
      ok := dns.Enable(f.cut);
    }

    method DisableDnsNow(f: Fate) returns (ok: bool)
      requires Valid()
      modifies router
      ensures forall t :: (View(t), ok) == Perform(old(View(t)), DisableDns, f)
    {
      hide D.EnableCmds, D.DisableCmds, D.FailClosedCmds, RunAll, D.DisableResult;
      ok := dns.Disable(f.cut);
    }

    method SetFailClosedNow(on: bool, f: Fate) returns (ok: bool)
      requires Valid()
      modifies router
      ensures forall t :: (View(t), ok) == Perform(old(View(t)), FailClosed(on), f)
    {
      hide D.EnableCmds, D.DisableCmds, D.FailClosedCmds, RunAll, D.FailClosedResult, D.RuleInstalled;
      ok := dns.SetFailClosed(on, f.cut);
    }

    method KickPortalWatch()
      modifies this`kick
      ensures forall t, f :: View(t) == Perform(old(View(t)), Kick, f).0
    {
      hide RunAll;
      if !kick {
        kick := true;
      }
    }

    method SetPortalNote(text: string)
      modifies this`note
      ensures forall t, f :: View(t) == Perform(old(View(t)), SetNote(text), f).0
    {
      hide RunAll;
      note := text;
    }

    lemma SkipStays(t: int, f: Fate)
      ensures View(t) == Perform(View(t), Skip, f).0
    {
      hide RunAll;
    }

    method Capture(url: string, began: int, now: int, ksReads: bool, dnsReads: bool) returns (rec: Record)
      requires Valid()
      ensures rec == Captured(View(now), url, began, now, ksReads, dnsReads)
    {
      match record {
        case None =>
          var ks := vpn.KillSwitch();
          var dnsOn := dns.IsEnabled();
          rec := Record(began, 0, "", ksReads && ks, dnsReads && dnsOn);
        case Some(r) =>
          rec := r;
      }
      rec := rec.(deadline := now + WINDOW);
      if url != "" {
        rec := rec.(url := url);
      }
    }

    method EnterPortalMode(url: string, began: int, now: int, ksReads: bool, dnsReads: bool, fates: seq<Fate>)
      requires Valid() && |fates| == 6
      modifies this, router
      ensures View(now) == Enter(old(View(now)), url, began, now, ksReads, dnsReads, fates).0
    {
      hide Perform, Captured;
      var rec := Capture(url, began, now, ksReads, dnsReads);
      ghost var steps := EnterSteps(rec);
      ghost var ws := [View(now)];
      SavePortalRecord(rec, fates[0]);
      ws := ws + [View(now)];
      MoveTunnel(false, fates[1]);
      ws := ws + [View(now)];
      if rec.savedKS {
        var _ := SetSwitchOn(false, fates[2]);
      } else {
        SkipStays(now, fates[2]);
      }
      ws := ws + [View(now)];
      if rec.savedDNS {
        var _ := DisableDnsNow(fates[3]);
      } else {
        SkipStays(now, fates[3]);
      }
      ws := ws + [View(now)];
      SetPortalNote("");
      ws := ws + [View(now)];
      KickPortalWatch();
      ws := ws + [View(now)];
      PlayTrace(ws, steps, fates);
    }

    method ExitPortalMode(text: string, now: int, fates: seq<Fate>)
      requires Valid() && |fates| == 6
      modifies this, router
      ensures View(now) == Exit(old(View(now)), text, fates).0
    {
      hide Perform;
      if record == None {
        return;
      }
      var rec := record.value;
      ghost var steps := ExitSteps(rec, configured, text);
      ghost var ws := [View(now)];
      if configured {
        MoveTunnel(true, fates[0]);
      } else {
        SkipStays(now, fates[0]);
      }
      ws := ws + [View(now)];
      if rec.savedKS {
        var _ := SetSwitchOn(true, fates[1]);
      } else {
        SkipStays(now, fates[1]);
      }
      ws := ws + [View(now)];
      if rec.savedDNS {
        var _ := EnableDnsNow(fates[2]);
        ws := ws + [View(now)];
        if rec.savedKS {
          var _ := SetFailClosedNow(true, fates[3]);
        } else {
          SkipStays(now, fates[3]);
        }
      } else {
        SkipStays(now, fates[2]);
        ws := ws + [View(now)];
        SkipStays(now, fates[3]);
      }
      ws := ws + [View(now)];
      ForgetRecord(fates[4]);
      ws := ws + [View(now)];
      SetPortalNote(text);
      ws := ws + [View(now)];
      PlayTrace(ws, steps, fates);
    }

    method ForgetRecord(f: Fate)
      modifies this`record
      ensures forall t :: View(t) == Perform(old(View(t)), Forget, f).0
    {
      hide RunAll;
      if f.ok {
        record := None;
      }
    }

    method CancelPortalMode(reason: string, f: Fate)
      modifies this`record, this`note
      ensures forall t :: View(t) == Perform(old(View(t)), Cancel(reason), f).0
    {
      hide RunAll;
      if record == None {
        return;
      }
      if f.ok {
        record := None;
      }
      note := "portal pause canceled \U{2014} " + reason;
    }

    method MarkDnsDefaulted(f: Fate)
      modifies this`defaulted
      ensures forall t :: View(t) == Perform(old(View(t)), MarkDefaulted, f).0
    {
      hide RunAll;
      if f.ok {
        defaulted := true;
      }
    }

    /** If encrypted DNS answers that it is on, its fail-closed rule follows the switch. */
    method FollowDns(on: bool, f: Fate) returns (ok: bool)
      requires Valid()
      modifies router
      ensures forall t :: (View(t), ok) == Perform(old(View(t)), FailClosedIfDns(on), f)
    {
      hide D.EnableCmds, D.DisableCmds, D.FailClosedCmds, RunAll, D.FailClosedResult, D.RuleInstalled, D.Enabled;
      var dnsOn := dns.IsEnabled();
      ok := true;
      if f.ok && dnsOn {
        ok := dns.SetFailClosed(on, f.cut);
      }
    }

    method FollowSwitch(f: Fate) returns (ok: bool)
      requires Valid()
      modifies router
      ensures forall t :: (View(t), ok) == Perform(old(View(t)), FailClosedIfSwitch, f)
    {
      hide D.EnableCmds, D.DisableCmds, D.FailClosedCmds, RunAll, D.FailClosedResult, D.RuleInstalled, K.IsOn;
      var on := vpn.KillSwitch();
      ok := true;
      if f.ok && on {
        ok := dns.SetFailClosed(true, f.cut);
      }
    }

    /** killSwitchSet: false is the error response. */
    method KillSwitchSet(on: bool, now: int, fates: seq<Fate>) returns (ok: bool)
      requires Valid() && |fates| == 3
      modifies this, router
      ensures (View(now), if ok then Done else Failed) == Play(old(View(now)), SwitchSteps(on), fates)
    {
      hide Perform;
      ghost var steps := SwitchSteps(on);
      ghost var ws := [View(now)];
      ok := SetSwitchOn(on, fates[0]);
      ws := ws + [View(now)];
      if !ok {
        PlayFails(ws, steps, fates, 0);
        return;
      }
      ok := FollowDns(on, fates[1]);
      ws := ws + [View(now)];
      if !ok {
        PlayFails(ws, steps, fates, 1);
        return;
      }
      CancelPortalMode("you changed the kill switch manually", fates[2]);
      ws := ws + [View(now)];
      PlayTrace(ws, steps, fates);
    }

    /** dnsSet: false is the error response. */
    method DnsSet(on: bool, now: int, fates: seq<Fate>) returns (ok: bool)
      requires Valid() && |fates| == |DnsSteps(on)|
      modifies this, router
      ensures (View(now), if ok then Done else Failed) == Play(old(View(now)), DnsSteps(on), fates)
    {
      hide Perform;
      ghost var steps := DnsSteps(on);
      ghost var ws := [View(now)];
      if on {
        ok := EnableDnsNow(fates[0]);
        ws := ws + [View(now)];
        if !ok {
          PlayFails(ws, steps, fates, 0);
          return;
        }
        ok := FollowSwitch(fates[1]);
        ws := ws + [View(now)];
        if !ok {
          PlayFails(ws, steps, fates, 1);
          return;
        }
      } else {
        ok := DisableDnsNow(fates[0]);
        ws := ws + [View(now)];
        if !ok {
          PlayFails(ws, steps, fates, 0);
          return;
        }
      }
      MarkDnsDefaulted(fates[if on then 2 else 1]);
      ws := ws + [View(now)];
      CancelPortalMode("you changed encrypted DNS manually", fates[if on then 3 else 2]);
      ws := ws + [View(now)];
      PlayTrace(ws, steps, fates);
    }

    method ApplyDnsDefault(now: int, fates: seq<Fate>)
      requires Valid() && |fates| == 2
      modifies this, router
      ensures View(now) == if old(defaulted) then old(View(now)) else Play(old(View(now)), DEFAULT_STEPS, fates).0
    {
      hide Perform;
      if defaulted {
        return;
      }
      ghost var ws := [View(now)];
      var ok := EnableDnsNow(fates[0]);
      ws := ws + [View(now)];
      if !ok {
        PlayFails(ws, DEFAULT_STEPS, fates, 0);
        return;
      }
      MarkDnsDefaulted(fates[1]);
      ws := ws + [View(now)];
      PlayTrace(ws, DEFAULT_STEPS, fates);
    }
  }
}
