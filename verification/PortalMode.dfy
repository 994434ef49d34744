/**
 Portal mode (internal/httpapi/portalmode.go) with the handlers that meet it: the kill-switch and
 DNS toggles (netops.go, dnsops.go), the encrypted-DNS default and the VPN import. Each handler is
 a list of steps on the world; a crash is a list that stops early, and every step has a fate.
 */
module PortalMode {
  import opened Common
  import opened Uci
  import K = KillSwitch
  import D = DnsService
  import V = VpnImport
  import W = WgConfig

  // ---------- Data ----------

  /** Times are nanoseconds. */
  const WINDOW := 600 * SECOND

  /** The persisted pause state. An inactive stored record reads as none. */
  datatype Record = Record(since: int, deadline: int, url: string, savedKS: bool, savedDNS: bool)

  /**
   What portal mode works on. `record`, `configured` and `defaulted` live in the daemon's store,
   `uci` and `tunnel` on the router; `note` and `kick` are the daemon's memory and die with it.
   */
  datatype World = World(
    spec: D.Address, uci: State, tunnel: bool,
    record: Option<Record>, configured: bool, defaulted: bool,
    note: string, kick: bool, clock: int)
  {
    predicate SwitchOn() {
      K.IsOn(uci.firewall.staged)
    }

    predicate DnsOn() {
      D.Enabled(uci, spec)
    }

    predicate RuleOn() {
      D.RuleInstalled(uci.firewall.staged)
    }
  }

  datatype Act =
    | Skip
    | Save(record: Record)
    | Forget
    | Cancel(reason: string)
    | SetNote(text: string)
    | Kick
    | Down
    | Up
    | SetSwitch(on: bool)
    | EnableDns
    | DisableDns
    | FailClosed(on: bool)
    | FailClosedIfDns(on: bool)
    | FailClosedIfSwitch
    | MarkDefaulted

  /** A step whose failure ends the handler, or one whose failure is only logged. */
  datatype Step = Must(act: Act) | May(act: Act)

  /** How the world treats one step: does the store, the query or netifd work, how far does a command list get. */
  datatype Fate = Fate(ok: bool, cut: nat, script: K.Outcome)

  datatype Ending = Done | Failed | Died

  // ---------- One step ----------

  function Scripted(u: State, on: bool, out: K.Outcome): State {
    if out.started then u.(firewall := K.Switched(u.firewall, on)) else u
  }

  predicate ScriptOk(u: State, on: bool, out: K.Outcome) {
    && out.started
    && (on ==> out.flushes != Some(false))
    && (!on && K.IsOn(u.firewall.staged) ==> out.reloads)
  }

  function Commands(w: World, cmds: seq<Argv>, cut: nat): (World, bool) {
    var (u, ok) := RunAll(w.uci, cmds, cut);
    (w.(uci := u), ok)
  }

  function Perform(w: World, a: Act, f: Fate): (World, bool) {
    match a
    case Skip => (w, true)
    case Save(r) => (if f.ok then w.(record := Some(r)) else w, f.ok)
    case Forget => (if f.ok then w.(record := None) else w, f.ok)
    case Cancel(reason) =>
      if w.record.None? then (w, true)
      else (w.(record := if f.ok then None else w.record, note := "portal pause canceled \U{2014} " + reason), f.ok)
    case SetNote(text) => (w.(note := text), true)
    case Kick => (w.(kick := true), true)
    case Down => (if f.ok then w.(tunnel := false) else w, f.ok)
    case Up => (if f.ok then w.(tunnel := true) else w, f.ok)
    case SetSwitch(on) => (w.(uci := Scripted(w.uci, on, f.script)), ScriptOk(w.uci, on, f.script))
    case EnableDns => Commands(w, D.EnableCmds(w.spec), f.cut)
    case DisableDns => Commands(w, D.DisableCmds(w.spec), f.cut)
    case FailClosed(on) => Commands(w, D.FailClosedCmds(on), f.cut)
    case FailClosedIfDns(on) =>
      if f.ok && w.DnsOn() then Commands(w, D.FailClosedCmds(on), f.cut) else (w, true)
    case FailClosedIfSwitch =>
      if f.ok && w.SwitchOn() then Commands(w, D.FailClosedCmds(true), f.cut) else (w, true)
    case MarkDefaulted => (if f.ok then w.(defaulted := true) else w, f.ok)
  }

  /** A handler runs its steps in turn; it dies with the daemon when the fates run out. */
  function Play(w: World, steps: seq<Step>, fates: seq<Fate>): (World, Ending)
    decreases |steps|
  {
    if steps == [] then (w, Done)
    else if fates == [] then (w, Died)
    else
      var (v, ok) := Perform(w, steps[0].act, fates[0]);
      if !ok && steps[0].Must? then (v, Failed) else Play(v, steps[1..], fates[1..])
  }

  /** Every step is reached and succeeds. */
  predicate Clean(w: World, steps: seq<Step>, fates: seq<Fate>)
    decreases |steps|
  {
    steps == []
    || (fates != []
        && var (v, ok) := Perform(w, steps[0].act, fates[0]);
        ok && Clean(v, steps[1..], fates[1..]))
  }

  // ---------- The handlers ----------

  /** What enterPortalMode captures; a query that fails reads as off. */
  function Captured(w: World, url: string, began: int, now: int, ksReads: bool, dnsReads: bool): Record {
    var r := match w.record
             case Some(r) => r
             case None => Record(began, 0, "", ksReads && w.SwitchOn(), dnsReads && w.DnsOn());
    r.(deadline := now + WINDOW, url := if url != "" then url else r.url)
  }

  function If(c: bool, a: Act): Act { if c then a else Skip }

  function Pause(r: Record): seq<Step> {
    [ May(Down), May(If(r.savedKS, SetSwitch(false))), May(If(r.savedDNS, DisableDns)), May(SetNote("")), May(Kick) ]
  }

  function EnterSteps(r: Record): seq<Step> {
    [May(Save(r))] + Pause(r)
  }

  function Restore(r: Record, configured: bool): seq<Step> {
    [ May(If(configured, Up)), May(If(r.savedKS, SetSwitch(true))), May(If(r.savedDNS, EnableDns)),
      May(If(r.savedDNS && r.savedKS, FailClosed(true))) ]
  }

  function Clear(text: string): seq<Step> {
    [May(Forget), May(SetNote(text))]
  }

  function ExitSteps(r: Record, configured: bool, text: string): seq<Step> {
    Restore(r, configured) + Clear(text)
  }

  function SwitchSteps(on: bool): seq<Step> {
    [Must(SetSwitch(on)), Must(FailClosedIfDns(on)), May(Cancel("you changed the kill switch manually"))]
  }

  function DnsSteps(on: bool): seq<Step> {
    (if on then [Must(EnableDns), Must(FailClosedIfSwitch)] else [Must(DisableDns)])
    + [May(MarkDefaulted), May(Cancel("you changed encrypted DNS manually"))]
  }

  const DEFAULT_STEPS: seq<Step> := [Must(EnableDns), May(MarkDefaulted)]

  function Enter(w: World, url: string, began: int, now: int, ksReads: bool, dnsReads: bool, fates: seq<Fate>): (World, Ending) {
    Play(w, EnterSteps(Captured(w, url, began, now, ksReads, dnsReads)), fates)
  }

  function Exit(w: World, text: string, fates: seq<Fate>): (World, Ending) {
    match w.record
    case None => (w, Done)
    case Some(r) => Play(w, ExitSteps(r, w.configured, text), fates)
  }

  // ---------- Runs of the whole system ----------

  /** A daemon that died comes back with its store, and with nothing in memory. */
  function Restarted(w: World): World {
    w.(note := "", kick := false)
  }

  function Settled(r: (World, Ending)): World {
    if r.1 == Died then Restarted(r.0) else r.0
  }

  datatype Event =
    | Entered(url: string, began: int, now: int, ksReads: bool, dnsReads: bool, fates: seq<Fate>)
    | Exited(text: string, fates: seq<Fate>)
    | UrlSeen(url: string, ok: bool)             // the watch saves another portal URL; PortalRace takes it apart
    | SwitchToggled(on: bool, fates: seq<Fate>)
    | DnsToggled(on: bool, fates: seq<Fate>)
    | DnsDefaulted(fates: seq<Fate>)
    | Imported(cfg: W.Config, cut: nat, stored: bool)
    | TunnelMoved(up: bool)                      // VPN connect or disconnect, or the link itself
    | KickTaken
    | Restart

  function Next(w: World, e: Event): World {
    match e
    case Entered(url, began, now, ksReads, dnsReads, fates) =>
      Settled(Enter(w.(clock := now), url, began, now, ksReads, dnsReads, fates))
    case Exited(text, fates) => Settled(Exit(w, text, fates))
    case UrlSeen(url, ok) =>
      if w.record.Some? && url != "" && ok then w.(record := Some(w.record.value.(url := url))) else w
    case SwitchToggled(on, fates) => Settled(Play(w, SwitchSteps(on), fates))
    case DnsToggled(on, fates) => Settled(Play(w, DnsSteps(on), fates))
    case DnsDefaulted(fates) => if w.defaulted then w else Settled(Play(w, DEFAULT_STEPS, fates))
    case Imported(cfg, cut, stored) =>
      var (u, ok) := RunAll(w.uci, V.ImportCmds(cfg), cut);
      w.(uci := u, configured := w.configured || (ok && stored))
    case TunnelMoved(up) => w.(tunnel := up)
    case KickTaken => w.(kick := false)
    case Restart => Restarted(w)
  }

  function After(w: World, es: seq<Event>): World
    decreases |es|
  {
    if es == [] then w else After(Next(w, es[0]), es[1..])
  }
}
