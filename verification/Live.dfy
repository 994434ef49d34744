/**
 What the router runs with, besides what its store says. Writing and committing UCI options changes
 nothing that runs: each service takes its packages over when its init script is called, so a list
 that forgets the commit, or the reload after it, leaves the old rules in force.
 */
module Live {
  import opened Common
  import opened Uci

  /** The store, and for each package what its service last took over. */
  datatype Live = Live(uci: State, network: Config, firewall: Config, dhcp: Config, wireless: Config) {
    function Running(p: PackageName): Config {
      match p
      case Network => network
      case Firewall => firewall
      case Dhcp => dhcp
      case Wireless => wireless
    }
  }

  /** The init script that makes a package's service read it again. */
  function Reloader(p: PackageName): string {
    match p
    case Network => "network reload"
    case Firewall => "firewall reload"
    case Dhcp => "dnsmasq restart"
    case Wireless => "wifi reload"
  }

  function Serviced(l: Live, what: string): Live {
    if what == "network reload" then l.(network := l.uci.network.committed)
    else if what == "firewall reload" then l.(firewall := l.uci.firewall.committed)
    else if what == "dnsmasq restart" then l.(dhcp := l.uci.dhcp.committed)
    else if what == "wifi reload" then l.(wireless := l.uci.wireless.committed)
    else l
  }

  function LiveExec(l: Live, a: Argv): Option<Live> {
    match Exec(l.uci, a)
    case None => None
    case Some(v) =>
      var m := l.(uci := v);
      Some(if a.Service? then Serviced(m, a.what) else m)
  }

  function LiveRun(l: Live, cmds: seq<Argv>, cut: nat): (Live, bool)
    decreases |cmds|
  {
    if cmds == [] then (l, true)
    else if cut == 0 then (l, false)
    else
      match LiveExec(l, cmds[0])
      case None => (l, false)
      case Some(m) => LiveRun(m, cmds[1..], cut - 1)
  }

  /** The store does not care who runs with it. */
  lemma {:induction false} LiveIsRun(l: Live, cmds: seq<Argv>, cut: nat)
    ensures LiveRun(l, cmds, cut).0.uci == RunAll(l.uci, cmds, cut).0
    ensures LiveRun(l, cmds, cut).1 == RunAll(l.uci, cmds, cut).1
    decreases |cmds|
  {
    hide Exec;
    if cmds != [] && cut > 0 {
      match LiveExec(l, cmds[0]) {
        case None =>
        case Some(m) => LiveIsRun(m, cmds[1..], cut - 1);
      }
    }
  }

  // ---------- Lists that end settled ----------

  /** The command may change what a package has committed. */
  predicate Commits(a: Argv, p: PackageName) {
    a == Commit(p) || (p == Firewall && (a.EnsureVpnZone? || a.JoinWanZone?))
  }

  /** The service of the package is called, and nothing after it commits the package again. */
  predicate Reloads(cmds: seq<Argv>, p: PackageName) {
    exists i :: 0 <= i < |cmds| && cmds[i] == Service(Reloader(p)) && forall j :: i < j < |cmds| ==> !Commits(cmds[j], p)
  }

  lemma ExecKeepsCommitted(u: State, a: Argv, p: PackageName)
    requires !Commits(a, p)
    ensures match Exec(u, a) case None => true case Some(v) => v.Pkg(p).committed == u.Pkg(p).committed
  {
    hide Apply, DropKind, JoinZone;
  }

  /** Without another commit the service still runs with what is committed. */
  lemma {:induction false} StaysSettled(l: Live, cmds: seq<Argv>, cut: nat, p: PackageName)
    requires l.Running(p) == l.uci.Pkg(p).committed
    requires forall j :: 0 <= j < |cmds| ==> !Commits(cmds[j], p)
    ensures var m := LiveRun(l, cmds, cut).0; m.Running(p) == m.uci.Pkg(p).committed
    decreases |cmds|
  {
    hide Exec;
    if cmds != [] && cut > 0 {
      ExecKeepsCommitted(l.uci, cmds[0], p);
      match LiveExec(l, cmds[0]) {
        case None =>
        case Some(m) => StaysSettled(m, cmds[1..], cut - 1, p);
      }
    }
  }

  /** A list that went through to its end leaves the service running with what is committed. */
  lemma {:induction false} ReloadSettles(l: Live, cmds: seq<Argv>, cut: nat, p: PackageName)
    requires Reloads(cmds, p) && LiveRun(l, cmds, cut).1
    ensures var m := LiveRun(l, cmds, cut).0; m.Running(p) == m.uci.Pkg(p).committed
    decreases |cmds|
  {
    hide Exec;
    var i :| 0 <= i < |cmds| && cmds[i] == Service(Reloader(p)) && forall j :: i < j < |cmds| ==> !Commits(cmds[j], p);
    var m := LiveExec(l, cmds[0]).value;
    if i == 0 {
      ServiceSettles(l, p);
      StaysSettled(m, cmds[1..], cut - 1, p);
    } else {
      assert cmds[1..][i - 1] == Service(Reloader(p));
      assert forall j :: i - 1 < j < |cmds[1..]| ==> cmds[1..][j] == cmds[j + 1];
      ReloadSettles(m, cmds[1..], cut - 1, p);
    }
  }

  lemma ServiceSettles(l: Live, p: PackageName)
    ensures var m := LiveExec(l, Service(Reloader(p)));
            m.Some? && m.value.Running(p) == m.value.uci.Pkg(p).committed
  {
  }

  /** The reload may stand before commands that do not commit the package. */
  lemma ReloadsLast(before: seq<Argv>, after: seq<Argv>, p: PackageName)
    requires forall j :: 0 <= j < |after| ==> !Commits(after[j], p)
    ensures Reloads(before + [Service(Reloader(p))] + after, p)
  {
    var cmds := before + [Service(Reloader(p))] + after;
    assert cmds[|before|] == Service(Reloader(p));
    assert forall j :: |before| < j < |cmds| ==> cmds[j] == after[j - |before| - 1];
  }
}
