/**
 What the kill switch means for packets. fw4 accepts the packets of an established flow before
 any zone rule runs, so switching the forwarding off is not enough: the connection table has to
 be flushed, and flushed after the running ruleset has changed.
 */
module Packets {
  import opened Common
  import opened Uci
  import opened KillSwitch

  /** The firewall configuration, the ruleset loaded from it, and the direct lan→wan flows. */
  datatype Net = Net(config: Config, rules: Config, flows: set<int>)

  /** A forwarding section, named or not, that lets the lan zone out through the wan zone. */
  predicate OpensWan(c: Config) {
    exists i :: 0 <= i < |c| && Opens(c[i])
  }

  predicate Opens(s: Section) {
    s.kind == "forwarding" && s.Shows("src", "lan") && s.Shows("dest", "wan")
  }

  datatype Event =
    | Packet(flow: int)        // a direct lan→wan packet of some flow arrives
    | Edit(config: Config)     // somebody commits another firewall configuration
    | Reload                   // the firewall loads the committed configuration

  function Step(n: Net, e: Event): Net {
    match e
    case Packet(f) => if OpensWan(n.rules) then n.(flows := n.flows + {f}) else n
    case Edit(c) => n.(config := c)
    case Reload => n.(rules := n.config)
  }

  predicate Forwarded(n: Net, e: Event) {
    e.Packet? && (e.flow in n.flows || OpensWan(n.rules))
  }

  function After(n: Net, es: seq<Event>): Net
    decreases |es|
  {
    if es == [] then n else After(Step(n, es[0]), es[1..])
  }

  /** Some packet of the run gets through. */
  predicate Leaks(n: Net, es: seq<Event>)
    decreases |es|
  {
    es != [] && (Forwarded(n, es[0]) || Leaks(Step(n, es[0]), es[1..]))
  }

  /** Until the switch is turned off: no edit opens lan→wan again. */
  predicate KeepsOn(es: seq<Event>) {
    forall i :: 0 <= i < |es| && es[i].Edit? ==> !OpensWan(es[i].config)
  }

  /**
   SetKillSwitch(true) with packets arriving all along: the script edits and commits, reloads
   (or fails to, silently), more packets arrive, and then the connection table is flushed.
   */
  function Engage(n: Net, reloads: bool, during: seq<Event>): Net {
    var changed := !IsOn(n.config);
    var n1 := n.(config := DropLanWan(n.config));
    var n2 := if changed && reloads then Step(n1, Reload) else n1;
    After(n2, during).(flows := {})
  }

  /** The same call with the flush first. */
  function EngageFlushFirst(n: Net, during: seq<Event>): Net {
    var n1 := n.(config := DropLanWan(n.config), flows := {});
    Step(After(n1, during), Reload)
  }

  predicate OnlyPackets(es: seq<Event>) {
    forall i :: 0 <= i < |es| ==> es[i].Packet?
  }

  lemma {:induction false} PacketsKeepRules(n: Net, es: seq<Event>)
    requires OnlyPackets(es)
    ensures After(n, es).rules == n.rules && After(n, es).config == n.config
    decreases |es|
  {
    if es != [] {
      PacketsKeepRules(Step(n, es[0]), es[1..]);
    }
  }

  /** With nothing established and nothing open, no run that keeps the switch on leaks. */
  lemma {:induction false} ClosedStaysClosed(n: Net, es: seq<Event>)
    requires n.flows == {} && !OpensWan(n.rules) && !OpensWan(n.config)
    requires KeepsOn(es)
    ensures !Leaks(n, es)
    decreases |es|
  {
    if es != [] {
      assert es[0].Edit? ==> !OpensWan(es[0].config);
      assert forall i :: 0 <= i < |es[1..]| ==> es[1..][i] == es[i + 1];
      ClosedStaysClosed(Step(n, es[0]), es[1..]);
    }
  }

  /** Apart from named forwardings, which the switch does not cover, the new configuration is shut. */
  lemma SwitchShuts(c: Config)
    requires forall s :: s in c && s.name.Some? ==> !Opens(s)
    ensures !OpensWan(DropLanWan(c))
  {
    DropLanWanKeeps(c);
    var d := DropLanWan(c);
    forall i | 0 <= i < |d|
      ensures !Opens(d[i])
    {
      assert d[i] in d;
    }
  }

  /** Engage is the call of KillSwitch, seen from the packets: same configuration, with its reload and flush. */
  lemma EngageIsSwitched(fw: Package, rules: Config, flows: set<int>, out: Outcome, during: seq<Event>)
    requires fw.committed == fw.staged && OnlyPackets(during)
    ensures var n := Engage(Net(fw.committed, rules, flows), out.reloads, during);
            && n.config == Switched(fw, true).committed
            && n.rules == (if Switched(fw, true) != fw && out.reloads then Switched(fw, true).committed else rules)
            && n.flows == {}
  {
    DropLanWanKeeps(fw.staged);
    var n1 := Net(DropLanWan(fw.committed), rules, flows);
    PacketsKeepRules(if !IsOn(fw.staged) && out.reloads then Step(n1, Reload) else n1, during);
  }

  /**
   Safety, exactly: after SetKillSwitch(true) returned without error, no run of events that
   keeps the switch on forwards a direct lan→wan packet if and only if the ruleset really is
   shut: either the reload took effect or the running rules already let nothing out.
   */
  lemma SafeExactlyWhenShut(n: Net, reloads: bool, during: seq<Event>)
    requires OnlyPackets(during)
    requires forall s :: s in n.config && s.name.Some? ==> !Opens(s)
    ensures (forall es | KeepsOn(es) :: !Leaks(Engage(n, reloads, during), es))
            <==> (!IsOn(n.config) && reloads) || !OpensWan(n.rules)
  {
    SwitchShuts(n.config);
    var n1 := n.(config := DropLanWan(n.config));
    var loaded := !IsOn(n.config) && reloads;
    var n2 := if loaded then Step(n1, Reload) else n1;
    PacketsKeepRules(n2, during);
    var done := Engage(n, reloads, during);
    if loaded || !OpensWan(n.rules) {
      forall es | KeepsOn(es)
        ensures !Leaks(done, es)
      {
        ClosedStaysClosed(done, es);
      }
    } else {
      var es := [Packet(0)];
      assert KeepsOn(es) && Leaks(done, es);
    }
  }

  /** The usual case: the ruleset in force is the committed one and the reload works. */
  lemma EngagedIsSafe(n: Net, during: seq<Event>, es: seq<Event>)
    requires OnlyPackets(during) && KeepsOn(es)
    requires n.rules == n.config
    requires forall s :: s in n.config && s.name.Some? ==> !Opens(s)
    ensures !Leaks(Engage(n, true, during), es)
  {
    SafeExactlyWhenShut(n, true, during);
    if IsOn(n.config) {
      DropLanWanNone(n.config);
      SwitchShuts(n.config);
    }
  }

  /** The flush has to come last: flushed first, a packet of an open flow re-establishes it. */
  lemma FlushFirstLeaks(f: int)
    ensures exists n: Net, during: seq<Event>, es: seq<Event> ::
              n.rules == n.config == [LAN_WAN] && OnlyPackets(during) && KeepsOn(es)
              && Leaks(EngageFlushFirst(n, during), es)
              && !Leaks(Engage(n, true, during), es)
  {
    var n := Net([LAN_WAN], [LAN_WAN], {f});
    var during := [Packet(f)];
    var es := [Packet(f)];
    assert Opens(n.rules[0]);
    assert IsLanWan(n.config[0]);
    var n1 := n.(config := DropLanWan(n.config), flows := {});
    assert Step(n1, during[0]).flows == {f};
    assert After(n1, during) == Step(n1, during[0]) by {
      assert during[1..] == [];
    }
    var m := EngageFlushFirst(n, during);
    assert f in m.flows;
    assert Forwarded(m, es[0]);
    EngagedIsSafe(n, during, es);
  }
}
