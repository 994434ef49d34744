/**
 The watch and the handlers at the granularity of the record's reads and writes
 (internal/httpapi/portalmode.go): the watch reads the record, probes for up to eight seconds with it
 in hand, and writes back what it read with the portal URL it found. Handlers run in between.
 */
module PortalRace {
  import opened Common
  import opened Uci
  import K = KillSwitch
  import D = DnsService
  import opened PortalMode
  import opened Posture
  import opened PortalRuns
  import opened PortalRestore
  import opened PortalPitfalls

  // ---------- The watch with a record in hand ----------

  /**
   `held` is the record the watch has read and is probing with; `touched` tells whether a handler has
   stored or dropped the record on file since that read.
   */
  datatype Race = Race(world: World, held: Option<Record>, touched: bool)

  /** What one probe found. */
  datatype Finding = Finding(online: bool, captive: bool, url: string)

  datatype Fine =
    | Look                              // the watch reads the record and starts a probe
    | Probed(found: Finding, ok: bool)  // the probe ends; `ok` is the fate of the save, if there is one
    | Acts(event: Event)                // anything else: a handler, the watch's own exit, the daemon's death

  /** The watch writes back: the only case in which a probe leads to a save. */
  predicate Saves(x: Race, found: Finding, ok: bool) {
    && x.held.Some? && ok
    && !found.online && found.captive && found.url != "" && found.url != x.held.value.url
  }

  function WriteBack(x: Race, found: Finding, ok: bool): World {
    if Saves(x, found, ok) then x.world.(record := Some(x.held.value.(url := found.url))) else x.world
  }

  function EndingOf(w: World, e: Event): Ending {
    match e
    case Entered(url, began, now, ksReads, dnsReads, fates) =>
      Enter(w.(clock := now), url, began, now, ksReads, dnsReads, fates).1
    case Exited(text, fates) => Exit(w, text, fates).1
    case SwitchToggled(on, fates) => Play(w, SwitchSteps(on), fates).1
    case DnsToggled(on, fates) => Play(w, DnsSteps(on), fates).1
    case DnsDefaulted(fates) => if w.defaulted then Done else Play(w, DEFAULT_STEPS, fates).1
    case Restart => Died
    case _ => Done
  }

  /** A toggle gets to its last step and drops the record there. */
  predicate Cancels(w: World, steps: seq<Step>, fates: seq<Fate>) {
    w.record.Some? && 0 < |steps| <= |fates| && Play(w, steps, fates).1 == Done && fates[|steps| - 1].ok
  }

  /** The event stores the record or drops it. */
  predicate Moves(w: World, e: Event) {
    match e
    case Entered(_, _, _, _, _, fates) => fates != [] && fates[0].ok
    case Exited(_, fates) => w.record.Some? && |fates| > 4 && fates[4].ok
    case SwitchToggled(on, fates) => Cancels(w, SwitchSteps(on), fates)
    case DnsToggled(on, fates) => Cancels(w, DnsSteps(on), fates)
    case _ => false
  }

  function Step(x: Race, e: Fine): Race {
    match e
    case Look => Race(x.world, x.world.record, false)
    case Probed(found, ok) => Race(WriteBack(x, found, ok), None, false)
    case Acts(a) =>
      Race(Next(x.world, a), if EndingOf(x.world, a) == Died then None else x.held, x.touched || Moves(x.world, a))
  }

  function Run(x: Race, es: seq<Fine>): Race
    decreases |es|
  {
    if es == [] then x else Run(Step(x, es[0]), es[1..])
  }

  // ---------- What an event does to the record ----------

  predicate Storeless(a: Act) {
    !a.Save? && !a.Forget? && !a.Cancel?
  }

  lemma StorelessActs(w: World, a: Act, f: Fate)
    requires Storeless(a)
    ensures var v := Perform(w, a, f).0; v.record == w.record && v.clock == w.clock
  {
    hide RunAll, D.EnableCmds, D.DisableCmds, D.FailClosedCmds, Scripted, D.Enabled, K.IsOn;
  }

  lemma {:induction false} StorelessRun(w: World, steps: seq<Step>, fates: seq<Fate>)
    requires forall i :: 0 <= i < |steps| ==> Storeless(steps[i].act)
    ensures var v := Play(w, steps, fates).0; v.record == w.record && v.clock == w.clock
    decreases |steps|
  {
    hide Perform;
    if steps != [] && fates != [] {
      StorelessActs(w, steps[0].act, fates[0]);
      StorelessRun(Perform(w, steps[0].act, fates[0]).0, steps[1..], fates[1..]);
    }
  }

  /** A list that ends in a cancellation drops the record exactly if it gets there and the store works. */
  lemma {:induction false} CancelRun(w: World, steps: seq<Step>, reason: string, fates: seq<Fate>)
    requires steps != [] && steps[|steps| - 1] == May(Cancel(reason))
    requires forall i :: 0 <= i < |steps| - 1 ==> Storeless(steps[i].act)
    ensures var v := Play(w, steps, fates).0;
            v.record == (if Cancels(w, steps, fates) then None else w.record) && v.clock == w.clock
    decreases |steps|
  {
    hide Perform;
    if fates != [] {
      var (u, ok) := Perform(w, steps[0].act, fates[0]);
      if |steps| == 1 {
        CancelActs(w, reason, fates[0]);
        assert Play(w, steps, fates) == (u, Done) by {
          assert Play(u, steps[1..], fates[1..]) == (u, Done);
        }
      } else {
        StorelessActs(w, steps[0].act, fates[0]);
        if ok || steps[0].May? {
          CancelRun(u, steps[1..], reason, fates[1..]);
        }
      }
    }
  }

  /** An event other than the watch's save changes the record exactly as Moves says. */
  lemma RecordAfter(w: World, e: Event)
    requires !e.UrlSeen?
    ensures var v := Next(w, e);
            && v.clock == (if e.Entered? then e.now else w.clock)
            && v.record == (if !Moves(w, e) then w.record
                            else if e.Entered? then Some(Captured(w.(clock := e.now), e.url, e.began, e.now, e.ksReads, e.dnsReads))
                            else None)
  {
    hide Perform, Play, Cancels, RunAll, D.Enabled, K.IsOn, EnterSteps, ExitSteps, SwitchSteps, DnsSteps;
    match e {
      case Entered(_, _, _, _, _, _) => EnteredAfter(w, e);
      case Exited(text, fates) => ExitedAfter(w, text, fates);
      case SwitchToggled(on, fates) => SwitchEnds(w, on, fates);
      case DnsToggled(on, fates) => DnsEnds(w, on, fates);
      case DnsDefaulted(fates) => StorelessRun(w, DEFAULT_STEPS, fates);
      case _ =>
    }
  }

  lemma EnteredAfter(w: World, e: Event)
    requires e.Entered?
    ensures var v := Next(w, e);
            var r := Captured(w.(clock := e.now), e.url, e.began, e.now, e.ksReads, e.dnsReads);
            v.clock == e.now && v.record == if e.fates != [] && e.fates[0].ok then Some(r) else w.record
  {
    hide Perform, Pause, D.Enabled, K.IsOn, Captured;
    var later := w.(clock := e.now);
    var r := Captured(later, e.url, e.began, e.now, e.ksReads, e.dnsReads);
    if e.fates != [] {
      var u := EnterBegins(later, r, e.fates);
      PauseStoreless(r);
      StorelessRun(u, Pause(r), e.fates[1..]);
    }
  }

  lemma PauseStoreless(r: Record)
    ensures forall i :: 0 <= i < |Pause(r)| ==> Storeless(Pause(r)[i].act)
  {
  }

  lemma ExitedAfter(w: World, text: string, fates: seq<Fate>)
    ensures var v := Next(w, Exited(text, fates));
            && v.clock == w.clock
            && v.record == if w.record.Some? && |fates| > 4 && fates[4].ok then None else w.record
  {
    hide Perform, Play, Restore, Clear;
    if w.record.Some? {
      var r := w.record.value;
      RestoreLength(r, w.configured);
      RestoreStoreless(r, w.configured);
      PlayTwo(w, Restore(r, w.configured), Clear(text), fates);
      StorelessRun(w, Restore(r, w.configured), if |fates| >= 4 then fates[..4] else fates);
      if |fates| >= 4 {
        ClearRuns(Play(w, Restore(r, w.configured), fates[..4]).0, text, fates[4..]);
      }
    }
  }

  lemma RestoreStoreless(r: Record, configured: bool)
    ensures forall i :: 0 <= i < |Restore(r, configured)| ==> Storeless(Restore(r, configured)[i].act)
  {
  }

  lemma SwitchEnds(w: World, on: bool, fates: seq<Fate>)
    ensures var v := Play(w, SwitchSteps(on), fates).0;
            v.record == (if Cancels(w, SwitchSteps(on), fates) then None else w.record) && v.clock == w.clock
  {
    hide Play, Cancels;
    CancelRun(w, SwitchSteps(on), SWITCH_REASON, fates);
  }

  lemma DnsEnds(w: World, on: bool, fates: seq<Fate>)
    ensures var v := Play(w, DnsSteps(on), fates).0;
            v.record == (if Cancels(w, DnsSteps(on), fates) then None else w.record) && v.clock == w.clock
  {
    hide Play, Cancels;
    CancelRun(w, DnsSteps(on), DNS_REASON, fates);
  }

  // ---------- Which write-backs do harm ----------

  /** Every fine event is one the model has, and enters come at strictly later times. */
  predicate Ticks(x: Race, e: Fine) {
    e.Acts? ==> !e.event.UrlSeen? && (e.event.Entered? ==> x.world.clock < e.event.now)
  }

  predicate AllTick(x: Race, es: seq<Fine>)
    decreases |es|
  {
    es == [] || (Ticks(x, es[0]) && AllTick(Step(x, es[0]), es[1..]))
  }

  /**
   What ties the record in hand to the record on file: they are the same until a handler stores or
   drops the latter, and from then on the one on file is gone or has a later deadline.
   */
  predicate Tied(x: Race) {
    && (x.world.record.Some? ==> x.world.record.value.deadline <= x.world.clock + WINDOW)
    && (x.held.Some? ==>
          && x.held.value.deadline <= x.world.clock + WINDOW
          && (!x.touched ==> x.world.record == x.held)
          && (x.touched && x.world.record.Some? ==> x.held.value.deadline < x.world.record.value.deadline))
  }

  lemma TiedStays(x: Race, e: Fine)
    requires Tied(x) && Ticks(x, e)
    requires e.Probed? ==> !(Saves(x, e.found, e.ok) && x.touched)
    ensures Tied(Step(x, e))
  {
    hide Next, Moves, EndingOf;
    if e.Acts? {
      RecordAfter(x.world, e.event);
      if e.event.Entered? {
        var w := x.world.(clock := e.event.now);
        CapturedDeadline(w, e.event.url, e.event.began, e.event.now, e.event.ksReads, e.event.dnsReads);
      } else {
        OnlyEntersStore(x.world, e.event);
      }
    }
  }

  lemma CapturedDeadline(w: World, url: string, began: int, now: int, ksReads: bool, dnsReads: bool)
    ensures Captured(w, url, began, now, ksReads, dnsReads).deadline == now + WINDOW
  {
  }

  lemma OnlyEntersStore(w: World, e: Event)
    requires !e.UrlSeen? && !e.Entered?
    ensures Next(w, e).record == None || Next(w, e).record == w.record
    ensures Moves(w, e) ==> Next(w, e).record == None
  {
    hide Next, Moves;
    RecordAfter(w, e);
  }

  /** What a probe may do to the record: a cancelled pause stays cancelled, a standing one is continued. */
  predicate Honours(before: Option<Record>, after: Option<Record>) {
    match before
    case None => after == None
    case Some(r) => after.Some? && Continues(r, after.value)
  }

  /** One probe honours the record on file if and only if it does not save over a record that moved. */
  lemma WriteBackExactly(x: Race, found: Finding, ok: bool)
    requires Tied(x)
    ensures Honours(x.world.record, Step(x, Probed(found, ok)).world.record) <==> !(Saves(x, found, ok) && x.touched)
  {
  }

  /** A probe writes only a captive portal's new URL, and only that field of the record it had read. */
  lemma OnlyNewPortalsSave(x: Race, found: Finding, ok: bool)
    ensures var w := Step(x, Probed(found, ok)).world;
            && w == x.world.(record := w.record)
            && (found.online || !found.captive || found.url == "" || !ok ==> w.record == x.world.record)
            && (w.record != x.world.record ==>
                  x.held.Some? && x.held.value.url != found.url && w.record == Some(x.held.value.(url := found.url)))
  {
  }

  predicate AllHonoured(x: Race, es: seq<Fine>)
    decreases |es|
  {
    es == []
    || ((es[0].Probed? ==> Honours(x.world.record, Step(x, es[0]).world.record)) && AllHonoured(Step(x, es[0]), es[1..]))
  }

  /** No successful save of a URL comes after a handler moved the record the watch had read. */
  predicate Unraced(x: Race, es: seq<Fine>)
    decreases |es|
  {
    es == []
    || ((es[0].Probed? ==> !(Saves(x, es[0].found, es[0].ok) && x.touched)) && Unraced(Step(x, es[0]), es[1..]))
  }

  /**
   Over any run of handlers, crashes and probes: no probe revives a cancelled pause or moves a
   deadline back if and only if no enter, exit or cancellation stores or drops the record between a
   read of it and its successful save with a new URL.
   */
  lemma {:induction false} HonouredExactly(x: Race, es: seq<Fine>)
    requires Tied(x) && AllTick(x, es)
    ensures AllHonoured(x, es) <==> Unraced(x, es)
    decreases |es|
  {
    hide Step, Tied, Saves, Honours, Ticks;
    if es != [] {
      var e := es[0];
      if e.Probed? {
        WriteBackExactly(x, e.found, e.ok);
      }
      if !(e.Probed? && Saves(x, e.found, e.ok) && x.touched) {
        TiedStays(x, e);
        HonouredExactly(Step(x, e), es[1..]);
      }
    }
  }

  // ---------- Runs without the race ----------

  /** The same step seen from the handlers: the read is nothing, the save is one event. */
  function Coarse(x: Race, e: Fine): seq<Event> {
    match e
    case Look => []
    case Probed(found, ok) => if Saves(x, found, ok) then [UrlSeen(found.url, true)] else []
    case Acts(a) => [a]
  }

  function CoarseRun(x: Race, es: seq<Fine>): seq<Event>
    decreases |es|
  {
    if es == [] then [] else Coarse(x, es[0]) + CoarseRun(Step(x, es[0]), es[1..])
  }

  lemma CoarseStep(x: Race, e: Fine, rest: seq<Event>)
    requires Tied(x) && (e.Probed? ==> !(Saves(x, e.found, e.ok) && x.touched))
    ensures After(x.world, Coarse(x, e) + rest) == After(Step(x, e).world, rest)
    ensures AllAllowed(x.world, Coarse(x, e) + rest)
            <==> (e.Acts? ==> Allowed(x.world, e.event)) && AllAllowed(Step(x, e).world, rest)
  {
    hide Enter, Exit, Play, RunAll, SwitchWentThrough, DnsWentThrough, RuleRestored, ReadsTrue, Moves, EndingOf, K.IsOn;
    var es := Coarse(x, e);
    if es == [] {
      assert es + rest == rest;
    } else {
      assert (es + rest)[0] == es[0] && (es + rest)[1..] == rest;
    }
  }

  /** Every handler event of the run is one PortalRuns allows where it happens. */
  predicate ActsAllowed(x: Race, es: seq<Fine>)
    decreases |es|
  {
    es == [] || ((es[0].Acts? ==> Allowed(x.world, es[0].event)) && ActsAllowed(Step(x, es[0]), es[1..]))
  }

  /** A run without the race is a run of PortalMode, and its handlers are allowed in both alike. */
  lemma {:induction false} UnracedIsCoarse(x: Race, es: seq<Fine>)
    requires Tied(x) && AllTick(x, es) && Unraced(x, es)
    ensures After(x.world, CoarseRun(x, es)) == Run(x, es).world
    ensures AllAllowed(x.world, CoarseRun(x, es)) <==> ActsAllowed(x, es)
    decreases |es|
  {
    hide Step, Tied, Saves, Ticks, Coarse, Allowed, Next;
    if es != [] {
      CoarseStep(x, es[0], CoarseRun(Step(x, es[0]), es[1..]));
      TiedStays(x, es[0]);
      UnracedIsCoarse(Step(x, es[0]), es[1..]);
    }
  }

  /** So the fail-closed invariant holds in every world such a run reaches. */
  lemma UnracedFailClosed(x: Race, es: seq<Fine>)
    requires Tied(x) && Inv(x.world) && AllTick(x, es) && Unraced(x, es) && ActsAllowed(x, es)
    ensures var v := Run(x, es).world;
            Inv(v) && (v.record == None && v.SwitchOn() && v.DnsOn() ==> v.RuleOn())
  {
    hide Inv, Tied, K.IsOn, D.Enabled, D.RuleInstalled;
    UnracedIsCoarse(x, es);
    InvAlways(x.world, CoarseRun(x, es));
    FailClosedAlways(x.world, CoarseRun(x, es));
  }

  predicate OnRecordThroughout(x: Race, es: seq<Fine>)
    decreases |es|
  {
    x.world.record.Some? && (es == [] || OnRecordThroughout(Step(x, es[0]), es[1..]))
  }

  lemma {:induction false} CoarsePaused(x: Race, es: seq<Fine>)
    requires Tied(x) && AllTick(x, es) && Unraced(x, es) && OnRecordThroughout(x, es)
    ensures PausedThroughout(x.world, CoarseRun(x, es))
    decreases |es|
  {
    hide Tied, Ticks, Next, Moves, EndingOf;
    if es != [] {
      var y := Step(x, es[0]);
      TiedStays(x, es[0]);
      CoarsePaused(y, es[1..]);
      var first, rest := Coarse(x, es[0]), CoarseRun(y, es[1..]);
      if first == [] {
        assert first + rest == rest;
      } else {
        CoarseStep(x, es[0], []);
        assert first + [] == first && first[1..] == [];
        assert Next(x.world, first[0]) == After(Next(x.world, first[0]), []);
        assert (first + rest)[1..] == rest;
      }
    }
  }

  /** And the pause record keeps its start, its saved bits and its deadline. */
  lemma UnracedRecordKept(x: Race, es: seq<Fine>)
    requires Tied(x) && Inv(x.world) && AllTick(x, es) && Unraced(x, es) && ActsAllowed(x, es) && OnRecordThroughout(x, es)
    ensures var v := Run(x, es).world;
            && v.record.Some? && Continues(x.world.record.value, v.record.value)
            && (v.SwitchOn() ==> x.world.record.value.savedKS)
            && (v.DnsOn() ==> x.world.record.value.savedDNS)
  {
    hide Inv, Tied, K.IsOn, D.Enabled;
    UnracedIsCoarse(x, es);
    CoarsePaused(x, es);
    PauseRecordKept(x.world, CoarseRun(x, es));
  }

  // ---------- The race itself ----------

  /** Three fine steps, one after the other. */
  lemma RunThree(x: Race, a: Fine, b: Fine, c: Fine)
    ensures Run(x, [a, b, c]) == Step(Step(Step(x, a), b), c)
  {
    hide Step;
    var y := Step(x, a);
    var z := Step(y, b);
    assert [a, b, c][1..] == [b, c] && [b, c][1..] == [c] && [c][1..] == [];
    assert Run(x, [a, b, c]) == Run(y, [b, c]) == Run(z, [c]) == Run(Step(z, c), []);
  }

  /**
   The user turns the kill switch off while the watch is probing. The toggle drops the record, the
   watch saves it again with the new URL, and the exit it leads to turns the switch back on.
   */
  lemma StaleSave(w: World, found: Finding, toggle: seq<Fate>, text: string, exit: seq<Fate>)
    requires Inv(w) && w.record.Some? && w.record.value.savedKS
    requires !found.online && found.captive && found.url != "" && found.url != w.record.value.url
    requires |toggle| >= 3 && toggle[2].ok && Play(w, SwitchSteps(false), toggle).1 == Done
    requires |exit| >= 6 && exit[4].ok && exit[1].script.started
    ensures var t := Next(w, SwitchToggled(false, toggle));
            var x := Run(Race(w, None, false), [Look, Acts(SwitchToggled(false, toggle)), Probed(found, true)]);
            && t.record == None && !t.SwitchOn()
            && x.world.record == Some(w.record.value.(url := found.url))
            && Next(x.world, Exited(text, exit)).SwitchOn()
  {
    hide Perform, K.IsOn, D.Enabled, D.PlainServers, D.RuleInstalled, Play, Exit, Scripted;
    RunThree(Race(w, None, false), Look, Acts(SwitchToggled(false, toggle)), Probed(found, true));
    var t := Next(w, SwitchToggled(false, toggle));
    SwitchSequence(w, false, toggle);
    SwitchActs(w, false, toggle[0]);
    SwitchFacts(w.uci, false, toggle[0].script);
    var a := Perform(w, SetSwitch(false), toggle[0]).0;
    SwitchStays(w, a, false);
    IfDnsActs(a, false, toggle[1]);
    var b := Perform(a, FailClosedIfDns(false), toggle[1]).0;
    CancelActs(b, SWITCH_REASON, toggle[2]);
    var u := t.(record := Some(w.record.value.(url := found.url)));
    assert Inv(u);
    DirtyExitSwitch(u, text, exit);
  }

  /** The user extends the pause while the watch is probing: the save loses the new deadline. */
  lemma StaleSaveMovesDeadlineBack(w: World, found: Finding, e: Event)
    requires Inv(w) && w.record.Some?
    requires !found.online && found.captive && found.url != "" && found.url != w.record.value.url
    requires e.Entered? && w.clock < e.now && |e.fates| >= 6 && e.fates[0].ok
    ensures var v := Next(w, e);
            var x := Run(Race(w, None, false), [Look, Acts(e), Probed(found, true)]);
            && v.record.Some? && x.world.record.Some?
            && x.world.record.value.deadline < v.record.value.deadline
  {
    hide Next, Play, K.IsOn, D.Enabled, Perform, EnterSteps, Pause;
    RunThree(Race(w, None, false), Look, Acts(e), Probed(found, true));
    RecordAfter(w, e);
    EnterEnds(w, e);
  }

  lemma EnterEnds(w: World, e: Event)
    requires e.Entered? && |e.fates| >= 6
    ensures EndingOf(w, e) == Done
  {
    hide Perform, Captured, Pause;
    var later := w.(clock := e.now);
    var r := Captured(later, e.url, e.began, e.now, e.ksReads, e.dnsReads);
    var u := EnterBegins(later, r, e.fates);
    PauseLength(r);
    LoggedRunEnds(u, Pause(r), e.fates[1..]);
  }

  lemma PauseLength(r: Record)
    ensures |Pause(r)| == 5 && forall i :: 0 <= i < 5 ==> Pause(r)[i].May?
  {
  }

  lemma {:induction false} LoggedRunEnds(w: World, steps: seq<Step>, fates: seq<Fate>)
    requires |fates| >= |steps| && forall i :: 0 <= i < |steps| ==> steps[i].May?
    ensures Play(w, steps, fates).1 == Done
    decreases |steps|
  {
    hide Perform;
    if steps != [] {
      LoggedRunEnds(Perform(w, steps[0].act, fates[0]).0, steps[1..], fates[1..]);
    }
  }
}
