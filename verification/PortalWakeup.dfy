/**
 The wake-up between enterPortalMode and the watch (internal/httpapi/portalmode.go), at the grain of
 single store writes, channel operations and reads: any number of enters, removals and uplink joins
 interleave with the watch goroutine, which sleeps on a channel with one slot.
 */
module PortalWakeup {
  import opened Common

  /** An enter saves its record and then kicks; Half is between the two. */
  datatype Progress = Begun | Half | Returned

  datatype Watch =
    | Head                     // about to read the record
    | SawNone                  // read no record, not yet in the select
    | Idle                     // blocked in the idle select
    | Scouting
    | ScoutEntering(who: nat)   // the scout runs an enter itself
    | SawRecord(who: nat)       // read a record; probing or leaving
    | Pausing                  // in the select of the pause loop

  /** The stored record is known by the enter that last saved it. */
  datatype State = State(record: Option<nat>, token: bool, enters: map<nat, Progress>, watch: Watch)

  datatype Event =
    | Begin(who: nat)
    | SaveRecord(who: nat, ok: bool)
    | KickAfter(who: nat)
    | JoinKick
    | Remove                   // an exit or a cancel deletes the record
    | WatchReads
    | WatchBlocks
    | WatchTakes
    | ScoutFindsRecord
    | ScoutEnters(who: nat)
    | ScoutEnds
    | WatchSavesUrl            // writes back the record it has in hand
    | WatchLeaves              // its own exit deletes the record
    | WatchProbed
    | PauseSelect(token: bool) // woken by the token, or by the timer
    | Restart

  /** Which of the two an enter does first; the source saves first. */
  datatype Order = SaveFirst | KickFirst

  predicate At(s: State, e: nat, p: Progress) {
    e in s.enters && s.enters[e] == p
  }

  function Advance(s: State, e: nat): State
    requires e in s.enters
  {
    var p := if s.enters[e] == Begun then Half else Returned;
    var w := if s.watch == ScoutEntering(e) && p == Returned then Head else s.watch;
    s.(enters := s.enters[e := p], watch := w)
  }

  /** One step, or None where the event is not possible. */
  function Next(order: Order, s: State, ev: Event): Option<State> {
    match ev
    case Begin(e) =>
      if e in s.enters then None else Some(s.(enters := s.enters[e := Begun]))
    case SaveRecord(e, ok) =>
      if !At(s, e, if order == SaveFirst then Begun else Half) then None
      else Some(Advance(if ok then s.(record := Some(e)) else s, e))
    case KickAfter(e) =>
      if !At(s, e, if order == SaveFirst then Half else Begun) then None
      else Some(Advance(s.(token := true), e))
    case JoinKick => Some(s.(token := true))
    case Remove => Some(s.(record := None))
    case WatchReads =>
      if s.watch != Head then None
      else if s.record.None? then Some(s.(watch := SawNone))
      else Some(s.(watch := SawRecord(s.record.value)))
    case WatchBlocks => if s.watch != SawNone then None else Some(s.(watch := Idle))
    case WatchTakes =>
      if s.watch != Idle || !s.token then None else Some(s.(watch := Scouting, token := false))
    case ScoutFindsRecord =>
      if s.watch != Scouting || s.record.None? then None else Some(s.(watch := Head))
    case ScoutEnters(e) =>
      if s.watch != Scouting || e in s.enters then None
      else Some(s.(watch := ScoutEntering(e), enters := s.enters[e := Begun]))
    case ScoutEnds => if s.watch != Scouting then None else Some(s.(watch := Head))
    case WatchSavesUrl =>
      if !s.watch.SawRecord? then None else Some(s.(record := Some(s.watch.who), watch := Pausing))
    case WatchLeaves => if !s.watch.SawRecord? then None else Some(s.(record := None, watch := Head))
    case WatchProbed => if !s.watch.SawRecord? then None else Some(s.(watch := Pausing))
    case PauseSelect(token) =>
      if s.watch != Pausing || (token && !s.token) then None
      else Some(s.(watch := Head, token := s.token && !token))
    case Restart => Some(State(s.record, false, map[], Head))
  }

  function After(order: Order, s: State, es: seq<Event>): Option<State>
    decreases |es|
  {
    if es == [] then Some(s)
    else
      match Next(order, s, es[0])
      case None => None
      case Some(t) => After(order, t, es[1..])
  }

  /** The daemon has just started, with whatever record the store holds. */
  predicate Initial(s: State) {
    !s.token && s.enters == map[] && s.watch == Head
  }

  /** The watch has decided to sleep, and nothing is there to wake it. */
  predicate Asleep(s: State) {
    (s.watch == SawNone || s.watch == Idle) && !s.token
  }

  /** A record the sleeping watch does not know of still has its kick to come. */
  predicate Inv(s: State) {
    Asleep(s) && s.record.Some? ==> At(s, s.record.value, Half)
  }

  lemma InvKept(s: State, ev: Event)
    requires Inv(s)
    ensures match Next(SaveFirst, s, ev) case None => true case Some(t) => Inv(t)
  {
  }

  lemma {:induction false} InvAlways(s: State, es: seq<Event>)
    requires Inv(s)
    ensures match After(SaveFirst, s, es) case None => true case Some(t) => Inv(t)
    decreases |es|
  {
    if es != [] {
      InvKept(s, es[0]);
      match Next(SaveFirst, s, es[0]) {
        case None =>
        case Some(t) => InvAlways(t, es[1..]);
      }
    }
  }

  /**
   No lost wake-up: in every interleaving, once an enter has returned with its record still the one
   saved, the watch is not asleep without a token.
   */
  lemma NoLostWakeup(s: State, es: seq<Event>, e: nat)
    requires Initial(s) && After(SaveFirst, s, es).Some?
    ensures var t := After(SaveFirst, s, es).value;
            At(t, e, Returned) && t.record == Some(e) ==> !Asleep(t)
  {
    InvAlways(s, es);
  }

  /** From there the watch reaches the record by its own steps alone. */
  lemma WakesToRecord(s: State, es: seq<Event>, e: nat)
    requires Initial(s) && After(SaveFirst, s, es).Some?
    requires var t := After(SaveFirst, s, es).value;
             At(t, e, Returned) && t.record == Some(e) && (t.watch == SawNone || t.watch == Idle)
    ensures var t := After(SaveFirst, s, es).value;
            var woken := After(SaveFirst, t, (if t.watch == SawNone then [WatchBlocks] else [])
                                             + [WatchTakes, ScoutFindsRecord, WatchReads]);
            woken.Some? && woken.value.watch == SawRecord(e)
  {
    NoLostWakeup(s, es, e);
    var t := After(SaveFirst, s, es).value;
    var u := if t.watch == SawNone then t.(watch := Idle) else t;
    var tail := [WatchTakes, ScoutFindsRecord, WatchReads];
    assert tail[1..] == [ScoutFindsRecord, WatchReads] && tail[1..][1..] == [WatchReads];
    assert tail[1..][1..][1..] == [];
    assert ([WatchBlocks] + tail)[1..] == tail;
    assert [] + tail == tail;
    assert Next(SaveFirst, u, WatchTakes) == Some(u.(watch := Scouting, token := false));
  }

  /** Kicking first would lose it: the token is spent on a scout that finds nothing yet. */
  lemma KickFirstLosesWakeup(s: State, e: nat)
    requires Initial(s) && s.record == None
    ensures var es := [Begin(e), WatchReads, WatchBlocks, KickAfter(e), WatchTakes, ScoutEnds, WatchReads, WatchBlocks,
                       SaveRecord(e, true)];
            var t := After(KickFirst, s, es);
            t.Some? && At(t.value, e, Returned) && t.value.record == Some(e) && Asleep(t.value)
  {
    var es := [Begin(e), WatchReads, WatchBlocks, KickAfter(e), WatchTakes, ScoutEnds, WatchReads, WatchBlocks,
               SaveRecord(e, true)];
    var s1 := s.(enters := s.enters[e := Begun]);
    var s3 := s1.(watch := Idle);
    var s4 := s3.(token := true, enters := s1.enters[e := Half]);
    var s8 := s4.(token := false);
    Steps(s, es[..4], [s, s1, s1.(watch := SawNone), s3, s4]);
    Steps(s4, es[4..8], [s4, s4.(token := false, watch := Scouting), s4.(token := false, watch := Head),
                         s4.(token := false, watch := SawNone), s8]);
    var s9 := s8.(record := Some(e), enters := s8.enters[e := Returned]);
    Steps(s8, es[8..], [s8, s9]);
    Chain(s, es[..4], s4, es[4..8]);
    assert es[..4] + es[4..8] == es[..8];
    Chain(s, es[..8], s8, es[8..]);
    assert es[..8] + es[8..] == es;
  }

  lemma {:induction false} Steps(s: State, es: seq<Event>, trace: seq<State>)
    requires |trace| == |es| + 1 && trace[0] == s
    requires forall i :: 0 <= i < |es| ==> Next(KickFirst, trace[i], es[i]) == Some(trace[i + 1])
    ensures After(KickFirst, s, es) == Some(trace[|es|])
    decreases |es|
  {
    if es != [] {
      assert Next(KickFirst, trace[0], es[0]) == Some(trace[1]);
      forall i | 0 <= i < |es[1..]|
        ensures Next(KickFirst, trace[1..][i], es[1..][i]) == Some(trace[1..][i + 1])
      {
        assert Next(KickFirst, trace[i + 1], es[i + 1]) == Some(trace[i + 2]);
      }
      Steps(trace[1], es[1..], trace[1..]);
    }
  }

  lemma {:induction false} Chain(s: State, a: seq<Event>, t: State, b: seq<Event>)
    requires After(KickFirst, s, a) == Some(t)
    ensures After(KickFirst, s, a + b) == After(KickFirst, t, b)
    decreases |a|
  {
    if a == [] {
      assert a + b == b;
    } else {
      assert (a + b)[1..] == a[1..] + b;
      Chain(Next(KickFirst, s, a[0]).value, a[1..], t, b);
    }
  }
}
