/**
 The timed side of portal mode (RunPortalWatch and portalScout in internal/httpapi/portalmode.go):
 how long a pause can last, and when a scout starts one. Probes keep to their deadline; reading the
 store and the clock takes no time.
 */
module PortalWatch {
  import opened Common
  import opened PortalMode

  const SCOUT_FOR := 90 * SECOND

  /** One probe: how long it took and what it found. */
  datatype Probe = Probe(took: nat, online: bool, captive: bool, url: string)

  // ---------- Scouting ----------

  /** One turn of the scout: a probe, and the wait after it if it decides nothing. */
  datatype Turn = Turn(probe: Probe, wait: nat)

  /** A scout's probe and the wait after it have five seconds each. */
  predicate PatientTurn(t: Turn) {
    t.probe.took <= 5 * SECOND && t.wait <= 5 * SECOND
  }

  /** When the k-th turn begins. */
  function TurnStart(start: int, turns: seq<Turn>, k: nat): int
    requires k <= |turns|
  {
    if k == 0 then start else TurnStart(start, turns, k - 1) + turns[k - 1].probe.took + turns[k - 1].wait
  }

  predicate Undecided(turns: seq<Turn>, k: nat)
    requires k <= |turns|
  {
    forall j :: 0 <= j < k ==> !turns[j].probe.captive && !turns[j].probe.online
  }

  /** How a scout ends: it starts a pause, finds the way clear, gives up, or is still at it. */
  datatype ScoutEnd =
    | Enters(url: string, at: int)
    | Clear(at: int)
    | GivesUp(at: int)
    | StillScouting(now: int)

  /**
   portalScout with no pause on record. It enters portal mode exactly when the first probe that
   decides anything is captive and began inside the window, and it never outlasts the window by
   more than one turn.
   */
  method PortalScout(start: int, turns: seq<Turn>) returns (end: ScoutEnd)
    requires forall i :: 0 <= i < |turns| ==> PatientTurn(turns[i])
    ensures end.Enters? <==> exists i :: 0 <= i < |turns| && Undecided(turns, i) && turns[i].probe.captive
                                         && TurnStart(start, turns, i) < start + 90 * SECOND
    ensures end.Enters? ==> exists i :: 0 <= i < |turns| && Undecided(turns, i) && turns[i].probe.captive
                              && end.url == turns[i].probe.url && end.at == TurnStart(start, turns, i) + turns[i].probe.took
    ensures end.Clear? <==> exists i :: 0 <= i < |turns| && Undecided(turns, i) && !turns[i].probe.captive && turns[i].probe.online
                                        && TurnStart(start, turns, i) < start + 90 * SECOND
    ensures end.GivesUp? ==> start + 90 * SECOND <= end.at < start + 100 * SECOND
    ensures end.StillScouting? ==> Undecided(turns, |turns|) && end.now < start + 90 * SECOND
    ensures end.Enters? ==> start <= end.at < start + 95 * SECOND
  {
    var deadline := start + SCOUT_FOR;
    var now := start;
    var i := 0;
    while now < deadline && i < |turns|
      invariant i <= |turns| && now == TurnStart(start, turns, i) && start <= now
      invariant Undecided(turns, i)
      invariant forall j :: 0 <= j < i ==> TurnStart(start, turns, j) < deadline
      invariant i > 0 ==> now < deadline + 10 * SECOND
      decreases |turns| - i
    {
      assert PatientTurn(turns[i]);
      var p := turns[i].probe;
      LaterTurns(start, turns, i);
      OnlyDecider(turns, i);
      if p.captive {
        return Enters(p.url, now + p.took);
      }
      if p.online {
        return Clear(now + p.took);
      }
      now := now + p.took + turns[i].wait;
      i := i + 1;
    }
    LaterTurns(start, turns, i);
    if now < deadline {
      return StillScouting(now);
    }
    return GivesUp(now);
  }

  lemma {:induction false} TurnsOrdered(start: int, turns: seq<Turn>, i: nat, j: nat)
    requires i <= j <= |turns|
    ensures TurnStart(start, turns, i) <= TurnStart(start, turns, j)
    decreases j
  {
    if i < j {
      TurnsOrdered(start, turns, i, j - 1);
    }
  }

  lemma LaterTurns(start: int, turns: seq<Turn>, i: nat)
    requires i <= |turns|
    ensures forall j :: i <= j <= |turns| ==> TurnStart(start, turns, i) <= TurnStart(start, turns, j)
  {
    forall j | i <= j <= |turns|
      ensures TurnStart(start, turns, i) <= TurnStart(start, turns, j)
    {
      TurnsOrdered(start, turns, i, j);
    }
  }

  /** Once a turn decides, no later turn is reached undecided. */
  lemma OnlyDecider(turns: seq<Turn>, i: nat)
    requires i < |turns|
    ensures turns[i].probe.captive || turns[i].probe.online ==>
              forall j :: i < j <= |turns| ==> !Undecided(turns, j)
  {
  }

  // ---------- Watching a pause ----------

  /** What the user does to the record in a round: drops it while the probe is out, or in the wait after it. */
  datatype User = User(inProbe: bool, inWait: bool)

  /**
   One round of the pause loop: a probe, the save of a new portal URL and whether the store takes it,
   then a wait that a kick may cut short.
   */
  datatype Round = Round(probe: Probe, saved: bool, wait: nat, user: User)

  /** A probe of the pause loop and the wait after it have eight seconds each. */
  predicate PatientRound(r: Round) {
    r.probe.took <= 8 * SECOND && r.wait <= 8 * SECOND
  }

  /** The probe found a portal with another URL than the record in hand. */
  predicate Writes(held: Record, p: Probe) {
    !p.online && p.captive && p.url != "" && p.url != held.url
  }

  /**
   The record on file after a round that began with rec there and held in hand. A cancellation during
   the probe is undone by the save of a new URL; one during the wait is not.
   */
  function AfterRound(rec: Record, held: Record, r: Round): (after: Option<Record>)
    ensures after.Some? ==> after.value.deadline == rec.deadline || after.value.deadline == held.deadline
  {
    if !r.probe.online && r.user.inWait then None
    else if Writes(held, r.probe) && r.saved then Some(held.(url := r.probe.url))
    else if r.user.inProbe then None
    else Some(rec)
  }

  /** A cancellation during a probe is undone exactly by the save of a captive portal's new URL. */
  lemma UndoneExactly(rec: Record, held: Record, r: Round)
    ensures r.user == User(true, false) ==>
              (AfterRound(rec, held, r).Some?
               <==> !r.probe.online && r.probe.captive && r.probe.url != "" && r.probe.url != held.url && r.saved)
    ensures r.user == User(false, false) && AfterRound(rec, held, r) != Some(rec) ==>
              !r.probe.online && r.probe.captive && AfterRound(rec, held, r) == Some(held.(url := r.probe.url))
  {
  }

  /** The record on file when the k-th round is over; each round reads it anew. */
  function OnFile(first: Option<Record>, rounds: seq<Round>, k: nat): Option<Record>
    requires k <= |rounds|
  {
    if k == 0 then first
    else match OnFile(first, rounds, k - 1)
      case None => None
      case Some(r) => AfterRound(r, r, rounds[k - 1])
  }

  /** Where the watch is when the record is saved. */
  datatype Phase =
    | Starting                                  // the daemon has just come up
    | Idle(kickAfter: nat)                      // blocked until the enter that saves also kicks
    | ScoutProbe(left: nat, online: bool, wait: nat)
    | ScoutWait(left: nat)
    | Probing(left: nat, held: Record, round: Round)  // with an earlier record of the pause in hand
    | Waiting(left: nat)

  /** The waits of the phase keep to their limits, an enter to its sixty seconds; a scout that finds a portal would re-enter. */
  predicate Patient(p: Phase, rec: Record) {
    match p
    case Starting => true
    case Idle(k) => k <= 60 * SECOND
    case ScoutProbe(left, _, wait) => left <= 5 * SECOND && wait <= 5 * SECOND
    case ScoutWait(left) => left <= 5 * SECOND
    case Probing(left, held, round) => left <= 8 * SECOND && round.wait <= 8 * SECOND && held.deadline <= rec.deadline
    case Waiting(left) => left <= 8 * SECOND
  }

  /** When the k-th round begins, the first at the given time. */
  function RoundStart(at: int, rounds: seq<Round>, k: nat): int
    requires k <= |rounds|
  {
    if k == 0 then at else RoundStart(at, rounds, k - 1) + rounds[k - 1].probe.took + rounds[k - 1].wait
  }

  /** At the head of round k the watch finds a record that has not expired. */
  predicate GoesOn(at: int, first: Option<Record>, rounds: seq<Round>, k: nat)
    requires k <= |rounds|
  {
    OnFile(first, rounds, k).Some? && RoundStart(at, rounds, k) <= OnFile(first, rounds, k).value.deadline
  }

  datatype WatchEnd =
    | Expired(at: int)
    | Online(at: int)
    | Gone(at: int)
    | StillPaused(now: int, record: Record)

  function TimeOf(e: WatchEnd): int {
    match e
    case StillPaused(now, _) => now
    case _ => e.at
  }

  /** When the watch is back at the head of its loop. */
  function HeadAt(saved: int, p: Phase): (at: int) {
    match p
    case Starting => saved
    case Idle(k) => saved + k
    case ScoutProbe(left, online, wait) => saved + left + (if online then 0 else wait)
    case ScoutWait(left) => saved + left
    case Probing(left, _, round) => saved + left + (if round.probe.online then 0 else round.wait)
    case Waiting(left) => saved + left
  }

  /** The record it finds there, if the user cancels the pause meanwhile or not. */
  function HeadRecord(rec: Record, p: Phase, cancelled: bool): Option<Record> {
    if p.Probing? then AfterRound(rec, p.held, p.round) else if cancelled then None else Some(rec)
  }

  /** A probe that is out when the record is saved will write an earlier one over it. */
  predicate WritesStale(p: Phase) {
    p.Probing? && Writes(p.held, p.round.probe) && p.round.saved
  }

  /**
   RunPortalWatch over a record whose deadline is the window after its save, with no re-entry and
   no crash after it. Whatever the watch was doing, whatever the probes say, however often it is
   kicked and whatever is cancelled or saved over a cancellation: by two probe periods after the
   deadline an exit has begun, or the watch has read that there is no record any more.
   */
  method RunPortalWatch(saved: int, rec: Record, phase: Phase, cancelled: bool, rounds: seq<Round>) returns (end: WatchEnd)
    requires rec.deadline == saved + 600 * SECOND && Patient(phase, rec)
    requires forall i :: 0 <= i < |rounds| ==> PatientRound(rounds[i])
    ensures saved <= TimeOf(end) <= saved + 616 * SECOND
    ensures end.Online? ==> (phase.Probing? && phase.round.probe.online) || exists i :: 0 <= i < |rounds| && rounds[i].probe.online
    ensures end.Expired? && !WritesStale(phase) ==> end.at > rec.deadline
    ensures end.Online? && !(phase.Probing? && phase.round.probe.online) ==>
              exists k :: 0 <= k < |rounds| && rounds[k].probe.online
                && (forall j :: 0 <= j < k ==> !rounds[j].probe.online)
                && (forall j :: 0 <= j <= k ==> GoesOn(HeadAt(saved, phase), HeadRecord(rec, phase, cancelled), rounds, j))
                && end.at == RoundStart(HeadAt(saved, phase), rounds, k) + rounds[k].probe.took
    ensures end.Expired? ==>
              exists k :: 0 <= k < |rounds| && end.at == RoundStart(HeadAt(saved, phase), rounds, k)
                && OnFile(HeadRecord(rec, phase, cancelled), rounds, k).Some?
                && end.at > OnFile(HeadRecord(rec, phase, cancelled), rounds, k).value.deadline
                && (forall j :: 0 <= j < k ==> !rounds[j].probe.online
                                               && GoesOn(HeadAt(saved, phase), HeadRecord(rec, phase, cancelled), rounds, j))
    ensures end.Gone? ==> exists k :: 0 <= k <= |rounds| && OnFile(HeadRecord(rec, phase, cancelled), rounds, k) == None
    ensures end.StillPaused? ==> OnFile(HeadRecord(rec, phase, cancelled), rounds, |rounds|) == Some(end.record)
                                 && forall i :: 0 <= i < |rounds| ==> !rounds[i].probe.online
  {
    var now := HeadAt(saved, phase);
    var onFile := HeadRecord(rec, phase, cancelled);
    if phase.Probing? && phase.round.probe.online && onFile.Some? {
      return Online(now);
    }
    ghost var first := onFile;
    var i := 0;
    while i < |rounds|
      invariant i <= |rounds| && onFile == OnFile(first, rounds, i)
      invariant onFile.Some? ==> onFile.value.deadline <= rec.deadline
      invariant onFile.Some? && !WritesStale(phase) ==> onFile.value.deadline == rec.deadline
      invariant saved <= now <= rec.deadline + 16 * SECOND
      invariant forall j :: 0 <= j < i ==> !rounds[j].probe.online
      invariant now == RoundStart(HeadAt(saved, phase), rounds, i)
      invariant forall j :: 0 <= j < i ==> GoesOn(HeadAt(saved, phase), first, rounds, j)
    {
      var round := rounds[i];
      assert PatientRound(round);
      if onFile.None? {
        return Gone(now);
      }
      var held := onFile.value;
      if now > held.deadline {
        return Expired(now);
      }
      now := now + round.probe.took;
      onFile := AfterRound(held, held, round);
      assert onFile == OnFile(first, rounds, i + 1);
      if round.probe.online {
        // the exit it calls reads the record again, and does nothing without one
        return if onFile.Some? then Online(now) else Gone(now);
      }
      now := now + round.wait;
      i := i + 1;
    }
    return if onFile.Some? then StillPaused(now, onFile.value) else Gone(now);
  }
}
