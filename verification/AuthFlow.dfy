/**
 One-time secrets over whole runs (internal/httpapi/authflow.go): ceremony challenges, step-up
 credits and recovery codes. The handlers append to a log what they did; what every such log
 implies is shown below. Signature and token checks are outcomes, and the hash is injective.
 */
module AuthFlow {
  import opened Common
  import T = TtlSet

  const MINUTE := 60 * SECOND
  const CHALLENGE_TTL := 2 * MINUTE
  const STEP_UP_TTL := 2 * MINUTE

  datatype Hash = Hash(preimage: string)

  datatype Kind = Register | Login | StepUp(token: string)

  datatype Event =
    | Issued(challenge: string, at: int)
    | Ceremony(kind: Kind, challenge: string, at: int, consumed: bool, ok: bool)
    | Minted(code: string, at: int)
    | Gate(token: string, at: int, live: bool, ran: bool)     // a destructive handler was called
    | Recovery(code: string, at: int, burnt: bool, ok: bool)
    | Restarted(at: int)

  // ---------- The log as each of the sets sees it ----------

  function ChallengeOp(e: Event): T.Op {
    match e
    case Issued(c, t) => T.Grant(c, t)
    case Ceremony(_, c, t, consumed, _) => T.Consume(c, t, consumed)
    case Restarted(t) => T.Clear(t)
    case _ => T.Other(e.at)
  }

  function StepUpOp(e: Event): T.Op {
    match e
    case Ceremony(StepUp(token), _, t, _, ok) => if ok then T.Grant(token, t) else T.Other(t)
    case Gate(token, t, live, ran) => if live then T.Consume(token, t, ran) else T.Other(t)
    case Restarted(t) => T.Clear(t)
    case _ => T.Other(e.at)
  }

  function Challenges(log: seq<Event>): seq<T.Op> {
    seq(|log|, i requires 0 <= i < |log| => ChallengeOp(log[i]))
  }

  function StepUps(log: seq<Event>): seq<T.Op> {
    seq(|log|, i requires 0 <= i < |log| => StepUpOp(log[i]))
  }

  /** The recovery hash the store holds. */
  function Stored(log: seq<Event>): Option<Hash> {
    if log == [] then None
    else
      match log[|log| - 1]
      case Minted(code, _) => Some(Hash(code))
      case Recovery(_, _, burnt, _) => if burnt then None else Stored(log[..|log| - 1])
      case _ => Stored(log[..|log| - 1])
  }

  /** Every entry is what the handler does in the state the entries before it leave. */
  predicate EntryOk(before: seq<Event>, e: Event) {
    match e
    case Ceremony(_, _, _, consumed, ok) => ok ==> consumed
    case Gate(_, _, live, ran) => ran ==> live
    case Recovery(code, _, burnt, ok) => (burnt ==> code != "" && Stored(before) == Some(Hash(code))) && (ok ==> burnt)
    case _ => true
  }

  predicate Faithful(log: seq<Event>) {
    && T.Ordered(Challenges(log)) && T.Ordered(StepUps(log))
    && T.Answered(Challenges(log), CHALLENGE_TTL)
    && T.Answered(StepUps(log), STEP_UP_TTL)
    && forall i :: 0 <= i < |log| ==> EntryOk(log[..i], log[i])
  }

  // ---------- The handlers ----------

  class Server {
    var chals: T.TtlSet
    var stepUps: T.TtlSet
    var recovery: Option<Hash>
    var credentials: set<string>
    ghost var log: seq<Event>

    ghost predicate Valid()
      reads this, chals, stepUps
    {
      && chals != stepUps
      && chals.Valid() && stepUps.Valid()
      && chals.ttl == CHALLENGE_TTL && stepUps.ttl == STEP_UP_TTL
      && Faithful(log)
      && chals.history == T.Strip(Challenges(log))
      && stepUps.history == T.Strip(StepUps(log))
      && recovery == Stored(log)
    }

    /** Time does not run backwards. */
    ghost predicate Now(now: int)
      reads this
    {
      T.After(Challenges(log), now) && T.After(StepUps(log), now)
    }

    constructor ()
      ensures Valid() && log == [] && credentials == {} && fresh(chals) && fresh(stepUps)
    {
      chals := new T.TtlSet(CHALLENGE_TTL);
      stepUps := new T.TtlSet(STEP_UP_TTL);
      recovery := None;
      credentials := {};
      log := [];
    }

    /** The in-memory sets are gone; the store is not. */
    method Restart(now: int)
      requires Valid() && Now(now)
      modifies this
      ensures Valid() && fresh(chals) && fresh(stepUps)
      ensures log == old(log) + [Restarted(now)] && credentials == old(credentials) && recovery == old(recovery)
    {
      T.StripAfter(Challenges(log), now);
      T.StripAfter(StepUps(log), now);
      var c := new T.TtlSet.Restarted(CHALLENGE_TTL, chals.history, now);
      var s := new T.TtlSet.Restarted(STEP_UP_TTL, stepUps.history, now);
      Append(log, Restarted(now));
      chals, stepUps := c, s;
      log := log + [Restarted(now)];
    }

    predicate Provisioned()
      reads this
    {
      credentials != {}
    }

    /** registerBegin, loginBegin and stepUpBegin, once past their own checks: a fresh challenge. */
    method Begin(challenge: string, now: int)
      requires Valid() && Now(now)
      modifies this`log, chals
      ensures Valid() && log == old(log) + [Issued(challenge, now)]
    {
      T.StripAfter(Challenges(log), now);
      chals.Grant(challenge, now);
      Append(log, Issued(challenge, now));
      log := log + [Issued(challenge, now)];
    }

    method RegisterBegin(live: bool, challenge: string, now: int) returns (ok: bool)
      requires Valid() && Now(now)
      modifies this`log, chals
      ensures Valid() && ok == (!Provisioned() || live)
      ensures log == old(log) + if ok then [Issued(challenge, now)] else []
    {
      if Provisioned() && !live {
        return false;
      }
      Begin(challenge, now);
      return true;
    }

    /**
     What the three finish handlers share: the challenge is spent first, whatever becomes of the
     rest. The entry goes into the log with the handler's final word.
     */
    method FinishCeremony(kind: Kind, challenge: string, now: int, rest: bool) returns (consumed: bool, ok: bool)
      requires Valid() && Now(now)
      modifies this`log, chals, stepUps
      ensures Valid() && Now(now)
      ensures consumed <==> T.Good(Challenges(old(log)), challenge, now, 120 * SECOND)
      ensures ok == (consumed && rest)
      ensures log == old(log) + [Ceremony(kind, challenge, now, consumed, ok)]
    {
      hide T.Strip, T.Good, Challenges, StepUps, Faithful, Stored;
      FaithfulIs(log);
      T.StripAfter(Challenges(log), now);
      T.StripAfter(StepUps(log), now);
      T.StripKeeps(Challenges(log), challenge);
      StoredPush(log, Ceremony(kind, challenge, now, T.Good(Challenges(log), challenge, now, CHALLENGE_TTL),
                               T.Good(Challenges(log), challenge, now, CHALLENGE_TTL) && rest));
      consumed := chals.Consume(challenge, now);
      ok := consumed && rest;
      if kind.StepUp? && ok {
        stepUps.Grant(kind.token, now);
      }
      Append(log, Ceremony(kind, challenge, now, consumed, ok));
      log := log + [Ceremony(kind, challenge, now, consumed, ok)];
    }

    /** loginFinish; verified covers client and authenticator data, credential and signature. */
    method LoginFinish(challenge: string, now: int, verified: bool, issued: bool) returns (ok: bool)
      requires Valid() && Now(now)
      modifies this`log, chals, stepUps
      ensures Valid()
      ensures ok <==> verified && issued && T.Good(Challenges(old(log)), challenge, now, 120 * SECOND)
      ensures |log| == |old(log)| + 1 && log[..|old(log)|] == old(log)
      ensures log[|old(log)|].Ceremony? && log[|old(log)|].kind == Login && log[|old(log)|].ok == ok
    {
      var consumed;
      consumed, ok := FinishCeremony(Login, challenge, now, verified && issued);
    }

    /** stepUpFinish behind requireSession. */
    method StepUpFinish(token: string, live: bool, challenge: string, now: int, verified: bool) returns (ok: bool)
      requires Valid() && Now(now)
      modifies this`log, chals, stepUps
      ensures Valid()
      ensures ok <==> live && verified && T.Good(Challenges(old(log)), challenge, now, 120 * SECOND)
      ensures !live ==> log == old(log)
      ensures live ==> |log| == |old(log)| + 1 && log[..|old(log)|] == old(log)
                       && log[|old(log)|].Ceremony? && log[|old(log)|].kind == StepUp(token) && log[|old(log)|].ok == ok
    {
      if !live {
        return false;
      }
      var consumed;
      consumed, ok := FinishCeremony(StepUp(token), challenge, now, verified);
    }

    method Mint(code: string, now: int)
      requires Valid() && Now(now)
      modifies this`log, this`recovery
      ensures Valid() && log == old(log) + [Minted(code, now)] && recovery == Some(Hash(code))
    {
      Append(log, Minted(code, now));
      recovery := Some(Hash(code));
      log := log + [Minted(code, now)];
    }

    /**
     registerFinish: the first registration of a device also mints the recovery code. saved is the
     credential write, minted the write of the code's hash, issued the session write.
     */
    method RegisterFinish(live: bool, challenge: string, now: int, verified: bool, id: string, code: string,
                          saved: bool, minted: bool, issued: bool)
      returns (ok: bool, shown: Option<string>)
      requires Valid() && Now(now)
      modifies this`log, this`recovery, this`credentials, chals, stepUps
      ensures Valid()
      ensures old(credentials) != {} && !live ==> !ok && log == old(log) && credentials == old(credentials)
      ensures shown == if ok && old(credentials) == {} then Some(code) else None
      ensures shown.Some? ==> recovery == Some(Hash(code))
      ensures ok <==> (old(credentials) == {} || live) && T.Good(Challenges(old(log)), challenge, now, 120 * SECOND)
                      && verified && saved && (old(credentials) == {} ==> minted) && issued
      ensures credentials == if (old(credentials) == {} || live) && T.Good(Challenges(old(log)), challenge, now, 120 * SECOND)
                                && verified && saved
                             then old(credentials) + {id} else old(credentials)
      ensures recovery == if credentials != old(credentials) && old(credentials) == {} && minted
                          then Some(Hash(code)) else old(recovery)
    {
      hide T.Strip, T.Good, Challenges, StepUps, Faithful, Stored, T.After, T.Holds, T.Answered, T.Ordered;
      shown := None;
      var first := !Provisioned();
      if !first && !live {
        return false, None;
      }
      var consumed;
      consumed, ok := FinishCeremony(Register, challenge, now, verified && saved && (first ==> minted) && issued);
      if !consumed || !verified || !saved {
        return;
      }
      credentials := credentials + {id};
      if first {
        if !minted {
          return;
        }
        Mint(code, now);
        shown := if ok then Some(code) else None;
      }
    }

    /** loginRecovery: the code is burnt before the session exists. */
    method LoginRecovery(code: string, now: int, deleted: bool, issued: bool) returns (ok: bool)
      requires Valid() && Now(now)
      modifies this`log, this`recovery
      ensures Valid()
      ensures ok <==> code != "" && old(recovery) == Some(Hash(code)) && deleted && issued
      ensures ok ==> recovery == None
    {
      if code == "" || recovery == None || recovery != Some(Hash(code)) || !deleted {
        return false;
      }
      ok := issued;
      Append(log, Recovery(code, now, true, ok));
      recovery := None;
      log := log + [Recovery(code, now, true, ok)];
    }

    /** requireStepUp inside requireSession, around any destructive handler. */
    method RequireStepUp(token: string, live: bool, now: int) returns (ran: bool)
      requires Valid() && Now(now)
      modifies this`log, stepUps
      ensures Valid() && Now(now)
      ensures ran <==> live && T.Good(StepUps(old(log)), token, now, 120 * SECOND)
      ensures log == old(log) + [Gate(token, now, live, ran)]
    {
      hide T.Strip, T.Good, Challenges, StepUps, Faithful, Stored;
      FaithfulIs(log);
      T.StripAfter(StepUps(log), now);
      T.StripKeeps(StepUps(log), token);
      StoredPush(log, Gate(token, now, live, live && T.Good(StepUps(log), token, now, STEP_UP_TTL)));
      ran := false;
      if live {
        ran := stepUps.Consume(token, now);
      }
      Append(log, Gate(token, now, live, ran));
      log := log + [Gate(token, now, live, ran)];
    }

    /** recoveryRegenerate, itself a destructive handler. */
    method RecoveryRegenerate(token: string, live: bool, now: int, code: string, stored: bool) returns (shown: Option<string>)
      requires Valid() && Now(now)
      modifies this`log, this`recovery, stepUps
      ensures Valid()
      ensures shown == if live && stored && T.Good(StepUps(old(log)), token, now, 120 * SECOND) then Some(code) else None
      ensures recovery == if shown.Some? then Some(Hash(code)) else old(recovery)
    {
      var ran := RequireStepUp(token, live, now);
      if !ran || !stored {
        return None;
      }
      Mint(code, now);
      return Some(code);
    }
  }

  // ---------- The log grows faithfully ----------

  lemma Append(log: seq<Event>, e: Event)
    requires Faithful(log) && EntryOk(log, e)
    requires T.After(Challenges(log), e.at) && T.After(StepUps(log), e.at)
    requires ChallengeOp(e).Consume? ==>
               (ChallengeOp(e).ok <==> T.Good(Challenges(log), ChallengeOp(e).key, e.at, CHALLENGE_TTL))
    requires StepUpOp(e).Consume? ==>
               (StepUpOp(e).ok <==> T.Good(StepUps(log), StepUpOp(e).key, e.at, STEP_UP_TTL))
    ensures Faithful(log + [e])
    ensures T.Strip(Challenges(log + [e])) == T.Strip(Challenges(log)) + (if ChallengeOp(e).Other? then [] else [ChallengeOp(e)])
    ensures T.Strip(StepUps(log + [e])) == T.Strip(StepUps(log)) + (if StepUpOp(e).Other? then [] else [StepUpOp(e)])
    ensures T.After(Challenges(log + [e]), e.at) && T.After(StepUps(log + [e]), e.at)
  {
    hide ChallengeOp, StepUpOp, EntryOk, T.Good, T.Answered, T.Ordered, T.Strip, Challenges, StepUps, T.After;
    ViewsPush(log, e);
    T.HistoryPush(Challenges(log), ChallengeOp(e), CHALLENGE_TTL);
    T.HistoryPush(StepUps(log), StepUpOp(e), STEP_UP_TTL);
    T.StripPush(Challenges(log), ChallengeOp(e));
    T.StripPush(StepUps(log), StepUpOp(e));
    EntriesPush(log, e);
    AfterPush(Challenges(log), ChallengeOp(e));
    AfterPush(StepUps(log), StepUpOp(e));
  }

  lemma FaithfulIs(log: seq<Event>)
    requires Faithful(log)
    ensures T.Ordered(Challenges(log)) && T.Ordered(StepUps(log))
  {
  }

  lemma StoredPush(log: seq<Event>, e: Event)
    ensures Stored(log + [e]) == match e
                                 case Minted(code, _) => Some(Hash(code))
                                 case Recovery(_, _, burnt, _) => if burnt then None else Stored(log)
                                 case _ => Stored(log)
  {
    assert (log + [e])[..|log|] == log;
  }

  lemma AfterPush(h: seq<T.Op>, op: T.Op)
    ensures T.After(h + [op], op.at)
  {
  }

  lemma ViewsPush(log: seq<Event>, e: Event)
    ensures Challenges(log + [e]) == Challenges(log) + [ChallengeOp(e)]
    ensures StepUps(log + [e]) == StepUps(log) + [StepUpOp(e)]
    ensures ChallengeOp(e).at == e.at && StepUpOp(e).at == e.at
  {
  }

  lemma EntriesPush(log: seq<Event>, e: Event)
    requires forall i :: 0 <= i < |log| ==> EntryOk(log[..i], log[i])
    requires EntryOk(log, e)
    ensures var l := log + [e]; forall i :: 0 <= i < |l| ==> EntryOk(l[..i], l[i])
  {
    hide EntryOk;
    var l := log + [e];
    forall i | 0 <= i < |l|
      ensures EntryOk(l[..i], l[i])
    {
      if i < |log| {
        assert l[..i] == log[..i];
      } else {
        assert l[..i] == log;
      }
    }
  }

  // ---------- What every log implies ----------

  predicate Ran(log: seq<Event>, i: nat) {
    i < |log| && log[i].Gate? && log[i].ran
  }

  predicate Passed(log: seq<Event>, i: nat) {
    i < |log| && log[i].Ceremony? && log[i].ok
  }

  /** The step-up a destructive call spent. */
  function StepUpFor(log: seq<Event>, i: nat): int
    requires Faithful(log) && Ran(log, i)
  {
    GateConsumes(log, i);
    T.Source(StepUps(log), i)
  }

  lemma GateConsumes(log: seq<Event>, i: nat)
    requires Faithful(log) && Ran(log, i)
    ensures StepUps(log)[i] == T.Consume(log[i].token, log[i].at, true)
  {
    assert EntryOk(log[..i], log[i]);
  }

  /** The challenge a ceremony spent. */
  function ChallengeFor(log: seq<Event>, i: nat): int
    requires Faithful(log) && Passed(log, i)
  {
    CeremonyConsumes(log, i);
    T.Source(Challenges(log), i)
  }

  lemma CeremonyConsumes(log: seq<Event>, i: nat)
    requires Faithful(log) && Passed(log, i)
    ensures Challenges(log)[i] == T.Consume(log[i].challenge, log[i].at, true)
  {
    assert EntryOk(log[..i], log[i]);
  }

  /** Every destructive handler that ran was preceded, less than two minutes before, by a step-up of the same session. */
  lemma GateSpendsStepUp(log: seq<Event>, i: nat)
    requires Faithful(log) && Ran(log, i)
    ensures var j := StepUpFor(log, i);
            && 0 <= j < i && Passed(log, j) && log[j].kind == StepUp(log[i].token)
            && log[j].at <= log[i].at < log[j].at + 120 * SECOND
  {
    GateConsumes(log, i);
    T.SourceFacts(StepUps(log), STEP_UP_TTL, i);
    var j := StepUpFor(log, i);
    assert StepUps(log)[j] == StepUpOp(log[j]);
    assert StepUps(log)[j].at <= StepUps(log)[i].at;
  }

  /** ... and no step-up pays twice. */
  lemma StepUpsPayOnce(log: seq<Event>, i: nat, k: nat)
    requires Faithful(log) && Ran(log, i) && Ran(log, k) && i < k
    ensures StepUpFor(log, i) != StepUpFor(log, k)
  {
    GateConsumes(log, i);
    GateConsumes(log, k);
    T.SourceInjective(StepUps(log), STEP_UP_TTL, i, k);
  }

  /** Every registration, login or step-up that succeeded used a challenge issued less than two minutes before. */
  lemma CeremonySpendsChallenge(log: seq<Event>, i: nat)
    requires Faithful(log) && Passed(log, i)
    ensures var j := ChallengeFor(log, i);
            && 0 <= j < i && log[j] == Issued(log[i].challenge, log[j].at)
            && log[j].at <= log[i].at < log[j].at + 120 * SECOND
  {
    CeremonyConsumes(log, i);
    T.SourceFacts(Challenges(log), CHALLENGE_TTL, i);
    var j := ChallengeFor(log, i);
    assert Challenges(log)[j] == ChallengeOp(log[j]);
    assert Challenges(log)[j].at <= Challenges(log)[i].at;
  }

  /** ... and no challenge serves twice, whatever the ceremony. */
  lemma ChallengesServeOnce(log: seq<Event>, i: nat, k: nat)
    requires Faithful(log) && Passed(log, i) && Passed(log, k) && i < k
    ensures ChallengeFor(log, i) != ChallengeFor(log, k)
  {
    CeremonyConsumes(log, i);
    CeremonyConsumes(log, k);
    T.SourceInjective(Challenges(log), CHALLENGE_TTL, i, k);
  }

  /** End to end: each destructive call goes back to a challenge of its own, issued less than four minutes before. */
  lemma GateTracesToChallenge(log: seq<Event>, i: nat, k: nat)
    requires Faithful(log) && Ran(log, i) && Ran(log, k) && i < k
    ensures var p := StepUpFor(log, i);
            var q := StepUpFor(log, k);
            && p >= 0 && Passed(log, p) && q >= 0 && Passed(log, q)
            && var a := ChallengeFor(log, p);
               var b := ChallengeFor(log, q);
               a >= 0 && b >= 0 && a != b && a < i
               && log[a].Issued? && log[i].at < log[a].at + 240 * SECOND
  {
    GateSpendsStepUp(log, i);
    GateSpendsStepUp(log, k);
    StepUpsPayOnce(log, i, k);
    var p := StepUpFor(log, i);
    var q := StepUpFor(log, k);
    CeremonySpendsChallenge(log, p);
    CeremonySpendsChallenge(log, q);
    if p < q {
      ChallengesServeOnce(log, p, q);
    } else {
      ChallengesServeOnce(log, q, p);
    }
  }

  // ---------- Recovery codes ----------

  predicate Recovered(log: seq<Event>, i: nat) {
    i < |log| && log[i].Recovery? && log[i].ok
  }

  predicate Burnt(log: seq<Event>, i: nat) {
    i < |log| && log[i].Recovery? && log[i].burnt
  }

  /** The last minting. */
  function LastMint(log: seq<Event>): (j: int)
    ensures -1 <= j < |log|
    ensures j >= 0 ==> log[j].Minted?
    ensures forall k :: j < k < |log| ==> !log[k].Minted?
  {
    if log == [] then -1
    else if log[|log| - 1].Minted? then |log| - 1
    else LastMint(log[..|log| - 1])
  }

  /** A stored hash is that of the last code minted, not burnt since. */
  lemma {:induction false} StoredIsLastMint(log: seq<Event>)
    requires Stored(log).Some?
    ensures var j := LastMint(log);
            && j >= 0 && Stored(log) == Some(Hash(log[j].code))
            && forall k :: j < k < |log| ==> !Burnt(log, k)
    decreases |log|
  {
    var e := log[|log| - 1];
    var before := log[..|log| - 1];
    if !e.Minted? {
      StoredIsLastMint(before);
      forall k | LastMint(log) < k < |log|
        ensures !Burnt(log, k)
      {
        if k < |before| {
          assert !Burnt(before, k);
        }
      }
    }
  }

  function MintFor(log: seq<Event>, i: nat): int
    requires i < |log|
  {
    LastMint(log[..i])
  }

  /** Every recovery login used the last code minted before it ... */
  lemma RecoverySpendsMint(log: seq<Event>, i: nat)
    requires Faithful(log) && Recovered(log, i)
    ensures var j := MintFor(log, i);
            && 0 <= j < i && log[j] == Minted(log[i].code, log[j].at)
            && forall k :: j < k < i ==> !log[k].Minted? && !Burnt(log, k)
  {
    assert EntryOk(log[..i], log[i]);
    StoredIsLastMint(log[..i]);
    forall k | MintFor(log, i) < k < i
      ensures !log[k].Minted? && !Burnt(log, k)
    {
      assert log[..i][k] == log[k];
      assert !Burnt(log[..i], k);
    }
  }

  /** ... and no code logs in twice. */
  lemma MintsServeOnce(log: seq<Event>, i: nat, k: nat)
    requires Faithful(log) && Recovered(log, i) && Recovered(log, k) && i < k
    ensures MintFor(log, i) != MintFor(log, k)
  {
    RecoverySpendsMint(log, i);
    RecoverySpendsMint(log, k);
    assert EntryOk(log[..i], log[i]);
    assert Burnt(log, i);
  }

  /** A newly minted code makes every other code useless: from then on only it, or one minted later, can log in. */
  lemma RegeneratedKillsEarlier(log: seq<Event>, j: nat, i: nat)
    requires Faithful(log) && j < i && Recovered(log, i) && log[j].Minted?
    ensures exists k :: j <= k < i && log[k].Minted? && log[k].code == log[i].code
  {
    RecoverySpendsMint(log, i);
    var m := MintFor(log, i);
    assert m >= j && log[m].Minted? && log[m].code == log[i].code;
  }
}
