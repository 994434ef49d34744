/**
 Browser sessions: the stored record "<issued>|<seen>" (internal/store/store.go) and the policy over
 it (sessionValid in internal/httpapi/authflow.go). Clock times are nanoseconds since the epoch;
 the record keeps whole seconds.
 */
module Sessions {
  import opened Common
  import opened GoStrings

  const IDLE: nat := 15 * 60 * SECOND
  const ABSOLUTE: nat := 12 * 3600 * SECOND
  const BUMP_MIN: nat := 30 * SECOND

  // ---------- The record as text ----------

  /** Times are written as decimal seconds, which stands for RFC 3339: a text without '|' that reads back. */
  function Read(s: string): Option<nat> {
    if s == "" || exists i :: 0 <= i < |s| && !IsDigit(s[i]) then None else Some(Number(s))
  }

  /** bytesCut */
  method BytesCut(s: string, sep: char) returns (before: string, after: string, found: bool)
    ensures Cut(s, sep) == if found then Some((before, after)) else None
  {
    for i := 0 to |s|
      invariant sep !in s[..i]
    {
      if s[i] == sep {
        assert s == s[..i] + [sep] + s[i + 1..];
        CutAt(s[..i], s[i + 1..], sep);
        return s[..i], s[i + 1..], true;
      }
      assert s[..i + 1] == s[..i] + [s[i]];
    }
    assert s[..|s|] == s;
    return s, "", false;
  }

  // ---------- Times as stored ----------

  function Trunc(t: nat): (s: nat)
    ensures s <= t < s + SECOND
  {
    t / SECOND * SECOND
  }

  /** What the store knows of one token; both times are whole seconds. */
  datatype Session = Session(issued: nat, seen: nat)

  function Encode(issued: nat, seen: nat): string {
    Decimal(issued / SECOND) + "|" + Decimal(seen / SECOND)
  }

  function Decode(v: string): Option<Session> {
    match Cut(v, '|')
    case None => None
    case Some((a, b)) =>
      match (Read(a), Read(b))
      case (Some(i), Some(s)) => Some(Session(i * SECOND, s * SECOND))
      case _ => None
  }

  /** A stored session reads back with both times truncated, and nothing else lost. */
  lemma RecordRoundTrip(issued: nat, seen: nat)
    ensures Decode(Encode(issued, seen)) == Some(Session(Trunc(issued), Trunc(seen)))
  {
    var a := Decimal(issued / SECOND);
    var b := Decimal(seen / SECOND);
    CutAt(a, b, '|');
    assert Encode(issued, seen) == a + ['|'] + b;
    DecimalReads(issued / SECOND);
    DecimalReads(seen / SECOND);
  }

  /** Bumping keeps the issue time as it stands in the record. */
  lemma BumpedRecord(issued: nat, seen: nat, now: nat)
    ensures var cut := Cut(Encode(issued, seen), '|');
            cut.Some? && Decode(cut.value.0 + "|" + Decimal(now / SECOND)) == Some(Session(Trunc(issued), Trunc(now)))
  {
    CutAt(Decimal(issued / SECOND), Decimal(seen / SECOND), '|');
    assert Encode(issued, seen) == Decimal(issued / SECOND) + ['|'] + Decimal(seen / SECOND);
    RecordRoundTrip(issued, now);
  }

  // ---------- The policy ----------

  predicate Expired(s: Session, now: nat) {
    now > s.seen + IDLE || now > s.issued + ABSOLUTE
  }

  predicate Bumps(s: Session, now: nat, slide: bool) {
    slide && now > s.seen + BUMP_MIN
  }

  /** What becomes of one token. stored says whether the write succeeds. */
  datatype Event =
    | Login(at: nat)
    | Check(at: nat, slide: bool, stored: bool)
    | Logout(at: nat)

  function Accepts(s: Option<Session>, now: nat): bool {
    s.Some? && !Expired(s.value, now)
  }

  function Next(s: Option<Session>, e: Event): Option<Session> {
    match e
    case Login(t) => Some(Session(Trunc(t), Trunc(t)))
    case Logout(_) => None
    case Check(t, slide, stored) =>
      if s.None? then None
      else if Expired(s.value, t) then if stored then None else s
      else if Bumps(s.value, t, slide) && stored then Some(s.value.(seen := Trunc(t)))
      else s
  }

  function After(s: Option<Session>, es: seq<Event>): Option<Session>
    decreases |es|
  {
    if es == [] then s else After(Next(s, es[0]), es[1..])
  }

  // ---------- The store, and sessionValid over it ----------

  class Store {
    var sessions: map<string, string>

    constructor ()
      ensures sessions == map[]
    {
      sessions := map[];
    }

    ghost function Known(token: string): Option<Session>
      reads this
    {
      if token != "" && token in sessions then Decode(sessions[token]) else None
    }

    /** Every record was written by PutSession or BumpSession. */
    ghost predicate Valid()
      reads this
    {
      forall t :: t in sessions ==> exists issued: nat, seen: nat :: sessions[t] == Encode(issued, seen)
    }

    method PutSession(token: string, issued: nat, seen: nat)
      requires Valid()
      modifies this
      ensures Valid() && sessions == old(sessions)[token := Encode(issued, seen)]
      ensures token != "" ==> Known(token) == Some(Session(Trunc(issued), Trunc(seen)))
    {
      sessions := sessions[token := Encode(issued, seen)];
      RecordRoundTrip(issued, seen);
    }

    method GetSession(token: string) returns (s: Option<Session>)
      ensures s == Known(token)
    {
      if token == "" || token !in sessions {
        return None;
      }
      var i, r, found := BytesCut(sessions[token], '|');
      if !found {
        return None;
      }
      var issued := Read(i);
      var seen := Read(r);
      if issued.None? || seen.None? {
        return None;
      }
      return Some(Session(issued.value * SECOND, seen.value * SECOND));
    }

    /** Slides an existing record, and does not bring back one that is gone. */
    method BumpSession(token: string, seen: nat)
      requires Valid() && token != ""
      modifies this
      ensures Valid()
      ensures token !in old(sessions) ==> sessions == old(sessions)
      ensures token in old(sessions) ==>
                && sessions.Keys == old(sessions.Keys)
                && (forall t :: t in sessions && t != token ==> sessions[t] == old(sessions)[t])
                && old(Known(token)).Some?
                && Known(token) == Some(old(Known(token)).value.(seen := Trunc(seen)))
    {
      if token !in sessions {
        return;
      }
      ghost var i0: nat, s0: nat :| sessions[token] == Encode(i0, s0);
      BumpedRecord(i0, s0, seen);
      RecordRoundTrip(i0, s0);
      CutAt(Decimal(i0 / SECOND), Decimal(s0 / SECOND), '|');
      assert sessions[token] == Decimal(i0 / SECOND) + ['|'] + Decimal(s0 / SECOND);
      var issued, _, found := BytesCut(sessions[token], '|');
      if found {
        var val := issued + "|" + Decimal(seen / SECOND);
        assert val == Encode(i0, seen);
        sessions := sessions[token := val];
      }
    }

    method DeleteSession(token: string)
      requires Valid()
      modifies this
      ensures Valid() && sessions == old(sessions) - {token}
    {
      sessions := sessions - {token};
    }

    /** sessionValid. A failing write is ignored. */
    method SessionValid(token: string, slide: bool, now: nat, stored: bool) returns (ok: bool)
      requires Valid()
      modifies this
      ensures Valid()
      ensures ok == Accepts(old(Known(token)), now)
      ensures ok <==> old(Known(token)).Some? && now <= old(Known(token)).value.seen + 900 * SECOND
                      && now <= old(Known(token)).value.issued + 12 * 3600 * SECOND
      ensures ok ==> var s := old(Known(token)).value;
                     Known(token) == Some(s.(seen := if slide && stored && now > s.seen + 30 * SECOND then Trunc(now) else s.seen))
      ensures !ok ==> Known(token) == if stored then None else old(Known(token))
      ensures Known(token) == Next(old(Known(token)), Check(now, slide, stored))
      ensures forall t :: t != token ==> Known(t) == old(Known(t))
    {
      hide Decode, Encode;
      var s := GetSession(token);
      if s.None? {
        return false;
      }
      var session := s.value;
      if now > session.seen + IDLE || now > session.issued + ABSOLUTE {
        if stored {
          DeleteSession(token);
        }
        return false;
      }
      if slide && now > session.seen + BUMP_MIN {
        if stored {
          BumpSession(token, now);
        }
      }
      return true;
    }
  }

  // ---------- An accepted check is recent ----------

  /** A login, or a check that may slide: what counts as the user being there. */
  predicate Active(e: Event) {
    e.Login? || (e.Check? && e.slide)
  }

  /** The stored times come from a login of this token, and from an active event no older than it. */
  ghost predicate Explained(es: seq<Event>, s: Session) {
    && (exists i :: 0 <= i < |es| && es[i].Login? && s.issued == Trunc(es[i].at))
    && (exists i :: 0 <= i < |es| && Active(es[i]) && s.seen == Trunc(es[i].at))
  }

  lemma {:induction false} AlwaysExplained(es: seq<Event>)
    ensures var s := After(None, es); s.Some? ==> Explained(es, s.value)
    decreases |es|
  {
    if es != [] {
      var before := es[..|es| - 1];
      var e := es[|es| - 1];
      AlwaysExplained(before);
      assert es == before + [e];
      AfterLast(None, before, e);
      var s := After(None, before);
      if s.Some? {
        var i :| 0 <= i < |before| && before[i].Login? && s.value.issued == Trunc(before[i].at);
        var j :| 0 <= j < |before| && Active(before[j]) && s.value.seen == Trunc(before[j].at);
        assert es[i] == before[i] && es[j] == before[j];
      }
      assert es[|es| - 1] == e;
    }
  }

  lemma {:induction false} AfterLast(s: Option<Session>, es: seq<Event>, e: Event)
    ensures After(s, es + [e]) == Next(After(s, es), e)
    decreases |es|
  {
    if es == [] {
      assert es + [e] == [e] && [e][1..] == [];
    } else {
      assert (es + [e])[1..] == es[1..] + [e];
      AfterLast(Next(s, es[0]), es[1..], e);
    }
  }

  /**
   Whatever happened before, a check accepted at t means a login at or after t - 12h, and a login or
   sliding request in the 15 minutes up to t.
   */
  lemma AcceptedIsRecent(es: seq<Event>, now: nat)
    requires forall i :: 0 <= i < |es| ==> es[i].at <= now
    requires Accepts(After(None, es), now)
    ensures exists i :: 0 <= i < |es| && es[i].Login? && now - 12 * 3600 * SECOND <= es[i].at <= now
    ensures exists i :: 0 <= i < |es| && Active(es[i]) && now - 900 * SECOND <= es[i].at <= now
  {
    AlwaysExplained(es);
    var s := After(None, es).value;
    var i :| 0 <= i < |es| && es[i].Login? && s.issued == Trunc(es[i].at);
    var j :| 0 <= j < |es| && Active(es[j]) && s.seen == Trunc(es[j].at);
    assert now - ABSOLUTE <= es[i].at <= now;
    assert now - IDLE <= es[j].at <= now;
  }

  // ---------- A session in use stays ----------

  /** Time of the last active event, starting from a login at the given time. */
  function LastActive(login: nat, es: seq<Event>): nat {
    if es == [] then login
    else if Active(es[|es| - 1]) then es[|es| - 1].at
    else LastActive(login, es[..|es| - 1])
  }

  /** Each check comes soon enough after the last active one, and within the day's cap. */
  predicate InUse(login: nat, es: seq<Event>) {
    forall i :: 0 <= i < |es| ==> es[i].Check? && es[i].stored && Timely(login, es[..i], es[i].at)
  }

  predicate Timely(login: nat, before: seq<Event>, now: nat) {
    && LastActive(login, before) <= now <= LastActive(login, before) + 870 * SECOND
    && now <= login + 12 * 3600 * SECOND - SECOND
  }

  /** The record of a session in use: issued at login, and seen at most 30 s behind. */
  predicate Fresh(login: nat, last: nat, s: Option<Session>) {
    s.Some? && s.value.issued == Trunc(login) && last <= s.value.seen + BUMP_MIN
  }

  lemma {:induction false} InUseStaysFresh(login: nat, es: seq<Event>)
    requires InUse(login, es)
    ensures Fresh(login, LastActive(login, es), After(Next(None, Login(login)), es))
    decreases |es|
  {
    var start := Next(None, Login(login));
    if es != [] {
      var before := es[..|es| - 1];
      var e := es[|es| - 1];
      assert es == before + [e];
      forall i | 0 <= i < |before|
        ensures before[i].Check? && before[i].stored && Timely(login, before[..i], before[i].at)
      {
        assert before[..i] == es[..i];
      }
      InUseStaysFresh(login, before);
      AfterLast(start, before, e);
      assert Timely(login, es[..|es| - 1], e.at);
    }
  }

  /**
   The converse: with no logout and no store failure, a session checked often enough - each check
   within 15 min - 30 s of the last login or sliding request, and at most 12 h - 1 s after login -
   is accepted every time.
   */
  lemma InUseIsAccepted(login: nat, es: seq<Event>, now: nat)
    requires InUse(login, es) && Timely(login, es, now)
    ensures Accepts(After(Next(None, Login(login)), es), now)
  {
    InUseStaysFresh(login, es);
  }

  /** The 30 seconds are really lost: a sliding request half a minute after login is not written down. */
  lemma ThrottleCosts(login: nat, now: nat)
    requires login % SECOND == 0 && login + 900 * SECOND < now <= login + 930 * SECOND
    ensures var slid := After(Next(None, Login(login)), [Check(login + 30 * SECOND, true, true)]);
            Accepts(Next(None, Login(login)), login + 30 * SECOND) && !Accepts(slid, now)
  {
    var es := [Check(login + 30 * SECOND, true, true)];
    assert es[1..] == [];
    assert Trunc(login) == login;
  }

  /** And so is up to a second of the day: a login late in a second is stored as its beginning. */
  lemma TruncationCosts(login: nat, now: nat)
    requires Trunc(login) + 12 * 3600 * SECOND < now <= login + 12 * 3600 * SECOND
    ensures forall seen :: !Accepts(Some(Session(Trunc(login), seen)), now)
  {
  }

  // ---------- Passive checks ----------

  function WithoutPassive(es: seq<Event>): seq<Event> {
    if es == [] then []
    else (if es[0].Check? && !es[0].slide then [] else [es[0]]) + WithoutPassive(es[1..])
  }

  /** The same session, except that one side may already have dropped it for being expired. */
  predicate Alike(full: Option<Session>, lean: Option<Session>, now: nat) {
    full == lean || (full.None? && lean.Some? && Expired(lean.value, now))
                 || (lean.None? && full.Some? && Expired(full.value, now))
  }

  lemma AlikeStep(full: Option<Session>, lean: Option<Session>, e: Event, now: nat)
    requires Alike(full, lean, now) && now <= e.at
    ensures Alike(Next(full, e), Next(lean, e), e.at)
    ensures e.Check? && !e.slide ==> Alike(Next(full, e), lean, e.at)
  {
  }

  predicate Sorted(es: seq<Event>, from: nat) {
    es == [] || (from <= es[0].at && Sorted(es[1..], es[0].at))
  }

  function EndAt(es: seq<Event>, from: nat): nat {
    if es == [] then from else EndAt(es[1..], es[0].at)
  }

  lemma {:induction false} PassiveRun(full: Option<Session>, lean: Option<Session>, es: seq<Event>, now: nat)
    requires Alike(full, lean, now) && Sorted(es, now)
    ensures Alike(After(full, es), After(lean, WithoutPassive(es)), EndAt(es, now))
    decreases |es|
  {
    hide Alike, Next;
    if es != [] {
      var e := es[0];
      AlikeStep(full, lean, e, now);
      if e.Check? && !e.slide {
        assert WithoutPassive(es) == WithoutPassive(es[1..]);
        PassiveRun(Next(full, e), lean, es[1..], e.at);
      } else {
        PassiveRun(Next(full, e), Next(lean, e), es[1..], e.at);
        assert WithoutPassive(es)[0] == e && WithoutPassive(es)[1..] == WithoutPassive(es[1..]);
      }
    }
  }

  /**
   Passive checks never prolong a session, nor end one early: leaving them all out changes no later
   answer.
   */
  lemma PassiveInvisible(es: seq<Event>, now: nat)
    requires Sorted(es, 0) && EndAt(es, 0) <= now
    ensures Accepts(After(None, es), now) <==> Accepts(After(None, WithoutPassive(es)), now)
  {
    hide Alike, Accepts, After, WithoutPassive, Sorted, EndAt;
    NoneAlike();
    PassiveRun(None, None, es, 0);
    AlikeAccepts(After(None, es), After(None, WithoutPassive(es)), EndAt(es, 0), now);
  }

  lemma NoneAlike()
    ensures Alike(None, None, 0)
  {
  }

  lemma AlikeAccepts(full: Option<Session>, lean: Option<Session>, at: nat, now: nat)
    requires Alike(full, lean, at) && at <= now
    ensures Accepts(full, now) <==> Accepts(lean, now)
  {
  }
}
