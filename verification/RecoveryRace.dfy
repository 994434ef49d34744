/**
 Recovery logins at the granularity of the store's reads and writes (loginRecovery and
 recoveryRegenerate in internal/httpapi/authflow.go). A login reads the stored hash, compares, and only
 then deletes it; nothing holds the store in between, so requests overlap as they like.
 */
module RecoveryRace {
  import opened Common
  import A = AuthFlow
  import T = TtlSet

  /** `ok` of a read: the hash was that of the code. `ok` of a delete: a session was issued after it. */
  datatype Event =
    | Minted(code: string)
    | Matched(req: nat, code: string, ok: bool)
    | Finished(req: nat, deleted: bool, ok: bool)

  /** Something was written over the stored hash, or it was deleted. */
  predicate Moves(e: Event) {
    e.Minted? || (e.Finished? && e.deleted)
  }

  /** The hash the store holds before the n-th entry. */
  function Stored(log: seq<Event>, n: nat): Option<A.Hash>
    requires n <= |log|
  {
    if n == 0 then None
    else
      match log[n - 1]
      case Minted(code) => Some(A.Hash(code))
      case Matched(_, _, _) => Stored(log, n - 1)
      case Finished(_, deleted, _) => if deleted then None else Stored(log, n - 1)
  }

  /** Where, before the n-th entry, the request last read its own code's hash, or -1. */
  function ReadOf(log: seq<Event>, n: nat, req: nat): (r: int)
    requires n <= |log|
    ensures -1 <= r < n
    ensures r >= 0 ==> log[r].Matched? && log[r].ok && log[r].req == req
    ensures forall k :: r < k < n ==> !(log[k].Matched? && log[k].ok && log[k].req == req)
  {
    if n == 0 then -1
    else if log[n - 1].Matched? && log[n - 1].ok && log[n - 1].req == req then n - 1
    else ReadOf(log, n - 1, req)
  }

  predicate Ended(log: seq<Event>, n: nat, req: nat)
    requires n <= |log|
  {
    n > 0 && ((log[n - 1].Finished? && log[n - 1].req == req) || Ended(log, n - 1, req))
  }

  predicate Begun(log: seq<Event>, n: nat, req: nat)
    requires n <= |log|
  {
    n > 0 && ((log[n - 1].Matched? && log[n - 1].req == req) || Begun(log, n - 1, req))
  }

  /** The entry is what the handlers do after the entries before it. */
  predicate EntryOk(log: seq<Event>, i: nat)
    requires i < |log|
  {
    match log[i]
    case Minted(_) => true
    case Matched(req, code, ok) => !Begun(log, i, req) && (ok <==> code != "" && Stored(log, i) == Some(A.Hash(code)))
    case Finished(req, deleted, ok) => ReadOf(log, i, req) >= 0 && !Ended(log, i, req) && (ok ==> deleted)
  }

  predicate Faithful(log: seq<Event>) {
    forall i :: 0 <= i < |log| ==> EntryOk(log, i)
  }

  /** Tokens come fresh from the random source: no code is minted twice. */
  predicate Distinct(log: seq<Event>) {
    forall a, b :: 0 <= a < b < |log| && log[a].Minted? && log[b].Minted? ==> log[a].code != log[b].code
  }

  // ---------- The handlers ----------

  lemma {:induction false} StoredPush(log: seq<Event>, e: Event, n: nat)
    requires n <= |log|
    ensures Stored(log + [e], n) == Stored(log, n)
    decreases n
  {
    if n > 0 {
      StoredPush(log, e, n - 1);
    }
  }

  lemma {:induction false} RequestPush(log: seq<Event>, e: Event, n: nat, req: nat)
    requires n <= |log|
    ensures ReadOf(log + [e], n, req) == ReadOf(log, n, req)
    ensures Begun(log + [e], n, req) == Begun(log, n, req)
    ensures Ended(log + [e], n, req) == Ended(log, n, req)
    decreases n
  {
    if n > 0 {
      RequestPush(log, e, n - 1, req);
    }
  }

  lemma EntryPush(log: seq<Event>, e: Event, i: nat)
    requires i < |log|
    ensures EntryOk(log + [e], i) == EntryOk(log, i)
  {
    StoredPush(log, e, i);
    if !log[i].Minted? {
      RequestPush(log, e, i, log[i].req);
    }
  }

  lemma LogPush(log: seq<Event>, e: Event)
    requires Faithful(log) && EntryOk(log + [e], |log|)
    ensures Faithful(log + [e])
  {
    hide EntryOk;
    forall i | 0 <= i < |log| + 1
      ensures EntryOk(log + [e], i)
    {
      if i < |log| {
        EntryPush(log, e, i);
      }
    }
  }

  /** The server's stored hash, and the logins that have read it and not yet deleted it. */
  class Recovery {
    var stored: Option<A.Hash>
    var waiting: map<nat, string>
    ghost var log: seq<Event>

    ghost predicate Valid()
      reads this
    {
      && Faithful(log)
      && stored == Stored(log, |log|)
      && forall req :: InFlight(req)
    }

    /** A request waits with its code from its read to its delete. */
    ghost predicate InFlight(req: nat)
      reads this
    {
      && (req in waiting <==> ReadOf(log, |log|, req) >= 0 && !Ended(log, |log|, req))
      && (req in waiting ==> waiting[req] == log[ReadOf(log, |log|, req)].code)
    }

    constructor ()
      ensures Valid() && log == [] && stored == None && waiting == map[]
    {
      stored := None;
      waiting := map[];
      log := [];
    }

    /** The first registration, and recoveryRegenerate. */
    method Mint(code: string)
      requires Valid()
      modifies this
      ensures Valid()
      ensures log == old(log) + [Minted(code)] && stored == Some(A.Hash(code)) && waiting == old(waiting)
    {
      StoredPush(log, Minted(code), |log|);
      LogPush(log, Minted(code));
      stored := Some(A.Hash(code));
      log := log + [Minted(code)];
      forall q ensures InFlight(q) {
        assert old(InFlight(q));
        RequestPush(old(log), Minted(code), |old(log)|, q);
      }
    }

    /** A login up to the comparison. */
    method Match(req: nat, code: string) returns (ok: bool)
      requires Valid() && !Begun(log, |log|, req)
      modifies this
      ensures Valid()
      ensures ok <==> code != "" && old(stored) == Some(A.Hash(code))
      ensures log == old(log) + [Matched(req, code, ok)] && stored == old(stored)
      ensures waiting == if ok then old(waiting)[req := code] else old(waiting)
    {
      ok := code != "" && stored == Some(A.Hash(code));
      ghost var e := Matched(req, code, ok);
      StoredPush(log, e, |log|);
      RequestPush(log, e, |log|, req);
      LogPush(log, e);
      if ok {
        waiting := waiting[req := code];
      }
      log := log + [e];
      forall q ensures InFlight(q) {
        assert old(InFlight(q));
        RequestPush(old(log), e, |old(log)|, q);
        if q == req {
          EndedWasBegun(old(log), |old(log)|, req);
        }
      }
    }

    /** The rest of it: the delete, which also succeeds when the hash is gone, and the session. */
    method Finish(req: nat, deleted: bool, issued: bool) returns (ok: bool)
      requires Valid() && req in waiting
      modifies this
      ensures Valid()
      ensures ok <==> deleted && issued
      ensures log == old(log) + [Finished(req, deleted, ok)]
      ensures stored == (if deleted then None else old(stored)) && waiting == old(waiting) - {req}
    {
      ok := deleted && issued;
      ghost var e := Finished(req, deleted, ok);
      assert InFlight(req);
      RequestPush(log, e, |log|, req);
      StoredPush(log, e, |log|);
      LogPush(log, e);
      if deleted {
        stored := None;
      }
      waiting := waiting - {req};
      log := log + [e];
      forall q ensures InFlight(q) {
        assert old(InFlight(q));
        RequestPush(old(log), e, |old(log)|, q);
      }
    }
  }

  /** Only requests that have read end. */
  lemma {:induction false} EndedWasBegun(log: seq<Event>, n: nat, req: nat)
    requires Faithful(log) && n <= |log|
    ensures Ended(log, n, req) ==> Begun(log, n, req)
    decreases n
  {
    if n > 0 {
      EndedWasBegun(log, n - 1, req);
      if log[n - 1].Finished? && log[n - 1].req == req {
        assert EntryOk(log, n - 1);
        ReadWasBegun(log, n - 1, req);
      }
    }
  }

  lemma {:induction false} ReadWasBegun(log: seq<Event>, n: nat, req: nat)
    requires n <= |log|
    ensures ReadOf(log, n, req) >= 0 ==> Begun(log, n, req)
    decreases n
  {
    if n > 0 {
      ReadWasBegun(log, n - 1, req);
    }
  }

  // ---------- One code, many logins ----------

  predicate LogsIn(log: seq<Event>, i: nat) {
    i < |log| && log[i].Finished? && log[i].ok
  }

  /** Where a request that finishes at i had read the hash. */
  function ReadAt(log: seq<Event>, i: nat): (r: nat)
    requires Faithful(log) && i < |log| && log[i].Finished?
    ensures r < i && log[r].Matched? && log[r].ok && log[r].req == log[i].req
  {
    assert EntryOk(log, i);
    ReadOf(log, i, log[i].req)
  }

  function CodeOf(log: seq<Event>, i: nat): string
    requires Faithful(log) && i < |log| && log[i].Finished?
  {
    log[ReadAt(log, i)].code
  }

  predicate Unmoved(log: seq<Event>, a: nat, b: nat) {
    forall k :: a < k < b && k < |log| ==> !Moves(log[k])
  }

  /** A hash that is stored was minted, and nothing has moved since. */
  lemma {:induction false} StoredWasMinted(log: seq<Event>, n: nat, code: string) returns (m: nat)
    requires n <= |log| && Stored(log, n) == Some(A.Hash(code))
    ensures m < n && log[m] == Minted(code) && Unmoved(log, m, n)
    decreases n
  {
    if log[n - 1].Minted? {
      m := n - 1;
    } else {
      m := StoredWasMinted(log, n - 1, code);
    }
  }

  lemma {:induction false} StoredStays(log: seq<Event>, a: nat, b: nat)
    requires a <= b <= |log| && forall k :: a <= k < b ==> !Moves(log[k])
    ensures Stored(log, b) == Stored(log, a)
    decreases b
  {
    if a < b {
      StoredStays(log, a, b - 1);
    }
  }

  /** Every read that matches a code comes after its minting and before the hash next moves. */
  lemma ReadsBeforeMove(log: seq<Event>, m: nat, j: nat, r: nat)
    requires Faithful(log) && Distinct(log)
    requires m < j < |log| && log[m].Minted? && Moves(log[j])
    requires r < |log| && log[r].Matched? && log[r].ok && log[r].code == log[m].code
    ensures m < r < j
  {
    assert EntryOk(log, r);
    var n := StoredWasMinted(log, r, log[r].code);
    assert n == m by {
      assert log[n].Minted? && log[n].code == log[m].code;
    }
  }

  /** The mint behind a login. */
  lemma LoginWasMinted(log: seq<Event>, i: nat) returns (m: nat)
    requires Faithful(log) && LogsIn(log, i)
    ensures m < ReadAt(log, i) && log[m] == Minted(CodeOf(log, i))
  {
    var r := ReadAt(log, i);
    assert EntryOk(log, r);
    m := StoredWasMinted(log, r, log[r].code);
  }

  /** Two logins with one code both read the hash before either deleted it. */
  lemma SameCodeOverlaps(log: seq<Event>, i: nat, k: nat)
    requires Faithful(log) && Distinct(log) && i < k && LogsIn(log, i) && LogsIn(log, k)
    requires CodeOf(log, i) == CodeOf(log, k)
    ensures ReadAt(log, i) < i && ReadAt(log, k) < i
  {
    var m := LoginWasMinted(log, i);
    assert EntryOk(log, i);
    ReadsBeforeMove(log, m, i, ReadAt(log, k));
  }

  ghost predicate ServesOnce(log: seq<Event>, code: string)
    requires Faithful(log)
  {
    forall i, k :: 0 <= i < k && LogsIn(log, i) && LogsIn(log, k) && CodeOf(log, i) == code ==> CodeOf(log, k) != code
  }

  /** No two logins with the code both read the hash before either deleted it. */
  ghost predicate NeverOverlap(log: seq<Event>, code: string)
    requires Faithful(log)
  {
    forall i, k :: 0 <= i < k && LogsIn(log, i) && LogsIn(log, k) && CodeOf(log, i) == code && CodeOf(log, k) == code
                   ==> ReadAt(log, k) > i
  }

  /** A code logs in at most once if and only if no two of its logins overlap between read and delete. */
  lemma ServesOnceExactly(log: seq<Event>, code: string)
    requires Faithful(log) && Distinct(log)
    ensures ServesOnce(log, code) <==> NeverOverlap(log, code)
  {
    forall i, k | 0 <= i < k && LogsIn(log, i) && LogsIn(log, k) && CodeOf(log, i) == code && CodeOf(log, k) == code
      ensures ReadAt(log, k) < i
    {
      SameCodeOverlaps(log, i, k);
    }
  }

  /** After a new code is minted, a login with an older one must have read the hash before. */
  lemma OldCodeReadEarly(log: seq<Event>, j: nat, i: nat)
    requires Faithful(log) && Distinct(log) && j < i && LogsIn(log, i) && log[j].Minted?
    requires forall k :: j <= k < |log| && log[k].Minted? ==> log[k].code != CodeOf(log, i)
    ensures ReadAt(log, i) < j
  {
    var m := LoginWasMinted(log, i);
    assert m < j;
    ReadsBeforeMove(log, m, j, ReadAt(log, i));
  }

  // ---------- When a login is one step ----------

  /** Nothing moves the hash between a login's read and its delete. */
  ghost predicate Unraced(log: seq<Event>)
    requires Faithful(log)
  {
    forall i :: 0 <= i < |log| && log[i].Finished? && log[i].deleted ==> Unmoved(log, ReadAt(log, i), i)
  }

  /** Every delete burns the code its request showed, and no other. */
  ghost predicate BurnsOwn(log: seq<Event>)
    requires Faithful(log)
  {
    forall i :: 0 <= i < |log| && log[i].Finished? && log[i].deleted ==> Stored(log, i) == Some(A.Hash(CodeOf(log, i)))
  }

  lemma MovedAway(log: seq<Event>, m: nat, k: nat, i: nat)
    requires Distinct(log) && m < k < i <= |log| && log[m].Minted? && Moves(log[k])
    ensures Stored(log, i) != Some(A.Hash(log[m].code))
  {
    if Stored(log, i) == Some(A.Hash(log[m].code)) {
      var n := StoredWasMinted(log, i, log[m].code);
      assert false;
    }
  }

  /** A login burns exactly the code it was shown if and only if nothing moved the hash since its read. */
  lemma BurnsOwnExactly(log: seq<Event>)
    requires Faithful(log) && Distinct(log)
    ensures BurnsOwn(log) <==> Unraced(log)
  {
    forall i | 0 <= i < |log| && log[i].Finished? && log[i].deleted
      ensures Stored(log, i) == Some(A.Hash(CodeOf(log, i))) <==> Unmoved(log, ReadAt(log, i), i)
    {
      var r := ReadAt(log, i);
      assert EntryOk(log, r);
      if Unmoved(log, r, i) {
        assert !Moves(log[r]);
        StoredStays(log, r, i);
      } else {
        var k :| r < k < i && Moves(log[k]);
        var m := StoredWasMinted(log, r, log[r].code);
        MovedAway(log, m, k, i);
      }
    }
  }

  /** The log with each login as the one entry it is in AuthFlow, at its delete. */
  function Whole(log: seq<Event>): seq<A.Event>
    requires Faithful(log)
  {
    seq(|log|, i requires 0 <= i < |log| => WholeEntry(log, i))
  }

  function WholeEntry(log: seq<Event>, i: nat): A.Event
    requires Faithful(log) && i < |log|
  {
    match log[i]
    case Minted(code) => A.Minted(code, i)
    case Matched(_, code, _) => A.Recovery(code, i, false, false)
    case Finished(_, deleted, ok) => A.Recovery(CodeOf(log, i), i, deleted, ok)
  }

  lemma {:induction false} WholeStored(log: seq<Event>, n: nat)
    requires Faithful(log) && n <= |log|
    ensures A.Stored(Whole(log)[..n]) == Stored(log, n)
    decreases n
  {
    if n > 0 {
      WholeStored(log, n - 1);
      assert Whole(log)[..n][..n - 1] == Whole(log)[..n - 1];
      assert Whole(log)[..n][n - 1] == WholeEntry(log, n - 1);
    }
  }

  /** A run in which nothing moves the hash under a login is a run of AuthFlow's atomic logins. */
  lemma UnracedIsAtomic(log: seq<Event>)
    requires Faithful(log) && Distinct(log) && Unraced(log)
    ensures A.Faithful(Whole(log))
    ensures forall i: nat :: LogsIn(log, i) ==> A.Recovered(Whole(log), i) && Whole(log)[i].code == CodeOf(log, i)
  {
    BurnsOwnExactly(log);
    var whole := Whole(log);
    forall i | 0 <= i < |whole|
      ensures A.EntryOk(whole[..i], whole[i])
    {
      WholeStored(log, i);
      assert EntryOk(log, i);
      if log[i].Finished? {
        assert EntryOk(log, ReadAt(log, i));
      }
    }
    assert forall i :: 0 <= i < |whole| ==> A.Challenges(whole)[i] == T.Other(i) && A.StepUps(whole)[i] == T.Other(i);
  }

  // ---------- The races ----------

  lemma {:induction false} NoneEnded(log: seq<Event>, n: nat)
    requires n <= |log| && forall k :: 0 <= k < n ==> !log[k].Finished?
    ensures forall req :: !Ended(log, n, req)
    decreases n
  {
    if n > 0 {
      NoneEnded(log, n - 1);
    }
  }

  /** Two requests with one code, both answered with a session. */
  lemma TwoLoginsOneCode(code: string)
    requires code != ""
    ensures var log := [Minted(code), Matched(1, code, true), Matched(2, code, true), Finished(1, true, true), Finished(2, true, true)];
            Faithful(log) && Distinct(log) && LogsIn(log, 3) && LogsIn(log, 4) && CodeOf(log, 3) == code && CodeOf(log, 4) == code
  {
    var log := [Minted(code), Matched(1, code, true), Matched(2, code, true), Finished(1, true, true), Finished(2, true, true)];
    assert Stored(log, 1) == Some(A.Hash(code)) && Stored(log, 2) == Some(A.Hash(code));
    NoneEnded(log, 3);
    assert log[1].req == 1 && !Begun(log, 0, 2) && !Begun(log, 1, 2) && !Begun(log, 2, 2);
    assert ReadOf(log, 2, 1) == 1 && ReadOf(log, 3, 1) == 1 && ReadOf(log, 4, 2) == 2;
    assert EntryOk(log, 0) && EntryOk(log, 1) && EntryOk(log, 2) && EntryOk(log, 3) && EntryOk(log, 4);
  }

  /** A login with the old code, finishing after a new one was minted, burns the new one unused. */
  lemma NewCodeBurntUnused(code: string, newer: string)
    requires code != "" && newer != code
    ensures var log := [Minted(code), Matched(1, code, true), Minted(newer), Finished(1, true, true)];
            Faithful(log) && Distinct(log) && CodeOf(log, 3) == code && Stored(log, 3) == Some(A.Hash(newer)) && Stored(log, 4) == None
  {
    var log := [Minted(code), Matched(1, code, true), Minted(newer), Finished(1, true, true)];
    assert Stored(log, 1) == Some(A.Hash(code));
    NoneEnded(log, 3);
    assert ReadOf(log, 2, 1) == 1 && ReadOf(log, 3, 1) == 1;
    assert EntryOk(log, 0) && EntryOk(log, 1) && EntryOk(log, 2) && EntryOk(log, 3);
  }
}
