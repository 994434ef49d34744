/**
 Single-use expiring keys (ttlSet in internal/httpapi/authflow.go), behind ceremony challenges and
 step-up credits. The map with its opportunistic clean-up answers as a history without one would.
 */
module TtlSet {
  import opened Common

  // ---------- Histories ----------

  /** Clear is a daemon restart; Other is an event that does not touch the set. */
  datatype Op =
    | Grant(key: string, at: int)
    | Consume(key: string, at: int, ok: bool)
    | Clear(at: int)
    | Other(at: int)

  predicate On(op: Op, key: string) {
    op.Clear? || (!op.Other? && op.key == key)
  }

  /** Position of the last operation on a key, or -1. */
  function LastOn(h: seq<Op>, key: string): (i: int)
    ensures -1 <= i < |h|
    ensures i >= 0 ==> On(h[i], key)
    ensures forall j :: i < j < |h| ==> !On(h[j], key)
  {
    if h == [] then -1
    else if On(h[|h| - 1], key) then |h| - 1
    else LastOn(h[..|h| - 1], key)
  }

  /** A key is good when the last thing that happened to it is a grant less than ttl ago. */
  predicate Good(h: seq<Op>, key: string, now: int, ttl: int) {
    var i := LastOn(h, key);
    i >= 0 && h[i].Grant? && now < h[i].at + ttl
  }

  predicate Ordered(h: seq<Op>) {
    forall i, j :: 0 <= i < j < |h| ==> h[i].at <= h[j].at
  }

  /** Every consume in the history was answered as the history before it says. */
  predicate Answered(h: seq<Op>, ttl: int) {
    forall i :: 0 <= i < |h| && h[i].Consume? ==> (h[i].ok <==> Good(h[..i], h[i].key, h[i].at, ttl))
  }

  predicate After(h: seq<Op>, now: int) {
    h == [] || h[|h| - 1].at <= now
  }

  // ---------- The set ----------

  /** The map holds every grant nobody has consumed, but for some already expired ones. */
  ghost predicate Holds(m: map<string, int>, h: seq<Op>, ttl: int) {
    forall key :: HoldsKey(m, h, ttl, key)
  }

  predicate HoldsKey(m: map<string, int>, h: seq<Op>, ttl: int, key: string) {
    var i := LastOn(h, key);
    if i >= 0 && h[i].Grant? then
      if key in m then m[key] == h[i].at + ttl
      else h[i].at + ttl < h[|h| - 1].at
    else key !in m
  }

  lemma LastOnPush(h: seq<Op>, op: Op, key: string)
    ensures LastOn(h + [op], key) == if On(op, key) then |h| else LastOn(h, key)
  {
    assert (h + [op])[..|h|] == h;
  }

  /** Cleaning up keys that expired before now is invisible from now on. */
  lemma HoldsPush(m: map<string, int>, n: map<string, int>, h: seq<Op>, op: Op, ttl: int)
    requires Holds(m, h, ttl) && After(h, op.at)
    requires op.Grant? || op.Consume?
    requires forall key :: key != op.key ==>
               (if key in n then key in m && n[key] == m[key] else key in m ==> m[key] < op.at)
    requires if op.Grant? then op.key in n && n[op.key] == op.at + ttl else op.key !in n
    ensures Holds(n, h + [op], ttl)
  {
    forall key
      ensures HoldsKey(n, h + [op], ttl, key)
    {
      LastOnPush(h, op, key);
      assert HoldsKey(m, h, ttl, key);
    }
  }

  class TtlSet {
    const ttl: int
    var m: map<string, int>
    ghost var history: seq<Op>

    ghost predicate Valid()
      reads this
    {
      Holds(m, history, ttl) && Ordered(history) && Answered(history, ttl)
    }

    constructor (ttl: int)
      ensures Valid() && this.ttl == ttl && history == []
    {
      this.ttl := ttl;
      m := map[];
      history := [];
    }

    /** A set that starts empty after a restart, whatever was granted before it. */
    constructor Restarted(ttl: int, ghost past: seq<Op>, ghost now: int)
      requires Ordered(past) && Answered(past, ttl) && After(past, now)
      ensures Valid() && this.ttl == ttl && history == past + [Clear(now)]
    {
      this.ttl := ttl;
      m := map[];
      history := past + [Clear(now)];
      new;
      HistoryPush(past, Clear(now), ttl);
      forall key
        ensures HoldsKey(m, history, ttl, key)
      {
        LastOnPush(past, Clear(now), key);
      }
    }

    method Grant(key: string, now: int)
      requires Valid() && After(history, now)
      modifies this
      ensures Valid() && history == old(history) + [Op.Grant(key, now)]
    {
      var left := m.Keys;
      while left != {}
        invariant left <= old(m).Keys
        invariant forall k :: k in m ==> k in old(m) && m[k] == old(m)[k]
        invariant forall k :: k in old(m) && k !in m ==> old(m)[k] < now
        invariant forall k :: k in left ==> k in m
        invariant history == old(history)
        decreases |left|
      {
        var k :| k in left;
        if now > m[k] {
          m := m - {k};
        }
        left := left - {k};
      }
      m := m[key := now + ttl];
      HoldsPush(old(m), m, history, Op.Grant(key, now), ttl);
      HistoryPush(history, Op.Grant(key, now), ttl);
      history := history + [Op.Grant(key, now)];
    }

    /** Each entry answers once: exactly when the history says the key is good. */
    method Consume(key: string, now: int) returns (ok: bool)
      requires Valid() && After(history, now)
      modifies this
      ensures Valid() && history == old(history) + [Op.Consume(key, now, ok)]
      ensures ok <==> Good(old(history), key, now, ttl)
    {
      assert HoldsKey(m, history, ttl, key);
      ok := key in m && now < m[key];
      m := m - {key};
      HoldsPush(old(m), m, history, Op.Consume(key, now, ok), ttl);
      HistoryPush(history, Op.Consume(key, now, ok), ttl);
      history := history + [Op.Consume(key, now, ok)];
    }
  }

  lemma HistoryPush(h: seq<Op>, op: Op, ttl: int)
    requires Ordered(h) && Answered(h, ttl) && After(h, op.at)
    requires op.Consume? ==> (op.ok <==> Good(h, op.key, op.at, ttl))
    ensures Ordered(h + [op]) && Answered(h + [op], ttl)
  {
    var g := h + [op];
    forall i | 0 <= i < |g| && g[i].Consume?
      ensures g[i].ok <==> Good(g[..i], g[i].key, g[i].at, ttl)
    {
      if i < |h| {
        assert g[..i] == h[..i];
      } else {
        assert g[..i] == h;
      }
    }
  }

  // ---------- What a history of answers implies ----------

  /** The grant a successful consume used up. */
  function Source(h: seq<Op>, i: nat): int
    requires i < |h| && h[i].Consume?
  {
    LastOn(h[..i], h[i].key)
  }

  /** A success spends an earlier grant of the same key, less than ttl old, which nothing else touched since. */
  lemma SourceFacts(h: seq<Op>, ttl: int, i: nat)
    requires Answered(h, ttl) && i < |h| && h[i].Consume? && h[i].ok
    ensures var j := Source(h, i);
            && 0 <= j < i && h[j].Grant? && h[j].key == h[i].key && h[i].at < h[j].at + ttl
            && forall k :: j < k < i ==> !On(h[k], h[i].key)
  {
    assert Good(h[..i], h[i].key, h[i].at, ttl);
    var j := Source(h, i);
    forall k | j < k < i
      ensures !On(h[k], h[i].key)
    {
      assert h[..i][k] == h[k];
    }
  }

  /** No grant is spent twice. */
  lemma SourceInjective(h: seq<Op>, ttl: int, i: nat, k: nat)
    requires Answered(h, ttl) && i < k < |h|
    requires h[i].Consume? && h[i].ok && h[k].Consume? && h[k].ok
    ensures Source(h, i) != Source(h, k)
  {
    SourceFacts(h, ttl, i);
    SourceFacts(h, ttl, k);
  }

  function Grants(h: seq<Op>, key: string): nat {
    if h == [] then 0
    else Grants(h[..|h| - 1], key) + (if h[|h| - 1].Grant? && h[|h| - 1].key == key then 1 else 0)
  }

  function Successes(h: seq<Op>, key: string): nat {
    if h == [] then 0
    else Successes(h[..|h| - 1], key)
         + (if h[|h| - 1].Consume? && h[|h| - 1].ok && h[|h| - 1].key == key then 1 else 0)
  }

  /** Consumes of a key that succeed never outnumber its grants, in any history of answers. */
  lemma {:induction false} NeverMoreThanGranted(h: seq<Op>, ttl: int, key: string)
    requires Answered(h, ttl)
    ensures var i := LastOn(h, key);
            Successes(h, key) + (if i >= 0 && h[i].Grant? then 1 else 0) <= Grants(h, key)
    decreases |h|
  {
    hide Answered;
    if h != [] {
      var g := h[..|h| - 1];
      var op := h[|h| - 1];
      AnsweredPrefix(h, ttl);
      NeverMoreThanGranted(g, ttl, key);
      assert h == g + [op];
      LastOnPush(g, op, key);
    }
  }

  lemma AnsweredPrefix(h: seq<Op>, ttl: int)
    requires Answered(h, ttl) && h != []
    ensures var g := h[..|h| - 1];
            var op := h[|h| - 1];
            Answered(g, ttl) && (op.Consume? ==> (op.ok <==> Good(g, op.key, op.at, ttl)))
  {
    hide Good;
    var g := h[..|h| - 1];
    forall i | 0 <= i < |g| && g[i].Consume?
      ensures g[i].ok <==> Good(g[..i], g[i].key, g[i].at, ttl)
    {
      assert g[..i] == h[..i];
    }
  }

  // ---------- Events that do not touch the set ----------

  function Strip(h: seq<Op>): seq<Op> {
    if h == [] then []
    else Strip(h[..|h| - 1]) + (if h[|h| - 1].Other? then [] else [h[|h| - 1]])
  }

  /** Leaving out the events that do not touch the set changes no answer. */
  lemma {:induction false} StripKeeps(h: seq<Op>, key: string)
    ensures var i, j := LastOn(h, key), LastOn(Strip(h), key);
            (i < 0 <==> j < 0) && (i >= 0 ==> Strip(h)[j] == h[i])
    ensures forall now, ttl :: Good(Strip(h), key, now, ttl) <==> Good(h, key, now, ttl)
    decreases |h|
  {
    if h != [] {
      var g := h[..|h| - 1];
      var op := h[|h| - 1];
      StripKeeps(g, key);
      assert h == g + [op];
      if op.Other? {
        assert Strip(h) == Strip(g);
      } else {
        LastOnPush(Strip(g), op, key);
      }
    }
  }

  lemma StripPush(h: seq<Op>, op: Op)
    ensures Strip(h + [op]) == Strip(h) + (if op.Other? then [] else [op])
  {
    assert (h + [op])[..|h|] == h;
  }

  /** The last operation that touches the set is no later than the last event. */
  lemma {:induction false} StripAfter(h: seq<Op>, now: int)
    requires Ordered(h) && After(h, now)
    ensures After(Strip(h), now)
    decreases |h|
  {
    if h != [] {
      var g := h[..|h| - 1];
      if g != [] {
        assert g[|g| - 1] == h[|h| - 2];
      }
      StripAfter(g, now);
    }
  }
}
