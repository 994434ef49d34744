/**
 The local DNS stub (internal/dns/forwarder.go): framed queries on a stream, each answered by the
 upstream or by a synthesized SERVFAIL. Section 4.2.2 of RFC 1035 gives the framing, section 4.1.1
 the header.
 */
module Forwarder {
  import opened Common
  import opened Octets

  const MAX_MSG := 4096
  const HEADER := 12

  // ---------- The header ----------

  predicate HasHeader(m: Bytes) {
    |m| >= HEADER
  }

  function Id(m: Bytes): Bytes
    requires HasHeader(m)
  {
    m[..2]
  }

  function Qr(m: Bytes): bool
    requires HasHeader(m)
  {
    Bits(m[2]) & 0x80 != 0
  }

  function Opcode(m: Bytes): bv8
    requires HasHeader(m)
  {
    (Bits(m[2]) >> 3) & 0x0F
  }

  function Aa(m: Bytes): bool
    requires HasHeader(m)
  {
    Bits(m[2]) & 0x04 != 0
  }

  function Tc(m: Bytes): bool
    requires HasHeader(m)
  {
    Bits(m[2]) & 0x02 != 0
  }

  function Rd(m: Bytes): bool
    requires HasHeader(m)
  {
    Bits(m[2]) & 0x01 != 0
  }

  function Rcode(m: Bytes): bv8
    requires HasHeader(m)
  {
    Bits(m[3]) & 0x0F
  }

  /** RA and the reserved bits. */
  function Upper(m: Bytes): bv8
    requires HasHeader(m)
  {
    Bits(m[3]) & 0xF0
  }

  /** Counts, question and whatever follows. */
  function Body(m: Bytes): Bytes
    requires HasHeader(m)
  {
    m[4..]
  }

  function ServfailOf(q: Bytes): (r: Bytes)
    requires HasHeader(q)
    ensures |r| == |q|
  {
    q[2 := Octet((Bits(q[2]) | 0x80) & !0x06)][3 := Octet((Bits(q[3]) & !0x0F) | 0x02)]
  }

  /** A SERVFAIL is the query turned into a response, told apart only by QR, AA, TC and RCODE. */
  lemma ServfailMeans(q: Bytes)
    requires HasHeader(q)
    ensures var r := ServfailOf(q);
            && HasHeader(r) && Qr(r) && Rcode(r) == 2 && !Aa(r) && !Tc(r)
            && Id(r) == Id(q) && Opcode(r) == Opcode(q) && Rd(r) == Rd(q) && Upper(r) == Upper(q)
            && Body(r) == Body(q)
  {
    var r := ServfailOf(q);
    FlagBits(Bits(q[2]));
    RcodeBits(Bits(q[3]));
    OctetBits((Bits(q[2]) | 0x80) & !0x06);
    OctetBits((Bits(q[3]) & !0x0F) | 0x02);
    assert r[..2] == q[..2] && r[4..] == q[4..];
  }

  lemma FlagBits(b: bv8)
    ensures var c := (b | 0x80) & !0x06;
            && c & 0x80 != 0 && c & 0x04 == 0 && c & 0x02 == 0
            && (c >> 3) & 0x0F == (b >> 3) & 0x0F && c & 0x01 == b & 0x01
  {
  }

  lemma RcodeBits(b: bv8)
    ensures var c := (b & !0x0F) | 0x02; c & 0x0F == 2 && c & 0xF0 == b & 0xF0
  {
  }

  method Servfail(q: Bytes) returns (r: Bytes)
    requires HasHeader(q)
    ensures r == ServfailOf(q)
  {
    var a := new Byte[|q|](i requires 0 <= i < |q| => q[i]);
    a[2] := Octet((Bits(a[2]) | 0x80) & !0x06);
    a[3] := Octet((Bits(a[3]) & !0x0F) | 0x02);
    r := a[..];
  }

  // ---------- One query ----------

  /** What comes back from the upstream: no response at all, or a status and as much of a body as could be read. */
  datatype Upstream = NoResponse | Response(status: int, body: Bytes, readFails: bool)

  function Exchange(u: Upstream): Option<Bytes> {
    match u
    case NoResponse => None
    case Response(status, body, readFails) =>
      if status != 200 || readFails then None
      else
        var read := if |body| > 0xFFFF then body[..0xFFFF] else body;
        if |read| < HEADER then None else Some(read)
  }

  function Answer(u: Upstream, q: Bytes): Option<Bytes> {
    if |q| < HEADER then None
    else
      match Exchange(u)
      case Some(r) => Some(r)
      case None => Some(ServfailOf(q))
  }

  /** Whatever the upstream does, an answer to a query that arrived fits its 16-bit length. */
  lemma AnswerFits(u: Upstream, q: Bytes)
    requires |q| <= 0xFFFF
    ensures Answer(u, q).Some? <==> |q| >= HEADER
    ensures Answer(u, q).Some? ==> HEADER <= |Answer(u, q).value| <= 0xFFFF
  {
  }

  /** The upstream's response is one to pass on: read whole, status 200, and at least a header long. */
  predicate Usable(u: Upstream) {
    u.Response? && u.status == 200 && !u.readFails && |u.body| >= 12
  }

  /** What a client may expect: the upstream's message up to 65535 bytes, or its own query as a SERVFAIL. */
  predicate Expected(u: Upstream, q: Bytes, r: Bytes)
    requires HasHeader(q)
  {
    if Usable(u) then
      r == (if |u.body| > 65535 then u.body[..65535] else u.body)
    else
      && |r| == |q| && HasHeader(r) && Qr(r) && Rcode(r) == 2 && !Aa(r) && !Tc(r)
      && Id(r) == Id(q) && Opcode(r) == Opcode(q) && Rd(r) == Rd(q) && Upper(r) == Upper(q) && Body(r) == Body(q)
  }

  /** A query gets the upstream's message exactly when that is usable, and a SERVFAIL of its own otherwise. */
  lemma AnswerMeans(u: Upstream, q: Bytes)
    ensures |q| < 12 ==> Answer(u, q) == None
    ensures |q| >= 12 ==> Answer(u, q).Some? && Expected(u, q, Answer(u, q).value)
    ensures Exchange(u).None? <==> !Usable(u)
  {
    if |q| >= 12 {
      ServfailMeans(q);
    }
  }

  // ---------- Framing ----------

  function Length(hi: Byte, lo: Byte): (n: nat)
    ensures n <= 0xFFFF
  {
    256 * hi + lo
  }

  function LengthBytes(n: nat): (l: Bytes)
    requires n <= 0xFFFF
    ensures |l| == 2
  {
    [n / 256, n % 256]
  }

  lemma LengthReads(n: nat)
    requires n <= 0xFFFF
    ensures Length(LengthBytes(n)[0], LengthBytes(n)[1]) == n
  {
  }

  function Frame(m: Bytes): Bytes
    requires |m| <= 0xFFFF
  {
    LengthBytes(|m|) + m
  }

  predicate Framable(ms: seq<Bytes>, lo: nat, hi: nat) {
    forall i :: 0 <= i < |ms| ==> lo <= |ms[i]| <= hi
  }

  function Stream(ms: seq<Bytes>): Bytes
    requires Framable(ms, 0, 0xFFFF)
  {
    if ms == [] then [] else Frame(ms[0]) + Stream(ms[1..])
  }

  /** Framed messages of sizes from lo to hi, as long as they keep coming, and what is left of the stream. */
  function Deframe(s: Bytes, lo: nat, hi: nat): (r: (seq<Bytes>, Bytes))
    ensures Framable(r.0, lo, hi)
    decreases |s|
  {
    if !StartsFramed(s, lo, hi) then ([], s)
    else
      var n := Length(s[0], s[1]);
      var (ms, rest) := Deframe(s[2 + n..], lo, hi);
      ([s[2..2 + n]] + ms, rest)
  }

  predicate StartsFramed(s: Bytes, lo: nat, hi: nat) {
    |s| >= 2 && var n := Length(s[0], s[1]); lo <= n <= hi && |s| >= 2 + n
  }

  lemma FrontFrame(s: Bytes, lo: nat, hi: nat)
    requires StartsFramed(s, lo, hi)
    ensures var n := Length(s[0], s[1]); Frame(s[2..2 + n]) == s[..2 + n]
  {
    LengthUnique(s[0], s[1]);
  }

  lemma CutFrame(s: Bytes, lo: nat, hi: nat) returns (m: Bytes, tail: Bytes)
    requires StartsFramed(s, lo, hi) && hi <= 0xFFFF
    ensures |m| <= 0xFFFF && s == Frame(m) + tail && |tail| < |s|
    ensures var (ms, rest) := Deframe(tail, lo, hi); Deframe(s, lo, hi) == ([m] + ms, rest)
  {
    var n := Length(s[0], s[1]);
    m, tail := s[2..2 + n], s[2 + n..];
    FrontFrame(s, lo, hi);
    assert s == s[..2 + n] + tail;
  }

  lemma StreamCons(m: Bytes, ms: seq<Bytes>)
    requires |m| <= 0xFFFF && Framable(ms, 0, 0xFFFF)
    ensures Framable([m] + ms, 0, 0xFFFF) && Stream([m] + ms) == Frame(m) + Stream(ms)
  {
    hide Frame;
    assert ([m] + ms)[1..] == ms;
  }

  /** Deframing takes the longest run of framed messages, and loses nothing of the stream. */
  lemma {:induction false} DeframeSplits(s: Bytes, lo: nat, hi: nat)
    requires hi <= 0xFFFF
    ensures var (ms, rest) := Deframe(s, lo, hi);
            Framable(ms, 0, 0xFFFF) && s == Stream(ms) + rest && !StartsFramed(rest, lo, hi)
    decreases |s|
  {
    hide Length, Stream, Frame, StartsFramed;
    if StartsFramed(s, lo, hi) {
      var m, tail := CutFrame(s, lo, hi);
      var (ms, rest) := Deframe(tail, lo, hi);
      DeframeSplits(tail, lo, hi);
      StreamCons(m, ms);
      assert Frame(m) + Stream(ms) + rest == Frame(m) + (Stream(ms) + rest);
    } else {
      StreamNone();
      assert [] + s == s;
    }
  }

  lemma StreamNone()
    ensures Stream([]) == []
  {
  }

  lemma LengthUnique(hi: Byte, lo: Byte)
    ensures LengthBytes(Length(hi, lo)) == [hi, lo]
  {
    assert (256 * hi + lo) / 256 == hi && (256 * hi + lo) % 256 == lo;
  }

  lemma FrameStarts(m: Bytes, tail: Bytes, lo: nat, hi: nat)
    requires lo <= |m| <= hi <= 0xFFFF
    ensures var s := Frame(m) + tail;
            && StartsFramed(s, lo, hi) && Length(s[0], s[1]) == |m|
            && s[2..2 + |m|] == m && s[2 + |m|..] == tail
  {
    LengthReads(|m|);
    var s := Frame(m) + tail;
    assert s[0] == LengthBytes(|m|)[0] && s[1] == LengthBytes(|m|)[1];
  }

  /** Framing is unambiguous: whatever follows, a framed run reads back message for message. */
  lemma {:induction false} StreamDeframes(ms: seq<Bytes>, rest: Bytes, lo: nat, hi: nat)
    requires hi <= 0xFFFF && Framable(ms, lo, hi) && !StartsFramed(rest, lo, hi)
    ensures Framable(ms, 0, 0xFFFF) && Deframe(Stream(ms) + rest, lo, hi) == (ms, rest)
    decreases |ms|
  {
    hide Length, Frame, Stream, StartsFramed;
    if ms == [] {
      StreamNone();
      assert [] + rest == rest;
    } else {
      var m := ms[0];
      StreamDeframes(ms[1..], rest, lo, hi);
      StreamCons(m, ms[1..]);
      assert [m] + ms[1..] == ms;
      FrameStarts(m, Stream(ms[1..]) + rest, lo, hi);
      assert Stream(ms) + rest == Frame(m) + (Stream(ms[1..]) + rest);
    }
  }

  // ---------- A connection ----------

  /** The queries of a stream that get an answer: each non-empty, at most 4096 bytes, and a whole header long. */
  function Queries(s: Bytes): (qs: seq<Bytes>)
    ensures Framable(qs, HEADER, MAX_MSG)
  {
    Deframe(s, HEADER, MAX_MSG).0
  }

  /** Their answers, in order; the upstream's behaviour is numbered by query. */
  function Answers(ups: nat -> Upstream, from: nat, qs: seq<Bytes>): (rs: seq<Bytes>)
    requires Framable(qs, HEADER, MAX_MSG)
    ensures |rs| == |qs| && Framable(rs, HEADER, 0xFFFF)
    ensures forall i :: 0 <= i < |qs| ==> Some(rs[i]) == Answer(ups(from + i), qs[i])
    decreases |qs|
  {
    if qs == [] then []
    else
      AnswerFits(ups(from), qs[0]);
      var rest := Answers(ups, from + 1, qs[1..]);
      [Answer(ups(from), qs[0]).value] + rest
  }

  function Failures(ups: nat -> Upstream, from: nat, n: nat): nat
    decreases n
  {
    if n == 0 then 0 else (if Exchange(ups(from)).None? then 1 else 0) + Failures(ups, from + 1, n - 1)
  }

  lemma {:induction false} FailuresPush(ups: nat -> Upstream, from: nat, n: nat)
    ensures Failures(ups, from, n + 1) == Failures(ups, from, n) + (if Exchange(ups(from + n)).None? then 1 else 0)
    decreases n
  {
    if n > 0 {
      FailuresPush(ups, from + 1, n - 1);
    }
  }

  lemma {:induction false} StreamPush(ms: seq<Bytes>, m: Bytes)
    requires Framable(ms, 0, 0xFFFF) && |m| <= 0xFFFF
    ensures Framable(ms + [m], 0, 0xFFFF) && Stream(ms + [m]) == Stream(ms) + Frame(m)
    decreases |ms|
  {
    hide Frame;
    if ms == [] {
      assert ms + [m] == [m] && [m][1..] == [];
      assert Frame(m) + [] == Frame(m);
    } else {
      assert (ms + [m])[1..] == ms[1..] + [m];
      StreamPush(ms[1..], m);
    }
  }

  lemma {:induction false} StreamAppend(a: seq<Bytes>, b: seq<Bytes>)
    requires Framable(a, 0, 0xFFFF) && Framable(b, 0, 0xFFFF)
    ensures Framable(a + b, 0, 0xFFFF) && Stream(a + b) == Stream(a) + Stream(b)
    decreases |a|
  {
    hide Frame;
    if a == [] {
      assert a + b == b && [] + Stream(b) == Stream(b);
    } else {
      assert (a + b)[1..] == a[1..] + b;
      StreamAppend(a[1..], b);
    }
  }

  lemma NextQuery(s: Bytes)
    requires StartsFramed(s, HEADER, MAX_MSG)
    ensures var n := Length(s[0], s[1]); Queries(s) == [s[2..2 + n]] + Queries(s[2 + n..])
  {
    hide Length;
  }

  lemma NoMoreQueries(s: Bytes)
    requires !StartsFramed(s, HEADER, MAX_MSG)
    ensures Queries(s) == []
  {
    hide Length;
  }

  lemma AnswersCons(ups: nat -> Upstream, from: nat, q: Bytes, qs: seq<Bytes>, r: Bytes)
    requires HEADER <= |q| <= MAX_MSG && Framable(qs, HEADER, MAX_MSG) && Answer(ups(from), q) == Some(r)
    ensures Answers(ups, from, [q] + qs) == [r] + Answers(ups, from + 1, qs)
  {
    hide Answer;
    assert ([q] + qs)[1..] == qs;
  }

  /** The answers given so far are a beginning of all answers. */
  lemma PrefixOut(done: seq<Bytes>, more: seq<Bytes>)
    requires Framable(done, 0, 0xFFFF) && Framable(more, 0, 0xFFFF)
    ensures Framable(done + more, 0, 0xFFFF) && Stream(done) <= Stream(done + more)
    ensures more == [] ==> Stream(done) == Stream(done + more)
  {
    StreamAppend(done, more);
    assert done + [] == done;
  }

  /** at bytes of the stream have been read; done are the answers given to the i queries in them. */
  ghost predicate Progress(s: Bytes, ups: nat -> Upstream, at: nat, i: nat, done: seq<Bytes>) {
    && at <= |s| && |done| == i && Framable(done, 0, 0xFFFF)
    && |Queries(s)| == i + |Queries(s[at..])|
    && Answers(ups, 0, Queries(s)) == done + Answers(ups, i, Queries(s[at..]))
  }

  lemma ProgressStart(s: Bytes, ups: nat -> Upstream)
    ensures Progress(s, ups, 0, 0, []) && Failures(ups, 0, 0) == 0
  {
    hide Queries, Answers;
    assert s[0..] == s;
    assert [] + Answers(ups, 0, Queries(s)) == Answers(ups, 0, Queries(s));
  }

  lemma ProgressOut(s: Bytes, ups: nat -> Upstream, at: nat, i: nat, done: seq<Bytes>)
    requires Progress(s, ups, at, i, done)
    ensures Stream(done) <= Stream(Answers(ups, 0, Queries(s)))
    ensures !StartsFramed(s[at..], HEADER, MAX_MSG) ==>
              Stream(done) == Stream(Answers(ups, 0, Queries(s))) && |Queries(s)| == i
  {
    hide Queries, Answers, Stream, StartsFramed;
    PrefixOut(done, Answers(ups, i, Queries(s[at..])));
    if !StartsFramed(s[at..], HEADER, MAX_MSG) {
      NoMoreQueries(s[at..]);
      assert Answers(ups, i, []) == [];
    }
  }

  lemma ProgressStep(s: Bytes, ups: nat -> Upstream, at: nat, i: nat, done: seq<Bytes>, n: nat, r: Bytes)
    requires Progress(s, ups, at, i, done)
    requires at + 2 + n <= |s| && n == Length(s[at], s[at + 1]) && HEADER <= n <= MAX_MSG
    requires Answer(ups(i), s[at + 2..at + 2 + n]) == Some(r) && |r| <= 0xFFFF
    ensures Progress(s, ups, at + 2 + n, i + 1, done + [r]) && |Queries(s)| > i
    ensures Stream(done + [r]) == Stream(done) + Frame(r)
  {
    hide Queries, Answers, Stream, Answer, Frame, Length;
    var left := s[at..];
    var q := s[at + 2..at + 2 + n];
    assert left[2..2 + n] == q && left[2 + n..] == s[at + 2 + n..];
    NextQuery(left);
    var next := Queries(s[at + 2 + n..]);
    AnswersCons(ups, i, q, next, r);
    StreamPush(done, r);
    assert done + ([r] + Answers(ups, i + 1, next)) == done + [r] + Answers(ups, i + 1, next);
  }

  /** How many of the first n upstream responses cannot be passed on. */
  function Unusable(ups: nat -> Upstream, n: nat): nat {
    if n == 0 then 0 else Unusable(ups, n - 1) + (if Usable(ups(n - 1)) then 0 else 1)
  }

  lemma {:induction false} FailuresMean(ups: nat -> Upstream, n: nat)
    ensures Failures(ups, 0, n) == Unusable(ups, n)
    decreases n
  {
    hide Exchange, Usable;
    if n > 0 {
      FailuresMean(ups, n - 1);
      FailuresPush(ups, 0, n - 1);
      AnswerMeans(ups(n - 1), []);
    }
  }

  /** Each query has its own answer, as expected of its own upstream response. */
  predicate AllExpected(ups: nat -> Upstream, qs: seq<Bytes>, rs: seq<Bytes>)
    requires Framable(qs, HEADER, MAX_MSG)
  {
    |rs| == |qs| && forall k :: 0 <= k < |qs| ==> Expected(ups(k), qs[k], rs[k])
  }

  lemma AnswersMean(ups: nat -> Upstream, qs: seq<Bytes>)
    requires Framable(qs, HEADER, MAX_MSG)
    ensures AllExpected(ups, qs, Answers(ups, 0, qs))
  {
    hide Answer, Expected;
    var rs := Answers(ups, 0, qs);
    forall k | 0 <= k < |qs|
      ensures Expected(ups(k), qs[k], rs[k])
    {
      AnswerMeans(ups(k), qs[k]);
      assert Some(rs[k]) == Answer(ups(0 + k), qs[k]);
    }
  }

  class Stub {
    var queries: nat
    var failures: nat

    constructor ()
      ensures queries == 0 && failures == 0
    {
      queries, failures := 0, 0;
    }

    method Handle(u: Upstream, q: Bytes) returns (resp: Option<Bytes>)
      modifies this
      ensures resp == Answer(u, q)
      ensures |q| < 12 ==> resp == None && queries == old(queries) && failures == old(failures)
      ensures |q| >= 12 ==> resp.Some? && Expected(u, q, resp.value) && queries == old(queries) + 1
                            && failures == old(failures) + (if Usable(u) then 0 else 1)
      ensures queries == old(queries) + (if resp.Some? then 1 else 0)
      ensures failures == old(failures) + (if resp.Some? && Exchange(u).None? then 1 else 0)
    {
      AnswerMeans(u, q);
      if |q| < HEADER {
        return None;
      }
      queries := queries + 1;
      resp := Exchange(u);
      if resp == None {
        failures := failures + 1;
        var r := Servfail(q);
        resp := Some(r);
      }
    }

    /**
     serveConn over everything the peer sends. writes says how many responses the connection still
     takes. What goes out is the framed answers to the maximal run of well-formed queries, in
     order, cut off only by a failing write; every answer is counted.
     */
    method ServeConn(s: Bytes, ups: nat -> Upstream, writes: nat) returns (out: Bytes)
      modifies this
      ensures out <= Stream(Answers(ups, 0, Queries(s)))
      ensures writes >= |Queries(s)| ==>
                && out == Stream(Answers(ups, 0, Queries(s)))
                && queries == old(queries) + |Queries(s)|
                && failures == old(failures) + Failures(ups, 0, |Queries(s)|)
      ensures writes >= |Queries(s)| ==>
                && failures == old(failures) + Unusable(ups, |Queries(s)|)
                && exists rs :: AllExpected(ups, Queries(s), rs) && Framable(rs, 12, 65535) && out == Stream(rs)
    {
      hide Stream, Frame, Length, Queries, Answers, Answer, Exchange, Failures, Progress, Expected, Usable, Unusable, AllExpected;
      AnswersMean(ups, Queries(s));
      FailuresMean(ups, |Queries(s)|);
      out := [];
      StreamNone();
      ProgressStart(s, ups);
      var at := 0;
      var i := 0;
      ghost var done: seq<Bytes> := [];
      while true
        invariant at <= |s| && i <= writes && Framable(done, 0, 0xFFFF)
        invariant Progress(s, ups, at, i, done) && out == Stream(done)
        invariant queries == old(queries) + i && failures == old(failures) + Failures(ups, 0, i)
        decreases |s| - at
      {
        ProgressOut(s, ups, at, i, done);
        if |s| - at < 2 {
          return;
        }
        var n := Length(s[at], s[at + 1]);
        assert s[at..][0] == s[at] && s[at..][1] == s[at + 1];
        if n == 0 || n > MAX_MSG {
          return;
        }
        if |s| - at - 2 < n {
          return;
        }
        var q := s[at + 2..at + 2 + n];
        AnswerFits(ups(i), q);
        var resp := Handle(ups(i), q);
        if resp == None || |resp.value| > 0xFFFF {
          return;
        }
        ProgressStep(s, ups, at, i, done, n, resp.value);
        if i == writes {
          return;
        }
        FailuresPush(ups, 0, i);
        out := out + Frame(resp.value);
        done := done + [resp.value];
        at := at + 2 + n;
        i := i + 1;
      }
    }
  }

  /** The peer reads back exactly the answers to the queries it framed, one for one and in order. */
  lemma PeerReadsAnswers(qs: seq<Bytes>, rest: Bytes, ups: nat -> Upstream)
    requires Framable(qs, 12, 4096) && !StartsFramed(rest, 12, 4096)
    ensures Framable(qs, 0, 0xFFFF) && Queries(Stream(qs) + rest) == qs
    ensures var rs := Answers(ups, 0, qs); Framable(rs, 0, 0xFFFF) && Deframe(Stream(rs), HEADER, 0xFFFF) == (rs, [])
  {
    StreamDeframes(qs, rest, HEADER, MAX_MSG);
    var rs := Answers(ups, 0, qs);
    StreamDeframes(rs, [], HEADER, 0xFFFF);
    assert Stream(rs) + [] == Stream(rs);
  }
}
