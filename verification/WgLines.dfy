/**
 The wg-quick parser read from its text alone (internal/vpn/config.go): which line is refused and with
 what error, and which lines each field of the result comes from. Nothing here uses the parser's own
 steps; that they do the same is what is shown.
 */
module WgLines {
  import opened Common
  import opened GoStrings
  import opened WgConfig
  import opened WgParser

  // ---------- Where a line stands ----------

  /** The name of the last header before line i. */
  function SectionAt(ls: seq<Line>, i: nat): Option<string>
    requires i <= |ls|
  {
    if i == 0 then None
    else if ls[i - 1].content.Header? then Some(ls[i - 1].content.name)
    else SectionAt(ls, i - 1)
  }

  /** How many [Peer] headers come before line i. */
  function PeersBefore(ls: seq<Line>, i: nat): nat
    requires i <= |ls|
  {
    if i == 0 then 0 else PeersBefore(ls, i - 1) + (if ls[i - 1].content == Header("peer") then 1 else 0)
  }

  /** The parts of a file a key line can belong to. */
  datatype Part = TheInterface | OfPeer(k: nat)

  predicate In(ls: seq<Line>, i: nat, part: Part)
    requires i <= |ls|
  {
    match part
    case TheInterface => SectionAt(ls, i) == Some("interface")
    case OfPeer(k) => SectionAt(ls, i) == Some("peer") && PeersBefore(ls, i) == k + 1
  }

  predicate Says(ls: seq<Line>, i: nat, part: Part, key: string)
    requires i < |ls|
  {
    In(ls, i, part) && ls[i].content.Pair? && ls[i].content.key == key
  }

  /** The value a key was last given among the first i lines, or none. */
  function Last(ls: seq<Line>, i: nat, part: Part, key: string): string
    requires i <= |ls|
  {
    if i == 0 then ""
    else if Says(ls, i - 1, part, key) then ls[i - 1].content.val
    else Last(ls, i - 1, part, key)
  }

  /** All items a list key was given among the first i lines, in order. */
  function Gathered(ls: seq<Line>, i: nat, part: Part, key: string): seq<string>
    requires i <= |ls|
  {
    if i == 0 then []
    else Gathered(ls, i - 1, part, key) + (if Says(ls, i - 1, part, key) then ListItems(ls[i - 1].content.val) else [])
  }

  /** The line is the one with its number in the text, without space and comment. */
  predicate OfText(raws: seq<string>, from: nat, l: Line) {
    && from < l.no <= from + |raws|
    && Clean(raws[l.no - from - 1]) != "" && l.content == Read(Clean(raws[l.no - from - 1]))
  }

  lemma OfHeadOrRest(raws: seq<string>, from: nat, l: Line)
    requires raws != []
    ensures var line := Clean(raws[0]);
            OfText(raws, from, l) <==> (line != "" && l == Line(from + 1, Read(line))) || OfText(raws[1..], from + 1, l)
  {
    hide Clean, Read;
  }

  lemma NoneOfNothing(from: nat)
    ensures forall l :: !OfText([], from, l)
  {
  }

  predicate Rising(ls: seq<Line>, from: nat) {
    ls == [] || (from < ls[0].no && Rising(ls[1..], ls[0].no))
  }

  lemma {:induction false} RisingFrom(ls: seq<Line>, from: nat, low: nat)
    requires Rising(ls, from) && low <= from
    ensures Rising(ls, low)
  {
  }

  /** The lines read are those of the text that say something, all of them, each with its number from one. */
  lemma {:induction false} LinesAreNumbered(raws: seq<string>, from: nat)
    ensures var ls := Significant(raws, from);
            Rising(ls, from) && forall l :: l in ls <==> OfText(raws, from, l)
    decreases |raws|
  {
    hide Clean, Read, OfText;
    if raws == [] {
      NoneOfNothing(from);
    } else {
      var later := Significant(raws[1..], from + 1);
      LinesAreNumbered(raws[1..], from + 1);
      RisingFrom(later, from + 1, from);
      var line := Clean(raws[0]);
      var head := if line == "" then [] else [Line(from + 1, Read(line))];
      assert Significant(raws, from) == head + later;
      if line != "" {
        assert (head + later)[1..] == later;
      } else {
        assert head + later == later;
      }
      forall l
        ensures l in head + later <==> OfText(raws, from, l)
      {
        OfHeadOrRest(raws, from, l);
      }
    }
  }

  // ---------- What is refused ----------

  /** What is wrong with line i, the lines before it being good. */
  function Fault(ls: seq<Line>, i: nat): Option<Reason>
    requires i < |ls|
  {
    match ls[i].content
    case Header(name) =>
      if name == "interface" then
        if Last(ls, i, TheInterface, "privatekey") != "" || Gathered(ls, i, TheInterface, "address") != [] then
          Some(MultipleInterface)
        else None
      else if name == "peer" then None
      else Some(UnknownSection(name))
    case Junk => Some(ExpectedKeyValue)
    case NoValue(key) => Some(EmptyValue(key))
    case Pair(key, val) =>
      if SectionAt(ls, i) == Some("interface") then
        if key in {"privatekey", "address", "dns", "mtu"} then None
        else if key in {"preup", "postup", "predown", "postdown", "saveconfig", "table"} then Some(NotSupported(key))
        else Some(UnknownInterfaceKey(key))
      else if SectionAt(ls, i) == Some("peer") then
        if key in {"publickey", "presharedkey", "allowedips", "persistentkeepalive"} then None
        else if key == "endpoint" then (if SplitHostPort(val).Some? then None else Some(BadEndpoint(val)))
        else Some(UnknownPeerKey(key))
      else Some(OutsideSection)
  }

  predicate FirstFault(ls: seq<Line>, i: nat) {
    i < |ls| && Fault(ls, i).Some? && forall j :: 0 <= j < i ==> Fault(ls, j).None?
  }

  // ---------- What is read ----------

  predicate PeerRead(ls: seq<Line>, i: nat, k: nat, p: Peer)
    requires i <= |ls|
  {
    && p.publicKey == Last(ls, i, OfPeer(k), "publickey")
    && p.presharedKey == Last(ls, i, OfPeer(k), "presharedkey")
    && p.allowedIPs == Gathered(ls, i, OfPeer(k), "allowedips")
    && p.keepalive == Last(ls, i, OfPeer(k), "persistentkeepalive")
    && (Last(ls, i, OfPeer(k), "endpoint") == "" ==> p.endpointHost == "" && p.endpointPort == "")
    && (Last(ls, i, OfPeer(k), "endpoint") != "" ==>
          SplitHostPort(Last(ls, i, OfPeer(k), "endpoint")) == Some((p.endpointHost, p.endpointPort)))
  }

  /** c holds what the first i lines say. */
  predicate ConfigRead(ls: seq<Line>, i: nat, c: Config)
    requires i <= |ls|
  {
    && c.privateKey == Last(ls, i, TheInterface, "privatekey")
    && c.addresses == Gathered(ls, i, TheInterface, "address")
    && c.dns == Gathered(ls, i, TheInterface, "dns")
    && c.mtu == Last(ls, i, TheInterface, "mtu")
    && |c.peers| == PeersBefore(ls, i)
    && forall k :: 0 <= k < |c.peers| ==> PeerRead(ls, i, k, c.peers[k])
  }

  /** The loop's variables after the first i lines. */
  predicate StateRead(ls: seq<Line>, i: nat, s: Scan)
    requires i <= |ls|
  {
    && ConfigRead(ls, i, s.cfg)
    && (match SectionAt(ls, i) case None => s.section == "" case Some(name) => s.section == name && (name == "interface" || name == "peer"))
    && (s.section == "peer" ==> |s.cfg.peers| > 0 && s.peer == |s.cfg.peers| - 1)
  }

  // ---------- One line ----------

  /** A line that says nothing to a part leaves its values alone. */
  lemma Unsaid(ls: seq<Line>, i: nat, part: Part, key: string)
    requires i < |ls| && !Says(ls, i, part, key)
    ensures Last(ls, i + 1, part, key) == Last(ls, i, part, key)
    ensures Gathered(ls, i + 1, part, key) == Gathered(ls, i, part, key)
  {
  }

  lemma PeerUnsaid(ls: seq<Line>, i: nat, k: nat, p: Peer)
    requires i < |ls| && PeerRead(ls, i, k, p)
    requires forall key :: !Says(ls, i, OfPeer(k), key)
    ensures PeerRead(ls, i + 1, k, p)
  {
    hide Says;
    Unsaid(ls, i, OfPeer(k), "publickey");
    Unsaid(ls, i, OfPeer(k), "presharedkey");
    Unsaid(ls, i, OfPeer(k), "allowedips");
    Unsaid(ls, i, OfPeer(k), "persistentkeepalive");
    Unsaid(ls, i, OfPeer(k), "endpoint");
  }

  lemma InterfaceUnsaid(ls: seq<Line>, i: nat)
    requires i < |ls| && forall key :: !Says(ls, i, TheInterface, key)
    ensures Last(ls, i + 1, TheInterface, "privatekey") == Last(ls, i, TheInterface, "privatekey")
    ensures Last(ls, i + 1, TheInterface, "mtu") == Last(ls, i, TheInterface, "mtu")
    ensures Gathered(ls, i + 1, TheInterface, "address") == Gathered(ls, i, TheInterface, "address")
    ensures Gathered(ls, i + 1, TheInterface, "dns") == Gathered(ls, i, TheInterface, "dns")
  {
    hide Says;
    Unsaid(ls, i, TheInterface, "privatekey");
    Unsaid(ls, i, TheInterface, "mtu");
    Unsaid(ls, i, TheInterface, "address");
    Unsaid(ls, i, TheInterface, "dns");
  }

  /** No line before its header says anything of a peer. */
  lemma {:induction false} NothingYet(ls: seq<Line>, i: nat, k: nat)
    requires i <= |ls| && PeersBefore(ls, i) <= k
    ensures PeerRead(ls, i, k, NO_PEER)
    decreases i
  {
    if i > 0 {
      NothingYet(ls, i - 1, k);
      PeerUnsaid(ls, i - 1, k, NO_PEER);
    }
  }

  lemma HeaderStep(ls: seq<Line>, i: nat, s: Scan)
    requires i < |ls| && ls[i].content.Header? && StateRead(ls, i, s)
    ensures match Step(s, ls[i].content)
            case Err(r) => Fault(ls, i) == Some(r)
            case Ok(t) => Fault(ls, i) == None && StateRead(ls, i + 1, t)
  {
    hide PeerRead, Last, Gathered;
    InterfaceUnsaid(ls, i);
    forall k | 0 <= k < |s.cfg.peers|
      ensures PeerRead(ls, i + 1, k, s.cfg.peers[k])
    {
      PeerUnsaid(ls, i, k, s.cfg.peers[k]);
    }
    if ls[i].content.name == "peer" {
      NothingYet(ls, i, |s.cfg.peers|);
      PeerUnsaid(ls, i, |s.cfg.peers|, NO_PEER);
    }
  }

  lemma InterfaceStep(ls: seq<Line>, i: nat, c: Config)
    requires i < |ls| && ls[i].content.Pair? && SectionAt(ls, i) == Some("interface") && ConfigRead(ls, i, c)
    ensures match InterfaceKey(c, ls[i].content.key, ls[i].content.val)
            case Err(r) => Fault(ls, i) == Some(r)
            case Ok(d) => Fault(ls, i) == None && ConfigRead(ls, i + 1, d)
  {
    hide PeerRead;
    forall k | 0 <= k < |c.peers|
      ensures PeerRead(ls, i + 1, k, c.peers[k])
    {
      PeerUnsaid(ls, i, k, c.peers[k]);
    }
  }

  lemma PeerStep(ls: seq<Line>, i: nat, k: nat, p: Peer)
    requires i < |ls| && ls[i].content.Pair? && In(ls, i, OfPeer(k)) && PeerRead(ls, i, k, p)
    ensures match PeerKey(p, ls[i].content.key, ls[i].content.val)
            case Err(r) => Fault(ls, i) == Some(r)
            case Ok(q) => Fault(ls, i) == None && PeerRead(ls, i + 1, k, q)
  {
    hide SplitHostPort;
    EmptyEndpoint();
  }

  lemma EmptyEndpoint()
    ensures SplitHostPort("") == None
  {
  }

  lemma PeerLineStep(ls: seq<Line>, i: nat, s: Scan)
    requires i < |ls| && ls[i].content.Pair? && StateRead(ls, i, s) && s.section == "peer"
    ensures match Step(s, ls[i].content)
            case Err(r) => Fault(ls, i) == Some(r)
            case Ok(t) => Fault(ls, i) == None && StateRead(ls, i + 1, t)
  {
    hide PeerRead, Last, Gathered, PeerKey, Fault;
    PeerStep(ls, i, s.peer, s.cfg.peers[s.peer]);
    InterfaceUnsaid(ls, i);
    forall k | 0 <= k < |s.cfg.peers| && k != s.peer
      ensures PeerRead(ls, i + 1, k, s.cfg.peers[k])
    {
      PeerUnsaid(ls, i, k, s.cfg.peers[k]);
    }
  }

  /** The loop's step refuses a line exactly when it has a fault, and otherwise reads it. */
  lemma LineStep(ls: seq<Line>, i: nat, s: Scan)
    requires i < |ls| && StateRead(ls, i, s)
    ensures match Step(s, ls[i].content)
            case Err(r) => Fault(ls, i) == Some(r)
            case Ok(t) => Fault(ls, i) == None && StateRead(ls, i + 1, t)
  {
    hide PeerRead, Last, Gathered, InterfaceKey, PeerKey;
    if ls[i].content.Header? {
      HeaderStep(ls, i, s);
    } else if ls[i].content.Pair? {
      if s.section == "interface" {
        InterfaceStep(ls, i, s.cfg);
      } else if s.section == "peer" {
        PeerLineStep(ls, i, s);
      }
    }
  }

  // ---------- Whole texts ----------

  /** From a state read so far, the loop ends at the first fault, or reads everything. */
  lemma {:induction false} ScanReads(ls: seq<Line>, i: nat, s: Scan)
    requires i <= |ls| && StateRead(ls, i, s) && forall j :: 0 <= j < i ==> Fault(ls, j).None?
    ensures match ScanLines(s, ls[i..])
            case Err(e) => exists k: nat :: FirstFault(ls, k) && e == AtLine(ls[k].no, Fault(ls, k).value)
            case Ok(t) => (forall j :: 0 <= j < |ls| ==> Fault(ls, j).None?) && StateRead(ls, |ls|, t)
    decreases |ls| - i
  {
    hide Step, StateRead, Fault;
    if i < |ls| {
      LineStep(ls, i, s);
      assert ls[i..][0] == ls[i] && ls[i..][1..] == ls[i + 1..];
      match Step(s, ls[i].content) {
        case Err(r) => assert FirstFault(ls, i);
        case Ok(t) => ScanReads(ls, i + 1, t);
      }
    }
  }

  lemma TextReads(n: Net, text: string)
    ensures var ls := LinesOf(text);
            match Parse(n, text)
            case Err(AtLine(no, r)) => exists k: nat :: FirstFault(ls, k) && no == ls[k].no && Fault(ls, k) == Some(r)
            case Err(Invalid(_)) => forall j :: 0 <= j < |ls| ==> Fault(ls, j).None?
            case Ok(c) => (forall j :: 0 <= j < |ls| ==> Fault(ls, j).None?) && ConfigRead(ls, |ls|, c)
  {
    hide Fault, Validate, PeerRead, ScanLines, LinesOf, Parse;
    var ls := LinesOf(text);
    assert ls[0..] == ls;
    ScanReads(ls, 0, Scan(EMPTY, "", 0));
    ParsedByScan(n, text);
  }

  /**
   A line is refused with the reason its content and the headers before it give, and the first such line
   is the one reported; a text is read, or fails validation, exactly when it has none.
   */
  lemma RefusedExactly(n: Net, text: string)
    ensures var ls := LinesOf(text);
            && (forall i: nat :: FirstFault(ls, i) ==> Parse(n, text) == Err(AtLine(ls[i].no, Fault(ls, i).value)))
            && ((forall j :: 0 <= j < |ls| ==> Fault(ls, j).None?)
                <==> Parse(n, text).Ok? || Parse(n, text).error.Invalid?)
  {
    hide Fault, Parse, LinesOf;
    var ls := LinesOf(text);
    TextReads(n, text);
    if k: nat :| FirstFault(ls, k) {
      assert Fault(ls, k).Some?;
    }
    forall i: nat, k: nat | FirstFault(ls, i) && FirstFault(ls, k)
      ensures i == k
    {
    }
  }

  /**
   What a parsed text says, line by line: every key line stands under a header that knows its key - no
   script hook is ever dropped in silence - and every field holds just what its lines say.
   */
  lemma ReadExactly(n: Net, text: string)
    requires Parse(n, text).Ok?
    ensures var ls := LinesOf(text);
            && ConfigRead(ls, |ls|, Parse(n, text).value)
            && forall i :: 0 <= i < |ls| && ls[i].content.Pair? ==>
                 (SectionAt(ls, i) == Some("interface") && ls[i].content.key in {"privatekey", "address", "dns", "mtu"})
                 || (SectionAt(ls, i) == Some("peer")
                     && ls[i].content.key in {"publickey", "presharedkey", "allowedips", "endpoint", "persistentkeepalive"})
  {
    hide Parse, LinesOf, ConfigRead, Fault;
    TextReads(n, text);
    var ls := LinesOf(text);
    forall i | 0 <= i < |ls| && ls[i].content.Pair?
      ensures (SectionAt(ls, i) == Some("interface") && ls[i].content.key in {"privatekey", "address", "dns", "mtu"})
              || (SectionAt(ls, i) == Some("peer")
                  && ls[i].content.key in {"publickey", "presharedkey", "allowedips", "endpoint", "persistentkeepalive"})
    {
      KnownKey(ls, i);
    }
  }

  lemma KnownKey(ls: seq<Line>, i: nat)
    requires i < |ls| && ls[i].content.Pair? && Fault(ls, i) == None
    ensures (SectionAt(ls, i) == Some("interface") && ls[i].content.key in {"privatekey", "address", "dns", "mtu"})
            || (SectionAt(ls, i) == Some("peer")
                && ls[i].content.key in {"publickey", "presharedkey", "allowedips", "endpoint", "persistentkeepalive"})
  {
  }
}
