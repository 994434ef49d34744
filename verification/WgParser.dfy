/**
 The wg-quick parser (internal/vpn/config.go): the single-pass loop with its reference to the last
 peer, the grouped reading it is equal to, and the writer it inverts.
 */
module WgParser {
  import opened Common
  import opened GoStrings
  import opened WgConfig

  // ---------- Errors ----------

  datatype Reason =
    | MultipleInterface
    | UnknownSection(name: string)
    | ExpectedKeyValue
    | EmptyValue(key: string)
    | NotSupported(key: string)
    | UnknownInterfaceKey(key: string)
    | UnknownPeerKey(key: string)
    | BadEndpoint(val: string)
    | OutsideSection

  datatype Flaw =
    | BadPrivateKey
    | NoAddress
    | BadAddress(text: string)
    | BadMtu
    | NoPeer
    | BadPublicKey(peer: nat)
    | BadPresharedKey(peer: nat)
    | NoAllowedIPs(peer: nat)
    | BadAllowedIP(peer: nat, text: string)
    | BadKeepalive(peer: nat)

  datatype Error = AtLine(line: nat, reason: Reason) | Invalid(flaw: Flaw)

  /** net.ParseCIDR and net.ParseIP, as far as the parser looks at them: do they accept a text? */
  datatype Net = Net(isCidr: string -> bool, isIp: string -> bool)

  // ---------- One line ----------

  predicate Comments(c: char) {
    c == '#' || c == ';'
  }

  function StripComment(s: string): (t: string)
    ensures |t| <= |s| && t == s[..|t|]
    ensures '#' !in t && ';' !in t
  {
    if s == "" || Comments(s[0]) then "" else [s[0]] + StripComment(s[1..])
  }

  /** A raw line without surrounding space and comment. */
  function Clean(raw: string): string {
    TrimSpace(StripComment(TrimSpace(raw)))
  }

  predicate IsHeader(line: string) {
    line != "" && line[0] == '[' && line[|line| - 1] == ']'
  }

  predicate IsBracket(c: char) {
    c == '[' || c == ']'
  }

  function TrimBracketsLeft(s: string): string {
    if s != "" && IsBracket(s[0]) then TrimBracketsLeft(s[1..]) else s
  }

  function TrimBracketsRight(s: string): string {
    if s != "" && IsBracket(s[|s| - 1]) then TrimBracketsRight(s[..|s| - 1]) else s
  }

  function SectionName(line: string): string {
    ToLower(TrimBracketsRight(TrimBracketsLeft(line)))
  }

  /** What a cleaned, non-empty line says. */
  datatype Content = Header(name: string) | Pair(key: string, val: string) | Junk | NoValue(key: string)

  function Read(line: string): Content {
    if IsHeader(line) then Header(SectionName(line))
    else
      match Cut(line, '=')
      case None => Junk
      case Some((k, v)) =>
        var key := ToLower(TrimSpace(k));
        var val := TrimSpace(v);
        if val == "" then NoValue(key) else Pair(key, val)
  }

  function KeepItems(parts: seq<string>): seq<string> {
    if parts == [] then []
    else
      var t := TrimSpace(parts[0]);
      (if t == "" then [] else [t]) + KeepItems(parts[1..])
  }

  function ListItems(v: string): seq<string> {
    KeepItems(Split(v, ','))
  }

  method SplitList(v: string) returns (out: seq<string>)
    ensures out == ListItems(v)
  {
    var parts := Split(v, ',');
    out := [];
    for i := 0 to |parts|
      invariant out + KeepItems(parts[i..]) == KeepItems(parts)
    {
      var s := TrimSpace(parts[i]);
      assert parts[i..][1..] == parts[i + 1..];
      if s != "" {
        out := out + [s];
      }
    }
  }

  const UNSUPPORTED := {"preup", "postup", "predown", "postdown", "saveconfig", "table"}

  function InterfaceKey(c: Config, key: string, val: string): Result<Config, Reason> {
    if key == "privatekey" then Ok(c.(privateKey := val))
    else if key == "address" then Ok(c.(addresses := c.addresses + ListItems(val)))
    else if key == "dns" then Ok(c.(dns := c.dns + ListItems(val)))
    else if key == "mtu" then Ok(c.(mtu := val))
    else if key in UNSUPPORTED then Err(NotSupported(key))
    else Err(UnknownInterfaceKey(key))
  }

  function PeerKey(p: Peer, key: string, val: string): Result<Peer, Reason> {
    if key == "publickey" then Ok(p.(publicKey := val))
    else if key == "presharedkey" then Ok(p.(presharedKey := val))
    else if key == "allowedips" then Ok(p.(allowedIPs := p.allowedIPs + ListItems(val)))
    else if key == "endpoint" then
      match SplitHostPort(val)
      case None => Err(BadEndpoint(val))
      case Some((h, q)) => Ok(p.(endpointHost := h, endpointPort := q))
    else if key == "persistentkeepalive" then Ok(p.(keepalive := val))
    else Err(UnknownPeerKey(key))
  }

  // ---------- Validation ----------

  predicate IsBase64Char(c: char) {
    'A' <= c <= 'Z' || 'a' <= c <= 'z' || '0' <= c <= '9' || c == '+' || c == '/'
  }

  function DropNewlines(s: string): string {
    if s == "" then ""
    else (if s[0] == '\r' || s[0] == '\n' then "" else [s[0]]) + DropNewlines(s[1..])
  }

  /** Standard base64 of exactly 32 bytes; Go's decoder skips line ends. */
  predicate IsKey(s: string) {
    var t := DropNewlines(s);
    |t| == 44 && t[43] == '=' && forall i :: 0 <= i < 43 ==> IsBase64Char(t[i])
  }

  /** strconv.Atoi; a number too large for an int is outside every range asked for here. */
  function Atoi(s: string): Option<int> {
    var digits := if s != "" && (s[0] == '+' || s[0] == '-') then s[1..] else s;
    if digits == "" || exists i :: 0 <= i < |digits| && !IsDigit(digits[i]) then None
    else Some(if s[0] == '-' then 0 - Number(digits) else Number(digits))
  }

  predicate InRange(s: string, lo: int, hi: int) {
    match Atoi(s)
    case None => false
    case Some(n) => lo <= n <= hi
  }

  function FirstBad(xs: seq<string>, ok: string -> bool): Option<string> {
    if xs == [] then None else if !ok(xs[0]) then Some(xs[0]) else FirstBad(xs[1..], ok)
  }

  function PeerFlaw(n: Net, p: Peer, i: nat): Option<Flaw> {
    if !IsKey(p.publicKey) then Some(BadPublicKey(i))
    else if p.presharedKey != "" && !IsKey(p.presharedKey) then Some(BadPresharedKey(i))
    else if p.allowedIPs == [] then Some(NoAllowedIPs(i))
    else
      match FirstBad(p.allowedIPs, n.isCidr)
      case Some(t) => Some(BadAllowedIP(i, t))
      case None =>
        if p.keepalive != "" && !InRange(p.keepalive, 0, 65535) then Some(BadKeepalive(i)) else None
  }

  function PeersFlaw(n: Net, ps: seq<Peer>, i: nat): Option<Flaw> {
    if ps == [] then None
    else
      match PeerFlaw(n, ps[0], i)
      case Some(f) => Some(f)
      case None => PeersFlaw(n, ps[1..], i + 1)
  }

  function Validate(n: Net, c: Config): Option<Flaw> {
    if !IsKey(c.privateKey) then Some(BadPrivateKey)
    else if c.addresses == [] then Some(NoAddress)
    else
      match FirstBad(c.addresses, a => n.isCidr(a) || n.isIp(a))
      case Some(t) => Some(BadAddress(t))
      case None =>
        if c.mtu != "" && !InRange(c.mtu, 576, 9200) then Some(BadMtu)
        else if c.peers == [] then Some(NoPeer)
        else PeersFlaw(n, c.peers, 1)
  }

  function Checked(n: Net, c: Config): Result<Config, Error> {
    match Validate(n, c)
    case None => Ok(c)
    case Some(f) => Err(Invalid(f))
  }

  // ---------- The lines of a text ----------

  datatype Line = Line(no: nat, content: Content)

  /** The lines that say something, numbered from one. */
  function Significant(raws: seq<string>, from: nat): seq<Line>
    decreases |raws|
  {
    if raws == [] then []
    else
      var line := Clean(raws[0]);
      (if line == "" then [] else [Line(from + 1, Read(line))]) + Significant(raws[1..], from + 1)
  }

  function LinesOf(text: string): seq<Line> {
    Significant(Split(text, '\n'), 0)
  }

  // ---------- The specification: group lines by header, read each group ----------

  datatype Group = Group(no: nat, name: string, body: seq<Line>)

  /** The lines up to the next header. */
  function Body(ls: seq<Line>): (b: seq<Line>)
    ensures |b| <= |ls| && b == ls[..|b|]
    ensures forall i :: 0 <= i < |b| ==> !b[i].content.Header?
    ensures |b| < |ls| ==> ls[|b|].content.Header?
  {
    if ls == [] || ls[0].content.Header? then [] else [ls[0]] + Body(ls[1..])
  }

  function Groups(ls: seq<Line>): seq<Group>
    requires ls != [] ==> ls[0].content.Header?
    decreases |ls|
  {
    if ls == [] then []
    else
      var b := Body(ls[1..]);
      [Group(ls[0].no, ls[0].content.name, b)] + Groups(ls[1 + |b|..])
  }

  /** What a line says as a key; the reason when it is no key line. */
  function AsPair(c: Content): Result<(string, string), Reason> {
    match c
    case Pair(k, v) => Ok((k, v))
    case Junk => Err(ExpectedKeyValue)
    case NoValue(k) => Err(EmptyValue(k))
    case Header(n) => Err(UnknownSection(n))
  }

  function ReadInterface(body: seq<Line>, c: Config): Result<Config, Error>
    decreases |body|
  {
    if body == [] then Ok(c)
    else
      match AsPair(body[0].content)
      case Err(r) => Err(AtLine(body[0].no, r))
      case Ok((k, v)) =>
        match InterfaceKey(c, k, v)
        case Err(r) => Err(AtLine(body[0].no, r))
        case Ok(d) => ReadInterface(body[1..], d)
  }

  function ReadPeer(body: seq<Line>, p: Peer): Result<Peer, Error>
    decreases |body|
  {
    if body == [] then Ok(p)
    else
      match AsPair(body[0].content)
      case Err(r) => Err(AtLine(body[0].no, r))
      case Ok((k, v)) =>
        match PeerKey(p, k, v)
        case Err(r) => Err(AtLine(body[0].no, r))
        case Ok(q) => ReadPeer(body[1..], q)
  }

  function ReadGroup(g: Group, c: Config): Result<Config, Error> {
    if g.name == "interface" then
      if c.privateKey != "" || c.addresses != [] then Err(AtLine(g.no, MultipleInterface))
      else ReadInterface(g.body, c)
    else if g.name == "peer" then
      match ReadPeer(g.body, NO_PEER)
      case Err(e) => Err(e)
      case Ok(p) => Ok(c.(peers := c.peers + [p]))
    else Err(AtLine(g.no, UnknownSection(g.name)))
  }

  function ReadGroups(gs: seq<Group>, c: Config): Result<Config, Error>
    decreases |gs|
  {
    if gs == [] then Ok(c)
    else
      match ReadGroup(gs[0], c)
      case Err(e) => Err(e)
      case Ok(d) => ReadGroups(gs[1..], d)
  }

  function ReadLines(ls: seq<Line>): Result<Config, Error> {
    var before := Body(ls);
    if before != [] then
      Err(AtLine(before[0].no, match AsPair(before[0].content) case Err(r) => r case Ok(_) => OutsideSection))
    else
      ReadGroups(Groups(ls), EMPTY)
  }

  /** The grouped reading of a whole text. */
  function Parse(n: Net, text: string): Result<Config, Error> {
    match ReadLines(LinesOf(text))
    case Err(e) => Err(e)
    case Ok(c) => Checked(n, c)
  }

  // ---------- The loop ----------

  /** The loop's variables; the reference into cfg.Peers is an index, refreshed at every [Peer]. */
  datatype Scan = Scan(cfg: Config, section: string, peer: nat)

  function StepHeader(s: Scan, name: string): Result<Scan, Reason> {
    if name == "interface" then
      if s.cfg.privateKey != "" || s.cfg.addresses != [] then Err(MultipleInterface)
      else Ok(s.(section := name))
    else if name == "peer" then
      Ok(Scan(s.cfg.(peers := s.cfg.peers + [NO_PEER]), name, |s.cfg.peers|))
    else Err(UnknownSection(name))
  }

  function StepPair(s: Scan, key: string, val: string): Result<Scan, Reason> {
    if s.section == "interface" then
      match InterfaceKey(s.cfg, key, val)
      case Err(r) => Err(r)
      case Ok(c) => Ok(s.(cfg := c))
    else if s.section == "peer" && s.peer < |s.cfg.peers| then
      match PeerKey(s.cfg.peers[s.peer], key, val)
      case Err(r) => Err(r)
      case Ok(p) => Ok(s.(cfg := s.cfg.(peers := s.cfg.peers[s.peer := p])))
    else Err(OutsideSection)
  }

  function Step(s: Scan, c: Content): Result<Scan, Reason> {
    if c.Header? then StepHeader(s, c.name)
    else
      match AsPair(c)
      case Err(r) => Err(r)
      case Ok((k, v)) => StepPair(s, k, v)
  }

  function ScanLines(s: Scan, ls: seq<Line>): Result<Scan, Error>
    decreases |ls|
  {
    if ls == [] then Ok(s)
    else
      match Step(s, ls[0].content)
      case Err(r) => Err(AtLine(ls[0].no, r))
      case Ok(t) => ScanLines(t, ls[1..])
  }

  /** The second half of the loop body: a `key = value` line in the current section. */
  method ReadKeyLine(cfg: Config, section: string, peer: nat, line: string) returns (r: Result<Config, Reason>)
    requires !IsHeader(line)
    requires section == "peer" ==> peer < |cfg.peers|
    ensures match Step(Scan(cfg, section, peer), Read(line))
            case Err(reason) => r == Err(reason)
            case Ok(t) => r == Ok(t.cfg) && t == Scan(t.cfg, section, peer) && |t.cfg.peers| == |cfg.peers|
  {
    var cut := Cut(line, '=');
    if cut.None? {
      return Err(ExpectedKeyValue);
    }
    var key := ToLower(TrimSpace(cut.value.0));
    var val := TrimSpace(cut.value.1);
    if val == "" {
      return Err(EmptyValue(key));
    }
    if section == "interface" {
      r := InterfaceKey(cfg, key, val);
    } else if section == "peer" {
      match PeerKey(cfg.peers[peer], key, val)
      case Err(reason) => r := Err(reason);
      case Ok(p) => r := Ok(cfg.(peers := cfg.peers[peer := p]));
    } else {
      r := Err(OutsideSection);
    }
  }

  /** The first half: a header line switches section and, for [Peer], appends one and points at it. */
  method ReadHeaderLine(cfg: Config, section: string, peer: nat, line: string)
    returns (r: Result<Scan, Reason>)
    requires IsHeader(line)
    ensures r == Step(Scan(cfg, section, peer), Read(line))
    ensures r.Ok? && r.value.section == "peer" ==> r.value.peer < |r.value.cfg.peers|
  {
    var name := SectionName(line);
    if name == "interface" {
      if cfg.privateKey != "" || cfg.addresses != [] {
        return Err(MultipleInterface);
      }
      r := Ok(Scan(cfg, name, peer));
    } else if name == "peer" {
      var grown := cfg.(peers := cfg.peers + [NO_PEER]);
      r := Ok(Scan(grown, name, |grown.peers| - 1));
    } else {
      r := Err(UnknownSection(name));
    }
  }

  lemma ScanOne(s: Scan, raws: seq<string>, ln: nat)
    requires ln < |raws|
    ensures var line := Clean(raws[ln]);
            var later := Significant(raws[ln + 1..], ln + 1);
            ScanLines(s, Significant(raws[ln..], ln)) ==
            if line == "" then ScanLines(s, later)
            else match Step(s, Read(line))
                 case Err(r) => Err(AtLine(ln + 1, r))
                 case Ok(t) => ScanLines(t, later)
  {
    var line := Clean(raws[ln]);
    var later := Significant(raws[ln + 1..], ln + 1);
    assert raws[ln..][0] == raws[ln] && raws[ln..][1..] == raws[ln + 1..];
    if line == "" {
      assert Significant(raws[ln..], ln) == later;
    } else {
      var ls := [Line(ln + 1, Read(line))] + later;
      assert Significant(raws[ln..], ln) == ls;
      assert ls[1..] == later;
    }
  }

  method ReadLine(cfg: Config, section: string, peer: nat, line: string) returns (r: Result<Scan, Reason>)
    requires section == "peer" ==> peer < |cfg.peers|
    ensures r == Step(Scan(cfg, section, peer), Read(line))
    ensures r.Ok? && r.value.section == "peer" ==> r.value.peer < |r.value.cfg.peers|
  {
    if IsHeader(line) {
      r := ReadHeaderLine(cfg, section, peer, line);
    } else {
      var k := ReadKeyLine(cfg, section, peer, line);
      match k
      case Err(reason) => r := Err(reason);
      case Ok(c) => r := Ok(Scan(c, section, peer));
    }
  }

  /** ParseConfig: one pass over the raw lines, then validate. */
  method ParseConfig(n: Net, text: string) returns (r: Result<Config, Error>)
    ensures r == Parse(n, text)
  {
    var raws := Split(text, '\n');
    var scanned := ScanAll(Scan(EMPTY, "", 0), raws);
    ScanIsGrouped(Significant(raws, 0));
    match scanned
    case Err(e) => r := Err(e);
    case Ok(s) => r := Checked(n, s.cfg);
  }

  /** The loop over the raw lines, with its variables cfg, section and peer. */
  method ScanAll(start: Scan, raws: seq<string>) returns (r: Result<Scan, Error>)
    requires start.section == "peer" ==> start.peer < |start.cfg.peers|
    ensures r == ScanLines(start, Significant(raws, 0))
  {
    var cfg := start.cfg;
    var section := start.section;
    var peer: nat := start.peer;
    ghost var whole := ScanLines(start, Significant(raws, 0));
    assert raws[0..] == raws;
    for ln := 0 to |raws|
      invariant whole == ScanLines(Scan(cfg, section, peer), Significant(raws[ln..], ln))
      invariant section == "peer" ==> peer < |cfg.peers|
    {
      ScanOne(Scan(cfg, section, peer), raws, ln);
      var line := Clean(raws[ln]);
      if line != "" {
        var step := ReadLine(cfg, section, peer, line);
        match step
        case Err(reason) => return Err(AtLine(ln + 1, reason));
        case Ok(t) => cfg, section, peer := t.cfg, t.section, t.peer;
      }
    }
    r := Ok(Scan(cfg, section, peer));
  }

  // ---------- The loop is the grouped reading ----------

  /** Running the loop over one group: the state it leaves the rest of the lines to. */
  lemma ScanOneGroup(s: Scan, ls: seq<Line>, b: seq<Line>, rest: seq<Line>) returns (t: Scan)
    requires ls != [] && ls[0].content.Header? && ls[1..] == b + rest
    requires forall i :: 0 <= i < |b| ==> !b[i].content.Header?
    ensures match ReadGroup(Group(ls[0].no, ls[0].content.name, b), s.cfg)
            case Err(e) => ScanLines(s, ls) == Err(e)
            case Ok(d) => ScanLines(s, ls) == ScanLines(t, rest) && t.cfg == d
  {
    var name := ls[0].content.name;
    t := s;
    if name == "interface" {
      if s.cfg.privateKey == "" && s.cfg.addresses == [] {
        t := ScanInterfaceGroup(s.(section := name), b, rest);
      }
    } else if name == "peer" {
      t := ScanPeerGroup(s.cfg, b, rest);
    }
  }

  lemma ScanInterfaceGroup(s: Scan, b: seq<Line>, rest: seq<Line>) returns (t: Scan)
    requires s.section == "interface"
    requires forall i :: 0 <= i < |b| ==> !b[i].content.Header?
    ensures match ReadInterface(b, s.cfg)
            case Err(e) => ScanLines(s, b + rest) == Err(e)
            case Ok(d) => ScanLines(s, b + rest) == ScanLines(t, rest) && t.cfg == d
  {
    ScanInterface(s, b, rest);
    var d := ReadInterface(b, s.cfg);
    t := if d.Ok? then s.(cfg := d.value) else s;
  }

  lemma ScanPeerGroup(c: Config, b: seq<Line>, rest: seq<Line>) returns (t: Scan)
    requires forall i :: 0 <= i < |b| ==> !b[i].content.Header?
    ensures var s := Scan(c.(peers := c.peers + [NO_PEER]), "peer", |c.peers|);
            match ReadPeer(b, NO_PEER)
            case Err(e) => ScanLines(s, b + rest) == Err(e)
            case Ok(p) => ScanLines(s, b + rest) == ScanLines(t, rest) && t.cfg == c.(peers := c.peers + [p])
  {
    var s := Scan(c.(peers := c.peers + [NO_PEER]), "peer", |c.peers|);
    ScanPeer(s, c, NO_PEER, b, rest);
    var p := ReadPeer(b, NO_PEER);
    t := if p.Ok? then s.(cfg := c.(peers := c.peers + [p.value])) else s;
  }

  /** Running the loop over lines that start a group, from any config. */
  lemma {:induction false} ScanGroups(s: Scan, ls: seq<Line>)
    requires ls != [] ==> ls[0].content.Header?
    ensures SameOutcome(ScanLines(s, ls), ReadGroups(Groups(ls), s.cfg))
    decreases |ls|
  {
    if ls != [] {
      var b := Body(ls[1..]);
      var rest := ls[1 + |b|..];
      var g := Group(ls[0].no, ls[0].content.name, b);
      assert ls[1..] == b + rest;
      assert Groups(ls)[0] == g && Groups(ls)[1..] == Groups(rest);
      var t := ScanOneGroup(s, ls, b, rest);
      if ReadGroup(g, s.cfg).Ok? {
        ScanGroups(t, rest);
      }
    }
  }

  predicate SameOutcome(scan: Result<Scan, Error>, read: Result<Config, Error>) {
    match read
    case Err(e) => scan == Err(e)
    case Ok(c) => scan.Ok? && scan.value.cfg == c
  }

  lemma {:induction false} ScanInterface(s: Scan, b: seq<Line>, rest: seq<Line>)
    requires s.section == "interface"
    requires forall i :: 0 <= i < |b| ==> !b[i].content.Header?
    ensures ScanLines(s, b + rest) ==
            match ReadInterface(b, s.cfg)
            case Err(e) => Err(e)
            case Ok(c) => ScanLines(s.(cfg := c), rest)
    decreases |b|
  {
    if b == [] {
      assert b + rest == rest;
    } else {
      assert (b + rest)[1..] == b[1..] + rest;
      match AsPair(b[0].content) {
        case Err(_) =>
        case Ok((k, v)) =>
          match InterfaceKey(s.cfg, k, v) {
            case Err(_) =>
            case Ok(c) => ScanInterface(s.(cfg := c), b[1..], rest);
          }
      }
    }
  }

  /** The index stays on the peer its header appended. */
  lemma {:induction false} ScanPeer(s: Scan, c: Config, p: Peer, b: seq<Line>, rest: seq<Line>)
    requires s == Scan(c.(peers := c.peers + [p]), "peer", |c.peers|)
    requires forall i :: 0 <= i < |b| ==> !b[i].content.Header?
    ensures ScanLines(s, b + rest) ==
            match ReadPeer(b, p)
            case Err(e) => Err(e)
            case Ok(q) => ScanLines(s.(cfg := c.(peers := c.peers + [q])), rest)
    decreases |b|
  {
    if b == [] {
      assert b + rest == rest;
    } else {
      assert (b + rest)[1..] == b[1..] + rest;
      match AsPair(b[0].content) {
        case Err(_) =>
        case Ok((k, v)) =>
          match PeerKey(p, k, v) {
            case Err(_) =>
            case Ok(q) =>
              assert (c.peers + [p])[|c.peers| := q] == c.peers + [q];
              ScanPeer(s.(cfg := c.(peers := c.peers + [q])), c, q, b[1..], rest);
          }
      }
    }
  }

  /** The single pass and the grouped reading agree on every text: result, error and line number. */
  lemma ScanIsGrouped(ls: seq<Line>)
    ensures SameOutcome(ScanLines(Scan(EMPTY, "", 0), ls), ReadLines(ls))
  {
    if Body(ls) == [] {
      ScanGroups(Scan(EMPTY, "", 0), ls);
    }
  }

  /** So a text parses to what the loop reads, validated. */
  lemma ParsedByScan(n: Net, text: string)
    ensures Parse(n, text) == match ScanLines(Scan(EMPTY, "", 0), LinesOf(text))
                              case Err(e) => Err(e)
                              case Ok(s) => Checked(n, s.cfg)
  {
    hide ScanLines, LinesOf, Checked, ReadLines;
    ScanIsGrouped(LinesOf(text));
  }
}
