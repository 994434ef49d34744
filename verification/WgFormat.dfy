/**
 The writer the parser inverts, what a text may vary without changing the result, and the chain
 from text to UCI store.
 */
module WgFormat {
  import opened Common
  import opened GoStrings
  import opened WgConfig
  import opened WgParser

  // ---------- What a text can spell ----------

  /** A non-empty value as it can stand on a line: no comment, no line end, no outer space. */
  predicate Token(s: string) {
    s != "" && Plain(s) && Trimmed(s)
  }

  predicate Plain(s: string) {
    '#' !in s && ';' !in s && '\n' !in s
  }

  predicate Item(s: string) {
    Token(s) && ',' !in s
  }

  predicate AllItems(xs: seq<string>) {
    forall i :: 0 <= i < |xs| ==> Item(xs[i])
  }

  predicate Endpoint(host: string, port: string) {
    && Plain(host) && '[' !in host && ']' !in host
    && Plain(port) && ':' !in port && '[' !in port && ']' !in port
    && (port != "" ==> !IsSpace(port[|port| - 1]))
  }

  predicate SpellablePeer(p: Peer) {
    && (p.publicKey == "" || Token(p.publicKey))
    && (p.presharedKey == "" || Token(p.presharedKey))
    && AllItems(p.allowedIPs)
    && Endpoint(p.endpointHost, p.endpointPort)
    && (p.keepalive == "" || Token(p.keepalive))
  }

  predicate Spellable(c: Config) {
    && (c.privateKey == "" || Token(c.privateKey))
    && AllItems(c.addresses) && AllItems(c.dns)
    && (c.mtu == "" || Token(c.mtu))
    && forall i :: 0 <= i < |c.peers| ==> SpellablePeer(c.peers[i])
  }

  // ---------- The writer ----------

  function Field(key: string, val: string): string {
    key + " = " + val
  }

  function CommaJoin(items: seq<string>): string {
    if items == [] then ""
    else if |items| == 1 then items[0]
    else items[0] + ", " + CommaJoin(items[1..])
  }

  function OptionalField(key: string, val: string): seq<string> {
    if val == "" then [] else [Field(key, val)]
  }

  /** Brackets when the host needs them, as in an IPv6 address. */
  function EndpointText(host: string, port: string): string {
    if ':' in host || (host != "" && IsSpace(host[0])) then "[" + host + "]:" + port else host + ":" + port
  }

  function InterfaceLines(c: Config): seq<string> {
    ["[Interface]", Field("PrivateKey", c.privateKey), Field("Address", CommaJoin(c.addresses))]
    + (if c.dns == [] then [] else [Field("DNS", CommaJoin(c.dns))])
    + OptionalField("MTU", c.mtu)
  }

  function PeerLines(p: Peer): seq<string> {
    ["[Peer]", Field("PublicKey", p.publicKey)]
    + OptionalField("PresharedKey", p.presharedKey)
    + [Field("AllowedIPs", CommaJoin(p.allowedIPs))]
    + (if p.endpointHost == "" && p.endpointPort == "" then []
       else [Field("Endpoint", EndpointText(p.endpointHost, p.endpointPort))])
    + OptionalField("PersistentKeepalive", p.keepalive)
  }

  function PeersLines(ps: seq<Peer>): seq<string> {
    if ps == [] then [] else PeerLines(ps[0]) + PeersLines(ps[1..])
  }

  function RenderLines(c: Config): seq<string> {
    InterfaceLines(c) + PeersLines(c.peers)
  }

  /** The config as a wg-quick file. */
  function Render(c: Config): string {
    Join(RenderLines(c), '\n')
  }

  // ---------- Cleaning a line ----------

  lemma {:induction false} StripPlain(s: string)
    requires '#' !in s && ';' !in s
    ensures StripComment(s) == s
  {
    if s != "" {
      assert s[0] in s;
      assert forall c :: c in s[1..] ==> c in s;
      StripPlain(s[1..]);
      assert [s[0]] + s[1..] == s;
    }
  }

  lemma {:induction false} CleanPlain(s: string)
    requires Plain(s) && Trimmed(s)
    ensures Clean(s) == s
  {
    TrimmedStays(s);
    StripPlain(s);
  }

  lemma {:induction false} StripPadded(a: string, t: string, b: string)
    requires AllSpace(a) && AllSpace(b) && Trimmed(t)
    ensures TrimSpace(StripComment(a + (t + b))) == TrimSpace(StripComment(t))
  {
    hide TrimSpace, AllSpace, Trimmed;
    StripPadLeft(a, t + b);
    if '#' in t || ';' in t {
      StripPadRight(t, b);
      TrimPadLeft(a, StripComment(t));
    } else {
      NoCommentInSpace(b);
      StripPlain(t);
      StripPlain(t + b);
      TrimPad(a, t, b);
      assert a + t + b == a + (t + b);
    }
  }

  lemma {:induction false} TrimPadLeft(a: string, s: string)
    requires AllSpace(a)
    ensures TrimSpace(a + s) == TrimSpace(s)
  {
    TrimPad(a, s, "");
    assert a + s + "" == a + s;
  }

  /** The outer trim does not matter: a cleaned line is its uncommented part, trimmed. */
  lemma {:induction false} CleanIsStripped(raw: string)
    ensures Clean(raw) == TrimSpace(StripComment(raw))
  {
    var a, b := TrimSplits(raw);
    var t := TrimSpace(raw);
    TrimIsTrimmed(raw);
    assert raw == a + (t + b);
    StripPadded(a, t, b);
  }

  lemma {:induction false} NoCommentInSpace(b: string)
    requires AllSpace(b)
    ensures '#' !in b && ';' !in b
  {
  }

  lemma {:induction false} StripPadLeft(a: string, s: string)
    requires AllSpace(a)
    ensures StripComment(a + s) == a + StripComment(s)
  {
    if a == "" {
      assert a + s == s;
    } else {
      assert (a + s)[1..] == a[1..] + s;
      assert !Comments(a[0]);
      StripPadLeft(a[1..], s);
    }
  }

  /** Nothing after the first comment character matters. */
  lemma {:induction false} StripPadRight(s: string, b: string)
    requires '#' in s || ';' in s
    ensures StripComment(s + b) == StripComment(s)
  {
    assert (s + b)[1..] == s[1..] + b;
    if !Comments(s[0]) {
      assert s == [s[0]] + s[1..];
      StripPadRight(s[1..], b);
    }
  }

  lemma {:induction false} StripMark(s: string, mark: char, b: string)
    requires Comments(mark)
    ensures StripComment(s + [mark] + b) == StripComment(s)
  {
    if s == "" {
      assert s + [mark] + b == [mark] + b;
    } else {
      assert (s + [mark] + b)[1..] == s[1..] + [mark] + b;
      StripMark(s[1..], mark, b);
    }
  }

  // ---------- What may vary ----------

  /** Surrounding space does not change what a line says. */
  lemma {:induction false} SpaceDoesNotMatter(a: string, raw: string, b: string)
    requires AllSpace(a) && AllSpace(b)
    ensures Clean(a + raw + b) == Clean(raw)
  {
    TrimPad(a, raw, b);
  }

  /** Neither does a trailing comment. */
  lemma {:induction false} CommentDoesNotMatter(raw: string, mark: char, comment: string)
    requires Comments(mark)
    ensures Clean(raw + [mark] + comment) == Clean(raw)
  {
    CleanIsStripped(raw + [mark] + comment);
    CleanIsStripped(raw);
    StripMark(raw, mark, comment);
  }

  /** Neither does the case of a key. */
  lemma {:induction false} KeyCaseDoesNotMatter(k: string, l: string, v: string)
    requires ToLower(k) == ToLower(l) && '=' !in k && '=' !in l
    requires !IsHeader(k + "=" + v)
    ensures Read(k + "=" + v) == Read(l + "=" + v)
  {
    assert |k| == |l| by {
      assert |ToLower(k)| == |ToLower(l)|;
    }
    CutAt(k, v, '=');
    CutAt(l, v, '=');
    assert k + ['='] + v == k + "=" + v && l + ['='] + v == l + "=" + v;
    LowerTrim(k);
    LowerTrim(l);
    assert k != "" ==> ToLower(k)[0] == ToLower(l)[0];
    SameEnds(k, l, v);
  }

  lemma {:induction false} SameEnds(k: string, l: string, v: string)
    requires |k| == |l| && (k != "" ==> LowerChar(k[0]) == LowerChar(l[0]))
    ensures IsHeader(k + "=" + v) <==> IsHeader(l + "=" + v)
  {
    var f := k + "=" + v;
    var g := l + "=" + v;
    var last := |f| - 1;
    assert f[last] == if v == "" then '=' else v[|v| - 1];
    assert g[last] == if v == "" then '=' else v[|v| - 1];
    assert f[0] == if k == "" then '=' else k[0];
    assert g[0] == if k == "" then '=' else l[0];
  }

  lemma {:induction false} LowerTrim(s: string)
    ensures TrimSpace(ToLower(s)) == ToLower(TrimSpace(s))
  {
    LowerTrimLeft(s);
    LowerTrimRight(TrimLeft(s));
  }

  lemma {:induction false} LowerTrimLeft(s: string)
    ensures TrimLeft(ToLower(s)) == ToLower(TrimLeft(s))
  {
    if s != "" && IsSpace(s[0]) {
      assert ToLower(s)[1..] == ToLower(s[1..]);
      LowerTrimLeft(s[1..]);
    }
  }

  lemma {:induction false} LowerTrimRight(s: string)
    ensures TrimRight(ToLower(s)) == ToLower(TrimRight(s))
  {
    if s != "" && IsSpace(s[|s| - 1]) {
      assert ToLower(s)[..|s| - 1] == ToLower(s[..|s| - 1]);
      LowerTrimRight(s[..|s| - 1]);
    }
  }

  /** What one raw line says; nothing, if it is blank or a comment. */
  function Says(raw: string): seq<Content> {
    var line := Clean(raw);
    if line == "" then [] else [Read(line)]
  }

  function FlatMap<T>(f: string -> seq<T>, raws: seq<string>): seq<T> {
    if raws == [] then [] else f(raws[0]) + FlatMap(f, raws[1..])
  }

  /** What a text says, line numbers aside. */
  function Contents(raws: seq<string>): seq<Content> {
    FlatMap(Says, raws)
  }

  lemma {:induction false} FlatMapAppend<T>(f: string -> seq<T>, a: seq<string>, b: seq<string>)
    ensures FlatMap(f, a + b) == FlatMap(f, a) + FlatMap(f, b)
  {
    if a == [] {
      assert a + b == b;
    } else {
      assert (a + b)[1..] == a[1..] + b;
      FlatMapAppend(f, a[1..], b);
    }
  }

  lemma {:induction false} FlatMapInsert<T>(f: string -> seq<T>, raws: seq<string>, i: nat, blank: string)
    requires i <= |raws| && f(blank) == []
    ensures FlatMap(f, raws[..i] + [blank] + raws[i..]) == FlatMap(f, raws)
  {
    FlatMapAppend(f, raws[..i] + [blank], raws[i..]);
    FlatMapAppend(f, raws[..i], [blank]);
    FlatMapAppend(f, raws[..i], raws[i..]);
    assert raws[..i] + raws[i..] == raws;
    assert FlatMap(f, [blank]) == f(blank) + FlatMap(f, []);
  }

  /** Blank and comment-only lines may be put in anywhere. */
  lemma {:induction false} BlankDoesNotMatter(raws: seq<string>, i: nat, blank: string)
    requires i <= |raws| && Clean(blank) == ""
    ensures Contents(raws[..i] + [blank] + raws[i..]) == Contents(raws)
  {
    FlatMapInsert(Says, raws, i, blank);
  }

  lemma {:induction false} ContentsOfLines(raws: seq<string>, from: nat)
    ensures |Significant(raws, from)| == |Contents(raws)|
    ensures forall i :: 0 <= i < |Contents(raws)| ==> Significant(raws, from)[i].content == Contents(raws)[i]
    decreases |raws|
  {
    if raws != [] {
      ContentsOfLines(raws[1..], from + 1);
    }
  }

  lemma {:induction false} ScanByContents(s: Scan, a: seq<Line>, b: seq<Line>)
    requires |a| == |b| && forall i :: 0 <= i < |a| ==> a[i].content == b[i].content
    ensures ScanLines(s, a).Ok? ==> ScanLines(s, b) == ScanLines(s, a)
    decreases |a|
  {
    if a != [] {
      match Step(s, a[0].content) {
        case Err(_) =>
        case Ok(t) => ScanByContents(t, a[1..], b[1..]);
      }
    }
  }

  /** Two texts that say the same parse to the same config, if one of them parses at all. */
  lemma {:induction false} SameContentsSameResult(n: Net, text1: string, text2: string)
    requires Contents(Split(text1, '\n')) == Contents(Split(text2, '\n'))
    requires Parse(n, text1).Ok?
    ensures Parse(n, text2) == Parse(n, text1)
  {
    var a := LinesOf(text1);
    var b := LinesOf(text2);
    ContentsOfLines(Split(text1, '\n'), 0);
    ContentsOfLines(Split(text2, '\n'), 0);
    ScanIsGrouped(a);
    ScanIsGrouped(b);
    ScanByContents(Scan(EMPTY, "", 0), a, b);
  }

  // ---------- Reading back one line ----------

  /** The key names the writer uses, with their lower-case forms. */
  predicate KeyName(key: string, low: string) {
    && key != "" && Plain(key) && '=' !in key && Trimmed(key) && key[0] != '['
    && ToLower(key) == low
  }

  lemma {:induction false} FieldReads(key: string, low: string, val: string)
    requires KeyName(key, low) && Token(val)
    ensures Clean(Field(key, val)) == Field(key, val) != ""
    ensures Read(Field(key, val)) == Pair(low, val)
    ensures '\n' !in Field(key, val)
  {
    FieldIsClean(key, low, val);
    FieldIsPair(key, low, val);
  }

  lemma {:induction false} FieldIsClean(key: string, low: string, val: string)
    requires KeyName(key, low) && Token(val)
    ensures Clean(Field(key, val)) == Field(key, val) != ""
    ensures '\n' !in Field(key, val)
  {
    hide Clean;
    var f := Field(key, val);
    assert f[0] == key[0] && f[|f| - 1] == val[|val| - 1];
    CleanPlain(f);
  }

  lemma {:induction false} FieldIsPair(key: string, low: string, val: string)
    requires KeyName(key, low) && Token(val)
    ensures Read(Field(key, val)) == Pair(low, val)
  {
    hide TrimSpace, ToLower, Cut;
    var f := Field(key, val);
    assert f[0] == key[0];
    assert f == (key + " ") + ['='] + (" " + val);
    CutAt(key + " ", " " + val, '=');
    TrimPad("", key, " ");
    assert "" + key + " " == key + " ";
    TrimPad(" ", val, "");
    assert " " + val + "" == " " + val;
    TrimmedStays(key);
    TrimmedStays(val);
  }

  lemma {:induction false} ListReads(items: seq<string>, pad: string)
    requires items != [] && AllItems(items) && AllSpace(pad)
    ensures ListItems(pad + CommaJoin(items)) == items
    decreases |items|
  {
    var x := items[0];
    assert Item(x);
    TrimPad(pad, x, "");
    assert pad + x + "" == pad + x;
    TrimmedStays(x);
    assert ',' !in pad + x by {
      assert forall i :: 0 <= i < |pad| ==> pad[i] != ',';
    }
    if |items| == 1 {
      SplitNone(pad + x, ',');
      assert items == [x];
      assert KeepItems([pad + x]) == [x] + KeepItems([pad + x][1..]);
    } else {
      var rest := CommaJoin(items[1..]);
      assert pad + CommaJoin(items) == (pad + x) + [','] + (" " + rest);
      SplitFirst(pad + x, " " + rest, ',');
      ListReads(items[1..], " ");
      var parts := Split(" " + rest, ',');
      assert ([pad + x] + parts)[1..] == parts;
      assert KeepItems([pad + x] + parts) == [x] + KeepItems(parts);
    }
  }

  lemma {:induction false} CommaJoinToken(items: seq<string>)
    requires items != [] && AllItems(items)
    ensures Token(CommaJoin(items))
    decreases |items|
  {
    assert Item(items[0]);
    if |items| > 1 {
      CommaJoinToken(items[1..]);
      var j := CommaJoin(items);
      var rest := CommaJoin(items[1..]);
      assert j[0] == items[0][0] && j[|j| - 1] == rest[|rest| - 1];
    }
  }

  lemma {:induction false} LastIndexIs(s: string, c: char, i: nat)
    requires i < |s| && s[i] == c && forall j :: i < j < |s| ==> s[j] != c
    ensures LastIndex(s, c) == i
  {
    var k := LastIndex(s, c);
    assert k >= i;
  }

  lemma {:induction false} IndexIs(s: string, c: char, i: nat)
    requires i < |s| && s[i] == c && c !in s[..i]
    ensures Index(s, c) == i
  {
    var k := Index(s, c);
    assert s[i] in s;
    assert c in s;
    assert s[..k + 1] == s[..k] + [c];
  }

  /** net.SplitHostPort inverts the writer's spelling of an endpoint. */
  lemma {:induction false} EndpointReads(host: string, port: string)
    requires Endpoint(host, port)
    ensures SplitHostPort(EndpointText(host, port)) == Some((host, port))
  {
    if ':' in host || (host != "" && IsSpace(host[0])) {
      BracketedReads(host, port);
    } else {
      BareReads(host, port);
    }
  }

  lemma {:induction false} LastColon(before: string, port: string)
    requires ':' !in port
    ensures LastIndex(before + ":" + port, ':') == |before|
  {
    var t := before + ":" + port;
    forall j | |before| < j < |t|
      ensures t[j] != ':'
    {
      assert t[j] == port[j - |before| - 1];
    }
    LastIndexIs(t, ':', |before|);
  }

  lemma {:induction false} BracketedReads(host: string, port: string)
    requires Endpoint(host, port)
    ensures SplitHostPort("[" + host + "]:" + port) == Some((host, port))
  {
    var t := "[" + host + "]:" + port;
    var open := "[" + host;
    assert t == open + "]" + ":" + port;
    LastColon(open + "]", port);
    assert t[..|open|] == open;
    IndexIs(t, ']', |open|);
    assert t[1..|open|] == host;
    assert t[|open| + 2..] == port;
    assert t[1..] == host + "]:" + port;
    assert t[|open| + 1..] == ":" + port;
  }

  lemma {:induction false} BareReads(host: string, port: string)
    requires Endpoint(host, port) && ':' !in host
    ensures SplitHostPort(host + ":" + port) == Some((host, port))
  {
    var t := host + ":" + port;
    LastColon(host, port);
    assert t[..|host|] == host;
    assert t[|host| + 1..] == port;
    assert t[0] == if host == "" then ':' else host[0];
    assert host != "" ==> host[0] in host;
  }

  lemma {:induction false} EndpointToken(host: string, port: string)
    requires Endpoint(host, port)
    ensures Token(EndpointText(host, port))
  {
    var t := EndpointText(host, port);
    if port != "" {
      assert t[|t| - 1] == port[|port| - 1];
    }
  }

  // ---------- Reading back the whole file ----------

  /** Whatever their numbers, the lines take the loop from s to t. */
  ghost predicate Goes(s: Scan, raws: seq<string>, t: Scan) {
    forall from: nat :: ScanLines(s, Significant(raws, from)) == Ok(t)
  }

  lemma {:induction false} SignificantAppend(a: seq<string>, b: seq<string>, from: nat)
    ensures Significant(a + b, from) == Significant(a, from) + Significant(b, from + |a|)
    decreases |a|
  {
    hide Significant;
    if a == [] {
      assert a + b == b;
      SignificantNone(from);
      assert [] + Significant(b, from) == Significant(b, from);
    } else {
      assert (a + b)[0] == a[0] && (a + b)[1..] == a[1..] + b;
      SignificantHead(a, from);
      SignificantHead(a + b, from);
      SignificantAppend(a[1..], b, from + 1);
    }
  }

  /** What the first line contributes. */
  function HeadLine(raw: string, from: nat): seq<Line> {
    if Clean(raw) == "" then [] else [Line(from + 1, Read(Clean(raw)))]
  }

  lemma SignificantHead(raws: seq<string>, from: nat)
    requires raws != []
    ensures Significant(raws, from) == HeadLine(raws[0], from) + Significant(raws[1..], from + 1)
  {
    hide Read, Clean;
  }

  lemma SignificantNone(from: nat)
    ensures Significant([], from) == []
  {
  }

  lemma {:induction false} ScanAppend(s: Scan, a: seq<Line>, b: seq<Line>)
    ensures ScanLines(s, a + b) ==
            match ScanLines(s, a)
            case Err(e) => Err(e)
            case Ok(t) => ScanLines(t, b)
    decreases |a|
  {
    if a == [] {
      assert a + b == b;
    } else {
      assert (a + b)[1..] == a[1..] + b;
      var step := Step(s, a[0].content);
      if step.Ok? {
        ScanAppend(step.value, a[1..], b);
      }
    }
  }

  lemma {:induction false} GoesNowhere(s: Scan)
    ensures Goes(s, [], s)
  {
  }

  lemma {:induction false} GoesOn(s: Scan, a: seq<string>, t: Scan, b: seq<string>, u: Scan)
    requires Goes(s, a, t) && Goes(t, b, u)
    ensures Goes(s, a + b, u)
  {
    forall from: nat
      ensures ScanLines(s, Significant(a + b, from)) == Ok(u)
    {
      SignificantAppend(a, b, from);
      ScanAppend(s, Significant(a, from), Significant(b, from + |a|));
    }
  }

  lemma {:induction false} GoesOne(s: Scan, raw: string, content: Content, t: Scan)
    requires Clean(raw) == raw != "" && Read(raw) == content && Step(s, content) == Ok(t)
    ensures Goes(s, [raw], t)
  {
    forall from: nat
      ensures ScanLines(s, Significant([raw], from)) == Ok(t)
    {
      assert [raw][1..] == [];
      assert Significant([raw], from) == [Line(from + 1, content)];
      assert [Line(from + 1, content)][1..] == [];
    }
  }

  /** One `key = value` line of the writer. */
  lemma {:induction false} GoesField(s: Scan, key: string, low: string, val: string, t: Scan)
    requires KeyName(key, low) && Token(val) && StepPair(s, low, val) == Ok(t)
    ensures Goes(s, [Field(key, val)], t)
  {
    FieldReads(key, low, val);
    GoesOne(s, Field(key, val), Pair(low, val), t);
  }

  lemma {:induction false} BracketsTrimmed(name: string)
    requires name != "" && forall i :: 0 <= i < |name| ==> IsLetter(name[i])
    ensures Clean("[" + name + "]") == "[" + name + "]" != ""
    ensures Read("[" + name + "]") == Header(ToLower(name))
  {
    var h := "[" + name + "]";
    hide Clean, Read;
    assert forall c :: c in name ==> IsLetter(c);
    CleanPlain(h);
    HeaderNamed(name);
  }

  lemma HeaderNamed(name: string)
    requires name != "" && forall i :: 0 <= i < |name| ==> IsLetter(name[i])
    ensures Read("[" + name + "]") == Header(ToLower(name))
  {
    hide ToLower, Cut, TrimSpace;
    var h := "[" + name + "]";
    assert h[1..] == name + "]";
    assert (name + "]")[0] == name[0];
    assert TrimBracketsLeft(h) == name + "]";
    assert (name + "]")[..|name|] == name;
    assert TrimBracketsRight(name + "]") == name;
  }

  lemma {:induction false} InterfaceHeaderReads()
    ensures Clean("[Interface]") == "[Interface]" && Read("[Interface]") == Header("interface")
  {
    BracketsTrimmed("Interface");
    LetterKey("Interface", "interface");
    assert "[" + "Interface" + "]" == "[Interface]";
  }

  lemma {:induction false} PeerHeaderReads()
    ensures Clean("[Peer]") == "[Peer]" && Read("[Peer]") == Header("peer")
  {
    BracketsTrimmed("Peer");
    LetterKey("Peer", "peer");
    assert "[" + "Peer" + "]" == "[Peer]";
  }

  predicate IsLetter(c: char) {
    'a' <= c <= 'z' || 'A' <= c <= 'Z'
  }

  lemma {:induction false} LetterKey(key: string, low: string)
    requires |key| == |low| > 0
    requires forall i :: 0 <= i < |key| ==> IsLetter(key[i]) && LowerChar(key[i]) == low[i]
    ensures KeyName(key, low)
  {
    assert forall c :: c in key ==> IsLetter(c);
    assert ToLower(key) == low;
  }

  lemma {:induction false} KeyPrivateKey()
    ensures KeyName("PrivateKey", "privatekey")
  {
    LetterKey("PrivateKey", "privatekey");
  }

  lemma {:induction false} KeyAddress()
    ensures KeyName("Address", "address")
  {
    LetterKey("Address", "address");
  }

  lemma {:induction false} KeyDNS()
    ensures KeyName("DNS", "dns")
  {
    LetterKey("DNS", "dns");
  }

  lemma {:induction false} KeyMTU()
    ensures KeyName("MTU", "mtu")
  {
    LetterKey("MTU", "mtu");
  }

  lemma {:induction false} KeyPublicKey()
    ensures KeyName("PublicKey", "publickey")
  {
    LetterKey("PublicKey", "publickey");
  }

  lemma {:induction false} KeyPresharedKey()
    ensures KeyName("PresharedKey", "presharedkey")
  {
    LetterKey("PresharedKey", "presharedkey");
  }

  lemma {:induction false} KeyAllowedIPs()
    ensures KeyName("AllowedIPs", "allowedips")
  {
    LetterKey("AllowedIPs", "allowedips");
  }

  lemma {:induction false} KeyEndpoint()
    ensures KeyName("Endpoint", "endpoint")
  {
    LetterKey("Endpoint", "endpoint");
  }

  lemma {:induction false} KeyPersistentKeepalive()
    ensures KeyName("PersistentKeepalive", "persistentkeepalive")
  {
    LetterKey("PersistentKeepalive", "persistentkeepalive");
  }

  lemma {:induction false} ListValue(items: seq<string>)
    requires items != [] && AllItems(items)
    ensures Token(CommaJoin(items)) && ListItems(CommaJoin(items)) == items
  {
    CommaJoinToken(items);
    ListReads(items, "");
    assert "" + CommaJoin(items) == CommaJoin(items);
  }

  /** A list field in the interface section, absent when the list is empty. */
  lemma {:induction false} GoesDns(s: Scan, dns: seq<string>)
    requires s.section == "interface" && s.cfg.dns == [] && AllItems(dns)
    ensures Goes(s, if dns == [] then [] else [Field("DNS", CommaJoin(dns))], s.(cfg := s.cfg.(dns := dns)))
  {
    if dns == [] {
      GoesNowhere(s);
    } else {
      ListValue(dns);
      KeyDNS();
      assert s.cfg.dns + dns == dns;
      GoesField(s, "DNS", "dns", CommaJoin(dns), s.(cfg := s.cfg.(dns := dns)));
    }
  }

  lemma {:induction false} GoesMtu(s: Scan, mtu: string)
    requires s.section == "interface" && s.cfg.mtu == "" && (mtu == "" || Token(mtu))
    ensures Goes(s, OptionalField("MTU", mtu), s.(cfg := s.cfg.(mtu := mtu)))
  {
    if mtu == "" {
      GoesNowhere(s);
    } else {
      KeyMTU();
      GoesField(s, "MTU", "mtu", mtu, s.(cfg := s.cfg.(mtu := mtu)));
    }
  }

  lemma {:induction false} GoesInterfaceStart(key: string, addresses: seq<string>)
    requires Token(key) && addresses != [] && AllItems(addresses)
    ensures Goes(Scan(EMPTY, "", 0),
                 ["[Interface]", Field("PrivateKey", key), Field("Address", CommaJoin(addresses))],
                 Scan(EMPTY.(privateKey := key, addresses := addresses), "interface", 0))
  {
    var s0 := Scan(EMPTY, "", 0);
    var s1 := Scan(EMPTY, "interface", 0);
    var s2 := Scan(EMPTY.(privateKey := key), "interface", 0);
    var s3 := Scan(EMPTY.(privateKey := key, addresses := addresses), "interface", 0);
    InterfaceHeaderReads();
    GoesOne(s0, "[Interface]", Header("interface"), s1);
    KeyPrivateKey();
    GoesField(s1, "PrivateKey", "privatekey", key, s2);
    GoesAddress(s2, addresses);
    GoesThree(s0, "[Interface]", s1, Field("PrivateKey", key), s2, Field("Address", CommaJoin(addresses)), s3);
  }

  lemma {:induction false} GoesThree(s: Scan, a: string, t: Scan, b: string, u: Scan, c: string, v: Scan)
    requires Goes(s, [a], t) && Goes(t, [b], u) && Goes(u, [c], v)
    ensures Goes(s, [a, b, c], v)
  {
    GoesOn(s, [a], t, [b], u);
    GoesOn(s, [a] + [b], u, [c], v);
    assert [a] + [b] + [c] == [a, b, c];
  }

  lemma {:induction false} GoesAddress(s: Scan, addresses: seq<string>)
    requires s.section == "interface" && s.cfg.addresses == [] && addresses != [] && AllItems(addresses)
    ensures Goes(s, [Field("Address", CommaJoin(addresses))], s.(cfg := s.cfg.(addresses := addresses)))
  {
    KeyAddress();
    ListValue(addresses);
    assert s.cfg.addresses + addresses == addresses;
    GoesField(s, "Address", "address", CommaJoin(addresses), s.(cfg := s.cfg.(addresses := addresses)));
  }

  lemma {:induction false} GoesInterface(c: Config)
    requires Spellable(c) && c.privateKey != "" && c.addresses != []
    ensures Goes(Scan(EMPTY, "", 0), InterfaceLines(c), Scan(c.(peers := []), "interface", 0))
  {
    var s0 := Scan(EMPTY, "", 0);
    var s1 := Scan(EMPTY.(privateKey := c.privateKey, addresses := c.addresses), "interface", 0);
    var s2 := s1.(cfg := s1.cfg.(dns := c.dns));
    var s3 := s2.(cfg := s2.cfg.(mtu := c.mtu));
    var start := ["[Interface]", Field("PrivateKey", c.privateKey), Field("Address", CommaJoin(c.addresses))];
    var dns := if c.dns == [] then [] else [Field("DNS", CommaJoin(c.dns))];
    GoesInterfaceStart(c.privateKey, c.addresses);
    GoesDns(s1, c.dns);
    GoesMtu(s2, c.mtu);
    GoesOn(s0, start, s1, dns, s2);
    GoesOn(s0, start + dns, s2, OptionalField("MTU", c.mtu), s3);
  }

  // ---------- Reading back a peer ----------

  /** The scan after the current peer has become q. */
  function AtPeer(c: Config, q: Peer): Scan {
    Scan(c.(peers := c.peers + [q]), "peer", |c.peers|)
  }

  lemma {:induction false} GoesPeerField(c: Config, p: Peer, key: string, low: string, val: string, q: Peer)
    requires KeyName(key, low) && Token(val) && PeerKey(p, low, val) == Ok(q)
    ensures Goes(AtPeer(c, p), [Field(key, val)], AtPeer(c, q))
  {
    assert (c.peers + [p])[|c.peers| := q] == c.peers + [q];
    GoesField(AtPeer(c, p), key, low, val, AtPeer(c, q));
  }

  lemma {:induction false} GoesPsk(c: Config, p: Peer, val: string)
    requires p.presharedKey == "" && (val == "" || Token(val))
    ensures Goes(AtPeer(c, p), OptionalField("PresharedKey", val), AtPeer(c, p.(presharedKey := val)))
  {
    KeyPresharedKey();
    if val == "" {
      GoesNowhere(AtPeer(c, p));
    } else {
      GoesPeerField(c, p, "PresharedKey", "presharedkey", val, p.(presharedKey := val));
    }
  }

  lemma {:induction false} GoesKeepalive(c: Config, p: Peer, val: string)
    requires p.keepalive == "" && (val == "" || Token(val))
    ensures Goes(AtPeer(c, p), OptionalField("PersistentKeepalive", val), AtPeer(c, p.(keepalive := val)))
  {
    KeyPersistentKeepalive();
    if val == "" {
      GoesNowhere(AtPeer(c, p));
    } else {
      GoesPeerField(c, p, "PersistentKeepalive", "persistentkeepalive", val, p.(keepalive := val));
    }
  }

  lemma {:induction false} GoesEndpoint(c: Config, p: Peer, host: string, port: string)
    requires p.endpointHost == "" && p.endpointPort == "" && Endpoint(host, port)
    ensures Goes(AtPeer(c, p),
                 if host == "" && port == "" then [] else [Field("Endpoint", EndpointText(host, port))],
                 AtPeer(c, p.(endpointHost := host, endpointPort := port)))
  {
    KeyEndpoint();
    if host == "" && port == "" {
      GoesNowhere(AtPeer(c, p));
    } else {
      EndpointReads(host, port);
      EndpointToken(host, port);
      GoesPeerField(c, p, "Endpoint", "endpoint", EndpointText(host, port), p.(endpointHost := host, endpointPort := port));
    }
  }

  lemma {:induction false} GoesPeerStart(s: Scan, key: string)
    requires Token(key)
    ensures Goes(s, ["[Peer]", Field("PublicKey", key)], AtPeer(s.cfg, NO_PEER.(publicKey := key)))
  {
    PeerHeaderReads();
    KeyPublicKey();
    GoesOne(s, "[Peer]", Header("peer"), AtPeer(s.cfg, NO_PEER));
    GoesPeerField(s.cfg, NO_PEER, "PublicKey", "publickey", key, NO_PEER.(publicKey := key));
    GoesOn(s, ["[Peer]"], AtPeer(s.cfg, NO_PEER), [Field("PublicKey", key)], AtPeer(s.cfg, NO_PEER.(publicKey := key)));
    assert ["[Peer]"] + [Field("PublicKey", key)] == ["[Peer]", Field("PublicKey", key)];
  }

  lemma {:induction false} GoesAllowed(c: Config, p: Peer, ips: seq<string>)
    requires p.allowedIPs == [] && ips != [] && AllItems(ips)
    ensures Goes(AtPeer(c, p), [Field("AllowedIPs", CommaJoin(ips))], AtPeer(c, p.(allowedIPs := ips)))
  {
    KeyAllowedIPs();
    ListValue(ips);
    assert [] + ips == ips;
    GoesPeerField(c, p, "AllowedIPs", "allowedips", CommaJoin(ips), p.(allowedIPs := ips));
  }

  lemma {:induction false} GoesPeer(s: Scan, p: Peer)
    requires SpellablePeer(p) && p.publicKey != "" && p.allowedIPs != []
    ensures Goes(s, PeerLines(p), AtPeer(s.cfg, p))
  {
    var c := s.cfg;
    var p1 := NO_PEER.(publicKey := p.publicKey);
    var p2 := p1.(presharedKey := p.presharedKey);
    var p3 := p2.(allowedIPs := p.allowedIPs);
    var p4 := p3.(endpointHost := p.endpointHost, endpointPort := p.endpointPort);
    var l1 := ["[Peer]", Field("PublicKey", p.publicKey)];
    var l2 := OptionalField("PresharedKey", p.presharedKey);
    var l3 := [Field("AllowedIPs", CommaJoin(p.allowedIPs))];
    var l4 := if p.endpointHost == "" && p.endpointPort == "" then []
              else [Field("Endpoint", EndpointText(p.endpointHost, p.endpointPort))];
    var l5 := OptionalField("PersistentKeepalive", p.keepalive);
    GoesPeerStart(s, p.publicKey);
    GoesPsk(c, p1, p.presharedKey);
    GoesAllowed(c, p2, p.allowedIPs);
    GoesEndpoint(c, p3, p.endpointHost, p.endpointPort);
    GoesKeepalive(c, p4, p.keepalive);
    GoesOn(s, l1, AtPeer(c, p1), l2, AtPeer(c, p2));
    GoesOn(s, l1 + l2, AtPeer(c, p2), l3, AtPeer(c, p3));
    GoesOn(s, l1 + l2 + l3, AtPeer(c, p3), l4, AtPeer(c, p4));
    GoesOn(s, l1 + l2 + l3 + l4, AtPeer(c, p4), l5, AtPeer(c, p));
  }

  lemma {:induction false} GoesPeers(s: Scan, ps: seq<Peer>) returns (t: Scan)
    requires forall i :: 0 <= i < |ps| ==> SpellablePeer(ps[i]) && ps[i].publicKey != "" && ps[i].allowedIPs != []
    ensures Goes(s, PeersLines(ps), t) && t.cfg == s.cfg.(peers := s.cfg.peers + ps)
    decreases |ps|
  {
    if ps == [] {
      GoesNowhere(s);
      assert s.cfg.peers + [] == s.cfg.peers;
      t := s;
    } else {
      GoesPeer(s, ps[0]);
      var u := AtPeer(s.cfg, ps[0]);
      t := GoesPeers(u, ps[1..]);
      GoesOn(s, PeerLines(ps[0]), u, PeersLines(ps[1..]), t);
      assert s.cfg.peers + [ps[0]] + ps[1..] == s.cfg.peers + ps;
    }
  }

  // ---------- The round trip ----------

  lemma {:induction false} ValidMeans(n: Net, c: Config)
    requires Validate(n, c) == None
    ensures c.privateKey != "" && c.addresses != [] && c.peers != []
    ensures forall i :: 0 <= i < |c.peers| ==> c.peers[i].publicKey != "" && c.peers[i].allowedIPs != []
  {
    PeersValid(n, c.peers, 1);
  }

  lemma {:induction false} PeersValid(n: Net, ps: seq<Peer>, i: nat)
    requires PeersFlaw(n, ps, i) == None
    ensures forall k :: 0 <= k < |ps| ==> ps[k].publicKey != "" && ps[k].allowedIPs != []
    decreases |ps|
  {
    if ps != [] {
      assert PeerFlaw(n, ps[0], i) == None;
      PeersValid(n, ps[1..], i + 1);
      assert forall k :: 0 < k < |ps| ==> ps[k] == ps[1..][k - 1];
    }
  }

  predicate NoNewline(s: string) {
    '\n' !in s
  }

  predicate NoNewlines(lines: seq<string>) {
    forall i :: 0 <= i < |lines| ==> NoNewline(lines[i])
  }

  lemma {:induction false} CommaJoinNoNewline(items: seq<string>)
    requires AllItems(items)
    ensures NoNewline(CommaJoin(items))
  {
    if items != [] {
      CommaJoinToken(items);
    }
  }

  lemma {:induction false} PeerNoNewlines(p: Peer)
    requires SpellablePeer(p)
    ensures NoNewlines(PeerLines(p))
  {
    hide CommaJoin, EndpointText, AllItems;
    CommaJoinNoNewline(p.allowedIPs);
    EndpointToken(p.endpointHost, p.endpointPort);
    assert NoNewlines(OptionalField("PresharedKey", p.presharedKey));
    assert NoNewlines(OptionalField("PersistentKeepalive", p.keepalive));
    assert NoNewline(Field("AllowedIPs", CommaJoin(p.allowedIPs)));
    assert NoNewline(Field("PublicKey", p.publicKey));
    assert NoNewline(Field("Endpoint", EndpointText(p.endpointHost, p.endpointPort)));
  }

  lemma {:induction false} PeersNoNewlines(ps: seq<Peer>)
    requires forall i :: 0 <= i < |ps| ==> SpellablePeer(ps[i])
    ensures NoNewlines(PeersLines(ps))
  {
    if ps != [] {
      PeerNoNewlines(ps[0]);
      PeersNoNewlines(ps[1..]);
    }
  }

  lemma {:induction false} RenderNoNewlines(c: Config)
    requires Spellable(c)
    ensures NoNewlines(RenderLines(c))
  {
    hide CommaJoin, PeersLines, AllItems, SpellablePeer;
    CommaJoinNoNewline(c.addresses);
    CommaJoinNoNewline(c.dns);
    assert NoNewline(Field("PrivateKey", c.privateKey));
    assert NoNewline(Field("Address", CommaJoin(c.addresses)));
    assert NoNewline(Field("DNS", CommaJoin(c.dns)));
    assert NoNewlines(OptionalField("MTU", c.mtu));
    PeersNoNewlines(c.peers);
  }

  /** Every valid config a text can spell is read back from its own rendering. */
  lemma {:induction false} RenderParses(n: Net, c: Config)
    requires Spellable(c) && Validate(n, c) == None
    ensures Parse(n, Render(c)) == Ok(c)
  {
    hide Significant, ScanLines, Split, Join, Parse, Validate;
    var lines := RenderLines(c);
    RenderNoNewlines(c);
    SplitJoin(lines, '\n');
    ValidMeans(n, c);
    var s0 := Scan(EMPTY, "", 0);
    var s1 := Scan(c.(peers := []), "interface", 0);
    GoesInterface(c);
    var t := GoesPeers(s1, c.peers);
    GoesOn(s0, InterfaceLines(c), s1, PeersLines(c.peers), t);
    assert [] + c.peers == c.peers;
    assert ScanLines(s0, Significant(lines, 0)) == Ok(t);
    assert LinesOf(Render(c)) == Significant(lines, 0);
    ParsedByScan(n, Render(c));
  }

  // ---------- Nothing else is ever returned ----------

  lemma {:induction false} PlainPart(s: string, lo: nat, hi: nat)
    requires Plain(s) && lo <= hi <= |s|
    ensures Plain(s[lo..hi])
  {
    assert forall c :: c in s[lo..hi] ==> c in s;
  }

  lemma {:induction false} PlainTrim(s: string)
    requires Plain(s)
    ensures Plain(TrimSpace(s))
  {
    var a, b := TrimSplits(s);
    var t := TrimSpace(s);
    assert s[|a|..|a| + |t|] == t;
    PlainPart(s, |a|, |a| + |t|);
  }

  lemma {:induction false} CleanIsPlain(raw: string)
    requires '\n' !in raw
    ensures Plain(Clean(raw)) && Trimmed(Clean(raw))
  {
    var t := StripComment(TrimSpace(raw));
    var a, b := TrimSplits(raw);
    var u := TrimSpace(raw);
    assert raw == a + u + b;
    assert forall c :: c in u ==> c in raw;
    assert forall c :: c in t ==> c in u;
    PlainTrim(t);
    TrimIsTrimmed(t);
  }

  predicate Safe(c: Content) {
    c.Pair? ==> Token(c.val)
  }

  lemma {:induction false} ReadIsSafe(raw: string)
    requires '\n' !in raw
    ensures Safe(Read(Clean(raw)))
  {
    var line := Clean(raw);
    CleanIsPlain(raw);
    if !IsHeader(line) {
      match Cut(line, '=') {
        case None =>
        case Some((k, v)) =>
          assert line[|k| + 1..] == v;
          PlainPart(line, |k| + 1, |line|);
          PlainTrim(v);
          TrimIsTrimmed(v);
      }
    }
  }

  lemma {:induction false} LinesAreSafe(raws: seq<string>, from: nat)
    requires NoNewlines(raws)
    ensures forall i :: 0 <= i < |Significant(raws, from)| ==> Safe(Significant(raws, from)[i].content)
    decreases |raws|
  {
    if raws != [] {
      assert NoNewline(raws[0]);
      assert forall i :: 0 <= i < |raws[1..]| ==> raws[1..][i] == raws[i + 1];
      ReadIsSafe(raws[0]);
      LinesAreSafe(raws[1..], from + 1);
    }
  }

  lemma {:induction false} KeptAreItems(parts: seq<string>)
    requires forall i :: 0 <= i < |parts| ==> Plain(parts[i]) && ',' !in parts[i]
    ensures AllItems(KeepItems(parts))
  {
    if parts != [] {
      KeptAreItems(parts[1..]);
      PlainTrim(parts[0]);
      TrimIsTrimmed(parts[0]);
      TrimKeepsChars(parts[0], ',');
    }
  }

  lemma {:induction false} ListsAreItems(v: string)
    requires Plain(v)
    ensures AllItems(ListItems(v))
  {
    SplitPartsClean(v, ',');
    KeptAreItems(Split(v, ','));
  }

  lemma {:induction false} EndpointsAreSplit(v: string)
    requires Token(v) && SplitHostPort(v).Some?
    ensures Endpoint(SplitHostPort(v).value.0, SplitHostPort(v).value.1)
  {
    var i := LastIndex(v, ':');
    var q := v[i + 1..];
    PlainPart(v, i + 1, |v|);
    assert forall c :: c in q ==> exists j :: i < j < |v| && v[j] == c;
    assert ':' !in q;
    if v[0] == '[' {
      var end := Index(v, ']');
      PlainPart(v, 1, end);
      var h := v[1..end];
      assert forall c :: c in h ==> c in v[1..] && c in v[..end];
      assert forall c :: c in q ==> c in v[1..] && c in v[end + 1..];
    } else {
      PlainPart(v, 0, i);
      assert forall c :: c in v[..i] ==> c in v;
      assert forall c :: c in q ==> c in v;
    }
  }

  lemma {:induction false} AppendItems(a: seq<string>, b: seq<string>)
    requires AllItems(a) && AllItems(b)
    ensures AllItems(a + b)
  {
  }

  lemma {:induction false} StepKeepsSpellable(s: Scan, c: Content)
    requires Spellable(s.cfg) && Safe(c) && Step(s, c).Ok?
    ensures Spellable(Step(s, c).value.cfg)
  {
    if c.Header? {
      assert SpellablePeer(NO_PEER);
    } else {
      ListsAreItems(c.val);
      if s.section == "interface" {
        AppendItems(s.cfg.addresses, ListItems(c.val));
        AppendItems(s.cfg.dns, ListItems(c.val));
      } else {
        var p := s.cfg.peers[s.peer];
        assert SpellablePeer(p);
        PeerKeepsSpellable(p, c.key, c.val);
      }
    }
  }

  lemma {:induction false} PeerKeepsSpellable(p: Peer, key: string, val: string)
    requires SpellablePeer(p) && Token(val) && PeerKey(p, key, val).Ok?
    ensures SpellablePeer(PeerKey(p, key, val).value)
  {
    ListsAreItems(val);
    AppendItems(p.allowedIPs, ListItems(val));
    if key == "endpoint" {
      EndpointsAreSplit(val);
    }
  }

  lemma {:induction false} ScanKeepsSpellable(s: Scan, ls: seq<Line>)
    requires Spellable(s.cfg) && forall i :: 0 <= i < |ls| ==> Safe(ls[i].content)
    requires ScanLines(s, ls).Ok?
    ensures Spellable(ScanLines(s, ls).value.cfg)
    decreases |ls|
  {
    if ls != [] {
      StepKeepsSpellable(s, ls[0].content);
      ScanKeepsSpellable(Step(s, ls[0].content).value, ls[1..]);
    }
  }

  /**
   The parser returns exactly the valid configs a text can spell, and every one of them: from its
   own rendering, for instance. So parsing what was rendered from a parse changes nothing.
   */
  lemma {:induction false} ParsedExactlyWhenSpellable(n: Net, c: Config)
    ensures (exists text :: Parse(n, text) == Ok(c)) <==> Spellable(c) && Validate(n, c) == None
  {
    if text :| Parse(n, text) == Ok(c) {
      var raws := Split(text, '\n');
      SplitPartsClean(text, '\n');
      assert NoNewlines(raws);
      LinesAreSafe(raws, 0);
      ScanIsGrouped(LinesOf(text));
      ScanKeepsSpellable(Scan(EMPTY, "", 0), LinesOf(text));
    }
    if Spellable(c) && Validate(n, c) == None {
      RenderParses(n, c);
    }
  }
}
