/**
 What a valid wg-quick configuration is (validate and checkKey in internal/vpn/config.go): keys by the
 bytes they decode to, numbers by their value, and for every refusal what is really wrong.
 */
module WgValid {
  import opened Common
  import opened Octets
  import opened GoStrings
  import opened WgConfig
  import opened WgParser
  import opened WgLines

  // ---------- Keys ----------

  /** The value of a base64 digit (section 4 of RFC 4648). */
  function Sextet(c: char): (v: nat)
    requires IsBase64Char(c)
    ensures v < 64
  {
    if 'A' <= c <= 'Z' then c as nat - 'A' as nat
    else if 'a' <= c <= 'z' then c as nat - 'a' as nat + 26
    else if '0' <= c <= '9' then c as nat - '0' as nat + 52
    else if c == '+' then 62
    else 63
  }

  /** Standard base64 with padding: groups of four digits make three bytes, a padded last one fewer. */
  function Decode(t: string): Option<Bytes>
    decreases |t|
  {
    if t == "" then Some([])
    else if |t| < 4 || !IsBase64Char(t[0]) || !IsBase64Char(t[1]) then None
    else
      var a := 4 * Sextet(t[0]) + Sextet(t[1]) / 16;
      if t[2] == '=' then (if t[3] == '=' && |t| == 4 then Some([a]) else None)
      else if !IsBase64Char(t[2]) then None
      else
        var b := 16 * (Sextet(t[1]) % 16) + Sextet(t[2]) / 4;
        if t[3] == '=' then (if |t| == 4 then Some([a, b]) else None)
        else if !IsBase64Char(t[3]) then None
        else
          match Decode(t[4..])
          case None => None
          case Some(rest) => Some([a, b, 64 * (Sextet(t[2]) % 4) + Sextet(t[3])] + rest)
  }

  /** Whole groups, of which the last pad digits are padding. */
  predicate Padded(t: string, pad: nat) {
    && |t| % 4 == 0 && pad <= 2 && pad <= |t|
    && (forall i :: 0 <= i < |t| - pad ==> IsBase64Char(t[i]))
    && (forall i :: |t| - pad <= i < |t| ==> t[i] == '=')
  }

  lemma {:induction false} PaddedDecodes(t: string, pad: nat)
    requires Padded(t, pad)
    ensures Decode(t).Some? && |Decode(t).value| == 3 * (|t| / 4) - pad
    decreases |t|
  {
    if |t| > 4 {
      PaddedDecodes(t[4..], pad);
    }
  }

  lemma {:induction false} DecodedIsPadded(t: string)
    requires Decode(t).Some?
    ensures Padded(t, 0) || (|t| > 0 && (Padded(t, 1) || Padded(t, 2)))
    decreases |t|
  {
    if |t| >= 4 && t[2] != '=' && t[3] != '=' {
      DecodedIsPadded(t[4..]);
      assert forall i :: 4 <= i < |t| ==> t[i] == t[4..][i - 4];
    }
  }

  /** A text is a key exactly when, line ends aside, it is the base64 of 32 bytes. */
  lemma KeyIsThirtyTwoBytes(s: string)
    ensures IsKey(s) <==> Decode(DropNewlines(s)).Some? && |Decode(DropNewlines(s)).value| == 32
  {
    var t := DropNewlines(s);
    if IsKey(s) {
      PaddedDecodes(t, 1);
    }
    if Decode(t).Some? {
      DecodedIsPadded(t);
      if Padded(t, 0) {
        PaddedDecodes(t, 0);
      } else if Padded(t, 1) {
        PaddedDecodes(t, 1);
      } else {
        PaddedDecodes(t, 2);
      }
    }
  }

  // ---------- Numbers ----------

  lemma InRangeMeans(k: nat, lo: int, hi: int)
    ensures InRange(Decimal(k), lo, hi) <==> lo <= k <= hi
    ensures InRange("-" + Decimal(k), lo, hi) <==> lo + k <= 0 <= hi + k
  {
    DecimalReads(k);
    var s := "-" + Decimal(k);
    assert s[1..] == Decimal(k);
    assert !IsDigit('-') && !IsDigit('+');
    assert IsDigit(Decimal(k)[0]);
  }

  // ---------- The whole configuration ----------

  predicate Key(s: string) {
    var b := Decode(DropNewlines(s));
    b.Some? && |b.value| == 32
  }

  predicate SoundPeer(n: Net, p: Peer) {
    && Key(p.publicKey)
    && (p.presharedKey == "" || Key(p.presharedKey))
    && p.allowedIPs != [] && (forall a :: a in p.allowedIPs ==> n.isCidr(a))
    && (p.keepalive == "" || InRange(p.keepalive, 0, 65535))
  }

  predicate Sound(n: Net, c: Config) {
    && Key(c.privateKey)
    && c.addresses != [] && (forall a :: a in c.addresses ==> n.isCidr(a) || n.isIp(a))
    && (c.mtu == "" || InRange(c.mtu, 576, 9200))
    && c.peers != [] && (forall i :: 0 <= i < |c.peers| ==> SoundPeer(n, c.peers[i]))
  }

  /** The flaw is really there. */
  predicate Flawed(n: Net, c: Config, f: Flaw) {
    match f
    case BadPrivateKey => !Key(c.privateKey)
    case NoAddress => c.addresses == []
    case BadAddress(a) => a in c.addresses && !n.isCidr(a) && !n.isIp(a)
    case BadMtu => c.mtu != "" && !InRange(c.mtu, 576, 9200)
    case NoPeer => c.peers == []
    case BadPublicKey(i) => 1 <= i <= |c.peers| && !Key(c.peers[i - 1].publicKey)
    case BadPresharedKey(i) => 1 <= i <= |c.peers| && c.peers[i - 1].presharedKey != "" && !Key(c.peers[i - 1].presharedKey)
    case NoAllowedIPs(i) => 1 <= i <= |c.peers| && c.peers[i - 1].allowedIPs == []
    case BadAllowedIP(i, a) => 1 <= i <= |c.peers| && a in c.peers[i - 1].allowedIPs && !n.isCidr(a)
    case BadKeepalive(i) =>
      1 <= i <= |c.peers| && c.peers[i - 1].keepalive != "" && !InRange(c.peers[i - 1].keepalive, 0, 65535)
  }

  lemma {:induction false} FirstBadMeans(xs: seq<string>, ok: string -> bool)
    ensures match FirstBad(xs, ok)
            case None => forall a :: a in xs ==> ok(a)
            case Some(a) => a in xs && !ok(a)
  {
    if xs != [] {
      FirstBadMeans(xs[1..], ok);
      assert xs == [xs[0]] + xs[1..];
    }
  }

  lemma PeerFlawMeans(n: Net, c: Config, i: nat)
    requires 1 <= i <= |c.peers|
    ensures match PeerFlaw(n, c.peers[i - 1], i)
            case None => SoundPeer(n, c.peers[i - 1])
            case Some(f) => !SoundPeer(n, c.peers[i - 1]) && Flawed(n, c, f)
  {
    hide IsKey, Decode, InRange;
    var p := c.peers[i - 1];
    KeyIsThirtyTwoBytes(p.publicKey);
    KeyIsThirtyTwoBytes(p.presharedKey);
    FirstBadMeans(p.allowedIPs, n.isCidr);
  }

  lemma {:induction false} PeersFlawMean(n: Net, c: Config, i: nat)
    requires 1 <= i <= |c.peers| + 1
    ensures match PeersFlaw(n, c.peers[i - 1..], i)
            case None => forall k :: i - 1 <= k < |c.peers| ==> SoundPeer(n, c.peers[k])
            case Some(f) => Flawed(n, c, f) && exists k :: i - 1 <= k < |c.peers| && !SoundPeer(n, c.peers[k])
    decreases |c.peers| - i
  {
    hide PeerFlaw, SoundPeer, Flawed;
    if i <= |c.peers| {
      PeerFlawMeans(n, c, i);
      assert c.peers[i - 1..][0] == c.peers[i - 1] && c.peers[i - 1..][1..] == c.peers[i..];
      PeersFlawMean(n, c, i + 1);
    }
  }

  /** Validation passes exactly the sound configurations, and names a flaw that is there in all others. */
  lemma ValidExactly(n: Net, c: Config)
    ensures Validate(n, c) == None <==> Sound(n, c)
    ensures Validate(n, c).Some? ==> Flawed(n, c, Validate(n, c).value)
  {
    hide IsKey, Decode, InRange, PeersFlaw, SoundPeer;
    KeyIsThirtyTwoBytes(c.privateKey);
    FirstBadMeans(c.addresses, a => n.isCidr(a) || n.isIp(a));
    PeersFlawMean(n, c, 1);
    assert c.peers[0..] == c.peers;
  }

  // ---------- The parser, from the text alone ----------

  lemma ReadUnique(ls: seq<Line>, c: Config, d: Config)
    requires ConfigRead(ls, |ls|, c) && ConfigRead(ls, |ls|, d)
    ensures c == d
  {
    hide Last, Gathered, SplitHostPort;
    forall k | 0 <= k < |c.peers|
      ensures c.peers[k] == d.peers[k]
    {
      assert PeerRead(ls, |ls|, k, c.peers[k]) && PeerRead(ls, |ls|, k, d.peers[k]);
    }
  }

  /**
   A text parses to a configuration if and only if no line of it is refused, the configuration holds
   exactly what its lines say, and it is sound.
   */
  lemma ParsesExactly(n: Net, text: string, c: Config)
    ensures var ls := LinesOf(text);
            Parse(n, text) == Ok(c)
            <==> (forall j :: 0 <= j < |ls| ==> Fault(ls, j) == None) && ConfigRead(ls, |ls|, c) && Sound(n, c)
  {
    hide Fault, Sound, Validate, ConfigRead, LinesOf, Parse;
    var ls := LinesOf(text);
    ScanAndRead(n, text);
    ValidExactly(n, c);
    TextReads(n, text);
    if ConfigRead(ls, |ls|, c) && (forall j :: 0 <= j < |ls| ==> Fault(ls, j) == None) {
      var d :| ConfigRead(ls, |ls|, d) && Parse(n, text) == Checked(n, d);
      ReadUnique(ls, c, d);
    }
  }

  lemma ScanAndRead(n: Net, text: string)
    ensures var ls := LinesOf(text);
            (forall j :: 0 <= j < |ls| ==> Fault(ls, j) == None)
            ==> exists d :: ConfigRead(ls, |ls|, d) && Parse(n, text) == Checked(n, d)
  {
    hide Fault, Checked, ConfigRead, LinesOf, Parse, ScanLines;
    var ls := LinesOf(text);
    assert ls[0..] == ls;
    NothingRead(ls);
    ScanReads(ls, 0, Scan(EMPTY, "", 0));
    ParsedByScan(n, text);
    match ScanLines(Scan(EMPTY, "", 0), ls) {
      case Ok(t) => assert ConfigRead(ls, |ls|, t.cfg) by { StateHasConfig(ls, t); }
      case Err(_) =>
    }
  }

  lemma NothingRead(ls: seq<Line>)
    ensures StateRead(ls, 0, Scan(EMPTY, "", 0))
  {
  }

  lemma StateHasConfig(ls: seq<Line>, s: Scan)
    requires StateRead(ls, |ls|, s)
    ensures ConfigRead(ls, |ls|, s.cfg)
  {
  }
}
