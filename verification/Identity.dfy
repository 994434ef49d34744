/**
 The identity an uplink sees (internal/netcfg/identity.go): a hardware address and a host name made
 from a profile and eight random bytes.
 */
module Identity {
  import opened Common
  import opened Octets
  import opened Ouis

  datatype Profile = Profile(key: string, ouis: seq<Oui>, names: seq<string>)

  datatype Identity = Identity(mac: string, hostname: string, profile: string)

  /** The first profile is the generic one: no prefixes, no names. */
  predicate Wellformed(ps: seq<Profile>) {
    ps != [] && ps[0].ouis == [] && ps[0].names == []
  }

  /** Every pool holds only global unicast prefixes, as the generator prints them. */
  predicate RealPools(ps: seq<Profile>) {
    forall i, j :: 0 <= i < |ps| && 0 <= j < |ps[i].ouis| ==> GlobalUnicast(ps[i].ouis[j].a)
  }

  function Lookup(ps: seq<Profile>, key: string): Option<Profile> {
    if ps == [] then None else if ps[0].key == key then Some(ps[0]) else Lookup(ps[1..], key)
  }

  method ProfileByKey(ps: seq<Profile>, key: string) returns (p: Profile)
    requires Wellformed(ps)
    ensures p == (match Lookup(ps, key) case Some(q) => q case None => ps[0])
    ensures p in ps
  {
    for i := 0 to |ps|
      invariant Lookup(ps, key) == Lookup(ps[i..], key)
    {
      if ps[i].key == key {
        return ps[i];
      }
      assert ps[i..][1..] == ps[i + 1..];
    }
    return ps[0];
  }

  // ---------- The address as text ----------

  function HexDigit(d: nat): (c: char)
    requires d < 16
    ensures IsHex(c) && Digit(c) == d
  {
    if d < 10 then (d + '0' as nat) as char else (d - 10 + 'a' as nat) as char
  }

  function Hex2(b: Byte): (s: string)
    ensures |s| == 2 && IsHex(s[0]) && IsHex(s[1]) && Pair(s[0], s[1]) == b
  {
    [HexDigit(b / 16), HexDigit(b % 16)]
  }

  function MacText(b: Bytes): (s: string)
    requires |b| == 6
    ensures |s| == 17
  {
    Hex2(b[0]) + ":" + Hex2(b[1]) + ":" + Hex2(b[2]) + ":" + Hex2(b[3]) + ":" + Hex2(b[4]) + ":" + Hex2(b[5])
  }

  /** The k-th octet of an address text. */
  function OctetAt(s: string, k: nat): Option<Byte> {
    if k < 6 && |s| == 17 && IsHex(s[3 * k]) && IsHex(s[3 * k + 1]) then Some(Pair(s[3 * k], s[3 * k + 1])) else None
  }

  lemma MacReads(b: Bytes, k: nat)
    requires |b| == 6 && k < 6
    ensures OctetAt(MacText(b), k) == Some(b[k])
  {
    var s := MacText(b);
    assert s[0..2] == Hex2(b[0]) && s[3..5] == Hex2(b[1]) && s[6..8] == Hex2(b[2]);
    assert s[9..11] == Hex2(b[3]) && s[12..14] == Hex2(b[4]) && s[15..17] == Hex2(b[5]);
    assert s[3 * k] == Hex2(b[k])[0] && s[3 * k + 1] == Hex2(b[k])[1];
  }

  const HEX := "0123456789abcdef"

  lemma HexDigitIs(d: nat)
    requires d < 16
    ensures HexDigit(d) == HEX[d]
  {
  }

  /** An address is six pairs of lower-case hex digits between colons. */
  lemma MacForm(b: Bytes)
    requires |b| == 6
    ensures var s := MacText(b);
            && s[2] == ':' && s[5] == ':' && s[8] == ':' && s[11] == ':' && s[14] == ':'
            && forall k :: 0 <= k < 6 ==> s[3 * k..3 * k + 2] == [HEX[b[k] / 16], HEX[b[k] % 16]]
  {
    hide HexDigit, Hex2;
    var s := MacText(b);
    assert s[0..2] == Hex2(b[0]) && s[3..5] == Hex2(b[1]) && s[6..8] == Hex2(b[2]);
    assert s[9..11] == Hex2(b[3]) && s[12..14] == Hex2(b[4]) && s[15..17] == Hex2(b[5]);
    assert s[2] == ':' && s[5] == ':' && s[8] == ':' && s[11] == ':' && s[14] == ':';
    forall k | 0 <= k < 6
      ensures s[3 * k..3 * k + 2] == [HEX[b[k] / 16], HEX[b[k] % 16]]
    {
      PairIs(b[k]);
    }
  }

  lemma PairIs(b: Byte)
    ensures Hex2(b) == [HEX[b / 16], HEX[b % 16]]
  {
    hide HexDigit;
    HexDigitIs(b / 16);
    HexDigitIs(b % 16);
  }

  // ---------- Generating ----------

  predicate LocalUnicast(first: Byte) {
    Bits(first) & 0x03 == 0x02
  }

  function GenericFirst(b: Byte): Byte {
    Octet((Bits(b) | 0x02) & !0x01)
  }

  lemma GenericBits(b: Byte)
    ensures LocalUnicast(GenericFirst(b)) && !GlobalUnicast(GenericFirst(b))
    ensures Bits(GenericFirst(b)) & 0xFC == Bits(b) & 0xFC
  {
    OctetBits((Bits(b) | 0x02) & !0x01);
  }

  /** The six octets a profile makes of eight random bytes. */
  function Address(p: Profile, raw: Bytes): (b: Bytes)
    requires |raw| == 8
    ensures |b| == 6
  {
    if p.ouis == [] then [GenericFirst(raw[2])] + raw[3..]
    else
      var oui := p.ouis[raw[0] % |p.ouis|];
      [oui.a, oui.b, oui.c] + raw[5..]
  }

  function HostName(p: Profile, raw: Bytes): string
    requires |raw| == 8
  {
    if p.ouis == [] || p.names == [] then "" else p.names[raw[1] % |p.names|]
  }

  method GenerateIdentity(ps: seq<Profile>, key: string, raw: Bytes) returns (id: Identity, ghost p: Profile)
    requires Wellformed(ps) && |raw| == 8
    ensures p == (match Lookup(ps, key) case Some(q) => q case None => ps[0])
    ensures id == Identity(MacText(Address(p, raw)), HostName(p, raw), p.key)
  {
    var q := ProfileByKey(ps, key);
    p := q;
    var sel1, sel2 := raw[0], raw[1];
    var b := new Byte[6](i requires 0 <= i < 6 => raw[2 + i]);
    var host := "";
    if |q.ouis| == 0 {
      b[0] := GenericFirst(b[0]);
    } else {
      var oui := q.ouis[sel1 % |q.ouis|];
      b[0], b[1], b[2] := oui.a, oui.b, oui.c;
      if |q.names| > 0 {
        host := q.names[sel2 % |q.names|];
      }
    }
    assert b[..] == Address(q, raw);
    id := Identity(MacText(b[..]), host, q.key);
  }

  // ---------- The two families ----------

  /** A generic address is locally administered and unicast; five and three quarter octets stay random. */
  lemma GenericIsLocal(p: Profile, raw: Bytes)
    requires p.ouis == [] && |raw| == 8
    ensures Bits(Address(p, raw)[0]) & 0x03 == 0x02 && Bits(Address(p, raw)[0]) & 0xFC == Bits(raw[2]) & 0xFC
    ensures Address(p, raw)[1..] == raw[3..] && HostName(p, raw) == ""
  {
    GenericBits(raw[2]);
  }

  /** A vendor address starts with a prefix of its pool, so it is global and unicast, and its host name is its own vendor's. */
  lemma VendorIsGlobal(ps: seq<Profile>, i: nat, raw: Bytes)
    requires RealPools(ps) && i < |ps| && ps[i].ouis != [] && |raw| == 8
    ensures var b := Address(ps[i], raw);
            && Bits(b[0]) & 0x03 == 0 && Oui(b[0], b[1], b[2]) in ps[i].ouis && b[3..] == raw[5..]
    ensures ps[i].names != [] ==> HostName(ps[i], raw) in ps[i].names
  {
    var j := raw[0] % |ps[i].ouis|;
    assert GlobalUnicast(ps[i].ouis[j].a);
  }

  /** One byte selects the prefix, so only the first 256 of a pool are ever drawn, and all of those are. */
  lemma DrawnExactly(p: Profile, j: nat)
    requires j < |p.ouis| && forall i, k :: 0 <= i < k < |p.ouis| ==> p.ouis[i] != p.ouis[k]
    ensures (exists raw: Bytes :: |raw| == 8 && Draws(p, raw, j)) <==> j < 256
  {
    hide Draws;
    if j < 256 {
      var raw := Selecting(p, j);
    } else {
      forall raw: Bytes | |raw| == 8
        ensures !Draws(p, raw, j)
      {
        NotDrawn(p, j, raw);
      }
    }
  }

  lemma Selecting(p: Profile, j: nat) returns (raw: Bytes)
    requires j < |p.ouis| && j < 256
    ensures |raw| == 8 && Draws(p, raw, j)
  {
    hide Draws;
    raw := [j, 0, 0, 0, 0, 0, 0, 0];
    assert j % |p.ouis| == j;
    DrawnEarly(p, raw);
  }

  lemma NotDrawn(p: Profile, j: nat, raw: Bytes)
    requires 256 <= j < |p.ouis| && |raw| == 8 && forall i, k :: 0 <= i < k < |p.ouis| ==> p.ouis[i] != p.ouis[k]
    ensures !Draws(p, raw, j)
  {
    hide Address;
    DrawnEarly(p, raw);
  }

  lemma DrawnEarly(p: Profile, raw: Bytes)
    requires p.ouis != [] && |raw| == 8
    ensures raw[0] % |p.ouis| < 256 && Draws(p, raw, raw[0] % |p.ouis|)
  {
  }

  predicate Draws(p: Profile, raw: Bytes, j: nat)
    requires |raw| == 8 && j < |p.ouis|
  {
    var b := Address(p, raw);
    Oui(b[0], b[1], b[2]) == p.ouis[j]
  }

  /** No vendor address is ever a generic one, even as text. */
  lemma FamiliesDisjoint(ps: seq<Profile>, i: nat, raw: Bytes, g: Profile, other: Bytes)
    requires RealPools(ps) && i < |ps| && ps[i].ouis != [] && |raw| == 8
    requires g.ouis == [] && |other| == 8
    ensures MacText(Address(ps[i], raw)) != MacText(Address(g, other))
  {
    VendorIsGlobal(ps, i, raw);
    GenericIsLocal(g, other);
    MacReads(Address(ps[i], raw), 0);
    MacReads(Address(g, other), 0);
  }

  /** Pools decoded from what the generator prints are real, whatever the registry held. */
  lemma GeneratedPoolsAreReal(ps: seq<Profile>, keys: seq<seq<string>>)
    requires |keys| == |ps|
    requires forall i :: 0 <= i < |ps| ==>
               && Ascending(keys[i]) && (forall k :: k in keys[i] ==> IsPrefix(k) && Kept(k))
               && DecodeOuis(Concat(keys[i])) == Some(ps[i].ouis)
    ensures RealPools(ps)
  {
    forall i, j | 0 <= i < |ps| && 0 <= j < |ps[i].ouis|
      ensures GlobalUnicast(ps[i].ouis[j].a)
    {
      PrintedDecodes(keys[i]);
      PoolIsOrdered(keys[i]);
    }
  }
}
