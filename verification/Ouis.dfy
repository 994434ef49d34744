/**
 The vendor prefixes: the generator that filters, sorts and prints them as chunks of hex
 (internal/netcfg/gen/gen_ouis.go), and the decoder that reads them back at start-up
 (decodeOUIs in internal/netcfg/identity.go).
 */
module Ouis {
  import opened Common
  import opened Octets
  import opened GoStrings

  // ---------- Hex ----------

  predicate IsHex(c: char) {
    '0' <= c <= '9' || 'a' <= c <= 'f'
  }

  function Digit(c: char): (d: nat)
    requires IsHex(c)
    ensures d < 16
  {
    if c <= '9' then c as nat - '0' as nat else c as nat - 'a' as nat + 10
  }

  predicate AllHex(s: string) {
    forall i :: 0 <= i < |s| ==> IsHex(s[i])
  }

  predicate IsPrefix(s: string) {
    |s| == 6 && AllHex(s)
  }

  /** Two digits make a byte. */
  function Pair(hi: char, lo: char): Byte
    requires IsHex(hi) && IsHex(lo)
  {
    16 * Digit(hi) + Digit(lo)
  }

  function DecodeHex(s: string): Option<Bytes>
    decreases |s|
  {
    if s == "" then Some([])
    else if |s| < 2 || !IsHex(s[0]) || !IsHex(s[1]) then None
    else
      match DecodeHex(s[2..])
      case None => None
      case Some(rest) => Some([Pair(s[0], s[1])] + rest)
  }

  // ---------- Collecting ----------

  /** A row of the registry: block type, assignment, organization. */
  datatype Row = Row(block: string, assignment: string, org: string)

  /** The low two bits of the first octet are clear: globally administered, unicast. */
  predicate GlobalUnicast(first: Byte) {
    Bits(first) & 0x03 == 0
  }

  function Cleaned(row: Row): string {
    ToLower(TrimSpace(row.assignment))
  }

  /** The row names a prefix worth keeping. */
  predicate Keeps(row: Row) {
    && row.block == "MA-L"
    && IsPrefix(Cleaned(row))
    && GlobalUnicast(Pair(Cleaned(row)[0], Cleaned(row)[1]))
  }

  /** Kept are the large blocks whose assignment is six hex digits of a global unicast prefix. */
  lemma KeepsMeans(row: Row)
    ensures var s := ToLower(TrimSpace(row.assignment));
            && Cleaned(row) == s
            && (Keeps(row) <==> row.block == "MA-L" && |s| == 6 && AllHex(s) && Bits(Pair(s[0], s[1])) & 0x03 == 0)
  {
  }

  /**
   The pool of one vendor. vendorOf stands for the name patterns, tried in order: the first that
   matches takes the row.
   */
  method Collect(rows: seq<Row>, vendorOf: string -> Option<string>, vendor: string) returns (pool: set<string>)
    ensures forall s :: s in pool <==> exists i :: 0 <= i < |rows| && Keeps(rows[i]) && vendorOf(rows[i].org) == Some(vendor)
                                         && s == Cleaned(rows[i])
    ensures forall s :: s in pool ==> Kept(s)
  {
    pool := {};
    for i := 0 to |rows|
      invariant forall s :: s in pool <==> exists j :: 0 <= j < i && Keeps(rows[j]) && vendorOf(rows[j].org) == Some(vendor)
                                             && s == Cleaned(rows[j])
    {
      if Keeps(rows[i]) && vendorOf(rows[i].org) == Some(vendor) {
        pool := pool + {Cleaned(rows[i])};
      }
    }
  }

  predicate Kept(s: string) {
    IsPrefix(s) && GlobalUnicast(Pair(s[0], s[1]))
  }

  // ---------- Sorting ----------

  /** The order of sort.Strings on texts of one length: by the first place they differ. */
  predicate LessAt(a: string, b: string, i: nat) {
    i < |a| && i < |b| && a[..i] == b[..i] && a[i] < b[i]
  }

  predicate Less(a: string, b: string) {
    exists i: nat | i < |a| :: LessAt(a, b, i)
  }

  predicate Ascending(ks: seq<string>) {
    forall i, j :: 0 <= i < j < |ks| ==> Less(ks[i], ks[j])
  }

  /** Two different prefixes differ somewhere first. */
  lemma {:induction false} Comparable(a: string, b: string)
    requires |a| == |b| && a != b
    ensures Less(a, b) || Less(b, a)
  {
    var i := 0;
    while i < |a| && a[i] == b[i]
      invariant i <= |a| && a[..i] == b[..i]
    {
      assert a[..i + 1] == a[..i] + [a[i]] && b[..i + 1] == b[..i] + [b[i]];
      i := i + 1;
    }
    assert a == a[..|a|] && b == b[..|b|];
    assert LessAt(a, b, i) || LessAt(b, a, i);
  }

  lemma LessTransitive(a: string, b: string, c: string)
    requires |a| == |b| == |c| && Less(a, b) && Less(b, c)
    ensures Less(a, c)
  {
    var i: nat :| i < |a| && LessAt(a, b, i);
    var j: nat :| j < |b| && LessAt(b, c, j);
    var k := if i < j then i else j;
    assert a[..k] == a[..i][..k] && b[..k] == b[..i][..k] && b[..k] == b[..j][..k] && c[..k] == c[..j][..k];
    if i < j {
      assert b[i] == b[..j][i] && c[i] == c[..j][i];
    } else if j < i {
      assert a[j] == a[..i][j] && b[j] == b[..i][j];
    }
    assert LessAt(a, c, k);
  }

  function Elements(ks: seq<string>): set<string> {
    set k | k in ks
  }

  /** Puts a new key in its place. */
  method Insert(ks: seq<string>, k: string) returns (r: seq<string>)
    requires Ascending(ks) && k !in ks && |k| == 6 && forall x :: x in ks ==> |x| == 6
    ensures Ascending(r) && Elements(r) == Elements(ks) + {k}
  {
    hide Less;
    var at := 0;
    while at < |ks| && Less(ks[at], k)
      invariant at <= |ks| && forall i :: 0 <= i < at ==> Less(ks[i], k)
    {
      at := at + 1;
    }
    r := ks[..at] + [k] + ks[at..];
    forall i | at <= i < |ks|
      ensures Less(k, ks[i])
    {
      Comparable(k, ks[at]);
      if i > at {
        LessTransitive(k, ks[at], ks[i]);
      }
    }
    assert ks == ks[..at] + ks[at..];
    assert forall x :: x in r <==> x in ks || x == k;
  }

  method SortedKeys(pool: set<string>) returns (ks: seq<string>)
    requires forall k :: k in pool ==> |k| == 6
    ensures Ascending(ks) && Elements(ks) == pool
  {
    ks := [];
    var left := pool;
    while left != {}
      invariant left <= pool && Ascending(ks) && Elements(ks) == pool - left
      decreases |left|
    {
      var k :| k in left;
      assert k !in Elements(ks);
      assert forall x :: x in ks ==> x in Elements(ks);
      ks := Insert(ks, k);
      left := left - {k};
    }
  }

  // ---------- Printing ----------

  const CHUNK := 96

  function Concat(parts: seq<string>): string {
    if parts == [] then "" else parts[0] + Concat(parts[1..])
  }

  lemma {:induction false} ConcatPush(parts: seq<string>, p: string)
    ensures Concat(parts + [p]) == Concat(parts) + p
  {
    if parts == [] {
      assert [] + [p] == [p] && [p][1..] == [];
    } else {
      assert (parts + [p])[1..] == parts[1..] + [p];
      ConcatPush(parts[1..], p);
    }
  }

  /** The lines of a constant: 96 characters each, the last perhaps shorter; together they are the whole text. */
  method Emit(joined: string) returns (lines: seq<string>)
    ensures Concat(lines) == joined
    ensures forall i :: 0 <= i < |lines| ==> 0 < |lines[i]| <= CHUNK && (i < |lines| - 1 ==> |lines[i]| == CHUNK)
    ensures |joined| % 6 == 0 ==> forall i :: 0 <= i < |lines| ==> |lines[i]| % 6 == 0
  {
    lines := [];
    var i := 0;
    while i < |joined|
      invariant 0 <= i && (i < |joined| ==> i == CHUNK * |lines|)
      invariant Concat(lines) == joined[..if i < |joined| then i else |joined|]
      invariant forall j :: 0 <= j < |lines| ==> 0 < |lines[j]| <= CHUNK
      invariant forall j :: 0 <= j < |lines| - 1 ==> |lines[j]| == CHUNK
      invariant i < |joined| && lines != [] ==> |lines[|lines| - 1]| == CHUNK
      invariant |joined| % 6 == 0 ==> forall j :: 0 <= j < |lines| ==> |lines[j]| % 6 == 0
    {
      var end := i + CHUNK;
      if end > |joined| {
        end := |joined|;
      }
      ConcatPush(lines, joined[i..end]);
      assert joined[..i] + joined[i..end] == joined[..end];
      lines := lines + [joined[i..end]];
      i := i + CHUNK;
    }
    assert joined[..|joined|] == joined;
  }

  /** What the generator prints for a pool is, as a constant, its keys in order, end to end. */
  method Generate(rows: seq<Row>, vendorOf: string -> Option<string>, vendor: string)
    returns (lines: seq<string>, ghost keys: seq<string>)
    ensures Ascending(keys) && forall k :: k in keys ==> IsPrefix(k) && Kept(k)
    ensures forall s :: s in keys <==> exists i :: 0 <= i < |rows| && Keeps(rows[i]) && vendorOf(rows[i].org) == Some(vendor)
                                         && s == Cleaned(rows[i])
    ensures Concat(lines) == Concat(keys)
    ensures DecodeOuis(Concat(lines)) == Some(Triples(keys))
  {
    hide Keeps, Cleaned, DecodeOuis, Triples, Ascending, GlobalUnicast;
    var pool := Collect(rows, vendorOf, vendor);
    var ks := SortedKeys(pool);
    keys := ks;
    assert forall k :: k in ks <==> k in Elements(ks);
    var joined := "";
    for i := 0 to |ks|
      invariant joined == Concat(ks[..i])
    {
      ConcatPush(ks[..i], ks[i]);
      assert ks[..i + 1] == ks[..i] + [ks[i]];
      joined := joined + ks[i];
    }
    assert ks[..|ks|] == ks;
    lines := Emit(joined);
    PrintedDecodes(keys);
  }

  // ---------- Decoding ----------

  datatype Oui = Oui(a: Byte, b: Byte, c: Byte)

  function Triple(s: string): Oui
    requires IsPrefix(s)
  {
    Oui(Pair(s[0], s[1]), Pair(s[2], s[3]), Pair(s[4], s[5]))
  }

  function Triples(ks: seq<string>): (ts: seq<Oui>)
    requires forall k :: k in ks ==> IsPrefix(k)
    ensures |ts| == |ks| && forall i :: 0 <= i < |ks| ==> ts[i] == Triple(ks[i])
  {
    seq(|ks|, i requires 0 <= i < |ks| => Triple(ks[i]))
  }

  function Grouped(raw: Bytes): seq<Oui>
    requires |raw| % 3 == 0
  {
    if raw == [] then [] else [Oui(raw[0], raw[1], raw[2])] + Grouped(raw[3..])
  }

  /** None is the panic on corrupt data. */
  function DecodeOuis(h: string): Option<seq<Oui>> {
    match DecodeHex(h)
    case None => None
    case Some(raw) => if |raw| % 3 != 0 then None else Some(Grouped(raw))
  }

  lemma {:induction false} GroupedAt(raw: Bytes, i: nat)
    requires |raw| % 3 == 0 && i < |raw| / 3
    ensures |Grouped(raw)| == |raw| / 3 && Grouped(raw)[i] == Oui(raw[3 * i], raw[3 * i + 1], raw[3 * i + 2])
    decreases |raw|
  {
    GroupedLength(raw);
    if i > 0 {
      GroupedAt(raw[3..], i - 1);
    }
  }

  lemma {:induction false} GroupedLength(raw: Bytes)
    requires |raw| % 3 == 0
    ensures |Grouped(raw)| == |raw| / 3
    decreases |raw|
  {
    if raw != [] {
      GroupedLength(raw[3..]);
    }
  }

  method Decode(h: string) returns (out: Option<seq<Oui>>)
    ensures out == DecodeOuis(h)
  {
    var raw := DecodeHex(h);
    if raw == None || |raw.value| % 3 != 0 {
      return None;
    }
    var bytes := raw.value;
    GroupedLength(bytes);
    var a := new Oui[|bytes| / 3](_ => Oui(0, 0, 0));
    for i := 0 to a.Length
      invariant forall j :: 0 <= j < i ==> a[j] == Grouped(bytes)[j]
    {
      GroupedAt(bytes, i);
      a[i] := Oui(bytes[3 * i], bytes[3 * i + 1], bytes[3 * i + 2]);
    }
    assert a[..] == Grouped(bytes);
    out := Some(a[..]);
  }

  // ---------- The round trip ----------

  lemma PrefixDecodes(k: string, tail: string, rest: Bytes)
    requires IsPrefix(k) && DecodeHex(tail) == Some(rest)
    ensures var t := Triple(k); DecodeHex(k + tail) == Some([t.a, t.b, t.c] + rest)
  {
    var s := k + tail;
    assert s[2..][2..] == s[4..] && s[4..][2..] == s[6..] && s[6..] == tail;
    assert s[4..][0] == k[4] && s[4..][1] == k[5];
    assert s[2..][0] == k[2] && s[2..][1] == k[3];
    var t := Triple(k);
    assert DecodeHex(s[4..]) == Some([t.c] + rest);
    assert DecodeHex(s[2..]) == Some([t.b] + ([t.c] + rest));
    assert [t.a] + ([t.b] + ([t.c] + rest)) == [t.a, t.b, t.c] + rest;
  }

  /** Printing prefixes and decoding them gives back exactly those prefixes, in order. */
  lemma {:induction false} PrintedDecodes(ks: seq<string>)
    requires forall k :: k in ks ==> IsPrefix(k)
    ensures DecodeOuis(Concat(ks)) == Some(Triples(ks))
    decreases |ks|
  {
    if ks == [] {
      assert Triples(ks) == [];
    } else {
      PrintedDecodes(ks[1..]);
      var rest := DecodeHex(Concat(ks[1..])).value;
      PrefixDecodes(ks[0], Concat(ks[1..]), rest);
      var t := Triple(ks[0]);
      var raw := [t.a, t.b, t.c] + rest;
      assert raw[3..] == rest;
      assert Triples(ks) == [t] + Triples(ks[1..]);
    }
  }

  // ---------- Sorted text is sorted numbers ----------

  function Value(s: string): nat
    requires AllHex(s)
  {
    if s == "" then 0 else 16 * Value(s[..|s| - 1]) + Digit(s[|s| - 1])
  }

  lemma {:induction false} LessIsSmaller(a: string, b: string)
    requires |a| == |b| && AllHex(a) && AllHex(b) && Less(a, b)
    ensures Value(a) < Value(b)
    decreases |a|
  {
    var i: nat :| i < |a| && LessAt(a, b, i);
    var n := |a| - 1;
    if i == n {
      assert a[..n] == b[..n];
    } else {
      assert a[..n][..i] == a[..i] && b[..n][..i] == b[..i];
      assert LessAt(a[..n], b[..n], i);
      LessIsSmaller(a[..n], b[..n]);
    }
  }

  function Number(t: Oui): nat {
    65536 * t.a + 256 * t.b + t.c
  }

  lemma ValueIsNumber(s: string)
    requires IsPrefix(s)
    ensures Value(s) == Number(Triple(s))
  {
    assert s[..5][..4] == s[..4] && s[..4][..3] == s[..3] && s[..3][..2] == s[..2] && s[..2][..1] == s[..1] && s[..1][..0] == "";
    assert s[..5][4] == s[4] && s[..4][3] == s[3] && s[..3][2] == s[2] && s[..2][1] == s[1] && s[..1][0] == s[0];
    assert Value(s[..1][..0]) == 0;
    var v1 := Value(s[..1]);
    assert v1 == Digit(s[0]);
    var v2 := Value(s[..2]);
    assert v2 == 16 * v1 + Digit(s[1]);
    var v3 := Value(s[..3]);
    assert v3 == 16 * v2 + Digit(s[2]);
    var v4 := Value(s[..4]);
    assert v4 == 16 * v3 + Digit(s[3]);
    var v5 := Value(s[..5]);
    assert v5 == 16 * v4 + Digit(s[4]);
  }

  /** The decoded pool is strictly increasing as numbers, so no prefix occurs twice; all are global and unicast. */
  lemma PoolIsOrdered(ks: seq<string>)
    requires Ascending(ks)
    requires forall k :: k in ks ==> IsPrefix(k) && Kept(k)
    ensures var ts := Triples(ks);
            && (forall i, j :: 0 <= i < j < |ts| ==> Number(ts[i]) < Number(ts[j]))
            && (forall i :: 0 <= i < |ts| ==> GlobalUnicast(ts[i].a) && Bits(ts[i].a) & 0x03 == 0)
  {
    var ts := Triples(ks);
    forall i, j | 0 <= i < j < |ts|
      ensures Number(ts[i]) < Number(ts[j])
    {
      assert ks[i] in ks && ks[j] in ks;
      LessIsSmaller(ks[i], ks[j]);
      ValueIsNumber(ks[i]);
      ValueIsNumber(ks[j]);
    }
    forall i | 0 <= i < |ts|
      ensures GlobalUnicast(ts[i].a)
    {
      assert Kept(ks[i]);
    }
  }
}
