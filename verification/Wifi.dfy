/**
 Joining an uplink (internal/netcfg/wifi.go): the station section, the wwan interface and the wan
 zone, as one command list. Joins leave nothing of each other behind.
 */
module Wifi {
  import opened Common
  import opened Uci

  // ---------- Requests ----------

  /** The address and host name the uplink shows. */
  datatype Identity = Identity(mac: string, hostname: string)

  /** An empty key is an open network. */
  datatype Request = Request(ssid: string, key: string, ident: Option<Identity>)

  datatype Error = BadSsid(len: nat) | BadPsk(len: nat) | CommandFailed

  /** Lengths are bytes; the texts here are taken as bytes. */
  function Check(r: Request): Option<Error> {
    if !(1 <= |r.ssid| <= 32) then Some(BadSsid(|r.ssid|))
    else if r.key != "" && !(8 <= |r.key| <= 63) then Some(BadPsk(|r.key|))
    else None
  }

  function Mac(ident: Option<Identity>): string {
    if ident.None? then "" else ident.value.mac
  }

  function Hostname(ident: Option<Identity>): string {
    if ident.None? then "" else ident.value.hostname
  }

  // ---------- Commands ----------

  const STA := "mistui_sta"
  const UPLINK := "wwan"

  function StaTable(r: Request): Table {
    [ ("device", "radio0"), ("network", UPLINK), ("mode", "sta"), ("ssid", r.ssid),
      ("encryption", if r.key == "" then "none" else "psk2") ]
  }

  const UPLINK_TABLE: Table := [("proto", "dhcp")]

  function StaCmds(r: Request): seq<Argv> {
    SectionCmds(Wireless, STA, "wifi-iface", StaTable(r))
    + [SetOrClear(Wireless, Named(STA), "key", r.key), MacCmd(r.ident)]
  }

  function MacCmd(ident: Option<Identity>): Argv {
    SetOrClear(Wireless, Named(STA), "macaddr", Mac(ident))
  }

  function HostnameCmd(ident: Option<Identity>): Argv {
    SetOrClear(Network, Named(UPLINK), "hostname", Hostname(ident))
  }

  function UplinkCmds(r: Request): seq<Argv> {
    SectionCmds(Network, UPLINK, "interface", UPLINK_TABLE) + [HostnameCmd(r.ident)]
  }

  function JoinTail(net: string): seq<Argv> {
    [ Commit(Wireless), Commit(Network), JoinWanZone(net), Service("network reload"), Service("wifi reload") ]
  }

  function JoinCmds(r: Request): seq<Argv> {
    StaCmds(r) + (UplinkCmds(r) + JoinTail(UPLINK))
  }

  function IdentityCmds(ident: Option<Identity>): seq<Argv> {
    [ MacCmd(ident), HostnameCmd(ident), Commit(Wireless), Commit(Network),
      Service("network reload"), Service("wifi reload") ]
  }

  // ---------- What they mean ----------

  function StaEdits(r: Request): seq<Edit> {
    TableEdits(StaTable(r)) + [Set("key", r.key), Set("macaddr", Mac(r.ident))]
  }

  function UplinkEdits(r: Request): seq<Edit> {
    TableEdits(UPLINK_TABLE) + [Set("hostname", Hostname(r.ident))]
  }

  function WanZone(u: State): (p: nat)
    ensures p <= |u.firewall.staged|
  {
    ZonePos(u.firewall.staged, "wan")
  }

  predicate HasWanZone(u: State) {
    WanZone(u) < |u.firewall.staged|
  }

  function Zone(fw: Package, net: string): Package {
    var p := ZonePos(fw.staged, "wan");
    if p == |fw.staged| then fw
    else var c := JoinZone(fw.staged, p, net); Package(c, c)
  }

  /** Without a wan zone the list stops at the zone script; the uplink is configured all the same. */
  function JoinResult(u: State, r: Request): State {
    var w := Edited(u.wireless.staged, STA, "wifi-iface", StaEdits(r));
    var n := Edited(u.network.staged, UPLINK, "interface", UplinkEdits(r));
    u.(wireless := Package(w, w), network := Package(n, n), firewall := Zone(u.firewall, UPLINK))
  }

  // ---------- The lists run as told ----------

  /** One more option after a section block. */
  lemma EditMore(u: State, pkg: PackageName, n: string, kind: string, before: seq<Edit>, opt: string, text: string)
    ensures var c := u.Staged(pkg);
            var v := u.With(pkg, u.Pkg(pkg).(staged := Edited(c, n, kind, before)));
            Exec(v, SetOrClear(pkg, Named(n), opt, text))
            == Some(u.With(pkg, u.Pkg(pkg).(staged := Edited(c, n, kind, before + [Set(opt, text)]))))
  {
    var c := u.Staged(pkg);
    var s := EditSection(Based(c, n, kind), before);
    var d := PutSection(c, n, s);
    var v := u.With(pkg, u.Pkg(pkg).(staged := d));
    PutSectionFacts(c, n, s);
    SetOrClearRuns(v, pkg, n, opt, text);
    EditAppend(Based(c, n, kind), before, [Set(opt, text)]);
    EditOne(s, Set(opt, text));
    PutSectionTwice(c, n, s, EditOnce(s, Set(opt, text)));
  }

  lemma StaRuns(u: State, r: Request, table: Table, mac: string)
    ensures var w := Edited(u.wireless.staged, STA, "wifi-iface", TableEdits(table) + [Set("key", r.key), Set("macaddr", mac)]);
            RunFull(u, SectionCmds(Wireless, STA, "wifi-iface", table)
                       + [SetOrClear(Wireless, Named(STA), "key", r.key), SetOrClear(Wireless, Named(STA), "macaddr", mac)])
            == (u.(wireless := u.wireless.(staged := w)), true)
  {
    var block := SectionCmds(Wireless, STA, "wifi-iface", table);
    var more := [SetOrClear(Wireless, Named(STA), "key", r.key), SetOrClear(Wireless, Named(STA), "macaddr", mac)];
    var before := TableEdits(table);
    SectionRun(u, Wireless, STA, "wifi-iface", table);
    var c := u.wireless.staged;
    var u1 := u.(wireless := u.wireless.(staged := Edited(c, STA, "wifi-iface", before)));
    var u2 := u.(wireless := u.wireless.(staged := Edited(c, STA, "wifi-iface", before + [Set("key", r.key)])));
    EditMore(u, Wireless, STA, "wifi-iface", before, "key", r.key);
    EditMore(u, Wireless, STA, "wifi-iface", before + [Set("key", r.key)], "macaddr", mac);
    assert before + [Set("key", r.key)] + [Set("macaddr", mac)] == before + [Set("key", r.key), Set("macaddr", mac)];
    RunThen(u, block, u1, more);
    var done := Edited(c, STA, "wifi-iface", before + [Set("key", r.key), Set("macaddr", mac)]);
    RunTrace([u1, u2, u.(wireless := u.wireless.(staged := done))], more);
  }

  lemma UplinkRuns(u: State, table: Table, host: string)
    ensures var n := Edited(u.network.staged, UPLINK, "interface", TableEdits(table) + [Set("hostname", host)]);
            RunFull(u, SectionCmds(Network, UPLINK, "interface", table) + [SetOrClear(Network, Named(UPLINK), "hostname", host)])
            == (u.(network := u.network.(staged := n)), true)
  {
    var block := SectionCmds(Network, UPLINK, "interface", table);
    var more := [SetOrClear(Network, Named(UPLINK), "hostname", host)];
    SectionRun(u, Network, UPLINK, "interface", table);
    var c := u.network.staged;
    var u1 := u.(network := u.network.(staged := Edited(c, UPLINK, "interface", TableEdits(table))));
    EditMore(u, Network, UPLINK, "interface", TableEdits(table), "hostname", host);
    RunThen(u, block, u1, more);
    var done := Edited(c, UPLINK, "interface", TableEdits(table) + [Set("hostname", host)]);
    RunTrace([u1, u.(network := u.network.(staged := done))], more);
  }

  lemma TailRuns(u: State, net: string)
    ensures var v := u.(wireless := u.wireless.(committed := u.wireless.staged),
                        network := u.network.(committed := u.network.staged),
                        firewall := Zone(u.firewall, net));
            RunFull(u, JoinTail(net)) == (v, HasWanZone(u))
  {
    hide JoinZone, ZonePos;
    var cmds := JoinTail(net);
    var u1 := u.(wireless := u.wireless.(committed := u.wireless.staged));
    var u2 := u1.(network := u.network.(committed := u.network.staged));
    if HasWanZone(u) {
      var u3 := u2.(firewall := Zone(u.firewall, net));
      RunTrace([u, u1, u2, u3, u3, u3], cmds);
    } else {
      assert cmds == cmds[..2] + cmds[2..];
      RunTrace([u, u1, u2], cmds[..2]);
      RunThen(u, cmds[..2], u2, cmds[2..]);
      assert cmds[2..][0] == JoinWanZone(net);
    }
  }

  /** JoinUplink's list: what it leaves, and that only a missing wan zone stops it. */
  lemma JoinRuns(u: State, r: Request)
    ensures RunFull(u, JoinCmds(r)) == (JoinResult(u, r), HasWanZone(u))
  {
    hide Edited, JoinTail, SectionCmds, Zone, StaTable;
    var table := StaTable(r);
    StaRuns(u, r, table, Mac(r.ident));
    var u1 := RunFull(u, StaCmds(r)).0;
    UplinkRuns(u1, UPLINK_TABLE, Hostname(r.ident));
    var u2 := RunFull(u1, UplinkCmds(r)).0;
    TailRuns(u2, UPLINK);
    RunThen(u, StaCmds(r), u1, UplinkCmds(r) + JoinTail(UPLINK));
    RunThen(u1, UplinkCmds(r), u2, JoinTail(UPLINK));
  }

  // ---------- No residue ----------

  const STA_OPTS: set<string> := {"device", "network", "mode", "ssid", "encryption", "key", "macaddr"}
  const UPLINK_OPTS: set<string> := {"proto", "hostname"}

  predicate JoinCmd(a: Argv) {
    || Touching(a, Wireless, STA, "wifi-iface", STA_OPTS)
    || Touching(a, Network, UPLINK, "interface", UPLINK_OPTS)
    || a == Commit(Wireless) || a == Commit(Network) || a == JoinWanZone(UPLINK) || a.Service?
  }

  /** How far any stretch of join commands can have moved the store. */
  ghost predicate JoinTouched(u: State, v: State) {
    && Touched(u.wireless.staged, v.wireless.staged, STA, "wifi-iface", STA_OPTS)
    && Touched(u.network.staged, v.network.staged, UPLINK, "interface", UPLINK_OPTS)
    && v.dhcp == u.dhcp
    && (v.firewall == u.firewall || v.firewall == Zone(u.firewall, UPLINK))
  }

  lemma WholeWord(net: string)
    ensures HasWord(net, net)
  {
    assert WordAt(net, net, 0);
  }

  /** Editing the zone's networks does not make another zone the wan zone. */
  lemma {:induction false} ZonePosUpdate(c: Config, p: nat, s: Section)
    requires p < |c| && p == ZonePos(c, "wan")
    requires s.name.None? && s.kind == "zone" && s.Shows("name", "wan")
    ensures ZonePos(c[p := s], "wan") == p
  {
    if p > 0 {
      assert c[p := s][1..] == c[1..][p - 1 := s];
      ZonePosUpdate(c[1..], p - 1, s);
    }
  }

  /** The zone script twice is the zone script once. */
  lemma ZoneTwice(fw: Package, net: string)
    ensures Zone(Zone(fw, net), net) == Zone(fw, net)
  {
    var c := fw.staged;
    var p := ZonePos(c, "wan");
    if p < |c| {
      var d := JoinZone(c, p, net);
      if d != c {
        ZonePosUpdate(c, p, d[p]);
        WholeWord(net);
        assert net in Items(d[p].Get("network"));
      }
    }
  }

  lemma JoinTouchedOnce(u: State, v: State, a: Argv)
    requires JoinCmd(a) && JoinTouched(u, v)
    ensures Exec(v, a).Some? ==> JoinTouched(u, Exec(v, a).value)
  {
    hide Touched, ZonePos, JoinZone, Touching;
    if Touching(a, Wireless, STA, "wifi-iface", STA_OPTS) {
      TouchedOnce(u, v, a, Wireless, STA, "wifi-iface", STA_OPTS);
    } else if Touching(a, Network, UPLINK, "interface", UPLINK_OPTS) {
      TouchedOnce(u, v, a, Network, UPLINK, "interface", UPLINK_OPTS);
    } else {
      ZoneTwice(u.firewall, UPLINK);
    }
  }

  lemma {:induction false} JoinTouchedRun(u: State, v: State, cmds: seq<Argv>, cut: nat)
    requires JoinTouched(u, v) && forall i :: 0 <= i < |cmds| ==> JoinCmd(cmds[i])
    ensures JoinTouched(u, RunAll(v, cmds, cut).0)
    decreases |cmds|
  {
    hide JoinTouched, JoinCmd, Exec;
    if cmds != [] && cut > 0 {
      assert JoinCmd(cmds[0]);
      JoinTouchedOnce(u, v, cmds[0]);
      match Exec(v, cmds[0]) {
        case None =>
        case Some(w) => JoinTouchedRun(u, w, cmds[1..], cut - 1);
      }
    }
  }

  lemma JoinCmdsAre(r: Request)
    ensures forall i :: 0 <= i < |JoinCmds(r)| ==> JoinCmd(JoinCmds(r)[i])
  {
    hide SectionCmds;
    SectionCmdsTouch(Wireless, STA, "wifi-iface", StaTable(r), STA_OPTS);
    SectionCmdsTouch(Network, UPLINK, "interface", UPLINK_TABLE, UPLINK_OPTS);
    var a := StaCmds(r);
    var b := UplinkCmds(r);
    assert forall i :: 0 <= i < |a| ==> JoinCmd(a[i]);
    assert forall i :: 0 <= i < |b| ==> JoinCmd(b[i]);
  }

  lemma StaEditsCover(r: Request)
    ensures forall i :: 0 <= i < |StaEdits(r)| ==> StaEdits(r)[i].Set?
    ensures forall o :: o in STA_OPTS ==> exists i :: 0 <= i < |StaEdits(r)| && StaEdits(r)[i].opt == o
  {
    var e := StaEdits(r);
    assert e[0].opt == "device" && e[1].opt == "network" && e[2].opt == "mode" && e[3].opt == "ssid"
        && e[4].opt == "encryption" && e[5].opt == "key" && e[6].opt == "macaddr";
  }

  lemma UplinkEditsCover(r: Request)
    ensures forall i :: 0 <= i < |UplinkEdits(r)| ==> UplinkEdits(r)[i].Set?
    ensures forall o :: o in UPLINK_OPTS ==> exists i :: 0 <= i < |UplinkEdits(r)| && UplinkEdits(r)[i].opt == o
  {
    var e := UplinkEdits(r);
    assert e[0].opt == "proto" && e[1].opt == "hostname";
  }

  lemma UntouchedIsTouched(u: State)
    ensures JoinTouched(u, u)
  {
  }

  /**
   Any prefix of one join and then another join: the whole store is the one the second join alone
   leaves. No key, address or host name of the first survives.
   */
  lemma JoinConverges(u: State, first: Request, cut: nat, second: Request)
    ensures JoinResult(RunAll(u, JoinCmds(first), cut).0, second) == JoinResult(u, second)
  {
    hide Touched, Edited, StaEdits, UplinkEdits, JoinCmds, Zone, JoinCmd, RunAll;
    var v := RunAll(u, JoinCmds(first), cut).0;
    UntouchedIsTouched(u);
    JoinCmdsAre(first);
    JoinTouchedRun(u, u, JoinCmds(first), cut);
    StaEditsCover(second);
    UplinkEditsCover(second);
    TouchedForgotten(u.wireless.staged, v.wireless.staged, STA, "wifi-iface", STA_OPTS, StaEdits(second));
    TouchedForgotten(u.network.staged, v.network.staged, UPLINK, "interface", UPLINK_OPTS, UplinkEdits(second));
    ZoneTwice(u.firewall, UPLINK);
  }

  /** Rolling the identity of a joined uplink is joining it again under the new one. */
  lemma IdentityIsRejoin(u: State, r: Request, ident: Identity)
    ensures RunFull(JoinResult(u, r), IdentityCmds(Some(ident))) == (JoinResult(u, r.(ident := Some(ident))), true)
  {
    hide StaTable, PutSection, Zone, Based;
    var v := JoinResult(u, r);
    var w := JoinResult(u, r.(ident := Some(ident)));
    Replaced(u, Wireless, STA, "wifi-iface", TableEdits(StaTable(r)) + [Set("key", r.key)], "macaddr", Mac(r.ident), ident.mac);
    Replaced(u, Network, UPLINK, "interface", TableEdits(UPLINK_TABLE), "hostname", Hostname(r.ident), ident.hostname);
    assert StaEdits(r) == TableEdits(StaTable(r)) + [Set("key", r.key)] + [Set("macaddr", Mac(r.ident))];
    var r2 := r.(ident := Some(ident));
    assert StaTable(r2) == StaTable(r) by { SameTable(r, ident); }
    assert StaEdits(r2) == TableEdits(StaTable(r)) + [Set("key", r.key)] + [Set("macaddr", ident.mac)];
    SetReplaced(v, Wireless, STA, "macaddr", ident.mac, w.wireless.staged);
    var v1 := v.(wireless := v.wireless.(staged := w.wireless.staged));
    SetReplaced(v1, Network, UPLINK, "hostname", ident.hostname, w.network.staged);
    var v2 := v1.(network := v1.network.(staged := w.network.staged));
    var v3 := v2.(wireless := w.wireless);
    RunTrace([v, v1, v2, v3, w, w, w], IdentityCmds(Some(ident)));
  }

  lemma SameTable(r: Request, ident: Identity)
    ensures StaTable(r.(ident := Some(ident))) == StaTable(r)
  {
  }

  /** A set option, set again. */
  lemma Replaced(u: State, pkg: PackageName, n: string, kind: string, before: seq<Edit>, opt: string, text: string, again: string)
    ensures var c := Edited(u.Staged(pkg), n, kind, before + [Set(opt, text)]);
            var d := Edited(u.Staged(pkg), n, kind, before + [Set(opt, again)]);
            Lookup(c, n).Some? && d == PutSection(c, n, EditOnce(Lookup(c, n).value, Set(opt, again)))
  {
    var s0 := Based(u.Staged(pkg), n, kind);
    EditAppend(s0, before, [Set(opt, text)]);
    EditAppend(s0, before, [Set(opt, again)]);
    var s := EditSection(s0, before);
    EditOne(s, Set(opt, text));
    EditOne(s, Set(opt, again));
    var t := EditOnce(s, Set(opt, text));
    PutSectionFacts(u.Staged(pkg), n, t);
    SetTwice(s, opt, text, again);
    PutSectionTwice(u.Staged(pkg), n, t, EditOnce(t, Set(opt, again)));
  }

  lemma SetTwice(s: Section, opt: string, text: string, again: string)
    ensures EditOnce(EditOnce(s, Set(opt, text)), Set(opt, again)) == EditOnce(s, Set(opt, again))
  {
    assert EditOnce(EditOnce(s, Set(opt, text)), Set(opt, again)).options == EditOnce(s, Set(opt, again)).options;
  }

  lemma SetReplaced(v: State, pkg: PackageName, n: string, opt: string, text: string, d: Config)
    requires Lookup(v.Staged(pkg), n).Some?
    requires d == PutSection(v.Staged(pkg), n, EditOnce(Lookup(v.Staged(pkg), n).value, Set(opt, text)))
    ensures Exec(v, SetOrClear(pkg, Named(n), opt, text)) == Some(v.With(pkg, v.Pkg(pkg).(staged := d)))
  {
    SetOrClearRuns(v, pkg, n, opt, text);
  }

  // ---------- The station after a join ----------

  /** What netifd reads of the station section. */
  predicate Joined(c: Config, r: Request) {
    match Lookup(c, STA)
    case None => false
    case Some(s) =>
      && Carries(s, "wifi-iface", StaTable(r))
      && s.Get("key") == (if r.key == "" then None else Some(Scalar(r.key)))
      && s.Get("macaddr") == (if Mac(r.ident) == "" then None else Some(Scalar(Mac(r.ident))))
  }

  /** After a join the station is exactly the one asked for: an open network has no key left over. */
  lemma JoinReadsBack(u: State, r: Request)
    requires r.ssid != ""
    ensures Joined(JoinResult(u, r).wireless.staged, r)
    ensures OnlyNames(u.wireless.staged, JoinResult(u, r).wireless.staged, {STA})
    ensures OnlyNames(u.network.staged, JoinResult(u, r).network.staged, {UPLINK})
  {
    var t := StaTable(r);
    var s0 := Based(u.wireless.staged, STA, "wifi-iface");
    assert WellFormed(t);
    TableWritten(s0, t);
    var s1 := EditSection(s0, TableEdits(t));
    EditAppend(s0, TableEdits(t), [Set("key", r.key), Set("macaddr", Mac(r.ident))]);
    EditTwo(s1, Set("key", r.key), Set("macaddr", Mac(r.ident)));
    var s := EditSection(s0, StaEdits(r));
    PutSectionFacts(u.wireless.staged, STA, s);
    PutSectionFacts(u.network.staged, UPLINK, EditSection(Based(u.network.staged, UPLINK, "interface"), UplinkEdits(r)));
    forall i | 0 <= i < |t|
      ensures s.Get(t[i].0) == Some(Scalar(t[i].1))
    {
      assert s1.Get(t[i].0) == Some(Scalar(t[i].1));
      assert t[i].0 != "key" && t[i].0 != "macaddr";
    }
  }

  // ---------- The wan zone over any number of joins ----------

  function Joins(u: State, tries: seq<(Request, nat)>): State
    decreases |tries|
  {
    if tries == [] then u else Joins(RunAll(u, JoinCmds(tries[0].0), tries[0].1).0, tries[1..])
  }

  lemma {:induction false} JoinsZone(u: State, tries: seq<(Request, nat)>)
    ensures var fw := Joins(u, tries).firewall; fw == u.firewall || fw == Zone(u.firewall, UPLINK)
    decreases |tries|
  {
    hide JoinCmds, Zone, JoinCmd, Touched, RunAll;
    if tries != [] {
      var v := RunAll(u, JoinCmds(tries[0].0), tries[0].1).0;
      UntouchedIsTouched(u);
      JoinCmdsAre(tries[0].0);
      JoinTouchedRun(u, u, JoinCmds(tries[0].0), tries[0].1);
      JoinsZone(v, tries[1..]);
      ZoneTwice(u.firewall, UPLINK);
    }
  }

  function WanNetworks(fw: Config): seq<string> {
    var p := ZonePos(fw, "wan");
    if p < |fw| then Items(fw[p].Get("network")) else []
  }

  /** Over any number of joins, cut short or not, wwan is added to the wan zone at most once. */
  lemma WwanAddedOnce(u: State, tries: seq<(Request, nat)>)
    ensures var before := WanNetworks(u.firewall.staged);
            var after := WanNetworks(Joins(u, tries).firewall.staged);
            after == before || after == before + [UPLINK]
  {
    JoinsZone(u, tries);
    ZoneNetworks(u.firewall, UPLINK);
  }

  lemma ZoneNetworks(fw: Package, net: string)
    ensures var before := WanNetworks(fw.staged);
            var p := ZonePos(fw.staged, "wan");
            WanNetworks(Zone(fw, net).staged)
            == if p == |fw.staged| || ListsWord(fw.staged[p], "network", net) then before else before + [net]
  {
    var c := fw.staged;
    var p := ZonePos(c, "wan");
    if p < |c| && !ListsWord(c[p], "network", net) {
      var s := c[p].Put("network", List(Items(c[p].Get("network")) + [net]));
      ZonePosUpdate(c, p, s);
    }
  }

  /** The uplink ends up in the zone exactly if it was there or no entry merely contains its name as a word. */
  lemma JoinedZoneHasUplink(u: State, r: Request)
    requires HasWanZone(u)
    ensures var c := u.firewall.staged;
            UPLINK in WanNetworks(JoinResult(u, r).firewall.staged)
            <==> UPLINK in WanNetworks(c) || !ListsWord(c[WanZone(u)], "network", UPLINK)
  {
    ZoneNetworks(u.firewall, UPLINK);
    WholeWord(UPLINK);
  }

  /** A network called wwan-6 in the zone keeps wwan out of it. */
  lemma HyphenKeepsUplinkOut(u: State, r: Request)
    requires HasWanZone(u) && WanNetworks(u.firewall.staged) == ["wwan-6"]
    ensures UPLINK !in WanNetworks(JoinResult(u, r).firewall.staged)
  {
    JoinedZoneHasUplink(u, r);
    assert WordAt("wwan-6", "wwan", 0);
    assert HasWord("wwan-6", "wwan");
    assert "wwan-6" in WanNetworks(u.firewall.staged);
  }

  // ---------- The radio ----------

  class WiFi {
    const router: Router

    constructor (r: Router)
      ensures router == r
    {
      router := r;
    }

    method JoinUplink(r: Request, cut: nat) returns (e: Option<Error>)
      modifies router
      ensures Check(r).Some? ==> e == Check(r) && router.uci == old(router.uci)
      ensures e == Some(BadSsid(|r.ssid|)) <==> |r.ssid| < 1 || |r.ssid| > 32
      ensures e == Some(BadPsk(|r.key|)) <==> 1 <= |r.ssid| <= 32 && r.key != "" && (|r.key| < 8 || |r.key| > 63)
      ensures Check(r).None? ==>
                && router.uci == RunAll(old(router.uci), JoinCmds(r), cut).0
                && (e == None || e == Some(CommandFailed))
                && (e == None ==> router.uci == JoinResult(old(router.uci), r) && HasWanZone(old(router.uci)))
                && (cut >= |JoinCmds(r)| && HasWanZone(old(router.uci)) ==> e == None)
    {
      if |r.ssid| < 1 || |r.ssid| > 32 {
        return Some(BadSsid(|r.ssid|));
      }
      var enc := "none";
      if r.key != "" {
        if |r.key| < 8 || |r.key| > 63 {
          return Some(BadPsk(|r.key|));
        }
        enc := "psk2";
      }
      var cmds := SectionCmds(Wireless, STA, "wifi-iface",
        [("device", "radio0"), ("network", UPLINK), ("mode", "sta"), ("ssid", r.ssid), ("encryption", enc)]);
      if r.key != "" {
        cmds := cmds + [Run(Wireless, SetOption(Named(STA), "key", r.key))];
      } else {
        cmds := cmds + [Quiet(Wireless, DeleteOption(Named(STA), "key"))];
      }
      cmds := cmds + [MacCmd(r.ident)];
      assert cmds == StaCmds(r);
      cmds := cmds + SectionCmds(Network, UPLINK, "interface", UPLINK_TABLE);
      cmds := cmds + [HostnameCmd(r.ident)];
      cmds := cmds + JoinTail(UPLINK);
      assert cmds == JoinCmds(r);
      ghost var u := router.uci;
      var ok := router.RunCommands(cmds, cut);
      JoinRuns(u, r);
      if cut >= |cmds| {
        RunEnough(u, cmds, cut);
      }
      if !ok {
        return Some(CommandFailed);
      }
      OkMeansFull(u, cmds, cut);
      return None;
    }
  }
}
