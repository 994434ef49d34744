/**
 A joined uplink as netifd runs it (internal/netcfg/wifi.go), read option by option: the station on the
 radio and the interface behind it.
 */
module WifiView {
  import opened Common
  import opened Uci
  import opened Live
  import W = Wifi

  /** An option that is there with this text, or not there at all if the text is empty. */
  predicate Holds(s: Section, opt: string, text: string) {
    s.Get(opt) == if text == "" then None else Some(Scalar(text))
  }

  /** A station of the network with the given credentials: an empty key is an open network. */
  predicate IsStation(s: Section, ssid: string, key: string, mac: string) {
    && s.kind == "wifi-iface" && s.Get("device") == Some(Scalar("radio0")) && s.Get("network") == Some(Scalar("wwan"))
    && s.Get("mode") == Some(Scalar("sta")) && s.Get("ssid") == Some(Scalar(ssid))
    && s.Get("encryption") == Some(Scalar(if key == "" then "none" else "psk2"))
    && Holds(s, "key", key) && Holds(s, "macaddr", mac)
  }

  predicate IsUplink(s: Section, hostname: string) {
    s.kind == "interface" && s.Get("proto") == Some(Scalar("dhcp")) && Holds(s, "hostname", hostname)
  }

  lemma StationIs(c: Config, r: W.Request)
    requires W.Joined(c, r)
    ensures Lookup(c, "mistui_sta").Some? && IsStation(Lookup(c, "mistui_sta").value, r.ssid, r.key, W.Mac(r.ident))
  {
    var s := Lookup(c, W.STA).value;
    var t := W.StaTable(r);
    assert s.Get(t[0].0) == Some(Scalar(t[0].1)) && s.Get(t[1].0) == Some(Scalar(t[1].1));
    assert s.Get(t[2].0) == Some(Scalar(t[2].1)) && s.Get(t[3].0) == Some(Scalar(t[3].1));
    assert s.Get(t[4].0) == Some(Scalar(t[4].1));
  }

  lemma UplinkIs(c: Config, r: W.Request)
    ensures var d := Edited(c, W.UPLINK, "interface", W.UplinkEdits(r));
            Lookup(d, "wwan").Some? && IsUplink(Lookup(d, "wwan").value, W.Hostname(r.ident))
  {
    var s := Based(c, W.UPLINK, "interface");
    var edits := W.UplinkEdits(r);
    assert edits == [Set("proto", "dhcp"), Set("hostname", W.Hostname(r.ident))];
    EditTwo(s, edits[0], edits[1]);
    PutSectionFacts(c, W.UPLINK, EditSection(s, edits));
  }

  lemma JoinReloads(r: W.Request)
    ensures Reloads(W.JoinCmds(r), Network) && Reloads(W.JoinCmds(r), Wireless)
  {
    hide W.StaCmds, W.UplinkCmds;
    var cmds := W.JoinCmds(r);
    var n := |cmds|;
    assert cmds[n - 1] == Service("wifi reload") && cmds[n - 2] == Service("network reload");
  }

  /** After a join that reported success the radio runs exactly the station asked for, and the uplink asks for its address. */
  lemma JoinView(l: Live, cut: nat, r: W.Request)
    requires r.ssid != "" && LiveRun(l, W.JoinCmds(r), cut).1
    ensures var m := LiveRun(l, W.JoinCmds(r), cut).0;
            && Lookup(m.wireless, "mistui_sta").Some?
            && IsStation(Lookup(m.wireless, "mistui_sta").value, r.ssid, r.key, W.Mac(r.ident))
            && Lookup(m.network, "wwan").Some? && IsUplink(Lookup(m.network, "wwan").value, W.Hostname(r.ident))
            && OnlyNames(l.uci.wireless.staged, m.wireless, {"mistui_sta"}) && OnlyNames(l.uci.network.staged, m.network, {"wwan"})
  {
    hide W.JoinCmds, LiveRun, RunAll, Reloads, Edited, W.Joined, IsStation, IsUplink, W.Zone, OnlyNames;
    var cmds := W.JoinCmds(r);
    LiveIsRun(l, cmds, cut);
    OkMeansFull(l.uci, cmds, cut);
    W.JoinRuns(l.uci, r);
    JoinReloads(r);
    ReloadSettles(l, cmds, cut, Network);
    ReloadSettles(l, cmds, cut, Wireless);
    W.JoinReadsBack(l.uci, r);
    StationIs(W.JoinResult(l.uci, r).wireless.staged, r);
    UplinkIs(l.uci.network.staged, r);
  }
}
