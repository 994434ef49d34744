/**
 The router side of encrypted DNS (internal/dns/service.go): the command lists that point dnsmasq
 at the forwarder, install the port-53 rules and the fail-closed companion rule, and what they
 mean on the UCI store. The list of resolver addresses comes from internal/dns/providers.go.
 */
module DnsService {
  import opened Common
  import opened Uci

  // ---------- Providers ----------

  datatype Provider = Provider(key: string, hostname: string, ips: seq<string>)

  const PROVIDERS: seq<Provider> := [
    Provider("quad9", "dns.quad9.net", ["9.9.9.9", "149.112.112.112"]),
    Provider("cloudflare", "cloudflare-dns.com", ["1.1.1.1", "1.0.0.1"]),
    Provider("mullvad", "dns.mullvad.net", ["194.242.2.2"])
  ]

  /** The addresses of the providers, in the order they are dialled. */
  function IpsOf(ps: seq<Provider>): seq<string> {
    if ps == [] then [] else ps[0].ips + IpsOf(ps[1..])
  }

  function ResolverIps(): seq<string> {
    IpsOf(PROVIDERS)
  }

  lemma {:induction false} IpsOfAppend(ps: seq<Provider>, qs: seq<Provider>)
    ensures IpsOf(ps + qs) == IpsOf(ps) + IpsOf(qs)
  {
    if ps == [] {
      assert ps + qs == qs;
    } else {
      assert (ps + qs)[1..] == ps[1..] + qs;
      IpsOfAppend(ps[1..], qs);
    }
  }

  method AllResolverIPs() returns (out: seq<string>)
    ensures out == ResolverIps()
    ensures forall p, ip :: p in PROVIDERS && ip in p.ips ==> ip in out
  {
    out := [];
    for i := 0 to |PROVIDERS|
      invariant out == IpsOf(PROVIDERS[..i])
      invariant forall p, ip :: p in PROVIDERS[..i] && ip in p.ips ==> ip in out
    {
      IpsOfAppend(PROVIDERS[..i], [PROVIDERS[i]]);
      assert PROVIDERS[..i + 1] == PROVIDERS[..i] + [PROVIDERS[i]];
      out := out + PROVIDERS[i].ips;
    }
    assert PROVIDERS[..|PROVIDERS|] == PROVIDERS;
  }

  /** The forwarder's address as dnsmasq writes it: host#port. */
  type Address = s: string | s != "" witness "127.0.0.1#5335"

  // ---------- Command lists ----------

  const DNSMASQ := Indexed("dnsmasq", 0)

  const OUT := "mistui_dns_out"
  const FWD := "mistui_dns_fwd"
  const HIJACK := "mistui_dns_hijack"
  const KS := "mistui_dns_ks"

  const RULES: set<string> := {OUT, FWD, HIJACK}
  const OWNED: set<string> := {OUT, FWD, HIJACK, KS}

  const OUT_RULE: Table := [
    ("name", "mistui-dns53-out"), ("dest", "wan"), ("proto", "tcp udp"),
    ("dest_port", "53"), ("target", "REJECT")
  ]

  const FWD_RULE: Table := [
    ("name", "mistui-dns53-fwd"), ("src", "lan"), ("dest", "wan"), ("proto", "tcp udp"),
    ("dest_port", "53"), ("target", "REJECT")
  ]

  const HIJACK_RULE: Table := [
    ("name", "mistui-dns-hijack"), ("src", "lan"), ("proto", "tcp udp"),
    ("src_dport", "53"), ("target", "DNAT")
  ]

  const KS_HEAD: Table := [
    ("name", "mistui-doh-failclosed"), ("dest", "wan"), ("proto", "tcp"), ("dest_port", "443")
  ]

  function EnableDhcp(spec: string): seq<Argv> {
    [ Run(Dhcp, SetOption(DNSMASQ, "noresolv", "1")),
      Quiet(Dhcp, DelList(DNSMASQ, "server", spec)),
      Run(Dhcp, AddList(DNSMASQ, "server", spec)),
      Commit(Dhcp) ]
  }

  function EnableFirewall(): seq<Argv> {
    SectionCmds(Firewall, OUT, "rule", OUT_RULE)
    + (SectionCmds(Firewall, FWD, "rule", FWD_RULE)
       + (SectionCmds(Firewall, HIJACK, "redirect", HIJACK_RULE)
          + [Commit(Firewall), Service("dnsmasq restart"), Service("firewall reload")]))
  }

  function EnableCmds(spec: string): seq<Argv> {
    EnableDhcp(spec) + EnableFirewall()
  }

  function DisableDhcp(spec: string): seq<Argv> {
    [ Quiet(Dhcp, DeleteOption(DNSMASQ, "noresolv")),
      Quiet(Dhcp, DelList(DNSMASQ, "server", spec)),
      Commit(Dhcp) ]
  }

  function DisableFirewall(): seq<Argv> {
    [ Quiet(Firewall, DeleteSection(Named(OUT))),
      Quiet(Firewall, DeleteSection(Named(FWD))),
      Quiet(Firewall, DeleteSection(Named(HIJACK))),
      Quiet(Firewall, DeleteSection(Named(KS))),
      Commit(Firewall),
      Service("dnsmasq restart"),
      Service("firewall reload") ]
  }

  function DisableCmds(spec: string): seq<Argv> {
    DisableDhcp(spec) + DisableFirewall()
  }

  function FailClosedEdits(): seq<Edit> {
    Pushes("dest_ip", ResolverIps()) + [Set("target", "REJECT")]
  }

  /** The rest of the list once the head of the rule is written. */
  function FailClosedTail(edits: seq<Edit>): seq<Argv> {
    [Quiet(Firewall, DeleteOption(Named(KS), "dest_ip"))]
    + (EditCmds(Firewall, Named(KS), edits) + [Commit(Firewall), Service("firewall reload")])
  }

  function FailClosedOnCmds(): seq<Argv> {
    SectionCmds(Firewall, KS, "rule", KS_HEAD) + FailClosedTail(FailClosedEdits())
  }

  function FailClosedOffCmds(): seq<Argv> {
    [Quiet(Firewall, DeleteSection(Named(KS))), Commit(Firewall), Service("firewall reload")]
  }

  function FailClosedCmds(on: bool): seq<Argv> {
    if on then FailClosedOnCmds() else FailClosedOffCmds()
  }

  // ---------- Reading the store ----------

  /** The first dnsmasq section, if there is one. */
  function DnsmasqAt(u: State): (p: nat)
    ensures p <= |u.dhcp.staged|
  {
    Resolve(u.dhcp.staged, DNSMASQ)
  }

  predicate HasDnsmasq(u: State) {
    DnsmasqAt(u) < |u.dhcp.staged|
  }

  function ServerOption(u: State): Option<Value> {
    if HasDnsmasq(u) then u.dhcp.staged[DnsmasqAt(u)].Get("server") else None
  }

  function Servers(u: State): seq<string> {
    Items(ServerOption(u))
  }

  /** `grep -F spec`: the text occurs somewhere in the entry. */
  predicate Mentions(text: string, spec: string) {
    exists i: nat | i <= |text| :: OccursAt(text, spec, i)
  }

  predicate OccursAt(text: string, spec: string, i: nat) {
    i + |spec| <= |text| && text[i..i + |spec|] == spec
  }

  /** What Enabled() reports. */
  predicate Enabled(u: State, spec: string) {
    exists t :: t in Servers(u) && Mentions(t, spec)
  }

  /** No other server entry contains the forwarder's address, and `server` is a list, not a text. */
  predicate PlainServers(u: State, spec: string) {
    && ServerOption(u) != Some(Scalar(spec))
    && forall t :: t in Servers(u) && Mentions(t, spec) ==> t == spec
  }

  /** The fail-closed rule exactly as SetFailClosed(true) installs it. */
  predicate RuleInstalled(fw: Config) {
    match Lookup(fw, KS)
    case None => false
    case Some(s) =>
      && Carries(s, "rule", KS_HEAD)
      && s.Get("dest_ip") == Some(List(ResolverIps()))
      && s.Get("target") == Some(Scalar("REJECT"))
  }

  /** The three port-53 rules as Enable installs them. */
  predicate RulesInstalled(fw: Config) {
    && Lookup(fw, OUT).Some? && Carries(Lookup(fw, OUT).value, "rule", OUT_RULE)
    && Lookup(fw, FWD).Some? && Carries(Lookup(fw, FWD).value, "rule", FWD_RULE)
    && Lookup(fw, HIJACK).Some? && Carries(Lookup(fw, HIJACK).value, "redirect", HIJACK_RULE)
  }

  // ---------- What the lists mean ----------

  function ServerOn(s: Section, spec: string): Section {
    EditOnce(DelItem(s.Put("noresolv", Scalar("1")), "server", spec), Push("server", spec))
  }

  function ServerOff(s: Section, spec: string): Section {
    DelItem(s.Drop("noresolv"), "server", spec)
  }

  function FirewallEnabled(c: Config): Config {
    SectionResult(
      SectionResult(SectionResult(c, OUT, "rule", OUT_RULE), FWD, "rule", FWD_RULE),
      HIJACK, "redirect", HIJACK_RULE)
  }

  function FirewallDisabled(c: Config): Config {
    DropNames(c, OWNED)
  }

  function KsSection(s: Section, edits: seq<Edit>): Section {
    EditSection(EditSection(s, TableEdits(KS_HEAD)).Drop("dest_ip"), edits)
  }

  function EnableResult(u: State, spec: string): State {
    if !HasDnsmasq(u) then u
    else
      var p := DnsmasqAt(u);
      var d := u.dhcp.staged[p := ServerOn(u.dhcp.staged[p], spec)];
      var f := FirewallEnabled(u.firewall.staged);
      u.(dhcp := Package(d, d), firewall := Package(f, f))
  }

  function DisableResult(u: State, spec: string): State {
    var p := DnsmasqAt(u);
    var d := if HasDnsmasq(u) then u.dhcp.staged[p := ServerOff(u.dhcp.staged[p], spec)] else u.dhcp.staged;
    var f := FirewallDisabled(u.firewall.staged);
    u.(dhcp := Package(d, d), firewall := Package(f, f))
  }

  function FailClosedResult(u: State, on: bool): State {
    var c := u.firewall.staged;
    var f := if on then PutSection(c, KS, KsSection(Based(c, KS, "rule"), FailClosedEdits())) else DropNamed(c, KS);
    u.(firewall := Package(f, f))
  }

  lemma DropNoNames(c: Config)
    ensures DropNames(c, {}) == c
  {
  }

  lemma SectionThen(u: State, n: string, kind: string, t: Table, rest: seq<Argv>)
    ensures var v := u.(firewall := u.firewall.(staged := SectionResult(u.firewall.staged, n, kind, t)));
            RunFull(u, SectionCmds(Firewall, n, kind, t) + rest) == RunFull(v, rest)
  {
    SectionRun(u, Firewall, n, kind, t);
    var block := SectionCmds(Firewall, n, kind, t);
    RunAppend(u, block, rest, |block + rest|);
    RunEnough(u, block, |block + rest|);
  }

  lemma EnableDhcpRuns(u: State, spec: string)
    requires spec != ""
    ensures var p := DnsmasqAt(u);
            RunFull(u, EnableDhcp(spec)) ==
            if HasDnsmasq(u) then
              var d := u.dhcp.staged[p := ServerOn(u.dhcp.staged[p], spec)];
              (u.(dhcp := Package(d, d)), true)
            else (u, false)
  {
    var c := u.dhcp.staged;
    var p := DnsmasqAt(u);
    var cmds := EnableDhcp(spec);
    if p < |c| {
      var s1 := c[p].Put("noresolv", Scalar("1"));
      var s2 := DelItem(s1, "server", spec);
      var s3 := EditOnce(s2, Push("server", spec));
      ResolveUpdate(c, p, s1, DNSMASQ);
      ResolveUpdate(c[p := s1], p, s2, DNSMASQ);
      var u1 := u.(dhcp := u.dhcp.(staged := c[p := s1]));
      var u2 := u.(dhcp := u.dhcp.(staged := c[p := s1][p := s2]));
      var u3 := u.(dhcp := u.dhcp.(staged := c[p := s3]));
      assert c[p := s1][p := s2] == c[p := s2] && c[p := s2][p := s3] == c[p := s3];
      assert Exec(u, cmds[0]) == Some(u1);
      assert Exec(u1, cmds[1]) == Some(u2);
      assert Exec(u2, cmds[2]) == Some(u3);
      RunTrace([u, u1, u2, u3, u.(dhcp := Package(c[p := s3], c[p := s3]))], cmds);
    }
  }

  lemma EnableFirewallRuns(u: State)
    ensures var f := FirewallEnabled(u.firewall.staged);
            RunFull(u, EnableFirewall()) == (u.(firewall := Package(f, f)), true)
  {
    hide SectionResult, SectionCmds, OUT_RULE, FWD_RULE, HIJACK_RULE;
    var c := u.firewall.staged;
    var c1 := SectionResult(c, OUT, "rule", OUT_RULE);
    var c2 := SectionResult(c1, FWD, "rule", FWD_RULE);
    var c3 := SectionResult(c2, HIJACK, "redirect", HIJACK_RULE);
    var tail := [Commit(Firewall), Service("dnsmasq restart"), Service("firewall reload")];
    var rest := SectionCmds(Firewall, HIJACK, "redirect", HIJACK_RULE) + tail;
    SectionThen(u, OUT, "rule", OUT_RULE, SectionCmds(Firewall, FWD, "rule", FWD_RULE) + rest);
    SectionThen(u.(firewall := u.firewall.(staged := c1)), FWD, "rule", FWD_RULE, rest);
    SectionThen(u.(firewall := u.firewall.(staged := c2)), HIJACK, "redirect", HIJACK_RULE, tail);
    var u3 := u.(firewall := u.firewall.(staged := c3));
    var done := u.(firewall := Package(c3, c3));
    RunTrace([u3, done, done, done], tail);
  }

  /** Enable fails only when there is no dnsmasq section, and then changes nothing. */
  lemma EnableRuns(u: State, spec: string)
    requires spec != ""
    ensures RunFull(u, EnableCmds(spec)) == (EnableResult(u, spec), HasDnsmasq(u))
  {
    EnableDhcpRuns(u, spec);
    RunAppend(u, EnableDhcp(spec), EnableFirewall(), |EnableCmds(spec)|);
    RunEnough(u, EnableDhcp(spec), |EnableCmds(spec)|);
    if HasDnsmasq(u) {
      EnableFirewallRuns(RunFull(u, EnableDhcp(spec)).0);
    }
  }

  lemma DisableDhcpRuns(u: State, spec: string)
    ensures var d := DisableResult(u, spec).dhcp;
            RunFull(u, DisableDhcp(spec)) == (u.(dhcp := d), true)
  {
    var c := u.dhcp.staged;
    var p := DnsmasqAt(u);
    var c2 := DisableResult(u, spec).dhcp.staged;
    var c1 := c;
    if HasDnsmasq(u) {
      var s1 := c[p].Drop("noresolv");
      c1 := c[p := s1];
      ResolveUpdate(c, p, s1, DNSMASQ);
      assert "noresolv" !in c[p].options ==> s1.options == c[p].options && c1 == c;
      assert c1[p := ServerOff(c[p], spec)] == c2;
    }
    RunTrace([u, u.(dhcp := u.dhcp.(staged := c1)), u.(dhcp := u.dhcp.(staged := c2)), u.(dhcp := Package(c2, c2))],
             DisableDhcp(spec));
  }

  lemma DisableFirewallRuns(u: State)
    ensures var f := FirewallDisabled(u.firewall.staged);
            RunFull(u, DisableFirewall()) == (u.(firewall := Package(f, f)), true)
  {
    hide DropNamed, DropNames, PosNamed, Lookup;
    var f := u.firewall.staged;
    var f1 := DropNamed(f, OUT);
    var f2 := DropNamed(f1, FWD);
    var f3 := DropNamed(f2, HIJACK);
    var f4 := DropNamed(f3, KS);
    DropQuietly(f, OUT);
    DropQuietly(f1, FWD);
    DropQuietly(f2, HIJACK);
    DropQuietly(f3, KS);
    DropNamedFour(f);
    var done := u.(firewall := Package(f4, f4));
    RunTrace([u, u.(firewall := u.firewall.(staged := f1)), u.(firewall := u.firewall.(staged := f2)),
              u.(firewall := u.firewall.(staged := f3)), u.(firewall := u.firewall.(staged := f4)), done, done, done],
             DisableFirewall());
  }

  lemma DisableRuns(u: State, spec: string)
    ensures RunFull(u, DisableCmds(spec)) == (DisableResult(u, spec), true)
  {
    DisableDhcpRuns(u, spec);
    var v := RunFull(u, DisableDhcp(spec)).0;
    DisableFirewallRuns(v);
    RunAppend(u, DisableDhcp(spec), DisableFirewall(), |DisableCmds(spec)|);
    RunEnough(u, DisableDhcp(spec), |DisableCmds(spec)|);
  }

  lemma DropQuietly(c: Config, n: string)
    ensures ApplyOrSkip(c, DeleteSection(Named(n))) == DropNamed(c, n)
  {
    if PosNamed(c, n) == |c| {
      DropNamedAbsent(c, n);
    }
  }

  lemma DropNamedFour(c: Config)
    ensures DropNamed(DropNamed(DropNamed(DropNamed(c, OUT), FWD), HIJACK), KS) == DropNames(c, OWNED)
  {
    DropNoNames(DropNamed(DropNamed(DropNamed(DropNamed(c, OUT), FWD), HIJACK), KS));
    DropNamedIn(DropNamed(DropNamed(DropNamed(c, OUT), FWD), HIJACK), KS, {});
    DropNamedIn(DropNamed(DropNamed(c, OUT), FWD), HIJACK, {} + {KS});
    DropNamedIn(DropNamed(c, OUT), FWD, {} + {KS} + {HIJACK});
    DropNamedIn(c, OUT, {} + {KS} + {HIJACK} + {FWD});
    assert {} + {KS} + {HIJACK} + {FWD} + {OUT} == OWNED;
  }

  lemma FailClosedRuns(u: State, on: bool)
    ensures RunFull(u, FailClosedCmds(on)) == (FailClosedResult(u, on), true)
  {
    var c := u.firewall.staged;
    if on {
      FailClosedOnRuns(u);
    } else {
      DropQuietly(c, KS);
      var d := DropNamed(c, KS);
      var v := u.(firewall := u.firewall.(staged := d));
      var w := u.(firewall := Package(d, d));
      RunTrace([u, v, w, w], FailClosedOffCmds());
    }
  }

  lemma FailClosedOnRuns(u: State)
    ensures RunFull(u, FailClosedOnCmds()) == (FailClosedResult(u, true), true)
  {
    var c := u.firewall.staged;
    var s1 := EditSection(Based(c, KS, "rule"), TableEdits(KS_HEAD));
    var u1 := u.(firewall := u.firewall.(staged := PutSection(c, KS, s1)));
    var edits := FailClosedEdits();
    SectionThen(u, KS, "rule", KS_HEAD, FailClosedTail(edits));
    PutSectionFacts(c, KS, s1);
    FailClosedTailRuns(u1, s1, edits);
    PutSectionTwice(c, KS, s1, KsSection(Based(c, KS, "rule"), edits));
  }

  lemma FailClosedTailRuns(u: State, s: Section, edits: seq<Edit>)
    requires Lookup(u.firewall.staged, KS) == Some(s)
    ensures var f := PutSection(u.firewall.staged, KS, EditSection(s.Drop("dest_ip"), edits));
            RunFull(u, FailClosedTail(edits)) == (u.(firewall := Package(f, f)), true)
  {
    var c := u.firewall.staged;
    var s2 := s.Drop("dest_ip");
    var u2 := u.(firewall := u.firewall.(staged := PutSection(c, KS, s2)));
    var drop := Quiet(Firewall, DeleteOption(Named(KS), "dest_ip"));
    assert "dest_ip" !in s.options ==> s2.options == s.options && c == PutSection(c, KS, s2);
    assert Exec(u, drop) == Some(u2);
    PutSectionFacts(c, KS, s2);
    EditsThenCommit(u2, s2, edits);
    PutSectionTwice(c, KS, s2, EditSection(s2, edits));
    var cmds := FailClosedTail(edits);
    assert cmds[0] == drop && cmds[1..] == EditCmds(Firewall, Named(KS), edits) + [Commit(Firewall), Service("firewall reload")];
  }

  lemma EditsThenCommit(u: State, s: Section, edits: seq<Edit>)
    requires Lookup(u.firewall.staged, KS) == Some(s)
    ensures var f := PutSection(u.firewall.staged, KS, EditSection(s, edits));
            RunFull(u, EditCmds(Firewall, Named(KS), edits) + [Commit(Firewall), Service("firewall reload")])
            == (u.(firewall := Package(f, f)), true)
  {
    var body := EditCmds(Firewall, Named(KS), edits);
    var tail := [Commit(Firewall), Service("firewall reload")];
    EditsRun(u, Firewall, Named(KS), PosNamed(u.firewall.staged, KS), edits);
    RunAppend(u, body, tail, |body + tail|);
    RunEnough(u, body, |body + tail|);
    var f := PutSection(u.firewall.staged, KS, EditSection(s, edits));
    var done := u.(firewall := Package(f, f));
    RunTrace([u.(firewall := u.firewall.(staged := f)), done, done], tail);
  }

  // ---------- Rules in force ----------

  /** After SetFailClosed(true) the rule stands exactly, and nothing else has moved. */
  lemma FailClosedInstalls(c: Config)
    ensures var d := PutSection(c, KS, KsSection(Based(c, KS, "rule"), FailClosedEdits()));
            RuleInstalled(d) && OnlyNames(c, d, {KS})
  {
    hide FailClosedEdits, ResolverIps, KsSection;
    var s0 := Based(c, KS, "rule");
    var ips := ResolverIps();
    SomeResolvers();
    SectionInstalled(s0, KS_HEAD, ips);
    EditsAre(ips);
    SectionIs(s0, KS_HEAD, FailClosedEdits());
    PutSectionFacts(c, KS, KsSection(s0, FailClosedEdits()));
  }

  lemma SomeResolvers()
    ensures ResolverIps() != []
  {
    assert PROVIDERS[0].ips[0] in ResolverIps();
  }

  lemma EditsAre(ips: seq<string>)
    requires ips == ResolverIps()
    ensures FailClosedEdits() == Pushes("dest_ip", ips) + [Set("target", "REJECT")]
  {
    hide ResolverIps;
  }

  lemma SectionIs(s: Section, head: Table, edits: seq<Edit>)
    requires head == KS_HEAD
    ensures KsSection(s, edits) == EditSection(EditSection(s, TableEdits(head)).Drop("dest_ip"), edits)
  {
    hide EditSection, TableEdits;
  }

  /** A table, then a list refilled from nothing, then the target. */
  lemma SectionInstalled(s0: Section, head: Table, ips: seq<string>)
    requires WellFormed(head) && ips != []
    requires forall i :: 0 <= i < |head| ==> head[i].0 != "dest_ip" && head[i].0 != "target"
    ensures var edits := Pushes("dest_ip", ips) + [Set("target", "REJECT")];
            var s := EditSection(EditSection(s0, TableEdits(head)).Drop("dest_ip"), edits);
            && Carries(s, s0.kind, head) && s.name == s0.name
            && s.Get("dest_ip") == Some(List(ips)) && s.Get("target") == Some(Scalar("REJECT"))
  {
    hide EditSection, TableEdits, Pushes;
    TableWritten(s0, head);
    var s2 := EditSection(s0, TableEdits(head)).Drop("dest_ip");
    PushesWritten(s2, "dest_ip", ips);
    assert Items(s2.Get("dest_ip")) + ips == ips;
    EditAppend(s2, Pushes("dest_ip", ips), [Set("target", "REJECT")]);
    EditOne(EditSection(s2, Pushes("dest_ip", ips)), Set("target", "REJECT"));
  }

  lemma EnableInstalls(c: Config)
    ensures RulesInstalled(FirewallEnabled(c))
    ensures OnlyNames(c, FirewallEnabled(c), RULES)
    ensures Lookup(FirewallEnabled(c), KS) == Lookup(c, KS)
  {
    hide SectionResult, Carries, DropNames;
    assert WellFormed(OUT_RULE) && WellFormed(FWD_RULE) && WellFormed(HIJACK_RULE);
    ThreeSections(c, OUT, "rule", OUT_RULE, FWD, "rule", FWD_RULE, HIJACK, "redirect", HIJACK_RULE, RULES);
    OnlyNamesFrame(c, FirewallEnabled(c), RULES);
  }

  /** dnsmasq asks nobody but its listed servers. */
  predicate OnlyListed(u: State) {
    HasDnsmasq(u) && u.dhcp.staged[DnsmasqAt(u)].Get("noresolv") == Some(Scalar("1"))
  }

  lemma EnableOnlyListed(u: State, spec: string)
    requires HasDnsmasq(u)
    ensures OnlyListed(EnableResult(u, spec))
  {
    hide FirewallEnabled;
    var c := u.dhcp.staged;
    var p := DnsmasqAt(u);
    var s := c[p].Put("noresolv", Scalar("1"));
    DelItemFacts(s, spec);
    DelItemKind(s, spec);
    ResolveUpdate(c, p, ServerOn(c[p], spec), DNSMASQ);
  }

  lemma ThreeSections(c: Config, n1: string, k1: string, t1: Table, n2: string, k2: string, t2: Table,
                      n3: string, k3: string, t3: Table, names: set<string>)
    requires n1 != n2 && n1 != n3 && n2 != n3 && names == {n1, n2, n3}
    requires WellFormed(t1) && WellFormed(t2) && WellFormed(t3)
    ensures var d := SectionResult(SectionResult(SectionResult(c, n1, k1, t1), n2, k2, t2), n3, k3, t3);
            && OnlyNames(c, d, names)
            && Lookup(d, n1).Some? && Carries(Lookup(d, n1).value, k1, t1)
            && Lookup(d, n2).Some? && Carries(Lookup(d, n2).value, k2, t2)
            && Lookup(d, n3).Some? && Carries(Lookup(d, n3).value, k3, t3)
  {
    var c1 := SectionResult(c, n1, k1, t1);
    var c2 := SectionResult(c1, n2, k2, t2);
    var c3 := SectionResult(c2, n3, k3, t3);
    SectionWritten(c, n1, k1, t1);
    SectionWritten(c1, n2, k2, t2);
    SectionWritten(c2, n3, k3, t3);
    OnlyNamesFrame(c1, c2, {n2});
    OnlyNamesFrame(c2, c3, {n3});
    WiderNames(c, c1, {n1}, names);
    WiderNames(c1, c2, {n2}, names);
    WiderNames(c2, c3, {n3}, names);
  }


  // ---------- The dnsmasq section ----------

  /** The section without what this package owns in it. */
  function Unmanaged(s: Section): map<string, Value> {
    s.options - {"noresolv", "server"}
  }

  /** The two differ at most in noresolv and in whether the forwarder is among the servers. */
  ghost predicate SameBut(s: Section, t: Section, spec: string) {
    && t.name == s.name && t.kind == s.kind && Unmanaged(t) == Unmanaged(s)
    && Without(Items(t.Get("server")), spec) == Without(Items(s.Get("server")), spec)
    && (IsScalar(t) ==> t.Get("server") == s.Get("server"))
  }

  predicate IsScalar(s: Section) {
    s.Get("server").Some? && s.Get("server").value.Scalar?
  }

  lemma DelItemFacts(s: Section, spec: string)
    ensures SameBut(s, DelItem(s, "server", spec), spec)
    ensures !IsScalar(s) ==>
              var w := Without(Items(s.Get("server")), spec);
              DelItem(s, "server", spec).Get("server") == (if w == [] then None else Some(List(w)))
    ensures DelItem(s, "server", spec).Get("noresolv") == s.Get("noresolv")
  {
    WithoutTwice(Items(s.Get("server")), spec);
    assert Unmanaged(DelItem(s, "server", spec)) == Unmanaged(s);
  }

  lemma PushFacts(s: Section, spec: string)
    ensures SameBut(s, EditOnce(s, Push("server", spec)), spec)
  {
    WithoutAppend(Items(s.Get("server")), [spec], spec);
    assert Unmanaged(EditOnce(s, Push("server", spec))) == Unmanaged(s);
  }

  lemma NoresolvFacts(s: Section, spec: string)
    ensures SameBut(s, s.Put("noresolv", Scalar("1")), spec) && SameBut(s, s.Drop("noresolv"), spec)
  {
    assert Unmanaged(s.Put("noresolv", Scalar("1"))) == Unmanaged(s) == Unmanaged(s.Drop("noresolv"));
  }

  /** What Enable writes depends only on the other servers, unless `server` was the forwarder as a text. */
  lemma ServerOnForm(s: Section, spec: string)
    requires s.Get("server") != Some(Scalar(spec))
    ensures ServerOn(s, spec) ==
            s.(options := Unmanaged(s)["noresolv" := Scalar("1")]["server" := List(Without(Items(s.Get("server")), spec) + [spec])])
  {
    var s1 := s.Put("noresolv", Scalar("1"));
    DelItemFacts(s1, spec);
    var s2 := DelItem(s1, "server", spec);
    if IsScalar(s) {
      WithoutAbsent(Items(s.Get("server")), spec);
    }
    assert Items(s2.Get("server")) == Without(Items(s.Get("server")), spec);
    assert ServerOn(s, spec).options
        == Unmanaged(s)["noresolv" := Scalar("1")]["server" := List(Without(Items(s.Get("server")), spec) + [spec])];
  }

  lemma ServerOffForm(s: Section, spec: string)
    requires !IsScalar(s)
    ensures var w := Without(Items(s.Get("server")), spec);
            ServerOff(s, spec) == s.(options := if w == [] then Unmanaged(s) else Unmanaged(s)["server" := List(w)])
  {
    var s1 := s.Drop("noresolv");
    DelItemFacts(s1, spec);
    var w := Without(Items(s.Get("server")), spec);
    assert ServerOff(s, spec).options == if w == [] then Unmanaged(s) else Unmanaged(s)["server" := List(w)];
  }

  // ---------- How far a list that stops early can get ----------

  /** The lists of this package, and every command they are made of. */
  predicate DnsCmd(a: Argv, spec: string) {
    || Confined(a, Firewall, OWNED)
    || a == Run(Dhcp, SetOption(DNSMASQ, "noresolv", "1"))
    || a == Quiet(Dhcp, DeleteOption(DNSMASQ, "noresolv"))
    || a == Quiet(Dhcp, DelList(DNSMASQ, "server", spec))
    || a == Run(Dhcp, AddList(DNSMASQ, "server", spec))
    || a == Commit(Dhcp)
  }

  predicate DnsCmds(cmds: seq<Argv>, spec: string) {
    forall i :: 0 <= i < |cmds| ==> DnsCmd(cmds[i], spec)
  }

  /** What any such commands can have changed of the staged store. */
  ghost predicate DnsTouched(u: State, v: State, spec: string) {
    && v.network == u.network && v.wireless == u.wireless
    && OnlyNames(u.firewall.staged, v.firewall.staged, OWNED)
    && DnsmasqAt(v) == DnsmasqAt(u)
    && |v.dhcp.staged| == |u.dhcp.staged|
    && (!HasDnsmasq(u) ==> v.dhcp.staged == u.dhcp.staged)
    && (HasDnsmasq(u) ==>
          && v.dhcp.staged == u.dhcp.staged[DnsmasqAt(u) := v.dhcp.staged[DnsmasqAt(u)]]
          && SameBut(u.dhcp.staged[DnsmasqAt(u)], v.dhcp.staged[DnsmasqAt(u)], spec))
  }

  lemma DnsTouchedOnce(u: State, a: Argv, spec: string)
    requires DnsCmd(a, spec) && spec != ""
    ensures Exec(u, a).Some? ==> DnsTouched(u, Exec(u, a).value, spec)
  {
    if Confined(a, Firewall, OWNED) {
      hide OWNED, DropNames, SameBut;
      if a.Run? || a.Quiet? {
        ApplyOnNames(u.firewall.staged, a.op, OWNED);
      }
      SameSection(u, spec);
    } else if !HasDnsmasq(u) || a.Commit? {
      SameSection(u, spec);
    } else {
      hide SameBut, DelItem, EditOnce;
      DnsmasqEdited(u, a, spec);
    }
  }

  lemma SameSection(u: State, spec: string)
    ensures DnsTouched(u, u, spec)
  {
  }

  /** Each of the four edits of the dnsmasq section is within bounds. */
  lemma DnsmasqEdited(u: State, a: Argv, spec: string)
    requires HasDnsmasq(u) && spec != ""
    requires || a == Run(Dhcp, SetOption(DNSMASQ, "noresolv", "1"))
             || a == Quiet(Dhcp, DeleteOption(DNSMASQ, "noresolv"))
             || a == Quiet(Dhcp, DelList(DNSMASQ, "server", spec))
             || a == Run(Dhcp, AddList(DNSMASQ, "server", spec))
    ensures Exec(u, a).Some? && DnsTouched(u, Exec(u, a).value, spec)
  {
    hide SameBut, DelItem, DropNames;
    var c := u.dhcp.staged;
    var p := DnsmasqAt(u);
    var s := c[p];
    NoresolvFacts(s, spec);
    DelItemFacts(s, spec);
    PushFacts(s, spec);
    var t := if a == Run(Dhcp, SetOption(DNSMASQ, "noresolv", "1")) then s.Put("noresolv", Scalar("1"))
             else if a == Quiet(Dhcp, DeleteOption(DNSMASQ, "noresolv")) then
               (if "noresolv" in s.options then s.Drop("noresolv") else s)
             else if a == Quiet(Dhcp, DelList(DNSMASQ, "server", spec)) then DelItem(s, "server", spec)
             else EditOnce(s, Push("server", spec));
    SameItself(s, spec);
    DelItemKind(s, spec);
    assert c[p := s] == c;
    ResolveUpdate(c, p, t, DNSMASQ);
    assert Exec(u, a) == Some(u.(dhcp := u.dhcp.(staged := c[p := t])));
  }

  lemma SameItself(s: Section, spec: string)
    ensures SameBut(s, s, spec)
  {
  }

  lemma DelItemKind(s: Section, spec: string)
    ensures DelItem(s, "server", spec).kind == s.kind && DelItem(s, "server", spec).name == s.name
  {
  }

  lemma {:induction false} DnsTouchedRun(u: State, cmds: seq<Argv>, cut: nat, spec: string)
    requires DnsCmds(cmds, spec) && spec != ""
    ensures DnsTouched(u, RunAll(u, cmds, cut).0, spec)
    decreases |cmds|
  {
    if cmds != [] && cut > 0 {
      assert DnsCmd(cmds[0], spec);
      DnsTouchedOnce(u, cmds[0], spec);
      match Exec(u, cmds[0]) {
        case None =>
        case Some(v) => DnsTouchedRun(v, cmds[1..], cut - 1, spec);
      }
    }
  }

  lemma ListsAreDnsCmds(spec: string)
    ensures DnsCmds(EnableCmds(spec), spec) && DnsCmds(DisableCmds(spec), spec)
    ensures forall on :: DnsCmds(FailClosedCmds(on), spec)
  {
    assert AllConfined(EnableFirewall(), Firewall, OWNED);
    assert AllConfined(FailClosedOnCmds(), Firewall, OWNED);
    assert forall i :: 0 <= i < |EnableFirewall()| ==> Confined(EnableFirewall()[i], Firewall, OWNED);
    assert forall i :: 0 <= i < |FailClosedOnCmds()| ==> Confined(FailClosedOnCmds()[i], Firewall, OWNED);
  }

  // ---------- Properties ----------

  /**
   Enable leaves every other server in place and in order, puts the forwarder last, and leaves it
   exactly once — unless `server` was not a list but the forwarder itself, which del_list does
   not remove.
   */
  lemma ForwarderOnce(u: State, spec: string)
    requires HasDnsmasq(u)
    ensures var v := EnableResult(u, spec);
            && Servers(v) != [] && Servers(v)[|Servers(v)| - 1] == spec
            && Without(Servers(v), spec) == Without(Servers(u), spec)
            && (multiset(Servers(v))[spec] == 1 <==> ServerOption(u) != Some(Scalar(spec)))
  {
    hide ServerOn, FirewallEnabled, EnableResult;
    var s := u.dhcp.staged[DnsmasqAt(u)];
    EnabledServers(u, spec);
    ServerListOnce(s, spec);
  }

  /** What Enable leaves in the first dnsmasq section is all the report reads. */
  lemma EnabledServers(u: State, spec: string)
    requires HasDnsmasq(u)
    ensures Servers(EnableResult(u, spec)) == Items(ServerOn(u.dhcp.staged[DnsmasqAt(u)], spec).Get("server"))
    ensures Servers(u) == Items(u.dhcp.staged[DnsmasqAt(u)].Get("server"))
  {
    hide FirewallEnabled, DelItem;
    var c := u.dhcp.staged;
    var p := DnsmasqAt(u);
    DelItemKind(c[p].Put("noresolv", Scalar("1")), spec);
    ResolveUpdate(c, p, ServerOn(c[p], spec), DNSMASQ);
  }

  lemma ServerListOnce(s: Section, spec: string)
    ensures var xs := Items(s.Get("server"));
            var ys := Items(ServerOn(s, spec).Get("server"));
            && ys != [] && ys[|ys| - 1] == spec
            && Without(ys, spec) == Without(xs, spec)
            && (multiset(ys)[spec] == 1 <==> s.Get("server") != Some(Scalar(spec)))
  {
    var xs := Items(s.Get("server"));
    if s.Get("server") != Some(Scalar(spec)) {
      hide ServerOn;
      ServerOnForm(s, spec);
      WithoutMembers(xs, spec);
      WithoutAppend(Without(xs, spec), [spec], spec);
      WithoutTwice(xs, spec);
      assert Without([spec], spec) == [];
    } else {
      assert Items(ServerOn(s, spec).Get("server")) == [spec, spec];
      assert Without([spec, spec], spec) == Without([spec], spec);
    }
  }

  lemma OffAfterOn(s: Section, spec: string)
    ensures ServerOff(ServerOn(s, spec), spec) == ServerOff(s, spec) <==> !IsScalar(s)
  {
    var t := ServerOn(s, spec);
    DelItemFacts(s.Put("noresolv", Scalar("1")), spec);
    PushFacts(DelItem(s.Put("noresolv", Scalar("1")), "server", spec), spec);
    ServerOffForm(t, spec);
    if !IsScalar(s) {
      ServerOffForm(s, spec);
      assert ServerOff(t, spec).options == ServerOff(s, spec).options;
    } else {
      assert ServerOff(s, spec).Get("server") == s.Get("server");
    }
  }

  lemma ServerKinds(s: Section, spec: string)
    ensures ServerOn(s, spec).kind == s.kind && ServerOn(s, spec).name == s.name
  {
    DelItemKind(s.Put("noresolv", Scalar("1")), spec);
  }

  /** Disable undoes Enable in every bit of the store, exactly when `server` was not a bare text. */
  lemma DisableAfterEnable(u: State, spec: string)
    requires HasDnsmasq(u)
    ensures DisableResult(EnableResult(u, spec), spec) == DisableResult(u, spec)
            <==> !IsScalar(u.dhcp.staged[DnsmasqAt(u)])
  {
    hide FirewallEnabled, ServerOn, ServerOff, RulesInstalled;
    var c := u.dhcp.staged;
    var p := DnsmasqAt(u);
    var t := ServerOn(c[p], spec);
    ServerKinds(c[p], spec);
    EnableInstalls(u.firewall.staged);
    WiderNames(u.firewall.staged, FirewallEnabled(u.firewall.staged), RULES, OWNED);
    ResolveUpdate(c, p, t, DNSMASQ);
    OffAfterOn(c[p], spec);
    var l := c[p := t][p := ServerOff(t, spec)];
    var r := c[p := ServerOff(c[p], spec)];
    assert DisableResult(EnableResult(u, spec), spec).dhcp.staged == l;
    assert DisableResult(u, spec).dhcp.staged == r;
    assert l == c[p := ServerOff(t, spec)];
    assert l[p] == ServerOff(t, spec) && r[p] == ServerOff(c[p], spec);
  }

  /**
   Any run of this package's commands, stopped anywhere, followed by a full Disable leaves the
   very store that Disable alone leaves, except where `server` was a bare text.
   */
  lemma DisableConverges(u: State, cmds: seq<Argv>, cut: nat, spec: string)
    requires DnsCmds(cmds, spec) && spec != ""
    requires HasDnsmasq(u) ==> !IsScalar(u.dhcp.staged[DnsmasqAt(u)])
    ensures DisableResult(RunAll(u, cmds, cut).0, spec) == DisableResult(u, spec)
  {
    var v := RunAll(u, cmds, cut).0;
    DnsTouchedRun(u, cmds, cut, spec);
    if HasDnsmasq(u) {
      var p := DnsmasqAt(u);
      var s := u.dhcp.staged[p];
      var t := v.dhcp.staged[p];
      ServerOffForm(s, spec);
      ServerOffForm(t, spec);
      assert u.dhcp.staged[p := t][p := ServerOff(t, spec)] == u.dhcp.staged[p := ServerOff(s, spec)];
    }
  }

  /**
   The same for a full Enable: the dhcp package is bit for bit the same, the three rules are in
   force, and every section this package does not own is as it was.
   */
  lemma EnableConverges(u: State, cmds: seq<Argv>, cut: nat, spec: string)
    requires DnsCmds(cmds, spec) && spec != ""
    requires ServerOption(u) != Some(Scalar(spec)) && HasDnsmasq(u)
    ensures var again := EnableResult(RunAll(u, cmds, cut).0, spec);
            var alone := EnableResult(u, spec);
            && again.dhcp == alone.dhcp && again.network == alone.network && again.wireless == alone.wireless
            && RulesInstalled(again.firewall.staged) && RulesInstalled(alone.firewall.staged)
            && OnlyNames(alone.firewall.staged, again.firewall.staged, OWNED)
            && again.firewall.committed == again.firewall.staged
  {
    hide FirewallEnabled, RulesInstalled, DropNames, RunAll;
    var v := RunAll(u, cmds, cut).0;
    DnsTouchedRun(u, cmds, cut, spec);
    var p := DnsmasqAt(u);
    var s := u.dhcp.staged[p];
    var t := v.dhcp.staged[p];
    ServerOnForm(s, spec);
    assert t.Get("server") != Some(Scalar(spec));
    ServerOnForm(t, spec);
    assert u.dhcp.staged[p := t][p := ServerOn(t, spec)] == u.dhcp.staged[p := ServerOn(s, spec)];
    EnableInstalls(u.firewall.staged);
    EnableInstalls(v.firewall.staged);
    WiderNames(u.firewall.staged, FirewallEnabled(u.firewall.staged), RULES, OWNED);
    WiderNames(v.firewall.staged, FirewallEnabled(v.firewall.staged), RULES, OWNED);
  }

  /** And for SetFailClosed: the rule is exactly installed, or gone, whatever came before. */
  lemma FailClosedConverges(u: State, cmds: seq<Argv>, cut: nat, on: bool, spec: string)
    requires DnsCmds(cmds, spec) && spec != ""
    ensures var again := FailClosedResult(RunAll(u, cmds, cut).0, on).firewall;
            && (if on then RuleInstalled(again.staged) else Lookup(again.staged, KS) == None)
            && OnlyNames(u.firewall.staged, again.staged, OWNED)
            && again.committed == again.staged
  {
    var c := RunAll(u, cmds, cut).0.firewall.staged;
    DnsTouchedRun(u, cmds, cut, spec);
    if on {
      FailClosedInstalls(c);
      WiderNames(c, FailClosedResult(RunAll(u, cmds, cut).0, on).firewall.staged, {KS}, OWNED);
    } else {
      DropNamedGone(c, KS);
      DropNamedIn(c, KS, OWNED);
    }
  }

  // ---------- Running the same list again ----------

  /** What a block leaves, and a later block's start, keep an earlier block settled. */
  lemma KeptSettled(c: Config, d: Config, n: string, kind: string, t: Table, m: string)
    requires n != m && WellFormed(t) && OnlyNames(SectionResult(c, n, kind, t), d, {m})
    ensures SectionResult(d, n, kind, t) == d
  {
    hide SectionResult, DropNames, Carries;
    SectionWritten(c, n, kind, t);
    OnlyNamesFrame(SectionResult(c, n, kind, t), d, {m});
    SettledStays(d, n, kind, t);
  }

  lemma BlockConfined(u: State, n: string, kind: string, t: Table, cut: nat)
    ensures var v := RunAll(u, SectionCmds(Firewall, n, kind, t), cut).0;
            OnlyNames(u.firewall.staged, v.firewall.staged, {n})
  {
    assert AllConfined(SectionCmds(Firewall, n, kind, t), Firewall, {n});
    ConfinedRun(u, SectionCmds(Firewall, n, kind, t), Firewall, {n}, cut);
  }

  /** One block stopped anywhere, then the rest of the list or nothing. */
  lemma BlockThen(u: State, n: string, kind: string, t: Table, rest: seq<Argv>, cut: nat)
    ensures var block := SectionCmds(Firewall, n, kind, t);
            var v := u.(firewall := u.firewall.(staged := SectionResult(u.firewall.staged, n, kind, t)));
            RunAll(u, block + rest, cut).0
            == if cut >= |block| then RunAll(v, rest, cut - |block|).0 else RunAll(u, block, cut).0
  {
    hide SectionCmds, SectionResult;
    var block := SectionCmds(Firewall, n, kind, t);
    RunAppend(u, block, rest, cut);
    SectionRun(u, Firewall, n, kind, t);
    if cut >= |block| {
      RunEnough(u, block, cut);
    }
  }

  lemma {:induction false} TailKeepsStaged(u: State, tail: seq<Argv>, cut: nat)
    requires forall i :: 0 <= i < |tail| ==> tail[i].Commit? || tail[i].Service?
    ensures RunAll(u, tail, cut).0.firewall.staged == u.firewall.staged
    decreases |tail|
  {
    if tail != [] && cut > 0 {
      TailKeepsStaged(Exec(u, tail[0]).value, tail[1..], cut - 1);
    }
  }

  /** A block of the three, named so that it can be passed around. */
  datatype Block = Block(name: string, kind: string, table: Table)

  function Put(c: Config, b: Block): Config {
    SectionResult(c, b.name, b.kind, b.table)
  }

  function Lines(b: Block): seq<Argv> {
    SectionCmds(Firewall, b.name, b.kind, b.table)
  }

  /** The last block stopped anywhere, with the two before it done. */
  lemma LastBlockAgain(u: State, x: Block, y: Block, z: Block, c: Config, cut: nat)
    requires x.name != z.name && y.name != z.name && x.name != y.name
    requires WellFormed(x.table) && WellFormed(y.table) && u.firewall.staged == Put(Put(c, x), y)
    ensures Put(Put(Put(RunAll(u, Lines(z), cut).0.firewall.staged, x), y), z) == Put(Put(Put(c, x), y), z)
  {
    hide SectionResult, SectionCmds, DropNames;
    var d := RunAll(u, Lines(z), cut).0.firewall.staged;
    BlockConfined(u, z.name, z.kind, z.table, cut);
    BlockForgotten(u, Firewall, z.name, z.kind, z.table, cut);
    KeptSettled(Put(c, x), d, y.name, y.kind, y.table, z.name);
    SectionWritten(Put(c, x), y.name, y.kind, y.table);
    SettledAfterTwo(c, d, x, y, z);
  }

  lemma SettledAfterTwo(c: Config, d: Config, x: Block, y: Block, z: Block)
    requires x.name != z.name && x.name != y.name && WellFormed(x.table) && WellFormed(y.table)
    requires OnlyNames(Put(Put(c, x), y), d, {z.name})
    ensures Put(d, x) == d
  {
    hide SectionResult, DropNames, Carries;
    SectionWritten(c, x.name, x.kind, x.table);
    SectionWritten(Put(c, x), y.name, y.kind, y.table);
    OnlyNamesFrame(Put(c, x), Put(Put(c, x), y), {y.name});
    OnlyNamesFrame(Put(Put(c, x), y), d, {z.name});
    SettledStays(d, x.name, x.kind, x.table);
  }

  /** Three blocks and a tail, stopped anywhere, then the three blocks: as if only those had run. */
  lemma ThreeAgain(u: State, x: Block, y: Block, z: Block, tail: seq<Argv>, cut: nat)
    requires x.name != z.name && y.name != z.name && x.name != y.name
    requires WellFormed(x.table) && WellFormed(y.table) && WellFormed(z.table)
    requires forall i :: 0 <= i < |tail| ==> tail[i].Commit? || tail[i].Service?
    ensures var c := u.firewall.staged;
            var d := RunAll(u, Lines(x) + (Lines(y) + (Lines(z) + tail)), cut).0.firewall.staged;
            Put(Put(Put(d, x), y), z) == Put(Put(Put(c, x), y), z)
  {
    hide SectionResult, SectionCmds, DropNames, RunAll;
    var c := u.firewall.staged;
    BlockThen(u, x.name, x.kind, x.table, Lines(y) + (Lines(z) + tail), cut);
    if cut < |Lines(x)| {
      BlockForgotten(u, Firewall, x.name, x.kind, x.table, cut);
    } else {
      var u1 := u.(firewall := u.firewall.(staged := Put(c, x)));
      var cut1 := cut - |Lines(x)|;
      BlockThen(u1, y.name, y.kind, y.table, Lines(z) + tail, cut1);
      if cut1 < |Lines(y)| {
        BlockConfined(u1, y.name, y.kind, y.table, cut1);
        BlockForgotten(u1, Firewall, y.name, y.kind, y.table, cut1);
        KeptSettled(c, RunAll(u1, Lines(y), cut1).0.firewall.staged, x.name, x.kind, x.table, y.name);
      } else {
        var u2 := u1.(firewall := u1.firewall.(staged := Put(Put(c, x), y)));
        var cut2 := cut1 - |Lines(y)|;
        BlockThen(u2, z.name, z.kind, z.table, tail, cut2);
        if cut2 < |Lines(z)| {
          LastBlockAgain(u2, x, y, z, c, cut2);
        } else {
          var u3 := u2.(firewall := u2.firewall.(staged := Put(Put(Put(c, x), y), z)));
          TailKeepsStaged(u3, tail, cut2 - |Lines(z)|);
          RunAllAgain(u2, x, y, z, c);
        }
      }
    }
  }

  /** All three done already: doing them again changes nothing. */
  lemma RunAllAgain(u: State, x: Block, y: Block, z: Block, c: Config)
    requires x.name != z.name && y.name != z.name && x.name != y.name
    requires WellFormed(x.table) && WellFormed(y.table) && u.firewall.staged == Put(Put(c, x), y)
    ensures var d := Put(Put(Put(c, x), y), z); Put(Put(Put(d, x), y), z) == d
  {
    hide SectionResult, SectionCmds, DropNames, RunAll;
    var cut := |Lines(z)|;
    SectionRun(u, Firewall, z.name, z.kind, z.table);
    LastBlockAgain(u, x, y, z, c, cut);
  }

  /** The dhcp half of a DNS list. */
  predicate DhcpHalf(cmds: seq<Argv>) {
    forall i :: 0 <= i < |cmds| ==>
      (cmds[i].Run? && cmds[i].pkg == Dhcp) || (cmds[i].Quiet? && cmds[i].pkg == Dhcp) || cmds[i] == Commit(Dhcp)
  }

  lemma {:induction false} DhcpOnly(u: State, cmds: seq<Argv>, cut: nat)
    requires DhcpHalf(cmds)
    ensures var v := RunAll(u, cmds, cut).0; v == u.(dhcp := v.dhcp)
    decreases |cmds|
  {
    if cmds != [] && cut > 0 {
      match Exec(u, cmds[0]) {
        case None =>
        case Some(v) => DhcpOnly(v, cmds[1..], cut - 1);
      }
    }
  }

  /**
   Enable stopped anywhere and then run in full is Enable run once, on the whole store - unless
   `server` was the forwarder as a bare text.
   */
  lemma EnableReruns(u: State, cut: nat, spec: string)
    requires spec != "" && ServerOption(u) != Some(Scalar(spec))
    ensures EnableResult(RunAll(u, EnableCmds(spec), cut).0, spec) == EnableResult(u, spec)
  {
    if HasDnsmasq(u) {
      EnableRerunsHere(u, cut, spec);
    } else {
      hide EnableFirewall, EnableResult;
      assert EnableCmds(spec)[0] == Run(Dhcp, SetOption(DNSMASQ, "noresolv", "1"));
      assert RunAll(u, EnableCmds(spec), cut).0 == u;
    }
  }

  lemma EnableRerunsHere(u: State, cut: nat, spec: string)
    requires spec != "" && HasDnsmasq(u) && ServerOption(u) != Some(Scalar(spec))
    ensures EnableResult(RunAll(u, EnableCmds(spec), cut).0, spec) == EnableResult(u, spec)
  {
    hide SectionResult, SectionCmds, DropNames, RunAll, RulesInstalled, EnableCmds, FirewallEnabled;
    ListsAreDnsCmds(spec);
    EnableConverges(u, EnableCmds(spec), cut, spec);
    DnsTouchedRun(u, EnableCmds(spec), cut, spec);
    EnableFirewallAgain(u, cut, spec);
  }

  lemma EnableFirewallAgain(u: State, cut: nat, spec: string)
    ensures FirewallEnabled(RunAll(u, EnableCmds(spec), cut).0.firewall.staged) == FirewallEnabled(u.firewall.staged)
  {
    hide SectionResult, SectionCmds, DropNames, RunAll;
    var tail := [Commit(Firewall), Service("dnsmasq restart"), Service("firewall reload")];
    var x := Block(OUT, "rule", OUT_RULE);
    var y := Block(FWD, "rule", FWD_RULE);
    var z := Block(HIJACK, "redirect", HIJACK_RULE);
    RunAppend(u, EnableDhcp(spec), EnableFirewall(), cut);
    DhcpOnly(u, EnableDhcp(spec), cut);
    if cut >= |EnableDhcp(spec)| {
      var v := RunAll(u, EnableDhcp(spec), cut).0;
      assert EnableFirewall() == Lines(x) + (Lines(y) + (Lines(z) + tail));
      ThreeAgain(v, x, y, z, tail, cut - |EnableDhcp(spec)|);
    }
  }

  // ---------- Refilling the fail-closed rule ----------

  const KS_EXTRA: set<string> := {"dest_ip", "target"}

  /** Whatever the head, the list and the target may have been, the rule comes out the same. */
  lemma KsForgets(s: Section, t: Section, head: Table, ips: seq<string>)
    requires AgreeOff(s, t, TableOpts(head) + KS_EXTRA) && ips != []
    ensures var edits := Pushes("dest_ip", ips) + [Set("target", "REJECT")];
            EditSection(EditSection(s, TableEdits(head)).Drop("dest_ip"), edits)
            == EditSection(EditSection(t, TableEdits(head)).Drop("dest_ip"), edits)
  {
    hide EditSection, Pushes;
    var sets := TableEdits(head) + [Set("dest_ip", "")];
    HeadCovers(head, sets);
    SetsNarrow(s, t, sets, TableOpts(head) + KS_EXTRA, {"target"});
    DropIsSet(s, head);
    DropIsSet(t, head);
    Refilled(EditSection(s, sets), EditSection(t, sets), ips);
  }

  lemma HeadCovers(head: Table, sets: seq<Edit>)
    requires sets == TableEdits(head) + [Set("dest_ip", "")]
    ensures forall i :: 0 <= i < |sets| ==> sets[i].Set?
    ensures forall o :: o in TableOpts(head) + KS_EXTRA ==> o in {"target"} || exists i :: 0 <= i < |sets| && sets[i].opt == o
  {
    assert sets[|head|].opt == "dest_ip";
    forall o | o in TableOpts(head)
      ensures exists i :: 0 <= i < |sets| && sets[i].opt == o
    {
      var i :| 0 <= i < |head| && head[i].0 == o;
      assert sets[i].opt == o;
    }
  }

  lemma DropIsSet(s: Section, head: Table)
    ensures EditSection(s, TableEdits(head) + [Set("dest_ip", "")]) == EditSection(s, TableEdits(head)).Drop("dest_ip")
  {
    EditAppend(s, TableEdits(head), [Set("dest_ip", "")]);
    EditOne(EditSection(s, TableEdits(head)), Set("dest_ip", ""));
  }

  lemma Refilled(x: Section, y: Section, ips: seq<string>)
    requires AgreeOff(x, y, {"target"}) && x.Get("dest_ip") == None && y.Get("dest_ip") == None && ips != []
    ensures var edits := Pushes("dest_ip", ips) + [Set("target", "REJECT")]; EditSection(x, edits) == EditSection(y, edits)
  {
    hide EditSection, Pushes;
    var fill := Pushes("dest_ip", ips);
    var target := [Set("target", "REJECT")];
    EditAppend(x, fill, target);
    EditAppend(y, fill, target);
    PushesWritten(x, "dest_ip", ips);
    PushesWritten(y, "dest_ip", ips);
    assert [] + ips == ips;
    var v := List(ips);
    assert (x.options - {"target"})["dest_ip" := v] == x.Put("dest_ip", v).options - {"target"};
    assert (y.options - {"target"})["dest_ip" := v] == y.Put("dest_ip", v).options - {"target"};
    assert target[0].opt == "target";
    SetsForget(x.Put("dest_ip", v), y.Put("dest_ip", v), target, {"target"});
  }

  /** Everything SetFailClosed(true) runs before it commits, head and edits named. */
  function KsLines(head: Table, edits: seq<Edit>): seq<Argv> {
    SectionCmds(Firewall, KS, "rule", head)
    + ([Quiet(Firewall, DeleteOption(Named(KS), "dest_ip"))] + EditCmds(Firewall, Named(KS), edits))
  }

  lemma KsLinesTouch(head: Table, edits: seq<Edit>, opts: set<string>)
    requires TableOpts(head) <= opts && "dest_ip" in opts && forall i :: 0 <= i < |edits| ==> edits[i].opt in opts
    ensures forall i :: 0 <= i < |KsLines(head, edits)| ==> Touching(KsLines(head, edits)[i], Firewall, KS, "rule", opts)
  {
    hide SectionCmds;
    assert forall i :: 0 <= i < |head| ==> head[i].0 in TableOpts(head);
    SectionCmdsTouch(Firewall, KS, "rule", head, opts);
    var rest := [Quiet(Firewall, DeleteOption(Named(KS), "dest_ip"))] + EditCmds(Firewall, Named(KS), edits);
    forall i | 0 <= i < |rest|
      ensures Touching(rest[i], Firewall, KS, "rule", opts)
    {
      if i > 0 {
        assert rest[i] == Run(Firewall, EditOp(Named(KS), edits[i - 1]));
      }
    }
  }

  lemma RuleAgain(u: State, head: Table, ips: seq<string>, tail: seq<Argv>, cut: nat)
    requires ips != [] && forall i :: 0 <= i < |tail| ==> tail[i].Commit? || tail[i].Service?
    ensures var edits := Pushes("dest_ip", ips) + [Set("target", "REJECT")];
            var d := RunAll(u, KsLines(head, edits) + tail, cut).0.firewall.staged;
            var c := u.firewall.staged;
            var rule := EditSection(EditSection(Based(c, KS, "rule"), TableEdits(head)).Drop("dest_ip"), edits);
            PutSection(d, KS, EditSection(EditSection(Based(d, KS, "rule"), TableEdits(head)).Drop("dest_ip"), edits))
            == PutSection(c, KS, rule)
  {
    hide KsLines, Pushes, EditSection, RunAll, Touched, Touching;
    var edits := Pushes("dest_ip", ips) + [Set("target", "REJECT")];
    var lines := KsLines(head, edits);
    var opts := TableOpts(head) + KS_EXTRA;
    var c := u.firewall.staged;
    var d := RunAll(u, lines + tail, cut).0.firewall.staged;
    PushedOpts(ips);
    KsLinesTouch(head, edits, opts);
    Untouched(c, KS, "rule", opts);
    TouchedRun(u, u, lines, cut, Firewall, KS, "rule", opts);
    RunAppend(u, lines, tail, cut);
    if cut >= |lines| {
      TailKeepsStaged(RunAll(u, lines, cut).0, tail, cut - |lines|);
    }
    assert Touched(c, d, KS, "rule", opts);
    TouchedIs(c, d, opts);
    KsForgets(Based(c, KS, "rule"), Based(d, KS, "rule"), head, ips);
    if d != c {
      PutSectionTwice(c, KS, Lookup(d, KS).value,
                      EditSection(EditSection(Based(c, KS, "rule"), TableEdits(head)).Drop("dest_ip"), edits));
    }
  }

  lemma PushedOpts(ips: seq<string>)
    ensures var edits := Pushes("dest_ip", ips) + [Set("target", "REJECT")];
            forall i :: 0 <= i < |edits| ==> edits[i].opt in KS_EXTRA
  {
  }

  lemma TouchedIs(c: Config, d: Config, opts: set<string>)
    requires Touched(c, d, KS, "rule", opts)
    ensures AgreeOff(Based(c, KS, "rule"), Based(d, KS, "rule"), opts)
    ensures d != c ==> Lookup(d, KS).Some? && d == PutSection(c, KS, Lookup(d, KS).value) && Lookup(d, KS).value.name == Some(KS)
  {
  }

  /** Cut before its last edit, the list has not yet given a new rule its target. */
  lemma NoTargetYet(u: State, head: Table, ips: seq<string>, rest: seq<Argv>, cut: nat)
    requires Lookup(u.firewall.staged, KS) == None && "target" !in TableOpts(head)
    requires cut <= |KsLines(head, Pushes("dest_ip", ips))|
    ensures !RuleInstalled(RunAll(u, KsLines(head, Pushes("dest_ip", ips)) + rest, cut).0.firewall.staged)
  {
    hide KsLines, RunAll, Touched, Touching, Carries;
    var opts := TableOpts(head) + {"dest_ip"};
    var lines := KsLines(head, Pushes("dest_ip", ips));
    var c := u.firewall.staged;
    var d := RunAll(u, lines + rest, cut).0.firewall.staged;
    KsLinesTouch(head, Pushes("dest_ip", ips), opts);
    Untouched(c, KS, "rule", opts);
    TouchedRun(u, u, lines, cut, Firewall, KS, "rule", opts);
    RunAppend(u, lines, rest, cut);
    if cut == |lines| {
      RunNothing(RunAll(u, lines, cut).0, rest);
    }
    TouchedIs(c, d, opts);
    if Lookup(d, KS).Some? {
      var s := Lookup(d, KS).value;
      assert s.options - opts == map[] by {
        assert Based(c, KS, "rule").options - opts == map[];
      }
      assert "target" in s.options ==> "target" in s.options - opts;
    }
  }

  lemma RunNothing(u: State, cmds: seq<Argv>)
    ensures RunAll(u, cmds, 0).0 == u
  {
  }

  /** Once its edits are through, the list has installed the rule, whatever stood there. */
  lemma EditsInstall(u: State, lines: seq<Argv>, tail: seq<Argv>, cut: nat)
    requires FailClosedOnCmds() == lines + tail && |tail| == 2 && cut >= |lines|
    requires forall i :: 0 <= i < |tail| ==> tail[i].Commit? || tail[i].Service?
    ensures RuleInstalled(RunAll(u, lines + tail, cut).0.firewall.staged)
  {
    hide FailClosedOnCmds, RunAll, RuleInstalled;
    var v := RunAll(u, lines, cut).0;
    RunEnough(u, lines, cut);
    RunAppend(u, lines, tail, cut);
    RunAppend(u, lines, tail, |lines + tail|);
    RunEnough(u, lines, |lines + tail|);
    FailClosedOnRuns(u);
    FailClosedInstalls(u.firewall.staged);
    if RunAll(u, lines, cut).1 {
      TailKeepsStaged(v, tail, cut - |lines|);
      TailKeepsStaged(v, tail, |tail|);
    }
  }

  /**
   SetFailClosed(true) stopped anywhere where there was no rule: it is installed if and only if
   nothing but the commit and the reload is missing.
   */
  lemma FailClosedInterrupted(u: State, cut: nat)
    ensures var d := RunAll(u, FailClosedCmds(true), cut).0.firewall.staged;
            && (cut + 2 >= |FailClosedCmds(true)| ==> RuleInstalled(d))
            && (Lookup(u.firewall.staged, KS) == None ==> (RuleInstalled(d) <==> cut + 2 >= |FailClosedCmds(true)|))
  {
    hide RunAll, SectionCmds, KsLines, RuleInstalled, ResolverIps, FailClosedEdits, EditCmds;
    var tail := [Commit(Firewall), Service("firewall reload")];
    var edits := FailClosedEdits();
    KsLinesAre(KS_HEAD, edits, tail);
    if cut + 2 >= |FailClosedCmds(true)| {
      EditsInstall(u, KsLines(KS_HEAD, edits), tail, cut);
    } else if Lookup(u.firewall.staged, KS) == None {
      EditsAre(ResolverIps());
      LastLine(KS_HEAD, ResolverIps(), edits);
      var short := KsLines(KS_HEAD, Pushes("dest_ip", ResolverIps()));
      var target := [Run(Firewall, SetOption(Named(KS), "target", "REJECT"))];
      assert KsLines(KS_HEAD, edits) + tail == short + (target + tail);
      NoTargetYet(u, KS_HEAD, ResolverIps(), target + tail, cut);
    }
  }

  lemma LastLine(head: Table, ips: seq<string>, edits: seq<Edit>)
    requires edits == Pushes("dest_ip", ips) + [Set("target", "REJECT")]
    ensures KsLines(head, edits)
            == KsLines(head, Pushes("dest_ip", ips)) + [Run(Firewall, SetOption(Named(KS), "target", "REJECT"))]
  {
    hide SectionCmds, Pushes;
    var p := Pushes("dest_ip", ips);
    EditCmdsAppend(Firewall, Named(KS), p, [Set("target", "REJECT")]);
    assert EditCmds(Firewall, Named(KS), [Set("target", "REJECT")]) == [Run(Firewall, SetOption(Named(KS), "target", "REJECT"))];
  }

  /** SetFailClosed stopped anywhere and then run in full is SetFailClosed run once, on the whole store. */
  lemma FailClosedReruns(u: State, on: bool, cut: nat)
    ensures FailClosedResult(RunAll(u, FailClosedCmds(on), cut).0, on) == FailClosedResult(u, on)
  {
    if on {
      FailClosedOnReruns(u, KS_HEAD, ResolverIps(), cut);
    } else {
      FailClosedOffReruns(u, cut);
    }
  }

  lemma FailClosedOnReruns(u: State, head: Table, ips: seq<string>, cut: nat)
    requires head == KS_HEAD && ips == ResolverIps()
    ensures FailClosedResult(RunAll(u, FailClosedCmds(true), cut).0, true) == FailClosedResult(u, true)
  {
    hide RunAll, ResolverIps, SectionCmds, EditSection, KsLines, TableEdits, Pushes, PutSection, KS_HEAD;
    var tail := [Commit(Firewall), Service("firewall reload")];
    SomeResolvers();
    EditsAre(ips);
    var edits := FailClosedEdits();
    KsLinesAre(head, edits, tail);
    RuleAgain(u, head, ips, tail, cut);
    var v := RunAll(u, FailClosedCmds(true), cut).0;
    FailClosedConfinedTo(u, cut);
    SectionIs(Based(u.firewall.staged, KS, "rule"), head, edits);
    SectionIs(Based(v.firewall.staged, KS, "rule"), head, edits);
  }

  lemma KsLinesAre(head: Table, edits: seq<Edit>, tail: seq<Argv>)
    requires head == KS_HEAD && edits == FailClosedEdits() && tail == [Commit(Firewall), Service("firewall reload")]
    ensures FailClosedCmds(true) == KsLines(head, edits) + tail
  {
    hide SectionCmds, FailClosedEdits;
  }

  /** Only the firewall package is ever concerned. */
  lemma FailClosedConfinedTo(u: State, cut: nat)
    ensures var v := RunAll(u, FailClosedCmds(true), cut).0; v == u.(firewall := v.firewall)
  {
    hide RunAll;
    assert AllConfined(FailClosedCmds(true), Firewall, {KS});
    ConfinedRun(u, FailClosedCmds(true), Firewall, {KS}, cut);
  }

  lemma FailClosedOffReruns(u: State, cut: nat)
    ensures FailClosedResult(RunAll(u, FailClosedCmds(false), cut).0, false) == FailClosedResult(u, false)
  {
    var c := u.firewall.staged;
    var drop := [Quiet(Firewall, DeleteSection(Named(KS)))];
    var tail := [Commit(Firewall), Service("firewall reload")];
    DropQuietly(c, KS);
    DropNamedGone(c, KS);
    DropNamedAbsent(DropNamed(c, KS), KS);
    if cut > 0 {
      var v := Exec(u, drop[0]).value;
      assert FailClosedCmds(false)[1..] == tail;
      assert RunAll(u, FailClosedCmds(false), cut) == RunAll(v, tail, cut - 1);
      hide RunAll, FailClosedCmds, DropNamed;
      TailKeepsStaged(v, tail, cut - 1);
      TailKeepsRest(v, tail, cut - 1);
    }
  }

  lemma {:induction false} TailKeepsRest(u: State, tail: seq<Argv>, cut: nat)
    requires forall i :: 0 <= i < |tail| ==> tail[i] == Commit(Firewall) || tail[i].Service?
    ensures var v := RunAll(u, tail, cut).0; v == u.(firewall := v.firewall)
    decreases |tail|
  {
    if tail != [] && cut > 0 {
      TailKeepsRest(Exec(u, tail[0]).value, tail[1..], cut - 1);
    }
  }

  // ---------- The report ----------

  /**
   The report is list membership exactly when the forwarder itself is listed or no entry contains
   its address at all.
   */
  lemma EnabledIsMembership(u: State, spec: string)
    ensures (Enabled(u, spec) <==> spec in Servers(u))
            <==> spec in Servers(u) || forall t :: t in Servers(u) ==> !Mentions(t, spec)
    ensures PlainServers(u, spec) ==> (Enabled(u, spec) <==> spec in Servers(u))
  {
    assert OccursAt(spec, spec, 0);
  }

  /** Partial runs keep the server list plain. */
  lemma PlainKept(u: State, v: State, spec: string)
    requires DnsTouched(u, v, spec) && PlainServers(u, spec)
    ensures PlainServers(v, spec)
  {
    if HasDnsmasq(u) {
      WithoutMembers(Servers(u), spec);
      WithoutMembers(Servers(v), spec);
      forall t | t in Servers(v) && Mentions(t, spec)
        ensures t == spec
      {
        assert t != spec ==> t in Without(Servers(u), spec);
      }
    }
  }

  /** What Disable leaves of the servers: the others, or everything where `server` is a bare text. */
  lemma ServersAfterDisable(u: State, spec: string)
    ensures Servers(DisableResult(u, spec))
            == if ServerOption(u).Some? && ServerOption(u).value.Scalar? then Servers(u) else Without(Servers(u), spec)
  {
    hide FirewallDisabled;
    if HasDnsmasq(u) {
      var c := u.dhcp.staged;
      var p := DnsmasqAt(u);
      var s := c[p];
      DelItemKind(s.Drop("noresolv"), spec);
      DelItemFacts(s.Drop("noresolv"), spec);
      ResolveUpdate(c, p, ServerOff(s, spec), DNSMASQ);
    }
  }

  /** After Disable the report is off exactly when the servers were plain. */
  lemma DisabledReadsOff(u: State, spec: string)
    requires spec != ""
    ensures !Enabled(DisableResult(u, spec), spec) <==> PlainServers(u, spec)
  {
    hide DisableResult, Mentions;
    ServersAfterDisable(u, spec);
    WithoutMembers(Servers(u), spec);
    MentionsItself(spec);
    match ServerOption(u) {
      case Some(Scalar(t)) => assert Servers(u) == [t] && Servers(u)[0] == t;
      case _ =>
    }
  }

  /** An entry mentions the address exactly if it is the address with anything before and after it. */
  lemma MentionsExactly(text: string, spec: string)
    ensures Mentions(text, spec) <==> exists before: string, after: string :: text == before + spec + after
  {
    if Mentions(text, spec) {
      var i: nat :| i <= |text| && OccursAt(text, spec, i);
      assert text == text[..i] + spec + text[i + |spec|..];
    }
    if before: string, after: string :| text == before + spec + after {
      assert OccursAt(text, spec, |before|);
    }
  }

  lemma MentionsItself(spec: string)
    ensures Mentions(spec, spec)
  {
    assert OccursAt(spec, spec, 0);
  }

  /** Any entry that merely contains the address keeps the report on after Disable. */
  lemma LookAlikeReadsOn(u: State, spec: string, entry: string)
    requires entry in Servers(u) && entry != spec && Mentions(entry, spec)
    ensures Enabled(DisableResult(u, spec), spec)
  {
    hide DisableResult;
    ServersAfterDisable(u, spec);
    WithoutMembers(Servers(u), spec);
  }

  // ---------- The service ----------

  class DnsControl {
    const router: Router
    const spec: Address

    constructor (r: Router, address: Address)
      ensures router == r && spec == address
    {
      router := r;
      spec := address;
    }

    method Enable(cut: nat) returns (ok: bool)
      modifies router
      ensures (router.uci, ok) == RunAll(old(router.uci), EnableCmds(spec), cut)
      ensures ok ==> router.uci == EnableResult(old(router.uci), spec)
    {
      var cmds := EnableCmds(spec);
      ok := router.RunCommands(cmds, cut);
      if ok {
        OkMeansFull(old(router.uci), cmds, cut);
        EnableRuns(old(router.uci), spec);
      }
    }

    method Disable(cut: nat) returns (ok: bool)
      modifies router
      ensures (router.uci, ok) == RunAll(old(router.uci), DisableCmds(spec), cut)
      ensures ok ==> router.uci == DisableResult(old(router.uci), spec)
    {
      var cmds := DisableCmds(spec);
      ok := router.RunCommands(cmds, cut);
      if ok {
        OkMeansFull(old(router.uci), cmds, cut);
        DisableRuns(old(router.uci), spec);
      }
    }

    method IsEnabled() returns (on: bool)
      ensures on <==> Enabled(router.uci, spec)
    {
      var c := router.uci.dhcp.staged;
      var servers := Servers(router.uci);
      on := false;
      for i := 0 to |servers|
        invariant on <==> exists t :: t in servers[..i] && Mentions(t, spec)
      {
        assert servers[..i + 1] == servers[..i] + [servers[i]];
        if Mentions(servers[i], spec) {
          on := true;
        }
      }
      assert servers[..|servers|] == servers;
    }

    /** The list is built with one add_list per resolver address, in a loop. */
    method SetFailClosed(on: bool, cut: nat) returns (ok: bool)
      modifies router
      ensures (router.uci, ok) == RunAll(old(router.uci), FailClosedCmds(on), cut)
      ensures ok ==> router.uci == FailClosedResult(old(router.uci), on)
      ensures ok ==> (if on then RuleInstalled(router.uci.firewall.staged)
                      else Lookup(router.uci.firewall.staged, KS) == None)
    {
      var cmds := FailClosedOffCmds();
      if on {
        var head := SectionCmds(Firewall, KS, "rule", KS_HEAD);
        head := head + [Quiet(Firewall, DeleteOption(Named(KS), "dest_ip"))];
        var ips := AllResolverIPs();
        var lines: seq<Argv> := [];
        for i := 0 to |ips|
          invariant lines == EditCmds(Firewall, Named(KS), Pushes("dest_ip", ips[..i]))
        {
          lines := lines + [Run(Firewall, AddList(Named(KS), "dest_ip", ips[i]))];
        }
        assert ips[..|ips|] == ips;
        lines := lines + [Run(Firewall, SetOption(Named(KS), "target", "REJECT"))];
        assert lines == EditCmds(Firewall, Named(KS), FailClosedEdits());
        cmds := head + lines + [Commit(Firewall), Service("firewall reload")];
        assert cmds == FailClosedOnCmds();
      }
      ok := router.RunCommands(cmds, cut);
      if ok {
        OkMeansFull(old(router.uci), cmds, cut);
        FailClosedRuns(old(router.uci), on);
        FailClosedInstalls(old(router.uci).firewall.staged);
        DropNamedGone(old(router.uci).firewall.staged, KS);
      }
    }
  }
}
