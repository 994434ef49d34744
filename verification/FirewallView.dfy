/**
 What fw4 makes of the sections the daemon writes, read option by option: which packets a `rule` section
 rejects, which ones a `redirect` section turns to the router itself, and what a `zone` section does.
 Only sections whose options are all known here are read at all.
 */
module FirewallView {
  import opened Common
  import opened GoStrings
  import opened Uci

  /** A packet on its way to a zone; `from` is the zone it came in by, or none if the router sends it. */
  datatype Packet = Packet(from: Option<string>, to: string, proto: string, dst: string, port: nat)

  const KNOWN: set<string> :=
    {"name", "enabled", "src", "dest", "proto", "dest_ip", "dest_port", "src_dport", "target"}

  predicate Known(s: Section) {
    s.options.Keys <= KNOWN && s.Get("enabled") != Some(Scalar("0"))
  }

  /** An option that is absent asks for nothing; otherwise the text must be among its values. */
  predicate Admits(s: Section, opt: string, text: string) {
    match s.Get(opt)
    case None => true
    case Some(v) => text in Items(Some(v))
  }

  /** `proto` lists protocols between spaces; without it a rule is about tcp and udp. */
  predicate AdmitsProto(s: Section, proto: string) {
    match s.Get("proto")
    case None => proto == "tcp" || proto == "udp"
    case Some(v) => exists t :: t in Items(Some(v)) && proto in Split(t, ' ')
  }

  predicate From(s: Section, from: Option<string>) {
    match from
    case None => s.Get("src") == None
    case Some(zone) => s.Get("src") == Some(Scalar(zone))
  }

  /** A rule without source zone is about the router's own packets. */
  predicate Rejects(s: Section, p: Packet) {
    && s.kind == "rule" && Known(s) && s.Get("target") == Some(Scalar("REJECT"))
    && From(s, p.from) && s.Get("dest") == Some(Scalar(p.to))
    && AdmitsProto(s, p.proto) && Admits(s, "dest_ip", p.dst) && Admits(s, "dest_port", Decimal(p.port))
  }

  /** A redirect without destination address hands the packet to the router, wherever it was bound. */
  predicate Captures(s: Section, p: Packet) {
    && s.kind == "redirect" && Known(s) && s.Get("target") == Some(Scalar("DNAT"))
    && p.from.Some? && From(s, p.from) && s.Get("dest_ip") == None
    && AdmitsProto(s, p.proto) && Admits(s, "src_dport", Decimal(p.port))
  }

  predicate RuleRejects(c: Config, n: string, p: Packet) {
    Lookup(c, n).Some? && Rejects(Lookup(c, n).value, p)
  }

  predicate RedirectCaptures(c: Config, n: string, p: Packet) {
    Lookup(c, n).Some? && Captures(Lookup(c, n).value, p)
  }

  /** What is in the section, if it is there, is among these options. */
  predicate Pure(c: Config, n: string, opts: set<string>) {
    Lookup(c, n).Some? ==> Lookup(c, n).value.options.Keys <= opts
  }

  // ---------- Reading single options ----------

  lemma PortIs(s: Section, opt: string, port: nat, n: nat)
    requires s.Get(opt) == Some(Scalar(Decimal(n)))
    ensures Admits(s, opt, Decimal(port)) <==> port == n
  {
    DecimalInjective(port, n);
  }

  lemma PortTexts()
    ensures Decimal(53) == "53" && Decimal(443) == "443"
  {
    assert Decimal(5) == "5" && Decimal(4) == "4" && Decimal(44) == Decimal(4) + "4";
  }

  lemma ProtoWords()
    ensures Split("tcp", ' ') == ["tcp"] && Split("tcp udp", ' ') == ["tcp", "udp"]
  {
    hide Split;
    SplitNone("tcp", ' ');
    SplitNone("udp", ' ');
    SplitFirst("tcp", "udp", ' ');
    assert "tcp" + [' '] + "udp" == "tcp udp";
  }

  lemma ProtoIs(s: Section, proto: string)
    ensures s.Get("proto") == Some(Scalar("tcp")) ==> (AdmitsProto(s, proto) <==> proto == "tcp")
    ensures s.Get("proto") == Some(Scalar("tcp udp")) ==> (AdmitsProto(s, proto) <==> proto == "tcp" || proto == "udp")
  {
    hide Split;
    ProtoWords();
    if s.Get("proto").Some? && s.Get("proto").value.Scalar? {
      var t := s.Get("proto").value.text;
      assert Items(s.Get("proto")) == [t];
      assert t in Items(s.Get("proto"));
    }
  }

  // ---------- Sections stay pure ----------

  /** An edit of the firewall that gives the section no other options than these. */
  predicate TidyOp(op: Op, n: string, opts: set<string>) {
    match op
    case SetSection(_, _) => true
    case SetOption(ref, opt, _) => ref.Named? && (ref.name == n ==> opt in opts)
    case AddList(ref, opt, _) => ref.Named? && (ref.name == n ==> opt in opts)
    case DeleteSection(ref) => ref.Named?
    case DeleteOption(ref, _) => ref.Named?
    case _ => false
  }

  predicate Tidy(a: Argv, n: string, opts: set<string>) {
    match a
    case Run(p, op) => p == Firewall ==> TidyOp(op, n, opts)
    case Quiet(p, op) => p == Firewall ==> TidyOp(op, n, opts)
    case Drain(p, _) => p != Firewall
    case Commit(_) => true
    case Service(_) => true
    case _ => false
  }

  lemma NamedUpdate(c: Config, m: string, s: Section, n: string)
    requires PosNamed(c, m) < |c| && s.name == Some(m)
    ensures Lookup(c[PosNamed(c, m) := s], n) == if n == m then Some(s) else Lookup(c, n)
  {
    var p := PosNamed(c, m);
    PosNamedIs(c[p := s], n, PosNamed(c, n));
  }

  lemma NamedAdded(c: Config, s: Section, n: string)
    requires s.name.Some? && PosNamed(c, s.name.value) == |c|
    ensures Lookup(c + [s], n) == if Some(n) == s.name then Some(s) else Lookup(c, n)
  {
    var p := PosNamed(c, n);
    PosNamedIs(c + [s], n, if p < |c| then p else if Some(n) == s.name then |c| else |c| + 1);
  }

  lemma NamedDropped(c: Config, m: string, n: string)
    ensures Lookup(DropNamed(c, m), n) == if n == m then None else Lookup(c, n)
  {
    DropNamedGone(c, m);
    DropNamedIn(c, m, {m});
    OnlyNamesFrame(c, DropNamed(c, m), {m});
  }

  lemma PureOp(c: Config, op: Op, n: string, opts: set<string>)
    requires Pure(c, n, opts) && TidyOp(op, n, opts)
    ensures Apply(c, op).Some? ==> Pure(Apply(c, op).value, n, opts)
  {
    hide DropNamed;
    match op {
      case SetSection(m, kind) =>
        var p := PosNamed(c, m);
        if p < |c| {
          NamedUpdate(c, m, c[p].(kind := kind), n);
        } else {
          NamedAdded(c, Section(Some(m), kind, map[]), n);
        }
      case SetOption(ref, opt, text) =>
        var p := PosNamed(c, ref.name);
        if p < |c| {
          NamedUpdate(c, ref.name, c[p].Drop(opt), n);
          NamedUpdate(c, ref.name, c[p].Put(opt, Scalar(text)), n);
        }
      case AddList(ref, opt, text) =>
        var p := PosNamed(c, ref.name);
        if p < |c| {
          NamedUpdate(c, ref.name, c[p].Put(opt, List(Items(c[p].Get(opt)) + [text])), n);
        }
      case DeleteSection(ref) =>
        NamedDropped(c, ref.name, n);
      case DeleteOption(ref, opt) =>
        var p := PosNamed(c, ref.name);
        if p < |c| {
          NamedUpdate(c, ref.name, c[p].Drop(opt), n);
        }
    }
  }

  /** However far a tidy list gets, the section has no other options than these. */
  lemma {:induction false} PureRun(u: State, cmds: seq<Argv>, cut: nat, n: string, opts: set<string>)
    requires Pure(u.firewall.staged, n, opts) && forall i :: 0 <= i < |cmds| ==> Tidy(cmds[i], n, opts)
    ensures Pure(RunAll(u, cmds, cut).0.firewall.staged, n, opts)
    decreases |cmds|
  {
    hide Pure, TidyOp, Apply;
    if cmds != [] && cut > 0 {
      assert Tidy(cmds[0], n, opts);
      if (cmds[0].Run? || cmds[0].Quiet?) && cmds[0].pkg == Firewall {
        PureOp(u.firewall.staged, cmds[0].op, n, opts);
      }
      match Exec(u, cmds[0]) {
        case None =>
        case Some(v) => PureRun(v, cmds[1..], cut - 1, n, opts);
      }
    }
  }
}
