/**
 OpenWRT's UCI store as the daemon drives it: named sections, anonymous sections addressed by
 kind and index (`@zone[0]`, `@forwarding[-1]`), list options, and edits that stay staged until
 they are committed. Every command the daemon issues is a value of `Argv`; `Exec` says what one
 command does and `RunAll` what the stop-at-first-error loop does with a list of them.
 */
module Uci {
  import opened Common

  // ---------- Data ----------

  datatype Value = Scalar(text: string) | List(items: seq<string>)

  /** The values of an option that may be absent, as one list. */
  function Items(v: Option<Value>): seq<string> {
    match v
    case None => []
    case Some(Scalar(t)) => [t]
    case Some(List(xs)) => xs
  }

  datatype Section = Section(name: Option<string>, kind: string, options: map<string, Value>) {
    function Get(opt: string): Option<Value> {
      if opt in options then Some(options[opt]) else None
    }

    /** `uci show` prints exactly this one text for the option. */
    predicate Shows(opt: string, text: string) {
      Get(opt) == Some(Scalar(text)) || Get(opt) == Some(List([text]))
    }

    function Put(opt: string, v: Value): Section {
      this.(options := options[opt := v])
    }

    function Drop(opt: string): Section {
      this.(options := options - {opt})
    }
  }

  /** One UCI package: its sections in file order. */
  type Config = seq<Section>

  datatype Package = Package(staged: Config, committed: Config)

  datatype PackageName = Network | Firewall | Dhcp | Wireless

  datatype State = State(network: Package, firewall: Package, dhcp: Package, wireless: Package) {
    function Pkg(p: PackageName): Package {
      match p
      case Network => network
      case Firewall => firewall
      case Dhcp => dhcp
      case Wireless => wireless
    }

    function With(p: PackageName, k: Package): State {
      match p
      case Network => this.(network := k)
      case Firewall => this.(firewall := k)
      case Dhcp => this.(dhcp := k)
      case Wireless => this.(wireless := k)
    }

    function Staged(p: PackageName): Config {
      Pkg(p).staged
    }
  }

  /** A section reference: `wg0`, `@zone[2]` or `@zone[-1]`. */
  datatype Ref = Named(name: string) | Indexed(kind: string, index: int)

  datatype Op =
    | SetSection(name: string, kind: string)
    | SetOption(ref: Ref, opt: string, text: string)
    | AddList(ref: Ref, opt: string, text: string)
    | DelList(ref: Ref, opt: string, text: string)
    | AddSection(kind: string)
    | DeleteSection(ref: Ref)
    | DeleteOption(ref: Ref, opt: string)

  /** One command line handed to the runner. */
  datatype Argv =
    | Run(pkg: PackageName, op: Op)           // uci <op>
    | Quiet(pkg: PackageName, op: Op)         // sh -c "uci -q <op> || true"
    | Drain(pkg: PackageName, kind: string)   // while uci -q delete pkg.@kind[0]; do :; done
    | Commit(pkg: PackageName)                // uci commit pkg
    | EnsureVpnZone(iface: string)            // the guarded zone script of Import
    | JoinWanZone(net: string)                // the wan-zone script of JoinUplink
    | Service(what: string)                   // an init script or `wifi reload`: no UCI effect

  // ---------- Finding sections ----------

  /** Position of the section called n, or |c|. UCI keeps section names unique in a package. */
  function PosNamed(c: Config, n: string): (p: nat)
    ensures p <= |c|
    ensures p < |c| ==> c[p].name == Some(n)
    ensures forall j :: 0 <= j < p ==> c[j].name != Some(n)
  {
    if c == [] then 0 else if c[0].name == Some(n) then 0 else 1 + PosNamed(c[1..], n)
  }

  function CountKind(c: Config, kind: string): nat {
    if c == [] then 0 else (if c[0].kind == kind then 1 else 0) + CountKind(c[1..], kind)
  }

  /** Position of the k-th section of a kind, named or not, or |c|. */
  function NthPos(c: Config, kind: string, k: nat): (p: nat)
    ensures p <= |c|
    ensures p < |c| ==> c[p].kind == kind
  {
    if c == [] then 0
    else if c[0].kind == kind && k == 0 then 0
    else 1 + NthPos(c[1..], kind, if c[0].kind == kind then k - 1 else k)
  }

  function Resolve(c: Config, ref: Ref): (p: nat)
    ensures p <= |c|
  {
    match ref
    case Named(n) => PosNamed(c, n)
    case Indexed(kind, i) =>
      if i >= 0 then NthPos(c, kind, i)
      else if CountKind(c, kind) + i >= 0 then NthPos(c, kind, CountKind(c, kind) + i)
      else |c|
  }

  function Lookup(c: Config, n: string): Option<Section> {
    var p := PosNamed(c, n);
    if p < |c| then Some(c[p]) else None
  }

  function Anonymous(c: Config): Config {
    if c == [] then []
    else (if c[0].name.None? then [c[0]] else []) + Anonymous(c[1..])
  }

  function OfKind(c: Config, kind: string): Config {
    if c == [] then []
    else (if c[0].kind == kind then [c[0]] else []) + OfKind(c[1..], kind)
  }

  function DropNamed(c: Config, n: string): Config {
    if c == [] then []
    else (if c[0].name == Some(n) then [] else [c[0]]) + DropNamed(c[1..], n)
  }

  function DropKind(c: Config, kind: string): Config {
    if c == [] then []
    else (if c[0].kind == kind then [] else [c[0]]) + DropKind(c[1..], kind)
  }

  // ---------- What one command does ----------

  function DelItem(s: Section, opt: string, text: string): Section {
    match s.Get(opt)
    case Some(List(xs)) =>
      var ys := Without(xs, text);
      if ys == [] then s.Drop(opt) else s.Put(opt, List(ys))
    case _ => s
  }

  /** `uci set x.y=` with an empty text deletes the option, and is no error when it is absent. */
  function Apply(c: Config, op: Op): Option<Config> {
    match op
    case SetSection(n, kind) =>
      var p := PosNamed(c, n);
      if p < |c| then Some(c[p := c[p].(kind := kind)])
      else Some(c + [Section(Some(n), kind, map[])])
    case SetOption(ref, opt, text) =>
      var p := Resolve(c, ref);
      if text == "" then Some(if p < |c| then c[p := c[p].Drop(opt)] else c)
      else if p < |c| then Some(c[p := c[p].Put(opt, Scalar(text))])
      else None
    case AddList(ref, opt, text) =>
      var p := Resolve(c, ref);
      if p < |c| then Some(c[p := c[p].Put(opt, List(Items(c[p].Get(opt)) + [text]))]) else None
    case DelList(ref, opt, text) =>
      var p := Resolve(c, ref);
      if p < |c| then Some(c[p := DelItem(c[p], opt, text)]) else None
    case AddSection(kind) =>
      Some(c + [Section(None, kind, map[])])
    case DeleteSection(ref) =>
      var p := Resolve(c, ref);
      if p == |c| then None
      else if ref.Named? then Some(DropNamed(c, ref.name))
      else Some(c[..p] + c[p + 1..])
    case DeleteOption(ref, opt) =>
      var p := Resolve(c, ref);
      if p < |c| && opt in c[p].options then Some(c[p := c[p].Drop(opt)]) else None
  }

  function ApplyOrSkip(c: Config, op: Op): Config {
    match Apply(c, op)
    case Some(d) => d
    case None => c
  }

  /** A brace group of a shell script: the commands run in turn, a failing one is passed over. */
  function ApplyScript(c: Config, ops: seq<Op>): Config
    decreases |ops|
  {
    if ops == [] then c else ApplyScript(ApplyOrSkip(c, ops[0]), ops[1..])
  }

  /** What `grep "\.name='n'"` finds in the package: a section whose name option starts with n. */
  predicate NameShown(c: Config, n: string) {
    exists i :: 0 <= i < |c| && NameStarts(c[i], n)
  }

  predicate NameStarts(s: Section, n: string) {
    match s.Get("name")
    case None => false
    case Some(v) => Items(Some(v)) != [] && Items(Some(v))[0] == n
  }

  function VpnZoneBody(iface: string): seq<Op> {
    var zone := Indexed("zone", -1);
    var fwd := Indexed("forwarding", -1);
    [ AddSection("zone"),
      SetOption(zone, "name", "vpn"),
      AddList(zone, "network", iface),
      SetOption(zone, "input", "REJECT"),
      SetOption(zone, "output", "ACCEPT"),
      SetOption(zone, "forward", "REJECT"),
      SetOption(zone, "masq", "1"),
      SetOption(zone, "mtu_fix", "1"),
      AddSection("forwarding"),
      SetOption(fwd, "src", "lan"),
      SetOption(fwd, "dest", "vpn") ]
  }

  predicate IsWordChar(c: char) {
    'a' <= c <= 'z' || 'A' <= c <= 'Z' || '0' <= c <= '9' || c == '_'
  }

  /** `grep -w`: word occurs in text with no word character on either side. */
  predicate WordAt(text: string, word: string, i: nat) {
    && i + |word| <= |text|
    && text[i..i + |word|] == word
    && (i == 0 || !IsWordChar(text[i - 1]))
    && (i + |word| == |text| || !IsWordChar(text[i + |word|]))
  }

  predicate HasWord(text: string, word: string) {
    exists i: nat | i <= |text| :: WordAt(text, word, i)
  }

  /** The first anonymous zone named n, or |c|. */
  function ZonePos(c: Config, n: string): (p: nat)
    ensures p <= |c|
    ensures p < |c| ==> c[p].name.None? && c[p].kind == "zone" && c[p].Shows("name", n)
    ensures forall j :: 0 <= j < p ==> !(c[j].name.None? && c[j].kind == "zone" && c[j].Shows("name", n))
  {
    if c == [] then 0
    else if c[0].name.None? && c[0].kind == "zone" && c[0].Shows("name", n) then 0
    else 1 + ZonePos(c[1..], n)
  }

  predicate ListsWord(s: Section, opt: string, word: string) {
    exists t :: t in Items(s.Get(opt)) && HasWord(t, word)
  }

  /** Adds net to the zone's networks unless some entry already holds it as a word. */
  function JoinZone(c: Config, p: nat, net: string): Config
    requires p < |c|
  {
    if ListsWord(c[p], "network", net) then c
    else c[p := c[p].Put("network", List(Items(c[p].Get("network")) + [net]))]
  }

  function Exec(u: State, a: Argv): Option<State> {
    match a
    case Run(p, op) =>
      (match Apply(u.Staged(p), op)
       case None => None
       case Some(c) => Some(u.With(p, u.Pkg(p).(staged := c))))
    case Quiet(p, op) =>
      Some(u.With(p, u.Pkg(p).(staged := ApplyOrSkip(u.Staged(p), op))))
    case Drain(p, kind) =>
      Some(u.With(p, u.Pkg(p).(staged := DropKind(u.Staged(p), kind))))
    case Commit(p) =>
      Some(u.With(p, u.Pkg(p).(committed := u.Staged(p))))
    case EnsureVpnZone(iface) =>
      if NameShown(u.firewall.staged, "vpn") then Some(u)
      else
        var c := ApplyScript(u.firewall.staged, VpnZoneBody(iface));
        Some(u.(firewall := Package(c, c)))
    case JoinWanZone(net) =>
      var p := ZonePos(u.firewall.staged, "wan");
      if p == |u.firewall.staged| then None
      else
        var c := JoinZone(u.firewall.staged, p, net);
        Some(u.(firewall := Package(c, c)))
    case Service(_) => Some(u)
  }

  /**
   The runner loop: stops at the first error. The environment (a time-out, a dying daemon) fails
   command number cut without effect; cut >= |cmds| means it never interferes.
   */
  function RunAll(u: State, cmds: seq<Argv>, cut: nat): (State, bool)
    decreases |cmds|
  {
    if cmds == [] then (u, true)
    else if cut == 0 then (u, false)
    else
      match Exec(u, cmds[0])
      case None => (u, false)
      case Some(v) => RunAll(v, cmds[1..], cut - 1)
  }

  /** The state the whole list leaves when nothing interferes and nothing fails. */
  function RunFull(u: State, cmds: seq<Argv>): (State, bool) {
    RunAll(u, cmds, |cmds|)
  }

  // ---------- The device ----------

  /** The router's UCI store, changed in place. */
  class Router {
    var uci: State

    constructor (u: State)
      ensures uci == u
    {
      uci := u;
    }

    /** `while uci -q delete pkg.@kind[0]; do :; done` */
    method DrainKind(p: PackageName, kind: string)
      modifies this
      ensures uci == old(uci).With(p, old(uci).Pkg(p).(staged := DropKind(old(uci).Staged(p), kind)))
    {
      var c := uci.Staged(p);
      ghost var before := c;
      var at := NthPos(c, kind, 0);
      while at < |c|
        invariant at == NthPos(c, kind, 0)
        invariant uci == old(uci) && DropKind(c, kind) == DropKind(before, kind)
        decreases |c|
      {
        DropKindAt(c, kind, at);
        c := c[..at] + c[at + 1..];
        at := NthPos(c, kind, 0);
      }
      NoneOfKind(c, kind);
      uci := uci.With(p, uci.Pkg(p).(staged := c));
    }

    method Execute(a: Argv) returns (ok: bool)
      modifies this
      ensures ok <==> Exec(old(uci), a).Some?
      ensures uci == if ok then Exec(old(uci), a).value else old(uci)
    {
      if a.Drain? {
        DrainKind(a.pkg, a.kind);
        return true;
      }
      match Exec(uci, a)
      case Some(v) =>
        uci := v;
        ok := true;
      case None =>
        ok := false;
    }

    /** runAll of internal/dns, internal/netcfg and the loop that ends Import. */
    method RunCommands(cmds: seq<Argv>, cut: nat) returns (ok: bool)
      modifies this
      ensures (uci, ok) == RunAll(old(uci), cmds, cut)
    {
      var i := 0;
      while i < |cmds|
        invariant i <= |cmds| && i <= cut
        invariant RunAll(old(uci), cmds, cut) == RunAll(uci, cmds[i..], cut - i)
      {
        if i == cut {
          return false;
        }
        assert cmds[i..][1..] == cmds[i + 1..];
        var done := Execute(cmds[i]);
        if !done {
          return false;
        }
        i := i + 1;
      }
      return true;
    }
  }

  // ---------- Facts about finding and dropping ----------

  lemma {:induction false} NthPosOfCount(c: Config, kind: string, p: nat)
    requires p < |c| && c[p].kind == kind
    ensures NthPos(c, kind, CountKind(c[..p], kind)) == p
  {
    if p > 0 {
      assert c[..p][1..] == c[1..][..p - 1];
      NthPosOfCount(c[1..], kind, p - 1);
    } else {
      assert c[..0] == [];
    }
  }

  lemma {:induction false} DropKindAt(c: Config, kind: string, p: nat)
    requires p < |c| && c[p].kind == kind
    ensures DropKind(c[..p] + c[p + 1..], kind) == DropKind(c, kind)
  {
    DropKindAppend(c[..p], c[p + 1..], kind);
    DropKindAppend(c[..p], c[p..], kind);
    assert c[..p] + c[p..] == c;
    assert c[p..][1..] == c[p + 1..];
  }

  lemma {:induction false} DropKindAppend(c: Config, d: Config, kind: string)
    ensures DropKind(c + d, kind) == DropKind(c, kind) + DropKind(d, kind)
  {
    if c == [] {
      assert c + d == d;
    } else {
      assert (c + d)[1..] == c[1..] + d;
      DropKindAppend(c[1..], d, kind);
    }
  }

  lemma {:induction false} NoneOfKind(c: Config, kind: string)
    requires NthPos(c, kind, 0) == |c|
    ensures DropKind(c, kind) == c
  {
    if c != [] {
      NoneOfKind(c[1..], kind);
    }
  }

  lemma {:induction false} DropNamedAbsent(c: Config, n: string)
    requires PosNamed(c, n) == |c|
    ensures DropNamed(c, n) == c
  {
    if c != [] {
      assert c[0].name != Some(n);
      DropNamedAbsent(c[1..], n);
    }
  }

  lemma {:induction false} DropNamedGone(c: Config, n: string)
    ensures Lookup(DropNamed(c, n), n) == None
  {
    if c != [] {
      DropNamedGone(c[1..], n);
      var d := DropNamed(c, n);
      if c[0].name != Some(n) {
        assert d[1..] == DropNamed(c[1..], n);
      } else {
        assert d == DropNamed(c[1..], n);
      }
    }
  }

  lemma {:induction false} AnonymousAppend(c: Config, d: Config)
    ensures Anonymous(c + d) == Anonymous(c) + Anonymous(d)
  {
    if c == [] {
      assert c + d == d;
    } else {
      assert (c + d)[1..] == c[1..] + d;
      AnonymousAppend(c[1..], d);
    }
  }

  lemma {:induction false} OfKindAppend(c: Config, d: Config, kind: string)
    ensures OfKind(c + d, kind) == OfKind(c, kind) + OfKind(d, kind)
  {
    if c == [] {
      assert c + d == d;
    } else {
      var head := if c[0].kind == kind then [c[0]] else [];
      assert (c + d)[0] == c[0] && (c + d)[1..] == c[1..] + d;
      OfKindAppend(c[1..], d, kind);
      assert OfKind(c + d, kind) == head + (OfKind(c[1..], kind) + OfKind(d, kind));
    }
  }

  lemma {:induction false} CountKindAppend(c: Config, d: Config, kind: string)
    ensures CountKind(c + d, kind) == CountKind(c, kind) + CountKind(d, kind)
  {
    if c == [] {
      assert c + d == d;
    } else {
      assert (c + d)[1..] == c[1..] + d;
      CountKindAppend(c[1..], d, kind);
    }
  }

  /** `[-1]` right after an `uci add` of the kind is the section just added. */
  lemma LastIsAdded(c: Config, s: Section)
    ensures Resolve(c + [s], Indexed(s.kind, -1)) == |c|
  {
    CountKindAppend(c, [s], s.kind);
    assert (c + [s])[..|c|] == c;
    NthPosOfCount(c + [s], s.kind, |c|);
  }

  // ---------- Facts about updating in place ----------

  lemma PosNamedIs(c: Config, n: string, p: nat)
    requires p <= |c|
    requires p < |c| ==> c[p].name == Some(n)
    requires forall j :: 0 <= j < p ==> c[j].name != Some(n)
    ensures PosNamed(c, n) == p
  {
  }

  // ---------- Facts about the runner ----------

  lemma {:induction false} RunAppend(u: State, a: seq<Argv>, b: seq<Argv>, cut: nat)
    ensures var (v, ok) := RunAll(u, a, cut);
            RunAll(u, a + b, cut) == if ok && |a| <= cut then RunAll(v, b, cut - |a|) else (v, ok && b == [])
    decreases |a|
  {
    if a == [] {
      assert a + b == b;
    } else if cut > 0 {
      assert (a + b)[1..] == a[1..] + b;
      match Exec(u, a[0]) {
        case None =>
        case Some(v) => RunAppend(v, a[1..], b, cut - 1);
      }
    }
  }

  /** Cuts beyond the end do not matter. */
  lemma {:induction false} RunEnough(u: State, cmds: seq<Argv>, cut: nat)
    requires cut >= |cmds|
    ensures RunAll(u, cmds, cut) == RunFull(u, cmds)
    decreases |cmds|
  {
    if cmds != [] {
      match Exec(u, cmds[0]) {
        case None =>
        case Some(v) =>
          RunEnough(v, cmds[1..], cut - 1);
      }
    }
  }

  lemma RunThen(u: State, a: seq<Argv>, v: State, b: seq<Argv>)
    requires RunFull(u, a) == (v, true)
    ensures RunFull(u, a + b) == RunFull(v, b)
  {
    RunAppend(u, a, b, |a + b|);
    RunEnough(u, a, |a + b|);
  }

  /** A list whose every command succeeds ends in the last state of its trace. */
  lemma {:induction false} RunTrace(trace: seq<State>, cmds: seq<Argv>)
    requires |trace| == |cmds| + 1
    requires forall i :: 0 <= i < |cmds| ==> Exec(trace[i], cmds[i]) == Some(trace[i + 1])
    ensures RunFull(trace[0], cmds) == (trace[|cmds|], true)
    decreases |cmds|
  {
    if cmds != [] {
      assert Exec(trace[0], cmds[0]) == Some(trace[1]);
      forall i | 0 <= i < |cmds[1..]|
        ensures Exec(trace[1..][i], cmds[1..][i]) == Some(trace[1..][i + 1])
      {
        assert Exec(trace[i + 1], cmds[i + 1]) == Some(trace[i + 2]);
      }
      RunTrace(trace[1..], cmds[1..]);
    }
  }

  /** A list reported done ran in full. */
  lemma {:induction false} OkMeansFull(u: State, cmds: seq<Argv>, cut: nat)
    requires RunAll(u, cmds, cut).1
    ensures RunFull(u, cmds) == RunAll(u, cmds, cut)
    decreases |cmds|
  {
    if cmds != [] {
      OkMeansFull(Exec(u, cmds[0]).value, cmds[1..], cut - 1);
    }
  }

  // ---------- Runs of edits to one section ----------

  /** `uci set ref.opt=text` or `uci add_list ref.opt=text`. */
  datatype Edit = Set(opt: string, text: string) | Push(opt: string, text: string)

  function EditOp(ref: Ref, e: Edit): Op {
    match e
    case Set(opt, text) => SetOption(ref, opt, text)
    case Push(opt, text) => AddList(ref, opt, text)
  }

  function EditCmds(pkg: PackageName, ref: Ref, edits: seq<Edit>): seq<Argv> {
    seq(|edits|, i requires 0 <= i < |edits| => Run(pkg, EditOp(ref, edits[i])))
  }

  function EditOnce(s: Section, e: Edit): Section {
    match e
    case Set(opt, text) => if text == "" then s.Drop(opt) else s.Put(opt, Scalar(text))
    case Push(opt, text) => s.Put(opt, List(Items(s.Get(opt)) + [text]))
  }

  function EditSection(s: Section, edits: seq<Edit>): (t: Section)
    ensures t.name == s.name && t.kind == s.kind
    decreases |edits|
  {
    if edits == [] then s else EditSection(EditOnce(s, edits[0]), edits[1..])
  }

  lemma {:induction false} NthPosUpdate(c: Config, p: nat, s: Section, kind: string, k: nat)
    requires p < |c| && s.kind == c[p].kind
    ensures NthPos(c[p := s], kind, k) == NthPos(c, kind, k)
    ensures CountKind(c[p := s], kind) == CountKind(c, kind)
  {
    if p > 0 {
      assert c[p := s][1..] == c[1..][p - 1 := s];
      NthPosUpdate(c[1..], p - 1, s, kind, if c[0].kind == kind && k > 0 then k - 1 else k);
    } else {
      assert c[p := s][1..] == c[1..];
    }
  }

  /** Editing options moves no section, so every reference keeps its target. */
  lemma ResolveUpdate(c: Config, p: nat, s: Section, ref: Ref)
    requires p < |c| && s.kind == c[p].kind && s.name == c[p].name
    ensures Resolve(c[p := s], ref) == Resolve(c, ref)
  {
    match ref {
      case Named(n) =>
        PosNamedIs(c[p := s], n, PosNamed(c, n));
      case Indexed(kind, i) =>
        NthPosUpdate(c, p, s, kind, 0);
        if i >= 0 {
          NthPosUpdate(c, p, s, kind, i);
        } else if CountKind(c, kind) + i >= 0 {
          NthPosUpdate(c, p, s, kind, CountKind(c, kind) + i);
        }
    }
  }

  lemma {:induction false} EditsRun(u: State, pkg: PackageName, ref: Ref, p: nat, edits: seq<Edit>)
    requires p < |u.Staged(pkg)| && Resolve(u.Staged(pkg), ref) == p
    ensures var c := u.Staged(pkg);
            RunFull(u, EditCmds(pkg, ref, edits))
            == (u.With(pkg, u.Pkg(pkg).(staged := c[p := EditSection(c[p], edits)])), true)
    decreases |edits|
  {
    var c := u.Staged(pkg);
    if edits == [] {
      assert c[p := c[p]] == c;
    } else {
      var s := EditOnce(c[p], edits[0]);
      ResolveUpdate(c, p, s, ref);
      var v := u.With(pkg, u.Pkg(pkg).(staged := c[p := s]));
      assert Exec(u, EditCmds(pkg, ref, edits)[0]) == Some(v);
      assert EditCmds(pkg, ref, edits)[1..] == EditCmds(pkg, ref, edits[1..]);
      EditsRun(v, pkg, ref, p, edits[1..]);
      assert c[p := s][p := EditSection(s, edits[1..])] == c[p := EditSection(s, edits[1..])];
    }
  }

  lemma {:induction false} EditAppend(s: Section, a: seq<Edit>, b: seq<Edit>)
    ensures EditSection(s, a + b) == EditSection(EditSection(s, a), b)
    decreases |a|
  {
    if a == [] {
      assert a + b == b;
    } else {
      assert (a + b)[1..] == a[1..] + b;
      EditAppend(EditOnce(s, a[0]), a[1..], b);
    }
  }

  lemma EditOne(s: Section, e: Edit)
    ensures EditSection(s, [e]) == EditOnce(s, e)
  {
    assert [e][1..] == [];
  }

  lemma EditTwo(s: Section, e: Edit, f: Edit)
    ensures EditSection(s, [e, f]) == EditOnce(EditOnce(s, e), f)
  {
    assert [e, f][1..] == [f];
    EditOne(EditOnce(s, e), f);
  }

  lemma EditThree(s: Section, e: Edit, f: Edit, g: Edit)
    ensures EditSection(s, [e, f, g]) == EditOnce(EditOnce(EditOnce(s, e), f), g)
  {
    assert [e, f, g][1..] == [f, g];
    EditTwo(EditOnce(s, e), f, g);
  }

  lemma EditCmdsAppend(pkg: PackageName, ref: Ref, a: seq<Edit>, b: seq<Edit>)
    ensures EditCmds(pkg, ref, a + b) == EditCmds(pkg, ref, a) + EditCmds(pkg, ref, b)
  {
  }

  /** Edits leave every option they do not name as it was. */
  lemma {:induction false} EditsKeepOthers(s: Section, edits: seq<Edit>, opt: string)
    requires forall i :: 0 <= i < |edits| ==> edits[i].opt != opt
    ensures EditSection(s, edits).Get(opt) == s.Get(opt)
    decreases |edits|
  {
    if edits != [] {
      EditsKeepOthers(EditOnce(s, edits[0]), edits[1..], opt);
    }
  }

  /** One `uci add_list` per item. */
  function Pushes(opt: string, items: seq<string>): seq<Edit> {
    seq(|items|, i requires 0 <= i < |items| => Push(opt, items[i]))
  }

  lemma {:induction false} PushesWritten(s: Section, opt: string, items: seq<string>)
    ensures EditSection(s, Pushes(opt, items))
            == if items == [] then s else s.Put(opt, List(Items(s.Get(opt)) + items))
    decreases |items|
  {
    if items != [] {
      var s1 := EditOnce(s, Push(opt, items[0]));
      assert Pushes(opt, items)[1..] == Pushes(opt, items[1..]);
      PushesWritten(s1, opt, items[1..]);
      var v := List(Items(s.Get(opt)) + items);
      assert Items(s1.Get(opt)) + items[1..] == Items(s.Get(opt)) + items;
      assert s1.Put(opt, v).options == s.Put(opt, v).options;
      if items[1..] == [] {
        assert items == [items[0]];
      } else {
        assert EditSection(s1, Pushes(opt, items[1..])) == s1.Put(opt, v);
      }
      assert EditSection(s, Pushes(opt, items)) == EditSection(s1, Pushes(opt, items[1..]));
    }
  }

  /** The sections differ at most in the options called opts. */
  ghost predicate AgreeOff(s: Section, t: Section, opts: set<string>) {
    t.name == s.name && t.kind == s.kind && t.options - opts == s.options - opts
  }

  /** Edits narrow what two sections may differ in to the options they do not set. */
  lemma {:induction false} SetsNarrow(s: Section, t: Section, edits: seq<Edit>, opts: set<string>, left: set<string>)
    requires AgreeOff(s, t, opts)
    requires forall i :: 0 <= i < |edits| ==> edits[i].Set?
    requires forall o :: o in opts ==> o in left || exists i :: 0 <= i < |edits| && edits[i].opt == o
    ensures AgreeOff(EditSection(s, edits), EditSection(t, edits), left)
    decreases |edits|
  {
    if edits == [] {
      AgreeWider(s, t, opts, left);
    } else {
      var fewer := opts - {edits[0].opt};
      SetAgrees(s, t, edits[0], opts);
      forall p | p in fewer && p !in left
        ensures exists i :: 0 <= i < |edits[1..]| && edits[1..][i].opt == p
      {
        var i :| 0 <= i < |edits| && edits[i].opt == p;
        assert edits[1..][i - 1].opt == p;
      }
      SetsNarrow(EditOnce(s, edits[0]), EditOnce(t, edits[0]), edits[1..], fewer, left);
    }
  }

  lemma AgreeWider(s: Section, t: Section, opts: set<string>, more: set<string>)
    requires AgreeOff(s, t, opts) && opts <= more
    ensures AgreeOff(s, t, more)
  {
    assert s.options - more == (s.options - opts) - more;
    assert t.options - more == (t.options - opts) - more;
  }

  lemma SetAgrees(s: Section, t: Section, e: Edit, opts: set<string>)
    requires AgreeOff(s, t, opts) && e.Set?
    ensures AgreeOff(EditOnce(s, e), EditOnce(t, e), opts - {e.opt})
  {
    var s1 := EditOnce(s, e);
    var t1 := EditOnce(t, e);
    var fewer := opts - {e.opt};
    assert s1.options - fewer == t1.options - fewer by {
      forall k
        ensures k in s1.options && k !in fewer <==> k in t1.options && k !in fewer
        ensures k in s1.options && k !in fewer ==> s1.options[k] == t1.options[k]
      {
        assert k in s.options - opts <==> k in t.options - opts;
        assert k in s.options && k !in opts ==> (s.options - opts)[k] == (t.options - opts)[k];
      }
    }
  }

  /** Edits that set every option two sections may differ in leave them the same. */
  lemma SetsForget(s: Section, t: Section, edits: seq<Edit>, opts: set<string>)
    requires AgreeOff(s, t, opts)
    requires forall i :: 0 <= i < |edits| ==> edits[i].Set?
    requires forall o :: o in opts ==> exists i :: 0 <= i < |edits| && edits[i].opt == o
    ensures EditSection(s, edits) == EditSection(t, edits)
  {
    SetsNarrow(s, t, edits, opts, {});
    var x := EditSection(s, edits);
    var y := EditSection(t, edits);
    assert x.options - {} == x.options && y.options - {} == y.options;
  }

  /** `uci set ref.opt=text`, or `uci -q delete ref.opt || true` when there is no text. */
  function SetOrClear(pkg: PackageName, ref: Ref, opt: string, text: string): Argv {
    if text == "" then Quiet(pkg, DeleteOption(ref, opt)) else Run(pkg, SetOption(ref, opt, text))
  }

  lemma {:induction false} SetOrClearRuns(u: State, pkg: PackageName, n: string, opt: string, text: string)
    requires Lookup(u.Staged(pkg), n).Some?
    ensures var c := u.Staged(pkg);
            var s := EditOnce(Lookup(c, n).value, Set(opt, text));
            Exec(u, SetOrClear(pkg, Named(n), opt, text))
            == Some(u.With(pkg, u.Pkg(pkg).(staged := PutSection(c, n, s))))
  {
    var c := u.Staged(pkg);
    var s := Lookup(c, n).value;
    if text == "" && opt !in s.options {
      assert s.Drop(opt).options == s.options;
      assert PutSection(c, n, s.Drop(opt)) == c;
    }
  }

  lemma {:induction false} PutSectionTwice(c: Config, n: string, s: Section, t: Section)
    requires s.name == t.name == Some(n)
    ensures PutSection(PutSection(c, n, s), n, t) == PutSection(c, n, t)
  {
    PutSectionFacts(c, n, s);
  }

  // ---------- Tables of options ----------

  /** What a run of `uci set` lines writes: option and text, each option once, no empty text. */
  type Table = seq<(string, string)>

  predicate WellFormed(t: Table) {
    && (forall i :: 0 <= i < |t| ==> t[i].1 != "")
    && (forall i, j :: 0 <= i < j < |t| ==> t[i].0 != t[j].0)
  }

  function TableEdits(t: Table): seq<Edit> {
    seq(|t|, i requires 0 <= i < |t| => Set(t[i].0, t[i].1))
  }

  /** The section holds every line of the table. */
  predicate Carries(s: Section, kind: string, t: Table) {
    && s.kind == kind
    && forall i :: 0 <= i < |t| ==> s.Get(t[i].0) == Some(Scalar(t[i].1))
  }

  lemma {:induction false} TableWritten(s: Section, t: Table)
    requires WellFormed(t)
    ensures Carries(EditSection(s, TableEdits(t)), s.kind, t)
    decreases |t|
  {
    if t != [] {
      var e := TableEdits(t);
      assert e[1..] == TableEdits(t[1..]);
      var s1 := EditOnce(s, e[0]);
      TableWritten(s1, t[1..]);
      EditsKeepOthers(s1, e[1..], t[0].0);
      var r := EditSection(s, e);
      forall i | 0 <= i < |t|
        ensures r.Get(t[i].0) == Some(Scalar(t[i].1))
      {
        if i > 0 {
          assert t[i] == t[1..][i - 1];
        }
      }
    }
  }

  /** `uci set pkg.n=kind` followed by a table of `uci set pkg.n.opt=text`. */
  function SectionCmds(pkg: PackageName, n: string, kind: string, t: Table): seq<Argv> {
    [Run(pkg, SetSection(n, kind))] + EditCmds(pkg, Named(n), TableEdits(t))
  }

  /** The section `uci set pkg.n=kind` leaves: retyped in place, or new and empty. */
  function Based(c: Config, n: string, kind: string): (s: Section)
    ensures s.name == Some(n) && s.kind == kind
  {
    match Lookup(c, n)
    case Some(s) => s.(kind := kind)
    case None => Section(Some(n), kind, map[])
  }

  function PutSection(c: Config, n: string, s: Section): Config {
    var p := PosNamed(c, n);
    if p < |c| then c[p := s] else c + [s]
  }

  lemma PutSectionFacts(c: Config, n: string, s: Section)
    requires s.name == Some(n)
    ensures OnlyNames(c, PutSection(c, n, s), {n})
    ensures Lookup(PutSection(c, n, s), n) == Some(s)
    ensures PosNamed(PutSection(c, n, s), n) == PosNamed(c, n)
  {
    var p := PosNamed(c, n);
    PosNamedIs(PutSection(c, n, s), n, p);
    if p < |c| {
      UpdateInNames(c, p, s, {n});
    } else {
      DropNamesAppend(c, [s], {n});
    }
  }

  function SectionResult(c: Config, n: string, kind: string, t: Table): Config {
    PutSection(c, n, EditSection(Based(c, n, kind), TableEdits(t)))
  }

  /** A section block always runs through, whatever was there. */
  lemma SectionRun(u: State, pkg: PackageName, n: string, kind: string, t: Table)
    ensures RunFull(u, SectionCmds(pkg, n, kind, t))
            == (u.With(pkg, u.Pkg(pkg).(staged := SectionResult(u.Staged(pkg), n, kind, t))), true)
  {
    var c := u.Staged(pkg);
    var p := PosNamed(c, n);
    var s := Based(c, n, kind);
    PutSectionFacts(c, n, s);
    var u1 := u.With(pkg, u.Pkg(pkg).(staged := PutSection(c, n, s)));
    var head := Run(pkg, SetSection(n, kind));
    assert Exec(u, head) == Some(u1);
    var edits := EditCmds(pkg, Named(n), TableEdits(t));
    EditsRun(u1, pkg, Named(n), p, TableEdits(t));
    var s2 := EditSection(s, TableEdits(t));
    assert PutSection(c, n, s)[p := s2] == PutSection(c, n, s2);
    var cmds := SectionCmds(pkg, n, kind, t);
    assert cmds[0] == head && cmds[1..] == edits;
  }

  /** ... and leaves its table in force, touching no other section. */
  lemma SectionWritten(c: Config, n: string, kind: string, t: Table)
    requires WellFormed(t)
    ensures var d := SectionResult(c, n, kind, t);
            && OnlyNames(c, d, {n})
            && Lookup(d, n).Some?
            && Carries(Lookup(d, n).value, kind, t)
  {
    var s := Based(c, n, kind);
    TableWritten(s, t);
    PutSectionFacts(c, n, EditSection(s, TableEdits(t)));
  }

  // ---------- Lists of commands that stop inside one section ----------

  function Edited(c: Config, n: string, kind: string, edits: seq<Edit>): Config {
    PutSection(c, n, EditSection(Based(c, n, kind), edits))
  }

  /** d is c after some stretch of edits of section n, confined to the given options. */
  ghost predicate Touched(c: Config, d: Config, n: string, kind: string, opts: set<string>) {
    && AgreeOff(Based(c, n, kind), Based(d, n, kind), opts)
    && (d == c || (Lookup(d, n).Some? && d == PutSection(c, n, Lookup(d, n).value)))
  }

  /** A block that sets all those options afterwards forgets the stretch. */
  lemma TouchedForgotten(c: Config, d: Config, n: string, kind: string, opts: set<string>, edits: seq<Edit>)
    requires Touched(c, d, n, kind, opts)
    requires forall i :: 0 <= i < |edits| ==> edits[i].Set?
    requires forall o :: o in opts ==> exists i :: 0 <= i < |edits| && edits[i].opt == o
    ensures Edited(d, n, kind, edits) == Edited(c, n, kind, edits)
  {
    SetsForget(Based(c, n, kind), Based(d, n, kind), edits, opts);
    if d != c {
      PutSectionTwice(c, n, Lookup(d, n).value, EditSection(Based(c, n, kind), edits));
    }
  }

  lemma TouchedPut(c: Config, d: Config, n: string, kind: string, opts: set<string>, s: Section)
    requires Touched(c, d, n, kind, opts) && s.name == Some(n)
    requires AgreeOff(Based(c, n, kind), s.(kind := kind), opts)
    ensures Touched(c, PutSection(d, n, s), n, kind, opts)
  {
    var e := PutSection(d, n, s);
    PutSectionFacts(d, n, s);
    if d != c {
      PutSectionTwice(c, n, Lookup(d, n).value, s);
    }
  }

  /** Commands that edit one section, in the given options. */
  predicate Touching(a: Argv, pkg: PackageName, n: string, kind: string, opts: set<string>) {
    match a
    case Run(p, SetSection(m, k)) => p == pkg && m == n && k == kind
    case Run(p, SetOption(ref, opt, _)) => p == pkg && ref == Named(n) && opt in opts
    case Run(p, AddList(ref, opt, _)) => p == pkg && ref == Named(n) && opt in opts
    case Quiet(p, DeleteOption(ref, opt)) => p == pkg && ref == Named(n) && opt in opts
    case _ => false
  }

  lemma OptionOff(s: Section, t: Section, opt: string, v: Value, opts: set<string>)
    requires AgreeOff(s, t, opts) && opt in opts
    ensures AgreeOff(s, t.Put(opt, v), opts) && AgreeOff(s, t.Drop(opt), opts)
  {
    assert t.Put(opt, v).options - opts == t.options - opts;
    assert t.Drop(opt).options - opts == t.options - opts;
  }

  lemma TouchedOnce(u: State, v: State, a: Argv, pkg: PackageName, n: string, kind: string, opts: set<string>)
    requires Touching(a, pkg, n, kind, opts) && Touched(u.Staged(pkg), v.Staged(pkg), n, kind, opts)
    ensures match Exec(v, a)
            case None => true
            case Some(w) =>
              && Touched(u.Staged(pkg), w.Staged(pkg), n, kind, opts)
              && w == v.With(pkg, v.Pkg(pkg).(staged := w.Staged(pkg)))
  {
    var c := u.Staged(pkg);
    var d := v.Staged(pkg);
    var p := PosNamed(d, n);
    if a.Run? && a.op.SetSection? {
      TouchedPut(c, d, n, kind, opts, Based(d, n, kind));
      PutSectionFacts(d, n, Based(d, n, kind));
    } else if p < |d| {
      var opt := a.op.opt;
      var text := if a.Run? then a.op.text else "";
      var v := if a.Run? && a.op.AddList? then List(Items(d[p].Get(opt)) + [text]) else Scalar(text);
      var drops := v == Scalar("");
      var t := if drops then d[p].Drop(opt) else d[p].Put(opt, v);
      OptionOff(Based(c, n, kind), Based(d, n, kind), opt, v, opts);
      assert t.(kind := kind) == if drops then Based(d, n, kind).Drop(opt) else Based(d, n, kind).Put(opt, v);
      TouchedPut(c, d, n, kind, opts, t);
    }
  }

  /** A list of such commands that stops anywhere. */
  lemma {:induction false} TouchedRun(u: State, v: State, cmds: seq<Argv>, cut: nat,
                                       pkg: PackageName, n: string, kind: string, opts: set<string>)
    requires forall i :: 0 <= i < |cmds| ==> Touching(cmds[i], pkg, n, kind, opts)
    requires Touched(u.Staged(pkg), v.Staged(pkg), n, kind, opts)
    ensures var w := RunAll(v, cmds, cut).0;
            Touched(u.Staged(pkg), w.Staged(pkg), n, kind, opts) && w == v.With(pkg, v.Pkg(pkg).(staged := w.Staged(pkg)))
    decreases |cmds|
  {
    hide Exec, Touched, Touching;
    if cmds != [] && cut > 0 {
      assert Touching(cmds[0], pkg, n, kind, opts);
      TouchedOnce(u, v, cmds[0], pkg, n, kind, opts);
      match Exec(v, cmds[0]) {
        case None =>
        case Some(w) => TouchedRun(u, w, cmds[1..], cut - 1, pkg, n, kind, opts);
      }
    }
  }

  lemma Untouched(c: Config, n: string, kind: string, opts: set<string>)
    ensures Touched(c, c, n, kind, opts)
  {
  }

  function TableOpts(t: Table): set<string> {
    set i | 0 <= i < |t| :: t[i].0
  }

  lemma SectionCmdsTouch(pkg: PackageName, n: string, kind: string, t: Table, opts: set<string>)
    requires forall i :: 0 <= i < |t| ==> t[i].0 in opts
    ensures forall i :: 0 <= i < |SectionCmds(pkg, n, kind, t)| ==> Touching(SectionCmds(pkg, n, kind, t)[i], pkg, n, kind, opts)
  {
  }

  /** A section block that stopped anywhere is forgotten by the block itself. */
  lemma BlockForgotten(u: State, pkg: PackageName, n: string, kind: string, t: Table, cut: nat)
    ensures var v := RunAll(u, SectionCmds(pkg, n, kind, t), cut).0;
            && v == u.With(pkg, u.Pkg(pkg).(staged := v.Staged(pkg)))
            && SectionResult(v.Staged(pkg), n, kind, t) == SectionResult(u.Staged(pkg), n, kind, t)
  {
    hide Touched, SectionCmds;
    var opts := TableOpts(t);
    SectionCmdsTouch(pkg, n, kind, t, opts);
    Untouched(u.Staged(pkg), n, kind, opts);
    TouchedRun(u, u, SectionCmds(pkg, n, kind, t), cut, pkg, n, kind, opts);
    var v := RunAll(u, SectionCmds(pkg, n, kind, t), cut).0;
    forall o | o in opts
      ensures exists i :: 0 <= i < |TableEdits(t)| && TableEdits(t)[i].opt == o
    {
      var i :| 0 <= i < |t| && t[i].0 == o;
      assert TableEdits(t)[i].opt == o;
    }
    TouchedForgotten(u.Staged(pkg), v.Staged(pkg), n, kind, opts, TableEdits(t));
  }

  /** A block whose table is in force already changes nothing. */
  lemma SettledStays(c: Config, n: string, kind: string, t: Table)
    requires Lookup(c, n).Some? && Carries(Lookup(c, n).value, kind, t) && WellFormed(t)
    ensures SectionResult(c, n, kind, t) == c
  {
    var s := Lookup(c, n).value;
    CarriedStays(s, t);
    assert Based(c, n, kind) == s;
  }

  lemma {:induction false} CarriedStays(s: Section, t: Table)
    requires WellFormed(t) && forall i :: 0 <= i < |t| ==> s.Get(t[i].0) == Some(Scalar(t[i].1))
    ensures EditSection(s, TableEdits(t)) == s
    decreases |t|
  {
    if t != [] {
      assert t[0].1 != "" && s.Get(t[0].0) == Some(Scalar(t[0].1));
      assert EditOnce(s, TableEdits(t)[0]).options == s.options;
      assert TableEdits(t)[1..] == TableEdits(t[1..]);
      forall i | 0 <= i < |t[1..]|
        ensures s.Get(t[1..][i].0) == Some(Scalar(t[1..][i].1)) && t[1..][i].1 != ""
      {
        assert t[1..][i] == t[i + 1];
      }
      assert forall i, j :: 0 <= i < j < |t[1..]| ==> t[1..][i] == t[i + 1] && t[1..][j] == t[j + 1];
      CarriedStays(s, t[1..]);
    }
  }

  // ---------- Lists of commands confined to named sections ----------

  predicate OpOnNames(op: Op, names: set<string>) {
    match op
    case SetSection(n, _) => n in names
    case AddSection(_) => false
    case SetOption(r, _, _) => r.Named? && r.name in names
    case AddList(r, _, _) => r.Named? && r.name in names
    case DelList(r, _, _) => r.Named? && r.name in names
    case DeleteSection(r) => r.Named? && r.name in names
    case DeleteOption(r, _) => r.Named? && r.name in names
  }

  /** The command edits nothing but the named sections of one package. */
  predicate Confined(a: Argv, pkg: PackageName, names: set<string>) {
    match a
    case Run(p, op) => p == pkg && OpOnNames(op, names)
    case Quiet(p, op) => p == pkg && OpOnNames(op, names)
    case Commit(p) => p == pkg
    case Service(_) => true
    case _ => false
  }

  predicate AllConfined(cmds: seq<Argv>, pkg: PackageName, names: set<string>) {
    forall i :: 0 <= i < |cmds| ==> Confined(cmds[i], pkg, names)
  }

  predicate Called(s: Section, names: set<string>) {
    s.name.Some? && s.name.value in names
  }

  function DropNames(c: Config, names: set<string>): Config {
    if c == [] then []
    else (if Called(c[0], names) then [] else [c[0]]) + DropNames(c[1..], names)
  }

  /** The two agree on everything but the sections called names, position and order included. */
  ghost predicate OnlyNames(c: Config, d: Config, names: set<string>) {
    DropNames(d, names) == DropNames(c, names)
  }

  lemma {:induction false} DropNamesAppend(c: Config, d: Config, names: set<string>)
    ensures DropNames(c + d, names) == DropNames(c, names) + DropNames(d, names)
  {
    hide Called;
    if c == [] {
      assert c + d == d;
    } else {
      assert (c + d)[1..] == c[1..] + d;
      DropNamesAppend(c[1..], d, names);
    }
  }

  lemma LookupHead(c: Config, n: string)
    requires c != []
    ensures Lookup(c, n) == if c[0].name == Some(n) then Some(c[0]) else Lookup(c[1..], n)
  {
  }

  lemma {:induction false} DropNamesGone(c: Config, names: set<string>)
    ensures forall n :: n in names ==> Lookup(DropNames(c, names), n) == None
  {
    if c != [] {
      DropNamesGone(c[1..], names);
      var d := DropNames(c, names);
      if Called(c[0], names) {
        assert d == DropNames(c[1..], names);
      } else {
        assert d[1..] == DropNames(c[1..], names);
        forall n | n in names
          ensures Lookup(d, n) == None
        {
          LookupHead(d, n);
        }
      }
    }
  }

  lemma {:induction false} DropNamesLookup(c: Config, names: set<string>, m: string)
    requires m !in names
    ensures Lookup(DropNames(c, names), m) == Lookup(c, m)
  {
    if c != [] {
      DropNamesLookup(c[1..], names, m);
      var d := DropNames(c, names);
      LookupHead(c, m);
      if Called(c[0], names) {
        assert d == DropNames(c[1..], names);
      } else {
        assert d[0] == c[0] && d[1..] == DropNames(c[1..], names);
        LookupHead(d, m);
      }
    }
  }

  lemma {:induction false} DropNamesAnonymous(c: Config, names: set<string>)
    ensures Anonymous(DropNames(c, names)) == Anonymous(c)
  {
    if c != [] {
      DropNamesAnonymous(c[1..], names);
      var d := DropNames(c, names);
      if Called(c[0], names) {
        assert d == DropNames(c[1..], names);
      } else {
        assert d[1..] == DropNames(c[1..], names);
      }
    }
  }

  lemma OnlyNamesFrame(c: Config, d: Config, names: set<string>)
    requires OnlyNames(c, d, names)
    ensures Anonymous(d) == Anonymous(c)
    ensures forall m :: m !in names ==> Lookup(d, m) == Lookup(c, m)
  {
    DropNamesAnonymous(c, names);
    DropNamesAnonymous(d, names);
    forall m | m !in names
      ensures Lookup(d, m) == Lookup(c, m)
    {
      DropNamesLookup(c, names, m);
      DropNamesLookup(d, names, m);
    }
  }

  lemma {:induction false} DropNamesTwice(c: Config, few: set<string>, many: set<string>)
    requires few <= many
    ensures DropNames(DropNames(c, few), many) == DropNames(c, many)
  {
    if c != [] {
      DropNamesTwice(c[1..], few, many);
      var d := DropNames(c, few);
      if Called(c[0], few) {
        assert d == DropNames(c[1..], few);
      } else {
        assert d[1..] == DropNames(c[1..], few);
      }
    }
  }

  lemma WiderNames(c: Config, d: Config, few: set<string>, many: set<string>)
    requires OnlyNames(c, d, few) && few <= many
    ensures OnlyNames(c, d, many)
  {
    DropNamesTwice(c, few, many);
    DropNamesTwice(d, few, many);
  }

  lemma {:induction false} DropNamedIn(c: Config, n: string, names: set<string>)
    ensures DropNames(DropNamed(c, n), names) == DropNames(c, names + {n})
    ensures n in names ==> OnlyNames(c, DropNamed(c, n), names)
  {
    if c != [] {
      DropNamedIn(c[1..], n, names);
      var d := DropNamed(c, n);
      if c[0].name == Some(n) {
        assert d == DropNamed(c[1..], n);
      } else {
        assert d[1..] == DropNamed(c[1..], n);
      }
    }
  }

  lemma UpdateInNames(c: Config, p: nat, s: Section, names: set<string>)
    requires p < |c| && Called(c[p], names) && s.name == c[p].name
    ensures OnlyNames(c, c[p := s], names)
  {
    assert c == c[..p] + [c[p]] + c[p + 1..];
    assert c[p := s] == c[..p] + [s] + c[p + 1..];
    DropNamesAppend(c[..p] + [c[p]], c[p + 1..], names);
    DropNamesAppend(c[..p], [c[p]], names);
    DropNamesAppend(c[..p] + [s], c[p + 1..], names);
    DropNamesAppend(c[..p], [s], names);
  }

  lemma ApplyOnNames(c: Config, op: Op, names: set<string>)
    requires OpOnNames(op, names)
    ensures OnlyNames(c, ApplyOrSkip(c, op), names)
  {
    if op.SetSection? {
      var p := PosNamed(c, op.name);
      if p < |c| {
        UpdateInNames(c, p, c[p].(kind := op.kind), names);
      } else {
        DropNamesAppend(c, [Section(Some(op.name), op.kind, map[])], names);
      }
    } else if op.DeleteSection? {
      DropNamedIn(c, op.ref.name, names);
    } else {
      var p := PosNamed(c, op.ref.name);
      if p < |c| {
        var s := c[p];
        match op {
          case SetOption(_, opt, text) => s := EditOnce(s, Set(opt, text));
          case AddList(_, opt, text) => s := EditOnce(s, Push(opt, text));
          case DelList(_, opt, text) => s := DelItem(s, opt, text);
          case DeleteOption(_, opt) => s := s.Drop(opt);
        }
        UpdateInNames(c, p, s, names);
      }
    }
  }

  /** However far such a list gets, the rest of the store is untouched. */
  lemma {:induction false} ConfinedRun(u: State, cmds: seq<Argv>, pkg: PackageName, names: set<string>, cut: nat)
    requires AllConfined(cmds, pkg, names)
    ensures var v := RunAll(u, cmds, cut).0;
            && v == u.With(pkg, v.Pkg(pkg))
            && OnlyNames(u.Staged(pkg), v.Staged(pkg), names)
    decreases |cmds|
  {
    if cmds != [] && cut > 0 {
      assert Confined(cmds[0], pkg, names);
      if cmds[0].Run? || cmds[0].Quiet? {
        ApplyOnNames(u.Staged(pkg), cmds[0].op, names);
      }
      match Exec(u, cmds[0]) {
        case None =>
        case Some(v) => ConfinedRun(v, cmds[1..], pkg, names, cut - 1);
      }
    }
  }
}
