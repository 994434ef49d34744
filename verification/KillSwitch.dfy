/**
 The kill switch: the absence of an anonymous lan→wan forwarding in the firewall package
 (internal/vpn/killswitch.go). It covers anonymous `@forwarding[n]` sections only; a forwarding
 section with a name is invisible to its scripts.
 */
module KillSwitch {
  import opened Common
  import opened Uci

  predicate IsLanWan(s: Section) {
    s.name.None? && s.kind == "forwarding" && s.Shows("src", "lan") && s.Shows("dest", "wan")
  }

  /** The forwarding the off-script adds. */
  const LAN_WAN := Section(None, "forwarding", map["src" := Scalar("lan"), "dest" := Scalar("wan")])

  predicate IsOn(c: Config) {
    forall i :: 0 <= i < |c| ==> !IsLanWan(c[i])
  }

  /** The one-pass filter: everything but the lan→wan forwardings, in order. */
  function DropLanWan(c: Config): Config {
    if c == [] then []
    else (if IsLanWan(c[0]) then [] else [c[0]]) + DropLanWan(c[1..])
  }

  /** The firewall package after the script has run; untouched when there is nothing to change. */
  function Switched(fw: Package, enabled: bool): Package {
    if IsOn(fw.staged) == enabled then fw
    else
      var c := if enabled then DropLanWan(fw.staged) else fw.staged + [LAN_WAN];
      Package(c, c)
  }

  // ---------- The scripts cut short ----------

  function LanWanCount(c: Config): nat {
    if c == [] then 0 else (if IsLanWan(c[0]) then 1 else 0) + LanWanCount(c[1..])
  }

  /** The list without its first k lan→wan forwardings. */
  function DropFirst(c: Config, k: nat): Config {
    if c == [] || k == 0 then c
    else if IsLanWan(c[0]) then DropFirst(c[1..], k - 1)
    else [c[0]] + DropFirst(c[1..], k)
  }

  /** The package after the on-script was killed behind its k-th command: the deletes, the commit, the reload. */
  function OnCut(fw: Package, k: nat): Package {
    var n := LanWanCount(fw.staged);
    Package(DropFirst(fw.staged, k), if n > 0 && k > n then DropLanWan(fw.staged) else fw.committed)
  }

  predicate OnCutReloads(fw: Package, k: nat) {
    var n := LanWanCount(fw.staged);
    n > 0 && k >= n + 2
  }

  /** The forwarding the off-script has written by its k-th command. */
  function Written(k: nat): Section {
    if k <= 1 then Section(None, "forwarding", map[])
    else if k == 2 then Section(None, "forwarding", map["src" := Scalar("lan")])
    else LAN_WAN
  }

  /** The package after the off-script was killed behind its k-th command: add, two sets, commit, reload. */
  function OffCut(fw: Package, k: nat): Package {
    if !IsOn(fw.staged) || k == 0 then fw
    else Package(fw.staged + [Written(k)], if k >= 4 then fw.staged + [LAN_WAN] else fw.committed)
  }

  predicate OffCutReloads(fw: Package, k: nat) {
    IsOn(fw.staged) && k >= 5
  }

  /** The anonymous forwardings, in order: what the switch reads and edits. */
  function Forwardings(c: Config): Config {
    if c == [] then []
    else (if c[0].name.None? && c[0].kind == "forwarding" then [c[0]] else []) + Forwardings(c[1..])
  }

  /** How the world outside the script behaves during one call. */
  datatype Outcome = Outcome(started: bool, reloads: bool, flushes: Option<bool>)

  class UciConnector {
    const router: Router

    constructor (r: Router)
      ensures router == r
    {
      router := r;
    }

    /**
     One pass of `for s in $(...)`: the index among the forwarding sections of the first
     anonymous lan→wan one, or -1. Named forwardings count in the index but are never listed.
     */
    method FindLanWan() returns (found: int, ghost at: nat)
      ensures found < 0 <==> IsOn(router.uci.firewall.staged)
      ensures found >= 0 ==>
                var c := router.uci.firewall.staged;
                at < |c| && IsLanWan(c[at]) && IsOn(c[..at]) && Resolve(c, Indexed("forwarding", found)) == at
    {
      var c := router.uci.firewall.staged;
      var index := 0;
      for i := 0 to |c|
        invariant index == CountKind(c[..i], "forwarding")
        invariant IsOn(c[..i])
      {
        if IsLanWan(c[i]) {
          NthPosOfCount(c, "forwarding", i);
          return index, i;
        }
        CountKindAppend(c[..i], [c[i]], "forwarding");
        assert c[..i + 1] == c[..i] + [c[i]];
        if c[i].kind == "forwarding" {
          index := index + 1;
        }
      }
      assert c[..|c|] == c;
      return -1, 0;
    }

    method KillSwitch() returns (on: bool)
      ensures on <==> IsOn(router.uci.firewall.staged)
    {
      var found, _ := FindLanWan();
      on := found < 0;
    }

    /**
     Deletes one lan→wan forwarding and rescans until none is left: each deletion shifts the
     indices behind it. The script then commits if anything changed.
     */
    method DeleteLanWan()
      modifies router
      ensures router.uci == old(router.uci).(firewall := Switched(old(router.uci).firewall, true))
    {
      ghost var first := router.uci.firewall.staged;
      var changed := false;
      var found, at := FindLanWan();
      while found >= 0
        invariant router.uci == old(router.uci).(firewall := old(router.uci).firewall.(staged := router.uci.firewall.staged))
        invariant DropLanWan(router.uci.firewall.staged) == DropLanWan(first)
        invariant found < 0 <==> IsOn(router.uci.firewall.staged)
        invariant found >= 0 ==>
                    var c := router.uci.firewall.staged;
                    0 <= at < |c| && IsLanWan(c[at]) && Resolve(c, Indexed("forwarding", found)) == at
        invariant changed <==> !IsOn(first) && router.uci.firewall.staged != first
        invariant changed ==> |router.uci.firewall.staged| < |first|
        invariant !changed ==> router.uci.firewall.staged == first
        decreases |router.uci.firewall.staged|
      {
        DropLanWanAt(router.uci.firewall.staged, at);
        var done := router.Execute(Run(Firewall, DeleteSection(Indexed("forwarding", found))));
        changed := true;
        found, at := FindLanWan();
      }
      DropLanWanNone(router.uci.firewall.staged);
      if changed {
        var done := router.Execute(Commit(Firewall));
      }
    }

    /** The on-script, killed behind its k-th command. */
    method DeleteLanWanCut(k: nat) returns (reloaded: bool)
      modifies router
      ensures router.uci == old(router.uci).(firewall := OnCut(old(router.uci).firewall, k))
      ensures reloaded <==> OnCutReloads(old(router.uci).firewall, k)
    {
      hide DropFirst, DropLanWan, LanWanCount, IsOn, IsLanWan;
      ghost var first := router.uci.firewall.staged;
      var left := k;
      DropFirstAll(first, 0);
      var found, at := FindLanWan();
      CountOn(first);
      while found >= 0 && left > 0
        invariant 0 <= left <= k && k - left <= LanWanCount(first)
        invariant router.uci == old(router.uci).(firewall := old(router.uci).firewall.(staged := DropFirst(first, k - left)))
        invariant found < 0 <==> k - left == LanWanCount(first)
        invariant found >= 0 ==>
                    var c := router.uci.firewall.staged;
                    0 <= at < |c| && IsLanWan(c[at]) && IsOn(c[..at]) && Resolve(c, Indexed("forwarding", found)) == at
        decreases left
      {
        DropFirstNext(first, k - left, at);
        var done := router.Execute(Run(Firewall, DeleteSection(Indexed("forwarding", found))));
        left := left - 1;
        found, at := FindLanWan();
        DropFirstCount(first, k - left);
        CountOn(router.uci.firewall.staged);
      }
      DropFirstAll(first, k);
      DropFirstAll(first, k - left);
      if found >= 0 || left == 0 || left == k {
        return false;
      }
      var done := router.Execute(Commit(Firewall));
      return left >= 2;
    }

    /** The off-script, killed behind its k-th command. */
    method AddLanWanCut(k: nat) returns (reloaded: bool)
      modifies router
      ensures router.uci == old(router.uci).(firewall := OffCut(old(router.uci).firewall, k))
      ensures reloaded <==> OffCutReloads(old(router.uci).firewall, k)
    {
      var on := KillSwitch();
      if !on || k == 0 {
        return false;
      }
      var c := router.uci.firewall.staged;
      LastIsAdded(c, Written(1));
      LastIsAdded(c, Written(2));
      var done := router.Execute(Run(Firewall, AddSection("forwarding")));
      if k == 1 {
        return false;
      }
      done := router.Execute(Run(Firewall, SetOption(Indexed("forwarding", -1), "src", "lan")));
      assert Written(1).Put("src", Scalar("lan")) == Written(2);
      assert (c + [Written(1)])[|c| := Written(2)] == c + [Written(2)];
      if k == 2 {
        return false;
      }
      done := router.Execute(Run(Firewall, SetOption(Indexed("forwarding", -1), "dest", "wan")));
      assert Written(2).Put("dest", Scalar("wan")) == LAN_WAN;
      assert (c + [Written(2)])[|c| := LAN_WAN] == c + [LAN_WAN];
      if k == 3 {
        return false;
      }
      done := router.Execute(Commit(Firewall));
      return k >= 5;
    }

    /** Adds the forwarding unless some lan→wan forwarding is already there. */
    method AddLanWan(reloads: bool) returns (ok: bool)
      modifies router
      ensures router.uci == old(router.uci).(firewall := Switched(old(router.uci).firewall, false))
      ensures ok <==> (IsOn(old(router.uci).firewall.staged) ==> reloads)
    {
      var on := KillSwitch();
      if !on {
        return true;
      }
      var c := router.uci.firewall.staged;
      var added := Section(None, "forwarding", map[]);
      var half := added.Put("src", Scalar("lan"));
      LastIsAdded(c, added);
      LastIsAdded(c, half);
      var done := router.Execute(Run(Firewall, AddSection("forwarding")));
      done := router.Execute(Run(Firewall, SetOption(Indexed("forwarding", -1), "src", "lan")));
      assert (c + [added])[|c| := half] == c + [half];
      done := router.Execute(Run(Firewall, SetOption(Indexed("forwarding", -1), "dest", "wan")));
      assert half.Put("dest", Scalar("wan")) == LAN_WAN;
      assert (c + [half])[|c| := LAN_WAN] == c + [LAN_WAN];
      done := router.Execute(Commit(Firewall));
      ok := reloads;
    }

    /**
     SetKillSwitch. Turning on, the script's exit status hides a failed reload, and the flush
     comes last; turning off, the reload's status is the script's.
     */
    method SetKillSwitch(enabled: bool, out: Outcome) returns (ok: bool)
      modifies router
      ensures router.uci == if out.started then old(router.uci).(firewall := Switched(old(router.uci).firewall, enabled))
                            else old(router.uci)
      ensures ok <==> && out.started
                      && (enabled ==> out.flushes != Some(false))
                      && (!enabled && IsOn(old(router.uci).firewall.staged) ==> out.reloads)
    {
      if !out.started {
        return false;
      }
      if enabled {
        DeleteLanWan();
        ok := out.flushes != Some(false);
      } else {
        ok := AddLanWan(out.reloads);
      }
    }
  }

  // ---------- Properties ----------

  lemma {:induction false} DropLanWanAppend(c: Config, d: Config)
    ensures DropLanWan(c + d) == DropLanWan(c) + DropLanWan(d)
  {
    if c == [] {
      assert c + d == d;
    } else {
      assert (c + d)[1..] == c[1..] + d;
      DropLanWanAppend(c[1..], d);
    }
  }

  lemma {:induction false} DropLanWanAt(c: Config, p: nat)
    requires p < |c| && IsLanWan(c[p])
    ensures DropLanWan(c[..p] + c[p + 1..]) == DropLanWan(c)
  {
    DropLanWanAppend(c[..p], c[p + 1..]);
    DropLanWanAppend(c[..p], c[p..]);
    assert c[..p] + c[p..] == c && c[p..][1..] == c[p + 1..];
  }

  lemma {:induction false} DropLanWanNone(c: Config)
    requires IsOn(c)
    ensures DropLanWan(c) == c
  {
    if c != [] {
      assert forall i :: 0 <= i < |c[1..]| ==> c[1..][i] == c[i + 1];
      DropLanWanNone(c[1..]);
    }
  }

  /** The filter removes exactly the lan→wan forwardings and keeps the rest in order. */
  lemma {:induction false} DropLanWanKeeps(c: Config)
    ensures IsOn(DropLanWan(c))
    ensures forall s :: s in DropLanWan(c) <==> s in c && !IsLanWan(s)
    ensures DropLanWan(c) == c <==> IsOn(c)
    ensures |DropLanWan(c)| <= |c|
  {
    if c != [] {
      DropLanWanKeeps(c[1..]);
      assert c == [c[0]] + c[1..];
      if IsLanWan(c[0]) {
        assert DropLanWan(c) == DropLanWan(c[1..]);
      } else {
        assert DropLanWan(c)[0] == c[0] && DropLanWan(c)[1..] == DropLanWan(c[1..]);
        assert IsOn(c) <==> IsOn(c[1..]) by {
          assert forall i :: 0 <= i < |c[1..]| ==> c[1..][i] == c[i + 1];
          assert forall i :: 0 < i < |c| ==> c[i] == c[1..][i - 1];
        }
      }
    }
  }

  /** KillSwitch() read back after SetKillSwitch(b) is b, for every firewall. */
  lemma ReadsBack(fw: Package, enabled: bool)
    ensures IsOn(Switched(fw, enabled).staged) == enabled
  {
    if enabled {
      DropLanWanKeeps(fw.staged);
    } else if IsOn(fw.staged) {
      var c := fw.staged + [LAN_WAN];
      assert IsLanWan(c[|fw.staged|]);
    }
  }

  /** Off and on again restores every firewall whose switch was on, section for section. */
  lemma OnAfterOff(fw: Package)
    requires IsOn(fw.staged)
    ensures Switched(Switched(fw, false), true).staged == fw.staged
    ensures fw.committed == fw.staged ==> Switched(Switched(fw, false), true) == fw
  {
    ReadsBack(fw, false);
    DropLanWanAppend(fw.staged, [LAN_WAN]);
    DropLanWanNone(fw.staged);
  }

  /** Off after on forgets how many lan→wan forwardings there were: one is put back, at the end. */
  lemma OffAfterOn(fw: Package)
    requires !IsOn(fw.staged)
    ensures Switched(Switched(fw, true), false).staged == DropLanWan(fw.staged) + [LAN_WAN]
  {
    ReadsBack(fw, true);
  }

  lemma {:induction false} ForwardingsAppend(c: Config, d: Config)
    ensures Forwardings(c + d) == Forwardings(c) + Forwardings(d)
  {
    if c == [] {
      assert c + d == d;
    } else {
      assert (c + d)[1..] == c[1..] + d;
      ForwardingsAppend(c[1..], d);
    }
  }

  /** Sections with a name do not matter to the forwarding list. */
  lemma {:induction false} ForwardingsOfAnonymous(c: Config)
    ensures Forwardings(Anonymous(c)) == Forwardings(c)
  {
    if c != [] {
      ForwardingsOfAnonymous(c[1..]);
      if c[0].name.None? {
        assert Anonymous(c)[1..] == Anonymous(c[1..]);
      } else {
        assert Anonymous(c) == Anonymous(c[1..]);
      }
    }
  }

  lemma {:induction false} DropLanWanForwardings(c: Config)
    ensures Forwardings(DropLanWan(c)) == DropLanWan(Forwardings(c))
  {
    if c != [] {
      DropLanWanForwardings(c[1..]);
      if IsLanWan(c[0]) {
        assert DropLanWan(c) == DropLanWan(c[1..]);
        assert Forwardings(c)[1..] == Forwardings(c[1..]);
      } else {
        assert DropLanWan(c)[1..] == DropLanWan(c[1..]);
        if c[0].name.None? && c[0].kind == "forwarding" {
          assert Forwardings(c)[1..] == Forwardings(c[1..]);
        } else {
          assert Forwardings(c) == Forwardings(c[1..]);
        }
      }
    }
  }

  lemma {:induction false} DropLanWanLookup(c: Config, n: string)
    ensures Lookup(DropLanWan(c), n) == Lookup(c, n)
  {
    if c != [] {
      DropLanWanLookup(c[1..], n);
      var d := DropLanWan(c);
      LookupHead(c, n);
      if IsLanWan(c[0]) {
        assert d == DropLanWan(c[1..]);
      } else {
        assert d[0] == c[0] && d[1..] == DropLanWan(c[1..]);
        LookupHead(d, n);
      }
    }
  }

  lemma AddLanWanLookup(c: Config, n: string)
    ensures Lookup(c + [LAN_WAN], n) == Lookup(c, n)
  {
    var q := PosNamed(c, n);
    PosNamedIs(c + [LAN_WAN], n, if q < |c| then q else |c| + 1);
  }

  lemma {:induction false} OnByForwardings(c: Config)
    ensures IsOn(c) <==> IsOn(Forwardings(c))
  {
    if c != [] {
      OnByForwardings(c[1..]);
      OnByHead(c);
      var f := Forwardings(c);
      if c[0].name.None? && c[0].kind == "forwarding" {
        assert f[1..] == Forwardings(c[1..]);
        OnByHead(f);
      } else {
        assert f == Forwardings(c[1..]);
      }
    }
  }

  lemma OnByHead(c: Config)
    requires c != []
    ensures IsOn(c) <==> !IsLanWan(c[0]) && IsOn(c[1..])
  {
    var rest := c[1..];
    assert forall i :: 0 <= i < |rest| ==> c[i + 1] == rest[i];
    assert forall i :: 0 < i < |c| ==> c[i] == rest[i - 1];
  }

  /** What the switch does to the forwarding list, and that named sections are not its business. */
  lemma SwitchedFrame(fw: Package, enabled: bool)
    ensures var d := Switched(fw, enabled).staged;
            && (forall n :: Lookup(d, n) == Lookup(fw.staged, n))
            && Forwardings(d) == if enabled then DropLanWan(Forwardings(fw.staged))
                                 else if IsOn(Forwardings(fw.staged)) then Forwardings(fw.staged) + [LAN_WAN]
                                 else Forwardings(fw.staged)
  {
    OnByForwardings(fw.staged);
    DropLanWanForwardings(fw.staged);
    ForwardingsAppend(fw.staged, [LAN_WAN]);
    assert Forwardings([LAN_WAN]) == [LAN_WAN];
    forall n
      ensures Lookup(Switched(fw, enabled).staged, n) == Lookup(fw.staged, n)
    {
      DropLanWanLookup(fw.staged, n);
      AddLanWanLookup(fw.staged, n);
    }
    if enabled && IsOn(fw.staged) {
      DropLanWanNone(Forwardings(fw.staged));
    }
  }

  // ---------- Scripts cut short and run again ----------

  lemma {:induction false} CountOn(c: Config)
    ensures LanWanCount(c) == 0 <==> IsOn(c)
  {
    if c != [] {
      CountOn(c[1..]);
      OnByHead(c);
    }
  }

  lemma {:induction false} DropFirstCount(c: Config, k: nat)
    ensures LanWanCount(DropFirst(c, k)) == if k <= LanWanCount(c) then LanWanCount(c) - k else 0
    ensures DropLanWan(DropFirst(c, k)) == DropLanWan(c)
  {
    if c != [] && k > 0 {
      if IsLanWan(c[0]) {
        DropFirstCount(c[1..], k - 1);
      } else {
        DropFirstCount(c[1..], k);
        assert DropFirst(c, k)[1..] == DropFirst(c[1..], k);
      }
    }
  }

  lemma {:induction false} DropFirstAll(c: Config, k: nat)
    ensures k >= LanWanCount(c) ==> DropFirst(c, k) == DropLanWan(c)
    ensures k == 0 ==> DropFirst(c, k) == c
  {
    DropFirstCount(c, k);
    CountOn(DropFirst(c, k));
    if k >= LanWanCount(c) {
      DropLanWanNone(DropFirst(c, k));
    }
  }

  /** Deleting the first lan→wan forwarding that is left deletes the next of the original ones. */
  lemma {:induction false} DropFirstNext(c: Config, k: nat, p: nat)
    requires var d := DropFirst(c, k); p < |d| && IsLanWan(d[p]) && IsOn(d[..p])
    ensures var d := DropFirst(c, k); DropFirst(c, k + 1) == d[..p] + d[p + 1..]
    decreases |c|
  {
    var d := DropFirst(c, k);
    if IsLanWan(c[0]) {
      if k == 0 {
        if p > 0 {
          OnByHead(d[..p]);
        }
        assert d[..0] + d[1..] == c[1..] == DropFirst(c[1..], 0);
      } else {
        DropFirstNext(c[1..], k - 1, p);
      }
    } else {
      var e := DropFirst(c[1..], k);
      assert d == [c[0]] + e;
      assert p > 0;
      OnByHead(d[..p]);
      assert d[..p][1..] == e[..p - 1];
      DropFirstNext(c[1..], k, p - 1);
      assert d[..p] == [c[0]] + e[..p - 1] && d[p + 1..] == e[p..];
      assert DropFirst(c, k + 1) == [c[0]] + DropFirst(c[1..], k + 1);
    }
  }

  /** What a run of the on-script commits: all it has staged, but only if it staged anything itself. */
  lemma CommittedOn(fw: Package)
    ensures IsOn(Switched(fw, true).committed) <==> !IsOn(fw.staged) || IsOn(fw.committed)
  {
    DropLanWanKeeps(fw.staged);
  }

  /**
   The on-script, killed behind its k-th command and then run in full, over n forwardings to delete.
   The report is on every time; but what was deleted is committed exactly if the first run did not
   stop between the last delete and the commit, and the rules are reloaded exactly if it did not stop
   between the last delete and the reload.
   */
  lemma InterruptedOn(fw: Package, k: nat)
    requires fw.committed == fw.staged && !IsOn(fw.staged)
    ensures var n := LanWanCount(fw.staged);
            var p := OnCut(fw, k);
            var q := Switched(p, true);
            && q.staged == DropLanWan(fw.staged) && IsOn(q.staged)
            && (q.committed == q.staged <==> k != n)
            && (IsOn(q.committed) <==> k != n)
            && (OnCutReloads(fw, k) || !IsOn(p.staged) <==> k != n && k != n + 1)
  {
    var p := OnCut(fw, k);
    CountOn(fw.staged);
    CountOn(p.staged);
    DropFirstCount(fw.staged, k);
    DropFirstAll(fw.staged, k);
    DropLanWanKeeps(fw.staged);
  }

  /**
   The off-script, killed behind its k-th command and then run in full: a forwarding without source or
   destination stays behind exactly if it stopped between the add and the second set, and the rest is
   never committed exactly if it stopped right before the commit.
   */
  lemma InterruptedOff(fw: Package, k: nat)
    requires fw.committed == fw.staged && IsOn(fw.staged)
    ensures var p := OffCut(fw, k);
            var q := Switched(p, false);
            && !IsOn(q.staged)
            && q.staged == (if k == 1 || k == 2 then fw.staged + [Written(k)] + [LAN_WAN] else fw.staged + [LAN_WAN])
            && (q.committed == q.staged <==> k != 3)
            && (OffCutReloads(fw, k) || IsOn(p.staged) <==> k != 3 && k != 4)
            && (Switched(q, true).staged == fw.staged <==> k != 1 && k != 2)
  {
    var p := OffCut(fw, k);
    var q := Switched(p, false);
    ReadsBack(p, false);
    if k > 0 {
      assert p.staged[|fw.staged|] == Written(k);
      assert IsOn(p.staged) <==> k < 3 by {
        assert forall i :: 0 <= i < |fw.staged| ==> p.staged[i] == fw.staged[i];
      }
    }
    DropLanWanNone(fw.staged);
    DropLanWanAppend(fw.staged, [LAN_WAN]);
    DropLanWanAppend(fw.staged, [Written(k)]);
    DropLanWanAppend(fw.staged + [Written(k)], [LAN_WAN]);
    assert [LAN_WAN][1..] == [] && [Written(k)][1..] == [];
    assert k == 1 || k == 2 ==> DropLanWan([Written(k)]) == [Written(k)];
    assert |fw.staged + [Written(k)]| == |fw.staged| + 1;
  }
}
