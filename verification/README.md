# MistUI, verified

MistUI is a router daemon: it writes a travel router's configuration through OpenWRT's UCI store and
promises that its protections hold - a kill switch, encrypted DNS with a fail-closed rule, a VPN - also
when a hotel's sign-in page forces it to drop them for a while. This project models the parts of the
daemon that carry those promises and proves what they come to.

Check it with `dafny verify dfyconfig.toml`.

## How the model is built

**The store.** `Uci` is an interpreter for the `uci` commands and the shell scripts the daemon runs:
named sections, anonymous sections addressed by kind and index (`@zone[0]`, `@forwarding[-1]`), list
options, and staged edits that `commit` makes durable. The runner stops at the first error; a *cut*
fails any chosen command without effect, so every theorem about a list stopped early covers every
point where it can stop. `KillSwitch`, `DnsService`, `VpnImport` and `Wifi` are the four compilers from
a request to a command list, each with what its list does to the store and classes that run it. `Live`
adds what each service took over when it was last reloaded. On that, `FirewallView` reads rules, redirects
and zones option by option, and `DnsView`, `VpnView` and `WifiView` say what a successful call comes to in
packets, routes and stations, without the tables the lists are made of.

**Portal mode.** `PortalMode` gives enter, exit, the toggles, the DNS default and the import as lists of
steps. A *fate* says how the world treats each step (does the store write, does the query answer, how
far does a command list get, does the script start, reload and flush); a list whose fates run out is a
daemon that died there. One event is one handler call, one crash or one action of the watch.
`PortalRuns` has the invariants over all runs, `PortalRestore` crash-safe restoration, `PortalPitfalls`
the failures that break a promise, with the exact condition, and `PortalServer` the methods
themselves, proved to do what the lists say. `PortalRace` is the finer view: the watch reads the record,
probes with it in hand and writes it back, with handlers in between. `PortalOutcomes` says where a handler
that ran to its end leaves tunnel, switch, DNS, record, note and packets, without its list of steps.
`PortalWatch` is the timed loop, `PortalWakeup` the interleaving of single store writes and channel
operations.

**The rest.** `WgParser` is the line loop of the wg-quick parser with its index into the growing peer
list, proved equal to a reading by groups; `WgLines` and `WgValid` say the same from the text alone: which
line is refused and why, which lines each field comes from, what is valid. `WgFormat` prints a configuration and shows what survives,
`WgRewrite` what may be edited in a text; `TextToUci` joins text to store. `TtlSet`, `Sessions` and
`AuthFlow` are the timed authentication machine, each of its handlers one step of the log; `RecoveryRace`
takes the recovery login apart into its read and its delete. `Forwarder` is the DNS stub's framing and
header work. `Ouis` and `Identity` are the prefix generator, its decoder and the address built from it.

## What is proved, in short

- **Crash-safe restoration** (`PortalRestore.CrashSafeRestoration`): whatever number of re-enters,
  restarts, crashes inside enter or exit, and exits that could not forget the record lies between, a
  completed exit gives back the firewall outside the DNS sections bit for bit, the forwarding list, the
  DNS state, the other servers, the three port-53 rules, and the fail-closed rule of a switch and DNS that
  were both on; the record is gone and the VPN up. The rule is as it was found in every other case too,
  except for one that stood over DNS with the switch off (`PortalRestore.RuleRestoredExactly`).
- **Fail-closed over all runs** (`PortalRuns.FailClosedAlways`) and the **pause record**
  (`PortalRuns.PauseRecordKept`), with crashes everywhere, failed saves included. The side conditions of
  each step are its `Allowed`, and each has the lemma that says what happens without it: for an enter
  `PortalPitfalls.FirstSaveExactly` and `MissedQueryExactly`, for an exit `ExitRuleExactly`, for the toggles
  `SwitchOnRuleExactly` and `DnsOnRuleExactly`, for the default `PortalRuns.DefaultKeepsExactly`.
- **The watch's write-back** (`PortalRace.HonouredExactly`): over all runs, no probe revives a cancelled
  pause or moves its deadline back if and only if no enter, exit or cancellation stores or drops the record
  between the watch's read of it and its save; runs without that race are runs of `PortalRuns`, so both
  invariants hold in them.
- **Bounded pause** (`PortalWatch.RunPortalWatch`) and **no lost wake-up** (`PortalWakeup.NoLostWakeup`),
  with the other order of save and kick losing one.
- **Command lists**: what each leaves, that failed prefixes leave no residue, and that rerunning
  converges, for imports, DNS and uplink joins; the kill switch's shifting-index loop is a filter.
- **What a call comes to**: after Enable no plain query leaves over the wan, after SetFailClosed the rule
  rejects exactly tcp to port 443 of the resolvers, after an import netifd routes exactly what the peers may
  carry (`DnsView.EnableView`, `DnsView.FailClosedView`, `VpnView.TunnelView`), in the running
  configuration; `PortalOutcomes.FailClosedPackets` has the fail-closed rule so over all runs, and
  `PortalOutcomes.EnterOutcome` the tunnel, the switch and DNS after an enter.
- **Kill-switch packet safety** exactly when the rules shut (`Packets.SafeExactlyWhenShut`).
- **Parsing**: a text parses to a configuration if and only if no line of it has a fault, the configuration
  holds what its lines say, and it is sound (`WgValid.ParsesExactly`); loop equals grouped reading; printing then parsing returns the configuration exactly
  when it is one that can be spelled; any rewriting of a text's spaces, comments, blank lines and key case
  leaves its parse alone (`WgRewrite.RewritingDoesNotMatter`).
- **One-time secrets**: step-ups and challenges are each spent at most once, over all logs. Recovery codes
  are too at handler granularity; between reads and deletes, exactly when no two logins with one code
  overlap (`RecoveryRace.ServesOnceExactly`).
- **Sessions**: the window both ways, and passive checks are invisible.
- **Framing**: the stream's output is the framed answers to its maximal run of queries.
- **Prefixes**: printing and decoding is a round trip; vendor and generic addresses never meet.

## Where the code and its promises part

For each of these there is a lemma with the exact condition under which the promise holds.

- A failed reload is hidden by the kill switch's script, so `SetKillSwitch(true)` can return without error
  while the loaded rules still forward (`Packets.SafeExactlyWhenShut`).
- Enable leaves the forwarder twice if `server` was not a list but the forwarder's address as a plain
  text, and Disable then does not undo Enable (`DnsService.ForwarderOnce`, `DnsService.DisableAfterEnable`).
- `Enabled` looks for a substring: after Disable it reads off if and only if the server list is plain, and
  any entry that merely contains the address keeps it on (`DnsService.DisabledReadsOff`,
  `DnsService.LookAlikeReadsOn`).
- `wwan` is not added to the wan zone if a network such as `wwan-6` is in it (`Wifi.JoinedZoneHasUplink`,
  `Wifi.HyphenKeepsUplinkOut`).
- A vpn zone script killed after it named the zone never adds the forwarding (`VpnImport.InterruptedZoneScript`).
- Only the first 256 prefixes of a vendor's pool can ever be drawn (`Identity.DrawnExactly`).
- The kill switch's scripts do not survive being killed either: the on-script run again reports on but never
  commits what it had deleted if it was killed right after the last delete, and never reloads if right after
  the commit (`KillSwitch.InterruptedOn`); the off-script can leave half a forwarding (`KillSwitch.InterruptedOff`).
- The DNS default never installs the fail-closed rule (`PortalRuns.DefaultKeepsExactly`).
- A fail-closed rule left over with the switch off - an allowed toggle leaves it when the DNS query fails -
  is lost by the next pause although every command succeeds (`PortalPitfalls.LeftoverRuleArises`,
  `PortalPitfalls.LeftoverRuleLost`, `PortalRestore.RuleRestoredExactly`).
- A pause that misses a kill switch that is on, because the query failed, loses the rule
  (`PortalPitfalls.MissedQueryExactly`).
- A pause whose record could not be saved is never undone (`PortalPitfalls.EnterRecordsExactly`,
  `PortalPitfalls.StrandedWithSwitchOff`); an exit drops the record even if the switch did not come
  back (`PortalPitfalls.DirtyExitSwitch`).
- The comment at portalmode.go:136-137 says the user's manual choice stands; a watch that saves a new
  portal URL over a pause cancelled meanwhile brings the pause back, and over one extended meanwhile moves
  its deadline back (`PortalRace.HonouredExactly`, `PortalRace.StaleSave`, `PortalRace.StaleSaveMovesDeadlineBack`).
- A recovery code is single-use, says the comment at authflow.go:323; two overlapping requests with one code
  both get a session, and one that overlaps with a regeneration burns the new code unused
  (`RecoveryRace.ServesOnceExactly`, `RecoveryRace.BurnsOwnExactly`).

## Model

| member | source | states |
|---|---|---|
| Uci.Router.DrainKind | internal/vpn/vpn.go:55 | deleting section 0 of a kind until none is left removes every section of that kind and nothing else |
| Uci.Router.RunCommands | internal/dns/service.go:163-170 | the stop-at-first-error loop leaves the state and verdict of the recursive reading of the list |
| Uci.SectionWritten | internal/dns/service.go:63-84 | a block of sets leaves exactly its table in the section and touches no other section |
| Uci.ConfinedRun | internal/dns/service.go:163-170 | however far a list confined to named sections gets, everything else in the store is untouched |
| Uci.SetsForget | internal/netcfg/wifi.go:104-122 | setting every option two sections may differ in makes them equal |
| Uci.BlockForgotten | internal/dns/service.go:63-84 | a section block that stopped anywhere is forgotten by running it again |
| KillSwitch.UciConnector.FindLanWan | internal/vpn/killswitch.go:22-32 | the index found resolves to an anonymous lan→wan forwarding; none is found exactly when there is none |
| KillSwitch.UciConnector.KillSwitch | internal/vpn/killswitch.go:57-65 | reports on exactly when no anonymous lan→wan forwarding exists |
| KillSwitch.UciConnector.DeleteLanWan | internal/vpn/killswitch.go:27-33 | the delete-one-and-rescan loop over shifting indices terminates and equals the one-pass filter; it commits only if something changed |
| KillSwitch.UciConnector.AddLanWan | internal/vpn/killswitch.go:34-40 | adds one forwarding at the end unless one is there; the reload's status is the script's |
| KillSwitch.UciConnector.SetKillSwitch | internal/vpn/killswitch.go:25-54 | new state and error for every outcome of script, reload and flush, when the script runs to its end |
| KillSwitch.UciConnector.DeleteLanWanCut | internal/vpn/killswitch.go:27-33 | the on-script killed after any command: which forwardings are gone, whether that is committed and reloaded |
| KillSwitch.UciConnector.AddLanWanCut | internal/vpn/killswitch.go:34-40 | the off-script killed after any command |
| KillSwitch.InterruptedOn | internal/vpn/killswitch.go:27-33 | killed after k commands and run again: the report is on; committed unless k is the last delete, reloaded unless k is the last delete or the commit |
| KillSwitch.InterruptedOff | internal/vpn/killswitch.go:34-40 | likewise: half a forwarding stays for good exactly if it was killed before the second set, nothing is committed exactly if right before the commit |
| KillSwitch.CommittedOn | internal/vpn/killswitch.go:27-33 | after the on-script the committed firewall is on if and only if something was staged to delete, or it was on |
| KillSwitch.DropLanWanKeeps | internal/vpn/killswitch.go:27-33 | the filter removes exactly the lan→wan forwardings and keeps the rest |
| KillSwitch.ReadsBack | internal/vpn/killswitch.go:25-65 | KillSwitch() after SetKillSwitch(b) is b, for every firewall |
| KillSwitch.OnAfterOff | internal/vpn/killswitch.go:25-54 | off and on again restores every firewall whose switch was on |
| KillSwitch.OffAfterOn | internal/vpn/killswitch.go:25-54 | on and off again puts one forwarding back at the end, however many there were |
| KillSwitch.SwitchedFrame | internal/vpn/killswitch.go:22-54 | the switch changes the forwarding list only, never a named section |
| Packets.SafeExactlyWhenShut | internal/vpn/killswitch.go:41-53 | after an error-free SetKillSwitch(true), no run of packets leaks exactly when the loaded rules are shut |
| Packets.EngageIsSwitched | internal/vpn/killswitch.go:25-54 | the call the packets see commits and reloads what SetKillSwitch does |
| Packets.EngagedIsSafe | internal/vpn/killswitch.go:45-53 | with the reload done and the flush after it, no run until the switch goes off forwards a direct packet |
| Packets.FlushFirstLeaks | internal/vpn/killswitch.go:45-53 | flushing before the rule change would leak |
| Packets.ClosedStaysClosed | internal/vpn/killswitch.go:45-53 | shut rules and an empty connection table stay so over any run that keeps the switch on |
| DnsService.AllResolverIPs | internal/dns/providers.go:71-77 | the loop returns every provider's addresses in order |
| DnsService.EnableRuns | internal/dns/service.go:54-90 | Enable's list runs through exactly when a dnsmasq section exists, with the stated result |
| DnsService.EnableInstalls | internal/dns/service.go:63-84 | the three port-53 rules are in force after Enable, and the fail-closed rule is left as it was |
| DnsService.DisableRuns | internal/dns/service.go:96-111 | Disable always runs through and drops all four owned sections |
| DnsService.FailClosedRuns | internal/dns/service.go:126-161 | SetFailClosed's list always runs through, with the stated result |
| DnsService.FailClosedInstalls | internal/dns/service.go:126-161 | the rule stands exactly, with the full resolver list, whatever was there; nothing else moved |
| DnsService.ForwarderOnce | internal/dns/service.go:54-62 | other servers kept in order, the forwarder last, and exactly once if and only if `server` was not its bare text |
| DnsService.DisableAfterEnable | internal/dns/service.go:54-111 | Disable undoes Enable on the whole store if and only if `server` was not a bare text |
| DnsService.DisableConverges | internal/dns/service.go:96-111 | any stretch of DNS commands, cut anywhere, then Disable equals Disable alone |
| DnsService.EnableConverges | internal/dns/service.go:54-90 | the same for Enable: dhcp equal, rules in force, foreign sections untouched |
| DnsService.FailClosedConverges | internal/dns/service.go:126-161 | the same for SetFailClosed: the rule is exactly installed or gone |
| DnsService.EnableReruns | internal/dns/service.go:54-90 | Enable stopped anywhere and then run in full is Enable run once, on the whole store, unless `server` was the forwarder as a bare text |
| DnsService.FailClosedReruns | internal/dns/service.go:126-161 | SetFailClosed stopped anywhere and then run in full is SetFailClosed run once, on the whole store |
| DnsService.FailClosedInterrupted | internal/dns/service.go:126-161 | SetFailClosed(true) cut anywhere has installed the rule if only its commit or reload is missing; without a rule before, exactly then |
| DnsService.EnabledIsMembership | internal/dns/service.go:114-121 | the report is list membership if and only if the address is in the list or no entry contains it |
| DnsService.ServersAfterDisable | internal/dns/service.go:96-111 | the list after Disable is the list without the address, or as it was if `server` was a bare text |
| DnsService.DisabledReadsOff | internal/dns/service.go:96-121 | after Disable the report is off if and only if the server list was plain |
| DnsService.LookAlikeReadsOn | internal/dns/service.go:114-121 | any entry that merely contains the address keeps the report on after Disable, whatever else is in the list |
| DnsService.MentionsExactly | internal/dns/service.go:114-121 | an entry is taken for the address exactly if it is the address with anything before and after it |
| DnsView.RuleMeans | internal/dns/service.go:126-150 | the fail-closed rule rejects the router's own tcp to port 443 of a resolver over the wan, and nothing else |
| DnsView.RulesMean | internal/dns/service.go:63-84 | the port-53 rules reject the router's and the lan's tcp and udp to port 53 of the wan, and the redirect takes the lan's |
| DnsView.ResolversAre | internal/dns/providers.go:1-77 | the resolvers' addresses |
| DnsView.EnableView | internal/dns/service.go:54-90 | so in the running firewall after a successful Enable; dnsmasq, restarted, asks only its servers, the forwarder last |
| DnsView.DisableView | internal/dns/service.go:96-111 | after a successful Disable the running firewall has none of the four sections and dnsmasq neither noresolv nor the forwarder, unless `server` was a bare text |
| DnsView.FailClosedView | internal/dns/service.go:126-161 | after a successful SetFailClosed the running firewall rejects exactly those packets, or none |
| DnsService.DnsControl.Enable | internal/dns/service.go:54-90 | the service's call runs that list, and on success leaves its full result |
| DnsService.DnsControl.Disable | internal/dns/service.go:96-111 | likewise |
| DnsService.DnsControl.IsEnabled | internal/dns/service.go:114-121 | some server entry contains the address |
| DnsService.DnsControl.SetFailClosed | internal/dns/service.go:126-161 | the list built by the address loop installs exactly the rule, or removes it |
| VpnImport.Importer.Import | internal/vpn/vpn.go:50-126 | the appended list is the specified one; success leaves the full import |
| VpnImport.ImportRuns | internal/vpn/vpn.go:50-126 | the import of any configuration runs through from any store, with the stated result |
| VpnImport.ImportReadsBack | internal/vpn/vpn.go:50-97 | reading wg0 and its peers back gives the configuration, peers in order, except a port without a host |
| VpnView.TunnelView | internal/vpn/vpn.go:50-97 | netifd then runs a wireguard interface that does not start by itself, with the peers of the configuration in order and exactly their allowed IPs as routes |
| VpnView.ZoneView | internal/vpn/vpn.go:98-118 | the zone made by the import covers wg0, masquerades, clamps, rejects input and forward, accepts output; the lan may forward into it |
| VpnImport.ImportConverges | internal/vpn/vpn.go:50-126 | a failed prefix of one import then a full import equals the second alone |
| VpnImport.ImportsMakeOneZone | internal/vpn/vpn.go:98-118 | any number of imports, cut anywhere, leaves exactly one vpn zone and one more lan→vpn forwarding |
| VpnImport.ImportsKeepKillSwitch | internal/vpn/vpn.go:98-118 | no sequence of imports changes what KillSwitch() reports |
| VpnImport.AttemptsZone | internal/vpn/vpn.go:98-118 | the zone is set up once if any attempt got that far, never otherwise |
| VpnImport.InterruptedZoneScript | internal/vpn/vpn.go:102-115 | a script killed after its k-th command and run again adds the forwarding exactly if it had not named the zone, or was done |
| WgParser.SplitList | internal/vpn/config.go:202-210 | the comma loop gives the trimmed non-empty parts |
| WgParser.ParseConfig | internal/vpn/config.go:57-139 | the line loop with its peer index equals reading the text by section groups and then validating |
| WgParser.ScanIsGrouped | internal/vpn/config.go:62-138 | line by line and group by group give the same configuration or the same error |
| WgLines.RefusedExactly | internal/vpn/config.go:62-138 | the first line whose content and headers before it make it faulty is the one reported, with its own reason; without one the text is read or fails validation |
| WgLines.ReadExactly | internal/vpn/config.go:86-138 | every key line of a parsed text has a key its section knows, so no script hook is dropped; every field holds what its lines say |
| WgLines.LinesAreNumbered | internal/vpn/config.go:62-71 | the lines are those of the text that say something, each with its own number |
| WgValid.KeyIsThirtyTwoBytes | internal/vpn/config.go:188-200 | a key is valid exactly if it is the base64 of 32 bytes |
| WgValid.InRangeMeans | internal/vpn/config.go:153-157 | a number is in range exactly if its value is, with or without sign |
| WgValid.ValidExactly | internal/vpn/config.go:141-185 | validation passes exactly the sound configurations, and names a flaw that is there in all others |
| WgValid.ParsesExactly | internal/vpn/config.go:57-185 | the parser's whole result from the text alone |
| WgFormat.RenderParses | internal/vpn/config.go:57-139 | printing a spellable valid configuration and parsing it returns it |
| WgFormat.ParsedExactlyWhenSpellable | internal/vpn/config.go:57-185 | a configuration is some text's parse if and only if it is valid and spellable |
| WgFormat.EndpointReads | internal/vpn/config.go:123-128 | an endpoint printed with or without brackets splits back into host and port |
| WgFormat.SpaceDoesNotMatter | internal/vpn/config.go:63 | spaces around a line do not change what it says |
| WgFormat.CommentDoesNotMatter | internal/vpn/config.go:63-66 | a comment after a line does not change what it says |
| WgFormat.KeyCaseDoesNotMatter | internal/vpn/config.go:87-92 | neither does the case of the key |
| WgFormat.BlankDoesNotMatter | internal/vpn/config.go:67-69 | nor a blank line anywhere |
| WgRewrite.RewritingDoesNotMatter | internal/vpn/config.go:57-139 | a text rewritten line by line - any changes of padding, trailing comment and key case, blank lines anywhere - parses to the same result |
| WgFormat.SameContentsSameResult | internal/vpn/config.go:57-139 | texts that say the same parse to the same successful result |
| TextToUci.ExportAndReimport | internal/vpn/vpn.go:50-126 | text parsed, imported, read back, printed and parsed again imports to the same store |
| Wifi.JoinRuns | internal/netcfg/wifi.go:93-136 | the join's list leaves the stated store, and only a missing wan zone stops it |
| Wifi.JoinReadsBack | internal/netcfg/wifi.go:93-122 | the station section is exactly the one asked for; an open network has no key left over |
| WifiView.JoinView | internal/netcfg/wifi.go:93-136 | after a successful join the radio runs exactly the station asked for, and the uplink asks for its address by DHCP |
| Wifi.JoinConverges | internal/netcfg/wifi.go:93-136 | any prefix of one join then another equals the second alone on the whole store |
| Wifi.IdentityIsRejoin | internal/netcfg/wifi.go:217-250 | rolling the identity of a joined uplink equals joining again under the new one |
| Wifi.WwanAddedOnce | internal/netcfg/wifi.go:126-131 | over any number of joins wwan is appended to the wan zone at most once |
| Wifi.JoinedZoneHasUplink | internal/netcfg/wifi.go:126-131 | wwan ends up in the zone if and only if it was there or no entry holds it as a word |
| Wifi.HyphenKeepsUplinkOut | internal/netcfg/wifi.go:130 | a network called wwan-6 keeps wwan out |
| Wifi.WiFi.JoinUplink | internal/netcfg/wifi.go:93-136 | the length errors change nothing; otherwise the list runs, and success is the full join |
| Posture.SwitchFacts | internal/vpn/killswitch.go:25-54 | the switch moves one forwarding and no section of encrypted DNS |
| Posture.DnsKeepsSwitch | internal/dns/service.go:54-161 | no stretch of DNS commands moves the kill switch |
| Posture.EnableKeepsRule | internal/dns/service.go:54-90 | Enable, cut anywhere, leaves the fail-closed rule as it was |
| Posture.DisableShort | internal/dns/service.go:96-111 | Disable cut anywhere enables nothing and keeps the rule while the forwarder is in use |
| Posture.ImportKeepsPosture | internal/vpn/vpn.go:50-126 | no import, cut anywhere, moves the switch, dnsmasq or a named firewall section |
| PortalRuns.EnterKeeps | internal/httpapi/portalmode.go:73-102 | enter, cut anywhere and with any command or its save failing, keeps the invariant and continues the record |
| PortalRuns.ExitKeeps | internal/httpapi/portalmode.go:106-134 | so does exit, if one that forgets a pause of both protections got the rule back |
| PortalRuns.SwitchKeeps | internal/httpapi/netops.go:128-155 | turning the switch off keeps the invariant whatever fails; turning it on, when it goes through |
| PortalRuns.DnsOnKeeps | internal/httpapi/dnsops.go:53-66 | turning DNS on keeps it when it goes through |
| PortalRuns.DnsOffKeeps | internal/httpapi/dnsops.go:67-77 | turning DNS off keeps it whatever fails |
| PortalRuns.DefaultKeepsExactly | internal/httpapi/dnsops.go:101-111 | the default keeps it if and only if, without a pause, the switch is off or the rule already stands, and, in one, DNS was saved on |
| PortalRuns.InvAlways | internal/httpapi/portalmode.go:73-145 | the invariant holds in every world a run of allowed events reaches |
| PortalRuns.FailClosedAlways | internal/httpapi/netops.go:138-153 | with no pause on record, switch and DNS on imply the exact rule, in every reachable world |
| PortalRuns.PauseRecordKept | internal/httpapi/portalmode.go:73-99 | while a record is active its start and saved bits never change, its deadline never moves back, and what is on was saved on; a URL save is one event here, see PortalRace |
| PortalRace.RecordAfter | internal/httpapi/portalmode.go:73-145 | every event but the watch's save stores or drops the record exactly when Moves says, and what it stores |
| PortalRace.WriteBackExactly | internal/httpapi/portalmode.go:158-189 | one probe leaves a cancelled pause cancelled and continues a standing one if and only if it saves nothing over a record that moved since its read |
| PortalRace.OnlyNewPortalsSave | internal/httpapi/portalmode.go:185-187 | a probe writes only a captive portal's new URL, and only that field of the record in hand |
| PortalRace.HonouredExactly | internal/httpapi/portalmode.go:73-189 | the same over whole runs: if and only if no enter, exit or cancellation stores or drops the record between a read and its successful URL save |
| PortalRace.UnracedIsCoarse | internal/httpapi/portalmode.go:73-189 | a run without that race is a run of whole events, allowed in both alike |
| PortalRace.UnracedFailClosed | internal/httpapi/portalmode.go:73-189 | so the fail-closed invariant holds in it |
| PortalRace.UnracedRecordKept | internal/httpapi/portalmode.go:73-189 | and the pause record is kept |
| PortalRace.StaleSave | internal/httpapi/portalmode.go:158-189 | the race over a cancelled pause: it is on record again, and the exit it leads to turns the switch back on |
| PortalRace.StaleSaveMovesDeadlineBack | internal/httpapi/portalmode.go:158-189 | the race over a re-entry moves the deadline back |
| PortalRestore.FirstEnter | internal/httpapi/portalmode.go:73-101 | a first enter whose record was saved, cut anywhere, begins a pause relative to what it found |
| PortalRestore.EventsStayIn | internal/httpapi/portalmode.go:73-134 | re-enters, crashes, restarts and unfinished exits stay inside it |
| PortalRestore.ExitRestores | internal/httpapi/portalmode.go:106-134 | from any point of a pause a clean exit restores what the first enter found, the three port-53 rules included |
| PortalRestore.CrashSafeRestoration | internal/httpapi/portalmode.go:73-134 | the two together, over whole runs |
| PortalRestore.RuleRestoredExactly | internal/httpapi/portalmode.go:73-134 | after an enter whose DNS step was not cut short, any pause and a clean exit, the fail-closed rule is as before if and only if DNS was off or the rule stood just when the switch was on; under the invariant: the switch was on, or DNS off, or there was no rule |
| PortalPitfalls.EnterRecordsExactly | internal/httpapi/portalmode.go:58-87 | a record is left if and only if the store took it; without one every later exit does nothing |
| PortalPitfalls.StrandedWithSwitchOff | internal/httpapi/portalmode.go:85-94 | without the save the switch goes off and stays off |
| PortalPitfalls.DirtyExitSwitch | internal/httpapi/portalmode.go:117-133 | a finished exit drops the record; the switch is back if and only if its script ran or it never went off |
| PortalPitfalls.SwitchOnRuleExactly | internal/httpapi/netops.go:137-152 | turning the switch on over DNS: the rule follows if and only if the flush worked, the daemon lived and the query answered |
| PortalPitfalls.DnsOnRuleExactly | internal/httpapi/dnsops.go:53-66 | turning DNS on under the switch: the rule follows if and only if the daemon lived and the query answered |
| PortalPitfalls.FirstSaveExactly | internal/httpapi/portalmode.go:73-85 | saving a first record keeps the invariant if and only if both queries told the truth |
| PortalPitfalls.MissedQueryExactly | internal/httpapi/portalmode.go:73-134 | enter and clean exit keep the invariant if and only if the switch query answered, or the switch was off, or DNS was not paused |
| PortalPitfalls.ExitRuleExactly | internal/httpapi/portalmode.go:117-133 | an exit whose last list is cut short keeps the invariant if and only if that list reached its commit |
| PortalPitfalls.LeftoverRuleArises | internal/httpapi/netops.go:137-152 | turning the switch off with the DNS query failing leaves the rule behind, and is allowed |
| PortalPitfalls.LeftoverRuleLost | internal/httpapi/portalmode.go:73-134 | the next pause loses that rule although every command succeeds |
| PortalOutcomes.EnterOutcome | internal/httpapi/portalmode.go:73-102 | after an enter the tunnel is down if and only if ifdown answered or it was; record, note and kick; if nothing failed, what the record holds is off and the rest as it was |
| PortalOutcomes.SavedBeforeKick | internal/httpapi/portalmode.go:84-101 | an enter that dies on the way has saved its record and has not kicked |
| PortalOutcomes.ExitOutcome | internal/httpapi/portalmode.go:106-134 | after an exit the tunnel is up if and only if a VPN is configured and ifup answered, or it was; record and note |
| PortalOutcomes.SwitchOutcome | internal/httpapi/netops.go:128-155 | a switch request without error: the switch as asked, the pause cancelled with its note, the rule as told exactly if DNS answered that it is on |
| PortalOutcomes.DnsOnOutcome | internal/httpapi/dnsops.go:53-79 | a request to turn DNS on without error: on with its rules, the fail-closed rule exactly if the switch answered that it is on, the choice on file |
| PortalOutcomes.DnsOffOutcome | internal/httpapi/dnsops.go:67-79 | likewise off, and none of its sections left |
| PortalOutcomes.ChoiceStands | internal/httpapi/dnsops.go:75-111 | once the user's choice is on file the default changes nothing, however the run goes on |
| PortalOutcomes.ImportOutcome | internal/vpn/vpn.go:50-126 | a VPN counts as configured once an import went through and was written down, and then the router holds its configuration |
| PortalOutcomes.FailClosedPackets | internal/httpapi/netops.go:138-153 | in every reachable world without a pause, with switch and DNS on, the rule rejects exactly tcp to port 443 of a resolver over the wan |
| PortalOutcomes.RestoredPackets | internal/httpapi/portalmode.go:73-134 | after a pause of DNS and a completed exit, queries to port 53 meet the three rules again |
| PortalServer.Server.Capture | internal/httpapi/portalmode.go:74-84 | the record captured, or the standing one with a new deadline |
| PortalServer.Server.EnterPortalMode | internal/httpapi/portalmode.go:73-102 | the method plays exactly the enter steps |
| PortalServer.Server.ExitPortalMode | internal/httpapi/portalmode.go:106-134 | the method plays exactly the exit steps, and nothing without a record |
| PortalServer.Server.CancelPortalMode | internal/httpapi/portalmode.go:138-145 | drops the record and leaves the note, restoring nothing |
| PortalServer.Server.KickPortalWatch | internal/httpapi/portalmode.go:147-152 | leaves a token, and never blocks on one that is there |
| PortalServer.Server.KillSwitchSet | internal/httpapi/netops.go:128-155 | the handler plays its steps, stopping with an error where they do |
| PortalServer.Server.DnsSet | internal/httpapi/dnsops.go:43-79 | likewise |
| PortalServer.Server.ApplyDnsDefault | internal/httpapi/dnsops.go:101-111 | at most once, and nothing if the user has chosen |
| PortalWatch.PortalScout | internal/httpapi/portalmode.go:201-225 | a pause starts if and only if the first deciding probe, begun inside the window, is captive; the scout outlasts the window by less than one turn |
| PortalWatch.RunPortalWatch | internal/httpapi/portalmode.go:158-196 | from any phase, whatever is cancelled and whatever is saved over a cancellation, 616 seconds after the save an exit has begun or the watch has read that the record is gone; and at which round it does |
| PortalWatch.UndoneExactly | internal/httpapi/portalmode.go:173-189 | a cancellation during a probe is undone exactly by the save of a captive portal's new URL |
| PortalWakeup.NoLostWakeup | internal/httpapi/portalmode.go:84-101 | in every interleaving, once an enter returned with its record still saved, the watch is not asleep without a token |
| PortalWakeup.WakesToRecord | internal/httpapi/portalmode.go:158-168 | from there the watch reaches the record by its own steps |
| PortalWakeup.KickFirstLosesWakeup | internal/httpapi/portalmode.go:84-101 | kicking before saving would lose it |
| TtlSet.TtlSet.Grant | internal/httpapi/authflow.go:46-56 | the clean-up loop and the grant keep the map in step with the history |
| TtlSet.TtlSet.Consume | internal/httpapi/authflow.go:70-76 | succeeds if and only if the last operation on the key was a grant less than the TTL ago |
| TtlSet.SourceFacts | internal/httpapi/authflow.go:46-76 | a success spends an earlier, unexpired, untouched grant of the same key |
| TtlSet.SourceInjective | internal/httpapi/authflow.go:68-76 | no grant is spent twice |
| TtlSet.NeverMoreThanGranted | internal/httpapi/authflow.go:46-76 | successes of a key never outnumber its grants |
| TtlSet.StripKeeps | internal/httpapi/authflow.go:32-34 | events that do not touch the set change no answer |
| Sessions.BytesCut | internal/store/store.go:180-187 | the text before and after the first separator, or not found |
| Sessions.RecordRoundTrip | internal/store/store.go:122-153 | a stored session reads back with both times truncated to seconds |
| Sessions.BumpedRecord | internal/store/store.go:156-171 | a bump keeps the issue time |
| Sessions.Store.GetSession | internal/store/store.go:131-153 | absent, empty or unreadable records are no session |
| Sessions.Store.BumpSession | internal/store/store.go:156-171 | slides the seen time and nothing else, and does not bring a deleted record back |
| Sessions.Store.SessionValid | internal/httpapi/authflow.go:108-123 | the answer and the record left, for every check, in the numbers themselves |
| Sessions.AcceptedIsRecent | internal/httpapi/authflow.go:108-123 | accepted at t implies a login since t-12h and a login or sliding request since t-15min |
| Sessions.InUseIsAccepted | internal/httpapi/authflow.go:108-123 | a session checked within 15min-30s of the last active request, up to 12h-1s, is always accepted |
| Sessions.ThrottleCosts | internal/httpapi/authflow.go:119-121 | the 30 seconds are really lost |
| Sessions.TruncationCosts | internal/store/store.go:122-127 | and so is the second |
| Sessions.PassiveInvisible | internal/httpapi/authflow.go:104-123 | leaving out all passive checks changes no answer |
| AuthFlow.Server.RegisterBegin | internal/httpapi/authflow.go:146-168 | a challenge is issued if and only if the device is unprovisioned or the session live |
| AuthFlow.Server.FinishCeremony | internal/httpapi/authflow.go:289-302 | the challenge is spent whatever becomes of the rest; success if and only if it was good and the rest passed |
| AuthFlow.Server.RegisterFinish | internal/httpapi/authflow.go:175-222 | success if and only if every check and write passed; what a failure half-way leaves; the first registration alone mints and shows a recovery code |
| AuthFlow.Server.LoginFinish | internal/httpapi/authflow.go:253-285 | success if and only if the challenge was good and every check passed |
| AuthFlow.Server.StepUpFinish | internal/httpapi/authflow.go:362-391 | likewise, and only for a live session |
| AuthFlow.Server.LoginRecovery | internal/httpapi/authflow.go:306-333 | at handler granularity: success if and only if the code's hash is stored, burning it first |
| AuthFlow.Server.RequireStepUp | internal/httpapi/authflow.go:395-405 | the handler runs if and only if the session is live and holds an unspent credit |
| AuthFlow.Server.RecoveryRegenerate | internal/httpapi/authflow.go:407-418 | behind a step-up, replaces the stored hash by the new code's |
| AuthFlow.GateSpendsStepUp | internal/httpapi/authflow.go:389-405 | every destructive call goes back to a step-up of the same session less than two minutes before |
| AuthFlow.StepUpsPayOnce | internal/httpapi/authflow.go:389-405 | no step-up pays twice |
| AuthFlow.CeremonySpendsChallenge | internal/httpapi/authflow.go:289-302 | every ceremony that succeeded used a challenge issued less than two minutes before |
| AuthFlow.ChallengesServeOnce | internal/httpapi/authflow.go:289-302 | no challenge serves twice, whatever the ceremony |
| AuthFlow.GateTracesToChallenge | internal/httpapi/authflow.go:362-405 | each destructive call has a challenge of its own, less than four minutes old |
| AuthFlow.RecoverySpendsMint | internal/httpapi/authflow.go:306-333 | at handler granularity: every recovery login used the last code minted before it, not burnt since |
| AuthFlow.MintsServeOnce | internal/httpapi/authflow.go:323-327 | at handler granularity: no code logs in twice |
| AuthFlow.RegeneratedKillsEarlier | internal/httpapi/authflow.go:407-418 | at handler granularity: after a new code only it, or a later one, can log in |
| RecoveryRace.Recovery.Mint | internal/httpapi/authflow.go:407-418 | stores the new code's hash; logins in flight stay in flight |
| RecoveryRace.Recovery.Match | internal/httpapi/authflow.go:306-322 | the read and comparison of a login |
| RecoveryRace.Recovery.Finish | internal/httpapi/authflow.go:323-333 | its delete, which also succeeds when the hash is gone, and the session |
| RecoveryRace.SameCodeOverlaps | internal/httpapi/authflow.go:306-333 | two logins with one code both read the hash before either deleted it |
| RecoveryRace.ServesOnceExactly | internal/httpapi/authflow.go:306-333 | a code, minted only once, logs in at most once if and only if no two of its logins overlap so |
| RecoveryRace.OldCodeReadEarly | internal/httpapi/authflow.go:306-418 | a login with an older code after a new one was minted had read the hash before |
| RecoveryRace.BurnsOwnExactly | internal/httpapi/authflow.go:306-418 | every login burns the code it showed if and only if nothing moved the hash between its read and its delete |
| RecoveryRace.UnracedIsAtomic | internal/httpapi/authflow.go:306-333 | and then the log is one of the handler-granular machine |
| RecoveryRace.TwoLoginsOneCode | internal/httpapi/authflow.go:306-333 | a run in which one code logs in twice |
| RecoveryRace.NewCodeBurntUnused | internal/httpapi/authflow.go:306-418 | a run in which a new code is burnt by a login with the old one |
| Forwarder.ServfailMeans | internal/dns/forwarder.go:280-285 | keeps ID, opcode, RD, RA bits and question; sets QR and RCODE 2; clears AA and TC |
| Forwarder.Servfail | internal/dns/forwarder.go:280-285 | the copy-and-overwrite computes that response |
| Forwarder.AnswerMeans | internal/dns/forwarder.go:231-276 | a whole header is answered by the upstream's message, up to 65535 bytes, exactly if that came whole with status 200 and 12 bytes, and by a SERVFAIL of its own otherwise |
| Forwarder.AnswerFits | internal/dns/forwarder.go:231-276 | an answer exists exactly for queries with a header, and has 12 to 65535 bytes |
| Forwarder.DeframeSplits | internal/dns/forwarder.go:205-217 | the queries read are the longest run of framed messages, and nothing of the stream is lost |
| Forwarder.StreamDeframes | internal/dns/forwarder.go:210-223 | framing is unambiguous, whatever follows |
| Forwarder.Stub.Handle | internal/dns/forwarder.go:231-247 | the answer, with every query and every failure counted |
| Forwarder.Stub.ServeConn | internal/dns/forwarder.go:202-227 | writes the framed answers to the maximal run of well-formed queries, in order, a prefix if a write fails |
| Forwarder.PeerReadsAnswers | internal/dns/forwarder.go:202-227 | the peer reads back exactly one answer per query, in order |
| Ouis.Collect | internal/netcfg/gen/gen_ouis.go:49-71 | the pool is exactly the kept rows' prefixes of the vendor |
| Ouis.KeepsMeans | internal/netcfg/gen/gen_ouis.go:49-62 | kept are MA-L rows of six hex digits whose first octet has its two low bits clear |
| Ouis.SortedKeys | internal/netcfg/gen/gen_ouis.go:86-90 | ascending, with exactly the pool's elements |
| Ouis.Emit | internal/netcfg/gen/gen_ouis.go:93-101 | lines of 96 characters, the last perhaps shorter, whose concatenation is the text, and which split no prefix |
| Ouis.Generate | internal/netcfg/gen/gen_ouis.go:85-102 | what is printed decodes to the sorted kept prefixes |
| Ouis.Decode | internal/netcfg/identity.go:14-24 | the array loop groups the decoded bytes by three, or panics on corrupt data |
| Ouis.PrintedDecodes | internal/netcfg/identity.go:14-24 | decoding printed prefixes gives exactly those, in order |
| Ouis.PoolIsOrdered | internal/netcfg/gen/gen_ouis.go:61-90 | the decoded pool strictly increases as numbers and is global and unicast throughout |
| Identity.ProfileByKey | internal/netcfg/identity.go:106-113 | the first profile of that key, else the generic one |
| Identity.GenerateIdentity | internal/netcfg/identity.go:118-140 | address text, host name and key are those the profile and the eight bytes give |
| Identity.MacForm | internal/netcfg/identity.go:138 | an address is six pairs of lower-case hex digits between colons |
| Identity.DrawnExactly | internal/netcfg/identity.go:126-134 | a prefix can be drawn if and only if it is among the first 256 of its pool |
| Identity.GenericIsLocal | internal/netcfg/identity.go:129-130 | generic addresses are local and unicast, with the other bits as drawn |
| Identity.VendorIsGlobal | internal/netcfg/identity.go:131-137 | vendor addresses start with a prefix of the pool and carry a name of the same vendor |
| Identity.FamiliesDisjoint | internal/netcfg/identity.go:118-140 | no vendor address is a generic one, even as text |
| Identity.GeneratedPoolsAreReal | internal/netcfg/identity.go:54-79 | pools decoded from the generator's output are global and unicast, whatever the registry held |

## Left out

- Granularity of handlers: a handler is one event (crashes cut it anywhere); the watch's read, probe and write-back (`PortalRace`), the recovery login's read and delete (`RecoveryRace`) and the wake-up's single operations (`PortalWakeup`) are the interleavings studied, other handlers do not overlap.
- Scripts: in runs one `sh -c` argument runs whole or not at all; the import's zone script and the kill switch's two scripts are studied cut short on their own.
- PortalRuns.PauseRecordKept: the watch's URL save is one event on the record on file; `PortalRace` says when it is that in the code.
- PortalRuns.SwitchKeeps: a toggle runs its script whole or not at all, see `KillSwitch.InterruptedOn` and `KillSwitch.InterruptedOff`.
- AuthFlow.MintsServeOnce: a recovery login is one entry of the log; `RecoveryRace` says when that is so in the code.
- UCI: setting an option to an empty text deletes it, `del_list` acts on lists only and drops an emptied list, section names are unique in a package, and the kill switch's scripts see anonymous forwardings only.
- fw4 and netifd: a section with an option the views do not know is not read at all; other sections may accept a packet first; zones take effect when their interface comes up, so the import's zone is read in the committed firewall.
- DnsView.EnableView: the daemon's own sections hold no foreign options to begin with; every event then keeps it so.
- Durability: a crash is one of the daemon; power loss between staging and commit is not modelled.
- Clocks: never run backwards, also across restarts, and in `PortalRace` two enters never share an instant; the record's times keep their full precision.
- Store reads: succeed; writes may fail where the handlers look past the error.
- PortalRuns.InvAlways: the first world's server list is plain - no entry merely contains the forwarder's address - and every step then keeps it so.
- PortalRestore.CrashSafeRestoration: likewise, and the first enter's two posture queries answer unless there is nothing on to be missed.
- PortalWatch.RunPortalWatch: reading the store takes no time and probes keep to their deadline; a scout that finds the portal while a pause is on record would re-enter and is excluded.
- Wifi.WiFi.JoinUplink: SSID and password lengths are taken over texts of single bytes; `grep -w` is read on one entry at a time.
- DnsService.EnabledIsMembership: `grep -F` is read on one server entry at a time.
- WgParser.ParseConfig: `net.ParseCIDR` and `net.ParseIP` are parameters, and lower-casing is ASCII.
- AuthFlow.Server.RequireStepUp: whether the session is live is an input, answered by the `Sessions` module; signatures, credentials and fresh tokens are outcomes, and the hash is an injective constructor.
- Sessions.RecordRoundTrip: RFC 3339 is replaced by decimal seconds, another text without the separator.
- Forwarder.Stub.ServeConn: deadlines and sockets are left out; a connection is what the peer sends and how many writes succeed.
- Ouis.Collect: the name patterns are a function from organization to vendor, and the registry download is its rows.
- Identity.GenerateIdentity: the random bytes are an input, and nothing is claimed about how evenly a pool is drawn.
- Summary, SetAP, Scan, Status, dnsProviderSet, the MAC schedule and its loop, profile and provider listings: they would add only easy members.
- pinEndpoints: its lookups are the network's.
- Forwarder statistics, UDP serving, DoH client, firmware and reset handlers, certificates, HTTP routing and the browser application.
