# What this project proves

The repository is the agent of a service mesh: it programs the host's packet filter so that traffic goes
through a local proxy, and it is that proxy. The project models its most intricate parts in Dafny and proves
what they promise, for every configuration, packet, input or run.

**The packet filter** (`Netfilter`, `Commands`, `Builder`, `Capture`, `Configurator`, `DnsRules`, `Cleaner`
and the theorems on top of them). The configurator turns a configuration into rules; the builder records
them, weaves in logging rules when tracing is on, and renders them as single commands or as one restore file;
the cleaner takes them away again. The configurator, the builder, the DNS rule applier and the cleaner are
classes whose methods are proved against a specification in typed rules. A firewall is a map from chains to
lists of rules with a first-match evaluator (jumps, returns, redirects, logging) and an interpreter for `-N`,
`-A`, `-I`, `-D`, `-F` and `-X` and for restore files. Proved about them:

- the script never fails, and exactly which configurations are the exception (`LoggedNames.ScriptNeverFails`);
- every packet goes where the configuration says, carries the marks it says and is in the conntrack zone it says,
  outgoing and arriving, in both interception modes. `Intent` says what that is in the fields of the
  configuration and in tests of the packet alone, and `Promises.OutgoingKept`, `CapturedKept`, `ArrivingKept`,
  `MarksKept` and `ZonesKept` are about whatever is read from a configuration;
- in between these are proved for anything a run may have read: the verdicts of the nat and mangle chains
  (`CaptureTheorems.VerdictExactly`, `CapturedExactly`, `Inbound.ArrivalsExactly`, `CapturedInExactly`), the marks
  (`Marks.MarksExactly`) and the zones (`Zones.ZonesExactly`);
- the proxy's own traffic is never caught in a loop, and exactly which configurations are the exception
  (`CaptureTheorems.OwnedNeverCaptured`, `Loops.LoopsExactly`);
- tracing changes nothing for any packet (`Tracing.TracingTransparent`), and a traced rule logs exactly the packets
  it matches (`Tracing.AppendReports`);
- both renderings give the same firewall, and exactly for which recorded values (`RestoreQuoted.AgreeExactly`,
  `EquivalentExactly`);
- the cleaner undoes the configurator, and exactly for which configurations
  (`UninstallTheorems.UninstallUndoes`);
- all of this holds for the restore file, the default form, as it does for single commands, when no setting has a
  blank or a quote (`RestoredRuns.FileNeverFails`, `FileVerdict`, `FileArrivals`, `FileKept`, `FileLoops`,
  `FileUndone`).

**Smooth weighted round robin** (`WeightedRoundRobin`): exact fairness, and the return to the start after a
period.

**Byte-level parsers**: the server name of a TLS ClientHello (`ClientHello`), the relay of chunked bodies
(`ChunkedBody`) against the whole grammar of section 7.1 of RFC 9112 (`ChunkGrammar`, `ChunkedFraming`), the token
scan of header values (`HeaderToken`), over the readers and writers of `Streams`.

**State machines**, at the grain of what one lock protects: the UDP session table with its reply goroutines
(`UdpSessions`), the connection pool (`ConnectionPool`), the credential cache (`CredentialCache`), the leaf
certificates (`LeafCache`), and the domain policy with its cache file (`DomainPolicy`, `PolicyManager`). In
each, a class does what the source's object does, its methods are shown to be runs of an event system, and
the invariants are proved over every run of that system.

**The option string of log levels** (`LogLevels`): what is set is read back, and nothing else changes.

## What turned out not to hold

Each of these is a lemma, with the exact condition where there is one.

- A traced rule that tests for a value spelled `-j` gets a logging rule cut at that value, which iptables
  does not read. The script fails exactly then (`LoggedNames.ScriptNeverFails`).
- Traffic of the proxy to itself through `lo` is redirected to the inbound capture port. If that port is also
  the proxy port or the DNS port, there is a proxy user or group, no excluded interface stands for `lo` and some
  port is not excluded, it loops; otherwise never. With DNS redirection port 53 only counts when there is a group
  (`Loops.LoopsExactly`; `CaptureTheorems.OwnedLoopsExactly` packet by packet).
- Where loopback is skipped, the rules of the first owner settle all loopback traffic: the redirects that send
  a later owner's packets back to the inbound capture port are never reached
  (`CaptureTheorems.LaterOwnersUnreached`).
- The tunnel port is exempt from inbound capture in the nat table only; in TPROXY mode it is captured like any
  other port (`Inbound.CapturedInExactly`).
- Answers from a DNS server are in the zone of the upstream requests only while all DNS is captured. Where servers
  are listed the rule tests the destination of the answer for the server, not its source, so exactly packets from
  port 53 to a listed server are in that zone (`Promises.AnswersZonedExactly`).
- The logging prefix is recorded in quotes. The single commands pass the quotes on and the restore file does
  not, so with tracing the two firewalls differ in that prefix, and only in that (`RestoreQuoted.AgreeExactly`,
  `EquivalentExactly`).
- A value with a blank or a quote does not come back from the restore file as it was written
  (`Restore.WordsExactly`), nor does one with a line break, which ends the line. A port list such as `80, 443`
  records one: the file, if it can be read at all, then leaves another firewall than the single commands do.
  For all values the two firewalls agree exactly when every recorded token is plain and nothing is traced
  (`RestoreQuoted.AgreeExactly`), and up to logging rules exactly when every token is plain (`EquivalentExactly`).
- An insertion below the head of a chain counts logging rules: of all positions only the head keeps chains that
  differ in logging rules so (`Tracing.HeadInsertsExactly`, `DeeperInsertsDiffer`). The run's own deeper
  insertions are transparent: they are not traced, and each goes right behind the one before it at the head.
- The cleaner leaves rules behind unless the mode is REDIRECT, no interface is excluded or KubeVirt, invalid
  packets are not dropped and nothing is traced (`UninstallTheorems.UninstallUndoes`).
- The chunk parser takes a sign: any negative size copies no data and then two bytes
  (`ChunkedBody.NegativeChunk`; `-5` is one, `MinusFiveTaken`). It also takes white space around a size, a bare line
  feed, any two bytes after the data, and any bytes as extensions or trailer lines, which it passes on as they are
  (`ChunkedFraming.FramedPassedOn`). A relay that succeeds has passed on a body of section 7.1 of RFC 9112 exactly
  when there was none of these but extensions and field lines of that grammar
  (`ChunkedFraming.RelaysWellFormedExactly`).
- The chunk parser refuses a legal body exactly when a size line has white space before its semicolon, which
  section 7.1.1 allows, or a size beyond 64 bits (`ChunkedFraming.BodyRelayedExactly`; `SizeLineExactly` line by line).
- A token that starts with a capital letter is missed even where it is present (`HeaderToken.CapitalMissed`,
  `ScanCorrectExactly`); the documentation of the function excludes such tokens.
- Setting the default log scope reads back exactly when that scope is named at most once
  (`LogLevels.DefaultExactly`).
- Two hosts can share a cache key exactly when one continues the other after a colon
  (`CredentialCache.HostsCollideExactly`).
- A lookup that hits while a rotation is visiting the cache may serve a leaf of the old authority, and only one that
  is still to be visited (`LeafCache.CertStore.GetCertificate`).
- A leaf that is signed before a rotation and stored after it stays in the cache under the old authority
  (`LeafCache.OverlapServesOld`). Every state of a run is current exactly when no leaf is being made whenever the
  primary authority changes (`LeafCache.CurrentExactly`).
- A reply goroutine that closes its session closes whatever session has the key: another goroutine's exactly when
  the key is taken and not by its own session (`UdpSessions.ClosesAnotherExactly`, `StaleClose`).
- Putting back a connection keeps the pool's accounts exactly if it is open and not idle already
  (`ConnectionPool.PutExactly`), and closing one exactly if it is open (`CloseExactly`).

## How to read the model

- A packet is the set of tests it passes, so a theorem for all packets needs no assumption about addresses or
  owners. The evaluator follows jumps to a bounded depth; the theorems hold for every depth of at least two,
  the depth of the chains installed.
- `Headers` turns header fields into such a packet: a port test is a number or a range, an interface test a name
  or a prefix with `+`. `Loops` is about these packets, so its loops are loops of packets that can occur.
- Values from the configuration (ports, addresses, users) are taken as iptables takes words: any string, and
  the parser of arguments reads what the builder writes. `net.ParseCIDR` is a parameter.
- `Treated` is what a chain does to a packet: a verdict or none, and the packet as it then is, with its marks. A
  packet's zone is given by the first CT rule it comes to, as the kernel ignores later ones.
- Theorems about a host start from any firewall that has the built-in chains and none of the mesh's chains.
  `Closed` adds that every rule's target exists, as the kernel guarantees.
- The source panics when the ranges to exclude are `*`; the model's `Run` returns false there.
- The suffix of a DNS server's address is added once, when the configuration is read.
- In delete mode the DNS rule applier ignores the family, so every rule for both families is deleted twice
  with each command; the model does the same.
- Some loops of the source are split into a method for the loop and one for its body.
- In `CredentialCache` a fetch is dated when its result is stamped, right after it returned.

## Model

| member | source | states |
|---|---|---|
| `Text.FilterEmpty` | iptables/pkg/config/types.go:28-37 | keeps the non-empty pieces, in order, and no empty one |
| `Text.FieldsOfJoin` | iptables/pkg/config/types.go:21-26 | values written with commas between them are read as these values |
| `Builder.FindIndex` | iptables/pkg/builder/iptables_builder_impl.go:100-107 | the first index of the element, or -1 exactly when it is absent |
| `Builder.IptablesBuilder.Replaced` | iptables/pkg/builder/iptables_builder_impl.go:234-244 | the loop replaces every placeholder by the address and leaves every other token in its place |
| `Builder.ReplaceRule` | iptables/pkg/builder/iptables_builder_impl.go:229-244 | replacing the placeholder in the tokens of a rule is replacing it in the rule |
| `Builder.IptablesBuilder.InsertInternal` | iptables/pkg/builder/iptables_builder_impl.go:65-87 | records the insertion and, when traced, after it an insertion of the logging rule at the same position |
| `Builder.IptablesBuilder.AppendInternal` | iptables/pkg/builder/iptables_builder_impl.go:109-130 | records the append and, when traced, before it an append of the logging rule |
| `Builder.IptablesBuilder.AppendRule` | iptables/pkg/builder/iptables_builder_impl.go:132-147 | one more call for both families; with IPv6 off nothing is recorded for it |
| `Builder.IptablesBuilder.InsertRule` | iptables/pkg/builder/iptables_builder_impl.go:59-63 | one more call at the position, for both families |
| `Builder.IptablesBuilder.InsertRuleV6` | iptables/pkg/builder/iptables_builder_impl.go:93-98 | one more IPv6 call, and no IPv4 one |
| `Builder.IptablesBuilder.AppendVersionedRule` | iptables/pkg/builder/iptables_builder_impl.go:229-232 | each family gets the rule with its own address in place of the placeholder |
| `Builder.NewChainsStep` | iptables/pkg/builder/iptables_builder_impl.go:151-163 | a user chain is created at its first mention and never again, a built-in chain never |
| `Builder.IptablesBuilder.BuildRules` | iptables/pkg/builder/iptables_builder_impl.go:149-169 | every user chain's creation first, each once, then the recorded rules in order |
| `Builder.IptablesBuilder.ChainTexts` | iptables/pkg/builder/iptables_builder_impl.go:200-211 | the map holds for each table the creations of its user chains, in order |
| `Builder.TableMapCorrect` | iptables/pkg/builder/iptables_builder_impl.go:193-217 | the two passes leave for each table the creations of its chains followed by its rules, and no other table |
| `Builder.IptablesBuilder.ConstructRestoreContents` | iptables/pkg/builder/iptables_builder_impl.go:179-191 | one block for each table that has text, in the order the map is walked |
| `Builder.IptablesBuilder.BuildRestore` | iptables/pkg/builder/iptables_builder_impl.go:193-217 | the restore lines of the recorded rules for some order of the tables |
| `CallScripts.CallDenotes` | iptables/pkg/builder/iptables_builder_impl.go:65-87 | what is recorded for a call, read as iptables reads it, is the rule and its logging rule in the right order |
| `CallScripts.BuildDenotes` | iptables/pkg/builder/iptables_builder_impl.go:149-169 | the built lines, read as iptables reads them, create the chains and then add the rules |
| `RuleShapes.CombineGroupMatchers` | iptables/pkg/capture/util.go:17-24 | the tokens of all the owner tests, one after the other |
| `Configurator.IptablesConfigurator.SeparateV4V6` | iptables/pkg/capture/run.go:75-103 | the ranges of each family in order, unreadable ones dropped, with the loopback and wildcard flags |
| `Configurator.IptablesConfigurator.ShortCircuitExcludeInterfaces` | iptables/pkg/capture/run.go:226-240 | records the returns of excluded interfaces in nat and, in TPROXY mode, in mangle, for both families |
| `Configurator.IptablesConfigurator.ShortCircuitKubeInternalInterface` | iptables/pkg/capture/run.go:220-224 | records one insertion at the head of nat PREROUTING for each KubeVirt interface |
| `Configurator.IptablesConfigurator.CreateDivertChains` | iptables/pkg/capture/run.go:136-149 | records the marking, accepting and TPROXY rules with each family's loopback address |
| `Configurator.IptablesConfigurator.HandleInboundPortsInclude` | iptables/pkg/capture/run.go:124-191 | records the inbound chain of the mode: exclusions and the rest for `*`, otherwise the listed ports |
| `Configurator.IptablesConfigurator.ReturnProxyUids` | iptables/pkg/capture/run.go:384-426 | for each user the redirect back to itself, the loopback return unless loopback is included, and the return |
| `Configurator.IptablesConfigurator.ReturnProxyGids` | iptables/pkg/capture/run.go:428-458 | the same for each group, without exempting port 53 from the first rule |
| `Configurator.IptablesConfigurator.HandleCaptureByOwnerGroup` | iptables/pkg/capture/run.go:733-746 | one return for each excluded group, or one return for packets of none of the included groups |
| `Configurator.IptablesConfigurator.RedirectTcpDns` | iptables/pkg/capture/run.go:464-501 | the TCP DNS redirects: all of port 53, or one for each server in its family |
| `Configurator.IptablesConfigurator.HandleOutboundPortsInclude` | iptables/pkg/capture/run.go:724-731 | one redirect for each included port |
| `Configurator.IptablesConfigurator.HandleOutboundIncludeRules` | iptables/pkg/capture/run.go:193-218 | the wildcard redirect, or the redirects of the ranges and the final return, with the KubeVirt insertions among them |
| `Configurator.IptablesConfigurator.FillOutputChain` | iptables/pkg/capture/run.go:371-516 | the whole outbound chain before the included ranges, segment by segment in the source's order |
| `Configurator.IptablesConfigurator.AppendMarkRules` | iptables/pkg/capture/run.go:529-552 | the mark rules of TPROXY mode, in order, for every user and group |
| `Configurator.IptablesConfigurator.InsertInboundReturns` | iptables/pkg/capture/run.go:553-563 | the untraced insertions at positions 1, 2 and 3 of the mangle inbound chain |
| `Configurator.IptablesConfigurator.ExecuteCommands` | iptables/pkg/capture/run.go:805-826 | runs exactly what was recorded, as single commands or as restore files, IPv4 first |
| `Configurator.IptablesConfigurator.Configure` | iptables/pkg/capture/run.go:318-566 | fails exactly on `*` as excluded ranges, and otherwise runs the entries of all phases of the configuration for both families |
| `Configurator.IptablesConfigurator.Run` | iptables/pkg/capture/run.go:309-566 | does that and then, even when it failed, takes the listings of both families that IPv6 calls for |
| `DnsRules.UDPRuleApplier.RunOne` | iptables/pkg/capture/run.go:577-597 | one more rule applied: recorded for its family, or attempted as a deletion with the applier's command |
| `DnsRules.UDPRuleApplier.AddConntrackZoneDNSUDP` | iptables/pkg/capture/run.go:677-722 | applies the zone rules of users, groups and servers, in order |
| `DnsRules.UDPRuleApplier.HandleDNSUDP` | iptables/pkg/capture/run.go:616-671 | applies all UDP DNS rules in order, the same when installing and when deleting |
| `NeverFails.RunCreates` | iptables/pkg/builder/iptables_builder_impl.go:149-163 | a run creates exactly the user chains it needs, each once, traced or not |
| `NeverFails.RunInsertsFit` | iptables/pkg/capture/run.go:554-563 | no insertion of a run falls beyond the end of its chain, whatever the chain held, traced or not |
| `NeverFails.RunSucceeds` | iptables/pkg/capture/run.go:309-566 | on every host all commands of a run succeed exactly when the family is off or its logging rules are readable |
| `NeverFails.CallsInstallable` | iptables/pkg/capture/run.go:338-566 | every jump of a run has its target in the same table, and every rule reads back |
| `LoggedNames.ReadableExactly` | iptables/pkg/builder/iptables_builder_impl.go:72-85 | the logging rules are readable exactly when tracing is off or no name they test for is `-j` |
| `LoggedNames.ScriptNeverFails` | iptables/pkg/capture/run.go:309-566 | for every host, configuration and family the script succeeds, except exactly when a traced name is spelled `-j` |
| `Tracing.EvalErased` | iptables/pkg/builder/iptables_builder_impl.go:72-86 | no packet can tell a firewall from the one without its logging rules |
| `Tracing.CallsErased` | iptables/pkg/builder/iptables_builder_impl.go:65-130 | any appends and head insertions leave every chain the same up to logging rules, traced or not |
| `Tracing.HeadInsertsExactly` | iptables/pkg/builder/iptables_builder_impl.go:65-87 | inserting at a position keeps any two chains that differ only in logging rules so exactly when the position is the head |
| `Tracing.DeeperInsertsDiffer` | iptables/pkg/builder/iptables_builder_impl.go:65-87 | an insertion at position 2 after a traced append lands before the rule it would come after without tracing |
| `Tracing.CallsRetraced` | iptables/pkg/capture/run.go:338-564 | which calls a run makes does not depend on tracing |
| `Tracing.TracingTransparent` | iptables/pkg/builder/iptables_builder_impl.go:65-130 | erasing the logging rules from the traced firewall gives the untraced one, and both do the same to every packet in every chain |
| `Tracing.AppendReports` | iptables/pkg/builder/iptables_builder_impl.go:109-130 | what a traced append adds logs exactly the packets its rule matches, under the quoted name of its command |
| `Contents.AppendedChain` | iptables/pkg/capture/run.go:338-566 | a chain the run only appends to holds its old rules followed by what the phases add, in order |
| `Contents.OutputContent` | iptables/pkg/capture/run.go:226-235 | nat OUTPUT gets the excluded interfaces, then the jump, then the UDP DNS rules |
| `Contents.IstioOutputContent` | iptables/pkg/capture/run.go:371-519 | the outbound chain is the eight segments followed by the included ranges |
| `Contents.RedirectContents` | iptables/pkg/capture/run.go:357-364 | each redirect chain holds one rule, to the proxy port and to the inbound capture port |
| `Outbound.ProxyRulesOutcome` | iptables/pkg/capture/run.go:384-426 | one owner's rules send a TCP packet back, let it through or pass it on, and exactly which |
| `Outbound.OwnersOutcome` | iptables/pkg/capture/run.go:384-458 | any list of users or groups does to any TCP packet what the owners do one after the other |
| `Outbound.OwnersDecide` | iptables/pkg/capture/run.go:384-458 | together the first owner settles all skipped loopback traffic, and other packets are settled by the first owner that has to do with them |
| `Outbound.OwnerGroupsOutcome` | iptables/pkg/capture/run.go:733-746 | a packet gets past the group rules exactly when its group passes the filter |
| `Outbound.TcpDnsOutcome` | iptables/pkg/capture/run.go:464-501 | exactly TCP packets to port 53 of a captured server go to the DNS port |
| `Outbound.IstioOutputOutcome` | iptables/pkg/capture/run.go:371-519 | the outbound chain gives every TCP packet, through whatever interface, the verdict of the configuration |
| `Traffic.InterfacesOutcome` | iptables/pkg/capture/run.go:226-240 | exactly packets out of, or from, an excluded interface return at once, in each chain that has such rules |
| `Traffic.UdpOutcome` | iptables/pkg/capture/run.go:616-668 | the UDP DNS rules redirect exactly port 53 of captured servers for packets of neither the proxy nor a filtered group |
| `Traffic.HostStillPasses` | iptables/pkg/capture/run.go:309-566 | in every chain the host's own rules treat a packet after the installation as before |
| `CaptureTheorems.VerdictExactly` | iptables/pkg/capture/run.go:338-527 | nat OUTPUT gives every packet exactly the verdict of the configuration, whatever its interface, address and sender, traced or not |
| `CaptureTheorems.CaptureCorrect` | iptables/pkg/capture/run.go:371-527 | for a packet leaving off the loopback, on no excluded interface, that is the verdict in plain words, with or without DNS redirection |
| `CaptureTheorems.CapturedExactly` | iptables/pkg/capture/run.go:371-519 | without DNS redirection an unowned TCP packet goes to the proxy port exactly when its port is not excluded, its group passes, its range is not excluded, and its port or range is included |
| `CaptureTheorems.OwnedNeverCaptured` | iptables/pkg/capture/run.go:371-501 | a packet of any proxy user or group is let through, or is TCP back to itself through lo and goes to the inbound capture port |
| `CaptureTheorems.OwnedLoopsExactly` | iptables/pkg/capture/run.go:357-458 | a packet of the proxy goes to the proxy or DNS port exactly when the owners' rules send it back and the capture port is one of the two |
| `CaptureTheorems.FirstOwnerTurnsBack` | iptables/pkg/capture/run.go:384-458 | every TCP packet of the first owner out of lo to another address and to no excluded port goes to the inbound capture port, a user's DNS requests and the passthrough cluster excepted |
| `CaptureTheorems.LaterOwnersUnreached` | iptables/pkg/capture/run.go:384-458 | with loopback skipped whatever the first owner does not send back is let through, a later owner's packets included |
| `Loops.LoopsExactly` | iptables/pkg/capture/run.go:357-458 | some packet of the proxy loops exactly when the capture port is the proxy or DNS port, there is an owner, no excluded interface stands for lo, and some port is neither excluded nor spared |
| `InboundContents.EndsOnChain` | iptables/pkg/builder/iptables_builder_impl.go:59-87 | a chain with insertions at its head holds these, the last one first, then its old rules, then the appended ones |
| `InboundContents.ArrivingInstalled` | iptables/pkg/capture/run.go:193-240 | nat PREROUTING holds the virtual machine redirects, their returns, the host's rules, the excluded interfaces and the jump, in that order |
| `InboundContents.MangleInbound` | iptables/pkg/capture/run.go:124-191 | the mangle inbound chain holds the three returns inserted last, in order, and then the rules of the ports |
| `Inbound.NatInboundOutcome` | iptables/pkg/capture/run.go:124-191 | the nat inbound chain redirects exactly the captured ports but the tunnel port |
| `Inbound.MangleInboundOutcome` | iptables/pkg/capture/run.go:124-191 | the mangle inbound chain spares marked and looped back packets, accepts established connections and diverts new ones to captured ports |
| `Inbound.ArrivalsExactly` | iptables/pkg/capture/run.go:338-563 | nat PREROUTING and mangle PREROUTING give every arriving packet exactly the verdict of the configuration, and mangle PREROUTING its marks, in both modes, traced or not |
| `Inbound.CapturedInExactly` | iptables/pkg/capture/run.go:124-191 | which arriving packets go to the inbound capture port: an if-and-only-if for the wildcard and for listed ports, in both modes |
| `Marks.MarksExactly` | iptables/pkg/capture/run.go:529-552 | every packet leaves mangle OUTPUT with exactly the marks of the configuration, and all else as it was |
| `Zones.ZonesExactly` | iptables/pkg/capture/run.go:677-722 | the raw chains put every packet in exactly the zone of the configuration, the first CT rule it comes to counting |
| `Promises.OutgoingKept` | iptables/pkg/capture/run.go:309-527 | from the configuration as it is written: every outgoing packet goes where its fields say, ranges, ports, groups, servers and owners included |
| `Promises.CapturedKept` | iptables/pkg/capture/run.go:318-519 | in the same fields the exact condition under which an unowned TCP packet goes to the proxy |
| `Promises.ArrivingKept` | iptables/pkg/capture/run.go:338-563 | every arriving packet goes where the fields say, in either mode, and leaves the mangle table with the marks they say |
| `Promises.MarksKept` | iptables/pkg/capture/run.go:529-552 | in TPROXY mode a packet gets its connection's mark back, or else is marked 1338 if the proxy sends it to a workload, and marked traffic on lo stays as it is |
| `Promises.ZonesKept` | iptables/pkg/capture/run.go:677-722 | zone 1 for the proxy's own DNS requests and what arrives from port 53, zone 2 for its answers from port 15053 and the requests it answers, and none for all else |
| `Promises.AnswersZonedExactly` | iptables/pkg/capture/run.go:696-722 | what arrives from port 53 is in zone 1 exactly when all DNS is captured or it is addressed to a listed server |
| `Promises.OtherFamilyKept` | iptables/pkg/builder/iptables_builder_impl.go:132-147 | with IPv6 off its firewall stays as it is |
| `Cleaner.IptablesCleaner.FlushAndDeleteChains` | clean-iptables/pkg/cmd/cleanup.go:45-50 | for each chain in order a flush and then a deletion |
| `Cleaner.IptablesCleaner.RemoveOldChains` | clean-iptables/pkg/cmd/cleanup.go:52-78 | attempts the deletions of jumps and DNS rules and then the chains in their order, as lines |
| `Cleaner.IptablesCleaner.Run` | clean-iptables/pkg/cmd/cleanup.go:80-91 | does so for both families and then takes the two listings |
| `Cleaner.CleanDenotes` | clean-iptables/pkg/cmd/cleanup.go:52-78 | the lines, read as iptables reads them, are the cleaner's script |
| `Uninstall.ExecDeletes` | clean-iptables/pkg/cmd/cleanup.go:53-66 | deletions that may fail act on each chain by itself, taking the first match of each rule |
| `Uninstall.WithoutEverything` | clean-iptables/pkg/cmd/cleanup.go:53-66 | nothing is left of rules each of which is deleted at least as often as it occurs |
| `Uninstall.RemoveAll` | clean-iptables/pkg/cmd/cleanup.go:68-77 | removing chains in an order in which none is still jumped to removes exactly them, and no deletion fails |
| `UninstallTheorems.AddedDeleted` | clean-iptables/pkg/cmd/cleanup.go:53-66 | whatever a removable run adds to a built-in chain the cleaner deletes at least as often |
| `UninstallTheorems.AfterDeletes` | clean-iptables/pkg/cmd/cleanup.go:53-66 | after the deletions the host's chains are as before the run and only the new chains are extra |
| `UninstallTheorems.RemovalOrder` | clean-iptables/pkg/cmd/cleanup.go:68-77 | the cleaner's order is one in which no chain is still jumped to when it goes |
| `UninstallTheorems.NotRestored` | clean-iptables/pkg/cmd/cleanup.go:52-78 | after any other run the cleaner leaves some rule behind |
| `UninstallTheorems.CleanHarmless` | clean-iptables/pkg/cmd/cleanup.go:52-78 | the cleaner changes nothing on a host without the mesh's chains and rules |
| `UninstallTheorems.UninstallUndoes` | clean-iptables/pkg/cmd/cleanup.go:45-78 | the cleaner restores the firewall exactly when the family was off or the configuration is removable, and then no chain in use is deleted |
| `Restore.WordsOfJoin` | iptables/pkg/builder/iptables_builder_impl.go:213-215 | joined tokens are split back into the words they stand for, quotes taken off |
| `Restore.WordsExactly` | iptables/pkg/builder/iptables_builder_impl.go:213-215 | joined words come back as they were exactly when none is empty or has a blank or a quote |
| `Restore.StepsCommute` | iptables/pkg/builder/iptables_builder_impl.go:179-191 | commands on different tables can be swapped |
| `Restore.ByTables` | iptables/pkg/builder/iptables_builder_impl.go:179-191 | a script does the same run table by table, in any order of the tables |
| `RestoreTheorems.RenderingsEquivalent` | iptables/pkg/builder/iptables_builder_impl.go:149-217 | with plain words, traced or not, both succeed or fail together and no packet gets another verdict |
| `RestoreQuoted.AgreeExactly` | iptables/pkg/builder/iptables_builder_impl.go:149-217 | whatever the values hold, the file and the single commands give the same firewall exactly when nothing was traced and every recorded token is plain |
| `RestoreQuoted.EquivalentExactly` | iptables/pkg/builder/iptables_builder_impl.go:149-217 | logging rules aside, traced or not, exactly when every recorded token is plain |
| `RunValues.RunMade` | iptables/pkg/capture/run.go:338-566 | every value a run writes into a rule is a fixed word or taken from the configuration |
| `RestoredRuns.RunPlain` | iptables/pkg/capture/run.go:338-566 | with plain settings every call of a run has plain words only |
| `RestoredRuns.FileNeverFails` | iptables/pkg/capture/run.go:770-826 | the restore file of a run, tables in any order, is taken on every host, except exactly when a traced name is spelled `-j` |
| `RestoredRuns.FileVerdict` | iptables/pkg/capture/run.go:338-826 | applied as a file too the run gives every outgoing packet exactly the verdict of the configuration |
| `RestoredRuns.FileArrivals` | iptables/pkg/capture/run.go:338-826 | and every arriving packet, in both modes |
| `RestoredRuns.FileKept` | iptables/pkg/capture/run.go:309-826 | applied as a file too packets go, and are marked and zoned, as the fields of the configuration say |
| `RestoredRuns.FileLoops` | iptables/pkg/capture/run.go:357-458 | some packet of the proxy loops then in exactly the same configurations |
| `RestoredRuns.FileUndone` | clean-iptables/pkg/cmd/cleanup.go:45-78 | the cleaner undoes a run applied as a file exactly when the family was off or the configuration is removable |
| `WeightedRoundRobin.ParseInt64OfDecimal` | cmd/config/weightRoundRobinBalancer.go:24-27 | a weight written in decimal is read back |
| `WeightedRoundRobin.WeightRoundRobinBalancer.Add` | cmd/config/weightRoundRobinBalancer.go:20-35 | adds one node at rest at the end, or nothing when the parameters are not two or the weight does not parse |
| `WeightedRoundRobin.Best` | cmd/config/weightRoundRobinBalancer.go:50-54 | the first of the nodes with the greatest current weight |
| `WeightedRoundRobin.WeightRoundRobinBalancer.Next` | cmd/config/weightRoundRobinBalancer.go:37-63 | the nodes after one selection, and the cluster of the node selected, or the empty name without nodes |
| `WeightedRoundRobin.SelectedTurn` | cmd/config/weightRoundRobinBalancer.go:37-63 | a selection keeps the current weights summing to zero and each above minus the total |
| `WeightedRoundRobin.AlwaysBalanced` | cmd/config/weightRoundRobinBalancer.go:37-63 | that balance holds after any number of selections, and no weight changes |
| `WeightedRoundRobin.NeverAhead` | cmd/config/weightRoundRobinBalancer.go:37-63 | at no moment has a node been selected a whole turn more often than its share |
| `WeightedRoundRobin.NothingWraps` | cmd/config/weightRoundRobinBalancer.go:43-61 | while one more than the number of nodes, times the total weight, fits 64 bits, no sum of a selection wraps around |
| `WeightedRoundRobin.ExactFairness` | cmd/config/weightRoundRobinBalancer.go:37-63 | a period selects every node exactly its weight many times and returns every current weight to zero |
| `WeightedRoundRobin.Periodic` | cmd/config/weightRoundRobinBalancer.go:37-63 | the selections repeat with that period |
| `ClientHello.ParseServerNameExtension` | pkg/protocol/tls/client_hello.go:146-175 | the loop over the names computes what the recursive reading of the list does, and stays in bounds |
| `ClientHello.ParseClientHelloServerName` | pkg/protocol/tls/client_hello.go:48-144 | the running offset computes what the layered reading of record, handshake and extensions does, with the type bytes of RFC 8446, and stays in bounds |
| `ClientHello.ScanExtensions` | pkg/protocol/tls/client_hello.go:121-143 | the loop over the extensions finds the first server name extension, or says the bytes end too early |
| `ClientHello.ExtensionsRoundTrip` | pkg/protocol/tls/client_hello.go:121-143 | scanning serialized extensions gives what the first server name extension says |
| `ClientHello.NameListRoundTrip` | pkg/protocol/tls/client_hello.go:146-175 | reading a serialized name list gives its first host name |
| `ClientHello.ClientHelloRoundTrip` | pkg/protocol/tls/client_hello.go:48-144 | parsing a serialized ClientHello (sections 4.1.2, 4.2 and 5.1 of RFC 8446) gives what its first server name extension says, or no name |
| `ClientHello.ServerNameRoundTrip` | pkg/protocol/tls/client_hello.go:48-175 | with a well-formed list (section 3 of RFC 6066) that is its first host name |
| `ClientHello.InsertionInvariant` | pkg/protocol/tls/client_hello.go:121-143 | inserting an extension of another type anywhere, lengths fixed up, does not change the answer |
| `ClientHello.PrefixStable` | pkg/protocol/tls/client_hello.go:48-144 | any answer but truncated stays the same on every extension of the bytes, and without the whole record the answer is truncated |
| `ClientHello.PeekClientHelloServerName` | pkg/protocol/tls/client_hello.go:13-46 | with a buffer of the advertised size the answer is a function of the stream, the buffer is never full, and nothing is consumed |
| `ClientHello.PeekFindsName` | pkg/protocol/tls/client_hello.go:22-46 | peeking at a stream that starts with a ClientHello record of up to 18432 bytes finds its name, whatever follows |
| `ChunkedBody.CopyN` | cmd/proxy/http.go:288-290 | copies the bytes asked for, or what there is, and reports the stream's end |
| `ChunkedBody.CopyFixedLength` | cmd/proxy/http.go:294-303 | the same with the end of the stream reported as unexpected, and nothing at all for zero |
| `ChunkedBody.ProxyChunkedBody` | cmd/proxy/http.go:256-292 | the loops on streams do what the relay of the remaining bytes says; when the writer fails, what it took is still a prefix |
| `ChunkedBody.RelayHonest` | cmd/proxy/http.go:256-292 | on any input what is written is a prefix of what was consumed, and all of it on success |
| `ChunkedBody.RelayedHonestly` | cmd/proxy/http.go:256-292 | the same for any end of the method, a failing writer included |
| `ChunkedBody.SizeLineParses` | cmd/proxy/http.go:313-319 | a hexadecimal size is read whatever follows a semicolon right after it, and refused beyond 64 bits |
| `ChunkedBody.BodyRelayed` | cmd/proxy/http.go:256-319 | an encoded body, whatever its chunks, extensions and trailers hold, is written exactly and exactly the following bytes are left |
| `ChunkedBody.HexRoundTrip` | cmd/proxy/http.go:313-319 | every size has a hexadecimal form that is read back |
| `ChunkedBody.HexExactly` | cmd/proxy/http.go:313-319 | digits are read as the sum of their values times powers of 16, and nothing else is read |
| `ChunkedBody.NegativeChunk` | cmd/proxy/http.go:294-319 | any size line that is read as a negative number copies no data and passes on two bytes |
| `ChunkedFraming.SizeLineExactly` | cmd/proxy/http.go:313-319 | a size line of section 7.1 is read as its size, or refused exactly when white space comes before its semicolon or the size is beyond 64 bits |
| `ChunkedFraming.BodyRelayedExactly` | cmd/proxy/http.go:256-319 | a body of section 7.1 is refused exactly when it has such a line, and otherwise written exactly with exactly the following bytes left |
| `ChunkedFraming.StrictLineExactly` | cmd/proxy/http.go:313-319 | a line that is read as a size is a size line of section 7.1 exactly when it starts with a digit, is not padded, ends in CRLF and has an extension of the grammar or none |
| `ChunkedFraming.StrictExactly` | cmd/proxy/http.go:256-292 | bytes start with a body of section 7.1 with sizes that are read exactly when their lines are such, CRLF follows each chunk's data and the trailer lines are field lines |
| `ChunkedFraming.RelaysWellFormedExactly` | cmd/proxy/http.go:256-319 | a relay that succeeds has passed on a body of section 7.1 exactly when the bytes were such |
| `ChunkedFraming.StrictRelayed` | cmd/proxy/http.go:256-319 | such bytes are never refused |
| `ChunkedFraming.FramedPassedOn` | cmd/proxy/http.go:256-319 | a body with any extensions and trailer lines is passed on as it is, and is one of section 7.1 exactly when the grammar has them all |
| `HeaderToken.EqualFold` | pkg/protocol/http/internal/ascii/print.go:14-24 | equal lengths and equal bytes up to ASCII case |
| `HeaderToken.HasToken` | pkg/protocol/http/header.go:222-252 | the loop finds a position exactly when one passes the filter, both boundaries and the comparison, or the value is the token |
| `HeaderToken.FilterKeeps` | pkg/protocol/http/header.go:230-238 | the first-byte filter drops no match unless the token starts with a capital |
| `HeaderToken.ScanCorrect` | pkg/protocol/http/header.go:218-256 | the scan finds the token exactly when some delimited occurrence is equal up to ASCII case |
| `HeaderToken.ScanCorrectExactly` | pkg/protocol/http/header.go:218-256 | that holds for every value exactly when the token does not start with a capital |
| `HeaderToken.FoundExactly` | pkg/protocol/http/header.go:218-256 | a lower-case token is found exactly when it is, up to case, one of the words between spaces, commas and tabs |
| `HeaderToken.CapitalMissed` | pkg/protocol/http/header.go:230-238 | a token with a capital at the start is not found in its own lower-case form |
| `UdpSessions.UDPServer.GetOrCreateSession` | cmd/proxy/udp.go:120-145 | the session of the key, or a new one for this client and destination with a socket connected to it and a reply goroutine, or nothing when dialing fails |
| `UdpSessions.UDPServer.GetReplyConn` | cmd/proxy/udp.go:174-209 | the reply socket bound to the address, opened at most once |
| `UdpSessions.UDPServer.CloseSession` | cmd/proxy/udp.go:211-221 | closes and drops whatever session the key has now |
| `UdpSessions.UDPServer.ProxyReply` | cmd/proxy/udp.go:147-172 | one round of the reply loop is a run of the atomic steps, what it sends included |
| `UdpSessions.NextKeeps` | cmd/proxy/udp.go:90-172 | every atomic step of the server and of any reply goroutine keeps the invariant |
| `UdpSessions.RunsSafely` | cmd/proxy/udp.go:112-172 | in every interleaving a socket is open exactly when its session is in the table under its own key, and every such session is served |
| `UdpSessions.NothingLeaks` | cmd/proxy/udp.go:147-172 | once all reply goroutines are gone no session and no upstream socket is left |
| `UdpSessions.SessionsBelong` | cmd/proxy/udp.go:120-145 | in every run each session has the key of its client and destination, was made by a packet from the one to the other, and its open socket is connected to the destination |
| `UdpSessions.RepliesReturn` | cmd/proxy/udp.go:147-209 | in every run each reply went to the client whose packet made the session, from the address that packet was sent to |
| `UdpSessions.PacketsPassOn` | cmd/proxy/udp.go:90-118 | in every run a packet is passed on through a socket connected to where it was going |
| `UdpSessions.ClosesAnotherExactly` | cmd/proxy/udp.go:211-221 | a closing goroutine closes another one's session exactly when the key is taken and not by its own |
| `UdpSessions.StaleClose` | cmd/proxy/udp.go:211-221 | an old goroutine may close a newer session of its key, which is then out of the table, closed, and still noticed by its own goroutine |
| `UdpSessions.KeyDetermines` | cmd/proxy/udp.go:121-121 | a key stands for one client and one destination |
| `ConnectionPool.ChannelPool.Get` | pkg/pool/pool.go:140-198 | the loop ends, and does what taking the idle connections one by one does; after Release it reports the pool closed |
| `ConnectionPool.ChannelPool.Put` | pkg/pool/pool.go:201-229 | returning a connection makes it idle, or closes it when there is no room, and changes nothing after Release; for a lent one this is a run of the atomic steps |
| `ConnectionPool.ChannelPool.Close` | pkg/pool/pool.go:232-244 | takes one off the count and marks the connection, whatever it is, and does nothing after Release |
| `ConnectionPool.ChannelPool.CloseByCaller` | pkg/pool/pool.go:232-244 | for a lent connection that is one of the atomic steps and keeps the accounts |
| `ConnectionPool.ChannelPool.Release` | pkg/pool/pool.go:255-274 | closes exactly the idle connections, once |
| `ConnectionPool.NextKeeps` | pkg/pool/pool.go:140-244 | every atomic step keeps the accounts |
| `ConnectionPool.PoolAccounting` | pkg/pool/pool.go:140-244 | over any interleaving the count is idle plus lent or in transit, never above the limit; idle ones stay within theirs, and none is lent or closed |
| `ConnectionPool.PutExactly` | pkg/pool/pool.go:201-229 | putting a connection back keeps the accounts exactly if it is open and not idle |
| `ConnectionPool.ReturnedExactly` | pkg/pool/pool.go:140-229 | a connection put back behind stale ones is what the next Get lends exactly when there was room and it is not stale |
| `ConnectionPool.CloseExactly` | pkg/pool/pool.go:232-244 | after a close the count is right exactly if the connection was open |
| `ConnectionPool.GettingRuns` | pkg/pool/pool.go:140-198 | Get is a run of the atomic steps |
| `ConnectionPool.GettingFirstGood` | pkg/pool/pool.go:145-196 | Get lends the first good idle connection and closes exactly the stale ones before it, or opens one if the limit allows |
| `LogLevels.LevelRoundTrip` | pkg/log/options.go:190-190 | the name of a level is read back as the level |
| `LogLevels.ReadsExactly` | pkg/log/options.go:56-72 | a scope reads as a level exactly when its entry ends in the word for that level, after at most one colon |
| `LogLevels.WritesEntry` | pkg/log/options.go:56-63 | setting a scope writes its name, a colon and the word for the level in its place or at the end |
| `LogLevels.Options.SetOutputLevel` | pkg/log/options.go:189-215 | replaces the entry that stands for the scope or adds one, and leaves the other string alone |
| `LogLevels.Options.GetOutputLevel` | pkg/log/options.go:218-240 | reads the entry that stands for the scope |
| `LogLevels.Options.SetStackTraceLevel` | pkg/log/options.go:243-269 | the same for the stack trace levels |
| `LogLevels.Options.GetStackTraceLevel` | pkg/log/options.go:272-294 | the same for the stack trace levels |
| `LogLevels.SetGet` | pkg/log/options.go:189-240 | what has been set is read back; the default scope must be named at most once |
| `LogLevels.SetFrame` | pkg/log/options.go:189-240 | setting one scope changes what is read for no other |
| `LogLevels.DefaultExactly` | pkg/log/options.go:193-202 | for the default scope every level reads back exactly when the scope is named at most once |
| `LogLevels.LastSetWins` | pkg/log/options.go:189-240 | after any run of settings every scope reads as it was last set, or as it was |
| `DomainPolicy.CompileMatcherSet` | cmd/proxy/domainpolicy/policy.go:141-171 | the index of the list, or an error exactly when it has an empty wildcard |
| `DomainPolicy.Matches` | cmd/proxy/domainpolicy/policy.go:173-197 | a name or address matches exactly when some part of the index does |
| `DomainPolicy.IndexMatches` | cmd/proxy/domainpolicy/policy.go:141-197 | the index matches exactly what a scan of the list does |
| `DomainPolicy.Compile` | cmd/proxy/domainpolicy/policy.go:62-91 | the policy of the document, or an error exactly when some rule is invalid |
| `DomainPolicy.CompiledLast` | cmd/proxy/domainpolicy/policy.go:62-91 | a direction has the policy of the last rule for it, and none without one |
| `DomainPolicy.Evaluate` | cmd/proxy/domainpolicy/policy.go:93-118 | allows without a rule, otherwise by the mode and the list of it |
| `DomainPolicy.CompiledDecides` | cmd/proxy/domainpolicy/policy.go:62-118 | the compiled policy decides as a plain scan of the last rule for the direction |
| `DomainPolicy.SpellingIrrelevant` | cmd/proxy/domainpolicy/policy.go:203-215 | a host with or without a port, brackets, a dot at the end or capitals gets one decision |
| `DomainPolicy.OneValueExactly` | cmd/proxy/domainpolicy/policy.go:141-215 | a listed host matches its own name and no other, a listed wildcard exactly the names under it |
| `DomainPolicy.AddressesExactly` | cmd/proxy/domainpolicy/policy.go:141-228 | a listed range matches exactly the target addresses in it and a listed address those equal to it, with or without brackets and port |
| `DomainPolicy.NamedHostsDecided` | cmd/proxy/domainpolicy/policy.go:62-118 | what the last rule blocks by name is blocked and what it allows by name is allowed, however the host is written |
| `PolicyManager.Manager.LoadCache` | cmd/proxy/domainpolicy/manager.go:231-248 | takes the document of the cache file when it is readable and parses, otherwise changes nothing |
| `PolicyManager.Manager.Reload` | cmd/proxy/domainpolicy/manager.go:107-137 | takes and saves a document that was fetched and parses; any failure leaves the policy |
| `PolicyManager.Manager.Start` | cmd/proxy/domainpolicy/manager.go:77-97 | the cache file first and then the remote end |
| `PolicyManager.Manager.Evaluate` | cmd/proxy/domainpolicy/manager.go:139-150 | allows when off, out of scope or without a policy, and otherwise decides by it |
| `PolicyManager.LastGoodPolicy` | cmd/proxy/domainpolicy/manager.go:107-137 | in every run the policy is that of the last document that parsed, and the file holds the last one saved |
| `PolicyManager.DecidesAsLastGood` | cmd/proxy/domainpolicy/manager.go:88-150 | over any run, when on and in scope, decisions are those of a plain scan of that document, and otherwise allow |
| `PolicyManager.SavedParses` | cmd/proxy/domainpolicy/manager.go:127-135 | only documents that parse are saved |
| `PolicyManager.RestartDecides` | cmd/proxy/domainpolicy/manager.go:231-288 | a restart whose fetch fails decides, when on and in scope, exactly as the last saved document says |
| `CredentialCache.HostsCollideExactly` | pkg/credential/resolver.go:56-58 | two hosts can share a key exactly when one continues the other after a colon |
| `CredentialCache.KeysDistinguish` | pkg/credential/resolver.go:56-58 | without colons in hosts a key stands for one host and one user |
| `CredentialCache.Resolver.Resolve` | pkg/credential/resolver.go:28-54 | a live entry is returned; otherwise an expired one is dropped and what was fetched is stored and returned; an error stores nothing |
| `CredentialCache.HitsAreFresh` | pkg/credential/resolver.go:28-58 | in every interleaving a hit is what a fetch for exactly this host and user returned less than the time to live ago |
| `CredentialCache.LivesExactly` | pkg/credential/resolver.go:28-58 | what was stored is found, until it is replaced or dropped, exactly while it is younger than the time to live |
| `LeafCache.CertStore.GenerateLeafCert` | pkg/tls/mitm/ca.go:59-100 | signs with the primary authority of that moment, or reports that there is none |
| `LeafCache.CertStore.Store` | pkg/tls/mitm/ca.go:55-55 | what was signed replaces whatever the domain had |
| `LeafCache.CertStore.GetCertificate` | pkg/tls/mitm/ca.go:38-57 | the leaf served has over an hour left and, while the cache is current, is for the domain and signed by the primary or still to be visited by a rotation under way; without one in the cache this is the two steps signing and storing |
| `LeafCache.CertStore.Reload` | pkg/tls/mitm/ca.go:185-202 | a run that replaces both authorities and then visits the cached domains one by one, or nothing without certificates |
| `LeafCache.SwitchKeeps` | pkg/tls/mitm/ca.go:185-196 | a change of the authorities keeps the state current exactly when the primary stays the same or no leaf is being made |
| `LeafCache.CurrentExactly` | pkg/tls/mitm/ca.go:38-202 | every state of a run is current exactly when no leaf is being made whenever the primary changes |
| `LeafCache.EndsCurrent` | pkg/tls/mitm/ca.go:38-202 | then, with no rotation under way, every cached leaf was signed by the current primary |
| `LeafCache.OverlapServesOld` | pkg/tls/mitm/ca.go:38-57 | any leaf that is being made while the primary changes, stored after the rotation, stays in the cache under the old authority |

## Left out

- Marks are compared as they are written, so `1337` and `0x539` count as different values, and what one chain does to a packet is not carried on to the next chain.
- An error of the write to standard error in `separateV4V6`, which the source turns into a panic.
- Loops.LoopsExactly: assumes that the host's own rules let packets pass, since a host rule may accept them first, and that some address is not the host's own.
- Inbound.CapturedInExactly: leaves out the traffic of virtual machine interfaces, which goes to the proxy port; `Inbound.ArrivalsExactly` covers it.
- RestoreTheorems.RenderingsEquivalent: assumes plain words; `RestoreQuoted.EquivalentExactly` says that the two are equivalent in no other case.
- RestoreQuoted.AgreeExactly: assumes that the single commands succeed, and that chain and table names and the values of traced calls have no quote.
- RestoreQuoted.EquivalentExactly: assumes the same, and that no recorded rule is itself a logging rule.
- RestoredRuns.FileVerdict: assumes, like the other theorems of its module, that no setting has a blank, a quote or a line break or is empty; `RestoreQuoted.EquivalentExactly` says what becomes of the others.
- A restore file that is refused midway leaves the tables before it changed; in the model a refused file has no result.
- WeightedRoundRobin.ExactFairness: is about unbounded integers; `NothingWraps` says up to which weights 64 bits are enough. Concurrent calls, which the source does not guard, are out as well.
- UdpSessions.RunsSafely: covers the time before Shutdown, which closes the sockets and leaves the table as it is.
- ConnectionPool.PoolAccounting: each lent connection is put back or closed once (`PutExactly` and `CloseExactly` say what happens otherwise), and Release, which does not wait for Get, does not race with it. `GettingFirstGood` takes a Get that no Put interrupts.
- LogLevels.Options.SetOutputLevel: the level is one of the six the source declares.
- LeafCache.CertStore.GetCertificate: runs without another goroutine in between, and signs, as the lock makes it, while no rotation is under way; interleavings are in the event system.
- The names of goroutines, timers and deadlines: how an operation ends (a read, a dial, a ping, a fetch, the idle time) is a parameter.
- `net.ParseCIDR`, `net.ParseIP`, `SplitHostPort`, `ToLower`, `TrimSpace` on text and JSON decoding in the domain policy are parameters; `TrimSpace` and `ParseInt` on chunk sizes are written out.
- `writeHTTPRequest` and `proxyHTTPBody` dispatch on the framing of a message; the bodies they pass on are modelled, the dispatch is not.
- `Header.Clone` and the rest of the header methods.
- `SetLogCallers` and `GetLogCallers`.
- Sockets, TLS handshakes, the making of certificates, process execution, routes, the xtables lock, the validation server, flags.
- The other load balancers and the matching of requests to clusters.
