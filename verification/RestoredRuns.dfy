/** Runs applied as a restore file, which is the default: with plain settings the theorems hold for them too. */
module RestoredRuns {
  import opened Optional
  import opened Sequences
  import opened Netfilter
  import opened Commands
  import opened Builder
  import opened CallScripts
  import opened Capture
  import opened RunFacts
  import opened NeverFails
  import opened LoggedNames
  import opened Tracing
  import opened Traffic
  import opened CaptureTheorems
  import opened InboundContents
  import opened Inbound
  import opened Headers
  import opened Loops
  import opened Cleaner
  import opened Uninstall
  import opened UninstallTheorems
  import opened Restore
  import opened RestoreTheorems
  import opened RestoreExactly
  import opened RunValues
  import opened Promises
  import Text

  // ---------------------------------------------------------------- plain settings

  function IsPlain(): string -> bool {
    (v: string) => Plain(v)
  }

  /** No configured value is empty or has a blank or a quote. */
  predicate PlainSetup(s: Setup, fam: Family) {
    Lists(IsPlain(), s, fam) && Settings(IsPlain(), s.cfg)
  }

  lemma PlainProtocols()
    ensures Plain("tcp") && Plain("udp") && Plain("lo") && Plain("53") && Plain(DNS_PORT)
  {
  }

  lemma PlainStates()
    ensures Plain(ESTABLISHED) && Plain("INVALID") && Plain(OUTBOUND_MARK) && Plain("1") && Plain("2")
  {
  }

  lemma PlainPorts()
    ensures Plain("--to-ports") && Plain("--to-port")
  {
  }

  lemma PlainAddresses(fam: Family)
    ensures Plain(Loopback(fam)) && Plain(PassthroughSource(fam))
  {
  }

  lemma PlainChainNames(chain: string)
    requires chain in ISTIO_CHAINS || chain in {PREROUTING, OUTPUT}
    ensures Plain(chain)
  {
  }

  lemma PlainTableNames(table: string)
    requires table in {NAT, MANGLE, RAW}
    ensures Plain(table)
  {
  }

  lemma PlainCommands(command: string)
    requires command in COMMANDS
    ensures PlainName(command)
  {
  }

  lemma PlainBasis(s: Setup, fam: Family)
    requires PlainSetup(s, fam)
    ensures Basis(IsPlain(), s, fam)
  {
    PlainProtocols();
    PlainStates();
    PlainPorts();
    PlainAddresses(fam);
    forall chain | chain in ISTIO_CHAINS ensures IsPlain()(chain) {
      PlainChainNames(chain);
    }
  }

  lemma {:induction false} PlainlyMade(conds: seq<Cond>, t: Target)
    requires MadeOf(IsPlain(), Rule(conds, t))
    ensures AllPlain(RuleTokens(Rule(conds, t)))
    decreases |conds|
  {
    if conds == [] {
      PlainValues(t);
      assert RuleTokens(Rule([], t)) == TargetTokens(t);
    } else {
      assert conds[0] in conds && forall x :: x in conds[1..] ==> x in conds;
      PlainlyMade(conds[1..], t);
      PlainCond(conds[0]);
      PlainCons(conds[0], conds[1..], t);
      assert [conds[0]] + conds[1..] == conds;
    }
  }

  lemma PlainCond(c: Cond)
    requires Plain(c.test.value)
    ensures AllPlain(CondTokens(c))
  {
    PlainOptions(c.test);
  }

  /** With plain settings every call of a run is one whose tokens need no quoting. */
  lemma RunPlain(s: Setup, fam: Family, trace: bool)
    requires PlainSetup(s, fam)
    ensures forall c :: c in RunCalls(s, fam) ==> PlainCall(trace, c)
  {
    PlainBasis(s, fam);
    forall c | c in RunCalls(s, fam) ensures PlainCall(trace, c) {
      RunMade(IsPlain(), s, fam, c);
      PlainlyMade(c.rule.conds, c.rule.target);
      PlainCommands(c.command);
      RunMember(s, fam, c);
      var phase :| phase in Phases() && c in PhaseCalls(s, fam, phase) && Fits(s.cfg, phase, c);
      TouchedTables(phase, CallId(c));
      PlainChainNames(c.chain);
      PlainTableNames(c.table);
    }
  }

  // ---------------------------------------------------------------- the file of a run

  /** What applying the file of a run leads to. */
  ghost function AfterFile(fw: Firewall, s: Setup, fam: Family, order: seq<string>): Option<Firewall> {
    ExecRestore(fw, RestoreLines(order, RunEntries(s, fam)), None)
  }

  ghost predicate OfRun(s: Setup, fam: Family, order: seq<string>) {
    PlainSetup(s, fam) && IsTableOrder(order, RunEntries(s, fam))
  }

  lemma {:induction false} NoBlocks(order: seq<string>)
    ensures RestoreLines(order, []) == []
  {
    if order != [] {
      NoBlocks(order[..|order| - 1]);
      assert NewChains([]) == [];
    }
  }

  lemma RunReadable(s: Setup, fam: Family)
    requires LogsReadably(s.cfg.traceLogging, RunCalls(s, fam))
    ensures forall c :: c in RunCalls(s, fam) ==> Readable(s.cfg.traceLogging, c)
  {
    forall c | c in RunCalls(s, fam) ensures Readable(s.cfg.traceLogging, c) {
      RunMember(s, fam, c);
    }
  }

  // A name spelled like the option that ends a rule breaks the file too.

  /** A line that is no command in any table and starts no table. */
  ghost predicate Unreadable(line: string) {
    line != "COMMIT" && line != "" && line[0] != '*' && forall table :: ParseCommand(["-t", table] + Words(line)).None?
  }

  lemma {:induction false} UnreadableFile(fw: Firewall, lines: seq<string>, table: Option<string>, line: string)
    requires line in lines && Unreadable(line)
    ensures ExecRestore(fw, lines, table).None?
    decreases |lines|
  {
    if lines[0] != line {
      assert line in lines[1..];
      if table.None? {
        if lines[0] != "" && lines[0][0] == '*' && Words(lines[0][1..]) != [] {
          UnreadableFile(fw, lines[1..], Some(Words(lines[0][1..])[0]), line);
        }
      } else if lines[0] == "COMMIT" {
        UnreadableFile(fw, lines[1..], None, line);
      } else {
        var command := ParseCommand(["-t", table.value] + Words(lines[0]));
        if command.Some? && Step(fw, command.value).Some? {
          UnreadableFile(Step(fw, command.value).value, lines[1..], table, line);
        }
      }
    }
  }

  lemma {:induction false} EntryText(entries: seq<Entry>, e: Entry)
    requires e in entries
    ensures RuleText()(e) in ValuesAt(entries, TableOfEntry(), RuleText(), e.table)
  {
    var front, last := entries[..|entries| - 1], entries[|entries| - 1];
    if e != last {
      assert entries == front + [last];
      EntryText(front, e);
    }
  }

  lemma EntryLine(order: seq<string>, entries: seq<Entry>, e: Entry)
    requires IsTableOrder(order, entries) && e in entries
    ensures RuleText()(e) in RestoreLines(order, entries)
  {
    EntryText(entries, e);
    assert TableOfEntry()(e) in Keys(entries, TableOfEntry());
    assert RuleText()(e) in TableBlock(entries)(e.table);
    FlatMapMember(order, TableBlock(entries), RuleText()(e));
  }

  /** What the file says where a logging rule is cut short. */
  lemma CutWords(c: Call, head: seq<string>)
    requires PlainTokens(c) && PlainName(c.command) && exists x :: x in c.rule.conds && x.test.value == "-j"
    requires head != [] && head[0] != "" && head[0][0] == '-' && AllPlain(head)
    ensures var text := Text.Join(head + LogParams(c.command, RuleTokens(c.rule)), ' ');
            text != "" && text[0] == '-' && Words(text) == head + (UpToCut(c.rule.conds) + LogTokens(c.command)[1..])
    ensures IndexOf("-j", RuleTokens(c.rule)) >= 0
  {
    var toks, target := RuleTokens(c.rule), TargetTokens(c.rule.target);
    CutTokens(c.rule.conds, LogTokens(c.command), target);
    var kept := CutAt(toks);
    var tokens, words := head + (kept + LogTokens(Quoted(c.command))), head + (kept + LogTokens(c.command));
    LogTokensWritten(c.command);
    forall i | 0 <= i < |kept| ensures Written(kept[i], kept[i]) {
      assert toks[i] in toks;
    }
    forall i | 0 <= i < |tokens| ensures Written(tokens[i], words[i]) {
      if i < |head| {
        assert head[i] in head;
      }
    }
    WordsOfJoin(tokens, words);
    assert Text.Join(tokens, ' ')[0] == tokens[0][0];
  }

  /** The conditions up to the cut, and what follows `-j` in a logging rule. */
  function CutBody(c: Call): seq<string> {
    UpToCut(c.rule.conds) + LogTokens(c.command)[1..]
  }

  lemma CutAppended(c: Call)
    requires PlainTokens(c) && PlainName(c.command) && exists x :: x in c.rule.conds && x.test.value == "-j"
    ensures IndexOf("-j", RuleTokens(c.rule)) >= 0
    ensures Unreadable(Text.Join(["-A", c.chain] + LogParams(c.command, RuleTokens(c.rule)), ' '))
  {
    PlainFlags();
    CutWords(c, ["-A", c.chain]);
    CutUnreadable(c.rule.conds, LogTokens(c.command)[1..], "", "");
    forall table ensures ParseCommand(["-t", table] + (["-A", c.chain] + CutBody(c))).None? {
      CutAppend(Entry(c.chain, table, ["-A", c.chain] + CutBody(c)), CutBody(c));
    }
  }

  lemma CutInserted(c: Call)
    requires PlainTokens(c) && PlainName(c.command) && exists x :: x in c.rule.conds && x.test.value == "-j"
    requires c.InsertCall?
    ensures IndexOf("-j", RuleTokens(c.rule)) >= 0
    ensures Unreadable(Text.Join(["-I", c.chain, Decimal(c.position)] + LogParams(c.command, RuleTokens(c.rule)), ' '))
  {
    var head := ["-I", c.chain, Decimal(c.position)];
    PlainFlags();
    PlainDecimal(c.position);
    CutWords(c, head);
    CutUnreadable(c.rule.conds, LogTokens(c.command)[1..], "", "");
    forall table ensures ParseCommand(["-t", table] + (head + CutBody(c))).None? {
      CutInsert(Entry(c.chain, table, head + CutBody(c)), Decimal(c.position), CutBody(c));
    }
  }

  lemma CutFile(fw: Firewall, s: Setup, fam: Family, order: seq<string>)
    requires OfRun(s, fam, order) && Enabled(s, fam) && !LogsReadably(s.cfg.traceLogging, RunCalls(s, fam))
    ensures AfterFile(fw, s, fam, order).None?
  {
    var trace, calls := s.cfg.traceLogging, RunCalls(s, fam);
    RunPlain(s, fam, trace);
    var c :| c in calls && Traced(trace, c) && exists x :: x in c.rule.conds && x.test.value == "-j";
    var e := CutEntryOf(c);
    FlatMapMember(calls, EntriesOf(trace), e);
    EntryLine(order, Recorded(trace, calls), e);
    UnreadableFile(fw, RestoreLines(order, Recorded(trace, calls)), None, RuleText()(e));
  }

  lemma CutEntryOf(c: Call) returns (e: Entry)
    requires PlainTokens(c) && c.command != UNDEFINED_COMMAND && PlainName(c.command)
    requires exists x :: x in c.rule.conds && x.test.value == "-j"
    ensures e in CallEntries(true, c) && Unreadable(RuleText()(e))
  {
    if c.AppendCall? {
      CutAppended(c);
      e := Entry(c.chain, c.table, ["-A", c.chain] + LogParams(c.command, RuleTokens(c.rule)));
    } else {
      CutInserted(c);
      e := Entry(c.chain, c.table, ["-I", c.chain, Decimal(c.position)] + LogParams(c.command, RuleTokens(c.rule)));
    }
  }

  // ---------------------------------------------------------------- the theorems

  ghost function AfterCommands(fw: Firewall, s: Setup, fam: Family): Option<Firewall> {
    ExecLines(fw, Arguments(BuildLines("iptables", RunEntries(s, fam))))
  }

  lemma CallsEquivalent(fw: Firewall, trace: bool, calls: seq<Call>, order: seq<string>)
    requires forall c :: c in calls ==> Readable(trace, c) && PlainCall(trace, c)
    requires IsTableOrder(order, Recorded(trace, calls))
    ensures var file := ExecRestore(fw, RestoreLines(order, Recorded(trace, calls)), None);
            var executed := ExecLines(fw, Arguments(BuildLines("iptables", Recorded(trace, calls))));
            (file.Some? <==> executed.Some?) && (file.Some? ==> Erased(file.value) == Erased(executed.value))
  {
    RenderingsEquivalent(fw, "iptables", trace, calls, order);
  }

  lemma BothRenderings(fw: Firewall, s: Setup, fam: Family, order: seq<string>)
    requires OfRun(s, fam, order) && Enabled(s, fam) && LogsReadably(s.cfg.traceLogging, RunCalls(s, fam))
    ensures var file, executed := AfterFile(fw, s, fam, order), AfterCommands(fw, s, fam);
            (file.Some? <==> executed.Some?) && (file.Some? ==> Erased(file.value) == Erased(executed.value))
  {
    RunPlain(s, fam, s.cfg.traceLogging);
    RunReadable(s, fam);
    CallsEquivalent(fw, s.cfg.traceLogging, RunCalls(s, fam), order);
  }

  /** The file of a run and its single commands succeed or fail together. */
  lemma FileSucceeds(fw: Firewall, s: Setup, fam: Family, order: seq<string>)
    requires Host(fw) && OfRun(s, fam, order)
    ensures AfterFile(fw, s, fam, order).Some? <==> AfterCommands(fw, s, fam).Some?
  {
    RunSucceeds(fw, s, fam, "iptables");
    if !Enabled(s, fam) {
      NoBlocks(order);
    } else if LogsReadably(s.cfg.traceLogging, RunCalls(s, fam)) {
      BothRenderings(fw, s, fam, order);
    } else {
      CutFile(fw, s, fam, order);
    }
  }

  /** The file never fails but in the same case as the single commands. */
  lemma FileNeverFails(fw: Firewall, s: Setup, fam: Family, order: seq<string>)
    requires Host(fw) && OfRun(s, fam, order)
    ensures AfterFile(fw, s, fam, order).Some? <==> !Enabled(s, fam) || !s.cfg.traceLogging || "-j" !in Names(s, fam)
  {
    FileSucceeds(fw, s, fam, order);
    ScriptNeverFails(fw, s, fam, "iptables");
  }

  lemma ErasedTwins(a: Firewall, b: Firewall)
    requires Erased(a) == Erased(b)
    ensures a.Keys == b.Keys && Twins(a, b)
  {
    assert Erased(a).Keys == a.Keys && Erased(b).Keys == b.Keys;
    forall id | id in a ensures Erase(a[id]) == Erase(b[id]) {
      assert Erased(a)[id] == Erased(b)[id];
    }
    SameVerdicts(a, b);
  }

  /** The firewall the single commands give, for one that the file gave: no packet can tell them apart. */
  lemma ExecutedTwin(fw: Firewall, s: Setup, fam: Family, order: seq<string>, fw': Firewall) returns (executed: Firewall)
    requires Host(fw) && OfRun(s, fam, order) && Enabled(s, fam) && AfterFile(fw, s, fam, order) == Some(fw')
    ensures Installed(fw, s, fam, executed) && fw'.Keys == executed.Keys
    ensures Twins(executed, fw') && Erased(executed) == Erased(fw')
  {
    FileSucceeds(fw, s, fam, order);
    RunSucceeds(fw, s, fam, "iptables");
    BothRenderings(fw, s, fam, order);
    executed := AfterCommands(fw, s, fam).value;
    ErasedTwins(executed, fw');
  }

  /** Outgoing packets get exactly the verdict of the configuration from a firewall the file gave. */
  lemma FileVerdict(fw: Firewall, s: Setup, fam: Family, order: seq<string>, fw': Firewall, p: Packet, depth: nat)
    requires Host(fw) && Closed(fw) && OfRun(s, fam, order) && Enabled(s, fam) && AfterFile(fw, s, fam, order) == Some(fw')
    requires HostPasses(fw, p, depth) && depth >= 2
    ensures ChainId(NAT, OUTPUT) in fw' && Traverse(fw', ChainId(NAT, OUTPUT), p, depth) == OutputWanted(s, fam, p)
  {
    var executed := ExecutedTwin(fw, s, fam, order, fw');
    VerdictExactly(fw, s, fam, executed, p, depth);
  }

  /** And so do arriving ones. */
  lemma FileArrivals(fw: Firewall, s: Setup, fam: Family, order: seq<string>, fw': Firewall, p: Packet, depth: nat)
    requires Host(fw) && Closed(fw) && OfRun(s, fam, order) && Enabled(s, fam) && AfterFile(fw, s, fam, order) == Some(fw')
    requires depth >= 2
    ensures ARRIVING in fw' && MANGLED in fw'
    ensures PassesHost(fw, ARRIVING, p, depth) ==> Traverse(fw', ARRIVING, p, depth) == NatWanted(s, fam, p)
    ensures PassesHost(fw, MANGLED, p, depth) ==> Traverse(fw', MANGLED, p, depth) == MangleWanted(s, fam, p)
  {
    var executed := ExecutedTwin(fw, s, fam, order, fw');
    ArrivalsExactly(fw, s, fam, executed, p, depth);
  }

  /** In the fields of the configuration: packets go, and are marked and zoned, as it says when it is applied as a file too. */
  lemma FileKept(fw: Firewall, cfg: Config, parse: CidrParser, fam: Family, order: seq<string>, fw': Firewall, p: Packet, depth: nat)
    requires Host(fw) && Closed(fw) && OfRun(SetupOf(cfg, parse), fam, order) && (fam == V4 || cfg.enableInboundIPv6)
    requires AfterFile(fw, SetupOf(cfg, parse), fam, order) == Some(fw') && cfg.outboundIPRangesExclude != "*" && depth >= 2
    ensures Kept(fw, cfg, parse, fam, fw', p, depth)
  {
    var executed := ExecutedTwin(fw, SetupOf(cfg, parse), fam, order, fw');
    AllKept(fw, cfg, parse, fam, executed, p, depth);
    KeptAlike(fw, cfg, parse, fam, executed, fw', p, depth);
  }

  /** Some packet of the proxy loops in the same configurations. */
  lemma FileLoops(fw: Firewall, s: Setup, fam: Family, order: seq<string>, fw': Firewall,
                  contains: Contains, away: string, from: string, depth: nat)
    requires Host(fw) && Closed(fw) && OfRun(s, fam, order) && Enabled(s, fam) && AfterFile(fw, s, fam, order) == Some(fw')
    requires depth >= 2 && forall h :: HostPasses(fw, PacketOf(h, contains), depth)
    requires !contains(Loopback(fam), away) && !contains(PassthroughSource(fam), from)
    ensures ChainId(NAT, OUTPUT) in fw'
    ensures (exists h :: LoopsBack(fw', s, h, contains, depth)) <==> LoopConfigured(s.cfg)
  {
    var executed := ExecutedTwin(fw, s, fam, order, fw');
    LoopsExactly(fw, s, fam, executed, contains, away, from, depth);
    forall h ensures LoopsBack(fw', s, h, contains, depth) <==> LoopsBack(executed, s, h, contains, depth) {
      assert Traverse(executed, ChainId(NAT, OUTPUT), PacketOf(h, contains), depth) ==
             Traverse(fw', ChainId(NAT, OUTPUT), PacketOf(h, contains), depth);
    }
  }

  // Undoing.

  /** Without tracing the file and the single commands leave the same firewall. */
  lemma UntracedFile(fw: Firewall, s: Setup, fam: Family, order: seq<string>, fw': Firewall)
    requires OfRun(s, fam, order) && !s.cfg.traceLogging && AfterFile(fw, s, fam, order) == Some(fw')
    ensures Installed(fw, s, fam, fw')
  {
    if Enabled(s, fam) {
      RunPlain(s, fam, false);
      RunReadable(s, fam);
      RenderingsAgree(fw, "iptables", RunCalls(s, fam), order);
    } else {
      NoBlocks(order);
      assert UserChains([]) == [];
      assert BuildLines("iptables", []) == [];
    }
  }

  /** With tracing a logging rule stays behind. */
  lemma TracedFileStays(fw: Firewall, s: Setup, fam: Family, order: seq<string>, fw': Firewall)
    requires Host(fw) && OfRun(s, fam, order) && Enabled(s, fam) && s.cfg.traceLogging && AfterFile(fw, s, fam, order) == Some(fw')
    ensures ExecQuietly(fw', CleanScript(CleanOf(s.cfg))) != fw
  {
    var calls, id, log := RunCalls(s, fam), ChainId(NAT, OUTPUT), ReadLogRule(JUMP_OUTBOUND, OUTBOUND_JUMP);
    FileSucceeds(fw, s, fam, order);
    RunSucceeds(fw, s, fam, "iptables");
    RunPlain(s, fam, true);
    RunReadable(s, fam);
    FileRuns(fw, true, calls, order);
    JumpLogged(s, fam);
    OnlyAdditions(true, calls, NewChains(Recorded(true, calls)));
    ExecCount(fw, FileScript(true, calls), id, log);
    HostChains(fw, id);
    HasOutputChain(fw, s, fam, order, fw');
    NotDeleted(id, CleanOf(s.cfg), log);
    CleanKeeps(fw', CleanOf(s.cfg), id, log);
  }

  lemma JumpLogged(s: Setup, fam: Family)
    ensures exists x :: x in FileScript(true, RunCalls(s, fam)) && AddsRule(x, ChainId(NAT, OUTPUT), ReadLogRule(JUMP_OUTBOUND, OUTBOUND_JUMP))
  {
    var c := AppendCall(JUMP_OUTBOUND, OUTPUT, NAT, OUTBOUND_JUMP);
    InRun(s, fam, OutputJump, c);
    var x := AppendTo(ChainId(NAT, OUTPUT), ReadLogRule(JUMP_OUTBOUND, OUTBOUND_JUMP));
    assert x in RestoreCommandsOf(true)(c);
    FlatMapMember(RunCalls(s, fam), RestoreCommandsOf(true), x);
    assert AddsRule(x, ChainId(NAT, OUTPUT), ReadLogRule(JUMP_OUTBOUND, OUTBOUND_JUMP));
  }

  lemma HasOutputChain(fw: Firewall, s: Setup, fam: Family, order: seq<string>, fw': Firewall)
    requires Host(fw) && OfRun(s, fam, order) && Enabled(s, fam) && AfterFile(fw, s, fam, order) == Some(fw')
    ensures ChainId(NAT, OUTPUT) in fw'
  {
    var executed := ExecutedTwin(fw, s, fam, order, fw');
    HasOutput(fw, s, fam, executed);
  }

  /** The cleaner undoes a run applied as a file exactly where it undoes one applied command by command. */
  lemma FileUndone(fw: Firewall, s: Setup, fam: Family, order: seq<string>, fw': Firewall, cmd: string)
    requires Host(fw) && Closed(fw) && OfRun(s, fam, order) && AfterFile(fw, s, fam, order) == Some(fw')
    requires NoOldRules(fw, CleanOf(s.cfg)) && OwnHosts(s)
    ensures var script := CleanScript(CleanOf(s.cfg));
            var undone := ExecLinesQuietly(fw', Arguments(Lines(cmd, script))) == fw;
            (undone <==> !Enabled(s, fam) || Removable(s.cfg)) && (undone ==> DeletesCleanly(fw', script))
  {
    if s.cfg.traceLogging && Enabled(s, fam) {
      CleanDenotes(cmd, CleanOf(s.cfg));
      ExecQuietlyDenoted(fw', Arguments(Lines(cmd, CleanScript(CleanOf(s.cfg)))), CleanScript(CleanOf(s.cfg)));
      TracedFileStays(fw, s, fam, order, fw');
    } else {
      if !Enabled(s, fam) {
        NoBlocks(order);
        SwitchedOff(fw, s, fam);
      } else {
        UntracedFile(fw, s, fam, order, fw');
      }
      UninstallUndoes(fw, s, fam, fw', cmd);
    }
  }

  lemma SwitchedOff(fw: Firewall, s: Setup, fam: Family)
    requires !Enabled(s, fam)
    ensures Installed(fw, s, fam, fw)
  {
    assert UserChains([]) == [];
    assert BuildLines("iptables", []) == [];
  }
}
