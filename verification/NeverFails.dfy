/** The recorded script of a run never fails, save for one kind of name, and which chains it creates. */
module NeverFails {
  import opened Optional
  import opened Sequences
  import opened Netfilter
  import opened Commands
  import opened Builder
  import opened CallScripts
  import opened Install
  import opened Capture
  import opened RunFacts
  import Text

  /** A host with the built-in chains the run uses and no chain of an earlier run. */
  ghost predicate Host(fw: Firewall) {
    && (forall table, chain :: table in {NAT, MANGLE, RAW} && chain in {PREROUTING, OUTPUT} ==> ChainId(table, chain) in fw)
    && (forall id :: id in fw ==> id.chain !in ISTIO_CHAINS)
  }

  // ---------------------------------------------------------------- which chains are created

  /** The chains a run fills that the host does not have. */
  function RunChains(cfg: Config): set<ChainId> {
    {ChainId(NAT, ISTIO_OUTPUT), ChainId(NAT, ISTIO_INBOUND), ChainId(NAT, ISTIO_REDIRECT), ChainId(NAT, ISTIO_IN_REDIRECT)} +
    (if cfg.UsesTproxy() then {ChainId(MANGLE, ISTIO_INBOUND)} else {}) +
    (if cfg.UsesTproxy() && cfg.inboundPortsInclude != "" then {ChainId(MANGLE, ISTIO_DIVERT), ChainId(MANGLE, ISTIO_TPROXY)} else {})
  }

  lemma NatCreated(cfg: Config, chain: string)
    requires chain in NAT_CHAINS
    ensures ChainId(NAT, chain) in RunChains(cfg) && chain in ISTIO_CHAINS
  {
  }

  lemma RunMember(s: Setup, fam: Family, c: Call)
    requires c in RunCalls(s, fam)
    ensures exists phase :: phase in Phases() && c in PhaseCalls(s, fam, phase) && Fits(s.cfg, phase, c)
  {
    FlatMapMember(Phases(), CallsOf(s, fam), c);
    var phase :| phase in Phases() && c in CallsOf(s, fam)(phase);
    PhaseFits(s, fam, phase, c);
  }

  lemma InRun(s: Setup, fam: Family, phase: Phase, c: Call)
    requires c in PhaseCalls(s, fam, phase)
    ensures c in RunCalls(s, fam)
  {
    PhaseListed(phase);
    assert c in CallsOf(s, fam)(phase);
    FlatMapMember(Phases(), CallsOf(s, fam), c);
  }

  lemma PhaseListed(phase: Phase)
    ensures phase in Phases()
  {
    assert Phases()[0].ExcludedInterfaces? && Phases()[1].KubeReturns? && Phases()[2].InvalidDrops? &&
           Phases()[3].BaseChains? && Phases()[4].InboundPorts? && Phases()[5].OutputJump? && Phases()[6].OutputChain? &&
           Phases()[7].IncludedRanges? && Phases()[8].UdpDns? && Phases()[9].TproxyMarks? && Phases()[10].TproxyReturns?;
  }

  /** In the mangle table every chain of a run is created only in TPROXY mode. */
  lemma MangleChains(s: Setup, fam: Family, c: Call)
    requires c in PhaseCalls(s, fam, InboundPorts)
    ensures c.chain !in BUILT_IN_CHAINS ==> CallId(c) in RunChains(s.cfg)
  {
    var cfg := s.cfg;
    var jump := AppendCall(JUMP_INBOUND, PREROUTING, InboundTable(cfg), TcpRule(Jump(ISTIO_INBOUND)));
    InThree(if cfg.UsesTproxy() then DivertCalls(cfg, fam) else [], jump, InboundPortCalls(cfg), c);
    if c in InboundPortCalls(cfg) {
      InboundPortChain(cfg, c);
    } else if c != jump {
      DivertFits(cfg, fam, c);
      DivertChain(cfg, fam, c);
    }
  }

  lemma InboundPortChain(cfg: Config, c: Call)
    requires c in InboundPortCalls(cfg)
    ensures CallId(c) == ChainId(InboundTable(cfg), ISTIO_INBOUND)
  {
    var table := InboundTable(cfg);
    if cfg.inboundPortsInclude == "*" {
      var excluded := FlatMap(Text.Fields(cfg.inboundPortsExclude), TcpPorts(Return));
      if c in Calls(EXCLUDE_INBOUND_PORT, ISTIO_INBOUND, table, excluded) {
        CallsMember(EXCLUDE_INBOUND_PORT, ISTIO_INBOUND, table, excluded, c);
      } else {
        CallsMember(UNDEFINED_COMMAND, ISTIO_INBOUND, table, RestRules(cfg), c);
      }
    } else {
      var f := if cfg.UsesTproxy() then TproxyPorts() else TcpPorts(Jump(ISTIO_IN_REDIRECT));
      CallsMember(INCLUDE_INBOUND_PORT, ISTIO_INBOUND, table, FlatMap(Text.Fields(cfg.inboundPortsInclude), f), c);
    }
  }

  lemma DivertChain(cfg: Config, fam: Family, c: Call)
    requires c in DivertCalls(cfg, fam)
    ensures CallId(c) == ChainId(MANGLE, ISTIO_DIVERT) || CallId(c) == ChainId(MANGLE, ISTIO_TPROXY)
  {
    if c in Calls(UNDEFINED_COMMAND, ISTIO_DIVERT, MANGLE, AcceptMarkRules(cfg)) {
      CallsMember(UNDEFINED_COMMAND, ISTIO_DIVERT, MANGLE, AcceptMarkRules(cfg), c);
    } else {
      CallsMember(UNDEFINED_COMMAND, ISTIO_TPROXY, MANGLE, [TproxyRule(cfg, fam)], c);
    }
  }

  lemma InboundInRun(s: Setup, fam: Family, c: Call)
    requires c in InboundCalls(s.cfg, fam)
    ensures c in RunCalls(s, fam)
  {
    InRun(s, fam, InboundPorts, c);
  }

  lemma FillsDivert(s: Setup, fam: Family)
    requires s.cfg.UsesTproxy() && s.cfg.inboundPortsInclude != ""
    ensures ChainId(MANGLE, ISTIO_DIVERT) in UserIds(RunCalls(s, fam))
    ensures ChainId(MANGLE, ISTIO_TPROXY) in UserIds(RunCalls(s, fam))
  {
    var mark, tproxy := DivertMembers(s.cfg, fam);
    FillsOne(s, fam, ISTIO_DIVERT, mark);
    FillsOne(s, fam, ISTIO_TPROXY, tproxy);
  }

  lemma IstioChains(chain: string)
    requires chain in ISTIO_CHAINS
    ensures chain !in BUILT_IN_CHAINS
  {
  }

  lemma BuiltInNotIstio(chain: string)
    requires chain in BUILT_IN_CHAINS
    ensures chain !in ISTIO_CHAINS
  {
    if chain in ISTIO_CHAINS {
      IstioChains(chain);
    }
  }

  lemma FillsOne(s: Setup, fam: Family, chain: string, rule: Rule)
    requires AppendCall(UNDEFINED_COMMAND, chain, MANGLE, rule) in InboundCalls(s.cfg, fam) && chain in ISTIO_CHAINS
    ensures ChainId(MANGLE, chain) in UserIds(RunCalls(s, fam))
  {
    IstioChains(chain);
    var c := AppendCall(UNDEFINED_COMMAND, chain, MANGLE, rule);
    InboundInRun(s, fam, c);
    assert CallId(c) == ChainId(MANGLE, chain);
  }

  lemma DivertInbound(cfg: Config, fam: Family, c: Call)
    requires cfg.UsesTproxy() && cfg.inboundPortsInclude != "" && c in DivertCalls(cfg, fam)
    ensures c in InboundCalls(cfg, fam)
  {
  }

  /** The first rule of each of the two chains. */
  lemma DivertMembers(cfg: Config, fam: Family) returns (mark: Rule, tproxy: Rule)
    requires cfg.UsesTproxy() && cfg.inboundPortsInclude != ""
    ensures AppendCall(UNDEFINED_COMMAND, ISTIO_DIVERT, MANGLE, mark) in InboundCalls(cfg, fam)
    ensures AppendCall(UNDEFINED_COMMAND, ISTIO_TPROXY, MANGLE, tproxy) in InboundCalls(cfg, fam)
  {
    mark, tproxy := AcceptMarkRules(cfg)[0], TproxyRule(cfg, fam);
    CallsTwo(UNDEFINED_COMMAND, ISTIO_DIVERT, MANGLE, mark, AcceptMarkRules(cfg)[1]);
    CallsOne(UNDEFINED_COMMAND, ISTIO_TPROXY, MANGLE, tproxy);
    DivertInbound(cfg, fam, AppendCall(UNDEFINED_COMMAND, ISTIO_DIVERT, MANGLE, mark));
    DivertInbound(cfg, fam, AppendCall(UNDEFINED_COMMAND, ISTIO_TPROXY, MANGLE, tproxy));
  }

  lemma FillsInbound(s: Setup, fam: Family)
    requires s.cfg.UsesTproxy()
    ensures ChainId(MANGLE, ISTIO_INBOUND) in UserIds(RunCalls(s, fam))
  {
    var c := TproxyInserts(s.cfg, fam)[0];
    InRun(s, fam, TproxyReturns, c);
    assert CallId(c) == ChainId(MANGLE, ISTIO_INBOUND);
  }

  lemma FillsNat(s: Setup, fam: Family)
    ensures forall chain :: chain in NAT_CHAINS ==> ChainId(NAT, chain) in UserIds(RunCalls(s, fam))
  {
    var base := BaseCalls(s.cfg);
    var out := AppendCall(UNDEFINED_COMMAND, ISTIO_OUTPUT, NAT, PassthroughRule(fam));
    FillsOutput(s, fam);
    InRun(s, fam, OutputChain, out);
    InRun(s, fam, BaseChains, base[0]);
    InRun(s, fam, BaseChains, base[1]);
    InRun(s, fam, BaseChains, base[2]);
    assert CallId(out) == ChainId(NAT, ISTIO_OUTPUT) && CallId(base[0]) == ChainId(NAT, ISTIO_INBOUND) &&
           CallId(base[1]) == ChainId(NAT, ISTIO_REDIRECT) && CallId(base[2]) == ChainId(NAT, ISTIO_IN_REDIRECT);
  }

  lemma FillsOutput(s: Setup, fam: Family)
    ensures AppendCall(UNDEFINED_COMMAND, ISTIO_OUTPUT, NAT, PassthroughRule(fam)) in PhaseCalls(s, fam, OutputChain)
  {
    var r := PassthroughRule(fam);
    assert Segments()[1] == Passthrough;
    assert Passthrough in Segments();
    assert r in RulesOf(s, fam)(Passthrough);
    FlatMapMember(Segments(), RulesOf(s, fam), r);
    var c := AppendCall(UNDEFINED_COMMAND, ISTIO_OUTPUT, NAT, r);
    assert c in ToCall(UNDEFINED_COMMAND, ISTIO_OUTPUT, NAT)(r);
    FlatMapMember(OutputRules(s, fam), ToCall(UNDEFINED_COMMAND, ISTIO_OUTPUT, NAT), c);
  }

  lemma TouchedRunChains(cfg: Config, phase: Phase, id: ChainId)
    requires id in Touched(phase) && id.chain !in BUILT_IN_CHAINS
    requires phase != InboundPorts && (phase == TproxyReturns ==> cfg.UsesTproxy())
    ensures id in RunChains(cfg)
  {
  }

  lemma TouchedChains(s: Setup, fam: Family, phase: Phase, c: Call)
    requires c in PhaseCalls(s, fam, phase) && Fits(s.cfg, phase, c) && c.chain !in BUILT_IN_CHAINS
    ensures CallId(c) in RunChains(s.cfg)
  {
    if phase == InboundPorts {
      MangleChains(s, fam, c);
    } else {
      assert phase == TproxyReturns ==> s.cfg.UsesTproxy();
      TouchedRunChains(s.cfg, phase, CallId(c));
    }
  }

  /** Exactly these chains are created, each once and none of them built in. */
  lemma RunCreates(s: Setup, fam: Family)
    ensures UserIds(RunCalls(s, fam)) == RunChains(s.cfg)
    ensures forall trace :: IdSet(NewChains(Recorded(trace, RunCalls(s, fam)))) == RunChains(s.cfg)
    ensures forall trace :: Distinct(NewChains(Recorded(trace, RunCalls(s, fam))))
  {
    var calls := RunCalls(s, fam);
    FillsNat(s, fam);
    if s.cfg.UsesTproxy() {
      FillsInbound(s, fam);
      if s.cfg.inboundPortsInclude != "" {
        FillsDivert(s, fam);
      }
    }
    forall id | id in UserIds(calls) ensures id in RunChains(s.cfg) {
      var c :| c in calls && c.chain !in BUILT_IN_CHAINS && CallId(c) == id;
      RunMember(s, fam, c);
      var phase :| phase in Phases() && c in PhaseCalls(s, fam, phase) && Fits(s.cfg, phase, c);
      TouchedChains(s, fam, phase, c);
    }
    assert UserIds(calls) == RunChains(s.cfg);
    RunColonFree(s, fam);
    ChainsCreated(true, calls);
    ChainsCreated(false, calls);
  }

  lemma RunColonFree(s: Setup, fam: Family)
    ensures forall c :: c in RunCalls(s, fam) ==> c.table in {NAT, MANGLE, RAW} && ':' !in c.table
  {
    forall c | c in RunCalls(s, fam) ensures c.table in {NAT, MANGLE, RAW} && ':' !in c.table {
      RunMember(s, fam, c);
      var phase :| phase in Phases() && c in PhaseCalls(s, fam, phase) && Fits(s.cfg, phase, c);
      TouchedTables(phase, CallId(c));
    }
  }

  lemma TouchedTables(phase: Phase, id: ChainId)
    requires id in Touched(phase)
    ensures id.table in {NAT, MANGLE, RAW} && ':' !in id.table
    ensures id.chain in BUILT_IN_CHAINS ==> id.chain in {PREROUTING, OUTPUT}
    ensures id.chain in BUILT_IN_CHAINS || id.chain in ISTIO_CHAINS
  {
  }

  // ---------------------------------------------------------------- the lines can be read

  /** No rule that is logged has a value spelled like the option that ends a rule. */
  predicate LogsReadably(trace: bool, calls: seq<Call>) {
    forall c :: c in calls && Traced(trace, c) ==> forall x :: x in c.rule.conds ==> x.test.value != "-j"
  }

  lemma JumpRunChains(cfg: Config, table: string, chain: string)
    requires JumpFits(cfg, table, chain)
    ensures ChainId(table, chain) in RunChains(cfg)
  {
  }

  lemma CallInstallable(fw: Firewall, s: Setup, fam: Family, trace: bool, c: Call)
    requires Host(fw) && c in RunCalls(s, fam)
    requires Traced(trace, c) ==> forall x :: x in c.rule.conds ==> x.test.value != "-j"
    ensures Readable(trace, c)
    ensures c.chain in BUILT_IN_CHAINS ==> CallId(c) in fw
    ensures c.rule.target.Jump? ==> ChainId(c.table, c.rule.target.chain) in RunChains(s.cfg)
  {
    RunMember(s, fam, c);
    var phase :| phase in Phases() && c in PhaseCalls(s, fam, phase) && Fits(s.cfg, phase, c);
    TouchedTables(phase, CallId(c));
    if c.rule.target.Jump? {
      JumpRunChains(s.cfg, c.table, c.rule.target.chain);
    }
  }

  lemma CallsInstallable(fw: Firewall, s: Setup, fam: Family, trace: bool)
    requires Host(fw) && LogsReadably(trace, RunCalls(s, fam))
    ensures Installable(fw, trace, RunCalls(s, fam))
  {
    var calls := RunCalls(s, fam);
    RunCreates(s, fam);
    RunColonFree(s, fam);
    forall c | c in calls
      ensures Readable(trace, c)
      ensures c.chain in BUILT_IN_CHAINS ==> CallId(c) in fw
      ensures c.rule.target.Jump? ==> ChainId(c.table, c.rule.target.chain) in RunChains(s.cfg)
    {
      CallInstallable(fw, s, fam, trace, c);
    }
    forall id | id in RunChains(s.cfg) ensures id !in fw {
      RunChainNames(s.cfg, id);
    }
  }

  lemma RunChainNames(cfg: Config, id: ChainId)
    requires id in RunChains(cfg)
    ensures id.chain in ISTIO_CHAINS && id.table in {NAT, MANGLE}
  {
  }

  // ---------------------------------------------------------------- every insertion fits

  function Head(): seq<Phase> {
    Phases()[..10]
  }

  lemma RunSplit(s: Setup, fam: Family)
    ensures RunCalls(s, fam) == FlatMap(Head(), CallsOf(s, fam)) + PhaseCalls(s, fam, TproxyReturns)
  {
    assert Phases() == Head() + [TproxyReturns];
    FlatMapPush(Head(), CallsOf(s, fam), TproxyReturns);
  }

  lemma HeadCall(s: Setup, fam: Family, c: Call)
    requires c in FlatMap(Head(), CallsOf(s, fam))
    ensures c.InsertCall? ==> c.position == 1
  {
    FlatMapMember(Head(), CallsOf(s, fam), c);
    var phase :| phase in Head() && c in CallsOf(s, fam)(phase);
    PhaseFits(s, fam, phase, c);
    NotLast(phase);
  }

  lemma HeadFits(s: Setup, fam: Family, trace: bool, x: Command)
    requires x in Script(trace, FlatMap(Head(), CallsOf(s, fam)))
    ensures x.AppendTo? || (x.InsertAt? && x.position == 1)
  {
    var calls := FlatMap(Head(), CallsOf(s, fam));
    FlatMapMember(calls, CommandsOf(trace), x);
    var c :| c in calls && x in CommandsOf(trace)(c);
    HeadCall(s, fam, c);
  }

  lemma NotLast(phase: Phase)
    requires phase in Head()
    ensures phase != TproxyReturns
  {
  }

  /** Rules inserted at 1, 2 and 3 in turn come first, in that order. */
  lemma ThreeInserts(id: ChainId, rules: seq<Rule>, a: Rule, b: Rule, c: Rule)
    ensures ChainAfter(id, rules, [InsertAt(id, 1, a), InsertAt(id, 2, b), InsertAt(id, 3, c)]) == Some([a, b, c] + rules)
  {
    var r1 := Inserted(rules, 1, a);
    assert r1 == [a] + rules;
    var r2 := Inserted(r1, 2, b);
    assert r2 == [a, b] + rules;
    var r3 := Inserted(r2, 3, c);
    assert r3 == [a, b, c] + rules;
    assert ChainAfter(id, r2, [InsertAt(id, 3, c)]) == ChainAfter(id, r3, []);
    assert [InsertAt(id, 2, b), InsertAt(id, 3, c)][1..] == [InsertAt(id, 3, c)];
    assert ChainAfter(id, r1, [InsertAt(id, 2, b), InsertAt(id, 3, c)]) == ChainAfter(id, r2, [InsertAt(id, 3, c)]);
    assert [InsertAt(id, 1, a), InsertAt(id, 2, b), InsertAt(id, 3, c)][1..] == [InsertAt(id, 2, b), InsertAt(id, 3, c)];
  }

  lemma {:induction false} ElsewhereAfter(id: ChainId, rules: seq<Rule>, script: seq<Command>)
    requires forall x :: x in script ==> x.id != id
    ensures ChainAfter(id, rules, script) == Some(rules)
    decreases |script|
  {
    if script != [] {
      assert script[0] in script;
      ElsewhereAfter(id, rules, script[1..]);
    }
  }

  lemma UndefinedInsert(trace: bool, chain: string, table: string, position: nat, r: Rule)
    ensures CommandsOf(trace)(InsertCall(UNDEFINED_COMMAND, chain, table, position, r)) == [InsertAt(ChainId(table, chain), position, r)]
  {
  }

  lemma TailScript(cfg: Config, fam: Family, trace: bool)
    ensures var id := ChainId(MANGLE, ISTIO_INBOUND);
            Script(trace, TproxyInserts(cfg, fam)) ==
            [InsertAt(id, 1, MarkedInboundRule(cfg.inboundTProxyMark)),
             InsertAt(id, 2, FromPassthroughRule(PassthroughSource(fam))),
             InsertAt(id, 3, UnmarkedLoopbackRule())]
  {
    var a, b, c := MarkedInboundRule(cfg.inboundTProxyMark), FromPassthroughRule(PassthroughSource(fam)), UnmarkedLoopbackRule();
    var cs := TproxyInserts(cfg, fam);
    FlatMapThree(CommandsOf(trace), cs[0], cs[1], cs[2]);
    UndefinedInsert(trace, ISTIO_INBOUND, MANGLE, 1, a);
    UndefinedInsert(trace, ISTIO_INBOUND, MANGLE, 2, b);
    UndefinedInsert(trace, ISTIO_INBOUND, MANGLE, 3, c);
  }

  lemma TailFits(id: ChainId, rules: seq<Rule>, s: Setup, fam: Family, trace: bool)
    ensures ChainAfter(id, rules, Script(trace, PhaseCalls(s, fam, TproxyReturns))).Some?
  {
    if s.cfg.UsesTproxy() {
      TailScript(s.cfg, fam, trace);
      if id == ChainId(MANGLE, ISTIO_INBOUND) {
        ThreeInserts(id, rules, MarkedInboundRule(s.cfg.inboundTProxyMark), FromPassthroughRule(PassthroughSource(fam)),
                     UnmarkedLoopbackRule());
      } else {
        ElsewhereAfter(id, rules, Script(trace, TproxyInserts(s.cfg, fam)));
      }
    }
  }

  /** Every insertion of a run falls within its chain, whatever the chain held before. */
  lemma RunInsertsFit(id: ChainId, rules: seq<Rule>, s: Setup, fam: Family, trace: bool)
    ensures ChainAfter(id, rules, Script(trace, RunCalls(s, fam))).Some?
  {
    var head := FlatMap(Head(), CallsOf(s, fam));
    var tail := PhaseCalls(s, fam, TproxyReturns);
    RunSplit(s, fam);
    FlatMapConcat(head, tail, CommandsOf(trace));
    forall x | x in Script(trace, head) ensures x.AppendTo? || (x.InsertAt? && x.position == 1) {
      HeadFits(s, fam, trace, x);
    }
    ChainAfterFits(id, rules, Script(trace, head));
    ChainAfterConcat(id, rules, Script(trace, head), Script(trace, tail));
    TailFits(id, ChainAfter(id, rules, Script(trace, head)).value, s, fam, trace);
  }

  // ---------------------------------------------------------------- an unreadable log rule

  /** The tokens of the conditions up to the first value that looks like `-j`, which ends them. */
  function UpToCut(conds: seq<Cond>): seq<string> {
    if conds == [] then []
    else if conds[0].test.value == "-j" then CondTokens(conds[0])
    else CondTokens(conds[0]) + UpToCut(conds[1..])
  }

  lemma {:induction false} CutTokens(conds: seq<Cond>, log: seq<string>, rest: seq<string>)
    requires exists x :: x in conds && x.test.value == "-j"
    requires log != [] && log[0] == "-j"
    ensures "-j" in CondsTokens(conds) + rest
    ensures CutAt(CondsTokens(conds) + rest) + log == UpToCut(conds) + log[1..]
    decreases |conds|
  {
    if conds[0].test.value == "-j" {
      CutFirst(conds, log, rest);
    } else {
      LaterCut(conds);
      CutTokens(conds[1..], log, rest);
      CutRest(conds, log, rest);
    }
  }

  lemma CutFirst(conds: seq<Cond>, log: seq<string>, rest: seq<string>)
    requires conds != [] && conds[0].test.value == "-j" && log != [] && log[0] == "-j"
    ensures "-j" in CondsTokens(conds) + rest
    ensures CutAt(CondsTokens(conds) + rest) + log == UpToCut(conds) + log[1..]
  {
    Assoc(CondTokens(conds[0]), CondsTokens(conds[1..]), rest);
    CutHere(CondTokens(conds[0]), CondsTokens(conds[1..]) + rest, log);
  }

  lemma CutRest(conds: seq<Cond>, log: seq<string>, rest: seq<string>)
    requires conds != [] && conds[0].test.value != "-j" && log != []
    requires var more := CondsTokens(conds[1..]) + rest; "-j" in more && CutAt(more) + log == UpToCut(conds[1..]) + log[1..]
    ensures "-j" in CondsTokens(conds) + rest
    ensures CutAt(CondsTokens(conds) + rest) + log == UpToCut(conds) + log[1..]
  {
    Assoc(CondTokens(conds[0]), CondsTokens(conds[1..]), rest);
    CutLater(CondTokens(conds[0]), CondsTokens(conds[1..]) + rest, log, UpToCut(conds[1..]));
  }

  lemma LaterCut(conds: seq<Cond>)
    requires exists x :: x in conds && x.test.value == "-j"
    requires conds[0].test.value != "-j"
    ensures exists x :: x in conds[1..] && x.test.value == "-j"
  {
    var x :| x in conds && x.test.value == "-j";
    assert x in conds[1..];
  }

  /** Reading gets as far as that value and then finds something that is not an option. */
  lemma {:induction false} CutUnreadable(conds: seq<Cond>, tail: seq<string>, mod: string, proto: string)
    requires |tail| >= 2 && tail[0] == "NFLOG"
    ensures ParseRule(UpToCut(conds) + tail, mod, proto).None?
    decreases |conds|
  {
    if conds == [] {
      assert [] + tail == tail;
    } else if conds[0].test.value == "-j" {
      CutUnreadable([], tail, PastMod(conds[0], mod), NextProtocol(conds[0], proto));
      assert [] + tail == tail;
      PastCond(conds[0], tail, mod, proto);
    } else {
      CutUnreadable(conds[1..], tail, PastMod(conds[0], mod), NextProtocol(conds[0], proto));
      PastCond(conds[0], UpToCut(conds[1..]) + tail, mod, proto);
      Assoc(CondTokens(conds[0]), UpToCut(conds[1..]), tail);
    }
  }

  function PastMod(c: Cond, mod: string): string {
    if ModuleName(c.test) == "" then mod else ModuleName(c.test)
  }

  function CutAt(toks: seq<string>): seq<string> {
    if "-j" in toks then toks[..IndexOf("-j", toks)] else toks
  }

  lemma CutHere(first: seq<string>, more: seq<string>, log: seq<string>)
    requires first != [] && first[|first| - 1] == "-j" && "-j" !in first[..|first| - 1]
    requires log != [] && log[0] == "-j"
    ensures "-j" in first + more && CutAt(first + more) + log == first + log[1..]
  {
    var toks, n := first + more, |first| - 1;
    assert toks[..n] == first[..n];
    IndexOfFirst("-j", toks, n);
    assert first + log[1..] == first[..n] + log;
  }

  lemma CutLater(first: seq<string>, more: seq<string>, log: seq<string>, kept: seq<string>)
    requires "-j" !in first && "-j" in more && log != [] && CutAt(more) + log == kept + log[1..]
    ensures "-j" in first + more && CutAt(first + more) + log == first + kept + log[1..]
  {
    var k := IndexOf("-j", more);
    assert (first + more)[..|first| + k] == first + more[..k];
    IndexOfFirst("-j", first + more, |first| + k);
    Assoc(first, CutAt(more), log);
    Assoc(first, kept, log[1..]);
  }

  /** Reading on after one condition fails when it fails from the state it leaves. */
  lemma PastCond(c: Cond, tail: seq<string>, mod: string, proto: string)
    requires ParseRule(tail, PastMod(c, mod), NextProtocol(c, proto)).None?
    ensures ParseRule(CondTokens(c) + tail, mod, proto).None?
  {
    var mod' := PastMod(c, mod);
    var toks := CondTokens(c) + tail;
    var bare := (if c.negated then ["!"] else []) + [OptionName(c.test), c.test.value] + tail;
    if ModuleName(c.test) == "" {
      assert toks == bare;
    } else {
      assert toks[2..] == bare;
      assert toks[0] == "-m" && toks[1] == mod';
    }
    var read := ParseTest(mod', proto, OptionName(c.test), c.test.value);
    assert read.Some? ==> read.value == c.test;
    if c.negated {
      assert bare[0] == "!" && bare[1] == OptionName(c.test) && bare[2] == c.test.value && bare[3..] == tail;
    } else {
      assert bare[0] == OptionName(c.test) && bare[1] == c.test.value && bare[2..] == tail;
    }
  }

  lemma {:induction false} UnreadableFails(fw: Firewall, lines: seq<seq<string>>, k: nat)
    requires k < |lines| && ParseCommand(lines[k]).None?
    ensures ExecLines(fw, lines).None?
    decreases |lines|
  {
    if k > 0 {
      var c := ParseCommand(lines[0]);
      if c.Some? && Step(fw, c.value).Some? {
        UnreadableFails(Step(fw, c.value).value, lines[1..], k - 1);
      }
    }
  }

  lemma CutEntry(c: Call)
    requires c.command != UNDEFINED_COMMAND
    requires exists x :: x in c.rule.conds && x.test.value == "-j"
    ensures exists e :: e in CallEntries(true, c) && ParseCommand(EntryArgs(e)).None?
  {
    var toks := RuleTokens(c.rule);
    CutTokens(c.rule.conds, LogTokens(Quoted(c.command)), TargetTokens(c.rule.target));
    CutUnreadable(c.rule.conds, LogTokens(Quoted(c.command))[1..], "", "");
    var log := LogParams(c.command, toks);
    if c.AppendCall? {
      var e := Entry(c.chain, c.table, ["-A", c.chain] + log);
      assert e in CallEntries(true, c);
      CutAppend(e, log);
    } else {
      var e := Entry(c.chain, c.table, ["-I", c.chain, Decimal(c.position)] + log);
      assert e in CallEntries(true, c);
      CutInsert(e, Decimal(c.position), log);
    }
  }

  lemma CutAppend(e: Entry, log: seq<string>)
    requires e.params == ["-A", e.chain] + log && ParseRule(log, "", "").None?
    ensures ParseCommand(EntryArgs(e)).None?
  {
    var args := EntryArgs(e);
    if |args| >= 4 {
      assert args[2] == "-A" && args[4..] == log;
    }
  }

  lemma CutInsert(e: Entry, position: string, log: seq<string>)
    requires e.params == ["-I", e.chain, position] + log && ParseRule(log, "", "").None?
    ensures ParseCommand(EntryArgs(e)).None?
  {
    var args := EntryArgs(e);
    if |args| >= 5 {
      assert args[2] == "-I" && args[4..] == [position] + log;
      assert args[4..][1..] == log;
    }
  }

  lemma UnreadableLine(command: string, entries: seq<Entry>, e: Entry, fw: Firewall)
    requires e in entries && ParseCommand(EntryArgs(e)).None?
    ensures ExecLines(fw, Arguments(BuildLines(command, entries))).None?
  {
    var k :| 0 <= k < |entries| && entries[k] == e;
    RuleLineArgs(command, entries);
    EntriesOneByOne(entries);
    ArgumentsConcat(NewLines(command, NewChains(entries)), RuleLines(command, entries));
    UnreadableFails(fw, Arguments(BuildLines(command, entries)), |NewChains(entries)| + k);
  }

  // ---------------------------------------------------------------- the theorem

  /**
   On every host, for every configuration and family, the script of a run succeeds exactly when no
   logged rule has a value spelled `-j`; in particular always when tracing is off.
   */
  lemma RunSucceeds(fw: Firewall, s: Setup, fam: Family, command: string)
    requires Host(fw)
    ensures ExecLines(fw, Arguments(BuildLines(command, RunEntries(s, fam)))).Some? <==>
            (fam.V6? && !s.cfg.enableInboundIPv6) || LogsReadably(s.cfg.traceLogging, RunCalls(s, fam))
  {
    var trace, calls := s.cfg.traceLogging, RunCalls(s, fam);
    if fam.V6? && !s.cfg.enableInboundIPv6 {
      assert UserChains([]) == [];
      assert BuildLines(command, []) == [];
    } else if LogsReadably(trace, calls) {
      CallsInstallable(fw, s, fam, trace);
      forall id | id in fw.Keys + UserIds(calls) ensures ChainAfter(id, Before(fw, id), Script(trace, calls)).Some? {
        RunInsertsFit(id, Before(fw, id), s, fam, trace);
      }
      Installs(fw, command, trace, calls);
    } else {
      var c :| c in calls && Traced(trace, c) && exists x :: x in c.rule.conds && x.test.value == "-j";
      CutEntry(c);
      var e :| e in CallEntries(true, c) && ParseCommand(EntryArgs(e)).None?;
      assert e in EntriesOf(trace)(c);
      FlatMapMember(calls, EntriesOf(trace), e);
      UnreadableLine(command, Recorded(trace, calls), e, fw);
    }
  }
}
