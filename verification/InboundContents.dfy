/** What the chains that arriving packets pass through hold after a run without tracing. */
module InboundContents {
  import opened Optional
  import opened Sequences
  import opened Netfilter
  import opened Commands
  import opened Builder
  import opened CallScripts
  import opened Install
  import opened Capture
  import opened RunFacts
  import opened NeverFails
  import opened Tracing
  import opened Contents
  import Text

  // ---------------------------------------------------------------- chains with insertions at the head

  /** The rules inserted at the head of a chain, the last one first. */
  function Heads(id: ChainId, calls: seq<Call>): seq<Rule> {
    if calls == [] then []
    else
      var last := calls[|calls| - 1];
      (if CallId(last) == id && last.InsertCall? then [last.rule] else []) + Heads(id, calls[..|calls| - 1])
  }

  lemma {:induction false} HeadsConcat(id: ChainId, a: seq<Call>, b: seq<Call>)
    ensures Heads(id, a + b) == Heads(id, b) + Heads(id, a)
    decreases |b|
  {
    if b == [] {
      assert a + b == a;
    } else {
      assert (a + b)[..|a + b| - 1] == a + b[..|b| - 1];
      HeadsConcat(id, a, b[..|b| - 1]);
    }
  }

  lemma {:induction false} HeadsMember(id: ChainId, calls: seq<Call>, r: Rule)
    ensures r in Heads(id, calls) <==> exists c :: c in calls && CallId(c) == id && c.InsertCall? && c.rule == r
  {
    if calls != [] {
      var front, last := calls[..|calls| - 1], calls[|calls| - 1];
      HeadsMember(id, front, r);
      assert last in calls;
      assert forall c :: c in calls <==> c in front || c == last;
    }
  }

  lemma HeadsNothing(id: ChainId, calls: seq<Call>)
    requires forall c :: c in calls && CallId(c) == id ==> c.AppendCall?
    ensures Heads(id, calls) == []
  {
    if Heads(id, calls) != [] {
      HeadsMember(id, calls, Heads(id, calls)[0]);
    }
  }

  lemma UntracedCall(id: ChainId, rules: seq<Rule>, c: Call)
    requires CallId(c) == id ==> AtAnEnd(c)
    ensures ChainAfter(id, rules, CallCommands(false, c)) ==
            Some(if CallId(c) != id then rules else if c.AppendCall? then rules + [c.rule] else [c.rule] + rules)
  {
    if CallId(c) == id {
      OneCall(id, rules, false, c);
      assert rules + [] == rules && [] + [c.rule] == [c.rule];
    } else {
      ElsewhereAfter(id, rules, CallCommands(false, c));
    }
  }

  /** A chain that held `rules` after these calls: the insertions, what it held, the appends. */
  function Around(id: ChainId, rules: seq<Rule>, calls: seq<Call>): seq<Rule> {
    Heads(id, calls) + rules + FlatMap(calls, OnChain(id))
  }

  lemma {:induction false} EndsOnChain(id: ChainId, rules: seq<Rule>, calls: seq<Call>)
    requires forall c :: c in calls ==> CallId(c) == id ==> AtAnEnd(c)
    ensures ChainAfter(id, rules, Script(false, calls)) == Some(Around(id, rules, calls))
  {
    if calls == [] {
      AroundNothing(id, rules);
    } else {
      var front, last := calls[..|calls| - 1], calls[|calls| - 1];
      EndsOnChain(id, rules, front);
      EndsStep(id, rules, front, last);
      assert front + [last] == calls;
    }
  }

  lemma EndsStep(id: ChainId, rules: seq<Rule>, front: seq<Call>, last: Call)
    requires CallId(last) == id ==> AtAnEnd(last)
    requires ChainAfter(id, rules, Script(false, front)) == Some(Around(id, rules, front))
    ensures ChainAfter(id, rules, Script(false, front + [last])) == Some(Around(id, rules, front + [last]))
  {
    OneMoreCommand(id, rules, front, last, Around(id, rules, front));
    OneMoreCall(id, rules, front, last);
  }

  lemma AroundNothing(id: ChainId, rules: seq<Rule>)
    ensures Around(id, rules, []) == rules
  {
    assert [] + rules + [] == rules;
  }

  lemma OneMoreCommand(id: ChainId, rules: seq<Rule>, front: seq<Call>, last: Call, mid: seq<Rule>)
    requires CallId(last) == id ==> AtAnEnd(last)
    requires ChainAfter(id, rules, Script(false, front)) == Some(mid)
    ensures ChainAfter(id, rules, Script(false, front + [last])) ==
            Some(if CallId(last) != id then mid else if last.AppendCall? then mid + [last.rule] else [last.rule] + mid)
  {
    SplitScript(id, rules, false, front, [last]);
    FlatMapOne(CommandsOf(false), last);
    UntracedCall(id, mid, last);
  }

  lemma HeadsPush(id: ChainId, front: seq<Call>, last: Call)
    ensures Heads(id, front + [last]) == (if CallId(last) == id && last.InsertCall? then [last.rule] else []) + Heads(id, front)
  {
    assert (front + [last])[..|front|] == front;
  }

  lemma Enclosed<T>(a: seq<T>, b: seq<T>, c: seq<T>, x: T)
    ensures [x] + a + b + c == [x] + (a + b + c) && a + b + (c + [x]) == a + b + c + [x]
    ensures [] + a == a && c + [] == c
  {
  }

  lemma OneMoreCall(id: ChainId, rules: seq<Rule>, front: seq<Call>, last: Call)
    ensures var mid := Around(id, rules, front);
            Around(id, rules, front + [last]) ==
            if CallId(last) != id then mid else if last.AppendCall? then mid + [last.rule] else [last.rule] + mid
  {
    FlatMapPush(front, OnChain(id), last);
    HeadsPush(id, front, last);
    Enclosed(Heads(id, front), rules, FlatMap(front, OnChain(id)), last.rule);
  }

  /** The chain of a run that only inserts at its head. */
  lemma EndedChain(fw: Firewall, s: Setup, fam: Family, fw': Firewall, id: ChainId)
    requires Host(fw) && Enabled(s, fam) && !s.cfg.traceLogging && Installed(fw, s, fam, fw')
    requires id in fw' && forall c :: c in RunCalls(s, fam) && CallId(c) == id ==> AtAnEnd(c)
    ensures fw'[id] == Heads(id, RunCalls(s, fam)) + Before(fw, id) + Content(s, fam, id)
  {
    InstalledChains(fw, s, fam, fw');
    EndsOnChain(id, Before(fw, id), RunCalls(s, fam));
    RunContent(s, fam, id);
  }

  // ---------------------------------------------------------------- what the inbound calls append

  lemma CallsOnChain(command: string, chain: string, table: string, rules: seq<Rule>, id: ChainId)
    ensures FlatMap(Calls(command, chain, table, rules), OnChain(id)) == if id == ChainId(table, chain) then rules else []
  {
    var calls := Calls(command, chain, table, rules);
    if id == ChainId(table, chain) {
      AppendsOnChain(command, id, rules);
    } else {
      forall c | c in calls ensures OnChain(id)(c) == [] {
        CallsMember(command, chain, table, rules, c);
      }
      FlatMapNothing(calls, OnChain(id));
    }
  }

  /** The rules for the included ports. */
  function PortRules(cfg: Config): seq<Rule> {
    if cfg.inboundPortsInclude == "*" then
      FlatMap(Text.Fields(cfg.inboundPortsExclude), TcpPorts(Return)) + RestRules(cfg)
    else
      FlatMap(Text.Fields(cfg.inboundPortsInclude), if cfg.UsesTproxy() then TproxyPorts() else TcpPorts(Jump(ISTIO_IN_REDIRECT)))
  }

  lemma PortsOnChain(cfg: Config, id: ChainId)
    ensures FlatMap(InboundPortCalls(cfg), OnChain(id)) == if id == ChainId(InboundTable(cfg), ISTIO_INBOUND) then PortRules(cfg) else []
  {
    var table := InboundTable(cfg);
    if cfg.inboundPortsInclude == "*" {
      var excluded := FlatMap(Text.Fields(cfg.inboundPortsExclude), TcpPorts(Return));
      CallsOnChain(EXCLUDE_INBOUND_PORT, ISTIO_INBOUND, table, excluded, id);
      CallsOnChain(UNDEFINED_COMMAND, ISTIO_INBOUND, table, RestRules(cfg), id);
      FlatMapConcat(Calls(EXCLUDE_INBOUND_PORT, ISTIO_INBOUND, table, excluded),
                    Calls(UNDEFINED_COMMAND, ISTIO_INBOUND, table, RestRules(cfg)), OnChain(id));
    } else {
      CallsOnChain(INCLUDE_INBOUND_PORT, ISTIO_INBOUND, table, PortRules(cfg), id);
    }
  }

  /** The rules of the two chains of TPROXY mode. */
  function DivertRules(cfg: Config, fam: Family, id: ChainId): seq<Rule> {
    if !cfg.UsesTproxy() then []
    else if id == ChainId(MANGLE, ISTIO_DIVERT) then AcceptMarkRules(cfg)
    else if id == ChainId(MANGLE, ISTIO_TPROXY) then [TproxyRule(cfg, fam)]
    else []
  }

  lemma DivertOnChain(cfg: Config, fam: Family, id: ChainId)
    ensures FlatMap(if cfg.UsesTproxy() then DivertCalls(cfg, fam) else [], OnChain(id)) == DivertRules(cfg, fam, id)
  {
    if cfg.UsesTproxy() {
      DivertsApart();
      CallsOnChain(UNDEFINED_COMMAND, ISTIO_DIVERT, MANGLE, AcceptMarkRules(cfg), id);
      CallsOnChain(UNDEFINED_COMMAND, ISTIO_TPROXY, MANGLE, [TproxyRule(cfg, fam)], id);
      FlatMapConcat(Calls(UNDEFINED_COMMAND, ISTIO_DIVERT, MANGLE, AcceptMarkRules(cfg)),
                    Calls(UNDEFINED_COMMAND, ISTIO_TPROXY, MANGLE, [TproxyRule(cfg, fam)]), OnChain(id));
    }
  }

  lemma DivertsApart()
    ensures ISTIO_DIVERT != ISTIO_TPROXY && ISTIO_DIVERT != ISTIO_INBOUND && ISTIO_TPROXY != ISTIO_INBOUND
  {
  }

  function InboundRules(cfg: Config, fam: Family, id: ChainId): seq<Rule> {
    if cfg.inboundPortsInclude == "" then []
    else
      DivertRules(cfg, fam, id) +
      (if id == ChainId(InboundTable(cfg), PREROUTING) then [TcpRule(Jump(ISTIO_INBOUND))] else []) +
      (if id == ChainId(InboundTable(cfg), ISTIO_INBOUND) then PortRules(cfg) else [])
  }

  lemma InboundOnChain(s: Setup, fam: Family, id: ChainId)
    ensures PhaseContent(s, fam, id)(InboundPorts) == InboundRules(s.cfg, fam, id)
  {
    InboundPhase(s, fam);
    PhaseContentOf(s, fam, id, InboundPorts, InboundCalls(s.cfg, fam));
    if s.cfg.inboundPortsInclude != "" {
      InboundCallsOnChain(s.cfg, fam, id);
    }
  }

  lemma InboundCallsOnChain(cfg: Config, fam: Family, id: ChainId)
    requires cfg.inboundPortsInclude != ""
    ensures FlatMap(InboundCalls(cfg, fam), OnChain(id)) == InboundRules(cfg, fam, id)
  {
    var divert := if cfg.UsesTproxy() then DivertCalls(cfg, fam) else [];
    var jump := AppendCall(JUMP_INBOUND, PREROUTING, InboundTable(cfg), TcpRule(Jump(ISTIO_INBOUND)));
    DivertOnChain(cfg, fam, id);
    FlatMapPush(divert, OnChain(id), jump);
    PortsOnChain(cfg, id);
    FlatMapConcat(divert + [jump], InboundPortCalls(cfg), OnChain(id));
  }

  // ---------------------------------------------------------------- nat PREROUTING

  const ARRIVING := ChainId(NAT, PREROUTING)

  lemma ArrivingAtEnds(s: Setup, fam: Family, c: Call)
    requires c in RunCalls(s, fam) && CallId(c) == ARRIVING
    ensures AtAnEnd(c)
  {
    RunMember(s, fam, c);
    var phase :| phase in Phases() && c in PhaseCalls(s, fam, phase) && Fits(s.cfg, phase, c);
    NatNotMangle();
  }

  lemma NatNotMangle()
    ensures NAT != MANGLE
  {
  }

  /** Which phases touch nat PREROUTING. */
  lemma TouchesArriving(phase: Phase)
    ensures ARRIVING in Touched(phase) <==> phase in {ExcludedInterfaces, KubeReturns, InboundPorts, IncludedRanges}
  {
  }

  lemma KubeAppendsNothing(s: Setup, fam: Family)
    ensures PhaseContent(s, fam, ARRIVING)(KubeReturns) == []
  {
    var kubes := Text.Fields(s.cfg.kubeVirtInterfaces);
    var calls := FlatMap(kubes, KubeTraffic(Return));
    PhaseContentOf(s, fam, ARRIVING, KubeReturns, calls);
    forall c | c in calls ensures OnChain(ARRIVING)(c) == [] {
      FlatMapMember(kubes, KubeTraffic(Return), c);
    }
    FlatMapNothing(calls, OnChain(ARRIVING));
  }

  lemma IncludeAppendsNothing(s: Setup, fam: Family)
    ensures PhaseContent(s, fam, ARRIVING)(IncludedRanges) == []
  {
    var calls := IncludeCalls(s.cfg, s.Included(fam));
    IncludedPhase(s, fam);
    PhaseContentOf(s, fam, ARRIVING, IncludedRanges, calls);
    forall c | c in calls ensures OnChain(ARRIVING)(c) == [] {
      IncludeCall(s.cfg, s.Included(fam), c);
    }
    FlatMapNothing(calls, OnChain(ARRIVING));
  }

  /** The calls for the included ranges: appends to the outbound chain, insertions into nat PREROUTING. */
  lemma IncludeCall(cfg: Config, range: NetworkRange, c: Call)
    requires c in IncludeCalls(cfg, range)
    ensures c.AppendCall? ==> CallId(c) != ARRIVING
    ensures c.InsertCall? ==> CallId(c) == ARRIVING && KubeRedirect(cfg, range, c.rule)
  {
    var kubes := Text.Fields(cfg.kubeVirtInterfaces);
    OutputNotArriving();
    if range.isWildcard {
      if c in FlatMap(kubes, KubeTraffic(Jump(ISTIO_REDIRECT))) {
        FlatMapMember(kubes, KubeTraffic(Jump(ISTIO_REDIRECT)), c);
      }
    } else if c in FlatMap(range.ipNets, IncludedRange(kubes)) {
      FlatMapMember(range.ipNets, IncludedRange(kubes), c);
      var cidr :| cidr in range.ipNets && c in IncludedRange(kubes)(cidr);
      if c in FlatMap(kubes, KubeTrafficTo(cidr)) {
        FlatMapMember(kubes, KubeTrafficTo(cidr), c);
      }
    }
  }

  lemma OutputNotArriving()
    ensures ISTIO_OUTPUT != PREROUTING
  {
  }

  /** The redirects of traffic from the virtual machine interfaces. */
  predicate KubeRedirect(cfg: Config, range: NetworkRange, r: Rule) {
    var kubes := Text.Fields(cfg.kubeVirtInterfaces);
    if range.isWildcard then
      exists i :: i in kubes && r == Rule([Is(InInterface(i))], Jump(ISTIO_REDIRECT))
    else
      exists i, cidr :: i in kubes && cidr in range.ipNets && r == Rule([Is(InInterface(i)), Is(Destination(cidr))], Jump(ISTIO_REDIRECT))
  }

  lemma ArrivingContent(s: Setup, fam: Family)
    ensures Content(s, fam, ARRIVING) == PhaseContent(s, fam, ARRIVING)(ExcludedInterfaces) + InboundRules(s.cfg, fam, ARRIVING)
  {
    var f := PhaseContent(s, fam, ARRIVING);
    forall phase | phase !in {ExcludedInterfaces, InboundPorts} ensures f(phase) == [] {
      TouchesArriving(phase);
      if phase == KubeReturns {
        KubeAppendsNothing(s, fam);
      } else if phase == IncludedRanges {
        IncludeAppendsNothing(s, fam);
      } else {
        UntouchedEmpty(s, fam, ARRIVING, phase);
      }
    }
    InterfacesAndPorts(f);
    InboundOnChain(s, fam, ARRIVING);
  }

  lemma InterfacesAndPorts<B>(f: Phase -> seq<B>)
    requires forall phase :: phase !in {ExcludedInterfaces, InboundPorts} ==> f(phase) == []
    ensures FlatMap(Phases(), f) == f(ExcludedInterfaces) + f(InboundPorts)
  {
    AllPhases(f);
  }

  // The insertions.

  lemma HeadsOfPhases(s: Setup, fam: Family, phases: seq<Phase>)
    requires forall phase :: phase in phases ==> phase !in {KubeReturns, IncludedRanges}
    ensures Heads(ARRIVING, FlatMap(phases, CallsOf(s, fam))) == []
  {
    var calls := FlatMap(phases, CallsOf(s, fam));
    forall c | c in calls && CallId(c) == ARRIVING ensures c.AppendCall? {
      FlatMapMember(phases, CallsOf(s, fam), c);
      var phase :| phase in phases && c in PhaseCalls(s, fam, phase);
      PhaseFits(s, fam, phase, c);
      TouchesArriving(phase);
      if phase == InboundPorts {
        InboundPhase(s, fam);
        InboundAppends(s.cfg, fam, c);
      } else {
        InterfaceAppends(s.cfg, c);
      }
    }
    HeadsNothing(ARRIVING, calls);
  }

  lemma InterfaceAppends(cfg: Config, c: Call)
    requires c in ExcludeInterfaceCalls(cfg)
    ensures c.AppendCall?
  {
    var xs := Text.Fields(cfg.excludeInterfaces);
    if c in FlatMap(xs, InterfaceReturns(NAT)) {
      FlatMapMember(xs, InterfaceReturns(NAT), c);
    } else {
      FlatMapMember(xs, InterfaceReturns(MANGLE), c);
    }
  }

  /** The phases around the two that insert into nat PREROUTING. */
  const FIRST_PHASES := [ExcludedInterfaces]
  const MIDDLE_PHASES := [InvalidDrops, BaseChains, InboundPorts, OutputJump, OutputChain]
  const LAST_PHASES := [UdpDns, TproxyMarks, TproxyReturns]

  lemma PhasesApart<B>(f: Phase -> seq<B>)
    ensures FlatMap(Phases(), f) ==
            FlatMap(FIRST_PHASES, f) + f(KubeReturns) + FlatMap(MIDDLE_PHASES, f) + f(IncludedRanges) + FlatMap(LAST_PHASES, f)
  {
    var a, b := FIRST_PHASES + [KubeReturns], FIRST_PHASES + [KubeReturns] + MIDDLE_PHASES;
    assert Phases() == b + [IncludedRanges] + LAST_PHASES;
    FlatMapPush(FIRST_PHASES, f, KubeReturns);
    FlatMapConcat(a, MIDDLE_PHASES, f);
    FlatMapPush(b, f, IncludedRanges);
    FlatMapConcat(b + [IncludedRanges], LAST_PHASES, f);
  }

  lemma HeadsApart(f: Phase -> seq<Call>)
    requires Heads(ARRIVING, FlatMap(FIRST_PHASES, f)) == [] && Heads(ARRIVING, FlatMap(MIDDLE_PHASES, f)) == []
    requires Heads(ARRIVING, FlatMap(LAST_PHASES, f)) == []
    ensures Heads(ARRIVING, FlatMap(Phases(), f)) == Heads(ARRIVING, f(IncludedRanges)) + Heads(ARRIVING, f(KubeReturns))
  {
    PhasesApart(f);
    HeadsOfFive(FlatMap(FIRST_PHASES, f), f(KubeReturns), FlatMap(MIDDLE_PHASES, f), f(IncludedRanges), FlatMap(LAST_PHASES, f));
  }

  lemma OtherPhases(phase: Phase)
    requires phase in FIRST_PHASES || phase in MIDDLE_PHASES || phase in LAST_PHASES
    ensures phase !in {KubeReturns, IncludedRanges}
  {
  }

  lemma ArrivingHeads(s: Setup, fam: Family)
    ensures Heads(ARRIVING, RunCalls(s, fam)) ==
            Heads(ARRIVING, PhaseCalls(s, fam, IncludedRanges)) + Heads(ARRIVING, PhaseCalls(s, fam, KubeReturns))
  {
    forall phase | phase in FIRST_PHASES || phase in MIDDLE_PHASES || phase in LAST_PHASES ensures phase !in {KubeReturns, IncludedRanges} {
      OtherPhases(phase);
    }
    HeadsOfPhases(s, fam, FIRST_PHASES);
    HeadsOfPhases(s, fam, MIDDLE_PHASES);
    HeadsOfPhases(s, fam, LAST_PHASES);
    HeadsApart(CallsOf(s, fam));
  }

  lemma HeadsOfFive(a: seq<Call>, k: seq<Call>, b: seq<Call>, r: seq<Call>, c: seq<Call>)
    requires Heads(ARRIVING, a) == [] && Heads(ARRIVING, b) == [] && Heads(ARRIVING, c) == []
    ensures Heads(ARRIVING, a + k + b + r + c) == Heads(ARRIVING, r) + Heads(ARRIVING, k)
  {
    HeadsConcat(ARRIVING, a, k);
    HeadsConcat(ARRIVING, a + k, b);
    HeadsConcat(ARRIVING, a + k + b, r);
    HeadsConcat(ARRIVING, a + k + b + r, c);
  }

  lemma KubeReturnHeads(s: Setup, fam: Family, r: Rule)
    ensures r in Heads(ARRIVING, PhaseCalls(s, fam, KubeReturns)) <==>
            exists i :: i in Text.Fields(s.cfg.kubeVirtInterfaces) && r == Rule([Is(InInterface(i))], Return)
  {
    var kubes := Text.Fields(s.cfg.kubeVirtInterfaces);
    var calls := FlatMap(kubes, KubeTraffic(Return));
    HeadsMember(ARRIVING, calls, r);
    if c :| c in calls && CallId(c) == ARRIVING && c.InsertCall? && c.rule == r {
      FlatMapMember(kubes, KubeTraffic(Return), c);
    }
    if i :| i in kubes && r == Rule([Is(InInterface(i))], Return) {
      var c := KubeInsert([Is(InInterface(i))], Return);
      assert c in KubeTraffic(Return)(i);
      FlatMapMember(kubes, KubeTraffic(Return), c);
      assert CallId(c) == ARRIVING;
    }
  }

  lemma KubeRedirectHeads(s: Setup, fam: Family, r: Rule)
    ensures r in Heads(ARRIVING, PhaseCalls(s, fam, IncludedRanges)) <==> KubeRedirect(s.cfg, s.Included(fam), r)
  {
    var calls := IncludeCalls(s.cfg, s.Included(fam));
    IncludedPhase(s, fam);
    HeadsMember(ARRIVING, calls, r);
    if c :| c in calls && CallId(c) == ARRIVING && c.InsertCall? && c.rule == r {
      IncludeCall(s.cfg, s.Included(fam), c);
    }
    if KubeRedirect(s.cfg, s.Included(fam), r) {
      var c := KubeRedirectCall(s.cfg, s.Included(fam), r);
    }
  }

  lemma KubeRedirectCall(cfg: Config, range: NetworkRange, r: Rule) returns (c: Call)
    requires KubeRedirect(cfg, range, r)
    ensures c in IncludeCalls(cfg, range) && CallId(c) == ARRIVING && c.InsertCall? && c.rule == r
  {
    var kubes := Text.Fields(cfg.kubeVirtInterfaces);
    if range.isWildcard {
      var i :| i in kubes && r == Rule([Is(InInterface(i))], Jump(ISTIO_REDIRECT));
      c := KubeInsert([Is(InInterface(i))], Jump(ISTIO_REDIRECT));
      assert c in KubeTraffic(Jump(ISTIO_REDIRECT))(i);
      FlatMapMember(kubes, KubeTraffic(Jump(ISTIO_REDIRECT)), c);
    } else {
      var i, cidr :| i in kubes && cidr in range.ipNets && r == Rule([Is(InInterface(i)), Is(Destination(cidr))], Jump(ISTIO_REDIRECT));
      c := KubeInsert([Is(InInterface(i)), Is(Destination(cidr))], Jump(ISTIO_REDIRECT));
      assert c in KubeTrafficTo(cidr)(i);
      FlatMapMember(kubes, KubeTrafficTo(cidr), c);
      assert c in IncludedRange(kubes)(cidr);
      FlatMapMember(range.ipNets, IncludedRange(kubes), c);
    }
  }

  lemma ArrivingInstalled(fw: Firewall, s: Setup, fam: Family, fw': Firewall)
    requires Host(fw) && Enabled(s, fam) && !s.cfg.traceLogging && Installed(fw, s, fam, fw')
    ensures ARRIVING in fw && ARRIVING in fw'
    ensures fw'[ARRIVING] ==
            (Heads(ARRIVING, PhaseCalls(s, fam, IncludedRanges)) + Heads(ARRIVING, PhaseCalls(s, fam, KubeReturns))) + fw[ARRIVING] +
            (PhaseContent(s, fam, ARRIVING)(ExcludedInterfaces) + InboundRules(s.cfg, fam, ARRIVING))
  {
    InstalledChains(fw, s, fam, fw');
    forall c | c in RunCalls(s, fam) && CallId(c) == ARRIVING ensures AtAnEnd(c) {
      ArrivingAtEnds(s, fam, c);
    }
    EndedChain(fw, s, fam, fw', ARRIVING);
    ArrivingHeads(s, fam);
    ArrivingContent(s, fam);
  }

  // ---------------------------------------------------------------- nat ISTIO_INBOUND

  lemma NatInboundContent(s: Setup, fam: Family)
    ensures Content(s, fam, ChainId(NAT, ISTIO_INBOUND)) ==
            [TcpPortRule(s.cfg.inboundTunnelPort, Return)] + InboundRules(s.cfg, fam, ChainId(NAT, ISTIO_INBOUND))
  {
    var id := ChainId(NAT, ISTIO_INBOUND);
    var f := PhaseContent(s, fam, id);
    forall phase | phase !in {BaseChains, InboundPorts} ensures f(phase) == [] {
      TouchesNatInbound(phase);
      UntouchedEmpty(s, fam, id, phase);
    }
    BaseAndPorts(f);
    BaseTunnel(s, fam);
    InboundOnChain(s, fam, id);
  }

  lemma TouchesNatInbound(phase: Phase)
    ensures ChainId(NAT, ISTIO_INBOUND) in Touched(phase) <==> phase in {BaseChains, InboundPorts}
  {
  }

  lemma BaseAndPorts<B>(f: Phase -> seq<B>)
    requires forall phase :: phase !in {BaseChains, InboundPorts} ==> f(phase) == []
    ensures FlatMap(Phases(), f) == f(BaseChains) + f(InboundPorts)
  {
    AllPhases(f);
  }

  lemma BaseTunnel(s: Setup, fam: Family)
    ensures PhaseContent(s, fam, ChainId(NAT, ISTIO_INBOUND))(BaseChains) == [TcpPortRule(s.cfg.inboundTunnelPort, Return)]
  {
    var cs, f := BaseCalls(s.cfg), OnChain(ChainId(NAT, ISTIO_INBOUND));
    BasePhase(s, fam);
    PhaseContentOf(s, fam, ChainId(NAT, ISTIO_INBOUND), BaseChains, cs);
    FlatMapThree(f, cs[0], cs[1], cs[2]);
    assert f(cs[1]) == [] && f(cs[2]) == [];
  }

  // ---------------------------------------------------------------- the mangle table

  lemma MangleArrivingContent(s: Setup, fam: Family)
    ensures var id := ChainId(MANGLE, PREROUTING);
            Content(s, fam, id) ==
            PhaseContent(s, fam, id)(ExcludedInterfaces) + DropRules(s.cfg) + InboundRules(s.cfg, fam, id) + SaveRules(s.cfg)
  {
    var id := ChainId(MANGLE, PREROUTING);
    var f := PhaseContent(s, fam, id);
    forall phase | phase !in {ExcludedInterfaces, InvalidDrops, InboundPorts, TproxyMarks} ensures f(phase) == [] {
      TouchesMangleArriving(phase);
      UntouchedEmpty(s, fam, id, phase);
    }
    FourPhases(f);
    InboundOnChain(s, fam, id);
    DropContent(s, fam);
    MarksContent(s, fam);
  }

  lemma TouchesMangleArriving(phase: Phase)
    ensures ChainId(MANGLE, PREROUTING) in Touched(phase) <==> phase in {ExcludedInterfaces, InvalidDrops, InboundPorts, TproxyMarks}
  {
  }

  lemma FourPhases<B>(f: Phase -> seq<B>)
    requires forall phase :: phase !in {ExcludedInterfaces, InvalidDrops, InboundPorts, TproxyMarks} ==> f(phase) == []
    ensures FlatMap(Phases(), f) == f(ExcludedInterfaces) + f(InvalidDrops) + f(InboundPorts) + f(TproxyMarks)
  {
    AllPhases(f);
  }

  function DropRules(cfg: Config): seq<Rule> {
    if cfg.dropInvalid then [Rule([Is(CtState("INVALID"))], Drop)] else []
  }

  lemma DropContent(s: Setup, fam: Family)
    ensures PhaseContent(s, fam, ChainId(MANGLE, PREROUTING))(InvalidDrops) == DropRules(s.cfg)
  {
    var id := ChainId(MANGLE, PREROUTING);
    PhaseContentOf(s, fam, id, InvalidDrops, DropInvalidCalls(s.cfg));
    if s.cfg.dropInvalid {
      OneOnChain(id, DropInvalidCalls(s.cfg)[0]);
    }
  }

  function SaveRules(cfg: Config): seq<Rule> {
    if cfg.UsesTproxy() then [SaveMarkRule(cfg.inboundTProxyMark)] else []
  }

  lemma MarksContent(s: Setup, fam: Family)
    ensures PhaseContent(s, fam, ChainId(MANGLE, PREROUTING))(TproxyMarks) == SaveRules(s.cfg)
  {
    var calls := if s.cfg.UsesTproxy() then TproxyAppends(s.cfg, fam) else [];
    MarksPhase(s, fam);
    PhaseContentOf(s, fam, ChainId(MANGLE, PREROUTING), TproxyMarks, calls);
    SaveOnChain(s.cfg, fam);
  }

  lemma OutputNotPrerouting()
    ensures OUTPUT != PREROUTING
  {
  }

  lemma SaveOnChain(cfg: Config, fam: Family)
    ensures FlatMap(TproxyAppends(cfg, fam), OnChain(ChainId(MANGLE, PREROUTING))) == [SaveMarkRule(cfg.inboundTProxyMark)]
  {
    var id := ChainId(MANGLE, PREROUTING);
    var save := AppendCall(UNDEFINED_COMMAND, PREROUTING, MANGLE, SaveMarkRule(cfg.inboundTProxyMark));
    var rest := Calls(UNDEFINED_COMMAND, OUTPUT, MANGLE, TproxyOutputRules(cfg, fam));
    FlatMapConcat([save], rest, OnChain(id));
    OneOnChain(id, save);
    OutputNotPrerouting();
    CallsOnChain(UNDEFINED_COMMAND, OUTPUT, MANGLE, TproxyOutputRules(cfg, fam), id);
  }

  lemma MangleArriving(fw: Firewall, s: Setup, fam: Family, fw': Firewall)
    requires Host(fw) && Enabled(s, fam) && !s.cfg.traceLogging && Installed(fw, s, fam, fw')
    ensures var id := ChainId(MANGLE, PREROUTING);
            && id in fw && id in fw'
            && fw'[id] == fw[id] + (PhaseContent(s, fam, id)(ExcludedInterfaces) + DropRules(s.cfg) + InboundRules(s.cfg, fam, id) + SaveRules(s.cfg))
  {
    var id := ChainId(MANGLE, PREROUTING);
    InstalledChains(fw, s, fam, fw');
    MangleOnlyAppended(PREROUTING);
    forall c | c in RunCalls(s, fam) && CallId(c) == id ensures c.AppendCall? {
      InsertedChains(s, fam, c);
    }
    AppendedChain(fw, s, fam, fw', id);
    MangleArrivingContent(s, fam);
  }

  lemma MangleOnlyAppended(chain: string)
    requires chain in {PREROUTING, ISTIO_DIVERT, ISTIO_TPROXY}
    ensures OnlyAppended(ChainId(MANGLE, chain))
  {
  }

  /** One of the two chains of TPROXY mode. */
  lemma DivertInstalled(fw: Firewall, s: Setup, fam: Family, fw': Firewall, chain: string)
    requires Host(fw) && Enabled(s, fam) && !s.cfg.traceLogging && Installed(fw, s, fam, fw')
    requires s.cfg.UsesTproxy() && s.cfg.inboundPortsInclude != "" && chain in {ISTIO_DIVERT, ISTIO_TPROXY}
    ensures var id := ChainId(MANGLE, chain); id in fw' && fw'[id] == DivertRules(s.cfg, fam, id)
  {
    var id := ChainId(MANGLE, chain);
    InstalledChains(fw, s, fam, fw');
    DivertCreated(s.cfg, chain);
    assert chain in ISTIO_CHAINS && id !in fw;
    MangleOnlyAppended(chain);
    forall c | c in RunCalls(s, fam) && CallId(c) == id ensures c.AppendCall? {
      InsertedChains(s, fam, c);
    }
    AppendedChain(fw, s, fam, fw', id);
    DivertContent(s, fam, chain);
    assert [] + Content(s, fam, id) == Content(s, fam, id);
  }

  lemma DivertCreated(cfg: Config, chain: string)
    requires cfg.UsesTproxy() && cfg.inboundPortsInclude != "" && chain in {ISTIO_DIVERT, ISTIO_TPROXY}
    ensures ChainId(MANGLE, chain) in RunChains(cfg)
  {
  }

  lemma DivertContent(s: Setup, fam: Family, chain: string)
    requires s.cfg.inboundPortsInclude != "" && chain in {ISTIO_DIVERT, ISTIO_TPROXY}
    ensures Content(s, fam, ChainId(MANGLE, chain)) == DivertRules(s.cfg, fam, ChainId(MANGLE, chain))
  {
    var id := ChainId(MANGLE, chain);
    var f := PhaseContent(s, fam, id);
    forall phase | phase != InboundPorts ensures f(phase) == [] {
      TouchesDivert(phase, chain);
      UntouchedEmpty(s, fam, id, phase);
    }
    PortsOnly(f);
    InboundOnChain(s, fam, id);
    DivertNames(chain);
  }

  lemma TouchesDivert(phase: Phase, chain: string)
    requires phase != InboundPorts && chain in {ISTIO_DIVERT, ISTIO_TPROXY}
    ensures ChainId(MANGLE, chain) !in Touched(phase)
  {
  }

  lemma DivertNames(chain: string)
    requires chain in {ISTIO_DIVERT, ISTIO_TPROXY}
    ensures chain != PREROUTING && chain != ISTIO_INBOUND
  {
    DivertsApart();
  }

  lemma PortsOnly<B>(f: Phase -> seq<B>)
    requires forall phase :: phase != InboundPorts ==> f(phase) == []
    ensures FlatMap(Phases(), f) == f(InboundPorts)
  {
    AllPhases(f);
  }

  // The inbound chain, into which the three returns are inserted last.

  lemma MangleInboundHead(s: Setup, fam: Family, c: Call)
    requires c in FlatMap(Head(), CallsOf(s, fam)) && CallId(c) == ChainId(MANGLE, ISTIO_INBOUND)
    ensures c.AppendCall?
  {
    FlatMapMember(Head(), CallsOf(s, fam), c);
    var phase :| phase in Head() && c in PhaseCalls(s, fam, phase);
    PhaseFits(s, fam, phase, c);
    NotLast(phase);
    TouchesMangleInbound(phase);
    InboundPhase(s, fam);
    InboundAppends(s.cfg, fam, c);
  }

  lemma TouchesMangleInbound(phase: Phase)
    ensures ChainId(MANGLE, ISTIO_INBOUND) in Touched(phase) <==> phase in {InboundPorts, TproxyReturns}
  {
  }

  lemma MangleInboundContent(s: Setup, fam: Family)
    ensures FlatMap(FlatMap(Head(), CallsOf(s, fam)), OnChain(ChainId(MANGLE, ISTIO_INBOUND))) ==
            InboundRules(s.cfg, fam, ChainId(MANGLE, ISTIO_INBOUND))
  {
    var id := ChainId(MANGLE, ISTIO_INBOUND);
    var f := PhaseContent(s, fam, id);
    forall phase | phase !in {InboundPorts, TproxyReturns} ensures f(phase) == [] {
      TouchesMangleInbound(phase);
      UntouchedEmpty(s, fam, id, phase);
    }
    FlatMapTwice(Head(), CallsOf(s, fam), OnChain(id), f);
    PortsInHead(f);
    InboundOnChain(s, fam, id);
  }

  lemma PortsInHead<B>(f: Phase -> seq<B>)
    requires forall phase :: phase !in {InboundPorts, TproxyReturns} ==> f(phase) == []
    ensures FlatMap(Head(), f) == f(InboundPorts)
  {
    var a, b := [ExcludedInterfaces, KubeReturns, InvalidDrops, BaseChains], [OutputJump, OutputChain, IncludedRanges, UdpDns, TproxyMarks];
    assert Head() == a + [InboundPorts] + b;
    FlatMapNothing(a, f);
    FlatMapNothing(b, f);
    FlatMapPush(a, f, InboundPorts);
    FlatMapConcat(a + [InboundPorts], b, f);
  }

  /** The returns that come first in the inbound chain of TPROXY mode. */
  function FirstReturns(cfg: Config, fam: Family): seq<Rule> {
    [MarkedInboundRule(cfg.inboundTProxyMark), FromPassthroughRule(PassthroughSource(fam)), UnmarkedLoopbackRule()]
  }

  lemma MangleInboundAfterHead(s: Setup, fam: Family)
    ensures ChainAfter(ChainId(MANGLE, ISTIO_INBOUND), [], Script(false, FlatMap(Head(), CallsOf(s, fam)))) ==
            Some(InboundRules(s.cfg, fam, ChainId(MANGLE, ISTIO_INBOUND)))
  {
    var id := ChainId(MANGLE, ISTIO_INBOUND);
    var head := FlatMap(Head(), CallsOf(s, fam));
    forall c | c in head && CallId(c) == id ensures c.AppendCall? {
      MangleInboundHead(s, fam, c);
    }
    AppendsAfter(id, [], head);
    MangleInboundContent(s, fam);
    assert [] + FlatMap(head, OnChain(id)) == FlatMap(head, OnChain(id));
  }

  lemma ReturnsInserted(cfg: Config, fam: Family, rules: seq<Rule>)
    ensures ChainAfter(ChainId(MANGLE, ISTIO_INBOUND), rules, Script(false, TproxyInserts(cfg, fam))) ==
            Some(FirstReturns(cfg, fam) + rules)
  {
    TailScript(cfg, fam, false);
    ThreeInserts(ChainId(MANGLE, ISTIO_INBOUND), rules, MarkedInboundRule(cfg.inboundTProxyMark), FromPassthroughRule(PassthroughSource(fam)),
                 UnmarkedLoopbackRule());
  }

  lemma ReturnsPhase(s: Setup, fam: Family)
    requires s.cfg.UsesTproxy()
    ensures PhaseCalls(s, fam, TproxyReturns) == TproxyInserts(s.cfg, fam)
  {
  }

  lemma MangleInboundAfter(s: Setup, fam: Family)
    requires s.cfg.UsesTproxy()
    ensures ChainAfter(ChainId(MANGLE, ISTIO_INBOUND), [], Script(false, RunCalls(s, fam))) ==
            Some(FirstReturns(s.cfg, fam) + InboundRules(s.cfg, fam, ChainId(MANGLE, ISTIO_INBOUND)))
  {
    RunSplit(s, fam);
    ReturnsPhase(s, fam);
    SplitScript(ChainId(MANGLE, ISTIO_INBOUND), [], false, FlatMap(Head(), CallsOf(s, fam)), TproxyInserts(s.cfg, fam));
    MangleInboundAfterHead(s, fam);
    ReturnsInserted(s.cfg, fam, InboundRules(s.cfg, fam, ChainId(MANGLE, ISTIO_INBOUND)));
  }

  lemma MangleInboundCreated(cfg: Config)
    requires cfg.UsesTproxy()
    ensures ChainId(MANGLE, ISTIO_INBOUND) in RunChains(cfg) && ISTIO_INBOUND in ISTIO_CHAINS
  {
  }

  lemma MangleInbound(fw: Firewall, s: Setup, fam: Family, fw': Firewall)
    requires Host(fw) && Enabled(s, fam) && !s.cfg.traceLogging && Installed(fw, s, fam, fw') && s.cfg.UsesTproxy()
    ensures var id := ChainId(MANGLE, ISTIO_INBOUND);
            id in fw' && fw'[id] == FirstReturns(s.cfg, fam) + InboundRules(s.cfg, fam, id)
  {
    InstalledChains(fw, s, fam, fw');
    MangleInboundCreated(s.cfg);
    assert ChainId(MANGLE, ISTIO_INBOUND) !in fw;
    MangleInboundAfter(s, fam);
  }
}
