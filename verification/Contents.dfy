/** What the nat chains that outgoing packets pass through hold after a run without tracing. */
module Contents {
  import opened Optional
  import opened Sequences
  import opened Netfilter
  import opened Commands
  import opened Builder
  import opened CallScripts
  import opened Install
  import opened Capture
  import opened RunFacts
  import opened NeverFails
  import opened Tracing
  import Text

  // ---------------------------------------------------------------- the appends of one chain

  function OnChain(id: ChainId): Call -> seq<Rule> {
    (c: Call) => if CallId(c) == id && c.AppendCall? then [c.rule] else []
  }

  lemma {:induction false} UntracedAppends(id: ChainId, calls: seq<Call>)
    ensures AppendedOn(id, Script(false, calls)) == FlatMap(calls, OnChain(id))
  {
    if calls != [] {
      var front, last := calls[..|calls| - 1], calls[|calls| - 1];
      UntracedAppends(id, front);
      AppendedOnConcat(id, Script(false, front), CallCommands(false, last));
      var script := CallCommands(false, last);
      assert script == [script[0]] && script[1..] == [];
      assert AppendedOn(id, script) == OnChain(id)(last) + AppendedOn(id, []);
      assert OnChain(id)(last) + [] == OnChain(id)(last);
    }
  }

  function PhaseContent(s: Setup, fam: Family, id: ChainId): Phase -> seq<Rule> {
    (phase: Phase) => FlatMap(PhaseCalls(s, fam, phase), OnChain(id))
  }

  lemma {:induction false} FlatMapTwice<A, B, C>(xs: seq<A>, f: A -> seq<B>, g: B -> seq<C>, h: A -> seq<C>)
    requires forall x :: h(x) == FlatMap(f(x), g)
    ensures FlatMap(FlatMap(xs, f), g) == FlatMap(xs, h)
  {
    if xs != [] {
      var front, last := xs[..|xs| - 1], xs[|xs| - 1];
      FlatMapTwice(front, f, g, h);
      FlatMapConcat(FlatMap(front, f), f(last), g);
    }
  }

  lemma {:induction false} FlatMapNothing<A, B>(xs: seq<A>, f: A -> seq<B>)
    requires forall x :: x in xs ==> f(x) == []
    ensures FlatMap(xs, f) == []
  {
    if xs != [] {
      FlatMapNothing(xs[..|xs| - 1], f);
    }
  }

  /** The phases one by one. */
  lemma AllPhases<B>(f: Phase -> seq<B>)
    ensures FlatMap(Phases(), f) ==
            (f(ExcludedInterfaces) + f(KubeReturns) + f(InvalidDrops)) + (f(BaseChains) + f(InboundPorts) + f(OutputJump)) +
            (f(OutputChain) + f(IncludedRanges) + f(UdpDns)) + (f(TproxyMarks) + f(TproxyReturns))
  {
    var a, b := [ExcludedInterfaces, KubeReturns, InvalidDrops], [BaseChains, InboundPorts, OutputJump];
    var c, d := [OutputChain, IncludedRanges, UdpDns], [TproxyMarks, TproxyReturns];
    FlatMapThree(f, a[0], a[1], a[2]);
    FlatMapThree(f, b[0], b[1], b[2]);
    FlatMapThree(f, c[0], c[1], c[2]);
    FlatMapTwo(f, d[0], d[1]);
    assert Phases() == a + b + c + d;
    FlatMapConcat(a, b, f);
    FlatMapConcat(a + b, c, f);
    FlatMapConcat(a + b + c, d, f);
  }

  /** The rules a run appends to a chain, without tracing. */
  function Content(s: Setup, fam: Family, id: ChainId): seq<Rule> {
    FlatMap(Phases(), PhaseContent(s, fam, id))
  }

  lemma UntouchedEmpty(s: Setup, fam: Family, id: ChainId, phase: Phase)
    requires id !in Touched(phase)
    ensures PhaseContent(s, fam, id)(phase) == []
  {
    var calls := PhaseCalls(s, fam, phase);
    forall c | c in calls ensures OnChain(id)(c) == [] {
      PhaseFits(s, fam, phase, c);
    }
    FlatMapNothing(calls, OnChain(id));
  }

  /** The chains a run only appends to. */
  predicate OnlyAppended(id: ChainId) {
    id != ChainId(NAT, PREROUTING) && id != ChainId(MANGLE, ISTIO_INBOUND)
  }

  lemma InsertedChains(s: Setup, fam: Family, c: Call)
    requires c in RunCalls(s, fam) && OnlyAppended(CallId(c))
    ensures c.AppendCall?
  {
    RunMember(s, fam, c);
    var phase :| phase in Phases() && c in PhaseCalls(s, fam, phase) && Fits(s.cfg, phase, c);
    InsertedInPhase(s, fam, phase, c);
  }

  lemma InsertedInPhase(s: Setup, fam: Family, phase: Phase, c: Call)
    requires c in PhaseCalls(s, fam, phase) && Fits(s.cfg, phase, c)
    requires OnlyAppended(CallId(c))
    ensures c.AppendCall?
  {
    match phase
    case ExcludedInterfaces => InterfacesAppend(s, fam, c);
    case KubeReturns => FlatMapMember(Text.Fields(s.cfg.kubeVirtInterfaces), KubeTraffic(Return), c);
    case InvalidDrops =>
    case BaseChains =>
    case InboundPorts => InboundAppends(s.cfg, fam, c);
    case OutputJump =>
    case OutputChain => CallsMember(UNDEFINED_COMMAND, ISTIO_OUTPUT, NAT, OutputRules(s, fam), c);
    case IncludedRanges => IncludeAppends(s.cfg, s.Included(fam), c);
    case UdpDns => DnsAppends(s.cfg, fam, s.hosts4, s.hosts6, c);
    case TproxyMarks =>
      var first := AppendCall(UNDEFINED_COMMAND, PREROUTING, MANGLE, SaveMarkRule(s.cfg.inboundTProxyMark));
      MarkAppends(first, TproxyOutputRules(s.cfg, fam), c);
    case TproxyReturns =>
  }

  lemma InterfacesAppend(s: Setup, fam: Family, c: Call)
    requires c in PhaseCalls(s, fam, ExcludedInterfaces)
    ensures c.AppendCall?
  {
    var xs := Text.Fields(s.cfg.excludeInterfaces);
    if c in FlatMap(xs, InterfaceReturns(NAT)) {
      FlatMapMember(xs, InterfaceReturns(NAT), c);
    } else {
      FlatMapMember(xs, InterfaceReturns(MANGLE), c);
    }
  }

  lemma MarkAppends(first: Call, rules: seq<Rule>, c: Call)
    requires first.AppendCall? && c in [first] + Calls(UNDEFINED_COMMAND, OUTPUT, MANGLE, rules)
    ensures c.AppendCall?
  {
    if c in Calls(UNDEFINED_COMMAND, OUTPUT, MANGLE, rules) {
      CallsMember(UNDEFINED_COMMAND, OUTPUT, MANGLE, rules, c);
    }
  }

  lemma InboundAppends(cfg: Config, fam: Family, c: Call)
    requires c in InboundCalls(cfg, fam)
    ensures c.AppendCall?
  {
    var jump := AppendCall(JUMP_INBOUND, PREROUTING, InboundTable(cfg), TcpRule(Jump(ISTIO_INBOUND)));
    InThree(if cfg.UsesTproxy() then DivertCalls(cfg, fam) else [], jump, InboundPortCalls(cfg), c);
    if c in InboundPortCalls(cfg) {
      PortAppends(cfg, c);
    } else if c != jump {
      DivertAppends(cfg, fam, c);
    }
  }

  lemma DivertAppends(cfg: Config, fam: Family, c: Call)
    requires c in DivertCalls(cfg, fam)
    ensures c.AppendCall?
  {
    if c in Calls(UNDEFINED_COMMAND, ISTIO_DIVERT, MANGLE, AcceptMarkRules(cfg)) {
      CallsMember(UNDEFINED_COMMAND, ISTIO_DIVERT, MANGLE, AcceptMarkRules(cfg), c);
    } else {
      CallsMember(UNDEFINED_COMMAND, ISTIO_TPROXY, MANGLE, [TproxyRule(cfg, fam)], c);
    }
  }

  lemma PortAppends(cfg: Config, c: Call)
    requires c in InboundPortCalls(cfg)
    ensures c.AppendCall?
  {
    var table := InboundTable(cfg);
    if cfg.inboundPortsInclude == "*" {
      var excluded := FlatMap(Text.Fields(cfg.inboundPortsExclude), TcpPorts(Return));
      if c in Calls(EXCLUDE_INBOUND_PORT, ISTIO_INBOUND, table, excluded) {
        CallsMember(EXCLUDE_INBOUND_PORT, ISTIO_INBOUND, table, excluded, c);
      } else {
        CallsMember(UNDEFINED_COMMAND, ISTIO_INBOUND, table, RestRules(cfg), c);
      }
    } else {
      var f := if cfg.UsesTproxy() then TproxyPorts() else TcpPorts(Jump(ISTIO_IN_REDIRECT));
      CallsMember(INCLUDE_INBOUND_PORT, ISTIO_INBOUND, table, FlatMap(Text.Fields(cfg.inboundPortsInclude), f), c);
    }
  }

  lemma IncludeAppends(cfg: Config, range: NetworkRange, c: Call)
    requires c in IncludeCalls(cfg, range) && CallId(c) != ChainId(NAT, PREROUTING)
    ensures c.AppendCall?
  {
    var kubes := Text.Fields(cfg.kubeVirtInterfaces);
    if range.isWildcard {
      if c in FlatMap(kubes, KubeTraffic(Jump(ISTIO_REDIRECT))) {
        FlatMapMember(kubes, KubeTraffic(Jump(ISTIO_REDIRECT)), c);
      }
    } else if c in FlatMap(range.ipNets, IncludedRange(kubes)) {
      FlatMapMember(range.ipNets, IncludedRange(kubes), c);
      var cidr :| cidr in range.ipNets && c in IncludedRange(kubes)(cidr);
      if c in FlatMap(kubes, KubeTrafficTo(cidr)) {
        FlatMapMember(kubes, KubeTrafficTo(cidr), c);
      }
    }
  }

  lemma AppendOneAppends(applied: seq<Applied>, fam: Family, c: Call)
    requires c in FlatMap(applied, AppendOne(fam))
    ensures c.AppendCall?
  {
    FlatMapMember(applied, AppendOne(fam), c);
  }

  lemma DnsAppends(cfg: Config, fam: Family, hosts4: seq<string>, hosts6: seq<string>, c: Call)
    requires c in DnsUdpCalls(cfg, fam, hosts4, hosts6)
    ensures c.AppendCall?
  {
    AppendOneAppends(DnsUdp(cfg.Uids(), cfg.Gids(), hosts4, hosts6, cfg.captureAllDNS, cfg.Filter()), fam, c);
  }

  /** A chain the run only appends to keeps its old rules, followed by its content. */
  lemma AppendedChain(fw: Firewall, s: Setup, fam: Family, fw': Firewall, id: ChainId)
    requires Host(fw) && Enabled(s, fam) && !s.cfg.traceLogging && Installed(fw, s, fam, fw')
    requires id in fw' && forall c :: c in RunCalls(s, fam) && CallId(c) == id ==> c.AppendCall?
    ensures fw'[id] == Before(fw, id) + Content(s, fam, id)
  {
    InstalledChains(fw, s, fam, fw');
    AppendsAfter(id, Before(fw, id), RunCalls(s, fam));
    RunContent(s, fam, id);
  }

  lemma RunContent(s: Setup, fam: Family, id: ChainId)
    ensures FlatMap(RunCalls(s, fam), OnChain(id)) == Content(s, fam, id)
  {
    FlatMapTwice(Phases(), CallsOf(s, fam), OnChain(id), PhaseContent(s, fam, id));
  }

  lemma AppendsAfter(id: ChainId, rules: seq<Rule>, calls: seq<Call>)
    requires forall c :: c in calls && CallId(c) == id ==> c.AppendCall?
    ensures ChainAfter(id, rules, Script(false, calls)) == Some(rules + FlatMap(calls, OnChain(id)))
  {
    forall x | x in Script(false, calls) && x.id == id ensures x.AppendTo? {
      FlatMapMember(calls, CommandsOf(false), x);
      var c :| c in calls && x in CommandsOf(false)(c);
      assert CallId(c) == id;
    }
    ChainAfterAppends(id, rules, Script(false, calls));
    UntracedAppends(id, calls);
  }

  /** A chain the run does not touch stays as it was. */
  lemma UntouchedChain(fw: Firewall, s: Setup, fam: Family, fw': Firewall, id: ChainId)
    requires Host(fw) && Enabled(s, fam) && Installed(fw, s, fam, fw')
    requires id in fw && forall phase :: id !in Touched(phase)
    ensures id in fw' && fw'[id] == fw[id]
  {
    InstalledChains(fw, s, fam, fw');
    forall x | x in Script(s.cfg.traceLogging, RunCalls(s, fam)) ensures x.id != id {
      ScriptTouches(s, fam, s.cfg.traceLogging, x);
    }
    ElsewhereAfter(id, fw[id], Script(s.cfg.traceLogging, RunCalls(s, fam)));
  }

  lemma ScriptTouches(s: Setup, fam: Family, trace: bool, x: Command)
    requires x in Script(trace, RunCalls(s, fam))
    ensures exists phase :: x.id in Touched(phase)
  {
    FlatMapMember(RunCalls(s, fam), CommandsOf(trace), x);
    var c :| c in RunCalls(s, fam) && x in CommandsOf(trace)(c);
    RunMember(s, fam, c);
  }

  // ---------------------------------------------------------------- the four chains

  lemma AppendsOnChain(command: string, id: ChainId, rules: seq<Rule>)
    ensures FlatMap(Calls(command, id.chain, id.table, rules), OnChain(id)) == rules
  {
    AppendsOnChainOf(command, id, rules);
  }

  lemma {:induction false} AppendsOnChainOf(command: string, id: ChainId, rules: seq<Rule>)
    ensures FlatMap(Calls(command, id.chain, id.table, rules), OnChain(id)) == rules
  {
    if rules != [] {
      var front, last := rules[..|rules| - 1], rules[|rules| - 1];
      AppendsOnChainOf(command, id, front);
      CallsPush(command, id.chain, id.table, front, last);
      FlatMapPush(Calls(command, id.chain, id.table, front), OnChain(id), AppendCall(command, id.chain, id.table, last));
      assert front + [last] == rules;
    }
  }

  lemma OneOnChain(id: ChainId, c: Call)
    requires c.AppendCall? && CallId(c) == id
    ensures FlatMap([c], OnChain(id)) == [c.rule]
  {
    FlatMapPush([], OnChain(id), c);
    assert [] + [c] == [c];
  }

  /** Which phases touch the four chains. */
  lemma TouchesOutput(phase: Phase)
    ensures ChainId(NAT, OUTPUT) in Touched(phase) <==> phase in {ExcludedInterfaces, OutputJump, UdpDns}
  {
  }

  lemma TouchesIstioOutput(phase: Phase)
    ensures ChainId(NAT, ISTIO_OUTPUT) in Touched(phase) <==> phase in {OutputChain, IncludedRanges}
  {
  }

  lemma TouchesRedirects(phase: Phase)
    ensures ChainId(NAT, ISTIO_REDIRECT) in Touched(phase) <==> phase == BaseChains
    ensures ChainId(NAT, ISTIO_IN_REDIRECT) in Touched(phase) <==> phase == BaseChains
  {
  }

  lemma ThreePhases<B>(f: Phase -> seq<B>)
    requires forall phase :: phase !in {ExcludedInterfaces, OutputJump, UdpDns} ==> f(phase) == []
    ensures FlatMap(Phases(), f) == f(ExcludedInterfaces) + f(OutputJump) + f(UdpDns)
  {
    AllPhases(f);
  }

  lemma TwoPhases<B>(f: Phase -> seq<B>)
    requires forall phase :: phase !in {OutputChain, IncludedRanges} ==> f(phase) == []
    ensures FlatMap(Phases(), f) == f(OutputChain) + f(IncludedRanges)
  {
    AllPhases(f);
  }

  lemma OnePhase<B>(f: Phase -> seq<B>)
    requires forall phase :: phase != BaseChains ==> f(phase) == []
    ensures FlatMap(Phases(), f) == f(BaseChains)
  {
    AllPhases(f);
  }

  /** The jump into the outbound chain, after the excluded interfaces and before the DNS rules. */
  lemma OutputContent(s: Setup, fam: Family)
    ensures var id := ChainId(NAT, OUTPUT);
            Content(s, fam, id) ==
            PhaseContent(s, fam, id)(ExcludedInterfaces) + [TcpRule(Jump(ISTIO_OUTPUT))] + PhaseContent(s, fam, id)(UdpDns)
  {
    var id := ChainId(NAT, OUTPUT);
    var f := PhaseContent(s, fam, id);
    forall phase | phase !in {ExcludedInterfaces, OutputJump, UdpDns} ensures f(phase) == [] {
      TouchesOutput(phase);
      UntouchedEmpty(s, fam, id, phase);
    }
    ThreePhases(f);
    JumpContent(s, fam);
  }

  lemma JumpContent(s: Setup, fam: Family)
    ensures PhaseContent(s, fam, ChainId(NAT, OUTPUT))(OutputJump) == [TcpRule(Jump(ISTIO_OUTPUT))]
  {
    var c := AppendCall(JUMP_OUTBOUND, OUTPUT, NAT, TcpRule(Jump(ISTIO_OUTPUT)));
    PhaseContentOf(s, fam, ChainId(NAT, OUTPUT), OutputJump, [c]);
    OneOnChain(ChainId(NAT, OUTPUT), c);
  }

  lemma PhaseContentOf(s: Setup, fam: Family, id: ChainId, phase: Phase, calls: seq<Call>)
    requires PhaseCalls(s, fam, phase) == calls
    ensures PhaseContent(s, fam, id)(phase) == FlatMap(calls, OnChain(id))
  {
  }

  /** The content of the included ranges. */
  function IncludeRules(range: NetworkRange): seq<Rule> {
    if range.isWildcard then [Rule([], Jump(ISTIO_REDIRECT))]
    else if |range.ipNets| > 0 then FlatMap(range.ipNets, Ranges(Jump(ISTIO_REDIRECT))) + [Rule([], Return)]
    else []
  }

  lemma KubeNothing(kubes: seq<string>, f: string -> seq<Call>)
    requires forall k :: k in kubes ==> forall c :: c in f(k) ==> c.InsertCall?
    ensures FlatMap(FlatMap(kubes, f), OnChain(ChainId(NAT, ISTIO_OUTPUT))) == []
  {
    var calls := FlatMap(kubes, f);
    forall c | c in calls ensures OnChain(ChainId(NAT, ISTIO_OUTPUT))(c) == [] {
      FlatMapMember(kubes, f, c);
    }
    FlatMapNothing(calls, OnChain(ChainId(NAT, ISTIO_OUTPUT)));
  }

  lemma IncludedRangeOnOutput(kubes: seq<string>, cidr: string)
    ensures FlatMap(IncludedRange(kubes)(cidr), OnChain(ChainId(NAT, ISTIO_OUTPUT))) == [ToRange(cidr, Jump(ISTIO_REDIRECT))]
  {
    var id := ChainId(NAT, ISTIO_OUTPUT);
    var c := AppendCall(UNDEFINED_COMMAND, ISTIO_OUTPUT, NAT, ToRange(cidr, Jump(ISTIO_REDIRECT)));
    KubeNothing(kubes, KubeTrafficTo(cidr));
    FlatMapPush(FlatMap(kubes, KubeTrafficTo(cidr)), OnChain(id), c);
  }

  lemma {:induction false} IncludedRangesOnOutput(kubes: seq<string>, nets: seq<string>)
    ensures FlatMap(FlatMap(nets, IncludedRange(kubes)), OnChain(ChainId(NAT, ISTIO_OUTPUT))) == FlatMap(nets, Ranges(Jump(ISTIO_REDIRECT)))
  {
    if nets != [] {
      var front, last := nets[..|nets| - 1], nets[|nets| - 1];
      IncludedRangesOnOutput(kubes, front);
      IncludedRangeOnOutput(kubes, last);
      FlatMapConcat(FlatMap(front, IncludedRange(kubes)), IncludedRange(kubes)(last), OnChain(ChainId(NAT, ISTIO_OUTPUT)));
    }
  }

  lemma IncludeOnOutput(cfg: Config, range: NetworkRange)
    ensures FlatMap(IncludeCalls(cfg, range), OnChain(ChainId(NAT, ISTIO_OUTPUT))) == IncludeRules(range)
  {
    var id := ChainId(NAT, ISTIO_OUTPUT);
    var kubes := Text.Fields(cfg.kubeVirtInterfaces);
    if range.isWildcard {
      var c := AppendCall(UNDEFINED_COMMAND, ISTIO_OUTPUT, NAT, Rule([], Jump(ISTIO_REDIRECT)));
      OneOnChain(id, c);
      KubeNothing(kubes, KubeTraffic(Jump(ISTIO_REDIRECT)));
      FlatMapConcat([c], FlatMap(kubes, KubeTraffic(Jump(ISTIO_REDIRECT))), OnChain(id));
    } else if |range.ipNets| > 0 {
      var c := AppendCall(UNDEFINED_COMMAND, ISTIO_OUTPUT, NAT, Rule([], Return));
      IncludedRangesOnOutput(kubes, range.ipNets);
      FlatMapPush(FlatMap(range.ipNets, IncludedRange(kubes)), OnChain(id), c);
    }
  }

  lemma IstioOutputContent(s: Setup, fam: Family)
    ensures Content(s, fam, ChainId(NAT, ISTIO_OUTPUT)) == OutputRules(s, fam) + IncludeRules(s.Included(fam))
  {
    var id := ChainId(NAT, ISTIO_OUTPUT);
    var f := PhaseContent(s, fam, id);
    forall phase | phase !in {OutputChain, IncludedRanges} ensures f(phase) == [] {
      TouchesIstioOutput(phase);
      UntouchedEmpty(s, fam, id, phase);
    }
    TwoPhases(f);
    OutputChainContent(s, fam);
    IncludedContent(s, fam);
  }

  lemma OutputChainContent(s: Setup, fam: Family)
    ensures PhaseContent(s, fam, ChainId(NAT, ISTIO_OUTPUT))(OutputChain) == OutputRules(s, fam)
  {
    var calls := Calls(UNDEFINED_COMMAND, ISTIO_OUTPUT, NAT, OutputRules(s, fam));
    OutputPhase(s, fam);
    PhaseContentOf(s, fam, ChainId(NAT, ISTIO_OUTPUT), OutputChain, calls);
    AppendsOnChain(UNDEFINED_COMMAND, ChainId(NAT, ISTIO_OUTPUT), OutputRules(s, fam));
  }

  lemma IncludedContent(s: Setup, fam: Family)
    ensures PhaseContent(s, fam, ChainId(NAT, ISTIO_OUTPUT))(IncludedRanges) == IncludeRules(s.Included(fam))
  {
    IncludedPhase(s, fam);
    PhaseContentOf(s, fam, ChainId(NAT, ISTIO_OUTPUT), IncludedRanges, IncludeCalls(s.cfg, s.Included(fam)));
    IncludeOnOutput(s.cfg, s.Included(fam));
  }

  lemma BaseOnChain(cfg: Config)
    ensures FlatMap(BaseCalls(cfg), OnChain(ChainId(NAT, ISTIO_REDIRECT))) == [TcpRule(Redirect("--to-ports", cfg.proxyPort))]
    ensures FlatMap(BaseCalls(cfg), OnChain(ChainId(NAT, ISTIO_IN_REDIRECT))) == [TcpRule(Redirect("--to-ports", cfg.inboundCapturePort))]
  {
    var cs := BaseCalls(cfg);
    assert cs == [] + [cs[0]] + [cs[1]] + [cs[2]];
    var f, g := OnChain(ChainId(NAT, ISTIO_REDIRECT)), OnChain(ChainId(NAT, ISTIO_IN_REDIRECT));
    assert f(cs[0]) == [] && f(cs[2]) == [] && g(cs[0]) == [] && g(cs[1]) == [];
    FlatMapPush([], f, cs[0]);
    FlatMapPush([] + [cs[0]], f, cs[1]);
    FlatMapPush([] + [cs[0]] + [cs[1]], f, cs[2]);
    FlatMapPush([], g, cs[0]);
    FlatMapPush([] + [cs[0]], g, cs[1]);
    FlatMapPush([] + [cs[0]] + [cs[1]], g, cs[2]);
  }

  lemma RedirectContents(s: Setup, fam: Family)
    ensures Content(s, fam, ChainId(NAT, ISTIO_REDIRECT)) == [TcpRule(Redirect("--to-ports", s.cfg.proxyPort))]
    ensures Content(s, fam, ChainId(NAT, ISTIO_IN_REDIRECT)) == [TcpRule(Redirect("--to-ports", s.cfg.inboundCapturePort))]
  {
    BaseOnChain(s.cfg);
    OnlyBase(s, fam, ChainId(NAT, ISTIO_REDIRECT));
    OnlyBase(s, fam, ChainId(NAT, ISTIO_IN_REDIRECT));
  }

  lemma OnlyBase(s: Setup, fam: Family, id: ChainId)
    requires id == ChainId(NAT, ISTIO_REDIRECT) || id == ChainId(NAT, ISTIO_IN_REDIRECT)
    ensures Content(s, fam, id) == FlatMap(BaseCalls(s.cfg), OnChain(id))
  {
    var f := PhaseContent(s, fam, id);
    forall phase | phase != BaseChains ensures f(phase) == [] {
      TouchesRedirects(phase);
      UntouchedEmpty(s, fam, id, phase);
    }
    OnePhase(f);
    BasePhase(s, fam);
    PhaseContentOf(s, fam, id, BaseChains, BaseCalls(s.cfg));
  }

  lemma BasePhase(s: Setup, fam: Family)
    ensures PhaseCalls(s, fam, BaseChains) == BaseCalls(s.cfg)
  {
  }

  lemma InboundPhase(s: Setup, fam: Family)
    ensures PhaseCalls(s, fam, InboundPorts) == InboundCalls(s.cfg, fam)
  {
  }
}
