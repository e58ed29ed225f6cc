/** Which configured names the logging rules of a run repeat, and so when its script can fail. */
module LoggedNames {
  import opened Optional
  import opened Sequences
  import opened Netfilter
  import opened Commands
  import opened Builder
  import opened CallScripts
  import opened Capture
  import opened RunFacts
  import opened NeverFails
  import opened Tracing
  import Text

  /** The inbound ports a run lists. */
  function InboundNames(cfg: Config): seq<string> {
    if cfg.inboundPortsInclude == "" then []
    else if cfg.inboundPortsInclude == "*" then Text.Fields(cfg.inboundPortsExclude)
    else Text.Fields(cfg.inboundPortsInclude)
  }

  /** The ranges that are captured for each KubeVirt interface by itself. */
  function KubeRanges(cfg: Config, range: NetworkRange): seq<string> {
    if Text.Fields(cfg.kubeVirtInterfaces) == [] || range.isWildcard then [] else range.ipNets
  }

  /** Every name of the configuration that a logged rule tests for. */
  function Names(s: Setup, fam: Family): seq<string> {
    Text.Fields(s.cfg.excludeInterfaces) + Text.Fields(s.cfg.kubeVirtInterfaces) + InboundNames(s.cfg) +
    KubeRanges(s.cfg, s.Included(fam))
  }

  /** The values the tests of a rule compare with. */
  predicate TestsFor(r: Rule, value: string) {
    exists x :: x in r.conds && x.test.value == value
  }

  // ---------------------------------------------------------------- a logged rule tests for names only

  lemma NotDash()
    ensures "tcp" != "-j" && ESTABLISHED != "-j"
  {
  }

  lemma TcpOnly(t: Target)
    ensures !TestsFor(TcpRule(t), "-j")
  {
    NotDash();
  }

  lemma PortTests(port: string, t: Target)
    ensures TestsFor(TcpPortRule(port, t), "-j") <==> port == "-j"
    ensures TestsFor(EstablishedPortRule(port), "-j") <==> port == "-j"
  {
    NotDash();
    var a, b := TcpPortRule(port, t), EstablishedPortRule(port);
    assert a.conds[1] in a.conds && b.conds[1] in b.conds;
  }

  lemma InterfaceTests(cfg: Config, c: Call)
    requires c in ExcludeInterfaceCalls(cfg) && TestsFor(c.rule, "-j")
    ensures "-j" in Text.Fields(cfg.excludeInterfaces)
  {
    var xs := Text.Fields(cfg.excludeInterfaces);
    if c in FlatMap(xs, InterfaceReturns(NAT)) {
      FlatMapMember(xs, InterfaceReturns(NAT), c);
    } else {
      FlatMapMember(xs, InterfaceReturns(MANGLE), c);
    }
  }

  lemma KubeTests(cfg: Config, t: Target, c: Call)
    requires c in FlatMap(Text.Fields(cfg.kubeVirtInterfaces), KubeTraffic(t)) && TestsFor(c.rule, "-j")
    ensures "-j" in Text.Fields(cfg.kubeVirtInterfaces)
  {
    FlatMapMember(Text.Fields(cfg.kubeVirtInterfaces), KubeTraffic(t), c);
  }

  lemma IncludeTests(cfg: Config, range: NetworkRange, c: Call)
    requires c in IncludeCalls(cfg, range) && c.command != UNDEFINED_COMMAND && TestsFor(c.rule, "-j")
    ensures "-j" in Text.Fields(cfg.kubeVirtInterfaces) || "-j" in KubeRanges(cfg, range)
  {
    var kubes := Text.Fields(cfg.kubeVirtInterfaces);
    if range.isWildcard {
      KubeTests(cfg, Jump(ISTIO_REDIRECT), c);
    } else {
      FlatMapMember(range.ipNets, IncludedRange(kubes), c);
      var cidr :| cidr in range.ipNets && c in IncludedRange(kubes)(cidr);
      KubeRangeTests(kubes, cidr, c);
    }
  }

  lemma KubeRangeTests(kubes: seq<string>, cidr: string, c: Call)
    requires c in IncludedRange(kubes)(cidr) && c.command != UNDEFINED_COMMAND && TestsFor(c.rule, "-j")
    ensures "-j" in kubes || (kubes != [] && cidr == "-j")
  {
    FlatMapMember(kubes, KubeTrafficTo(cidr), c);
  }

  lemma InboundTests(cfg: Config, fam: Family, c: Call)
    requires c in InboundCalls(cfg, fam) && c.command != UNDEFINED_COMMAND && TestsFor(c.rule, "-j")
    ensures "-j" in InboundNames(cfg)
  {
    var jump := AppendCall(JUMP_INBOUND, PREROUTING, InboundTable(cfg), TcpRule(Jump(ISTIO_INBOUND)));
    InThree(if cfg.UsesTproxy() then DivertCalls(cfg, fam) else [], jump, InboundPortCalls(cfg), c);
    if c in InboundPortCalls(cfg) {
      InboundPortTests(cfg, c);
    } else if c == jump {
      TcpOnly(Jump(ISTIO_INBOUND));
    } else {
      DivertUntraced(cfg, fam, c);
    }
  }

  lemma DivertUntraced(cfg: Config, fam: Family, c: Call)
    requires c in DivertCalls(cfg, fam)
    ensures c.command == UNDEFINED_COMMAND
  {
    if c in Calls(UNDEFINED_COMMAND, ISTIO_DIVERT, MANGLE, AcceptMarkRules(cfg)) {
      CallsMember(UNDEFINED_COMMAND, ISTIO_DIVERT, MANGLE, AcceptMarkRules(cfg), c);
    } else {
      CallsMember(UNDEFINED_COMMAND, ISTIO_TPROXY, MANGLE, [TproxyRule(cfg, fam)], c);
    }
  }

  lemma InboundPortTests(cfg: Config, c: Call)
    requires cfg.inboundPortsInclude != ""
    requires c in InboundPortCalls(cfg) && c.command != UNDEFINED_COMMAND && TestsFor(c.rule, "-j")
    ensures "-j" in InboundNames(cfg)
  {
    var table := InboundTable(cfg);
    if cfg.inboundPortsInclude == "*" {
      var ports := Text.Fields(cfg.inboundPortsExclude);
      if c in Calls(UNDEFINED_COMMAND, ISTIO_INBOUND, table, RestRules(cfg)) {
        CallsMember(UNDEFINED_COMMAND, ISTIO_INBOUND, table, RestRules(cfg), c);
        assert false;
      } else {
        CallsMember(EXCLUDE_INBOUND_PORT, ISTIO_INBOUND, table, FlatMap(ports, TcpPorts(Return)), c);
        ListedPort(ports, TcpPorts(Return), c.rule);
      }
    } else {
      var ports := Text.Fields(cfg.inboundPortsInclude);
      var f := if cfg.UsesTproxy() then TproxyPorts() else TcpPorts(Jump(ISTIO_IN_REDIRECT));
      CallsMember(INCLUDE_INBOUND_PORT, ISTIO_INBOUND, table, FlatMap(ports, f), c);
      ListedPort(ports, f, c.rule);
    }
  }

  lemma ListedPort(ports: seq<string>, f: string -> seq<Rule>, r: Rule)
    requires f == TproxyPorts() || exists t :: f == TcpPorts(t)
    requires r in FlatMap(ports, f) && TestsFor(r, "-j")
    ensures "-j" in ports
  {
    FlatMapMember(ports, f, r);
    var port :| port in ports && r in f(port);
    if f == TproxyPorts() {
      PortTests(port, Jump(ISTIO_TPROXY));
    } else {
      var t :| f == TcpPorts(t);
      PortTests(port, t);
    }
  }

  lemma UntracedPhases(s: Setup, fam: Family, phase: Phase, c: Call)
    requires phase in {InvalidDrops, OutputChain, UdpDns, TproxyMarks, TproxyReturns} && c in PhaseCalls(s, fam, phase)
    ensures c.command == UNDEFINED_COMMAND
  {
    match phase
    case OutputChain => CallsMember(UNDEFINED_COMMAND, ISTIO_OUTPUT, NAT, OutputRules(s, fam), c);
    case UdpDns => DnsUntraced(s.cfg, fam, s.hosts4, s.hosts6, c);
    case TproxyMarks => UntracedMarks(s, fam, c);
    case TproxyReturns => UntracedReturns(s.cfg, fam, c);
    case _ =>
  }

  lemma UntracedMarks(s: Setup, fam: Family, c: Call)
    requires c in PhaseCalls(s, fam, TproxyMarks)
    ensures c.command == UNDEFINED_COMMAND
  {
    MarksPhase(s, fam);
    MarkAppendsUntraced(s.cfg, fam, c);
  }

  lemma MarkAppendsUntraced(cfg: Config, fam: Family, c: Call)
    requires c in TproxyAppends(cfg, fam)
    ensures c.command == UNDEFINED_COMMAND
  {
    if c in Calls(UNDEFINED_COMMAND, OUTPUT, MANGLE, TproxyOutputRules(cfg, fam)) {
      CallsMember(UNDEFINED_COMMAND, OUTPUT, MANGLE, TproxyOutputRules(cfg, fam), c);
    }
  }

  lemma UntracedReturns(cfg: Config, fam: Family, c: Call)
    requires c in TproxyInserts(cfg, fam)
    ensures c.command == UNDEFINED_COMMAND
  {
  }

  lemma DnsUntraced(cfg: Config, fam: Family, hosts4: seq<string>, hosts6: seq<string>, c: Call)
    requires c in DnsUdpCalls(cfg, fam, hosts4, hosts6)
    ensures c.command == UNDEFINED_COMMAND
  {
    AppendOneUntraced(DnsUdp(cfg.Uids(), cfg.Gids(), hosts4, hosts6, cfg.captureAllDNS, cfg.Filter()), fam, c);
  }

  lemma AppendOneUntraced(applied: seq<Applied>, fam: Family, c: Call)
    requires c in FlatMap(applied, AppendOne(fam))
    ensures c.command == UNDEFINED_COMMAND
  {
    FlatMapMember(applied, AppendOne(fam), c);
  }

  lemma BaseTests(cfg: Config, c: Call)
    requires c in BaseCalls(cfg) && c.command != UNDEFINED_COMMAND
    ensures !TestsFor(c.rule, "-j")
  {
    TcpOnly(Redirect("--to-ports", cfg.inboundCapturePort));
  }

  lemma LoggedTests(s: Setup, fam: Family, phase: Phase, c: Call)
    requires c in PhaseCalls(s, fam, phase) && c.command != UNDEFINED_COMMAND && TestsFor(c.rule, "-j")
    ensures "-j" in Names(s, fam)
  {
    match phase
    case ExcludedInterfaces => InterfaceTests(s.cfg, c);
    case KubeReturns => KubeTests(s.cfg, Return, c);
    case BaseChains => BaseTests(s.cfg, c);
    case InboundPorts => InboundTests(s.cfg, fam, c);
    case OutputJump => TcpOnly(Jump(ISTIO_OUTPUT));
    case IncludedRanges => IncludeTests(s.cfg, s.Included(fam), c);
    case _ => UntracedPhases(s, fam, phase, c);
  }

  // ---------------------------------------------------------------- every such name is tested for

  predicate Logs(c: Call, value: string) {
    c.command != UNDEFINED_COMMAND && TestsFor(c.rule, value)
  }

  lemma LogsFirst(c: Call, value: string)
    requires c.command in {EXCLUDE_INTERFACE, KUBEVIRT} && c.rule.conds != [] && c.rule.conds[0].test.value == value
    ensures Logs(c, value)
  {
    assert c.rule.conds[0] in c.rule.conds;
  }

  lemma LogsSecond(c: Call, value: string)
    requires c.command in {EXCLUDE_INBOUND_PORT, INCLUDE_INBOUND_PORT, KUBEVIRT}
    requires |c.rule.conds| >= 2 && c.rule.conds[1].test.value == value
    ensures Logs(c, value)
  {
    assert c.rule.conds[1] in c.rule.conds;
  }

  lemma InterfaceLogged(s: Setup, fam: Family, i: string) returns (c: Call)
    requires i in Text.Fields(s.cfg.excludeInterfaces)
    ensures c in RunCalls(s, fam) && Logs(c, i)
  {
    var xs := Text.Fields(s.cfg.excludeInterfaces);
    c := InterfaceReturns(NAT)(i)[0];
    assert c in InterfaceReturns(NAT)(i);
    FlatMapMember(xs, InterfaceReturns(NAT), c);
    InRun(s, fam, ExcludedInterfaces, c);
    LogsFirst(c, i);
  }

  lemma KubeLogged(s: Setup, fam: Family, i: string) returns (c: Call)
    requires i in Text.Fields(s.cfg.kubeVirtInterfaces)
    ensures c in RunCalls(s, fam) && Logs(c, i)
  {
    c := KubeInsert([Is(InInterface(i))], Return);
    assert c in KubeTraffic(Return)(i);
    FlatMapMember(Text.Fields(s.cfg.kubeVirtInterfaces), KubeTraffic(Return), c);
    InRun(s, fam, KubeReturns, c);
    LogsFirst(c, i);
  }

  lemma RangeLogged(s: Setup, fam: Family, cidr: string) returns (c: Call)
    requires cidr in KubeRanges(s.cfg, s.Included(fam))
    ensures c in RunCalls(s, fam) && Logs(c, cidr)
  {
    var kubes := Text.Fields(s.cfg.kubeVirtInterfaces);
    c := KubeInsert([Is(InInterface(kubes[0])), Is(Destination(cidr))], Jump(ISTIO_REDIRECT));
    RangeCall(s.cfg, s.Included(fam), cidr, c);
    IncludedPhase(s, fam);
    InRun(s, fam, IncludedRanges, c);
    LogsSecond(c, cidr);
  }

  lemma RangeCall(cfg: Config, range: NetworkRange, cidr: string, c: Call)
    requires cidr in KubeRanges(cfg, range)
    requires c == KubeInsert([Is(InInterface(Text.Fields(cfg.kubeVirtInterfaces)[0])), Is(Destination(cidr))], Jump(ISTIO_REDIRECT))
    ensures c in IncludeCalls(cfg, range)
  {
    var kubes := Text.Fields(cfg.kubeVirtInterfaces);
    assert c in KubeTrafficTo(cidr)(kubes[0]);
    FlatMapMember(kubes, KubeTrafficTo(cidr), c);
    assert c in IncludedRange(kubes)(cidr);
    FlatMapMember(range.ipNets, IncludedRange(kubes), c);
  }

  lemma PortLogged(s: Setup, fam: Family, port: string) returns (c: Call)
    requires port in InboundNames(s.cfg)
    ensures c in RunCalls(s, fam) && Logs(c, port)
  {
    c := PortCall(s.cfg, port);
    InboundMember(s.cfg, fam, c);
    InboundInRun(s, fam, c);
  }

  lemma InboundMember(cfg: Config, fam: Family, c: Call)
    requires cfg.inboundPortsInclude != "" && c in InboundPortCalls(cfg)
    ensures c in InboundCalls(cfg, fam)
  {
  }

  lemma PortCall(cfg: Config, port: string) returns (c: Call)
    requires port in InboundNames(cfg)
    ensures c in InboundPortCalls(cfg) && Logs(c, port)
  {
    var table := InboundTable(cfg);
    var all := cfg.inboundPortsInclude == "*";
    var command := if all then EXCLUDE_INBOUND_PORT else INCLUDE_INBOUND_PORT;
    var f := if all then TcpPorts(Return) else if cfg.UsesTproxy() then TproxyPorts() else TcpPorts(Jump(ISTIO_IN_REDIRECT));
    var r := f(port)[0];
    assert r in f(port);
    FlatMapMember(InboundNames(cfg), f, r);
    c := AppendCall(command, ISTIO_INBOUND, table, r);
    assert c in ToCall(command, ISTIO_INBOUND, table)(r);
    FlatMapMember(FlatMap(InboundNames(cfg), f), ToCall(command, ISTIO_INBOUND, table), c);
    LogsSecond(c, port);
  }

  // ---------------------------------------------------------------- the condition on the configuration

  /** The logging rules of a run are readable exactly when no name they test for is spelled `-j`. */
  lemma ReadableExactly(s: Setup, fam: Family)
    ensures LogsReadably(s.cfg.traceLogging, RunCalls(s, fam)) <==> (s.cfg.traceLogging ==> "-j" !in Names(s, fam))
  {
    if s.cfg.traceLogging {
      if c :| c in RunCalls(s, fam) && Logs(c, "-j") {
        FlatMapMember(Phases(), CallsOf(s, fam), c);
        var phase :| phase in Phases() && c in CallsOf(s, fam)(phase);
        LoggedTests(s, fam, phase, c);
      }
      if "-j" in Names(s, fam) {
        var c := NameLogged(s, fam, "-j");
        assert Traced(true, c);
      }
    }
  }

  lemma NameLogged(s: Setup, fam: Family, name: string) returns (c: Call)
    requires name in Names(s, fam)
    ensures c in RunCalls(s, fam) && Logs(c, name)
  {
    if name in Text.Fields(s.cfg.excludeInterfaces) {
      c := InterfaceLogged(s, fam, name);
    } else if name in Text.Fields(s.cfg.kubeVirtInterfaces) {
      c := KubeLogged(s, fam, name);
    } else if name in InboundNames(s.cfg) {
      c := PortLogged(s, fam, name);
    } else {
      c := RangeLogged(s, fam, name);
    }
  }

  /**
   The script never fails: on every host, for every configuration and family, exactly unless tracing is
   on and an interface, an inbound port or a range it logs is spelled like the option that ends a rule.
   */
  lemma ScriptNeverFails(fw: Firewall, s: Setup, fam: Family, command: string)
    requires Host(fw)
    ensures ExecLines(fw, Arguments(BuildLines(command, RunEntries(s, fam)))).Some? <==>
            !Enabled(s, fam) || !s.cfg.traceLogging || "-j" !in Names(s, fam)
  {
    RunSucceeds(fw, s, fam, command);
    ReadableExactly(s, fam);
  }
}
