/** What holds of every call of a run, phase by phase. */
module RunFacts {
  import opened Sequences
  import opened Netfilter
  import opened Builder
  import opened CallScripts
  import opened Capture
  import Text

  // ---------------------------------------------------------------- rules are well formed

  predicate Portless(c: Cond) {
    !c.test.SourcePort? && !c.test.DestPort? && !c.test.Protocol?
  }

  lemma {:induction false} GoodPlain(conds: seq<Cond>, t: Target, proto: string)
    requires forall c :: c in conds ==> Portless(c)
    requires GoodTarget(t, proto)
    ensures GoodRule(conds, t, proto)
    decreases |conds|
  {
    if conds != [] {
      assert conds[0] in conds;
      GoodPlain(conds[1..], t, proto);
    }
  }

  lemma {:induction false} GoodAfter(conds: seq<Cond>, t: Target, proto: string)
    requires forall c :: c in conds ==> !c.test.Protocol?
    requires CarriesPorts(proto) && GoodTarget(t, proto)
    ensures GoodRule(conds, t, proto)
    decreases |conds|
  {
    if conds != [] {
      assert conds[0] in conds;
      GoodAfter(conds[1..], t, proto);
    }
  }

  /** A protocol with ports, plain tests before it, any tests after it. */
  lemma {:induction false} GoodProtocol(before: seq<Cond>, proto: string, after: seq<Cond>, t: Target, start: string)
    requires forall c :: c in before ==> Portless(c)
    requires forall c :: c in after ==> !c.test.Protocol?
    requires CarriesPorts(proto) && GoodTarget(t, proto)
    ensures GoodRule(before + [Is(Protocol(proto))] + after, t, start)
    decreases |before|
  {
    var conds := before + [Is(Protocol(proto))] + after;
    if before == [] {
      assert conds[1..] == after;
      GoodAfter(after, t, proto);
    } else {
      assert before[0] in before;
      assert conds[1..] == before[1..] + [Is(Protocol(proto))] + after;
      GoodProtocol(before[1..], proto, after, t, start);
    }
  }

  predicate Good(r: Rule) {
    GoodRule(r.conds, r.target, "")
  }

  lemma GoodTcp(after: seq<Cond>, t: Target)
    requires forall c :: c in after ==> !c.test.Protocol?
    requires GoodTarget(t, "tcp")
    ensures Good(Rule([Tcp()] + after, t))
  {
    GoodProtocol([], "tcp", after, t, "");
    assert [] + [Tcp()] + after == [Tcp()] + after;
  }

  /** Rules with a fixed target that every table of the run has. */
  predicate Simple(t: Target) {
    t.Return? || t.Accept? || t.Drop? || t.SetMark? || t.SaveMark? || t.RestoreMark? || t.Zone? ||
    (t.Jump? && t.chain in ISTIO_CHAINS)
  }

  const ISTIO_CHAINS := {ISTIO_OUTPUT, ISTIO_INBOUND, ISTIO_DIVERT, ISTIO_TPROXY, ISTIO_REDIRECT, ISTIO_IN_REDIRECT}

  lemma SimpleGood(t: Target, proto: string)
    requires Simple(t)
    ensures GoodTarget(t, proto)
  {
  }

  lemma TcpRuleGood(t: Target)
    requires GoodTarget(t, "tcp")
    ensures Good(TcpRule(t))
  {
    GoodTcp([], t);
    assert [Tcp()] + [] == [Tcp()];
  }

  lemma TcpPortRuleGood(port: string, t: Target)
    requires GoodTarget(t, "tcp")
    ensures Good(TcpPortRule(port, t))
  {
    GoodTcp([Is(DestPort(port))], t);
    assert [Tcp()] + [Is(DestPort(port))] == [Tcp(), Is(DestPort(port))];
  }

  lemma PlainRuleGood(conds: seq<Cond>, t: Target)
    requires forall c :: c in conds ==> Portless(c)
    requires Simple(t)
    ensures Good(Rule(conds, t))
  {
    SimpleGood(t, "");
    GoodPlain(conds, t, "");
  }

  lemma UdpRuleGood(port: Match, conds: seq<Cond>, t: Target)
    requires port.DestPort? || port.SourcePort?
    requires forall c :: c in conds ==> !c.test.Protocol?
    requires GoodTarget(t, "udp")
    ensures Good(UdpRule(port, conds, t))
  {
    GoodProtocol([], "udp", [Is(port)] + conds, t, "");
    assert [] + [Is(Protocol("udp"))] + ([Is(port)] + conds) == [Is(Protocol("udp")), Is(port)] + conds;
  }

  lemma BackToSelfGood(dns: bool, fam: Family, owner: Match)
    requires owner.UidOwner? || owner.GidOwner?
    ensures Good(BackToSelfRule(dns, fam, owner))
  {
    var lo, away := Is(OutInterface("lo")), Not(Destination(Loopback(fam)));
    var t := Jump(ISTIO_IN_REDIRECT);
    if dns {
      GoodProtocol([lo, away], "tcp", [Not(DestPort("53")), Is(owner)], t, "");
      assert [lo, away] + [Tcp()] + [Not(DestPort("53")), Is(owner)] == [lo, away, Tcp(), Not(DestPort("53")), Is(owner)];
    } else {
      PlainRuleGood([lo, away, Is(owner)], t);
    }
  }

  lemma LoopbackReturnGood(dns: bool, owner: Match)
    requires owner.UidOwner? || owner.GidOwner?
    ensures Good(LoopbackReturnRule(dns, owner))
  {
    var lo := Is(OutInterface("lo"));
    if dns {
      GoodProtocol([lo], "tcp", [Not(DestPort("53")), Not(owner)], Return, "");
      assert [lo] + [Tcp()] + [Not(DestPort("53")), Not(owner)] == [lo, Tcp(), Not(DestPort("53")), Not(owner)];
    } else {
      PlainRuleGood([lo, Not(owner)], Return);
    }
  }

  lemma MarkRuleGood(fam: Family, owner: Match)
    requires owner.UidOwner? || owner.GidOwner?
    ensures Good(MarkRule(fam, owner))
  {
    var away, lo := Not(Destination(Loopback(fam))), Is(OutInterface("lo"));
    GoodProtocol([away], "tcp", [lo, Is(owner)], SetMark(OUTBOUND_MARK), "");
    assert [away] + [Tcp()] + [lo, Is(owner)] == [away, Tcp(), lo, Is(owner)];
  }

  lemma TproxyRuleGood(cfg: Config, fam: Family)
    ensures Good(TproxyRule(cfg, fam))
  {
    var r := TproxyRule(cfg, fam);
    GoodProtocol([r.conds[0]], "tcp", [], r.target, "");
    assert [r.conds[0]] + [Tcp()] + [] == r.conds;
  }

  lemma FixedRulesGood(mark: string, port: string, address: string)
    ensures Good(EstablishedRule()) && Good(EstablishedPortRule(port)) && Good(TcpDnsRule(address))
    ensures Good(SaveMarkRule(mark)) && Good(RestoreMarkRule(mark)) && Good(MarkedLoopbackRule(mark))
    ensures Good(MarkedInboundRule(mark)) && Good(FromPassthroughRule(address)) && Good(UnmarkedLoopbackRule())
  {
    GoodTcp([Is(CtState(ESTABLISHED))], Jump(ISTIO_DIVERT));
    GoodTcp([Is(DestPort(port)), Is(CtState(ESTABLISHED))], Jump(ISTIO_DIVERT));
    GoodTcp([Is(DestPort("53")), Is(Destination(address))], TcpDnsRedirect());
    GoodTcp([Is(Mark(mark))], SaveMark);
    GoodTcp([Is(ConnMark(mark))], RestoreMark);
    GoodTcp([Is(OutInterface("lo")), Is(Mark(mark))], Return);
    GoodTcp([Is(Mark(mark))], Return);
    GoodTcp([Is(Source(address)), Is(InInterface("lo"))], Return);
    GoodTcp([Is(InInterface("lo")), Not(Mark(OUTBOUND_MARK))], Return);
    assert [Tcp()] + [Is(CtState(ESTABLISHED))] == EstablishedRule().conds;
    assert [Tcp()] + [Is(DestPort(port)), Is(CtState(ESTABLISHED))] == EstablishedPortRule(port).conds;
    assert [Tcp()] + [Is(DestPort("53")), Is(Destination(address))] == TcpDnsRule(address).conds;
    assert [Tcp()] + [Is(Mark(mark))] == SaveMarkRule(mark).conds == MarkedInboundRule(mark).conds;
    assert [Tcp()] + [Is(ConnMark(mark))] == RestoreMarkRule(mark).conds;
    assert [Tcp()] + [Is(OutInterface("lo")), Is(Mark(mark))] == MarkedLoopbackRule(mark).conds;
    assert [Tcp()] + [Is(Source(address)), Is(InInterface("lo"))] == FromPassthroughRule(address).conds;
    assert [Tcp()] + [Is(InInterface("lo")), Not(Mark(OUTBOUND_MARK))] == UnmarkedLoopbackRule().conds;
  }

  // ---------------------------------------------------------------- calls stay within their phase

  /** The chains a phase may touch. */
  function Touched(phase: Phase): set<ChainId> {
    match phase
    case ExcludedInterfaces =>
      {ChainId(NAT, PREROUTING), ChainId(NAT, OUTPUT), ChainId(MANGLE, PREROUTING), ChainId(MANGLE, OUTPUT)}
    case KubeReturns => {ChainId(NAT, PREROUTING)}
    case InvalidDrops => {ChainId(MANGLE, PREROUTING)}
    case BaseChains => {ChainId(NAT, ISTIO_INBOUND), ChainId(NAT, ISTIO_REDIRECT), ChainId(NAT, ISTIO_IN_REDIRECT)}
    case InboundPorts =>
      {ChainId(NAT, PREROUTING), ChainId(NAT, ISTIO_INBOUND), ChainId(MANGLE, PREROUTING),
       ChainId(MANGLE, ISTIO_INBOUND), ChainId(MANGLE, ISTIO_DIVERT), ChainId(MANGLE, ISTIO_TPROXY)}
    case OutputJump => {ChainId(NAT, OUTPUT)}
    case OutputChain => {ChainId(NAT, ISTIO_OUTPUT)}
    case IncludedRanges => {ChainId(NAT, PREROUTING), ChainId(NAT, ISTIO_OUTPUT)}
    case UdpDns => {ChainId(NAT, OUTPUT), ChainId(RAW, OUTPUT), ChainId(RAW, PREROUTING)}
    case TproxyMarks => {ChainId(MANGLE, PREROUTING), ChainId(MANGLE, OUTPUT)}
    case TproxyReturns => {ChainId(MANGLE, ISTIO_INBOUND)}
  }

  const NAT_CHAINS := {ISTIO_OUTPUT, ISTIO_INBOUND, ISTIO_REDIRECT, ISTIO_IN_REDIRECT}

  /** A jump to a chain that the run fills in the same table. */
  predicate JumpFits(cfg: Config, table: string, chain: string) {
    || (table == NAT && chain in NAT_CHAINS)
    || (table == MANGLE && cfg.UsesTproxy() &&
        (chain == ISTIO_INBOUND || (cfg.inboundPortsInclude != "" && chain in {ISTIO_DIVERT, ISTIO_TPROXY})))
  }

  predicate Fits(cfg: Config, phase: Phase, c: Call) {
    && Good(c.rule)
    && CallId(c) in Touched(phase)
    && (c.rule.target.Jump? ==> JumpFits(cfg, c.table, c.rule.target.chain))
    && (c.InsertCall? && phase != TproxyReturns ==> c.position == 1)
  }

  lemma CallsMember(command: string, chain: string, table: string, rules: seq<Rule>, c: Call)
    requires c in Calls(command, chain, table, rules)
    ensures c == AppendCall(command, chain, table, c.rule) && c.rule in rules
  {
    FlatMapMember(rules, ToCall(command, chain, table), c);
  }

  lemma PortMember(ports: seq<string>, t: Target, r: Rule)
    requires r in FlatMap(ports, TcpPorts(t))
    ensures exists port :: port in ports && r == TcpPortRule(port, t)
  {
    FlatMapMember(ports, TcpPorts(t), r);
  }

  lemma RangeMember(cidrs: seq<string>, t: Target, r: Rule)
    requires r in FlatMap(cidrs, Ranges(t))
    ensures exists cidr :: cidr in cidrs && r == ToRange(cidr, t)
  {
    FlatMapMember(cidrs, Ranges(t), r);
  }

  lemma InterfacesFit(cfg: Config, c: Call)
    requires c in ExcludeInterfaceCalls(cfg)
    ensures Fits(cfg, ExcludedInterfaces, c)
  {
    var xs := Text.Fields(cfg.excludeInterfaces);
    if c in FlatMap(xs, InterfaceReturns(NAT)) {
      FlatMapMember(xs, InterfaceReturns(NAT), c);
    } else {
      FlatMapMember(xs, InterfaceReturns(MANGLE), c);
    }
    PlainRuleGood(c.rule.conds, Return);
  }

  lemma KubeReturnsFit(cfg: Config, c: Call)
    requires c in FlatMap(Text.Fields(cfg.kubeVirtInterfaces), KubeTraffic(Return))
    ensures Fits(cfg, KubeReturns, c)
  {
    FlatMapMember(Text.Fields(cfg.kubeVirtInterfaces), KubeTraffic(Return), c);
    PlainRuleGood(c.rule.conds, Return);
  }

  lemma BaseFits(cfg: Config, c: Call)
    requires c in BaseCalls(cfg)
    ensures Fits(cfg, BaseChains, c)
  {
    TcpPortRuleGood(cfg.inboundTunnelPort, Return);
    TcpRuleGood(Redirect("--to-ports", cfg.proxyPort));
    TcpRuleGood(Redirect("--to-ports", cfg.inboundCapturePort));
  }

  lemma DivertFits(cfg: Config, fam: Family, c: Call)
    requires cfg.UsesTproxy() && cfg.inboundPortsInclude != ""
    requires c in DivertCalls(cfg, fam)
    ensures Fits(cfg, InboundPorts, c)
  {
    if c in Calls(UNDEFINED_COMMAND, ISTIO_DIVERT, MANGLE, AcceptMarkRules(cfg)) {
      CallsMember(UNDEFINED_COMMAND, ISTIO_DIVERT, MANGLE, AcceptMarkRules(cfg), c);
      PlainRuleGood([], c.rule.target);
    } else {
      CallsMember(UNDEFINED_COMMAND, ISTIO_TPROXY, MANGLE, [TproxyRule(cfg, fam)], c);
      TproxyRuleGood(cfg, fam);
    }
  }

  /** The rules of the inbound chain, whichever table it is in. */
  predicate InboundRuleFits(cfg: Config, r: Rule) {
    && Good(r)
    && (r.target.Jump? ==> JumpFits(cfg, InboundTable(cfg), r.target.chain))
  }

  lemma InboundPortRuleFits(cfg: Config, ports: seq<string>, t: Target, r: Rule)
    requires r in FlatMap(ports, TcpPorts(t))
    requires t == Return || (t == Jump(ISTIO_IN_REDIRECT) && !cfg.UsesTproxy())
    ensures InboundRuleFits(cfg, r)
  {
    PortMember(ports, t, r);
    var port :| port in ports && r == TcpPortRule(port, t);
    TcpPortRuleGood(port, t);
  }

  lemma TproxyPortRuleFits(cfg: Config, ports: seq<string>, r: Rule)
    requires cfg.UsesTproxy() && cfg.inboundPortsInclude != ""
    requires r in FlatMap(ports, TproxyPorts())
    ensures InboundRuleFits(cfg, r)
  {
    FlatMapMember(ports, TproxyPorts(), r);
    var port :| port in ports && r in TproxyPorts()(port);
    TcpPortRuleGood(port, Jump(ISTIO_TPROXY));
    FixedRulesGood("", port, "");
  }

  lemma RestRuleFits(cfg: Config, r: Rule)
    requires cfg.inboundPortsInclude != ""
    requires r in RestRules(cfg)
    ensures InboundRuleFits(cfg, r)
  {
    FixedRulesGood("", "", "");
    TcpRuleGood(Jump(ISTIO_TPROXY));
    TcpRuleGood(Jump(ISTIO_IN_REDIRECT));
  }

  lemma InboundPortsFit(cfg: Config, c: Call)
    requires cfg.inboundPortsInclude != ""
    requires c in InboundPortCalls(cfg)
    ensures Fits(cfg, InboundPorts, c)
  {
    var table := InboundTable(cfg);
    if cfg.inboundPortsInclude == "*" {
      var excluded := FlatMap(Text.Fields(cfg.inboundPortsExclude), TcpPorts(Return));
      if c in Calls(EXCLUDE_INBOUND_PORT, ISTIO_INBOUND, table, excluded) {
        CallsMember(EXCLUDE_INBOUND_PORT, ISTIO_INBOUND, table, excluded, c);
        InboundPortRuleFits(cfg, Text.Fields(cfg.inboundPortsExclude), Return, c.rule);
      } else {
        CallsMember(UNDEFINED_COMMAND, ISTIO_INBOUND, table, RestRules(cfg), c);
        RestRuleFits(cfg, c.rule);
      }
    } else {
      var ports := Text.Fields(cfg.inboundPortsInclude);
      var f := if cfg.UsesTproxy() then TproxyPorts() else TcpPorts(Jump(ISTIO_IN_REDIRECT));
      CallsMember(INCLUDE_INBOUND_PORT, ISTIO_INBOUND, table, FlatMap(ports, f), c);
      if cfg.UsesTproxy() {
        TproxyPortRuleFits(cfg, ports, c.rule);
      } else {
        InboundPortRuleFits(cfg, ports, Jump(ISTIO_IN_REDIRECT), c.rule);
      }
    }
  }

  lemma JumpInboundFits(cfg: Config)
    ensures Fits(cfg, InboundPorts, AppendCall(JUMP_INBOUND, PREROUTING, InboundTable(cfg), TcpRule(Jump(ISTIO_INBOUND))))
  {
    TcpRuleGood(Jump(ISTIO_INBOUND));
  }

  lemma InThree<T>(a: seq<T>, b: T, c: seq<T>, x: T)
    requires x in a + [b] + c
    ensures x in a || x == b || x in c
  {
  }

  lemma InboundFits(cfg: Config, fam: Family, c: Call)
    requires c in InboundCalls(cfg, fam)
    ensures Fits(cfg, InboundPorts, c)
  {
    var jump := AppendCall(JUMP_INBOUND, PREROUTING, InboundTable(cfg), TcpRule(Jump(ISTIO_INBOUND)));
    InThree(if cfg.UsesTproxy() then DivertCalls(cfg, fam) else [], jump, InboundPortCalls(cfg), c);
    JumpInboundFits(cfg);
    if c in InboundPortCalls(cfg) {
      InboundPortsFit(cfg, c);
    } else if c != jump {
      DivertFits(cfg, fam, c);
    }
  }

  // The outbound chain.

  predicate OutRuleFits(r: Rule) {
    Good(r) && (r.target.Jump? ==> r.target.chain in NAT_CHAINS)
  }

  lemma ProxyRulesFit(backDns: bool, dns: bool, skip: bool, fam: Family, owner: Match, r: Rule)
    requires owner.UidOwner? || owner.GidOwner?
    requires r in ProxyRules(backDns, dns, skip, fam, owner)
    ensures OutRuleFits(r)
  {
    BackToSelfGood(backDns, fam, SubMatch(Loopback(fam), owner));
    LoopbackReturnGood(dns, owner);
    PlainRuleGood([Is(owner)], Return);
  }

  lemma OwnerGroupRulesFit(filter: InterceptFilter, r: Rule)
    requires r in OwnerGroupRules(filter)
    ensures OutRuleFits(r)
  {
    if filter.except {
      FlatMapMember(filter.values, OwnerReturns(), r);
    } else {
      NoneOfPortless(filter.values);
    }
    PlainRuleGood(r.conds, Return);
  }

  lemma NoneOfPortless(groups: seq<string>)
    ensures forall c :: c in NoneOf(groups) ==> Portless(c)
  {
    forall c | c in NoneOf(groups) ensures Portless(c) {
      FlatMapMember(groups, NotGroup(), c);
    }
  }

  lemma SegmentFits(s: Setup, fam: Family, segment: Segment, r: Rule)
    requires r in SegmentRules(s, fam, segment)
    ensures OutRuleFits(r)
  {
    match segment
    case ExcludedPorts =>
      PortMember(Text.Fields(s.cfg.outboundPortsExclude), Return, r);
      TcpPortRuleGood(r.conds[1].test.value, Return);
    case Passthrough =>
      PlainRuleGood(r.conds, Return);
    case ProxyUsers =>
      var f := UidRules(s.cfg.redirectDNS, s.skipLoopback, fam);
      FlatMapMember(s.cfg.Uids(), f, r);
      var uid :| uid in s.cfg.Uids() && r in f(uid);
      ProxyRulesFit(s.cfg.redirectDNS, s.cfg.redirectDNS, s.skipLoopback, fam, UidOwner(uid), r);
    case ProxyGroups =>
      var f := GidRules(s.cfg.redirectDNS, s.skipLoopback, fam);
      FlatMapMember(s.cfg.Gids(), f, r);
      var gid :| gid in s.cfg.Gids() && r in f(gid);
      ProxyRulesFit(false, s.cfg.redirectDNS, s.skipLoopback, fam, GidOwner(gid), r);
    case OwnerGroups =>
      OwnerGroupRulesFit(s.cfg.Filter(), r);
    case TcpDns =>
      TcpDnsFits(s.cfg, s.Hosts(fam), r);
    case ToLoopback =>
      PlainRuleGood(r.conds, Return);
    case ExcludedRanges =>
      RangeMember(s.Excluded(fam).ipNets, Return, r);
      PlainRuleGood(r.conds, Return);
    case IncludedPorts =>
      PortMember(Text.Fields(s.cfg.outboundPortsInclude), Jump(ISTIO_REDIRECT), r);
      TcpPortRuleGood(r.conds[1].test.value, Jump(ISTIO_REDIRECT));
  }

  lemma TcpDnsFits(cfg: Config, hosts: seq<string>, r: Rule)
    requires r in TcpDnsRules(cfg, hosts)
    ensures OutRuleFits(r)
  {
    TcpPortRuleGood("53", TcpDnsRedirect());
    if !cfg.captureAllDNS {
      FlatMapMember(hosts, TcpDnsTo(), r);
      FixedRulesGood("", "", r.conds[2].test.value);
    }
  }

  lemma OutputChainFits(s: Setup, fam: Family, c: Call)
    requires c in Calls(UNDEFINED_COMMAND, ISTIO_OUTPUT, NAT, OutputRules(s, fam))
    ensures Fits(s.cfg, OutputChain, c)
  {
    CallsMember(UNDEFINED_COMMAND, ISTIO_OUTPUT, NAT, OutputRules(s, fam), c);
    var segment := SegmentOf(s, fam, c.rule);
    SegmentFits(s, fam, segment, c.rule);
  }

  lemma SegmentOf(s: Setup, fam: Family, r: Rule) returns (segment: Segment)
    requires r in OutputRules(s, fam)
    ensures r in SegmentRules(s, fam, segment)
  {
    FlatMapMember(Segments(), RulesOf(s, fam), r);
    segment :| segment in Segments() && r in RulesOf(s, fam)(segment);
  }

  /** A call of the included ranges: an append to the outbound chain or an insertion before routing. */
  predicate IncludeShape(c: Call) {
    || (c.AppendCall? && CallId(c) == ChainId(NAT, ISTIO_OUTPUT))
    || (c.InsertCall? && CallId(c) == ChainId(NAT, PREROUTING) && c.position == 1)
  }

  lemma IncludeShapeFits(cfg: Config, c: Call)
    requires IncludeShape(c)
    requires forall x :: x in c.rule.conds ==> Portless(x)
    requires c.rule.target == Return || c.rule.target == Jump(ISTIO_REDIRECT)
    ensures Fits(cfg, IncludedRanges, c)
  {
    PlainRuleGood(c.rule.conds, c.rule.target);
  }

  lemma IncludedRangeFits(cfg: Config, kubes: seq<string>, cidr: string, c: Call)
    requires c in IncludedRange(kubes)(cidr)
    ensures Fits(cfg, IncludedRanges, c)
  {
    if c in FlatMap(kubes, KubeTrafficTo(cidr)) {
      FlatMapMember(kubes, KubeTrafficTo(cidr), c);
    }
    IncludeShapeFits(cfg, c);
  }

  lemma KubeRedirectFits(cfg: Config, kubes: seq<string>, c: Call)
    requires c in FlatMap(kubes, KubeTraffic(Jump(ISTIO_REDIRECT)))
    ensures Fits(cfg, IncludedRanges, c)
  {
    FlatMapMember(kubes, KubeTraffic(Jump(ISTIO_REDIRECT)), c);
    IncludeShapeFits(cfg, c);
  }

  lemma BareOutFits(cfg: Config, t: Target)
    requires t == Return || t == Jump(ISTIO_REDIRECT)
    ensures Fits(cfg, IncludedRanges, AppendCall(UNDEFINED_COMMAND, ISTIO_OUTPUT, NAT, Rule([], t)))
  {
    IncludeShapeFits(cfg, AppendCall(UNDEFINED_COMMAND, ISTIO_OUTPUT, NAT, Rule([], t)));
  }

  lemma IncludeFits(cfg: Config, range: NetworkRange, c: Call)
    requires c in IncludeCalls(cfg, range)
    ensures Fits(cfg, IncludedRanges, c)
  {
    var kubes := Text.Fields(cfg.kubeVirtInterfaces);
    BareOutFits(cfg, Return);
    BareOutFits(cfg, Jump(ISTIO_REDIRECT));
    if range.isWildcard {
      if c in FlatMap(kubes, KubeTraffic(Jump(ISTIO_REDIRECT))) {
        KubeRedirectFits(cfg, kubes, c);
      }
    } else if c in FlatMap(range.ipNets, IncludedRange(kubes)) {
      IncludedNetFits(cfg, kubes, range.ipNets, c);
    }
  }

  lemma IncludedNetFits(cfg: Config, kubes: seq<string>, nets: seq<string>, c: Call)
    requires c in FlatMap(nets, IncludedRange(kubes))
    ensures Fits(cfg, IncludedRanges, c)
  {
    FlatMapMember(nets, IncludedRange(kubes), c);
    var cidr :| cidr in nets && c in IncludedRange(kubes)(cidr);
    IncludedRangeFits(cfg, kubes, cidr, c);
  }

  // UDP DNS.

  /** One application of the DNS helper: a UDP rule that is a RETURN, the DNS redirect or a zone. */
  predicate AppliedFits(a: Applied) {
    && Good(a.rule)
    && ChainId(a.table, a.chain) in Touched(UdpDns)
    && (a.rule.target == Return || a.rule.target == DnsRedirect() || a.rule.target.Zone?)
  }

  lemma UdpFits(a: Applied, port: Match, conds: seq<Cond>, t: Target)
    requires a.rule == UdpRule(port, conds, t) && (port.DestPort? || port.SourcePort?)
    requires forall c :: c in conds ==> !c.test.Protocol?
    requires t == Return || t == DnsRedirect() || t.Zone?
    requires ChainId(a.table, a.chain) in Touched(UdpDns)
    ensures AppliedFits(a)
  {
    UdpRuleGood(port, conds, t);
  }

  lemma OwnerReturnsFit(owners: seq<string>, uid: bool, a: Applied)
    requires a in FlatMap(owners, if uid then DnsUidReturn() else DnsGidReturn())
    ensures AppliedFits(a)
  {
    FlatMapMember(owners, if uid then DnsUidReturn() else DnsGidReturn(), a);
    var x :| x in owners && a in (if uid then DnsUidReturn() else DnsGidReturn())(x);
    UdpFits(a, DestPort("53"), [Is(if uid then UidOwner(x) else GidOwner(x))], Return);
  }

  lemma GroupReturnsFit(filter: InterceptFilter, a: Applied)
    requires a in DnsGroupReturns(filter)
    ensures AppliedFits(a)
  {
    if filter.except {
      OwnerReturnsFit(filter.values, false, a);
    } else {
      NoneOfPortless(filter.values);
      UdpFits(a, DestPort("53"), NoneOf(filter.values), Return);
    }
  }

  lemma RedirectsFit(hosts4: seq<string>, hosts6: seq<string>, all: bool, a: Applied)
    requires a in DnsRedirects(hosts4, hosts6, all)
    ensures AppliedFits(a)
  {
    if all {
      UdpFits(a, DestPort("53"), [], DnsRedirect());
    } else {
      var fam, hosts := if a in FlatMap(hosts4, DnsServerRedirect(V4)) then V4 else V6,
                        if a in FlatMap(hosts4, DnsServerRedirect(V4)) then hosts4 else hosts6;
      FlatMapMember(hosts, DnsServerRedirect(fam), a);
      var x :| x in hosts && a in DnsServerRedirect(fam)(x);
      UdpFits(a, DestPort("53"), [Is(Destination(x))], DnsRedirect());
    }
  }

  lemma OwnerZonesFit(owner: Match, a: Applied)
    requires owner.UidOwner? || owner.GidOwner?
    requires a in ZoneOfOwner(owner)
    ensures AppliedFits(a)
  {
    if a in Both(OUTPUT, RAW, UdpTo("53", [Is(owner)], Zone("1"))) {
      UdpFits(a, DestPort("53"), [Is(owner)], Zone("1"));
    } else {
      UdpFits(a, SourcePort(DNS_PORT), [Is(owner)], Zone("2"));
    }
  }

  lemma ServerZonesFit(hosts: seq<string>, fam: Family, a: Applied)
    requires a in FlatMap(hosts, ZoneOfServer(fam))
    ensures AppliedFits(a)
  {
    FlatMapMember(hosts, ZoneOfServer(fam), a);
    var x :| x in hosts && a in ZoneOfServer(fam)(x);
    if a == ZoneOfServer(fam)(x)[0] {
      UdpFits(a, DestPort("53"), [Is(Destination(x))], Zone("2"));
    } else {
      UdpFits(a, SourcePort("53"), [Is(Destination(x))], Zone("1"));
    }
  }

  lemma ZonesFit(uids: seq<string>, gids: seq<string>, hosts4: seq<string>, hosts6: seq<string>, all: bool, a: Applied)
    requires a in ConntrackZones(uids, gids, hosts4, hosts6, all)
    ensures AppliedFits(a)
  {
    if a in FlatMap(uids, ZoneOfUid()) {
      FlatMapMember(uids, ZoneOfUid(), a);
      var x :| x in uids && a in ZoneOfUid()(x);
      OwnerZonesFit(UidOwner(x), a);
    } else if a in FlatMap(gids, ZoneOfGid()) {
      FlatMapMember(gids, ZoneOfGid(), a);
      var x :| x in gids && a in ZoneOfGid()(x);
      OwnerZonesFit(GidOwner(x), a);
    } else if all {
      if a in Both(OUTPUT, RAW, UdpTo("53", [], Zone("2"))) {
        UdpFits(a, DestPort("53"), [], Zone("2"));
      } else {
        UdpFits(a, SourcePort("53"), [], Zone("1"));
      }
    } else if a in FlatMap(hosts4, ZoneOfServer(V4)) {
      ServerZonesFit(hosts4, V4, a);
    } else {
      ServerZonesFit(hosts6, V6, a);
    }
  }

  lemma DnsUdpFits(uids: seq<string>, gids: seq<string>, hosts4: seq<string>, hosts6: seq<string>, all: bool,
                   filter: InterceptFilter, a: Applied)
    requires a in DnsUdp(uids, gids, hosts4, hosts6, all, filter)
    ensures AppliedFits(a)
  {
    if a in FlatMap(uids, DnsUidReturn()) {
      OwnerReturnsFit(uids, true, a);
    } else if a in FlatMap(gids, DnsGidReturn()) {
      OwnerReturnsFit(gids, false, a);
    } else if a in DnsGroupReturns(filter) {
      GroupReturnsFit(filter, a);
    } else if a in DnsRedirects(hosts4, hosts6, all) {
      RedirectsFit(hosts4, hosts6, all, a);
    } else {
      ZonesFit(uids, gids, hosts4, hosts6, all, a);
    }
  }

  lemma AppliedCallFits(cfg: Config, fam: Family, a: Applied, c: Call)
    requires AppliedFits(a) && c in AppendOne(fam)(a)
    ensures Fits(cfg, UdpDns, c)
  {
  }

  lemma UdpDnsFits(cfg: Config, fam: Family, hosts4: seq<string>, hosts6: seq<string>, c: Call)
    requires c in DnsUdpCalls(cfg, fam, hosts4, hosts6)
    ensures Fits(cfg, UdpDns, c)
  {
    var uids, gids, filter := cfg.Uids(), cfg.Gids(), cfg.Filter();
    var a := AppliedOf(uids, gids, hosts4, hosts6, cfg.captureAllDNS, filter, fam, c);
    AppliedCallFits(cfg, fam, a, c);
  }

  lemma AppliedOf(uids: seq<string>, gids: seq<string>, hosts4: seq<string>, hosts6: seq<string>, all: bool,
                  filter: InterceptFilter, fam: Family, c: Call) returns (a: Applied)
    requires c in FlatMap(DnsUdp(uids, gids, hosts4, hosts6, all, filter), AppendOne(fam))
    ensures AppliedFits(a) && c in AppendOne(fam)(a)
  {
    var applied := DnsUdp(uids, gids, hosts4, hosts6, all, filter);
    FlatMapMember(applied, AppendOne(fam), c);
    a :| a in applied && c in AppendOne(fam)(a);
    DnsUdpFits(uids, gids, hosts4, hosts6, all, filter, a);
  }

  // TPROXY.

  lemma MarkOwnersGood(owners: seq<string>, fam: Family, uid: bool, r: Rule)
    requires r in FlatMap(owners, if uid then MarkUid(fam) else MarkGid(fam))
    ensures Good(r) && !r.target.Jump?
  {
    FlatMapMember(owners, if uid then MarkUid(fam) else MarkGid(fam), r);
    var x :| x in owners && r in (if uid then MarkUid(fam) else MarkGid(fam))(x);
    MarkRuleGood(fam, SubMatch(Loopback(fam), if uid then UidOwner(x) else GidOwner(x)));
  }

  lemma MangleOutputGood(cfg: Config, fam: Family, r: Rule)
    requires r in TproxyOutputRules(cfg, fam)
    ensures Good(r) && !r.target.Jump?
  {
    if r in FlatMap(cfg.Uids(), MarkUid(fam)) {
      MarkOwnersGood(cfg.Uids(), fam, true, r);
    } else if r in FlatMap(cfg.Gids(), MarkGid(fam)) {
      MarkOwnersGood(cfg.Gids(), fam, false, r);
    } else {
      FixedRulesGood(cfg.inboundTProxyMark, "", "");
    }
  }

  lemma SaveMarkFits(cfg: Config)
    ensures Fits(cfg, TproxyMarks, AppendCall(UNDEFINED_COMMAND, PREROUTING, MANGLE, SaveMarkRule(cfg.inboundTProxyMark)))
  {
    FixedRulesGood(cfg.inboundTProxyMark, "", "");
  }

  lemma MangleOutputFits(cfg: Config, rules: seq<Rule>, c: Call)
    requires c in Calls(UNDEFINED_COMMAND, OUTPUT, MANGLE, rules)
    requires forall r :: r in rules ==> Good(r) && !r.target.Jump?
    ensures Fits(cfg, TproxyMarks, c)
  {
    CallsMember(UNDEFINED_COMMAND, OUTPUT, MANGLE, rules, c);
  }

  lemma MarksFit(cfg: Config, fam: Family, c: Call)
    requires c in TproxyAppends(cfg, fam)
    ensures Fits(cfg, TproxyMarks, c)
  {
    var rules := TproxyOutputRules(cfg, fam);
    SaveMarkFits(cfg);
    if c in Calls(UNDEFINED_COMMAND, OUTPUT, MANGLE, rules) {
      forall r | r in rules ensures Good(r) && !r.target.Jump? {
        MangleOutputGood(cfg, fam, r);
      }
      MangleOutputFits(cfg, rules, c);
    }
  }

  lemma ReturnsFit(cfg: Config, fam: Family, c: Call)
    requires c in TproxyInserts(cfg, fam)
    ensures Fits(cfg, TproxyReturns, c)
  {
    FixedRulesGood(cfg.inboundTProxyMark, "", PassthroughSource(fam));
  }

  lemma PhaseFits(s: Setup, fam: Family, phase: Phase, c: Call)
    requires c in PhaseCalls(s, fam, phase)
    ensures Fits(s.cfg, phase, c)
  {
    match phase
    case OutputJump => TcpRuleGood(Jump(ISTIO_OUTPUT));
    case OutputChain => OutputChainFits(s, fam, c);
    case IncludedRanges => IncludeFits(s.cfg, s.Included(fam), c);
    case UdpDns => UdpDnsFits(s.cfg, fam, s.hosts4, s.hosts6, c);
    case TproxyMarks => MarksFit(s.cfg, fam, c);
    case TproxyReturns => ReturnsFit(s.cfg, fam, c);
    case _ => InboundPhaseFits(s, fam, phase, c);
  }

  lemma InboundPhaseFits(s: Setup, fam: Family, phase: Phase, c: Call)
    requires phase in {ExcludedInterfaces, KubeReturns, InvalidDrops, BaseChains, InboundPorts}
    requires c in PhaseCalls(s, fam, phase)
    ensures Fits(s.cfg, phase, c)
  {
    match phase
    case ExcludedInterfaces => InterfacesFit(s.cfg, c);
    case KubeReturns => KubeReturnsFit(s.cfg, c);
    case InvalidDrops => PlainRuleGood(c.rule.conds, Drop);
    case BaseChains => BaseFits(s.cfg, c);
    case InboundPorts => InboundFits(s.cfg, fam, c);
  }
}
