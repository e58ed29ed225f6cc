/** The rules of a run are made of fixed words and configured values: what holds of these holds of every value. */
module RunValues {
  import opened Sequences
  import opened Netfilter
  import opened Builder
  import opened Capture
  import opened RunFacts
  import opened NeverFails
  import Text

  // ---------------------------------------------------------------- values

  /** What holds of every fixed word. */
  predicate FixedWords(known: string -> bool, fam: Family) {
    && known("tcp") && known("udp") && known("lo") && known("53") && known(DNS_PORT)
    && known(ESTABLISHED) && known("INVALID") && known(OUTBOUND_MARK) && known("1") && known("2")
    && known("--to-ports") && known("--to-port")
    && known(Loopback(fam)) && known(PassthroughSource(fam))
    && forall chain :: chain in ISTIO_CHAINS ==> known(chain)
  }

  predicate Each(known: string -> bool, xs: seq<string>) {
    forall x :: x in xs ==> known(x)
  }

  /** What holds of every element of the lists a run for one family reads. */
  predicate Lists(known: string -> bool, s: Setup, fam: Family) {
    && Each(known, s.cfg.Uids()) && Each(known, s.cfg.Gids()) && Each(known, s.cfg.Filter().values)
    && Each(known, Text.Fields(s.cfg.inboundPortsInclude)) && Each(known, Text.Fields(s.cfg.inboundPortsExclude))
    && Each(known, Text.Fields(s.cfg.outboundPortsInclude)) && Each(known, Text.Fields(s.cfg.outboundPortsExclude))
    && Each(known, Text.Fields(s.cfg.excludeInterfaces)) && Each(known, Text.Fields(s.cfg.kubeVirtInterfaces))
    && Each(known, s.Excluded(fam).ipNets) && Each(known, s.Included(fam).ipNets)
    && (s.cfg.redirectDNS ==> Each(known, s.hosts4) && Each(known, s.hosts6))
  }

  /** And of the ports, and of the mark in TPROXY mode. */
  predicate Settings(known: string -> bool, cfg: Config) {
    && known(cfg.proxyPort) && known(cfg.inboundCapturePort) && known(cfg.inboundTunnelPort)
    && (cfg.UsesTproxy() ==> known(cfg.inboundTProxyMark) && known(cfg.inboundTProxyMark + "/0xffffffff"))
  }

  predicate Basis(known: string -> bool, s: Setup, fam: Family) {
    FixedWords(known, fam) && Lists(known, s, fam) && Settings(known, s.cfg)
  }

  const COMMANDS := {UNDEFINED_COMMAND, JUMP_INBOUND, JUMP_OUTBOUND, EXCLUDE_INBOUND_PORT, INCLUDE_INBOUND_PORT,
                     INBOUND_CAPTURE, KUBEVIRT, EXCLUDE_INTERFACE}

  /** It holds of every value of the rule. */
  predicate MadeOf(known: string -> bool, r: Rule) {
    && (forall x :: x in r.conds ==> known(x.test.value))
    && (forall v :: v in TargetValues(r.target) ==> known(v))
  }

  predicate MadeCall(known: string -> bool, c: Call) {
    MadeOf(known, c.rule) && c.command in COMMANDS
  }

  // ---------------------------------------------------------------- the rules one by one

  /** A TCP rule, with a port or without. */
  lemma TcpMade(known: string -> bool, s: Setup, fam: Family, port: string, t: Target)
    requires Basis(known, s, fam)
    requires forall v :: v in TargetValues(t) ==> known(v)
    ensures MadeOf(known, TcpRule(t)) && (known(port) ==> MadeOf(known, TcpPortRule(port, t)))
  {
  }

  lemma PortsMade(known: string -> bool, s: Setup, fam: Family, ports: seq<string>, t: Target, r: Rule)
    requires Basis(known, s, fam)
    requires (forall v :: v in TargetValues(t) ==> known(v)) && Each(known, ports)
    requires r in FlatMap(ports, TcpPorts(t))
    ensures MadeOf(known, r)
  {
    PortMember(ports, t, r);
    var port :| port in ports && r == TcpPortRule(port, t);
    TcpMade(known, s, fam, port, t);
  }

  lemma RangesMade(known: string -> bool, s: Setup, fam: Family, ranges: seq<string>, r: Rule)
    requires Basis(known, s, fam)
    requires Each(known, ranges) && r in FlatMap(ranges, Ranges(Return))
    ensures MadeOf(known, r)
  {
    RangeMember(ranges, Return, r);
  }

  lemma InterfacesMade(known: string -> bool, s: Setup, fam: Family, c: Call)
    requires Basis(known, s, fam)
    requires c in ExcludeInterfaceCalls(s.cfg)
    ensures MadeCall(known, c)
  {
    var xs := Text.Fields(s.cfg.excludeInterfaces);
    if c in FlatMap(xs, InterfaceReturns(NAT)) {
      FlatMapMember(xs, InterfaceReturns(NAT), c);
    } else {
      FlatMapMember(xs, InterfaceReturns(MANGLE), c);
    }
  }

  lemma KubeMade(known: string -> bool, s: Setup, fam: Family, t: Target, c: Call)
    requires Basis(known, s, fam)
    requires (forall v :: v in TargetValues(t) ==> known(v)) && c in FlatMap(Text.Fields(s.cfg.kubeVirtInterfaces), KubeTraffic(t))
    ensures MadeCall(known, c)
  {
    FlatMapMember(Text.Fields(s.cfg.kubeVirtInterfaces), KubeTraffic(t), c);
  }

  lemma DropMade(known: string -> bool, s: Setup, fam: Family, c: Call)
    requires Basis(known, s, fam)
    requires c in DropInvalidCalls(s.cfg)
    ensures MadeCall(known, c)
  {
  }

  lemma BaseMade(known: string -> bool, s: Setup, fam: Family, c: Call)
    requires Basis(known, s, fam)
    requires c in BaseCalls(s.cfg)
    ensures MadeCall(known, c)
  {
    TcpMade(known, s, fam, s.cfg.inboundTunnelPort, Return);
    TcpMade(known, s, fam, "", Redirect("--to-ports", s.cfg.proxyPort));
    TcpMade(known, s, fam, "", Redirect("--to-ports", s.cfg.inboundCapturePort));
  }

  lemma AcceptMade(known: string -> bool, s: Setup, fam: Family, r: Rule)
    requires Basis(known, s, fam)
    requires s.cfg.UsesTproxy() && r in AcceptMarkRules(s.cfg)
    ensures MadeOf(known, r)
  {
  }

  lemma TproxyMade(known: string -> bool, s: Setup, fam: Family)
    requires Basis(known, s, fam)
    requires s.cfg.UsesTproxy()
    ensures MadeOf(known, TproxyRule(s.cfg, fam))
  {
  }

  lemma DivertMade(known: string -> bool, s: Setup, fam: Family, c: Call)
    requires Basis(known, s, fam)
    requires s.cfg.UsesTproxy() && c in DivertCalls(s.cfg, fam)
    ensures MadeCall(known, c)
  {
    if c in Calls(UNDEFINED_COMMAND, ISTIO_DIVERT, MANGLE, AcceptMarkRules(s.cfg)) {
      CallsMember(UNDEFINED_COMMAND, ISTIO_DIVERT, MANGLE, AcceptMarkRules(s.cfg), c);
      AcceptMade(known, s, fam, c.rule);
    } else {
      CallsMember(UNDEFINED_COMMAND, ISTIO_TPROXY, MANGLE, [TproxyRule(s.cfg, fam)], c);
      TproxyMade(known, s, fam);
    }
  }

  lemma TproxyPortsMade(known: string -> bool, s: Setup, fam: Family, ports: seq<string>, r: Rule)
    requires Basis(known, s, fam)
    requires Each(known, ports) && r in FlatMap(ports, TproxyPorts())
    ensures MadeOf(known, r)
  {
    FlatMapMember(ports, TproxyPorts(), r);
    var port :| port in ports && r in TproxyPorts()(port);
    EstablishedMade(known, s, fam, port);
  }

  lemma EstablishedMade(known: string -> bool, s: Setup, fam: Family, port: string)
    requires Basis(known, s, fam)
    ensures MadeOf(known, EstablishedRule()) && MadeOf(known, TcpRule(Jump(ISTIO_TPROXY)))
    ensures known(port) ==> MadeOf(known, EstablishedPortRule(port)) && MadeOf(known, TcpPortRule(port, Jump(ISTIO_TPROXY)))
  {
  }

  lemma RestMade(known: string -> bool, s: Setup, fam: Family, r: Rule)
    requires Basis(known, s, fam)
    requires r in RestRules(s.cfg)
    ensures MadeOf(known, r)
  {
    EstablishedMade(known, s, fam, "");
    TcpMade(known, s, fam, "", Jump(ISTIO_IN_REDIRECT));
  }

  lemma InboundPortsMade(known: string -> bool, s: Setup, fam: Family, c: Call)
    requires Basis(known, s, fam)
    requires c in InboundPortCalls(s.cfg)
    ensures MadeCall(known, c)
  {
    var table := InboundTable(s.cfg);
    if s.cfg.inboundPortsInclude == "*" {
      var ports := Text.Fields(s.cfg.inboundPortsExclude);
      if c in Calls(UNDEFINED_COMMAND, ISTIO_INBOUND, table, RestRules(s.cfg)) {
        CallsMember(UNDEFINED_COMMAND, ISTIO_INBOUND, table, RestRules(s.cfg), c);
        RestMade(known, s, fam, c.rule);
      } else {
        CallsMember(EXCLUDE_INBOUND_PORT, ISTIO_INBOUND, table, FlatMap(ports, TcpPorts(Return)), c);
        PortsMade(known, s, fam, ports, Return, c.rule);
      }
    } else {
      IncludedPortsMade(known, s, fam, c);
    }
  }

  lemma IncludedPortsMade(known: string -> bool, s: Setup, fam: Family, c: Call)
    requires Basis(known, s, fam)
    requires s.cfg.inboundPortsInclude != "*" && c in InboundPortCalls(s.cfg)
    ensures MadeCall(known, c)
  {
    var ports, table := Text.Fields(s.cfg.inboundPortsInclude), InboundTable(s.cfg);
    var f := if s.cfg.UsesTproxy() then TproxyPorts() else TcpPorts(Jump(ISTIO_IN_REDIRECT));
    CallsMember(INCLUDE_INBOUND_PORT, ISTIO_INBOUND, table, FlatMap(ports, f), c);
    if s.cfg.UsesTproxy() {
      TproxyPortsMade(known, s, fam, ports, c.rule);
    } else {
      PortsMade(known, s, fam, ports, Jump(ISTIO_IN_REDIRECT), c.rule);
    }
  }

  lemma InboundMade(known: string -> bool, s: Setup, fam: Family, c: Call)
    requires Basis(known, s, fam)
    requires c in InboundCalls(s.cfg, fam)
    ensures MadeCall(known, c)
  {
    var jump := AppendCall(JUMP_INBOUND, PREROUTING, InboundTable(s.cfg), TcpRule(Jump(ISTIO_INBOUND)));
    InThree(if s.cfg.UsesTproxy() then DivertCalls(s.cfg, fam) else [], jump, InboundPortCalls(s.cfg), c);
    if c in InboundPortCalls(s.cfg) {
      InboundPortsMade(known, s, fam, c);
    } else if c == jump {
      TcpMade(known, s, fam, "", Jump(ISTIO_INBOUND));
    } else {
      DivertMade(known, s, fam, c);
    }
  }

  lemma OutputJumpMade(known: string -> bool, s: Setup, fam: Family)
    requires Basis(known, s, fam)
    ensures MadeCall(known, AppendCall(JUMP_OUTBOUND, OUTPUT, NAT, TcpRule(Jump(ISTIO_OUTPUT))))
  {
    TcpMade(known, s, fam, "", Jump(ISTIO_OUTPUT));
  }

  // The outbound chain.

  lemma SubKnown(known: string -> bool, s: Setup, fam: Family, owner: Match)
    requires Basis(known, s, fam)
    requires known(owner.value)
    ensures known(SubMatch(Loopback(fam), owner).value)
  {
  }

  lemma ProxyRulesMade(known: string -> bool, s: Setup, fam: Family, backDns: bool, owner: Match, r: Rule)
    requires Basis(known, s, fam)
    requires (owner.UidOwner? || owner.GidOwner?) && known(owner.value)
    requires r in ProxyRules(backDns, s.cfg.redirectDNS, s.skipLoopback, fam, owner)
    ensures MadeOf(known, r)
  {
    SubKnown(known, s, fam, owner);
    BackToSelfMade(known, s, fam, backDns, SubMatch(Loopback(fam), owner));
    LoopbackReturnMade(known, s, fam, s.cfg.redirectDNS, owner);
  }

  lemma BackToSelfMade(known: string -> bool, s: Setup, fam: Family, dns: bool, owner: Match)
    requires Basis(known, s, fam)
    requires known(owner.value)
    ensures MadeOf(known, BackToSelfRule(dns, fam, owner))
  {
  }

  lemma LoopbackReturnMade(known: string -> bool, s: Setup, fam: Family, dns: bool, owner: Match)
    requires Basis(known, s, fam)
    requires known(owner.value)
    ensures MadeOf(known, LoopbackReturnRule(dns, owner)) && MadeOf(known, OwnerReturnRule(owner))
  {
  }

  lemma OwnersMade(known: string -> bool, s: Setup, fam: Family, names: seq<string>, uid: bool, r: Rule)
    requires Basis(known, s, fam)
    requires Each(known, names)
    requires r in FlatMap(names, if uid then UidRules(s.cfg.redirectDNS, s.skipLoopback, fam) else GidRules(s.cfg.redirectDNS, s.skipLoopback, fam))
    ensures MadeOf(known, r)
  {
    var f := if uid then UidRules(s.cfg.redirectDNS, s.skipLoopback, fam) else GidRules(s.cfg.redirectDNS, s.skipLoopback, fam);
    FlatMapMember(names, f, r);
    var n :| n in names && r in f(n);
    ProxyRulesMade(known, s, fam, uid && s.cfg.redirectDNS, if uid then UidOwner(n) else GidOwner(n), r);
  }

  lemma NoneOfMade(known: string -> bool, s: Setup, fam: Family, groups: seq<string>)
    requires Basis(known, s, fam)
    requires Each(known, groups)
    ensures forall x :: x in NoneOf(groups) ==> known(x.test.value)
  {
    forall x | x in NoneOf(groups) ensures known(x.test.value) {
      FlatMapMember(groups, NotGroup(), x);
    }
  }

  lemma GroupRulesMade(known: string -> bool, s: Setup, fam: Family, r: Rule)
    requires Basis(known, s, fam)
    requires r in OwnerGroupRules(s.cfg.Filter())
    ensures MadeOf(known, r)
  {
    var filter := s.cfg.Filter();
    if filter.except {
      FlatMapMember(filter.values, OwnerReturns(), r);
    } else {
      NoneOfMade(known, s, fam, filter.values);
    }
  }

  lemma TcpDnsMade(known: string -> bool, s: Setup, fam: Family, r: Rule)
    requires Basis(known, s, fam)
    requires r in TcpDnsRules(s.cfg, s.Hosts(fam))
    ensures MadeOf(known, r)
  {
    if s.cfg.captureAllDNS {
      TcpMade(known, s, fam, "53", TcpDnsRedirect());
    } else {
      FlatMapMember(s.Hosts(fam), TcpDnsTo(), r);
    }
  }

  lemma SegmentMade(known: string -> bool, s: Setup, fam: Family, segment: Segment, r: Rule)
    requires Basis(known, s, fam)
    requires r in SegmentRules(s, fam, segment)
    ensures MadeOf(known, r)
  {
    match segment
    case ExcludedPorts => PortsMade(known, s, fam, Text.Fields(s.cfg.outboundPortsExclude), Return, r);
    case Passthrough =>
    case ProxyUsers => OwnersMade(known, s, fam, s.cfg.Uids(), true, r);
    case ProxyGroups => OwnersMade(known, s, fam, s.cfg.Gids(), false, r);
    case OwnerGroups => GroupRulesMade(known, s, fam, r);
    case TcpDns => TcpDnsMade(known, s, fam, r);
    case ToLoopback =>
    case ExcludedRanges => RangesMade(known, s, fam, s.Excluded(fam).ipNets, r);
    case IncludedPorts =>
      PortsMade(known, s, fam, Text.Fields(s.cfg.outboundPortsInclude), Jump(ISTIO_REDIRECT), r);
  }

  lemma OutputMade(known: string -> bool, s: Setup, fam: Family, c: Call)
    requires Basis(known, s, fam)
    requires c in Calls(UNDEFINED_COMMAND, ISTIO_OUTPUT, NAT, OutputRules(s, fam))
    ensures MadeCall(known, c)
  {
    CallsMember(UNDEFINED_COMMAND, ISTIO_OUTPUT, NAT, OutputRules(s, fam), c);
    var segment := SegmentOf(s, fam, c.rule);
    SegmentMade(known, s, fam, segment, c.rule);
  }

  lemma IncludedRangeOf(known: string -> bool, kubes: seq<string>, cidr: string, c: Call)
    requires Each(known, kubes) && known(cidr) && known(ISTIO_REDIRECT)
    requires c in IncludedRange(kubes)(cidr)
    ensures MadeOf(known, c.rule) && c.command in {UNDEFINED_COMMAND, KUBEVIRT}
  {
    if c in FlatMap(kubes, KubeTrafficTo(cidr)) {
      FlatMapMember(kubes, KubeTrafficTo(cidr), c);
    }
  }

  lemma IncludedNetsOf(known: string -> bool, kubes: seq<string>, nets: seq<string>, c: Call)
    requires Each(known, kubes) && Each(known, nets) && known(ISTIO_REDIRECT)
    requires c in FlatMap(nets, IncludedRange(kubes))
    ensures MadeOf(known, c.rule) && c.command in {UNDEFINED_COMMAND, KUBEVIRT}
  {
    FlatMapMember(nets, IncludedRange(kubes), c);
    var cidr :| cidr in nets && c in IncludedRange(kubes)(cidr);
    IncludedRangeOf(known, kubes, cidr, c);
  }

  /** A call for the included ranges: without tests, or of an interface, or of a range. */
  predicate IncludeShaped(kubes: seq<string>, nets: seq<string>, c: Call) {
    || (c.command == UNDEFINED_COMMAND && c.rule.conds == [] && c.rule.target in {Return, Jump(ISTIO_REDIRECT)})
    || c in FlatMap(kubes, KubeTraffic(Jump(ISTIO_REDIRECT)))
    || c in FlatMap(nets, IncludedRange(kubes))
  }

  lemma IncludeShapes(cfg: Config, range: NetworkRange, c: Call)
    requires c in IncludeCalls(cfg, range)
    ensures IncludeShaped(Text.Fields(cfg.kubeVirtInterfaces), range.ipNets, c)
  {
  }

  lemma IncludeOf(known: string -> bool, kubes: seq<string>, nets: seq<string>, c: Call)
    requires Each(known, kubes) && Each(known, nets) && known(ISTIO_REDIRECT) && IncludeShaped(kubes, nets, c)
    ensures MadeOf(known, c.rule) && c.command in {UNDEFINED_COMMAND, KUBEVIRT}
  {
    if c in FlatMap(nets, IncludedRange(kubes)) {
      IncludedNetsOf(known, kubes, nets, c);
    } else if c in FlatMap(kubes, KubeTraffic(Jump(ISTIO_REDIRECT))) {
      FlatMapMember(kubes, KubeTraffic(Jump(ISTIO_REDIRECT)), c);
    }
  }

  lemma IncludeMade(known: string -> bool, s: Setup, fam: Family, c: Call)
    requires Basis(known, s, fam)
    requires c in IncludeCalls(s.cfg, s.Included(fam))
    ensures MadeCall(known, c)
  {
    IncludeShapes(s.cfg, s.Included(fam), c);
    IncludeOf(known, Text.Fields(s.cfg.kubeVirtInterfaces), s.Included(fam).ipNets, c);
  }

  // UDP DNS.

  lemma UdpMade(known: string -> bool, s: Setup, fam: Family, port: Match, conds: seq<Cond>, t: Target)
    requires Basis(known, s, fam)
    requires known(port.value) && (forall x :: x in conds ==> known(x.test.value))
    requires t == Return || t == DnsRedirect() || t == Zone("1") || t == Zone("2")
    ensures MadeOf(known, UdpRule(port, conds, t))
  {
    var head := [Is(Protocol("udp")), Is(port)];
    assert forall x :: x in UdpRule(port, conds, t).conds ==> x in head || x in conds;
  }

  lemma UdpOwner(names: seq<string>, uid: bool, a: Applied) returns (owner: Match)
    requires a in FlatMap(names, if uid then DnsUidReturn() else DnsGidReturn())
    ensures owner.value in names && a.rule == UdpTo("53", [Is(owner)], Return)
  {
    if uid {
      FlatMapMember(names, DnsUidReturn(), a);
      var n :| n in names && a in DnsUidReturn()(n);
      owner := UidOwner(n);
    } else {
      FlatMapMember(names, DnsGidReturn(), a);
      var n :| n in names && a in DnsGidReturn()(n);
      owner := GidOwner(n);
    }
  }

  lemma UdpOwnersMade(known: string -> bool, s: Setup, fam: Family, names: seq<string>, uid: bool, a: Applied)
    requires Basis(known, s, fam)
    requires Each(known, names) && a in FlatMap(names, if uid then DnsUidReturn() else DnsGidReturn())
    ensures MadeOf(known, a.rule)
  {
    var owner := UdpOwner(names, uid, a);
    UdpMade(known, s, fam, DestPort("53"), [Is(owner)], Return);
  }

  lemma UdpGroupsMade(known: string -> bool, s: Setup, fam: Family, a: Applied)
    requires Basis(known, s, fam)
    requires a in DnsGroupReturns(s.cfg.Filter())
    ensures MadeOf(known, a.rule)
  {
    var filter := s.cfg.Filter();
    if filter.except {
      UdpOwnersMade(known, s, fam, filter.values, false, a);
    } else {
      NoneOfMade(known, s, fam, filter.values);
      UdpMade(known, s, fam, DestPort("53"), NoneOf(filter.values), Return);
    }
  }

  lemma UdpRedirectsMade(known: string -> bool, s: Setup, fam: Family, a: Applied)
    requires Basis(known, s, fam)
    requires s.cfg.redirectDNS && a in DnsRedirects(s.hosts4, s.hosts6, s.cfg.captureAllDNS)
    ensures MadeOf(known, a.rule)
  {
    if s.cfg.captureAllDNS {
      UdpMade(known, s, fam, DestPort("53"), [], DnsRedirect());
    } else if a in FlatMap(s.hosts4, DnsServerRedirect(V4)) {
      UdpServersMade(known, s, fam, s.hosts4, V4, a);
    } else {
      UdpServersMade(known, s, fam, s.hosts6, V6, a);
    }
  }

  lemma UdpServersMade(known: string -> bool, s: Setup, fam: Family, hosts: seq<string>, of: Family, a: Applied)
    requires Basis(known, s, fam)
    requires Each(known, hosts) && a in FlatMap(hosts, DnsServerRedirect(of))
    ensures MadeOf(known, a.rule)
  {
    FlatMapMember(hosts, DnsServerRedirect(of), a);
    var h :| h in hosts && a in DnsServerRedirect(of)(h);
    UdpMade(known, s, fam, DestPort("53"), [Is(Destination(h))], DnsRedirect());
  }

  lemma OwnerZonesMade(known: string -> bool, s: Setup, fam: Family, owner: Match, a: Applied)
    requires Basis(known, s, fam)
    requires known(owner.value) && a in ZoneOfOwner(owner)
    ensures MadeOf(known, a.rule)
  {
    if a in Both(OUTPUT, RAW, UdpTo("53", [Is(owner)], Zone("1"))) {
      UdpMade(known, s, fam, DestPort("53"), [Is(owner)], Zone("1"));
    } else {
      UdpMade(known, s, fam, SourcePort(DNS_PORT), [Is(owner)], Zone("2"));
    }
  }

  lemma ServerZonesMade(known: string -> bool, s: Setup, fam: Family, hosts: seq<string>, of: Family, a: Applied)
    requires Basis(known, s, fam)
    requires Each(known, hosts) && a in FlatMap(hosts, ZoneOfServer(of))
    ensures MadeOf(known, a.rule)
  {
    FlatMapMember(hosts, ZoneOfServer(of), a);
    var h :| h in hosts && a in ZoneOfServer(of)(h);
    if a == ZoneOfServer(of)(h)[0] {
      UdpMade(known, s, fam, DestPort("53"), [Is(Destination(h))], Zone("2"));
    } else {
      UdpMade(known, s, fam, SourcePort("53"), [Is(Destination(h))], Zone("1"));
    }
  }

  lemma ZonesMade(known: string -> bool, s: Setup, fam: Family, uids: seq<string>, gids: seq<string>, a: Applied)
    requires Basis(known, s, fam)
    requires s.cfg.redirectDNS && uids == s.cfg.Uids() && gids == s.cfg.Gids()
    requires a in ConntrackZones(uids, gids, s.hosts4, s.hosts6, s.cfg.captureAllDNS)
    ensures MadeOf(known, a.rule)
  {
    if a in FlatMap(uids, ZoneOfUid()) {
      FlatMapMember(uids, ZoneOfUid(), a);
      var x :| x in uids && a in ZoneOfUid()(x);
      OwnerZonesMade(known, s, fam, UidOwner(x), a);
    } else if a in FlatMap(gids, ZoneOfGid()) {
      FlatMapMember(gids, ZoneOfGid(), a);
      var x :| x in gids && a in ZoneOfGid()(x);
      OwnerZonesMade(known, s, fam, GidOwner(x), a);
    } else {
      ServersZonesMade(known, s, fam, a);
    }
  }

  lemma ServersZonesMade(known: string -> bool, s: Setup, fam: Family, a: Applied)
    requires Basis(known, s, fam)
    requires s.cfg.redirectDNS && a in ZonesOfServers(s.hosts4, s.hosts6, s.cfg.captureAllDNS)
    ensures MadeOf(known, a.rule)
  {
    if s.cfg.captureAllDNS {
      UdpMade(known, s, fam, DestPort("53"), [], Zone("2"));
      UdpMade(known, s, fam, SourcePort("53"), [], Zone("1"));
    } else if a in FlatMap(s.hosts4, ZoneOfServer(V4)) {
      ServerZonesMade(known, s, fam, s.hosts4, V4, a);
    } else {
      ServerZonesMade(known, s, fam, s.hosts6, V6, a);
    }
  }

  lemma UdpDnsMade(known: string -> bool, s: Setup, fam: Family, uids: seq<string>, gids: seq<string>, filter: InterceptFilter, a: Applied)
    requires Basis(known, s, fam)
    requires s.cfg.redirectDNS && uids == s.cfg.Uids() && gids == s.cfg.Gids() && filter == s.cfg.Filter()
    requires a in DnsUdp(uids, gids, s.hosts4, s.hosts6, s.cfg.captureAllDNS, filter)
    ensures MadeOf(known, a.rule)
  {
    if a in FlatMap(uids, DnsUidReturn()) {
      UdpOwnersMade(known, s, fam, uids, true, a);
    } else if a in FlatMap(gids, DnsGidReturn()) {
      UdpOwnersMade(known, s, fam, gids, false, a);
    } else if a in DnsGroupReturns(filter) {
      UdpGroupsMade(known, s, fam, a);
    } else if a in DnsRedirects(s.hosts4, s.hosts6, s.cfg.captureAllDNS) {
      UdpRedirectsMade(known, s, fam, a);
    } else {
      ZonesMade(known, s, fam, uids, gids, a);
    }
  }

  lemma AppendMade(known: string -> bool, s: Setup, fam: Family, applied: seq<Applied>, c: Call)
    requires Basis(known, s, fam)
    requires forall a :: a in applied ==> MadeOf(known, a.rule)
    requires c in FlatMap(applied, AppendOne(fam))
    ensures MadeCall(known, c)
  {
    FlatMapMember(applied, AppendOne(fam), c);
  }

  lemma UdpCallsMade(known: string -> bool, s: Setup, fam: Family, uids: seq<string>, gids: seq<string>, filter: InterceptFilter, c: Call)
    requires Basis(known, s, fam)
    requires s.cfg.redirectDNS && uids == s.cfg.Uids() && gids == s.cfg.Gids() && filter == s.cfg.Filter()
    requires c in FlatMap(DnsUdp(uids, gids, s.hosts4, s.hosts6, s.cfg.captureAllDNS, filter), AppendOne(fam))
    ensures MadeCall(known, c)
  {
    var applied := DnsUdp(uids, gids, s.hosts4, s.hosts6, s.cfg.captureAllDNS, filter);
    forall a | a in applied ensures MadeOf(known, a.rule) {
      UdpDnsMade(known, s, fam, uids, gids, filter, a);
    }
    AppendMade(known, s, fam, applied, c);
  }

  // TPROXY.

  lemma MarkedMade(known: string -> bool, s: Setup, fam: Family)
    requires Basis(known, s, fam)
    requires s.cfg.UsesTproxy()
    ensures var mark := s.cfg.inboundTProxyMark;
            && MadeOf(known, SaveMarkRule(mark)) && MadeOf(known, RestoreMarkRule(mark)) && MadeOf(known, MarkedLoopbackRule(mark))
            && MadeOf(known, MarkedInboundRule(mark))
  {
  }

  lemma LoopedMade(known: string -> bool, s: Setup, fam: Family)
    requires Basis(known, s, fam)
    ensures MadeOf(known, FromPassthroughRule(PassthroughSource(fam))) && MadeOf(known, UnmarkedLoopbackRule())
  {
  }

  lemma MarkMade(known: string -> bool, s: Setup, fam: Family, owner: Match)
    requires Basis(known, s, fam)
    requires known(owner.value)
    ensures MadeOf(known, MarkRule(fam, owner))
  {
  }

  lemma MarkOwner(names: seq<string>, fam: Family, uid: bool, r: Rule) returns (owner: Match)
    requires r in FlatMap(names, if uid then MarkUid(fam) else MarkGid(fam))
    ensures owner.value in names && r == MarkRule(fam, SubMatch(Loopback(fam), owner))
  {
    FlatMapMember(names, if uid then MarkUid(fam) else MarkGid(fam), r);
    var n :| n in names && r in (if uid then MarkUid(fam) else MarkGid(fam))(n);
    owner := if uid then UidOwner(n) else GidOwner(n);
  }

  lemma MarkOwnersMade(known: string -> bool, s: Setup, fam: Family, names: seq<string>, uid: bool, r: Rule)
    requires Basis(known, s, fam)
    requires Each(known, names) && r in FlatMap(names, if uid then MarkUid(fam) else MarkGid(fam))
    ensures MadeOf(known, r)
  {
    var owner := MarkOwner(names, fam, uid, r);
    SubKnown(known, s, fam, owner);
    MarkMade(known, s, fam, SubMatch(Loopback(fam), owner));
  }

  lemma MarkRulesMade(known: string -> bool, s: Setup, fam: Family, r: Rule)
    requires Basis(known, s, fam)
    requires s.cfg.UsesTproxy() && r in TproxyOutputRules(s.cfg, fam)
    ensures MadeOf(known, r)
  {
    if r in FlatMap(s.cfg.Uids(), MarkUid(fam)) {
      MarkOwnersMade(known, s, fam, s.cfg.Uids(), true, r);
    } else if r in FlatMap(s.cfg.Gids(), MarkGid(fam)) {
      MarkOwnersMade(known, s, fam, s.cfg.Gids(), false, r);
    } else {
      MarkedMade(known, s, fam);
    }
  }

  lemma MarkShapes(cfg: Config, fam: Family, c: Call)
    requires c in TproxyAppends(cfg, fam)
    ensures c.command == UNDEFINED_COMMAND && (c.rule == SaveMarkRule(cfg.inboundTProxyMark) || c.rule in TproxyOutputRules(cfg, fam))
  {
    var rules := TproxyOutputRules(cfg, fam);
    if c in Calls(UNDEFINED_COMMAND, OUTPUT, MANGLE, rules) {
      CallsMember(UNDEFINED_COMMAND, OUTPUT, MANGLE, rules, c);
    }
  }

  lemma MarksMade(known: string -> bool, s: Setup, fam: Family, c: Call)
    requires Basis(known, s, fam)
    requires s.cfg.UsesTproxy() && c in TproxyAppends(s.cfg, fam)
    ensures MadeCall(known, c)
  {
    MarkShapes(s.cfg, fam, c);
    MarkedMade(known, s, fam);
    if c.rule != SaveMarkRule(s.cfg.inboundTProxyMark) {
      MarkRulesMade(known, s, fam, c.rule);
    }
  }

  lemma ReturnsMade(known: string -> bool, s: Setup, fam: Family, c: Call)
    requires Basis(known, s, fam)
    requires s.cfg.UsesTproxy() && c in TproxyInserts(s.cfg, fam)
    ensures MadeCall(known, c)
  {
    MarkedMade(known, s, fam);
    LoopedMade(known, s, fam);
  }

  lemma PhaseMade(known: string -> bool, s: Setup, fam: Family, phase: Phase, c: Call)
    requires Basis(known, s, fam)
    requires c in PhaseCalls(s, fam, phase)
    ensures MadeCall(known, c)
  {
    match phase
    case ExcludedInterfaces => InterfacesMade(known, s, fam, c);
    case KubeReturns => KubeMade(known, s, fam, Return, c);
    case InvalidDrops => DropMade(known, s, fam, c);
    case BaseChains => BaseMade(known, s, fam, c);
    case InboundPorts => InboundMade(known, s, fam, c);
    case OutputJump => OutputJumpMade(known, s, fam);
    case OutputChain => OutputMade(known, s, fam, c);
    case IncludedRanges => IncludeMade(known, s, fam, c);
    case UdpDns => UdpCallsMade(known, s, fam, s.cfg.Uids(), s.cfg.Gids(), s.cfg.Filter(), c);
    case TproxyMarks => MarksMade(known, s, fam, c);
    case TproxyReturns => ReturnsMade(known, s, fam, c);
  }

  /** Every value a run writes into a rule is a fixed word or a configured one. */
  lemma RunMade(known: string -> bool, s: Setup, fam: Family, c: Call)
    requires Basis(known, s, fam)
    requires c in RunCalls(s, fam)
    ensures MadeCall(known, c)
  {
    RunMember(s, fam, c);
    var phase :| phase in Phases() && c in PhaseCalls(s, fam, phase) && Fits(s.cfg, phase, c);
    PhaseMade(known, s, fam, phase, c);
  }
}
