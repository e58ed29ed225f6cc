/**
 What the capture configurator records for a configuration: the builder calls of one address
 family, in the order they are made. The methods that make them are in Configurator.dfy.
 */
module Capture {
  import opened Optional
  import opened Sequences
  import opened Netfilter
  import opened Builder
  import Text

  const ISTIO_OUTPUT := "ISTIO_OUTPUT"
  const ISTIO_INBOUND := "ISTIO_INBOUND"
  const ISTIO_DIVERT := "ISTIO_DIVERT"
  const ISTIO_TPROXY := "ISTIO_TPROXY"
  const ISTIO_REDIRECT := "ISTIO_REDIRECT"
  const ISTIO_IN_REDIRECT := "ISTIO_IN_REDIRECT"

  const TPROXY_MODE := "TPROXY"
  const DNS_PORT := "15053"
  const ESTABLISHED := "RELATED,ESTABLISHED"
  const OUTBOUND_MARK := "1338"

  const JUMP_INBOUND := "JumpInbound"
  const JUMP_OUTBOUND := "JumpOutbound"
  const EXCLUDE_INBOUND_PORT := "ExcludeInboundPort"
  const INCLUDE_INBOUND_PORT := "IncludeInboundPort"
  const INBOUND_CAPTURE := "InboundCapture"
  const KUBEVIRT := "KubevirtCommand"
  const EXCLUDE_INTERFACE := "ExcludeInterfaceCommand"

  // ---------------------------------------------------------------- configuration

  datatype Config = Config(
    proxyPort: string, inboundCapturePort: string, inboundTunnelPort: string,
    proxyUID: string, proxyGID: string,
    inboundInterceptionMode: string, inboundTProxyMark: string,
    inboundPortsInclude: string, inboundPortsExclude: string,
    ownerGroupsInclude: string, ownerGroupsExclude: string,
    outboundPortsInclude: string, outboundPortsExclude: string,
    outboundIPRangesInclude: string, outboundIPRangesExclude: string,
    kubeVirtInterfaces: string, excludeInterfaces: string,
    redirectDNS: bool, dropInvalid: bool, captureAllDNS: bool,
    enableInboundIPv6: bool, traceLogging: bool,
    dnsServersV4: seq<string>, dnsServersV6: seq<string>)
  {
    predicate UsesTproxy() {
      inboundInterceptionMode == TPROXY_MODE
    }

    function Uids(): seq<string> { Text.Fields(proxyUID) }

    function Gids(): seq<string> { Text.Fields(proxyGID) }

    /** The DNS servers of one family, each written as a range of one address. */
    function Hosts(fam: Family): seq<string> {
      Suffixed(if fam.V4? then dnsServersV4 else dnsServersV6, HostSuffix(fam))
    }

    function Filter(): InterceptFilter { ParseInterceptFilter(ownerGroupsInclude, ownerGroupsExclude) }
  }

  datatype Family = V4 | V6

  /** The family's spelling of an address the source gives for both. */
  function Versioned(fam: Family, ipv4: string, ipv6: string): string {
    if fam.V4? then ipv4 else ipv6
  }

  function Loopback(fam: Family): string { Versioned(fam, "127.0.0.1/32", "::1/128") }

  function PassthroughSource(fam: Family): string { Versioned(fam, "127.0.0.6/32", "::6/128") }

  function HostSuffix(fam: Family): string { Versioned(fam, "/32", "/128") }

  function Suffixed(xs: seq<string>, suffix: string): (r: seq<string>)
    ensures |r| == |xs|
  {
    seq(|xs|, i requires 0 <= i < |xs| => xs[i] + suffix)
  }

  datatype InterceptFilter = InterceptFilter(values: seq<string>, except: bool)

  function ParseInterceptFilter(incl: string, excl: string): InterceptFilter {
    if incl == "*" then InterceptFilter(Text.Fields(excl), true)
    else InterceptFilter(Text.Fields(incl), false)
  }

  // ---------------------------------------------------------------- address ranges

  /** What net.ParseCIDR says of a range; the range is written back as `text`. */
  datatype Cidr = Cidr(isV4: bool, isLoopback: bool, text: string)

  type CidrParser = string -> Option<Cidr>

  datatype NetworkRange = NetworkRange(isWildcard: bool, ipNets: seq<string>, hasLoopBackIP: bool)

  function NetOf(parse: CidrParser, fam: Family): string -> seq<string> {
    (s: string) =>
      match parse(s)
      case Some(c) => if c.isV4 == fam.V4? then [c.text] else []
      case None => []
  }

  predicate HasLoopback(parse: CidrParser, fam: Family, ranges: seq<string>) {
    exists r :: r in ranges && parse(r).Some? && parse(r).value.isV4 == fam.V4? && parse(r).value.isLoopback
  }

  /** The ranges of one family; a range that cannot be read is ignored. */
  function RangesOf(parse: CidrParser, fam: Family, cidrList: string): NetworkRange {
    if cidrList == "*" then
      NetworkRange(true, [], false)
    else
      var ranges := Text.Fields(cidrList);
      NetworkRange(false, FlatMap(ranges, NetOf(parse, fam)), HasLoopback(parse, fam, ranges))
  }

  /** Loopback is captured too when an included range of either family starts at a loopback address. */
  predicate LoopbackIncluded(cfg: Config, parse: CidrParser) {
    RangesOf(parse, V4, cfg.outboundIPRangesInclude).hasLoopBackIP ||
    RangesOf(parse, V6, cfg.outboundIPRangesInclude).hasLoopBackIP
  }

  /** What a run depends on: the configuration and what it reads off its address lists. */
  datatype Setup = Setup(cfg: Config, skipLoopback: bool, hosts4: seq<string>, hosts6: seq<string>,
                         exclude4: NetworkRange, exclude6: NetworkRange, include4: NetworkRange, include6: NetworkRange)
  {
    function Hosts(fam: Family): seq<string> { if fam.V4? then hosts4 else hosts6 }

    function Excluded(fam: Family): NetworkRange { if fam.V4? then exclude4 else exclude6 }

    function Included(fam: Family): NetworkRange { if fam.V4? then include4 else include6 }
  }

  function SetupOf(cfg: Config, parse: CidrParser): Setup {
    Setup(cfg, !LoopbackIncluded(cfg, parse), cfg.Hosts(V4), cfg.Hosts(V6),
          RangesOf(parse, V4, cfg.outboundIPRangesExclude), RangesOf(parse, V6, cfg.outboundIPRangesExclude),
          RangesOf(parse, V4, cfg.outboundIPRangesInclude), RangesOf(parse, V6, cfg.outboundIPRangesInclude))
  }

  // ---------------------------------------------------------------- rules

  function ToCall(command: string, chain: string, table: string): Rule -> seq<Call> {
    (r: Rule) => [AppendCall(command, chain, table, r)]
  }

  /** Appends of one command to one chain. */
  function Calls(command: string, chain: string, table: string, rules: seq<Rule>): seq<Call> {
    FlatMap(rules, ToCall(command, chain, table))
  }

  lemma CallsConcat(command: string, chain: string, table: string, a: seq<Rule>, b: seq<Rule>)
    ensures Calls(command, chain, table, a + b) == Calls(command, chain, table, a) + Calls(command, chain, table, b)
  {
    FlatMapConcat(a, b, ToCall(command, chain, table));
  }

  lemma CallsPush(command: string, chain: string, table: string, a: seq<Rule>, r: Rule)
    ensures Calls(command, chain, table, a + [r]) ==
            Calls(command, chain, table, a) + [AppendCall(command, chain, table, r)]
  {
    FlatMapPush(a, ToCall(command, chain, table), r);
  }

  lemma CallsOne(command: string, chain: string, table: string, a: Rule)
    ensures Calls(command, chain, table, [a]) == [AppendCall(command, chain, table, a)]
  {
    CallsPush(command, chain, table, [], a);
    assert [] + [a] == [a];
  }

  lemma CallsTwo(command: string, chain: string, table: string, a: Rule, b: Rule)
    ensures Calls(command, chain, table, [a, b]) ==
            [AppendCall(command, chain, table, a), AppendCall(command, chain, table, b)]
  {
    CallsOne(command, chain, table, a);
    CallsPush(command, chain, table, [a], b);
    assert [a] + [b] == [a, b];
  }

  /** One round of a loop that appends the rules of each element of a list. */
  lemma CallsStep(prefix: seq<Call>, command: string, chain: string, table: string, xs: seq<string>, f: string -> seq<Rule>, i: nat)
    requires i < |xs|
    ensures prefix + Calls(command, chain, table, FlatMap(xs[..i], f)) + Calls(command, chain, table, f(xs[i])) ==
            prefix + Calls(command, chain, table, FlatMap(xs[..i + 1], f))
  {
    FlatMapStep(xs, f, i);
    CallsConcat(command, chain, table, FlatMap(xs[..i], f), f(xs[i]));
    Assoc(prefix, Calls(command, chain, table, FlatMap(xs[..i], f)), Calls(command, chain, table, f(xs[i])));
  }

  /** The same when each element has one rule. */
  lemma CallsStep1(prefix: seq<Call>, command: string, chain: string, table: string, xs: seq<string>, f: string -> seq<Rule>, i: nat, r: Rule)
    requires i < |xs| && f(xs[i]) == [r]
    ensures prefix + Calls(command, chain, table, FlatMap(xs[..i], f)) + [AppendCall(command, chain, table, r)] ==
            prefix + Calls(command, chain, table, FlatMap(xs[..i + 1], f))
  {
    CallsStep(prefix, command, chain, table, xs, f, i);
    CallsOne(command, chain, table, r);
  }

  /** One round of a loop that makes the calls of each element of a list. */
  lemma FlatMapRound<A, B>(prefix: seq<B>, xs: seq<A>, f: A -> seq<B>, i: nat)
    requires i < |xs|
    ensures prefix + FlatMap(xs[..i], f) + f(xs[i]) == prefix + FlatMap(xs[..i + 1], f)
  {
    FlatMapStep(xs, f, i);
    Assoc(prefix, FlatMap(xs[..i], f), f(xs[i]));
  }

  function Tcp(): Cond { Is(Protocol("tcp")) }

  function TcpRule(target: Target): Rule { Rule([Tcp()], target) }

  function TcpPortRule(port: string, target: Target): Rule { Rule([Tcp(), Is(DestPort(port))], target) }

  function TcpPorts(target: Target): string -> seq<Rule> {
    (port: string) => [TcpPortRule(port, target)]
  }

  function ToRange(cidr: string, target: Target): Rule { Rule([Is(Destination(cidr))], target) }

  function Ranges(target: Target): string -> seq<Rule> {
    (cidr: string) => [ToRange(cidr, target)]
  }

  function AcceptMarkRules(cfg: Config): seq<Rule> {
    [Rule([], SetMark(cfg.inboundTProxyMark)), Rule([], Accept)]
  }

  function TproxyRule(cfg: Config, fam: Family): Rule {
    Rule([Not(Destination(Loopback(fam))), Tcp()],
         Tproxy(Sub(Loopback(fam), cfg.inboundTProxyMark + "/0xffffffff"), Sub(Loopback(fam), cfg.inboundCapturePort)))
  }

  function EstablishedRule(): Rule {
    Rule([Tcp(), Is(CtState(ESTABLISHED))], Jump(ISTIO_DIVERT))
  }

  function EstablishedPortRule(port: string): Rule {
    Rule([Tcp(), Is(DestPort(port)), Is(CtState(ESTABLISHED))], Jump(ISTIO_DIVERT))
  }

  function TproxyPorts(): string -> seq<Rule> {
    (port: string) => [EstablishedPortRule(port), TcpPortRule(port, Jump(ISTIO_TPROXY))]
  }

  function InboundTable(cfg: Config): string {
    if cfg.UsesTproxy() then MANGLE else NAT
  }

  /** handleInboundPortsInclude */
  function InboundCalls(cfg: Config, fam: Family): seq<Call> {
    if cfg.inboundPortsInclude == "" then
      []
    else
      (if cfg.UsesTproxy() then DivertCalls(cfg, fam) else []) +
      [AppendCall(JUMP_INBOUND, PREROUTING, InboundTable(cfg), TcpRule(Jump(ISTIO_INBOUND)))] +
      InboundPortCalls(cfg)
  }

  function DivertCalls(cfg: Config, fam: Family): seq<Call> {
    Calls(UNDEFINED_COMMAND, ISTIO_DIVERT, MANGLE, AcceptMarkRules(cfg)) +
    Calls(UNDEFINED_COMMAND, ISTIO_TPROXY, MANGLE, [TproxyRule(cfg, fam)])
  }

  /** What follows the port exclusions when every port is included. */
  function RestRules(cfg: Config): seq<Rule> {
    if cfg.UsesTproxy() then [EstablishedRule(), TcpRule(Jump(ISTIO_TPROXY))]
    else [TcpRule(Jump(ISTIO_IN_REDIRECT))]
  }

  function InboundPortCalls(cfg: Config): seq<Call> {
    if cfg.inboundPortsInclude == "*" then
      Calls(EXCLUDE_INBOUND_PORT, ISTIO_INBOUND, InboundTable(cfg),
            FlatMap(Text.Fields(cfg.inboundPortsExclude), TcpPorts(Return))) +
      Calls(UNDEFINED_COMMAND, ISTIO_INBOUND, InboundTable(cfg), RestRules(cfg))
    else
      Calls(INCLUDE_INBOUND_PORT, ISTIO_INBOUND, InboundTable(cfg),
            FlatMap(Text.Fields(cfg.inboundPortsInclude),
                    if cfg.UsesTproxy() then TproxyPorts() else TcpPorts(Jump(ISTIO_IN_REDIRECT))))
  }

  /**
   The rules of one proxy user or group: calls back to self, loopback, then everything it sends.
   `backDns` exempts port 53 from the first of them, `dns` from the second.
   */
  function ProxyRules(backDns: bool, dns: bool, skipLoopback: bool, fam: Family, owner: Match): seq<Rule> {
    [BackToSelfRule(backDns, fam, SubMatch(Loopback(fam), owner))] +
    (if skipLoopback then [LoopbackReturnRule(dns, owner)] else []) +
    [OwnerReturnRule(owner)]
  }

  function UidRules(dns: bool, skipLoopback: bool, fam: Family): string -> seq<Rule> {
    (uid: string) => ProxyRules(dns, dns, skipLoopback, fam, UidOwner(uid))
  }

  /** Unlike a user's, a group's first rule never exempts port 53. */
  function GidRules(dns: bool, skipLoopback: bool, fam: Family): string -> seq<Rule> {
    (gid: string) => ProxyRules(false, dns, skipLoopback, fam, GidOwner(gid))
  }

  function BackToSelfRule(dns: bool, fam: Family, owner: Match): Rule {
    if dns then
      Rule([Is(OutInterface("lo")), Not(Destination(Loopback(fam))), Tcp(), Not(DestPort("53")), Is(owner)],
           Jump(ISTIO_IN_REDIRECT))
    else
      Rule([Is(OutInterface("lo")), Not(Destination(Loopback(fam))), Is(owner)], Jump(ISTIO_IN_REDIRECT))
  }

  function LoopbackReturnRule(dns: bool, owner: Match): Rule {
    if dns then Rule([Is(OutInterface("lo")), Tcp(), Not(DestPort("53")), Not(owner)], Return)
    else Rule([Is(OutInterface("lo")), Not(owner)], Return)
  }

  function OwnerReturnRule(owner: Match): Rule { Rule([Is(owner)], Return) }

  function OwnerReturns(): string -> seq<Rule> {
    (group: string) => [OwnerReturnRule(GidOwner(group))]
  }

  function NotGroup(): string -> seq<Cond> {
    (group: string) => [Not(GidOwner(group))]
  }

  /** The tests that hold when the owner's group is none of the values. */
  function NoneOf(groups: seq<string>): seq<Cond> {
    FlatMap(groups, NotGroup())
  }

  /** handleCaptureByOwnerGroup */
  function OwnerGroupRules(filter: InterceptFilter): seq<Rule> {
    if filter.except then FlatMap(filter.values, OwnerReturns())
    else [Rule(NoneOf(filter.values), Return)]
  }

  function TcpDnsRedirect(): Target { Redirect("--to-ports", DNS_PORT) }

  function TcpDnsRule(address: string): Rule {
    Rule([Tcp(), Is(DestPort("53")), Is(Destination(address))], TcpDnsRedirect())
  }

  function TcpDnsTo(): string -> seq<Rule> {
    (host: string) => [TcpDnsRule(host)]
  }

  function TcpDnsRules(cfg: Config, hosts: seq<string>): seq<Rule> {
    if !cfg.redirectDNS then []
    else if cfg.captureAllDNS then [TcpPortRule("53", TcpDnsRedirect())]
    else FlatMap(hosts, TcpDnsTo())
  }

  function PassthroughRule(fam: Family): Rule {
    Rule([Is(OutInterface("lo")), Is(Source(PassthroughSource(fam)))], Return)
  }

  /** The parts of the ISTIO_OUTPUT chain that come before the included ranges, in order. */
  datatype Segment =
    | ExcludedPorts | Passthrough | ProxyUsers | ProxyGroups | OwnerGroups
    | TcpDns | ToLoopback | ExcludedRanges | IncludedPorts

  function Segments(): seq<Segment> {
    [ExcludedPorts, Passthrough, ProxyUsers, ProxyGroups, OwnerGroups, TcpDns, ToLoopback, ExcludedRanges, IncludedPorts]
  }

  function SegmentRules(s: Setup, fam: Family, segment: Segment): seq<Rule> {
    match segment
    case ExcludedPorts => FlatMap(Text.Fields(s.cfg.outboundPortsExclude), TcpPorts(Return))
    case Passthrough => [PassthroughRule(fam)]
    case ProxyUsers => FlatMap(s.cfg.Uids(), UidRules(s.cfg.redirectDNS, s.skipLoopback, fam))
    case ProxyGroups => FlatMap(s.cfg.Gids(), GidRules(s.cfg.redirectDNS, s.skipLoopback, fam))
    case OwnerGroups => OwnerGroupRules(s.cfg.Filter())
    case TcpDns => TcpDnsRules(s.cfg, s.Hosts(fam))
    case ToLoopback => [ToRange(Loopback(fam), Return)]
    case ExcludedRanges => FlatMap(s.Excluded(fam).ipNets, Ranges(Return))
    case IncludedPorts => FlatMap(Text.Fields(s.cfg.outboundPortsInclude), TcpPorts(Jump(ISTIO_REDIRECT)))
  }

  function RulesOf(s: Setup, fam: Family): Segment -> seq<Rule> {
    (segment: Segment) => SegmentRules(s, fam, segment)
  }

  function OutputRules(s: Setup, fam: Family): seq<Rule> {
    FlatMap(Segments(), RulesOf(s, fam))
  }

  // ---------------------------------------------------------------- calls that also insert

  function InterfaceReturns(table: string): string -> seq<Call> {
    (i: string) =>
      [AppendCall(EXCLUDE_INTERFACE, PREROUTING, table, Rule([Is(InInterface(i))], Return)),
       AppendCall(EXCLUDE_INTERFACE, OUTPUT, table, Rule([Is(OutInterface(i))], Return))]
  }

  /** shortCircuitExcludeInterfaces */
  function ExcludeInterfaceCalls(cfg: Config): seq<Call> {
    FlatMap(Text.Fields(cfg.excludeInterfaces), InterfaceReturns(NAT)) +
    (if cfg.UsesTproxy() then FlatMap(Text.Fields(cfg.excludeInterfaces), InterfaceReturns(MANGLE)) else [])
  }

  function KubeInsert(conds: seq<Cond>, target: Target): Call {
    InsertCall(KUBEVIRT, PREROUTING, NAT, 1, Rule(conds, target))
  }

  function KubeTraffic(target: Target): string -> seq<Call> {
    (i: string) => [KubeInsert([Is(InInterface(i))], target)]
  }

  function KubeTrafficTo(cidr: string): string -> seq<Call> {
    (i: string) => [KubeInsert([Is(InInterface(i)), Is(Destination(cidr))], Jump(ISTIO_REDIRECT))]
  }

  function IncludedRange(kubes: seq<string>): string -> seq<Call> {
    (cidr: string) =>
      FlatMap(kubes, KubeTrafficTo(cidr)) +
      [AppendCall(UNDEFINED_COMMAND, ISTIO_OUTPUT, NAT, ToRange(cidr, Jump(ISTIO_REDIRECT)))]
  }

  /** handleOutboundIncludeRules */
  function IncludeCalls(cfg: Config, range: NetworkRange): seq<Call> {
    var kubes := Text.Fields(cfg.kubeVirtInterfaces);
    if range.isWildcard then
      [AppendCall(UNDEFINED_COMMAND, ISTIO_OUTPUT, NAT, Rule([], Jump(ISTIO_REDIRECT)))] +
      FlatMap(kubes, KubeTraffic(Jump(ISTIO_REDIRECT)))
    else if |range.ipNets| > 0 then
      FlatMap(range.ipNets, IncludedRange(kubes)) +
      [AppendCall(UNDEFINED_COMMAND, ISTIO_OUTPUT, NAT, Rule([], Return))]
    else
      []
  }

  // ---------------------------------------------------------------- UDP DNS, shared with the cleaner

  /** One rule the DNS helper applies, and the family it applies it for. */
  datatype Applied = Applied(fam: Family, chain: string, table: string, rule: Rule)

  function Both(chain: string, table: string, rule: Rule): seq<Applied> {
    [Applied(V4, chain, table, rule), Applied(V6, chain, table, rule)]
  }

  /** A rule for UDP packets with the given destination or source port. */
  function UdpRule(port: Match, conds: seq<Cond>, target: Target): Rule {
    Rule([Is(Protocol("udp")), Is(port)] + conds, target)
  }

  function UdpTo(port: string, conds: seq<Cond>, target: Target): Rule { UdpRule(DestPort(port), conds, target) }

  function UdpFrom(port: string, conds: seq<Cond>, target: Target): Rule { UdpRule(SourcePort(port), conds, target) }

  function DnsRedirect(): Target { Redirect("--to-port", DNS_PORT) }

  function DnsUidReturn(): string -> seq<Applied> {
    (uid: string) => Both(OUTPUT, NAT, UdpTo("53", [Is(UidOwner(uid))], Return))
  }

  function DnsGidReturn(): string -> seq<Applied> {
    (gid: string) => Both(OUTPUT, NAT, UdpTo("53", [Is(GidOwner(gid))], Return))
  }

  function DnsServerRedirect(fam: Family): string -> seq<Applied> {
    (host: string) => [Applied(fam, OUTPUT, NAT, UdpTo("53", [Is(Destination(host))], DnsRedirect()))]
  }

  function ZoneOfOwner(owner: Match): seq<Applied> {
    Both(OUTPUT, RAW, UdpTo("53", [Is(owner)], Zone("1"))) +
    Both(OUTPUT, RAW, UdpFrom(DNS_PORT, [Is(owner)], Zone("2")))
  }

  function ZoneOfUid(): string -> seq<Applied> {
    (uid: string) => ZoneOfOwner(UidOwner(uid))
  }

  function ZoneOfGid(): string -> seq<Applied> {
    (gid: string) => ZoneOfOwner(GidOwner(gid))
  }

  function ZoneOfServer(fam: Family): string -> seq<Applied> {
    (host: string) =>
      [Applied(fam, OUTPUT, RAW, UdpTo("53", [Is(Destination(host))], Zone("2"))),
       Applied(fam, PREROUTING, RAW, UdpFrom("53", [Is(Destination(host))], Zone("1")))]
  }

  function ZonesOfServers(hosts4: seq<string>, hosts6: seq<string>, all: bool): seq<Applied> {
    if all then
      Both(OUTPUT, RAW, UdpTo("53", [], Zone("2"))) +
      Both(PREROUTING, RAW, UdpFrom("53", [], Zone("1")))
    else
      FlatMap(hosts4, ZoneOfServer(V4)) + FlatMap(hosts6, ZoneOfServer(V6))
  }

  /** addConntrackZoneDNSUDP */
  function ConntrackZones(uids: seq<string>, gids: seq<string>, hosts4: seq<string>, hosts6: seq<string>, all: bool): seq<Applied> {
    FlatMap(uids, ZoneOfUid()) + FlatMap(gids, ZoneOfGid()) + ZonesOfServers(hosts4, hosts6, all)
  }

  function DnsGroupReturns(filter: InterceptFilter): seq<Applied> {
    if filter.except then FlatMap(filter.values, DnsGidReturn())
    else Both(OUTPUT, NAT, UdpTo("53", NoneOf(filter.values), Return))
  }

  function DnsRedirects(hosts4: seq<string>, hosts6: seq<string>, all: bool): seq<Applied> {
    if all then Both(OUTPUT, NAT, UdpTo("53", [], DnsRedirect()))
    else FlatMap(hosts4, DnsServerRedirect(V4)) + FlatMap(hosts6, DnsServerRedirect(V6))
  }

  /** HandleDNSUDP */
  function DnsUdp(uids: seq<string>, gids: seq<string>, hosts4: seq<string>, hosts6: seq<string>, all: bool,
                  filter: InterceptFilter): seq<Applied>
  {
    FlatMap(uids, DnsUidReturn()) + FlatMap(gids, DnsGidReturn()) +
    DnsGroupReturns(filter) +
    DnsRedirects(hosts4, hosts6, all) +
    ConntrackZones(uids, gids, hosts4, hosts6, all)
  }

  /** The helper in append mode: the calls it makes for one family. */
  function AppendOne(fam: Family): Applied -> seq<Call> {
    (a: Applied) => if a.fam == fam then [AppendCall(UNDEFINED_COMMAND, a.chain, a.table, a.rule)] else []
  }

  /** The helper in delete mode: whatever the family of the rule, one attempt with the given command. */
  function DeleteLine(cmd: string): Applied -> seq<seq<string>> {
    (a: Applied) => [[cmd, "-t", a.table, "-D", a.chain] + RuleTokens(a.rule)]
  }

  function DnsUdpCalls(cfg: Config, fam: Family, hosts4: seq<string>, hosts6: seq<string>): seq<Call> {
    if cfg.redirectDNS then
      FlatMap(DnsUdp(cfg.Uids(), cfg.Gids(), hosts4, hosts6, cfg.captureAllDNS, cfg.Filter()), AppendOne(fam))
    else
      []
  }

  // ---------------------------------------------------------------- TPROXY

  function MarkRule(fam: Family, owner: Match): Rule {
    Rule([Not(Destination(Loopback(fam))), Tcp(), Is(OutInterface("lo")), Is(owner)], SetMark(OUTBOUND_MARK))
  }

  function MarkUid(fam: Family): string -> seq<Rule> {
    (uid: string) => [MarkRule(fam, SubMatch(Loopback(fam), UidOwner(uid)))]
  }

  function MarkGid(fam: Family): string -> seq<Rule> {
    (gid: string) => [MarkRule(fam, SubMatch(Loopback(fam), GidOwner(gid)))]
  }

  function SaveMarkRule(mark: string): Rule { Rule([Tcp(), Is(Mark(mark))], SaveMark) }

  function RestoreMarkRule(mark: string): Rule { Rule([Tcp(), Is(ConnMark(mark))], RestoreMark) }

  function MarkedLoopbackRule(mark: string): Rule { Rule([Tcp(), Is(OutInterface("lo")), Is(Mark(mark))], Return) }

  function MarkedInboundRule(mark: string): Rule { Rule([Tcp(), Is(Mark(mark))], Return) }

  function FromPassthroughRule(source: string): Rule { Rule([Tcp(), Is(Source(source)), Is(InInterface("lo"))], Return) }

  function UnmarkedLoopbackRule(): Rule { Rule([Tcp(), Is(InInterface("lo")), Not(Mark(OUTBOUND_MARK))], Return) }

  function TproxyOutputRules(cfg: Config, fam: Family): seq<Rule> {
    [MarkedLoopbackRule(cfg.inboundTProxyMark)] +
    FlatMap(cfg.Uids(), MarkUid(fam)) +
    FlatMap(cfg.Gids(), MarkGid(fam)) +
    [RestoreMarkRule(cfg.inboundTProxyMark)]
  }

  /** The three rules that go before everything else in the inbound chain. */
  function TproxyInserts(cfg: Config, fam: Family): seq<Call> {
    [InsertCall(UNDEFINED_COMMAND, ISTIO_INBOUND, MANGLE, 1, MarkedInboundRule(cfg.inboundTProxyMark)),
     InsertCall(UNDEFINED_COMMAND, ISTIO_INBOUND, MANGLE, 2, FromPassthroughRule(PassthroughSource(fam))),
     InsertCall(UNDEFINED_COMMAND, ISTIO_INBOUND, MANGLE, 3, UnmarkedLoopbackRule())]
  }

  function TproxyAppends(cfg: Config, fam: Family): seq<Call> {
    [AppendCall(UNDEFINED_COMMAND, PREROUTING, MANGLE, SaveMarkRule(cfg.inboundTProxyMark))] +
    Calls(UNDEFINED_COMMAND, OUTPUT, MANGLE, TproxyOutputRules(cfg, fam))
  }

  // ---------------------------------------------------------------- the whole run

  function DropInvalidCalls(cfg: Config): seq<Call> {
    if cfg.dropInvalid then
      [AppendCall(UNDEFINED_COMMAND, PREROUTING, MANGLE, Rule([Is(CtState("INVALID"))], Drop))]
    else
      []
  }

  function BaseCalls(cfg: Config): seq<Call> {
    [AppendCall(UNDEFINED_COMMAND, ISTIO_INBOUND, NAT, TcpPortRule(cfg.inboundTunnelPort, Return)),
     AppendCall(UNDEFINED_COMMAND, ISTIO_REDIRECT, NAT, TcpRule(Redirect("--to-ports", cfg.proxyPort))),
     AppendCall(INBOUND_CAPTURE, ISTIO_IN_REDIRECT, NAT, TcpRule(Redirect("--to-ports", cfg.inboundCapturePort)))]
  }

  /** The stages of a run, in order. */
  datatype Phase =
    | ExcludedInterfaces | KubeReturns | InvalidDrops | BaseChains | InboundPorts
    | OutputJump | OutputChain | IncludedRanges | UdpDns | TproxyMarks | TproxyReturns

  function Phases(): seq<Phase> {
    [ExcludedInterfaces, KubeReturns, InvalidDrops, BaseChains, InboundPorts,
     OutputJump, OutputChain, IncludedRanges, UdpDns, TproxyMarks, TproxyReturns]
  }

  function PhaseCalls(s: Setup, fam: Family, phase: Phase): seq<Call> {
    match phase
    case ExcludedInterfaces => ExcludeInterfaceCalls(s.cfg)
    case KubeReturns => FlatMap(Text.Fields(s.cfg.kubeVirtInterfaces), KubeTraffic(Return))
    case InvalidDrops => DropInvalidCalls(s.cfg)
    case BaseChains => BaseCalls(s.cfg)
    case InboundPorts => InboundCalls(s.cfg, fam)
    case OutputJump => [AppendCall(JUMP_OUTBOUND, OUTPUT, NAT, TcpRule(Jump(ISTIO_OUTPUT)))]
    case OutputChain => Calls(UNDEFINED_COMMAND, ISTIO_OUTPUT, NAT, OutputRules(s, fam))
    case IncludedRanges => IncludeCalls(s.cfg, s.Included(fam))
    case UdpDns => DnsUdpCalls(s.cfg, fam, s.hosts4, s.hosts6)
    case TproxyMarks => if s.cfg.UsesTproxy() then TproxyAppends(s.cfg, fam) else []
    case TproxyReturns => if s.cfg.UsesTproxy() then TproxyInserts(s.cfg, fam) else []
  }

  lemma OutputPhase(s: Setup, fam: Family)
    ensures PhaseCalls(s, fam, OutputChain) == Calls(UNDEFINED_COMMAND, ISTIO_OUTPUT, NAT, OutputRules(s, fam))
  {
  }

  lemma IncludedPhase(s: Setup, fam: Family)
    ensures PhaseCalls(s, fam, IncludedRanges) == IncludeCalls(s.cfg, s.Included(fam))
  {
  }

  lemma MarksPhase(s: Setup, fam: Family)
    ensures PhaseCalls(s, fam, TproxyMarks) == if s.cfg.UsesTproxy() then TproxyAppends(s.cfg, fam) else []
  {
  }

  function CallsOf(s: Setup, fam: Family): Phase -> seq<Call> {
    (phase: Phase) => PhaseCalls(s, fam, phase)
  }

  /** The calls a run makes for one family when it does not stop on OutboundIPRangesExclude. */
  function RunCalls(s: Setup, fam: Family): seq<Call> {
    FlatMap(Phases(), CallsOf(s, fam))
  }

  /** The rules a run records for one family; none for the second family unless it is enabled. */
  function RunEntries(s: Setup, fam: Family): seq<Entry> {
    if fam.V6? && !s.cfg.enableInboundIPv6 then [] else Recorded(s.cfg.traceLogging, RunCalls(s, fam))
  }
}
