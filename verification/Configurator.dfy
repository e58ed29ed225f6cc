/** The configurator itself: its loops over the configuration, recording rules as they go. */
module Configurator {
  import opened Optional
  import opened Sequences
  import opened Netfilter
  import opened Builder
  import opened Capture
  import opened RuleShapes
  import opened Executions
  import opened DnsRules
  import Text

  /** Both restore files, when the tables of each come in the given order. */
  ghost predicate RestoredWith(before: seq<(string, seq<string>)>, after: seq<(string, seq<string>)>,
                               entries4: seq<Entry>, entries6: seq<Entry>, order4: seq<string>, order6: seq<string>)
  {
    && IsTableOrder(order4, entries4) && IsTableOrder(order6, entries6)
    && after == before + [("iptables-restore", RestoreLines(order4, entries4)), ("ip6tables-restore", RestoreLines(order6, entries6))]
  }

  /** The rules of both families handed over as single commands, or as two restore files. */
  ghost predicate Applies(executed: seq<seq<string>>, executed': seq<seq<string>>,
                          restored: seq<(string, seq<string>)>, restored': seq<(string, seq<string>)>,
                          restoreFormat: bool, entries4: seq<Entry>, entries6: seq<Entry>)
  {
    if restoreFormat then
      executed' == executed && exists order4, order6 :: RestoredWith(restored, restored', entries4, entries6, order4, order6)
    else
      restored' == restored &&
      executed' == executed + BuildLines("iptables", entries4) + BuildLines("ip6tables", entries6)
  }

  lemma DivertShape(cfg: Config, fam: Family)
    ensures DivertCalls(cfg, fam) ==
            [AppendCall(UNDEFINED_COMMAND, ISTIO_DIVERT, MANGLE, Rule([], SetMark(cfg.inboundTProxyMark))),
             AppendCall(UNDEFINED_COMMAND, ISTIO_DIVERT, MANGLE, Rule([], Accept)),
             AppendCall(UNDEFINED_COMMAND, ISTIO_TPROXY, MANGLE, TproxyRule(cfg, fam))]
  {
    CallsTwo(UNDEFINED_COMMAND, ISTIO_DIVERT, MANGLE, Rule([], SetMark(cfg.inboundTProxyMark)), Rule([], Accept));
    CallsOne(UNDEFINED_COMMAND, ISTIO_TPROXY, MANGLE, TproxyRule(cfg, fam));
  }

  class IptablesConfigurator {
    const iptables: IptablesBuilder
    const cfg: Config
    const parse: CidrParser

    /** The DNS servers with their prefix lengths; the source adds these where it uses a server. */
    const hosts4: seq<string>
    const hosts6: seq<string>

    /** The calls of each phase, under names the proofs of the other phases need not look into. */
    ghost const plan4: Phase -> seq<Call>
    ghost const plan6: Phase -> seq<Call>

    ghost const input: Setup

    ghost const segment4: Segment -> seq<Rule>
    ghost const segment6: Segment -> seq<Rule>

    ghost predicate Planned() {
      && input.cfg == cfg && input.hosts4 == hosts4 && input.hosts6 == hosts6
      && (forall phase {:trigger PhaseCalls(input, V4, phase)} :: plan4(phase) == PhaseCalls(input, V4, phase))
      && (forall phase {:trigger PhaseCalls(input, V6, phase)} :: plan6(phase) == PhaseCalls(input, V6, phase))
      && (forall x {:trigger SegmentRules(input, V4, x)} :: segment4(x) == SegmentRules(input, V4, x))
      && (forall x {:trigger SegmentRules(input, V6, x)} :: segment6(x) == SegmentRules(input, V6, x))
    }

    constructor (iptables: IptablesBuilder, cfg: Config, parse: CidrParser)
      ensures this.iptables == iptables && this.cfg == cfg && this.parse == parse
      ensures input == SetupOf(cfg, parse) && Planned()
    {
      this.iptables := iptables;
      this.cfg := cfg;
      this.parse := parse;
      hosts4 := Suffixed(cfg.dnsServersV4, HostSuffix(V4));
      hosts6 := Suffixed(cfg.dnsServersV6, HostSuffix(V6));
      input := SetupOf(cfg, parse);
      segment4, segment6 := RulesOf(SetupOf(cfg, parse), V4), RulesOf(SetupOf(cfg, parse), V6);
      plan4, plan6 := CallsOf(SetupOf(cfg, parse), V4), CallsOf(SetupOf(cfg, parse), V6);
    }

    // Each method below leaves the builder valid and adds its own calls, family by family.

    ghost predicate Added(before4: seq<Call>, before6: seq<Call>, added4: seq<Call>, added6: seq<Call>)
      reads iptables
    {
      iptables.Valid() && iptables.calls4 == before4 + added4 && iptables.calls6 == before6 + added6
    }

    /** The loop of every `--dport` list: one rule a port. */
    method AppendPorts(command: string, chain: string, table: string, ports: seq<string>, target: string, ghost t: Target)
      requires iptables.Valid() && TargetTokens(t) == ["-j", target]
      modifies iptables
      ensures var added := Calls(command, chain, table, FlatMap(ports, TcpPorts(t)));
              Added(old(iptables.calls4), old(iptables.calls6), added, added)
    {
      for i := 0 to |ports|
        invariant Added(old(iptables.calls4), old(iptables.calls6),
                        Calls(command, chain, table, FlatMap(ports[..i], TcpPorts(t))),
                        Calls(command, chain, table, FlatMap(ports[..i], TcpPorts(t))))
      {
        TcpPortTokens(ports[i], target, t);
        CallsStep1(old(iptables.calls4), command, chain, table, ports, TcpPorts(t), i, TcpPortRule(ports[i], t));
        CallsStep1(old(iptables.calls6), command, chain, table, ports, TcpPorts(t), i, TcpPortRule(ports[i], t));
        iptables.AppendRule(command, chain, table, ["-p", "tcp", "--dport", ports[i], "-j", target], TcpPortRule(ports[i], t));
      }
      FlatMapWhole(ports, TcpPorts(t));
    }

    method SeparateV4V6(cidrList: string) returns (range4: NetworkRange, range6: NetworkRange)
      ensures range4 == RangesOf(parse, V4, cidrList) && range6 == RangesOf(parse, V6, cidrList)
    {
      if cidrList == "*" {
        return NetworkRange(true, [], false), NetworkRange(true, [], false);
      }
      var ranges := Text.Fields(cidrList);
      var nets4, nets6: seq<string>, loop4, loop6 := [], [], false, false;
      for i := 0 to |ranges|
        invariant nets4 == FlatMap(ranges[..i], NetOf(parse, V4)) && nets6 == FlatMap(ranges[..i], NetOf(parse, V6))
        invariant loop4 == HasLoopback(parse, V4, ranges[..i]) && loop6 == HasLoopback(parse, V6, ranges[..i])
      {
        FlatMapStep(ranges, NetOf(parse, V4), i);
        FlatMapStep(ranges, NetOf(parse, V6), i);
        assert ranges[..i + 1] == ranges[..i] + [ranges[i]];
        var parsed := parse(ranges[i]);
        if parsed.Some? {
          var cidr := parsed.value;
          if cidr.isV4 {
            nets4 := nets4 + [cidr.text];
            if cidr.isLoopback { loop4 := true; }
          } else {
            nets6 := nets6 + [cidr.text];
            if cidr.isLoopback { loop6 := true; }
          }
        }
      }
      assert ranges[..|ranges|] == ranges;
      return NetworkRange(false, nets4, loop4), NetworkRange(false, nets6, loop6);
    }

    method ShortCircuitExcludeInterfaces()
      requires iptables.Valid()
      modifies iptables
      ensures Added(old(iptables.calls4), old(iptables.calls6), ExcludeInterfaceCalls(cfg), ExcludeInterfaceCalls(cfg))
    {
      var interfaces := Text.Fields(cfg.excludeInterfaces);
      ReturnInterfaces(interfaces, NAT);
      if cfg.inboundInterceptionMode == TPROXY_MODE {
        ghost var first := FlatMap(interfaces, InterfaceReturns(NAT));
        ReturnInterfaces(interfaces, MANGLE);
        Assoc(old(iptables.calls4), first, FlatMap(interfaces, InterfaceReturns(MANGLE)));
        Assoc(old(iptables.calls6), first, FlatMap(interfaces, InterfaceReturns(MANGLE)));
      }
    }

    method ReturnInterfaces(interfaces: seq<string>, table: string)
      requires iptables.Valid()
      modifies iptables
      ensures var added := FlatMap(interfaces, InterfaceReturns(table));
              Added(old(iptables.calls4), old(iptables.calls6), added, added)
    {
      for i := 0 to |interfaces|
        invariant Added(old(iptables.calls4), old(iptables.calls6),
                        FlatMap(interfaces[..i], InterfaceReturns(table)), FlatMap(interfaces[..i], InterfaceReturns(table)))
      {
        var name := interfaces[i];
        FlatMapRound(old(iptables.calls4), interfaces, InterfaceReturns(table), i);
        FlatMapRound(old(iptables.calls6), interfaces, InterfaceReturns(table), i);
        InterfaceTokens(name, "RETURN", Return);
        iptables.AppendRule(EXCLUDE_INTERFACE, PREROUTING, table, ["-i", name, "-j", "RETURN"],
                            Rule([Is(InInterface(name))], Return));
        iptables.AppendRule(EXCLUDE_INTERFACE, OUTPUT, table, ["-o", name, "-j", "RETURN"],
                            Rule([Is(OutInterface(name))], Return));
      }
      FlatMapWhole(interfaces, InterfaceReturns(table));
    }

    method ShortCircuitKubeInternalInterface()
      requires iptables.Valid()
      modifies iptables
      ensures var added := FlatMap(Text.Fields(cfg.kubeVirtInterfaces), KubeTraffic(Return));
              Added(old(iptables.calls4), old(iptables.calls6), added, added)
    {
      var interfaces := Text.Fields(cfg.kubeVirtInterfaces);
      for i := 0 to |interfaces|
        invariant Added(old(iptables.calls4), old(iptables.calls6),
                        FlatMap(interfaces[..i], KubeTraffic(Return)), FlatMap(interfaces[..i], KubeTraffic(Return)))
      {
        FlatMapRound(old(iptables.calls4), interfaces, KubeTraffic(Return), i);
        FlatMapRound(old(iptables.calls6), interfaces, KubeTraffic(Return), i);
        InterfaceTokens(interfaces[i], "RETURN", Return);
        iptables.InsertRule(KUBEVIRT, PREROUTING, NAT, 1, ["-i", interfaces[i], "-j", "RETURN"],
                            Rule([Is(InInterface(interfaces[i]))], Return));
      }
      FlatMapWhole(interfaces, KubeTraffic(Return));
    }

    method HandleInboundPortsInclude()
      requires iptables.Valid()
      modifies iptables
      ensures Added(old(iptables.calls4), old(iptables.calls6), InboundCalls(cfg, V4), InboundCalls(cfg, V6))
    {
      if cfg.inboundPortsInclude != "" {
        var table := NAT;
        if cfg.inboundInterceptionMode == TPROXY_MODE {
          CreateDivertChains();
          table := MANGLE;
        } else {
          Nothing(old(iptables.calls4), old(iptables.calls6));
        }
        JumpToInbound(table);
        RedirectInboundPorts(table);
        JoinInbound(old(iptables.calls4), cfg, V4);
        JoinInbound(old(iptables.calls6), cfg, V6);
      } else {
        Nothing(old(iptables.calls4), old(iptables.calls6));
      }
    }

    method JumpToInbound(table: string)
      requires iptables.Valid()
      modifies iptables
      ensures var jump := [AppendCall(JUMP_INBOUND, PREROUTING, table, TcpRule(Jump(ISTIO_INBOUND)))];
              Added(old(iptables.calls4), old(iptables.calls6), jump, jump)
    {
      TcpTokens(ISTIO_INBOUND, Jump(ISTIO_INBOUND));
      iptables.AppendRule(JUMP_INBOUND, PREROUTING, table, ["-p", "tcp", "-j", ISTIO_INBOUND],
                          TcpRule(Jump(ISTIO_INBOUND)));
    }

    method CreateDivertChains()
      requires iptables.Valid()
      modifies iptables
      ensures Added(old(iptables.calls4), old(iptables.calls6),
                    DivertCalls(cfg, V4), DivertCalls(cfg, V6))
    {
      var mark := cfg.inboundTProxyMark;
      DivertShape(cfg, V4);
      DivertShape(cfg, V6);
      MarkAcceptTokens(mark);
      iptables.AppendRule(UNDEFINED_COMMAND, ISTIO_DIVERT, MANGLE, ["-j", "MARK", "--set-mark", mark], Rule([], SetMark(mark)));
      iptables.AppendRule(UNDEFINED_COMMAND, ISTIO_DIVERT, MANGLE, ["-j", "ACCEPT"], Rule([], Accept));
      var r := TproxyTemplate(cfg);
      TproxyTokens(cfg);
      TproxyVersioned(cfg, V4);
      TproxyVersioned(cfg, V6);
      iptables.AppendVersionedRule("127.0.0.1/32", "::1/128", UNDEFINED_COMMAND, ISTIO_TPROXY, MANGLE,
        ["!", "-d", IP_VERSION_SPECIFIC, "-p", "tcp", "-j", "TPROXY",
         "--tproxy-mark", mark + "/0xffffffff", "--on-port", cfg.inboundCapturePort], r);
    }

    method RedirectInboundPorts(table: string)
      requires iptables.Valid() && table == InboundTable(cfg)
      modifies iptables
      ensures Added(old(iptables.calls4), old(iptables.calls6), InboundPortCalls(cfg), InboundPortCalls(cfg))
    {
      if cfg.inboundPortsInclude == "*" {
        AppendPorts(EXCLUDE_INBOUND_PORT, ISTIO_INBOUND, table, Text.Fields(cfg.inboundPortsExclude), "RETURN", Return);
        ghost var excluded := Calls(EXCLUDE_INBOUND_PORT, ISTIO_INBOUND, table,
                                    FlatMap(Text.Fields(cfg.inboundPortsExclude), TcpPorts(Return)));
        ghost var rules := RedirectRest();
        Assoc(old(iptables.calls4), excluded, Calls(UNDEFINED_COMMAND, ISTIO_INBOUND, table, rules));
        Assoc(old(iptables.calls6), excluded, Calls(UNDEFINED_COMMAND, ISTIO_INBOUND, table, rules));
      } else if cfg.inboundInterceptionMode == TPROXY_MODE {
        IncludeTproxyPorts(Text.Fields(cfg.inboundPortsInclude));
      } else {
        AppendPorts(INCLUDE_INBOUND_PORT, ISTIO_INBOUND, NAT, Text.Fields(cfg.inboundPortsInclude),
                    ISTIO_IN_REDIRECT, Jump(ISTIO_IN_REDIRECT));
      }
    }

    /** What follows the port exclusions when every port is included. */
    method RedirectRest() returns (ghost rules: seq<Rule>)
      requires iptables.Valid()
      modifies iptables
      ensures rules == RestRules(cfg)
      ensures var added := Calls(UNDEFINED_COMMAND, ISTIO_INBOUND, InboundTable(cfg), rules);
              Added(old(iptables.calls4), old(iptables.calls6), added, added)
    {
      rules := RestRules(cfg);
      if cfg.inboundInterceptionMode == TPROXY_MODE {
        EstablishedTokens("");
        TcpTokens(ISTIO_TPROXY, Jump(ISTIO_TPROXY));
        CallsTwo(UNDEFINED_COMMAND, ISTIO_INBOUND, MANGLE, EstablishedRule(), TcpRule(Jump(ISTIO_TPROXY)));
        Pair(old(iptables.calls4), old(iptables.calls6),
             AppendCall(UNDEFINED_COMMAND, ISTIO_INBOUND, MANGLE, EstablishedRule()),
             AppendCall(UNDEFINED_COMMAND, ISTIO_INBOUND, MANGLE, TcpRule(Jump(ISTIO_TPROXY))));
        iptables.AppendRule(UNDEFINED_COMMAND, ISTIO_INBOUND, MANGLE,
          ["-p", "tcp", "-m", "conntrack", "--ctstate", ESTABLISHED, "-j", ISTIO_DIVERT], EstablishedRule());
        iptables.AppendRule(UNDEFINED_COMMAND, ISTIO_INBOUND, MANGLE, ["-p", "tcp", "-j", ISTIO_TPROXY], TcpRule(Jump(ISTIO_TPROXY)));
      } else {
        TcpTokens(ISTIO_IN_REDIRECT, Jump(ISTIO_IN_REDIRECT));
        CallsOne(UNDEFINED_COMMAND, ISTIO_INBOUND, NAT, TcpRule(Jump(ISTIO_IN_REDIRECT)));
        iptables.AppendRule(UNDEFINED_COMMAND, ISTIO_INBOUND, NAT, ["-p", "tcp", "-j", ISTIO_IN_REDIRECT],
                            TcpRule(Jump(ISTIO_IN_REDIRECT)));
      }
    }

    method IncludeTproxyPorts(ports: seq<string>)
      requires iptables.Valid()
      modifies iptables
      ensures var added := Calls(INCLUDE_INBOUND_PORT, ISTIO_INBOUND, MANGLE, FlatMap(ports, TproxyPorts()));
              Added(old(iptables.calls4), old(iptables.calls6), added, added)
    {
      for i := 0 to |ports|
        invariant Added(old(iptables.calls4), old(iptables.calls6),
                        Calls(INCLUDE_INBOUND_PORT, ISTIO_INBOUND, MANGLE, FlatMap(ports[..i], TproxyPorts())),
                        Calls(INCLUDE_INBOUND_PORT, ISTIO_INBOUND, MANGLE, FlatMap(ports[..i], TproxyPorts())))
      {
        CallsStep(old(iptables.calls4), INCLUDE_INBOUND_PORT, ISTIO_INBOUND, MANGLE, ports, TproxyPorts(), i);
        CallsStep(old(iptables.calls6), INCLUDE_INBOUND_PORT, ISTIO_INBOUND, MANGLE, ports, TproxyPorts(), i);
        IncludeTproxyPort(ports[i]);
      }
      FlatMapWhole(ports, TproxyPorts());
    }

    method IncludeTproxyPort(port: string)
      requires iptables.Valid()
      modifies iptables
      ensures var added := Calls(INCLUDE_INBOUND_PORT, ISTIO_INBOUND, MANGLE, TproxyPorts()(port));
              Added(old(iptables.calls4), old(iptables.calls6), added, added)
    {
      CallsTwo(INCLUDE_INBOUND_PORT, ISTIO_INBOUND, MANGLE, EstablishedPortRule(port), TcpPortRule(port, Jump(ISTIO_TPROXY)));
      Pair(old(iptables.calls4), old(iptables.calls6),
           AppendCall(INCLUDE_INBOUND_PORT, ISTIO_INBOUND, MANGLE, EstablishedPortRule(port)),
           AppendCall(INCLUDE_INBOUND_PORT, ISTIO_INBOUND, MANGLE, TcpPortRule(port, Jump(ISTIO_TPROXY))));
      EstablishedTokens(port);
      TcpPortTokens(port, ISTIO_TPROXY, Jump(ISTIO_TPROXY));
      iptables.AppendRule(INCLUDE_INBOUND_PORT, ISTIO_INBOUND, MANGLE,
        ["-p", "tcp", "--dport", port, "-m", "conntrack", "--ctstate", ESTABLISHED, "-j", ISTIO_DIVERT],
        EstablishedPortRule(port));
      iptables.AppendRule(INCLUDE_INBOUND_PORT, ISTIO_INBOUND, MANGLE,
        ["-p", "tcp", "--dport", port, "-j", ISTIO_TPROXY], TcpPortRule(port, Jump(ISTIO_TPROXY)));
    }

    // ---------------------------------------------------------------- the outbound chain

    /** Rules appended to the outbound chain of the nat table. */
    ghost predicate AddedOut(before4: seq<Call>, before6: seq<Call>, rules4: seq<Rule>, rules6: seq<Rule>)
      reads iptables
    {
      Added(before4, before6, OutCalls(rules4), OutCalls(rules6))
    }

    method BackToSelf(owner: string, uid: bool, dns: bool)
      requires iptables.Valid()
      modifies iptables
      ensures AddedOut(old(iptables.calls4), old(iptables.calls6),
                       [BackToSelfRule(dns, V4, SubMatch(Loopback(V4), Owner(uid, owner)))],
                       [BackToSelfRule(dns, V6, SubMatch(Loopback(V6), Owner(uid, owner)))])
    {
      var flag := OwnerFlag(uid);
      var params :=
        if dns then
          ["-o", "lo", "!", "-d", IP_VERSION_SPECIFIC] +
          (["-p", "tcp", "!", "--dport", "53"] + (["-m", "owner", flag, owner] + ["-j", ISTIO_IN_REDIRECT]))
        else
          ["-o", "lo", "!", "-d", IP_VERSION_SPECIFIC] + (["-m", "owner", flag, owner] + ["-j", ISTIO_IN_REDIRECT]);
      BackToSelfTokens(uid, owner);
      BackToSelfDnsTokens(uid, owner);
      BackToSelfVersioned(dns, V4, Owner(uid, owner), SubMatch(Loopback(V4), Owner(uid, owner)));
      BackToSelfVersioned(dns, V6, Owner(uid, owner), SubMatch(Loopback(V6), Owner(uid, owner)));
      OutOne(BackToSelfRule(dns, V4, SubMatch(Loopback(V4), Owner(uid, owner))));
      OutOne(BackToSelfRule(dns, V6, SubMatch(Loopback(V6), Owner(uid, owner))));
      iptables.AppendVersionedRule("127.0.0.1/32", "::1/128", UNDEFINED_COMMAND, ISTIO_OUTPUT, NAT, params,
                                   BackToSelfTemplate(dns, Owner(uid, owner)));
    }

    method LoopbackReturn(owner: string, uid: bool)
      requires iptables.Valid()
      modifies iptables
      ensures var rules := [LoopbackReturnRule(cfg.redirectDNS, Owner(uid, owner))];
              AddedOut(old(iptables.calls4), old(iptables.calls6), rules, rules)
    {
      var flag := OwnerFlag(uid);
      var params :=
        if cfg.redirectDNS then
          ["-o", "lo", "-p", "tcp", "!", "--dport", "53"] + ["-m", "owner", "!", flag, owner, "-j", "RETURN"]
        else
          ["-o", "lo"] + ["-m", "owner", "!", flag, owner, "-j", "RETURN"];
      LoopbackReturnTokens(cfg.redirectDNS, uid, owner);
      OutOne(LoopbackReturnRule(cfg.redirectDNS, Owner(uid, owner)));
      iptables.AppendRule(UNDEFINED_COMMAND, ISTIO_OUTPUT, NAT, params, LoopbackReturnRule(cfg.redirectDNS, Owner(uid, owner)));
    }

    method OwnerReturn(owner: string, uid: bool)
      requires iptables.Valid()
      modifies iptables
      ensures var rules := [OwnerReturnRule(Owner(uid, owner))];
              AddedOut(old(iptables.calls4), old(iptables.calls6), rules, rules)
    {
      OwnerReturnTokens(uid, owner);
      OutOne(OwnerReturnRule(Owner(uid, owner)));
      iptables.AppendRule(UNDEFINED_COMMAND, ISTIO_OUTPUT, NAT,
        ["-m", "owner", OwnerFlag(uid), owner, "-j", "RETURN"],
        OwnerReturnRule(Owner(uid, owner)));
    }

    /** The rules of one proxy user or group; `dns` exempts port 53 from the first. */
    method ReturnProxyTraffic(owner: string, uid: bool, dns: bool, skipLoopback: bool)
      requires iptables.Valid()
      modifies iptables
      ensures AddedOut(old(iptables.calls4), old(iptables.calls6),
                       ProxyRules(dns, cfg.redirectDNS, skipLoopback, V4, Owner(uid, owner)),
                       ProxyRules(dns, cfg.redirectDNS, skipLoopback, V6, Owner(uid, owner)))
    {
      BackToSelf(owner, uid, dns);
      ghost var first4 := [BackToSelfRule(dns, V4, SubMatch(Loopback(V4), Owner(uid, owner)))];
      ghost var first6 := [BackToSelfRule(dns, V6, SubMatch(Loopback(V6), Owner(uid, owner)))];
      ghost var skipped: seq<Rule> := [];
      if skipLoopback {
        LoopbackReturn(owner, uid);
        skipped := [LoopbackReturnRule(cfg.redirectDNS, Owner(uid, owner))];
        OutJoin(old(iptables.calls4), first4, skipped);
        OutJoin(old(iptables.calls6), first6, skipped);
      } else {
        assert first4 + [] == first4 && first6 + [] == first6;
      }
      OwnerReturn(owner, uid);
      OutJoin(old(iptables.calls4), first4 + skipped, [OwnerReturnRule(Owner(uid, owner))]);
      OutJoin(old(iptables.calls6), first6 + skipped, [OwnerReturnRule(Owner(uid, owner))]);
    }

    method ReturnProxyUids(skipLoopback: bool)
      requires iptables.Valid()
      modifies iptables
      ensures AddedOut(old(iptables.calls4), old(iptables.calls6),
                       FlatMap(cfg.Uids(), UidRules(cfg.redirectDNS, skipLoopback, V4)),
                       FlatMap(cfg.Uids(), UidRules(cfg.redirectDNS, skipLoopback, V6)))
    {
      var uids := cfg.Uids();
      ghost var f4, f6 := UidRules(cfg.redirectDNS, skipLoopback, V4), UidRules(cfg.redirectDNS, skipLoopback, V6);
      for i := 0 to |uids|
        invariant AddedOut(old(iptables.calls4), old(iptables.calls6), FlatMap(uids[..i], f4), FlatMap(uids[..i], f6))
      {
        CallsStep(old(iptables.calls4), UNDEFINED_COMMAND, ISTIO_OUTPUT, NAT, uids, f4, i);
        CallsStep(old(iptables.calls6), UNDEFINED_COMMAND, ISTIO_OUTPUT, NAT, uids, f6, i);
        ReturnProxyTraffic(uids[i], true, cfg.redirectDNS, skipLoopback);
      }
      FlatMapWhole(uids, f4);
      FlatMapWhole(uids, f6);
    }

    method ReturnProxyGids(skipLoopback: bool)
      requires iptables.Valid()
      modifies iptables
      ensures AddedOut(old(iptables.calls4), old(iptables.calls6),
                       FlatMap(cfg.Gids(), GidRules(cfg.redirectDNS, skipLoopback, V4)),
                       FlatMap(cfg.Gids(), GidRules(cfg.redirectDNS, skipLoopback, V6)))
    {
      var gids := cfg.Gids();
      ghost var f4, f6 := GidRules(cfg.redirectDNS, skipLoopback, V4), GidRules(cfg.redirectDNS, skipLoopback, V6);
      for i := 0 to |gids|
        invariant AddedOut(old(iptables.calls4), old(iptables.calls6), FlatMap(gids[..i], f4), FlatMap(gids[..i], f6))
      {
        CallsStep(old(iptables.calls4), UNDEFINED_COMMAND, ISTIO_OUTPUT, NAT, gids, f4, i);
        CallsStep(old(iptables.calls6), UNDEFINED_COMMAND, ISTIO_OUTPUT, NAT, gids, f6, i);
        ReturnProxyTraffic(gids[i], false, false, skipLoopback);
      }
      FlatMapWhole(gids, f4);
      FlatMapWhole(gids, f6);
    }

    method HandleCaptureByOwnerGroup(filter: InterceptFilter)
      requires iptables.Valid()
      modifies iptables
      ensures AddedOut(old(iptables.calls4), old(iptables.calls6), OwnerGroupRules(filter), OwnerGroupRules(filter))
    {
      if filter.except {
        for i := 0 to |filter.values|
          invariant AddedOut(old(iptables.calls4), old(iptables.calls6),
                             FlatMap(filter.values[..i], OwnerReturns()), FlatMap(filter.values[..i], OwnerReturns()))
        {
          CallsStep(old(iptables.calls4), UNDEFINED_COMMAND, ISTIO_OUTPUT, NAT, filter.values, OwnerReturns(), i);
          CallsStep(old(iptables.calls6), UNDEFINED_COMMAND, ISTIO_OUTPUT, NAT, filter.values, OwnerReturns(), i);
          OwnerReturn(filter.values[i], false);
        }
        FlatMapWhole(filter.values, OwnerReturns());
      } else {
        var groupIsNoneOf := CombineGroupMatchers(filter.values);
        OutOne(Rule(NoneOf(filter.values), Return));
        iptables.AppendRule(UNDEFINED_COMMAND, ISTIO_OUTPUT, NAT, groupIsNoneOf + ["-j", "RETURN"],
                            Rule(NoneOf(filter.values), Return));
      }
    }

    /** Source address of the inbound passthrough cluster: never captured again. */
    method ReturnPassthrough()
      requires iptables.Valid()
      modifies iptables
      ensures AddedOut(old(iptables.calls4), old(iptables.calls6), [PassthroughRule(V4)], [PassthroughRule(V6)])
    {
      PassthroughTokens();
      PassthroughVersioned(V4);
      PassthroughVersioned(V6);
      OutOne(PassthroughRule(V4));
      OutOne(PassthroughRule(V6));
      iptables.AppendVersionedRule("127.0.0.6/32", "::6/128", UNDEFINED_COMMAND, ISTIO_OUTPUT, NAT,
        ["-o", "lo", "-s", IP_VERSION_SPECIFIC, "-j", "RETURN"], PassthroughTemplate());
    }

    method ReturnLoopbackDestination()
      requires iptables.Valid()
      modifies iptables
      ensures AddedOut(old(iptables.calls4), old(iptables.calls6),
                       [ToRange(Loopback(V4), Return)], [ToRange(Loopback(V6), Return)])
    {
      RangeTokens(IP_VERSION_SPECIFIC, "RETURN", Return);
      LoopbackVersioned(V4);
      LoopbackVersioned(V6);
      OutOne(ToRange(Loopback(V4), Return));
      OutOne(ToRange(Loopback(V6), Return));
      iptables.AppendVersionedRule("127.0.0.1/32", "::1/128", UNDEFINED_COMMAND, ISTIO_OUTPUT, NAT,
        ["-d", IP_VERSION_SPECIFIC, "-j", "RETURN"], ToRange(IP_VERSION_SPECIFIC, Return));
    }

    /** One append for one family. */
    method AppendFor(fam: Family, chain: string, table: string, params: seq<string>, ghost rule: Rule)
      requires iptables.Valid() && params == RuleTokens(rule)
      modifies iptables
      ensures Added(old(iptables.calls4), old(iptables.calls6),
                    if fam.V4? then [AppendCall(UNDEFINED_COMMAND, chain, table, rule)] else [],
                    if fam.V6? then [AppendCall(UNDEFINED_COMMAND, chain, table, rule)] else [])
    {
      Nothing(iptables.calls4, iptables.calls6);
      if fam.V4? {
        iptables.AppendRuleV4(UNDEFINED_COMMAND, chain, table, params, rule);
      } else {
        iptables.AppendRuleV6(UNDEFINED_COMMAND, chain, table, params, rule);
      }
    }

    method InsertFor(fam: Family, name: string, params: seq<string>, ghost rule: Rule)
      requires iptables.Valid() && params == RuleTokens(rule)
      modifies iptables
      ensures Added(old(iptables.calls4), old(iptables.calls6),
                    if fam.V4? then [InsertCall(KUBEVIRT, PREROUTING, NAT, 1, rule)] else [],
                    if fam.V6? then [InsertCall(KUBEVIRT, PREROUTING, NAT, 1, rule)] else [])
    {
      Nothing(iptables.calls4, iptables.calls6);
      if fam.V4? {
        iptables.InsertRuleV4(KUBEVIRT, PREROUTING, NAT, 1, params, rule);
      } else {
        iptables.InsertRuleV6(KUBEVIRT, PREROUTING, NAT, 1, params, rule);
      }
    }

    /** Rules of one family on the outbound chain, one for each element of a list. */
    method ReturnRanges(fam: Family, cidrs: seq<string>)
      requires iptables.Valid()
      modifies iptables
      ensures AddedOut(old(iptables.calls4), old(iptables.calls6),
                       if fam.V4? then FlatMap(cidrs, Ranges(Return)) else [],
                       if fam.V6? then FlatMap(cidrs, Ranges(Return)) else [])
    {
      NoRules();
      Nothing(iptables.calls4, iptables.calls6);
      for i := 0 to |cidrs|
        invariant AddedOut(old(iptables.calls4), old(iptables.calls6),
                           if fam.V4? then FlatMap(cidrs[..i], Ranges(Return)) else [],
                           if fam.V6? then FlatMap(cidrs[..i], Ranges(Return)) else [])
      {
        CallsStep1(old(iptables.calls4), UNDEFINED_COMMAND, ISTIO_OUTPUT, NAT, cidrs, Ranges(Return), i, ToRange(cidrs[i], Return));
        CallsStep1(old(iptables.calls6), UNDEFINED_COMMAND, ISTIO_OUTPUT, NAT, cidrs, Ranges(Return), i, ToRange(cidrs[i], Return));
        Nothing(iptables.calls4, iptables.calls6);
        RangeTokens(cidrs[i], "RETURN", Return);
        AppendFor(fam, ISTIO_OUTPUT, NAT, ["-d", cidrs[i], "-j", "RETURN"], ToRange(cidrs[i], Return));
      }
      FlatMapWhole(cidrs, Ranges(Return));
    }

    method RedirectTcpDnsServers(fam: Family, hosts: seq<string>)
      requires iptables.Valid()
      modifies iptables
      ensures AddedOut(old(iptables.calls4), old(iptables.calls6),
                       if fam.V4? then FlatMap(hosts, TcpDnsTo()) else [],
                       if fam.V6? then FlatMap(hosts, TcpDnsTo()) else [])
    {
      NoRules();
      Nothing(iptables.calls4, iptables.calls6);
      for i := 0 to |hosts|
        invariant AddedOut(old(iptables.calls4), old(iptables.calls6),
                           if fam.V4? then FlatMap(hosts[..i], TcpDnsTo()) else [],
                           if fam.V6? then FlatMap(hosts[..i], TcpDnsTo()) else [])
      {
        CallsStep1(old(iptables.calls4), UNDEFINED_COMMAND, ISTIO_OUTPUT, NAT, hosts, TcpDnsTo(), i, TcpDnsRule(hosts[i]));
        CallsStep1(old(iptables.calls6), UNDEFINED_COMMAND, ISTIO_OUTPUT, NAT, hosts, TcpDnsTo(), i, TcpDnsRule(hosts[i]));
        Nothing(iptables.calls4, iptables.calls6);
        TcpDnsTokens(hosts[i]);
        AppendFor(fam, ISTIO_OUTPUT, NAT,
          ["-p", "tcp", "--dport", "53"] + (["-d", hosts[i]] + ["-j", "REDIRECT", "--to-ports", DNS_PORT]), TcpDnsRule(hosts[i]));
      }
      FlatMapWhole(hosts, TcpDnsTo());
    }

    method RedirectAllTcpDns()
      requires iptables.Valid()
      modifies iptables
      ensures var rules := [TcpPortRule("53", TcpDnsRedirect())];
              AddedOut(old(iptables.calls4), old(iptables.calls6), rules, rules)
    {
      TcpDnsTokens("");
      OutOne(TcpPortRule("53", TcpDnsRedirect()));
      iptables.AppendRule(UNDEFINED_COMMAND, ISTIO_OUTPUT, NAT,
        ["-p", "tcp", "--dport", "53"] + ["-j", "REDIRECT", "--to-ports", DNS_PORT], TcpPortRule("53", TcpDnsRedirect()));
    }

    method RedirectTcpDns()
      requires iptables.Valid()
      modifies iptables
      ensures AddedOut(old(iptables.calls4), old(iptables.calls6), TcpDnsRules(cfg, hosts4), TcpDnsRules(cfg, hosts6))
    {
      if !cfg.redirectDNS {
        NoRules();
        Nothing(iptables.calls4, iptables.calls6);
      } else if cfg.captureAllDNS {
        RedirectAllTcpDns();
      } else {
        RedirectTcpDnsToServers();
      }
    }

    method RedirectTcpDnsToServers()
      requires iptables.Valid()
      modifies iptables
      ensures AddedOut(old(iptables.calls4), old(iptables.calls6),
                       FlatMap(hosts4, TcpDnsTo()), FlatMap(hosts6, TcpDnsTo()))
    {
      ghost var to4, to6 := FlatMap(hosts4, TcpDnsTo()), FlatMap(hosts6, TcpDnsTo());
      RedirectTcpDnsServers(V4, hosts4);
      RedirectTcpDnsServers(V6, hosts6);
      OutJoinBoth(old(iptables.calls4), old(iptables.calls6), to4, [], [], to6);
      assert to4 + [] == to4 && [] + to6 == to6;
    }

    method HandleOutboundPortsInclude()
      requires iptables.Valid()
      modifies iptables
      ensures var rules := FlatMap(Text.Fields(cfg.outboundPortsInclude), TcpPorts(Jump(ISTIO_REDIRECT)));
              AddedOut(old(iptables.calls4), old(iptables.calls6), rules, rules)
    {
      AppendPorts(UNDEFINED_COMMAND, ISTIO_OUTPUT, NAT, Text.Fields(cfg.outboundPortsInclude),
                  ISTIO_REDIRECT, Jump(ISTIO_REDIRECT));
    }

    /** Since `before`, exactly the rules of some segments were appended to the outbound chain. */
    ghost predicate Filled(before4: seq<Call>, before6: seq<Call>, segments: seq<Segment>)
      reads iptables
    {
      Planned() && AddedOut(before4, before6, FlatMap(segments, segment4), FlatMap(segments, segment6))
    }

    /** One more segment. */
    lemma AdvanceOut(before4: seq<Call>, before6: seq<Call>, mid4: seq<Call>, mid6: seq<Call>,
                     segments: seq<Segment>, segment: Segment)
      requires Planned()
      requires mid4 == before4 + OutCalls(FlatMap(segments, segment4))
      requires mid6 == before6 + OutCalls(FlatMap(segments, segment6))
      requires AddedOut(mid4, mid6, segment4(segment), segment6(segment))
      ensures Filled(before4, before6, segments + [segment])
    {
      FlatMapPush(segments, segment4, segment);
      FlatMapPush(segments, segment6, segment);
      OutJoinBoth(before4, before6, FlatMap(segments, segment4), FlatMap(segments, segment6), segment4(segment), segment6(segment));
    }

    /** The outbound chain up to the included ranges, in the source's order. */
    method FillOutputChain(skipLoopback: bool, exclude4: NetworkRange, exclude6: NetworkRange)
      requires iptables.Valid() && Planned()
      requires skipLoopback == input.skipLoopback
      requires exclude4 == input.exclude4 && exclude6 == input.exclude6
      modifies iptables
      ensures Filled(old(iptables.calls4), old(iptables.calls6), Segments())
    {
      ghost var before4, before6 := iptables.calls4, iptables.calls6;
      FilledNone();
      ghost var done := FillProxyReturns(before4, before6, [], skipLoopback);
      done := FillExceptions(before4, before6, done);
      SegmentsInOrder();
      FillRanges(before4, before6, done, exclude4, exclude6);
    }

    lemma FilledNone()
      requires iptables.Valid() && Planned()
      ensures Filled(iptables.calls4, iptables.calls6, [])
    {
      NoRules();
      Nothing(iptables.calls4, iptables.calls6);
    }

    method FillProxyReturns(ghost before4: seq<Call>, ghost before6: seq<Call>, ghost start: seq<Segment>, skipLoopback: bool)
      returns (ghost done: seq<Segment>)
      requires Filled(before4, before6, start) && skipLoopback == input.skipLoopback
      modifies iptables
      ensures Filled(before4, before6, done)
      ensures done == start + [ExcludedPorts] + [Passthrough] + [ProxyUsers] + [ProxyGroups]
    {
      FillExcludedPorts(before4, before6, start);
      done := start + [ExcludedPorts];
      FillPassthrough(before4, before6, done);
      done := done + [Passthrough];
      FillProxyUsers(before4, before6, done, skipLoopback);
      done := done + [ProxyUsers];
      FillProxyGroups(before4, before6, done, skipLoopback);
      done := done + [ProxyGroups];
    }

    method FillExceptions(ghost before4: seq<Call>, ghost before6: seq<Call>, ghost start: seq<Segment>)
      returns (ghost done: seq<Segment>)
      requires Filled(before4, before6, start)
      modifies iptables
      ensures Filled(before4, before6, done)
      ensures done == start + [OwnerGroups] + [TcpDns] + [ToLoopback]
    {
      FillOwnerGroups(before4, before6, start);
      done := start + [OwnerGroups];
      FillTcpDns(before4, before6, done);
      done := done + [TcpDns];
      FillToLoopback(before4, before6, done);
      done := done + [ToLoopback];
    }

    method FillRanges(ghost before4: seq<Call>, ghost before6: seq<Call>, ghost done: seq<Segment>,
                      exclude4: NetworkRange, exclude6: NetworkRange)
      requires Filled(before4, before6, done)
      requires exclude4 == input.exclude4 && exclude6 == input.exclude6
      requires done + [ExcludedRanges] + [IncludedPorts] == Segments()
      modifies iptables
      ensures Filled(before4, before6, Segments())
    {
      FillExcludedRanges(before4, before6, done, exclude4, exclude6);
      FillIncludedPorts(before4, before6, done + [ExcludedRanges]);
    }

    method ReturnExcludedRanges(exclude4: NetworkRange, exclude6: NetworkRange)
      requires iptables.Valid()
      modifies iptables
      ensures AddedOut(old(iptables.calls4), old(iptables.calls6),
                       FlatMap(exclude4.ipNets, Ranges(Return)), FlatMap(exclude6.ipNets, Ranges(Return)))
    {
      ghost var ranges4, ranges6 := FlatMap(exclude4.ipNets, Ranges(Return)), FlatMap(exclude6.ipNets, Ranges(Return));
      ReturnRanges(V4, exclude4.ipNets);
      ReturnRanges(V6, exclude6.ipNets);
      OutJoinBoth(old(iptables.calls4), old(iptables.calls6), ranges4, [], [], ranges6);
      assert ranges4 + [] == ranges4 && [] + ranges6 == ranges6;
    }

    method FillExcludedPorts(ghost before4: seq<Call>, ghost before6: seq<Call>, ghost done: seq<Segment>)
      requires Filled(before4, before6, done)
      modifies iptables
      ensures Filled(before4, before6, done + [ExcludedPorts])
    {
      AppendPorts(UNDEFINED_COMMAND, ISTIO_OUTPUT, NAT, Text.Fields(cfg.outboundPortsExclude), "RETURN", Return);
      assert segment4(ExcludedPorts) == SegmentRules(input, V4, ExcludedPorts) && segment6(ExcludedPorts) == SegmentRules(input, V6, ExcludedPorts);
      AdvanceOut(before4, before6, old(iptables.calls4), old(iptables.calls6), done, ExcludedPorts);
    }

    method FillPassthrough(ghost before4: seq<Call>, ghost before6: seq<Call>, ghost done: seq<Segment>)
      requires Filled(before4, before6, done)
      modifies iptables
      ensures Filled(before4, before6, done + [Passthrough])
    {
      ReturnPassthrough();
      assert segment4(Passthrough) == SegmentRules(input, V4, Passthrough) && segment6(Passthrough) == SegmentRules(input, V6, Passthrough);
      AdvanceOut(before4, before6, old(iptables.calls4), old(iptables.calls6), done, Passthrough);
    }

    method FillProxyUsers(ghost before4: seq<Call>, ghost before6: seq<Call>, ghost done: seq<Segment>, skipLoopback: bool)
      requires Filled(before4, before6, done)
      requires skipLoopback == input.skipLoopback
      modifies iptables
      ensures Filled(before4, before6, done + [ProxyUsers])
    {
      ReturnProxyUids(skipLoopback);
      assert segment4(ProxyUsers) == SegmentRules(input, V4, ProxyUsers) && segment6(ProxyUsers) == SegmentRules(input, V6, ProxyUsers);
      AdvanceOut(before4, before6, old(iptables.calls4), old(iptables.calls6), done, ProxyUsers);
    }

    method FillProxyGroups(ghost before4: seq<Call>, ghost before6: seq<Call>, ghost done: seq<Segment>, skipLoopback: bool)
      requires Filled(before4, before6, done)
      requires skipLoopback == input.skipLoopback
      modifies iptables
      ensures Filled(before4, before6, done + [ProxyGroups])
    {
      ReturnProxyGids(skipLoopback);
      assert segment4(ProxyGroups) == SegmentRules(input, V4, ProxyGroups) && segment6(ProxyGroups) == SegmentRules(input, V6, ProxyGroups);
      AdvanceOut(before4, before6, old(iptables.calls4), old(iptables.calls6), done, ProxyGroups);
    }

    method FillOwnerGroups(ghost before4: seq<Call>, ghost before6: seq<Call>, ghost done: seq<Segment>)
      requires Filled(before4, before6, done)
      modifies iptables
      ensures Filled(before4, before6, done + [OwnerGroups])
    {
      HandleCaptureByOwnerGroup(cfg.Filter());
      assert segment4(OwnerGroups) == SegmentRules(input, V4, OwnerGroups) && segment6(OwnerGroups) == SegmentRules(input, V6, OwnerGroups);
      AdvanceOut(before4, before6, old(iptables.calls4), old(iptables.calls6), done, OwnerGroups);
    }

    method FillTcpDns(ghost before4: seq<Call>, ghost before6: seq<Call>, ghost done: seq<Segment>)
      requires Filled(before4, before6, done)
      modifies iptables
      ensures Filled(before4, before6, done + [TcpDns])
    {
      RedirectTcpDns();
      assert segment4(TcpDns) == SegmentRules(input, V4, TcpDns) && segment6(TcpDns) == SegmentRules(input, V6, TcpDns);
      AdvanceOut(before4, before6, old(iptables.calls4), old(iptables.calls6), done, TcpDns);
    }

    method FillToLoopback(ghost before4: seq<Call>, ghost before6: seq<Call>, ghost done: seq<Segment>)
      requires Filled(before4, before6, done)
      modifies iptables
      ensures Filled(before4, before6, done + [ToLoopback])
    {
      ReturnLoopbackDestination();
      assert segment4(ToLoopback) == SegmentRules(input, V4, ToLoopback) && segment6(ToLoopback) == SegmentRules(input, V6, ToLoopback);
      AdvanceOut(before4, before6, old(iptables.calls4), old(iptables.calls6), done, ToLoopback);
    }

    method FillExcludedRanges(ghost before4: seq<Call>, ghost before6: seq<Call>, ghost done: seq<Segment>, exclude4: NetworkRange, exclude6: NetworkRange)
      requires Filled(before4, before6, done)
      requires exclude4 == input.exclude4 && exclude6 == input.exclude6
      modifies iptables
      ensures Filled(before4, before6, done + [ExcludedRanges])
    {
      ReturnExcludedRanges(exclude4, exclude6);
      assert segment4(ExcludedRanges) == SegmentRules(input, V4, ExcludedRanges) && segment6(ExcludedRanges) == SegmentRules(input, V6, ExcludedRanges);
      AdvanceOut(before4, before6, old(iptables.calls4), old(iptables.calls6), done, ExcludedRanges);
    }

    method FillIncludedPorts(ghost before4: seq<Call>, ghost before6: seq<Call>, ghost done: seq<Segment>)
      requires Filled(before4, before6, done)
      modifies iptables
      ensures Filled(before4, before6, done + [IncludedPorts])
    {
      HandleOutboundPortsInclude();
      assert segment4(IncludedPorts) == SegmentRules(input, V4, IncludedPorts) && segment6(IncludedPorts) == SegmentRules(input, V6, IncludedPorts);
      AdvanceOut(before4, before6, old(iptables.calls4), old(iptables.calls6), done, IncludedPorts);
    }

    // ---------------------------------------------------------------- included ranges

    /** Calls of one family only. */
    ghost predicate AddedFor(fam: Family, before4: seq<Call>, before6: seq<Call>, added: seq<Call>)
      reads iptables
    {
      Added(before4, before6, if fam.V4? then added else [], if fam.V6? then added else [])
    }

    /** Added calls of one family, put together. */
    lemma JoinFor(fam: Family, before4: seq<Call>, before6: seq<Call>, a: seq<Call>, b: seq<Call>)
      ensures if fam.V4? then before4 + a + b == before4 + (a + b) && before6 + [] + [] == before6 + []
              else before6 + a + b == before6 + (a + b) && before4 + [] + [] == before4 + []
    {
    }

    /** handleOutboundIncludeRules, with the append and insert functions of one family. */
    method HandleOutboundIncludeRules(fam: Family, range: NetworkRange)
      requires iptables.Valid()
      modifies iptables
      ensures AddedFor(fam, old(iptables.calls4), old(iptables.calls6), IncludeCalls(cfg, range))
    {
      var kubes := Text.Fields(cfg.kubeVirtInterfaces);
      BareTokens();
      if range.isWildcard {
        ghost var all := [AppendCall(UNDEFINED_COMMAND, ISTIO_OUTPUT, NAT, Rule([], Jump(ISTIO_REDIRECT)))];
        AppendFor(fam, ISTIO_OUTPUT, NAT, ["-j", ISTIO_REDIRECT], Rule([], Jump(ISTIO_REDIRECT)));
        RedirectKubeInterfaces(fam, kubes);
        JoinFor(fam, old(iptables.calls4), old(iptables.calls6), all, FlatMap(kubes, KubeTraffic(Jump(ISTIO_REDIRECT))));
      } else if |range.ipNets| > 0 {
        IncludeRanges(fam, range.ipNets, kubes);
        AppendFor(fam, ISTIO_OUTPUT, NAT, ["-j", "RETURN"], Rule([], Return));
        JoinFor(fam, old(iptables.calls4), old(iptables.calls6), FlatMap(range.ipNets, IncludedRange(kubes)),
                [AppendCall(UNDEFINED_COMMAND, ISTIO_OUTPUT, NAT, Rule([], Return))]);
      } else {
        Nothing(old(iptables.calls4), old(iptables.calls6));
      }
    }

    method RedirectKubeInterfaces(fam: Family, kubes: seq<string>)
      requires iptables.Valid()
      modifies iptables
      ensures AddedFor(fam, old(iptables.calls4), old(iptables.calls6), FlatMap(kubes, KubeTraffic(Jump(ISTIO_REDIRECT))))
    {
      ghost var f := KubeTraffic(Jump(ISTIO_REDIRECT));
      Nothing(iptables.calls4, iptables.calls6);
      for i := 0 to |kubes|
        invariant AddedFor(fam, old(iptables.calls4), old(iptables.calls6), FlatMap(kubes[..i], f))
      {
        FlatMapStep(kubes, f, i);
        InterfaceTokens(kubes[i], ISTIO_REDIRECT, Jump(ISTIO_REDIRECT));
        JoinFor(fam, old(iptables.calls4), old(iptables.calls6), FlatMap(kubes[..i], f), f(kubes[i]));
        InsertFor(fam, kubes[i], ["-i", kubes[i], "-j", ISTIO_REDIRECT], Rule([Is(InInterface(kubes[i]))], Jump(ISTIO_REDIRECT)));
      }
      FlatMapWhole(kubes, f);
    }

    method RedirectKubeRange(fam: Family, kubes: seq<string>, cidr: string)
      requires iptables.Valid()
      modifies iptables
      ensures AddedFor(fam, old(iptables.calls4), old(iptables.calls6), FlatMap(kubes, KubeTrafficTo(cidr)))
    {
      ghost var f := KubeTrafficTo(cidr);
      Nothing(iptables.calls4, iptables.calls6);
      for i := 0 to |kubes|
        invariant AddedFor(fam, old(iptables.calls4), old(iptables.calls6), FlatMap(kubes[..i], f))
      {
        FlatMapStep(kubes, f, i);
        KubeRangeTokens(kubes[i], cidr);
        JoinFor(fam, old(iptables.calls4), old(iptables.calls6), FlatMap(kubes[..i], f), f(kubes[i]));
        InsertFor(fam, kubes[i], ["-i", kubes[i], "-d", cidr, "-j", ISTIO_REDIRECT],
                  Rule([Is(InInterface(kubes[i])), Is(Destination(cidr))], Jump(ISTIO_REDIRECT)));
      }
      FlatMapWhole(kubes, f);
    }

    method IncludeRanges(fam: Family, cidrs: seq<string>, kubes: seq<string>)
      requires iptables.Valid()
      modifies iptables
      ensures AddedFor(fam, old(iptables.calls4), old(iptables.calls6), FlatMap(cidrs, IncludedRange(kubes)))
    {
      ghost var f := IncludedRange(kubes);
      Nothing(iptables.calls4, iptables.calls6);
      for i := 0 to |cidrs|
        invariant AddedFor(fam, old(iptables.calls4), old(iptables.calls6), FlatMap(cidrs[..i], f))
      {
        FlatMapStep(cidrs, f, i);
        JoinFor(fam, old(iptables.calls4), old(iptables.calls6), FlatMap(cidrs[..i], f), f(cidrs[i]));
        IncludeRange(fam, cidrs[i], kubes);
      }
      FlatMapWhole(cidrs, f);
    }

    method IncludeRange(fam: Family, cidr: string, kubes: seq<string>)
      requires iptables.Valid()
      modifies iptables
      ensures AddedFor(fam, old(iptables.calls4), old(iptables.calls6), IncludedRange(kubes)(cidr))
    {
      RedirectKubeRange(fam, kubes, cidr);
      RangeTokens(cidr, ISTIO_REDIRECT, Jump(ISTIO_REDIRECT));
      AppendFor(fam, ISTIO_OUTPUT, NAT, ["-d", cidr, "-j", ISTIO_REDIRECT], ToRange(cidr, Jump(ISTIO_REDIRECT)));
      JoinFor(fam, old(iptables.calls4), old(iptables.calls6), FlatMap(kubes, KubeTrafficTo(cidr)),
              [AppendCall(UNDEFINED_COMMAND, ISTIO_OUTPUT, NAT, ToRange(cidr, Jump(ISTIO_REDIRECT)))]);
    }

    // ---------------------------------------------------------------- TPROXY

    method MarkOwners(owners: seq<string>, uid: bool)
      requires iptables.Valid()
      modifies iptables
      ensures Added(old(iptables.calls4), old(iptables.calls6),
                    Calls(UNDEFINED_COMMAND, OUTPUT, MANGLE, FlatMap(owners, if uid then MarkUid(V4) else MarkGid(V4))),
                    Calls(UNDEFINED_COMMAND, OUTPUT, MANGLE, FlatMap(owners, if uid then MarkUid(V6) else MarkGid(V6))))
    {
      ghost var f4, f6 := if uid then MarkUid(V4) else MarkGid(V4), if uid then MarkUid(V6) else MarkGid(V6);
      Nothing(iptables.calls4, iptables.calls6);
      for i := 0 to |owners|
        invariant Added(old(iptables.calls4), old(iptables.calls6),
                        Calls(UNDEFINED_COMMAND, OUTPUT, MANGLE, FlatMap(owners[..i], f4)),
                        Calls(UNDEFINED_COMMAND, OUTPUT, MANGLE, FlatMap(owners[..i], f6)))
      {
        CallsStep1(old(iptables.calls4), UNDEFINED_COMMAND, OUTPUT, MANGLE, owners, f4, i,
                   MarkRule(V4, SubMatch(Loopback(V4), Owner(uid, owners[i]))));
        CallsStep1(old(iptables.calls6), UNDEFINED_COMMAND, OUTPUT, MANGLE, owners, f6, i,
                   MarkRule(V6, SubMatch(Loopback(V6), Owner(uid, owners[i]))));
        MarkOwner(owners[i], uid);
      }
      FlatMapWhole(owners, f4);
      FlatMapWhole(owners, f6);
    }

    method MarkOwner(owner: string, uid: bool)
      requires iptables.Valid()
      modifies iptables
      ensures Added(old(iptables.calls4), old(iptables.calls6),
                    [AppendCall(UNDEFINED_COMMAND, OUTPUT, MANGLE, MarkRule(V4, SubMatch(Loopback(V4), Owner(uid, owner))))],
                    [AppendCall(UNDEFINED_COMMAND, OUTPUT, MANGLE, MarkRule(V6, SubMatch(Loopback(V6), Owner(uid, owner))))])
    {
      MarkOwnerTokens(uid, owner);
      MarkVersioned(V4, Owner(uid, owner));
      MarkVersioned(V6, Owner(uid, owner));
      iptables.AppendVersionedRule("127.0.0.1/32", "::1/128", UNDEFINED_COMMAND, OUTPUT, MANGLE,
        ["!", "-d", IP_VERSION_SPECIFIC] +
        (["-p", "tcp", "-o", "lo"] + (["-m", "owner", OwnerFlag(uid), owner] + ["-j", "MARK", "--set-mark", OUTBOUND_MARK])),
        MarkTemplate(Owner(uid, owner)));
    }

    method AppendMarkRules()
      requires iptables.Valid()
      modifies iptables
      ensures Added(old(iptables.calls4), old(iptables.calls6), TproxyAppends(cfg, V4), TproxyAppends(cfg, V6))
    {
      var mark := cfg.inboundTProxyMark;
      SaveMarkTokens(mark);
      iptables.AppendRule(UNDEFINED_COMMAND, PREROUTING, MANGLE,
        ["-p", "tcp"] + (["-m", "mark", "--mark", mark] + ["-j", "CONNMARK", "--save-mark"]), SaveMarkRule(mark));
      ghost var save := [AppendCall(UNDEFINED_COMMAND, PREROUTING, MANGLE, SaveMarkRule(mark))];
      FillMangleOutput();
      Assoc(old(iptables.calls4), save, Calls(UNDEFINED_COMMAND, OUTPUT, MANGLE, TproxyOutputRules(cfg, V4)));
      Assoc(old(iptables.calls6), save, Calls(UNDEFINED_COMMAND, OUTPUT, MANGLE, TproxyOutputRules(cfg, V6)));
    }

    method FillMangleOutput()
      requires iptables.Valid()
      modifies iptables
      ensures Added(old(iptables.calls4), old(iptables.calls6),
                    Calls(UNDEFINED_COMMAND, OUTPUT, MANGLE, TproxyOutputRules(cfg, V4)),
                    Calls(UNDEFINED_COMMAND, OUTPUT, MANGLE, TproxyOutputRules(cfg, V6)))
    {
      ReturnMarked();
      MarkOwners(cfg.Uids(), true);
      MangleJoin(old(iptables.calls4), [MarkedLoopbackRule(cfg.inboundTProxyMark)], FlatMap(cfg.Uids(), MarkUid(V4)));
      MangleJoin(old(iptables.calls6), [MarkedLoopbackRule(cfg.inboundTProxyMark)], FlatMap(cfg.Uids(), MarkUid(V6)));
      MarkOwners(cfg.Gids(), false);
      MangleJoin(old(iptables.calls4), [MarkedLoopbackRule(cfg.inboundTProxyMark)] + FlatMap(cfg.Uids(), MarkUid(V4)),
                 FlatMap(cfg.Gids(), MarkGid(V4)));
      MangleJoin(old(iptables.calls6), [MarkedLoopbackRule(cfg.inboundTProxyMark)] + FlatMap(cfg.Uids(), MarkUid(V6)),
                 FlatMap(cfg.Gids(), MarkGid(V6)));
      RestoreMarks();
      MangleJoin(old(iptables.calls4), [MarkedLoopbackRule(cfg.inboundTProxyMark)] + FlatMap(cfg.Uids(), MarkUid(V4)) +
                 FlatMap(cfg.Gids(), MarkGid(V4)), [RestoreMarkRule(cfg.inboundTProxyMark)]);
      MangleJoin(old(iptables.calls6), [MarkedLoopbackRule(cfg.inboundTProxyMark)] + FlatMap(cfg.Uids(), MarkUid(V6)) +
                 FlatMap(cfg.Gids(), MarkGid(V6)), [RestoreMarkRule(cfg.inboundTProxyMark)]);
    }

    method ReturnMarked()
      requires iptables.Valid()
      modifies iptables
      ensures var added := Calls(UNDEFINED_COMMAND, OUTPUT, MANGLE, [MarkedLoopbackRule(cfg.inboundTProxyMark)]);
              Added(old(iptables.calls4), old(iptables.calls6), added, added)
    {
      MarkedReturnTokens(cfg.inboundTProxyMark);
      CallsOne(UNDEFINED_COMMAND, OUTPUT, MANGLE, MarkedLoopbackRule(cfg.inboundTProxyMark));
      iptables.AppendRule(UNDEFINED_COMMAND, OUTPUT, MANGLE,
        ["-p", "tcp", "-o", "lo"] + (["-m", "mark", "--mark", cfg.inboundTProxyMark] + ["-j", "RETURN"]),
        MarkedLoopbackRule(cfg.inboundTProxyMark));
    }

    method RestoreMarks()
      requires iptables.Valid()
      modifies iptables
      ensures var added := Calls(UNDEFINED_COMMAND, OUTPUT, MANGLE, [RestoreMarkRule(cfg.inboundTProxyMark)]);
              Added(old(iptables.calls4), old(iptables.calls6), added, added)
    {
      RestoreMarkTokens(cfg.inboundTProxyMark);
      CallsOne(UNDEFINED_COMMAND, OUTPUT, MANGLE, RestoreMarkRule(cfg.inboundTProxyMark));
      iptables.AppendRule(UNDEFINED_COMMAND, OUTPUT, MANGLE,
        ["-p", "tcp"] + (["-m", "connmark", "--mark", cfg.inboundTProxyMark] + ["-j", "CONNMARK", "--restore-mark"]),
        RestoreMarkRule(cfg.inboundTProxyMark));
    }

    method InsertInboundReturns()
      requires iptables.Valid()
      modifies iptables
      ensures Added(old(iptables.calls4), old(iptables.calls6), TproxyInserts(cfg, V4), TproxyInserts(cfg, V6))
    {
      InsertMarkedReturn();
      InsertPassthroughReturn();
      InsertUnmarkedReturn();
      Triple(old(iptables.calls4), TproxyInserts(cfg, V4));
      Triple(old(iptables.calls6), TproxyInserts(cfg, V6));
    }

    method InsertMarkedReturn()
      requires iptables.Valid()
      modifies iptables
      ensures var added := [InsertCall(UNDEFINED_COMMAND, ISTIO_INBOUND, MANGLE, 1, MarkedInboundRule(cfg.inboundTProxyMark))];
              Added(old(iptables.calls4), old(iptables.calls6), added, added)
    {
      MarkedReturnTokens(cfg.inboundTProxyMark);
      iptables.InsertRule(UNDEFINED_COMMAND, ISTIO_INBOUND, MANGLE, 1,
        ["-p", "tcp"] + (["-m", "mark", "--mark", cfg.inboundTProxyMark] + ["-j", "RETURN"]),
        MarkedInboundRule(cfg.inboundTProxyMark));
    }

    method InsertPassthroughReturn()
      requires iptables.Valid()
      modifies iptables
      ensures Added(old(iptables.calls4), old(iptables.calls6),
                    [InsertCall(UNDEFINED_COMMAND, ISTIO_INBOUND, MANGLE, 2, FromPassthroughRule("127.0.0.6/32"))],
                    [InsertCall(UNDEFINED_COMMAND, ISTIO_INBOUND, MANGLE, 2, FromPassthroughRule("::6/128"))])
    {
      FromPassthroughTokens("127.0.0.6/32");
      FromPassthroughTokens("::6/128");
      iptables.InsertRuleV4(UNDEFINED_COMMAND, ISTIO_INBOUND, MANGLE, 2,
        ["-p", "tcp", "-s", "127.0.0.6/32"] + (["-i", "lo"] + ["-j", "RETURN"]), FromPassthroughRule("127.0.0.6/32"));
      iptables.InsertRuleV6(UNDEFINED_COMMAND, ISTIO_INBOUND, MANGLE, 2,
        ["-p", "tcp", "-s", "::6/128"] + (["-i", "lo"] + ["-j", "RETURN"]), FromPassthroughRule("::6/128"));
    }

    method InsertUnmarkedReturn()
      requires iptables.Valid()
      modifies iptables
      ensures var added := [InsertCall(UNDEFINED_COMMAND, ISTIO_INBOUND, MANGLE, 3, UnmarkedLoopbackRule())];
              Added(old(iptables.calls4), old(iptables.calls6), added, added)
    {
      UnmarkedLoopbackTokens();
      iptables.InsertRule(UNDEFINED_COMMAND, ISTIO_INBOUND, MANGLE, 3,
        ["-p", "tcp", "-i", "lo"] + (["-m", "mark", "!", "--mark", OUTBOUND_MARK] + ["-j", "RETURN"]), UnmarkedLoopbackRule());
    }

    // ---------------------------------------------------------------- the run

    method DropInvalid()
      requires iptables.Valid()
      modifies iptables
      ensures Added(old(iptables.calls4), old(iptables.calls6), DropInvalidCalls(cfg), DropInvalidCalls(cfg))
    {
      if cfg.dropInvalid {
        DropInvalidTokens();
        iptables.AppendRule(UNDEFINED_COMMAND, PREROUTING, MANGLE, ["-m", "conntrack", "--ctstate", "INVALID", "-j", "DROP"],
                            Rule([Is(CtState("INVALID"))], Drop));
      } else {
        Nothing(iptables.calls4, iptables.calls6);
      }
    }

    method CreateBaseChains()
      requires iptables.Valid()
      modifies iptables
      ensures Added(old(iptables.calls4), old(iptables.calls6), BaseCalls(cfg), BaseCalls(cfg))
    {
      TcpPortTokens(cfg.inboundTunnelPort, "RETURN", Return);
      TcpRedirectTokens(cfg.proxyPort);
      TcpRedirectTokens(cfg.inboundCapturePort);
      iptables.AppendRule(UNDEFINED_COMMAND, ISTIO_INBOUND, NAT, ["-p", "tcp", "--dport", cfg.inboundTunnelPort, "-j", "RETURN"],
                          TcpPortRule(cfg.inboundTunnelPort, Return));
      iptables.AppendRule(UNDEFINED_COMMAND, ISTIO_REDIRECT, NAT, ["-p", "tcp", "-j", "REDIRECT", "--to-ports", cfg.proxyPort],
                          TcpRule(Redirect("--to-ports", cfg.proxyPort)));
      iptables.AppendRule(INBOUND_CAPTURE, ISTIO_IN_REDIRECT, NAT, ["-p", "tcp", "-j", "REDIRECT", "--to-ports", cfg.inboundCapturePort],
                          TcpRule(Redirect("--to-ports", cfg.inboundCapturePort)));
      Triple(old(iptables.calls4), BaseCalls(cfg));
      Triple(old(iptables.calls6), BaseCalls(cfg));
    }

    method JumpToOutput()
      requires iptables.Valid()
      modifies iptables
      ensures var added := [AppendCall(JUMP_OUTBOUND, OUTPUT, NAT, TcpRule(Jump(ISTIO_OUTPUT)))];
              Added(old(iptables.calls4), old(iptables.calls6), added, added)
    {
      TcpTokens(ISTIO_OUTPUT, Jump(ISTIO_OUTPUT));
      iptables.AppendRule(JUMP_OUTBOUND, OUTPUT, NAT, ["-p", "tcp", "-j", ISTIO_OUTPUT], TcpRule(Jump(ISTIO_OUTPUT)));
    }

    method RedirectUdpDns(ext: Dependencies)
      requires iptables.Valid()
      modifies iptables, ext
      ensures Added(old(iptables.calls4), old(iptables.calls6), DnsUdpCalls(cfg, V4, hosts4, hosts6), DnsUdpCalls(cfg, V6, hosts4, hosts6))
      ensures ext.executed == old(ext.executed) && ext.restored == old(ext.restored)
    {
      Nothing(iptables.calls4, iptables.calls6);
      if cfg.redirectDNS {
        var f := new UDPRuleApplier(iptables, ext, false, "");
        var filter := cfg.Filter();
        f.HandleDNSUDP(cfg.Uids(), cfg.Gids(), hosts4, hosts6, cfg.captureAllDNS, filter);
      }
    }

    /** The builder holds exactly the calls of some phases, from an empty start. */
    ghost predicate Done(phases: seq<Phase>)
      reads iptables
    {
      Planned() && Added([], [], FlatMap(phases, plan4), FlatMap(phases, plan6))
    }

    /** One more phase. */
    lemma Advance(before4: seq<Call>, before6: seq<Call>, phases: seq<Phase>, phase: Phase)
      requires Planned()
      requires before4 == [] + FlatMap(phases, plan4) && before6 == [] + FlatMap(phases, plan6)
      requires Added(before4, before6, PhaseCalls(input, V4, phase), PhaseCalls(input, V6, phase))
      ensures Done(phases + [phase])
    {
      PlanOf(phase);
      FlatMapPush(phases, plan4, phase);
      FlatMapPush(phases, plan6, phase);
      Assoc([], FlatMap(phases, plan4), plan4(phase));
      Assoc([], FlatMap(phases, plan6), plan6(phase));
    }

    lemma PlanOf(phase: Phase)
      requires Planned()
      ensures plan4(phase) == PhaseCalls(input, V4, phase) && plan6(phase) == PhaseCalls(input, V6, phase)
    {
    }

    method RecordExcludedInterfaces(ghost done: seq<Phase>)
      requires Done(done)
      modifies iptables
      ensures Done(done + [ExcludedInterfaces])
    {
      ShortCircuitExcludeInterfaces();
      Advance(old(iptables.calls4), old(iptables.calls6), done, ExcludedInterfaces);
    }

    method RecordKubeReturns(ghost done: seq<Phase>)
      requires Done(done)
      modifies iptables
      ensures Done(done + [KubeReturns])
    {
      ShortCircuitKubeInternalInterface();
      Advance(old(iptables.calls4), old(iptables.calls6), done, KubeReturns);
    }

    method RecordInvalidDrops(ghost done: seq<Phase>)
      requires Done(done)
      modifies iptables
      ensures Done(done + [InvalidDrops])
    {
      DropInvalid();
      Advance(old(iptables.calls4), old(iptables.calls6), done, InvalidDrops);
    }

    method RecordBaseChains(ghost done: seq<Phase>)
      requires Done(done)
      modifies iptables
      ensures Done(done + [BaseChains])
    {
      CreateBaseChains();
      Advance(old(iptables.calls4), old(iptables.calls6), done, BaseChains);
    }

    method RecordInboundPorts(ghost done: seq<Phase>)
      requires Done(done)
      modifies iptables
      ensures Done(done + [InboundPorts])
    {
      HandleInboundPortsInclude();
      Advance(old(iptables.calls4), old(iptables.calls6), done, InboundPorts);
    }

    method RecordOutputJump(ghost done: seq<Phase>)
      requires Done(done)
      modifies iptables
      ensures Done(done + [OutputJump])
    {
      JumpToOutput();
      Advance(old(iptables.calls4), old(iptables.calls6), done, OutputJump);
    }

    method FillOutput(exclude4: NetworkRange, exclude6: NetworkRange, skipLoopback: bool)
      requires iptables.Valid() && Planned() && skipLoopback == input.skipLoopback
      requires exclude4 == input.exclude4 && exclude6 == input.exclude6
      modifies iptables
      ensures Added(old(iptables.calls4), old(iptables.calls6), PhaseCalls(input, V4, OutputChain), PhaseCalls(input, V6, OutputChain))
    {
      FillOutputChain(skipLoopback, exclude4, exclude6);
      SameSegments(V4, segment4);
      SameSegments(V6, segment6);
      OutputPhase(input, V4);
      OutputPhase(input, V6);
    }

    method RecordOutputChain(ghost done: seq<Phase>, exclude4: NetworkRange, exclude6: NetworkRange, skipLoopback: bool)
      requires Done(done)
      requires skipLoopback == input.skipLoopback
      requires exclude4 == input.exclude4 && exclude6 == input.exclude6
      modifies iptables
      ensures Done(done + [OutputChain])
    {
      FillOutput(exclude4, exclude6, skipLoopback);
      Advance(old(iptables.calls4), old(iptables.calls6), done, OutputChain);
    }

    method IncludeBoth(include4: NetworkRange, include6: NetworkRange)
      requires iptables.Valid()
      modifies iptables
      ensures Added(old(iptables.calls4), old(iptables.calls6), IncludeCalls(cfg, include4), IncludeCalls(cfg, include6))
    {
      HandleOutboundIncludeRules(V4, include4);
      HandleOutboundIncludeRules(V6, include6);
      Nothing(old(iptables.calls4) + IncludeCalls(cfg, include4), old(iptables.calls6));
    }

    lemma PlanIncluded()
      requires Planned()
      ensures plan4(IncludedRanges) == IncludeCalls(cfg, input.include4)
      ensures plan6(IncludedRanges) == IncludeCalls(cfg, input.include6)
    {
      IncludedPhase(input, V4);
      IncludedPhase(input, V6);
    }

    method RecordIncludedRanges(ghost done: seq<Phase>, include4: NetworkRange, include6: NetworkRange)
      requires Done(done)
      requires include4 == input.include4 && include6 == input.include6
      modifies iptables
      ensures Done(done + [IncludedRanges])
    {
      PlanIncluded();
      IncludeBoth(include4, include6);
      Advance(old(iptables.calls4), old(iptables.calls6), done, IncludedRanges);
    }

    method RecordUdpDns(ghost done: seq<Phase>, ext: Dependencies)
      requires Done(done)
      modifies iptables, ext
      ensures Done(done + [UdpDns])
      ensures ext.executed == old(ext.executed) && ext.restored == old(ext.restored)
    {
      RedirectUdpDns(ext);
      Advance(old(iptables.calls4), old(iptables.calls6), done, UdpDns);
    }

    method MarkTraffic()
      requires iptables.Valid() && input.cfg == cfg
      modifies iptables
      ensures Added(old(iptables.calls4), old(iptables.calls6), PhaseCalls(input, V4, TproxyMarks), PhaseCalls(input, V6, TproxyMarks))
    {
      Nothing(iptables.calls4, iptables.calls6);
      if cfg.inboundInterceptionMode == TPROXY_MODE {
        AppendMarkRules();
      }
    }

    method RecordTproxyMarks(ghost done: seq<Phase>)
      requires Done(done)
      modifies iptables
      ensures Done(done + [TproxyMarks])
    {
      MarkTraffic();
      Advance(old(iptables.calls4), old(iptables.calls6), done, TproxyMarks);
    }

    method ReturnMarkedTraffic()
      requires iptables.Valid() && input.cfg == cfg
      modifies iptables
      ensures Added(old(iptables.calls4), old(iptables.calls6), PhaseCalls(input, V4, TproxyReturns), PhaseCalls(input, V6, TproxyReturns))
    {
      Nothing(iptables.calls4, iptables.calls6);
      if cfg.inboundInterceptionMode == TPROXY_MODE {
        InsertInboundReturns();
      }
    }

    method RecordTproxyReturns(ghost done: seq<Phase>)
      requires Done(done)
      modifies iptables
      ensures Done(done + [TproxyReturns])
    {
      ReturnMarkedTraffic();
      Advance(old(iptables.calls4), old(iptables.calls6), done, TproxyReturns);
    }

    /** The body of Run. */
    method Configure(ext: Dependencies, restoreFormat: bool) returns (ok: bool)
      requires iptables.Valid() && iptables.calls4 == [] && iptables.calls6 == []
      requires input == SetupOf(cfg, parse) && Planned()
      requires iptables.traceLogging == cfg.traceLogging && iptables.enableInboundIPv6 == cfg.enableInboundIPv6
      modifies iptables, ext
      ensures ok <==> cfg.outboundIPRangesExclude != "*"
      ensures !ok ==> ext.executed == old(ext.executed) && ext.restored == old(ext.restored)
      ensures ok ==> Applies(old(ext.executed), ext.executed, old(ext.restored), ext.restored, restoreFormat,
                             RunEntries(input, V4), RunEntries(input, V6))
    {
      var exclude4, exclude6 := SeparateV4V6(cfg.outboundIPRangesExclude);
      if exclude4.isWildcard {
        return false;
      }
      var include4, include6 := SeparateV4V6(cfg.outboundIPRangesInclude);
      RecordInterfaces();
      RecordInbound();
      RecordOutbound(ext, exclude4, exclude6, include4, include6, !include4.hasLoopBackIP && !include6.hasLoopBackIP);
      HoldsEntries();
      ExecuteCommands(ext, restoreFormat);
      return true;
    }

    /** The listings Run ends with. */
    function Saves(): seq<seq<string>> {
      [["iptables-save"]] + (if cfg.enableInboundIPv6 then [["ip6tables-save"]] else [])
    }

    /**
     Run: the rules, and then, deferred and so even after a panic, the listings. `ran` is what was executed
     before them; `ok` is false when the source panics on a wildcard exclusion, with nothing recorded or applied.
     */
    method Run(ext: Dependencies, restoreFormat: bool) returns (ok: bool, ghost ran: seq<seq<string>>)
      requires iptables.Valid() && iptables.calls4 == [] && iptables.calls6 == []
      requires input == SetupOf(cfg, parse) && Planned()
      requires iptables.traceLogging == cfg.traceLogging && iptables.enableInboundIPv6 == cfg.enableInboundIPv6
      modifies iptables, ext
      ensures ext.executed == ran + Saves()
      ensures ok <==> cfg.outboundIPRangesExclude != "*"
      ensures !ok ==> ran == old(ext.executed) && ext.restored == old(ext.restored)
      ensures ok ==> Applies(old(ext.executed), ran, old(ext.restored), ext.restored, restoreFormat,
                             RunEntries(input, V4), RunEntries(input, V6))
    {
      ok := Configure(ext, restoreFormat);
      ran := ext.executed;
      ext.RunQuietlyAndIgnore(["iptables-save"]);
      if cfg.enableInboundIPv6 {
        ext.RunQuietlyAndIgnore(["ip6tables-save"]);
      }
      assert ran + [["iptables-save"]] + [["ip6tables-save"]] == ran + [["iptables-save"], ["ip6tables-save"]];
    }

    method RecordInterfaces()
      requires iptables.Valid() && iptables.calls4 == [] && iptables.calls6 == [] && Planned()
      modifies iptables
      ensures Done([ExcludedInterfaces, KubeReturns])
    {
      RecordExcludedInterfaces([]);
      RecordKubeReturns([] + [ExcludedInterfaces]);
      assert [] + [ExcludedInterfaces] + [KubeReturns] == [ExcludedInterfaces, KubeReturns];
    }

    method RecordInbound()
      requires Done([ExcludedInterfaces, KubeReturns])
      modifies iptables
      ensures Done([ExcludedInterfaces, KubeReturns, InvalidDrops, BaseChains, InboundPorts])
    {
      ghost var done := [ExcludedInterfaces, KubeReturns];
      RecordInvalidDrops(done);
      RecordBaseChains(done + [InvalidDrops]);
      RecordInboundPorts(done + [InvalidDrops] + [BaseChains]);
      assert done + [InvalidDrops] + [BaseChains] + [InboundPorts] ==
        [ExcludedInterfaces, KubeReturns, InvalidDrops, BaseChains, InboundPorts];
    }

    method RecordTproxy(ghost done: seq<Phase>)
      requires Done(done)
      modifies iptables
      ensures Done(done + [TproxyMarks] + [TproxyReturns])
    {
      RecordTproxyMarks(done);
      RecordTproxyReturns(done + [TproxyMarks]);
    }

    method RecordOutbound(ext: Dependencies, exclude4: NetworkRange, exclude6: NetworkRange,
                          include4: NetworkRange, include6: NetworkRange, skipLoopback: bool)
      requires skipLoopback == input.skipLoopback
      requires Done([ExcludedInterfaces, KubeReturns, InvalidDrops, BaseChains, InboundPorts])
      requires exclude4 == input.exclude4 && exclude6 == input.exclude6
      requires include4 == input.include4 && include6 == input.include6
      modifies iptables, ext
      ensures Done(Phases())
      ensures ext.executed == old(ext.executed) && ext.restored == old(ext.restored)
    {
      ghost var done := [ExcludedInterfaces, KubeReturns, InvalidDrops, BaseChains, InboundPorts];
      RecordOutputJump(done);
      RecordOutputChain(done + [OutputJump], exclude4, exclude6, skipLoopback);
      RecordIncludedRanges(done + [OutputJump] + [OutputChain], include4, include6);
      RecordUdpDns(done + [OutputJump] + [OutputChain] + [IncludedRanges], ext);
      RecordTproxy(done + [OutputJump] + [OutputChain] + [IncludedRanges] + [UdpDns]);
      assert done + [OutputJump] + [OutputChain] + [IncludedRanges] + [UdpDns] + [TproxyMarks] + [TproxyReturns] == Phases();
    }

    /** What a valid builder holds after all phases. */
    lemma HoldsEntries()
      requires Done(Phases())
      requires iptables.traceLogging == cfg.traceLogging && iptables.enableInboundIPv6 == cfg.enableInboundIPv6
      ensures iptables.rulesv4 == RunEntries(input, V4) && iptables.rulesv6 == RunEntries(input, V6)
    {
      SamePlan(V4, plan4);
      SamePlan(V6, plan6);
      iptables.RulesRecorded();
      NothingBefore(RunCalls(input, V4), RunCalls(input, V6));
    }

    lemma SameSegments(fam: Family, segment: Segment -> seq<Rule>)
      requires forall x {:trigger SegmentRules(input, fam, x)} :: segment(x) == SegmentRules(input, fam, x)
      ensures FlatMap(Segments(), segment) == OutputRules(input, fam)
    {
      forall x | x in Segments() ensures segment(x) == RulesOf(input, fam)(x) {
        assert segment(x) == SegmentRules(input, fam, x);
      }
      FlatMapSame(Segments(), segment, RulesOf(input, fam));
    }

    lemma SamePlan(fam: Family, plan: Phase -> seq<Call>)
      requires forall phase {:trigger PhaseCalls(input, fam, phase)} :: plan(phase) == PhaseCalls(input, fam, phase)
      ensures FlatMap(Phases(), plan) == RunCalls(input, fam)
    {
      forall phase | phase in Phases() ensures plan(phase) == CallsOf(input, fam)(phase) {
        assert plan(phase) == PhaseCalls(input, fam, phase);
      }
      FlatMapSame(Phases(), plan, CallsOf(input, fam));
    }

    method ExecuteCommands(ext: Dependencies, restoreFormat: bool)
      modifies ext
      ensures Applies(old(ext.executed), ext.executed, old(ext.restored), ext.restored, restoreFormat,
                      iptables.rulesv4, iptables.rulesv6)
    {
      if restoreFormat {
        var lines4, order4 := iptables.BuildRestore(iptables.rulesv4);
        ext.RestoreOrFail("iptables-restore", lines4);
        var lines6, order6 := iptables.BuildRestore(iptables.rulesv6);
        ext.RestoreOrFail("ip6tables-restore", lines6);
        PairUp(old(ext.restored), ("iptables-restore", lines4), ("ip6tables-restore", lines6));
        assert RestoredWith(old(ext.restored), ext.restored, iptables.rulesv4, iptables.rulesv6, order4, order6);
      } else {
        var lines4 := iptables.BuildV4();
        ExecuteIptablesCommands(ext, lines4);
        var lines6 := iptables.BuildV6();
        ExecuteIptablesCommands(ext, lines6);
      }
    }

    method ExecuteIptablesCommands(ext: Dependencies, commands: seq<seq<string>>)
      modifies ext
      ensures ext.executed == old(ext.executed) + commands && ext.restored == old(ext.restored)
    {
      for i := 0 to |commands|
        invariant ext.executed == old(ext.executed) + commands[..i] && ext.restored == old(ext.restored)
      {
        ext.RunOrFail(commands[i]);
      }
    }
  }
}
