/** The main theorems on arriving packets: which of them the nat and mangle tables send to the proxy. */
module Inbound {
  import opened Sequences
  import opened Netfilter
  import opened Builder
  import opened Capture
  import opened NeverFails
  import opened Tracing
  import opened Contents
  import opened Outbound
  import opened Traffic
  import opened CaptureTheorems
  import opened InboundContents
  import Text

  // ---------------------------------------------------------------- what should happen

  /** From one of the virtual machine interfaces. */
  predicate FromKube(cfg: Config, p: Packet) {
    exists i :: i in Text.Fields(cfg.kubeVirtInterfaces) && p(InInterface(i))
  }

  predicate FromExcluded(cfg: Config, p: Packet) { PastExcluded(cfg, PREROUTING, p) }

  /** To a port whose traffic the configuration wants captured. */
  predicate ToCapturedPort(cfg: Config, p: Packet) {
    if cfg.inboundPortsInclude == "*" then !ToPort(Text.Fields(cfg.inboundPortsExclude), p)
    else ToPort(Text.Fields(cfg.inboundPortsInclude), p)
  }

  predicate InRanges(range: NetworkRange, p: Packet) {
    range.isWildcard || ToAny(range.ipNets, p)
  }

  /** The verdict of nat PREROUTING: a virtual machine's traffic is outbound, the rest is inbound. */
  function NatWanted(s: Setup, fam: Family, p: Packet): Verdict {
    if !p(Protocol("tcp")) then Accepted
    else if FromKube(s.cfg, p) then
      if InRanges(s.Included(fam), p) then Redirected(s.cfg.proxyPort) else Accepted
    else if FromExcluded(s.cfg, p) || s.cfg.UsesTproxy() || !ToCapturedPort(s.cfg, p) || p(DestPort(s.cfg.inboundTunnelPort)) then
      Accepted
    else
      Redirected(s.cfg.inboundCapturePort)
  }

  /** Already marked; or looped back, either by the passthrough cluster or without the mark of the proxy. */
  predicate Spared(cfg: Config, fam: Family, p: Packet) {
    || p(Mark(cfg.inboundTProxyMark))
    || (p(InInterface("lo")) && (p(Source(PassthroughSource(fam))) || !p(Mark(OUTBOUND_MARK))))
  }

  /** A packet of a new connection to another address than the loopback one. */
  predicate Divertible(fam: Family, p: Packet) {
    !p(CtState(ESTABLISHED)) && !p(Destination(Loopback(fam)))
  }

  function Diverted(cfg: Config, fam: Family): Verdict {
    Proxied(Sub(Loopback(fam), cfg.inboundTProxyMark + "/0xffffffff"), Sub(Loopback(fam), cfg.inboundCapturePort))
  }

  /** The verdict of mangle PREROUTING. */
  function MangleWanted(s: Setup, fam: Family, p: Packet): Verdict {
    if s.cfg.UsesTproxy() && FromExcluded(s.cfg, p) then Accepted
    else if s.cfg.dropInvalid && p(CtState("INVALID")) then Dropped
    else if s.cfg.UsesTproxy() && p(Protocol("tcp")) && ToCapturedPort(s.cfg, p) && !Spared(s.cfg, fam, p) && Divertible(fam, p) then
      Diverted(s.cfg, fam)
    else Accepted
  }

  lemma NoPorts(cfg: Config, p: Packet)
    requires cfg.inboundPortsInclude == ""
    ensures !ToCapturedPort(cfg, p)
  {
    assert Text.Fields("") == [];
  }

  // ---------------------------------------------------------------- virtual machine interfaces

  lemma KubeReturnsOutcome(fw: Firewall, s: Setup, fam: Family, p: Packet, depth: nat)
    ensures Eval(fw, NAT, Heads(ARRIVING, PhaseCalls(s, fam, KubeReturns)), p, depth) ==
            if FromKube(s.cfg, p) then Returned(p) else Ended(p)
  {
    var rules := Heads(ARRIVING, PhaseCalls(s, fam, KubeReturns));
    forall r ensures r in rules <==> exists i :: i in Text.Fields(s.cfg.kubeVirtInterfaces) && r == Rule([Is(InInterface(i))], Return) {
      KubeReturnHeads(s, fam, r);
    }
    KubeReturnsUniform(fw, s.cfg, rules, p, depth);
  }

  lemma KubeReturnsUniform(fw: Firewall, cfg: Config, rules: seq<Rule>, p: Packet, depth: nat)
    requires forall r :: r in rules <==> exists i :: i in Text.Fields(cfg.kubeVirtInterfaces) && r == Rule([Is(InInterface(i))], Return)
    ensures Eval(fw, NAT, rules, p, depth) == if FromKube(cfg, p) then Returned(p) else Ended(p)
  {
    forall i ensures Matches(Rule([Is(InInterface(i))], Return).conds, p) <==> p(InInterface(i)) {
      var r := Rule([Is(InInterface(i))], Return);
      assert r.conds[0] in r.conds;
    }
    if FromKube(cfg, p) {
      var i :| i in Text.Fields(cfg.kubeVirtInterfaces) && p(InInterface(i));
      assert Rule([Is(InInterface(i))], Return) in rules;
    }
    EvalUniform(fw, NAT, rules, Return, p, depth);
  }

  lemma KubeRedirectMatches(cfg: Config, range: NetworkRange, p: Packet)
    ensures (exists r :: KubeRedirect(cfg, range, r) && Matches(r.conds, p)) <==> FromKube(cfg, p) && InRanges(range, p)
  {
    if r :| KubeRedirect(cfg, range, r) && Matches(r.conds, p) {
      assert r.conds[0] in r.conds;
      if !range.isWildcard {
        assert r.conds[1] in r.conds;
      }
    }
    if FromKube(cfg, p) && InRanges(range, p) {
      var r := KubeRedirectFor(cfg, range, p);
    }
  }

  lemma KubeRedirectFor(cfg: Config, range: NetworkRange, p: Packet) returns (r: Rule)
    requires FromKube(cfg, p) && InRanges(range, p)
    ensures KubeRedirect(cfg, range, r) && Matches(r.conds, p)
  {
    var i :| i in Text.Fields(cfg.kubeVirtInterfaces) && p(InInterface(i));
    if range.isWildcard {
      r := Rule([Is(InInterface(i))], Jump(ISTIO_REDIRECT));
    } else {
      var cidr :| cidr in range.ipNets && p(Destination(cidr));
      r := Rule([Is(InInterface(i)), Is(Destination(cidr))], Jump(ISTIO_REDIRECT));
    }
  }

  /** Jumps to a chain that leaves the packet alone. */
  lemma {:induction false} EvalIdleJumps(fw: Firewall, table: string, rules: seq<Rule>, chain: string, p: Packet, depth: nat)
    requires depth > 0 && ChainId(table, chain) in fw
    requires forall r :: r in rules ==> r.target == Jump(chain)
    requires Eval(fw, table, fw[ChainId(table, chain)], p, depth - 1) == Ended(p)
    ensures Eval(fw, table, rules, p, depth) == Ended(p)
    decreases |rules|
  {
    if rules != [] {
      assert rules[0] in rules;
      EvalIdleJumps(fw, table, rules[1..], chain, p, depth);
    }
  }

  lemma KubeRedirectsOutcome(fw: Firewall, s: Setup, fam: Family, p: Packet, depth: nat)
    requires depth > 0 && Redirecting(fw, s.cfg)
    ensures Eval(fw, NAT, Heads(ARRIVING, PhaseCalls(s, fam, IncludedRanges)), p, depth) ==
            if p(Protocol("tcp")) && FromKube(s.cfg, p) && InRanges(s.Included(fam), p) then Decided(Redirected(s.cfg.proxyPort), p) else Ended(p)
  {
    var rules := Heads(ARRIVING, PhaseCalls(s, fam, IncludedRanges));
    forall r ensures r in rules <==> KubeRedirect(s.cfg, s.Included(fam), r) {
      KubeRedirectHeads(s, fam, r);
    }
    KubeRedirectMatches(s.cfg, s.Included(fam), p);
    EvalRedirect(fw, ISTIO_REDIRECT, s.cfg.proxyPort, p, depth - 1);
    if p(Protocol("tcp")) {
      EvalUniformJump(fw, NAT, rules, ISTIO_REDIRECT, Redirected(s.cfg.proxyPort), p, depth);
    } else {
      EvalIdleJumps(fw, NAT, rules, ISTIO_REDIRECT, p, depth);
    }
  }

  // ---------------------------------------------------------------- nat ISTIO_INBOUND

  lemma ReturnedPorts(fw: Firewall, table: string, ports: seq<string>, p: Packet, depth: nat)
    requires p(Protocol("tcp"))
    ensures Eval(fw, table, FlatMap(ports, TcpPorts(Return)), p, depth) == if ToPort(ports, p) then Returned(p) else Ended(p)
  {
    PortTargets(ports, Return);
    PortMatches(ports, Return, p);
    EvalUniform(fw, table, FlatMap(ports, TcpPorts(Return)), Return, p, depth);
  }

  lemma TcpMatches(t: Target, p: Packet)
    ensures Matches(TcpRule(t).conds, p) <==> p(Protocol("tcp"))
  {
    assert TcpRule(t).conds[0] in TcpRule(t).conds;
  }

  lemma PortRuleMatches(port: string, t: Target, p: Packet)
    ensures Matches(TcpPortRule(port, t).conds, p) <==> p(Protocol("tcp")) && p(DestPort(port))
  {
    var r := TcpPortRule(port, t);
    assert r.conds[0] in r.conds && r.conds[1] in r.conds;
  }

  /** What the rules for the included ports do in the nat table. */
  lemma NatPortsOutcome(fw: Firewall, cfg: Config, p: Packet, depth: nat)
    requires p(Protocol("tcp")) && depth > 0 && !cfg.UsesTproxy() && RedirectsTcp(fw, ISTIO_IN_REDIRECT, cfg.inboundCapturePort)
    ensures var o := Eval(fw, NAT, PortRules(cfg), p, depth);
            if ToCapturedPort(cfg, p) then o == Decided(Redirected(cfg.inboundCapturePort), p) else o == Ended(p) || o == Returned(p)
  {
    var t := Jump(ISTIO_IN_REDIRECT);
    EvalRedirect(fw, ISTIO_IN_REDIRECT, cfg.inboundCapturePort, p, depth - 1);
    if cfg.inboundPortsInclude == "*" {
      var ports := Text.Fields(cfg.inboundPortsExclude);
      ReturnedPorts(fw, NAT, ports, p, depth);
      TcpMatches(t, p);
      EvalJump(fw, NAT, TcpRule(t), p, depth);
      EvalConcat(fw, NAT, FlatMap(ports, TcpPorts(Return)), [TcpRule(t)], p, depth);
    } else {
      var ports := Text.Fields(cfg.inboundPortsInclude);
      PortTargets(ports, t);
      PortMatches(ports, t, p);
      EvalUniformJump(fw, NAT, FlatMap(ports, TcpPorts(t)), ISTIO_IN_REDIRECT, Redirected(cfg.inboundCapturePort), p, depth);
    }
  }

  /** The nat inbound chain: the tunnel port is let through, the captured ports are redirected. */
  lemma NatInboundOutcome(fw: Firewall, cfg: Config, p: Packet, depth: nat)
    requires p(Protocol("tcp")) && depth > 0 && !cfg.UsesTproxy() && RedirectsTcp(fw, ISTIO_IN_REDIRECT, cfg.inboundCapturePort)
    ensures var o := Eval(fw, NAT, [TcpPortRule(cfg.inboundTunnelPort, Return)] + PortRules(cfg), p, depth);
            if ToCapturedPort(cfg, p) && !p(DestPort(cfg.inboundTunnelPort)) then o == Decided(Redirected(cfg.inboundCapturePort), p)
            else o == Ended(p) || o == Returned(p)
  {
    var r := TcpPortRule(cfg.inboundTunnelPort, Return);
    PortRuleMatches(cfg.inboundTunnelPort, Return, p);
    EvalOne(fw, NAT, r, p, depth);
    NatPortsOutcome(fw, cfg, p, depth);
    EvalConcat(fw, NAT, [r], PortRules(cfg), p, depth);
  }

  // ---------------------------------------------------------------- nat PREROUTING

  /** What the inbound rules of a PREROUTING chain are: the jump to the inbound chain, in the table of the mode. */
  lemma JumpRules(cfg: Config, fam: Family, table: string)
    requires table in {NAT, MANGLE}
    ensures InboundRules(cfg, fam, ChainId(table, PREROUTING)) ==
            if cfg.inboundPortsInclude != "" && table == InboundTable(cfg) then [TcpRule(Jump(ISTIO_INBOUND))] else []
  {
    DivertNames(ISTIO_DIVERT);
    DivertNames(ISTIO_TPROXY);
    InboundNotBuiltIn();
  }

  lemma InboundNotBuiltIn()
    ensures ISTIO_INBOUND != PREROUTING
  {
  }

  /** The lists nat PREROUTING is made of, and what each does to the packet. */
  ghost predicate NatReady(fw: Firewall, s: Setup, fam: Family, r: seq<Rule>, k: seq<Rule>, host: seq<Rule>, e: seq<Rule>, j: seq<Rule>,
                           p: Packet, depth: nat)
  {
    && ARRIVING in fw && fw[ARRIVING] == r + k + host + (e + j)
    && Eval(fw, NAT, r, p, depth) ==
         (if p(Protocol("tcp")) && FromKube(s.cfg, p) && InRanges(s.Included(fam), p) then Decided(Redirected(s.cfg.proxyPort), p) else Ended(p))
    && Eval(fw, NAT, k, p, depth) == (if FromKube(s.cfg, p) then Returned(p) else Ended(p))
    && Eval(fw, NAT, host, p, depth) == Ended(p)
    && Eval(fw, NAT, e, p, depth) == (if FromExcluded(s.cfg, p) then Returned(p) else Ended(p))
    && Eval(fw, NAT, j, p, depth) == NatInboundWanted(s.cfg, p)
  }

  /** What the jump to the nat inbound chain comes to. */
  function NatInboundWanted(cfg: Config, p: Packet): Outcome {
    if p(Protocol("tcp")) && !cfg.UsesTproxy() && ToCapturedPort(cfg, p) && !p(DestPort(cfg.inboundTunnelPort)) then
      Decided(Redirected(cfg.inboundCapturePort), p)
    else
      Ended(p)
  }

  /** A list that is at most the jump to the inbound chain. */
  lemma InboundJumpOutcome(fw: Firewall, table: string, jumps: seq<Rule>, p: Packet, depth: nat)
    requires jumps == [] || (jumps == [TcpRule(Jump(ISTIO_INBOUND))] && depth > 0 && ChainId(table, ISTIO_INBOUND) in fw)
    ensures Eval(fw, table, jumps, p, depth) ==
            if jumps == [] || !p(Protocol("tcp")) then Ended(p)
            else
              var sub := Eval(fw, table, fw[ChainId(table, ISTIO_INBOUND)], p, depth - 1);
              if sub.Decided? then sub else Ended(sub.packet)
  {
    if jumps != [] {
      TcpMatches(Jump(ISTIO_INBOUND), p);
      EvalJump(fw, table, TcpRule(Jump(ISTIO_INBOUND)), p, depth);
    }
  }

  lemma NatJumpOutcome(fw: Firewall, cfg: Config, jumps: seq<Rule>, p: Packet, depth: nat)
    requires depth >= 2 && RedirectsTcp(fw, ISTIO_IN_REDIRECT, cfg.inboundCapturePort)
    requires jumps == if cfg.inboundPortsInclude != "" && !cfg.UsesTproxy() then [TcpRule(Jump(ISTIO_INBOUND))] else []
    requires jumps != [] ==> ChainId(NAT, ISTIO_INBOUND) in fw
    requires jumps != [] ==> fw[ChainId(NAT, ISTIO_INBOUND)] == [TcpPortRule(cfg.inboundTunnelPort, Return)] + PortRules(cfg)
    ensures Eval(fw, NAT, jumps, p, depth) == NatInboundWanted(cfg, p)
  {
    InboundJumpOutcome(fw, NAT, jumps, p, depth);
    if jumps != [] && p(Protocol("tcp")) {
      NatInboundOutcome(fw, cfg, p, depth - 1);
    }
    if cfg.inboundPortsInclude == "" {
      NoPorts(cfg, p);
    }
  }

  /** Five lists one after the other, all but the last of which leave the packet as it is. */
  lemma EvalFive(fw: Firewall, table: string, a: seq<Rule>, b: seq<Rule>, c: seq<Rule>, d: seq<Rule>, e: seq<Rule>, p: Packet, depth: nat)
    requires forall o :: o in [Eval(fw, table, a, p, depth), Eval(fw, table, b, p, depth), Eval(fw, table, c, p, depth)] ==>
               o.Ended? ==> o.packet == p
    requires Eval(fw, table, d, p, depth).Ended? ==> Eval(fw, table, d, p, depth).packet == p
    ensures Eval(fw, table, a + b + c + (d + e), p, depth) ==
            Then(Then(Then(Then(Eval(fw, table, a, p, depth), Eval(fw, table, b, p, depth)), Eval(fw, table, c, p, depth)),
                      Eval(fw, table, d, p, depth)), Eval(fw, table, e, p, depth))
  {
    assert a + b + c + (d + e) == a + b + c + d + e;
    EvalFour(fw, table, a, b, c, d, p, depth);
    EvalConcat(fw, table, a + b + c + d, e, p, depth);
  }

  lemma NatVerdict(fw: Firewall, s: Setup, fam: Family, r: seq<Rule>, k: seq<Rule>, host: seq<Rule>, e: seq<Rule>, j: seq<Rule>,
                   p: Packet, depth: nat)
    requires NatReady(fw, s, fam, r, k, host, e, j, p, depth)
    ensures Traverse(fw, ARRIVING, p, depth) == NatWanted(s, fam, p)
  {
    EvalFive(fw, NAT, r, k, host, e, j, p, depth);
  }

  lemma NatInterfaces(cfg: Config)
    ensures ForInterfaces(cfg, ARRIVING)
  {
  }

  lemma NatJumpInstalled(fw: Firewall, s: Setup, fam: Family, fw': Firewall, p: Packet, depth: nat)
    requires Host(fw) && Enabled(s, fam) && !s.cfg.traceLogging && Installed(fw, s, fam, fw') && depth >= 2
    ensures Redirecting(fw', s.cfg)
    ensures Eval(fw', NAT, InboundRules(s.cfg, fam, ARRIVING), p, depth) == NatInboundWanted(s.cfg, p)
  {
    OutputInstalled(fw, s, fam, fw');
    NewChain(fw, s, fam, fw', ISTIO_INBOUND);
    NatInboundContent(s, fam);
    InboundChainRules(s.cfg, fam, NAT);
    JumpRules(s.cfg, fam, NAT);
    NatNotMangle();
    NatJumpOutcome(fw', s.cfg, InboundRules(s.cfg, fam, ARRIVING), p, depth);
  }

  lemma NatInstalled(fw: Firewall, s: Setup, fam: Family, fw': Firewall, p: Packet, depth: nat)
    returns (r: seq<Rule>, k: seq<Rule>, e: seq<Rule>, j: seq<Rule>)
    requires Host(fw) && Closed(fw) && Enabled(s, fam) && !s.cfg.traceLogging && Installed(fw, s, fam, fw')
    requires PassesHost(fw, ARRIVING, p, depth) && depth >= 2
    ensures NatReady(fw', s, fam, r, k, fw[ARRIVING], e, j, p, depth)
  {
    r, k := Heads(ARRIVING, PhaseCalls(s, fam, IncludedRanges)), Heads(ARRIVING, PhaseCalls(s, fam, KubeReturns));
    e, j := PhaseContent(s, fam, ARRIVING)(ExcludedInterfaces), InboundRules(s.cfg, fam, ARRIVING);
    ArrivingInstalled(fw, s, fam, fw');
    HostStillPasses(fw, s, fam, fw', ARRIVING, p, depth);
    NatJumpInstalled(fw, s, fam, fw', p, depth);
    KubeRedirectsOutcome(fw', s, fam, p, depth);
    KubeReturnsOutcome(fw', s, fam, p, depth);
    NatInterfaces(s.cfg);
    InterfacesOutcome(fw', s, fam, ARRIVING, p, depth);
  }

  lemma NotDiverted(cfg: Config, fam: Family, table: string)
    ensures DivertRules(cfg, fam, ChainId(table, ISTIO_INBOUND)) == []
  {
    DivertsApart();
  }

  lemma InboundChainRules(cfg: Config, fam: Family, table: string)
    ensures cfg.inboundPortsInclude != "" && table == InboundTable(cfg) ==>
              InboundRules(cfg, fam, ChainId(table, ISTIO_INBOUND)) == PortRules(cfg)
  {
    NotDiverted(cfg, fam, table);
    InboundNotBuiltIn();
  }

  // ---------------------------------------------------------------- the mangle inbound chain

  lemma FirstReturnsOutcome(fw: Firewall, cfg: Config, fam: Family, p: Packet, depth: nat)
    requires p(Protocol("tcp"))
    ensures Eval(fw, MANGLE, FirstReturns(cfg, fam), p, depth) == if Spared(cfg, fam, p) then Returned(p) else Ended(p)
  {
    var rules := FirstReturns(cfg, fam);
    ReturnMatches(cfg, fam, p);
    assert rules[0] in rules && rules[1] in rules && rules[2] in rules;
    EvalUniform(fw, MANGLE, rules, Return, p, depth);
  }

  lemma ReturnMatches(cfg: Config, fam: Family, p: Packet)
    requires p(Protocol("tcp"))
    ensures Matches(MarkedInboundRule(cfg.inboundTProxyMark).conds, p) <==> p(Mark(cfg.inboundTProxyMark))
    ensures Matches(FromPassthroughRule(PassthroughSource(fam)).conds, p) <==> p(Source(PassthroughSource(fam))) && p(InInterface("lo"))
    ensures Matches(UnmarkedLoopbackRule().conds, p) <==> p(InInterface("lo")) && !p(Mark(OUTBOUND_MARK))
  {
    var a, b, c := MarkedInboundRule(cfg.inboundTProxyMark), FromPassthroughRule(PassthroughSource(fam)), UnmarkedLoopbackRule();
    assert a.conds[0] in a.conds && a.conds[1] in a.conds;
    assert b.conds[0] in b.conds && b.conds[1] in b.conds && b.conds[2] in b.conds;
    assert c.conds[0] in c.conds && c.conds[1] in c.conds && c.conds[2] in c.conds;
  }

  /** The two chains of TPROXY mode. */
  ghost predicate Diverting(fw: Firewall, cfg: Config, fam: Family) {
    && ChainId(MANGLE, ISTIO_DIVERT) in fw && fw[ChainId(MANGLE, ISTIO_DIVERT)] == AcceptMarkRules(cfg)
    && ChainId(MANGLE, ISTIO_TPROXY) in fw && fw[ChainId(MANGLE, ISTIO_TPROXY)] == [TproxyRule(cfg, fam)]
  }

  lemma DivertOutcome(fw: Firewall, cfg: Config, fam: Family, p: Packet, depth: nat)
    requires Diverting(fw, cfg, fam)
    ensures Eval(fw, MANGLE, fw[ChainId(MANGLE, ISTIO_DIVERT)], p, depth) ==
            Decided(Accepted, Effect(SetMark(cfg.inboundTProxyMark), p))
  {
    var rules := AcceptMarkRules(cfg);
    assert rules[1..] == [Rule([], Accept)];
    EvalOne(fw, MANGLE, Rule([], Accept), Effect(SetMark(cfg.inboundTProxyMark), p), depth);
  }

  lemma TproxyOutcome(fw: Firewall, cfg: Config, fam: Family, p: Packet, depth: nat)
    requires Diverting(fw, cfg, fam) && p(Protocol("tcp"))
    ensures Eval(fw, MANGLE, fw[ChainId(MANGLE, ISTIO_TPROXY)], p, depth) ==
            if p(Destination(Loopback(fam))) then Ended(p) else Decided(Diverted(cfg, fam), p)
  {
    var r := TproxyRule(cfg, fam);
    assert r.conds[0] in r.conds && r.conds[1] in r.conds;
    EvalOne(fw, MANGLE, r, p, depth);
  }

  /** What happens to a packet to a captured port. */
  function CapturedOutcome(cfg: Config, fam: Family, p: Packet): Outcome {
    if p(CtState(ESTABLISHED)) then Decided(Accepted, Effect(SetMark(cfg.inboundTProxyMark), p))
    else if p(Destination(Loopback(fam))) then Ended(p)
    else Decided(Diverted(cfg, fam), p)
  }

  lemma EstablishedMatches(port: string, p: Packet)
    requires p(Protocol("tcp"))
    ensures Matches(EstablishedRule().conds, p) <==> p(CtState(ESTABLISHED))
    ensures Matches(EstablishedPortRule(port).conds, p) <==> p(DestPort(port)) && p(CtState(ESTABLISHED))
  {
    var a, b := EstablishedRule(), EstablishedPortRule(port);
    assert a.conds[0] in a.conds && a.conds[1] in a.conds;
    assert b.conds[0] in b.conds && b.conds[1] in b.conds && b.conds[2] in b.conds;
  }

  /** The pair of rules for one port, or for all of them. */
  lemma PairOutcome(fw: Firewall, cfg: Config, fam: Family, a: Rule, b: Rule, here: bool, p: Packet, depth: nat)
    requires p(Protocol("tcp")) && depth > 0 && Diverting(fw, cfg, fam)
    requires a.target == Jump(ISTIO_DIVERT) && (Matches(a.conds, p) <==> here && p(CtState(ESTABLISHED)))
    requires b.target == Jump(ISTIO_TPROXY) && (Matches(b.conds, p) <==> here)
    ensures Eval(fw, MANGLE, [a, b], p, depth) == if here then CapturedOutcome(cfg, fam, p) else Ended(p)
  {
    DivertOutcome(fw, cfg, fam, p, depth - 1);
    TproxyOutcome(fw, cfg, fam, p, depth - 1);
    EvalJump(fw, MANGLE, a, p, depth);
    EvalJump(fw, MANGLE, b, p, depth);
    EvalConcat(fw, MANGLE, [a], [b], p, depth);
    assert [a] + [b] == [a, b];
  }

  lemma {:induction false} TproxyPortsOutcome(fw: Firewall, cfg: Config, fam: Family, ports: seq<string>, p: Packet, depth: nat)
    requires p(Protocol("tcp")) && depth > 0 && Diverting(fw, cfg, fam)
    ensures Eval(fw, MANGLE, FlatMap(ports, TproxyPorts()), p, depth) == if ToPort(ports, p) then CapturedOutcome(cfg, fam, p) else Ended(p)
  {
    if ports != [] {
      var front, last := ports[..|ports| - 1], ports[|ports| - 1];
      TproxyPortsOutcome(fw, cfg, fam, front, p, depth);
      EstablishedMatches(last, p);
      PortRuleMatches(last, Jump(ISTIO_TPROXY), p);
      PairOutcome(fw, cfg, fam, EstablishedPortRule(last), TcpPortRule(last, Jump(ISTIO_TPROXY)), p(DestPort(last)), p, depth);
      EvalConcat(fw, MANGLE, FlatMap(front, TproxyPorts()), TproxyPorts()(last), p, depth);
      ToPortPush(front, last, p);
      assert front + [last] == ports;
    }
  }

  lemma ToPortPush(front: seq<string>, last: string, p: Packet)
    ensures ToPort(front + [last], p) <==> ToPort(front, p) || p(DestPort(last))
  {
    assert (front + [last])[|front|] == last;
    assert forall port :: port in front + [last] <==> port in front || port == last;
  }

  /** What the rules for the included ports do in the mangle table. */
  lemma ManglePortsOutcome(fw: Firewall, cfg: Config, fam: Family, p: Packet, depth: nat)
    requires p(Protocol("tcp")) && depth > 0 && cfg.UsesTproxy() && Diverting(fw, cfg, fam)
    ensures var o := Eval(fw, MANGLE, PortRules(cfg), p, depth);
            if ToCapturedPort(cfg, p) then o == CapturedOutcome(cfg, fam, p) else o == Ended(p) || o == Returned(p)
  {
    if cfg.inboundPortsInclude == "*" {
      var ports := Text.Fields(cfg.inboundPortsExclude);
      ReturnedPorts(fw, MANGLE, ports, p, depth);
      EstablishedMatches("", p);
      TcpMatches(Jump(ISTIO_TPROXY), p);
      PairOutcome(fw, cfg, fam, EstablishedRule(), TcpRule(Jump(ISTIO_TPROXY)), true, p, depth);
      EvalConcat(fw, MANGLE, FlatMap(ports, TcpPorts(Return)), RestRules(cfg), p, depth);
    } else {
      TproxyPortsOutcome(fw, cfg, fam, Text.Fields(cfg.inboundPortsInclude), p, depth);
    }
  }

  /** What the jump to the mangle inbound chain comes to. */
  function MangleInboundWanted(cfg: Config, fam: Family, p: Packet): Outcome {
    if p(Protocol("tcp")) && cfg.UsesTproxy() && ToCapturedPort(cfg, p) && !Spared(cfg, fam, p) then CapturedOutcome(cfg, fam, p)
    else Ended(p)
  }

  lemma MangleInboundOutcome(fw: Firewall, cfg: Config, fam: Family, p: Packet, depth: nat)
    requires p(Protocol("tcp")) && depth > 0 && cfg.UsesTproxy() && Diverting(fw, cfg, fam)
    ensures var o := Eval(fw, MANGLE, FirstReturns(cfg, fam) + PortRules(cfg), p, depth);
            if o.Decided? then o == MangleInboundWanted(cfg, fam, p) else o.packet == p && MangleInboundWanted(cfg, fam, p) == Ended(p)
  {
    FirstReturnsOutcome(fw, cfg, fam, p, depth);
    ManglePortsOutcome(fw, cfg, fam, p, depth);
    EvalConcat(fw, MANGLE, FirstReturns(cfg, fam), PortRules(cfg), p, depth);
  }

  // ---------------------------------------------------------------- mangle PREROUTING

  const MANGLED := ChainId(MANGLE, PREROUTING)

  /** The lists mangle PREROUTING is made of, and what each does to the packet. */
  ghost predicate MangleReady(fw: Firewall, s: Setup, fam: Family, host: seq<Rule>, e: seq<Rule>, d: seq<Rule>, j: seq<Rule>, m: seq<Rule>,
                              p: Packet, depth: nat)
  {
    && MANGLED in fw && fw[MANGLED] == host + (e + d + j + m)
    && Eval(fw, MANGLE, host, p, depth) == Ended(p)
    && Eval(fw, MANGLE, e, p, depth) == (if s.cfg.UsesTproxy() && FromExcluded(s.cfg, p) then Returned(p) else Ended(p))
    && Eval(fw, MANGLE, d, p, depth) == (if s.cfg.dropInvalid && p(CtState("INVALID")) then Decided(Dropped, p) else Ended(p))
    && Eval(fw, MANGLE, j, p, depth) == MangleInboundWanted(s.cfg, fam, p)
    && Eval(fw, MANGLE, m, p, depth) == Ended(MarkSaved(s.cfg, p))
  }

  lemma MangleJumpOutcome(fw: Firewall, cfg: Config, fam: Family, jumps: seq<Rule>, p: Packet, depth: nat)
    requires depth >= 2
    requires jumps == if cfg.inboundPortsInclude != "" && cfg.UsesTproxy() then [TcpRule(Jump(ISTIO_INBOUND))] else []
    requires jumps != [] ==> ChainId(MANGLE, ISTIO_INBOUND) in fw && Diverting(fw, cfg, fam)
    requires jumps != [] ==> fw[ChainId(MANGLE, ISTIO_INBOUND)] == FirstReturns(cfg, fam) + PortRules(cfg)
    ensures Eval(fw, MANGLE, jumps, p, depth) == MangleInboundWanted(cfg, fam, p)
  {
    InboundJumpOutcome(fw, MANGLE, jumps, p, depth);
    if jumps != [] && p(Protocol("tcp")) {
      MangleInboundOutcome(fw, cfg, fam, p, depth - 1);
    }
    if cfg.inboundPortsInclude == "" {
      NoPorts(cfg, p);
    }
  }

  lemma MangleInterfacesOutcome(fw: Firewall, s: Setup, fam: Family, p: Packet, depth: nat)
    ensures Eval(fw, MANGLE, PhaseContent(s, fam, MANGLED)(ExcludedInterfaces), p, depth) ==
            if s.cfg.UsesTproxy() && FromExcluded(s.cfg, p) then Returned(p) else Ended(p)
  {
    if s.cfg.UsesTproxy() {
      MangleInterfaces(s.cfg);
      InterfacesOutcome(fw, s, fam, MANGLED, p, depth);
    } else {
      InterfacePhase(s, fam, MANGLED);
      NoMangleInterfaces(s.cfg);
    }
  }

  lemma MangleInterfaces(cfg: Config)
    requires cfg.UsesTproxy()
    ensures ForInterfaces(cfg, MANGLED)
  {
  }

  lemma NoMangleInterfaces(cfg: Config)
    requires !cfg.UsesTproxy()
    ensures FlatMap(ExcludeInterfaceCalls(cfg), OnChain(MANGLED)) == []
  {
    var xs := Text.Fields(cfg.excludeInterfaces);
    NatNotMangle();
    forall c | c in ExcludeInterfaceCalls(cfg) ensures OnChain(MANGLED)(c) == [] {
      FlatMapMember(xs, InterfaceReturns(NAT), c);
    }
    FlatMapNothing(ExcludeInterfaceCalls(cfg), OnChain(MANGLED));
  }

  lemma DropOutcome(fw: Firewall, cfg: Config, p: Packet, depth: nat)
    ensures Eval(fw, MANGLE, DropRules(cfg), p, depth) == if cfg.dropInvalid && p(CtState("INVALID")) then Decided(Dropped, p) else Ended(p)
  {
    var r := Rule([Is(CtState("INVALID"))], Drop);
    assert r.conds[0] in r.conds;
    EvalOne(fw, MANGLE, r, p, depth);
  }

  /** The connection gets the mark of a packet that has the mark of TPROXY mode. */
  function MarkSaved(cfg: Config, p: Packet): Packet {
    if cfg.UsesTproxy() && p(Protocol("tcp")) && p(Mark(cfg.inboundTProxyMark)) then Effect(SaveMark, p) else p
  }

  lemma SaveOutcome(fw: Firewall, cfg: Config, p: Packet, depth: nat)
    ensures Eval(fw, MANGLE, SaveRules(cfg), p, depth) == Ended(MarkSaved(cfg, p))
  {
    if cfg.UsesTproxy() {
      var r := SaveMarkRule(cfg.inboundTProxyMark);
      assert SaveRules(cfg) == [r] && r.conds[0] in r.conds && r.conds[1] in r.conds;
      assert Matches(r.conds, p) <==> p(Protocol("tcp")) && p(Mark(cfg.inboundTProxyMark));
      EvalPassing(fw, MANGLE, r, p, depth);
    }
  }

  /** A rule after which a packet goes on, changed or not. */
  lemma EvalPassing(fw: Firewall, table: string, r: Rule, p: Packet, depth: nat)
    requires !Final(r.target) && !r.target.Jump?
    ensures Eval(fw, table, [r], p, depth) == Ended(if Matches(r.conds, p) then Effect(r.target, p) else p)
  {
    assert [r][1..] == [];
  }

  /** A packet as it leaves mangle PREROUTING: diverted ones have the mark, for the others a mark they have is saved. */
  function MangleLeaves(s: Setup, fam: Family, p: Packet): Packet {
    if (s.cfg.UsesTproxy() && FromExcluded(s.cfg, p)) || (s.cfg.dropInvalid && p(CtState("INVALID"))) then p
    else if MangleInboundWanted(s.cfg, fam, p).Decided? then MangleInboundWanted(s.cfg, fam, p).packet
    else MarkSaved(s.cfg, p)
  }

  lemma MangleVerdict(fw: Firewall, s: Setup, fam: Family, host: seq<Rule>, e: seq<Rule>, d: seq<Rule>, j: seq<Rule>, m: seq<Rule>,
                      p: Packet, depth: nat)
    requires MangleReady(fw, s, fam, host, e, d, j, m, p, depth)
    ensures Traverse(fw, MANGLED, p, depth) == MangleWanted(s, fam, p)
    ensures LeavesAs(fw, MANGLED, p, depth) == MangleLeaves(s, fam, p)
  {
    EvalConcat(fw, MANGLE, host, e + d + j + m, p, depth);
    EvalFour(fw, MANGLE, e, d, j, m, p, depth);
  }

  lemma MangleJumpInstalled(fw: Firewall, s: Setup, fam: Family, fw': Firewall, p: Packet, depth: nat)
    requires Host(fw) && Enabled(s, fam) && !s.cfg.traceLogging && Installed(fw, s, fam, fw') && depth >= 2
    ensures Eval(fw', MANGLE, InboundRules(s.cfg, fam, MANGLED), p, depth) == MangleInboundWanted(s.cfg, fam, p)
  {
    if s.cfg.inboundPortsInclude != "" && s.cfg.UsesTproxy() {
      DivertingInstalled(fw, s, fam, fw');
    }
    JumpRules(s.cfg, fam, MANGLE);
    NatNotMangle();
    MangleJumpOutcome(fw', s.cfg, fam, InboundRules(s.cfg, fam, MANGLED), p, depth);
  }

  lemma MangleInstalled(fw: Firewall, s: Setup, fam: Family, fw': Firewall, p: Packet, depth: nat)
    returns (e: seq<Rule>, d: seq<Rule>, j: seq<Rule>, m: seq<Rule>)
    requires Host(fw) && Closed(fw) && Enabled(s, fam) && !s.cfg.traceLogging && Installed(fw, s, fam, fw')
    requires PassesHost(fw, MANGLED, p, depth) && depth >= 2
    ensures MangleReady(fw', s, fam, fw[MANGLED], e, d, j, m, p, depth)
  {
    e, d := PhaseContent(s, fam, MANGLED)(ExcludedInterfaces), DropRules(s.cfg);
    j, m := InboundRules(s.cfg, fam, MANGLED), SaveRules(s.cfg);
    MangleArriving(fw, s, fam, fw');
    HostStillPasses(fw, s, fam, fw', MANGLED, p, depth);
    MangleInterfacesOutcome(fw', s, fam, p, depth);
    DropOutcome(fw', s.cfg, p, depth);
    MangleJumpInstalled(fw, s, fam, fw', p, depth);
    SaveOutcome(fw', s.cfg, p, depth);
  }

  lemma DivertingInstalled(fw: Firewall, s: Setup, fam: Family, fw': Firewall)
    requires Host(fw) && Enabled(s, fam) && !s.cfg.traceLogging && Installed(fw, s, fam, fw')
    requires s.cfg.inboundPortsInclude != "" && s.cfg.UsesTproxy()
    ensures ChainId(MANGLE, ISTIO_INBOUND) in fw' && Diverting(fw', s.cfg, fam)
    ensures fw'[ChainId(MANGLE, ISTIO_INBOUND)] == FirstReturns(s.cfg, fam) + PortRules(s.cfg)
  {
    DivertInstalled(fw, s, fam, fw', ISTIO_DIVERT);
    DivertInstalled(fw, s, fam, fw', ISTIO_TPROXY);
    DivertsApart();
    MangleInbound(fw, s, fam, fw');
    InboundChainRules(s.cfg, fam, MANGLE);
  }

  // ---------------------------------------------------------------- the theorems

  lemma PlainArrivals(fw: Firewall, s: Setup, fam: Family, fw': Firewall, p: Packet, depth: nat)
    requires Host(fw) && Closed(fw) && Enabled(s, fam) && !s.cfg.traceLogging && Installed(fw, s, fam, fw') && depth >= 2
    ensures PassesHost(fw, ARRIVING, p, depth) ==> ARRIVING in fw' && Traverse(fw', ARRIVING, p, depth) == NatWanted(s, fam, p)
    ensures PassesHost(fw, MANGLED, p, depth) ==>
              && MANGLED in fw' && Traverse(fw', MANGLED, p, depth) == MangleWanted(s, fam, p)
              && LeavesAs(fw', MANGLED, p, depth) == MangleLeaves(s, fam, p)
  {
    if PassesHost(fw, ARRIVING, p, depth) {
      var r, k, e, j := NatInstalled(fw, s, fam, fw', p, depth);
      NatVerdict(fw', s, fam, r, k, fw[ARRIVING], e, j, p, depth);
    }
    if PassesHost(fw, MANGLED, p, depth) {
      var e, d, j, m := MangleInstalled(fw, s, fam, fw', p, depth);
      MangleVerdict(fw', s, fam, fw[MANGLED], e, d, j, m, p, depth);
    }
  }

  lemma ArrivalsRetraced(s: Setup, fam: Family, p: Packet)
    ensures NatWanted(Retraced(s, false), fam, p) == NatWanted(s, fam, p)
    ensures MangleWanted(Retraced(s, false), fam, p) == MangleWanted(s, fam, p)
    ensures MangleLeaves(Retraced(s, false), fam, p) == MangleLeaves(s, fam, p)
  {
  }

  lemma HasArriving(fw: Firewall, s: Setup, fam: Family, fw': Firewall)
    requires Host(fw) && Enabled(s, fam) && Installed(fw, s, fam, fw')
    ensures ARRIVING in fw && ARRIVING in fw' && MANGLED in fw && MANGLED in fw'
  {
    InstalledChains(fw, s, fam, fw');
  }

  /**
   The verdicts of a run on arriving packets. Where the host's own rules let a packet pass, nat
   PREROUTING and mangle PREROUTING give it exactly the verdict of the configuration, and mangle PREROUTING
   the marks, whatever the interception mode, wherever it comes from, and whether or not the run was traced.
   */
  lemma ArrivalsExactly(fw: Firewall, s: Setup, fam: Family, fw': Firewall, p: Packet, depth: nat)
    requires Host(fw) && Closed(fw) && Enabled(s, fam) && Installed(fw, s, fam, fw') && depth >= 2
    ensures ARRIVING in fw' && MANGLED in fw'
    ensures PassesHost(fw, ARRIVING, p, depth) ==> Traverse(fw', ARRIVING, p, depth) == NatWanted(s, fam, p)
    ensures PassesHost(fw, MANGLED, p, depth) ==>
              Traverse(fw', MANGLED, p, depth) == MangleWanted(s, fam, p) && LeavesAs(fw', MANGLED, p, depth) == MangleLeaves(s, fam, p)
  {
    HasArriving(fw, s, fam, fw');
    var plain := UntracedTwin(fw, s, fam, fw');
    PlainArrivals(fw, Retraced(s, false), fam, plain, p, depth);
    ArrivalsRetraced(s, fam, p);
  }

  /** To the inbound capture port: by way of the nat table in REDIRECT mode, of the mangle table in TPROXY mode. */
  ghost predicate Captured(fw: Firewall, cfg: Config, fam: Family, p: Packet, depth: nat)
    requires ARRIVING in fw && MANGLED in fw
  {
    var first := Traverse(fw, MANGLED, p, depth);
    first == Diverted(cfg, fam) || (first == Accepted && Traverse(fw, ARRIVING, p, depth) == Redirected(cfg.inboundCapturePort))
  }

  /**
   Which arriving packets are captured, the traffic of virtual machines apart. In REDIRECT mode the tunnel
   port is let through; in TPROXY mode it is like any other port, but loopback traffic, marked packets and
   established connections are not diverted again.
   */
  lemma CapturedInExactly(fw: Firewall, s: Setup, fam: Family, fw': Firewall, p: Packet, depth: nat)
    requires Host(fw) && Closed(fw) && Enabled(s, fam) && Installed(fw, s, fam, fw') && depth >= 2
    requires PassesHost(fw, ARRIVING, p, depth) && PassesHost(fw, MANGLED, p, depth) && !FromKube(s.cfg, p)
    ensures ARRIVING in fw' && MANGLED in fw'
    ensures Captured(fw', s.cfg, fam, p, depth) <==>
            && p(Protocol("tcp")) && !FromExcluded(s.cfg, p) && ToCapturedPort(s.cfg, p)
            && !(s.cfg.dropInvalid && p(CtState("INVALID")))
            && if s.cfg.UsesTproxy() then !Spared(s.cfg, fam, p) && Divertible(fam, p) else !p(DestPort(s.cfg.inboundTunnelPort))
  {
    ArrivalsExactly(fw, s, fam, fw', p, depth);
  }
}
