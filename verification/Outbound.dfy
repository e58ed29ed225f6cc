/** What the installed rules do to packets that leave the host. */
module Outbound {
  import opened Sequences
  import opened Netfilter
  import opened Capture
  import opened RunFacts
  import opened Contents
  import opened Builder
  import Text

  // ---------------------------------------------------------------- what should happen

  predicate Udp53(p: Packet) { p(Protocol("udp")) && p(DestPort("53")) }

  /** Sent by one of the proxy's users or groups. */
  predicate Owned(cfg: Config, p: Packet) {
    || (exists uid :: uid in cfg.Uids() && p(UidOwner(uid)))
    || (exists gid :: gid in cfg.Gids() && p(GidOwner(gid)))
  }

  predicate GroupPasses(filter: InterceptFilter, p: Packet) {
    if filter.except then forall g :: g in filter.values ==> !p(GidOwner(g))
    else exists g :: g in filter.values && p(GidOwner(g))
  }

  predicate ToPort(ports: seq<string>, p: Packet) {
    exists port :: port in ports && p(DestPort(port))
  }

  predicate ToAny(ranges: seq<string>, p: Packet) {
    exists range :: range in ranges && p(Destination(range))
  }

  function InterfaceTest(chain: string, i: string): Match {
    if chain == OUTPUT then OutInterface(i) else InInterface(i)
  }

  /** Out through an excluded interface for OUTPUT, in through one for PREROUTING. */
  predicate PastExcluded(cfg: Config, chain: string, p: Packet) {
    exists i :: i in Text.Fields(cfg.excludeInterfaces) && p(InterfaceTest(chain, i))
  }

  predicate ThroughExcluded(cfg: Config, p: Packet) { PastExcluded(cfg, OUTPUT, p) }

  /** A DNS request the agent is to answer, whichever protocol carries it. */
  predicate DnsCaptured(s: Setup, fam: Family, p: Packet) {
    s.cfg.redirectDNS && p(DestPort("53")) && (s.cfg.captureAllDNS || ToAny(s.Hosts(fam), p))
  }

  predicate Included(s: Setup, fam: Family, p: Packet) {
    || ToPort(Text.Fields(s.cfg.outboundPortsInclude), p)
    || s.Included(fam).isWildcard
    || ToAny(s.Included(fam).ipNets, p)
  }

  /** The verdict the configuration asks for on a packet that leaves through another interface than lo. */
  function Wanted(s: Setup, fam: Family, p: Packet): Verdict {
    if Owned(s.cfg, p) then
      Accepted
    else if p(Protocol("tcp")) then
      if ToPort(Text.Fields(s.cfg.outboundPortsExclude), p) || !GroupPasses(s.cfg.Filter(), p) then Accepted
      else if DnsCaptured(s, fam, p) then Redirected(DNS_PORT)
      else if ToAny(s.Excluded(fam).ipNets, p) || !Included(s, fam, p) then Accepted
      else Redirected(s.cfg.proxyPort)
    else if p(Protocol("udp")) && GroupPasses(s.cfg.Filter(), p) && DnsCaptured(s, fam, p) then
      Redirected(DNS_PORT)
    else
      Accepted
  }

  // ---------------------------------------------------------------- evaluating rule by rule

  lemma EvalOne(fw: Firewall, table: string, r: Rule, p: Packet, depth: nat)
    ensures !Matches(r.conds, p) ==> Eval(fw, table, [r], p, depth) == Ended(p)
    ensures Matches(r.conds, p) && Final(r.target) ==> Eval(fw, table, [r], p, depth) == FinalOutcome(r.target, p)
  {
  }

  /** A jump to a chain whose outcome on this packet is known and leaves the packet as it is. */
  lemma EvalJump(fw: Firewall, table: string, r: Rule, p: Packet, depth: nat)
    requires r.target.Jump? && depth > 0 && ChainId(table, r.target.chain) in fw
    ensures var sub := Eval(fw, table, fw[ChainId(table, r.target.chain)], p, depth - 1);
            Eval(fw, table, [r], p, depth) ==
            if !Matches(r.conds, p) then Ended(p) else if sub.Decided? then sub else Ended(sub.packet)
  {
  }

  /** A list of jumps to a chain that redirects: taken exactly when some rule matches. */
  lemma {:induction false} EvalUniformJump(fw: Firewall, table: string, rules: seq<Rule>, chain: string, v: Verdict, p: Packet, depth: nat)
    requires depth > 0 && ChainId(table, chain) in fw
    requires forall r :: r in rules ==> r.target == Jump(chain)
    requires Eval(fw, table, fw[ChainId(table, chain)], p, depth - 1) == Decided(v, p)
    ensures Eval(fw, table, rules, p, depth) ==
            if exists r :: r in rules && Matches(r.conds, p) then Decided(v, p) else Ended(p)
    decreases |rules|
  {
    if rules != [] {
      if Matches(rules[0].conds, p) {
        assert rules[0] in rules;
      } else {
        EvalUniformJump(fw, table, rules[1..], chain, v, p, depth);
        assert forall r :: r in rules ==> r == rules[0] || r in rules[1..];
      }
    }
  }

  /** The outcome of a list of outcomes is the first that is not Ended. */
  function Then(a: Outcome, b: Outcome): Outcome {
    if a.Ended? then b else a
  }

  /** Four lists one after the other, the first three of which leave the packet as it is. */
  lemma EvalFour(fw: Firewall, table: string, a: seq<Rule>, b: seq<Rule>, c: seq<Rule>, d: seq<Rule>, p: Packet, depth: nat)
    requires forall o :: o in [Eval(fw, table, a, p, depth), Eval(fw, table, b, p, depth), Eval(fw, table, c, p, depth)] ==>
               o.Ended? ==> o.packet == p
    ensures Eval(fw, table, a + b + c + d, p, depth) ==
            Then(Then(Then(Eval(fw, table, a, p, depth), Eval(fw, table, b, p, depth)), Eval(fw, table, c, p, depth)),
                 Eval(fw, table, d, p, depth))
  {
    assert Eval(fw, table, a, p, depth) in [Eval(fw, table, a, p, depth), Eval(fw, table, b, p, depth), Eval(fw, table, c, p, depth)];
    EvalConcat(fw, table, a, b, p, depth);
    EvalConcat(fw, table, a + b, c, p, depth);
    EvalConcat(fw, table, a + b + c, d, p, depth);
  }

  lemma PortMatches(ports: seq<string>, t: Target, p: Packet)
    ensures (exists r :: r in FlatMap(ports, TcpPorts(t)) && Matches(r.conds, p)) <==> p(Protocol("tcp")) && ToPort(ports, p)
  {
    var rules := FlatMap(ports, TcpPorts(t));
    if r :| r in rules && Matches(r.conds, p) {
      PortMember(ports, t, r);
      var port :| port in ports && r == TcpPortRule(port, t);
      assert r.conds[0] in r.conds && r.conds[1] in r.conds;
    }
    if p(Protocol("tcp")) && ToPort(ports, p) {
      var port :| port in ports && p(DestPort(port));
      assert TcpPortRule(port, t) in TcpPorts(t)(port);
      FlatMapMember(ports, TcpPorts(t), TcpPortRule(port, t));
      assert Matches(TcpPortRule(port, t).conds, p);
    }
  }

  lemma RangeMatches(ranges: seq<string>, t: Target, p: Packet)
    ensures (exists r :: r in FlatMap(ranges, Ranges(t)) && Matches(r.conds, p)) <==> ToAny(ranges, p)
  {
    var rules := FlatMap(ranges, Ranges(t));
    if r :| r in rules && Matches(r.conds, p) {
      RangeMember(ranges, t, r);
      assert r.conds[0] in r.conds;
    }
    if ToAny(ranges, p) {
      var range :| range in ranges && p(Destination(range));
      assert ToRange(range, t) in Ranges(t)(range);
      FlatMapMember(ranges, Ranges(t), ToRange(range, t));
      assert Matches(ToRange(range, t).conds, p);
    }
  }

  lemma PortTargets(ports: seq<string>, t: Target)
    ensures forall r :: r in FlatMap(ports, TcpPorts(t)) ==> r.target == t
  {
    forall r | r in FlatMap(ports, TcpPorts(t)) ensures r.target == t {
      PortMember(ports, t, r);
    }
  }

  lemma RangeTargets(ranges: seq<string>, t: Target)
    ensures forall r :: r in FlatMap(ranges, Ranges(t)) ==> r.target == t
  {
    forall r | r in FlatMap(ranges, Ranges(t)) ensures r.target == t {
      RangeMember(ranges, t, r);
    }
  }

  // ---------------------------------------------------------------- the rules of the proxy's owners

  /** What the rules of one chain that is a plain TCP redirect do. */
  ghost predicate RedirectsTcp(fw: Firewall, chain: string, port: string) {
    ChainId(NAT, chain) in fw && exists flag :: fw[ChainId(NAT, chain)] == [TcpRule(Redirect(flag, port))]
  }

  lemma EvalRedirect(fw: Firewall, chain: string, port: string, p: Packet, depth: nat)
    requires RedirectsTcp(fw, chain, port)
    ensures Eval(fw, NAT, fw[ChainId(NAT, chain)], p, depth) == if p(Protocol("tcp")) then Decided(Redirected(port), p) else Ended(p)
  {
    var flag :| fw[ChainId(NAT, chain)] == [TcpRule(Redirect(flag, port))];
    EvalOne(fw, NAT, TcpRule(Redirect(flag, port)), p, depth);
  }

  /** Through lo to another address than the loopback one. */
  predicate BackToSelf(fam: Family, p: Packet) {
    p(OutInterface("lo")) && !p(Destination(Loopback(fam)))
  }

  /** A DNS request, when those are redirected. */
  predicate DnsExempt(cfg: Config, p: Packet) {
    cfg.redirectDNS && p(DestPort("53"))
  }

  /** The first rule of an owner: what the owner sends back to the host through lo, a user's DNS requests excepted. */
  predicate SentBack(cfg: Config, fam: Family, owner: Match, p: Packet) {
    BackToSelf(fam, p) && p(SubMatch(Loopback(fam), owner)) && !(owner.UidOwner? && DnsExempt(cfg, p))
  }

  /** The second rule of an owner: all other loopback traffic, unless loopback is an included range. */
  predicate Skipped(s: Setup, p: Packet) {
    s.skipLoopback && p(OutInterface("lo")) && !DnsExempt(s.cfg, p)
  }

  /** What the rules of one owner do to a TCP packet. */
  function OwnerWanted(s: Setup, fam: Family, owner: Match, p: Packet): Outcome {
    if SentBack(s.cfg, fam, owner, p) then Decided(Redirected(s.cfg.inboundCapturePort), p)
    else if p(owner) || Skipped(s, p) then Returned(p)
    else Ended(p)
  }

  lemma BackToSelfOutcome(fw: Firewall, s: Setup, fam: Family, owner: Match, p: Packet, depth: nat)
    requires p(Protocol("tcp")) && depth > 0 && RedirectsTcp(fw, ISTIO_IN_REDIRECT, s.cfg.inboundCapturePort)
    ensures Eval(fw, NAT, [BackToSelfRule(owner.UidOwner? && s.cfg.redirectDNS, fam, SubMatch(Loopback(fam), owner))], p, depth) ==
            if SentBack(s.cfg, fam, owner, p) then Decided(Redirected(s.cfg.inboundCapturePort), p) else Ended(p)
  {
    var r := BackToSelfRule(owner.UidOwner? && s.cfg.redirectDNS, fam, SubMatch(Loopback(fam), owner));
    EvalRedirect(fw, ISTIO_IN_REDIRECT, s.cfg.inboundCapturePort, p, depth - 1);
    EvalJump(fw, NAT, r, p, depth);
    BackToSelfMatches(owner.UidOwner? && s.cfg.redirectDNS, fam, SubMatch(Loopback(fam), owner), p);
  }

  lemma BackToSelfMatches(dns: bool, fam: Family, owner: Match, p: Packet)
    requires p(Protocol("tcp"))
    ensures Matches(BackToSelfRule(dns, fam, owner).conds, p) <==> BackToSelf(fam, p) && p(owner) && !(dns && p(DestPort("53")))
  {
    var conds := BackToSelfRule(dns, fam, owner).conds;
    assert conds[0] in conds && conds[1] in conds && conds[2] in conds;
    if dns {
      assert conds[3] in conds && conds[4] in conds;
    }
  }

  lemma LoopbackReturnOutcome(fw: Firewall, s: Setup, owner: Match, p: Packet, depth: nat)
    requires p(Protocol("tcp"))
    ensures Eval(fw, NAT, if s.skipLoopback then [LoopbackReturnRule(s.cfg.redirectDNS, owner)] else [], p, depth) ==
            if Skipped(s, p) && !p(owner) then Returned(p) else Ended(p)
  {
    var r := LoopbackReturnRule(s.cfg.redirectDNS, owner);
    assert r.conds[0] in r.conds && r.conds[1] in r.conds;
    if s.cfg.redirectDNS {
      assert r.conds[2] in r.conds && r.conds[3] in r.conds;
    }
    assert Matches(r.conds, p) <==> p(OutInterface("lo")) && !DnsExempt(s.cfg, p) && !p(owner);
    EvalOne(fw, NAT, r, p, depth);
  }

  lemma OwnerReturnMatches(owner: Match, p: Packet)
    ensures Matches(OwnerReturnRule(owner).conds, p) <==> p(owner)
  {
    assert OwnerReturnRule(owner).conds[0] in OwnerReturnRule(owner).conds;
  }

  lemma ProxyRulesOutcome(fw: Firewall, s: Setup, fam: Family, owner: Match, p: Packet, depth: nat)
    requires p(Protocol("tcp")) && depth > 0 && RedirectsTcp(fw, ISTIO_IN_REDIRECT, s.cfg.inboundCapturePort)
    ensures Eval(fw, NAT, ProxyRules(owner.UidOwner? && s.cfg.redirectDNS, s.cfg.redirectDNS, s.skipLoopback, fam, owner), p, depth) ==
            OwnerWanted(s, fam, owner, p)
  {
    var back := [BackToSelfRule(owner.UidOwner? && s.cfg.redirectDNS, fam, SubMatch(Loopback(fam), owner))];
    var loop := if s.skipLoopback then [LoopbackReturnRule(s.cfg.redirectDNS, owner)] else [];
    BackToSelfOutcome(fw, s, fam, owner, p, depth);
    LoopbackReturnOutcome(fw, s, owner, p, depth);
    OwnerReturnMatches(owner, p);
    EvalOne(fw, NAT, OwnerReturnRule(owner), p, depth);
    EvalConcat(fw, NAT, back, loop, p, depth);
    EvalConcat(fw, NAT, back + loop, [OwnerReturnRule(owner)], p, depth);
  }

  function Named(names: seq<string>, uid: bool): (owners: seq<Match>)
    ensures |owners| == |names| && forall i :: 0 <= i < |names| ==> owners[i] == if uid then UidOwner(names[i]) else GidOwner(names[i])
  {
    seq(|names|, i requires 0 <= i < |names| => if uid then UidOwner(names[i]) else GidOwner(names[i]))
  }

  /** The proxy's users, then its groups, in the order of their rules. */
  function Owners(cfg: Config): seq<Match> {
    Named(cfg.Uids(), true) + Named(cfg.Gids(), false)
  }

  /** What the rules of several owners do, one after the other. */
  function OwnersWanted(s: Setup, fam: Family, owners: seq<Match>, p: Packet): Outcome {
    if owners == [] then Ended(p)
    else Then(OwnersWanted(s, fam, owners[..|owners| - 1], p), OwnerWanted(s, fam, owners[|owners| - 1], p))
  }

  lemma {:induction false} OwnersOutcome(fw: Firewall, s: Setup, fam: Family, names: seq<string>, uid: bool, p: Packet, depth: nat)
    requires p(Protocol("tcp")) && depth > 0 && RedirectsTcp(fw, ISTIO_IN_REDIRECT, s.cfg.inboundCapturePort)
    ensures var f := if uid then UidRules(s.cfg.redirectDNS, s.skipLoopback, fam) else GidRules(s.cfg.redirectDNS, s.skipLoopback, fam);
            Eval(fw, NAT, FlatMap(names, f), p, depth) == OwnersWanted(s, fam, Named(names, uid), p)
    ensures OwnersWanted(s, fam, Named(names, uid), p).Ended? ==> OwnersWanted(s, fam, Named(names, uid), p) == Ended(p)
  {
    var f := if uid then UidRules(s.cfg.redirectDNS, s.skipLoopback, fam) else GidRules(s.cfg.redirectDNS, s.skipLoopback, fam);
    if names != [] {
      var front, last := names[..|names| - 1], names[|names| - 1];
      OwnersOutcome(fw, s, fam, front, uid, p, depth);
      ProxyRulesOutcome(fw, s, fam, if uid then UidOwner(last) else GidOwner(last), p, depth);
      EvalConcat(fw, NAT, FlatMap(front, f), f(last), p, depth);
      assert Named(names, uid)[..|names| - 1] == Named(front, uid);
    }
  }

  lemma {:induction false} OwnersConcat(s: Setup, fam: Family, a: seq<Match>, b: seq<Match>, p: Packet)
    ensures OwnersWanted(s, fam, a + b, p) == Then(OwnersWanted(s, fam, a, p), OwnersWanted(s, fam, b, p))
    decreases |b|
  {
    if b == [] {
      assert a + b == a;
      OwnersEnd(s, fam, a, p);
    } else {
      assert (a + b)[..|a + b| - 1] == a + b[..|b| - 1];
      OwnersConcat(s, fam, a, b[..|b| - 1], p);
    }
  }

  lemma {:induction false} OwnersEnd(s: Setup, fam: Family, owners: seq<Match>, p: Packet)
    ensures OwnersWanted(s, fam, owners, p).Ended? ==> OwnersWanted(s, fam, owners, p) == Ended(p)
  {
    if owners != [] {
      OwnersEnd(s, fam, owners[..|owners| - 1], p);
    }
  }

  // What the rules of all owners come to.

  /** How many owners have nothing to do with a packet before the first that has. */
  function FirstTaker(cfg: Config, fam: Family, owners: seq<Match>, p: Packet): (k: nat)
    ensures k <= |owners|
    ensures forall j :: 0 <= j < k ==> !SentBack(cfg, fam, owners[j], p) && !p(owners[j])
    ensures k < |owners| ==> SentBack(cfg, fam, owners[k], p) || p(owners[k])
  {
    if owners == [] then 0
    else
      var n := |owners| - 1;
      var k := FirstTaker(cfg, fam, owners[..n], p);
      if k < n then k else if SentBack(cfg, fam, owners[n], p) || p(owners[n]) then n else n + 1
  }

  /**
   The owners' verdict on a TCP packet. Where loopback is skipped the first owner settles all loopback
   traffic, its own and that of everyone else; elsewhere the first owner of the packet does.
   */
  function OwnersVerdict(s: Setup, fam: Family, p: Packet): Outcome {
    var owners := Owners(s.cfg);
    var k := if Skipped(s, p) then 0 else FirstTaker(s.cfg, fam, owners, p);
    if k == |owners| then Ended(p)
    else if SentBack(s.cfg, fam, owners[k], p) then Decided(Redirected(s.cfg.inboundCapturePort), p)
    else Returned(p)
  }

  lemma {:induction false} SkippedByFirst(s: Setup, fam: Family, owners: seq<Match>, p: Packet)
    requires Skipped(s, p) && owners != []
    ensures OwnersWanted(s, fam, owners, p) == OwnerWanted(s, fam, owners[0], p)
    ensures !OwnersWanted(s, fam, owners, p).Ended?
  {
    if |owners| > 1 {
      SkippedByFirst(s, fam, owners[..|owners| - 1], p);
    } else {
      assert owners[..0] == [];
    }
  }

  lemma {:induction false} TakenByFirst(s: Setup, fam: Family, owners: seq<Match>, p: Packet)
    requires !Skipped(s, p)
    ensures var k := FirstTaker(s.cfg, fam, owners, p);
            OwnersWanted(s, fam, owners, p) == if k == |owners| then Ended(p) else OwnerWanted(s, fam, owners[k], p)
  {
    if owners != [] {
      TakenByFirst(s, fam, owners[..|owners| - 1], p);
    }
  }

  lemma OwnersDecide(s: Setup, fam: Family, p: Packet)
    ensures Then(OwnersWanted(s, fam, Named(s.cfg.Uids(), true), p), OwnersWanted(s, fam, Named(s.cfg.Gids(), false), p)) ==
            OwnersVerdict(s, fam, p)
  {
    var owners := Owners(s.cfg);
    OwnersConcat(s, fam, Named(s.cfg.Uids(), true), Named(s.cfg.Gids(), false), p);
    if Skipped(s, p) {
      if owners != [] {
        SkippedByFirst(s, fam, owners, p);
      }
    } else {
      TakenByFirst(s, fam, owners, p);
    }
  }

  // ---------------------------------------------------------------- groups and DNS

  lemma NoneOfMatches(groups: seq<string>, p: Packet)
    ensures Matches(NoneOf(groups), p) <==> forall g :: g in groups ==> !p(GidOwner(g))
  {
    forall c | c in NoneOf(groups) ensures exists g :: g in groups && c == Not(GidOwner(g)) {
      FlatMapMember(groups, NotGroup(), c);
    }
    forall g | g in groups ensures Not(GidOwner(g)) in NoneOf(groups) {
      assert Not(GidOwner(g)) in NotGroup()(g);
      FlatMapMember(groups, NotGroup(), Not(GidOwner(g)));
    }
  }

  lemma OwnerGroupsOutcome(fw: Firewall, filter: InterceptFilter, p: Packet, depth: nat)
    ensures Eval(fw, NAT, OwnerGroupRules(filter), p, depth) == if GroupPasses(filter, p) then Ended(p) else Returned(p)
  {
    if filter.except {
      var rules := FlatMap(filter.values, OwnerReturns());
      forall r | r in rules ensures exists g :: g in filter.values && r == OwnerReturnRule(GidOwner(g)) {
        FlatMapMember(filter.values, OwnerReturns(), r);
      }
      forall g | g in filter.values ensures OwnerReturnRule(GidOwner(g)) in rules {
        assert OwnerReturnRule(GidOwner(g)) in OwnerReturns()(g);
        FlatMapMember(filter.values, OwnerReturns(), OwnerReturnRule(GidOwner(g)));
      }
      forall g: string ensures Matches(OwnerReturnRule(GidOwner(g)).conds, p) <==> p(GidOwner(g)) {
        OwnerReturnMatches(GidOwner(g), p);
      }
      EvalUniform(fw, NAT, rules, Return, p, depth);
    } else {
      NoneOfMatches(filter.values, p);
      EvalOne(fw, NAT, Rule(NoneOf(filter.values), Return), p, depth);
    }
  }

  lemma TcpDnsOutcome(fw: Firewall, s: Setup, fam: Family, p: Packet, depth: nat)
    requires p(Protocol("tcp"))
    ensures Eval(fw, NAT, TcpDnsRules(s.cfg, s.Hosts(fam)), p, depth) ==
            if DnsCaptured(s, fam, p) then Decided(Redirected(DNS_PORT), p) else Ended(p)
  {
    if s.cfg.redirectDNS {
      if s.cfg.captureAllDNS {
        var r := TcpPortRule("53", TcpDnsRedirect());
        assert r.conds[0] in r.conds && r.conds[1] in r.conds;
        EvalOne(fw, NAT, r, p, depth);
      } else {
        DnsToHosts(fw, s.Hosts(fam), p, depth);
      }
    }
  }

  lemma DnsToHosts(fw: Firewall, hosts: seq<string>, p: Packet, depth: nat)
    requires p(Protocol("tcp"))
    ensures Eval(fw, NAT, FlatMap(hosts, TcpDnsTo()), p, depth) ==
            if p(DestPort("53")) && ToAny(hosts, p) then Decided(Redirected(DNS_PORT), p) else Ended(p)
  {
    var rules := FlatMap(hosts, TcpDnsTo());
    forall r | r in rules ensures exists h :: h in hosts && r == TcpDnsRule(h) {
      FlatMapMember(hosts, TcpDnsTo(), r);
    }
    forall h | h in hosts ensures TcpDnsRule(h) in rules {
      assert TcpDnsRule(h) in TcpDnsTo()(h);
      FlatMapMember(hosts, TcpDnsTo(), TcpDnsRule(h));
    }
    forall h ensures Matches(TcpDnsRule(h).conds, p) <==> p(DestPort("53")) && p(Destination(h)) {
      var r := TcpDnsRule(h);
      assert r.conds[0] in r.conds && r.conds[1] in r.conds && r.conds[2] in r.conds;
    }
    EvalUniform(fw, NAT, rules, TcpDnsRedirect(), p, depth);
  }

  // ---------------------------------------------------------------- the outbound chain, segment by segment

  /** The outcome of the segments of a list one after the other, if each leaves the packet as it is. */
  function Sequentially(segments: seq<Segment>, outcome: Segment -> Outcome, p: Packet): Outcome {
    if segments == [] then Ended(p)
    else
      var o := Sequentially(segments[..|segments| - 1], outcome, p);
      if o.Ended? then outcome(segments[|segments| - 1]) else o
  }

  lemma {:induction false} EvalSegments(fw: Firewall, s: Setup, fam: Family, segments: seq<Segment>, outcome: Segment -> Outcome, p: Packet, depth: nat)
    requires forall g :: outcome(g) == Eval(fw, NAT, SegmentRules(s, fam, g), p, depth)
    requires forall g :: outcome(g).Ended? ==> outcome(g).packet == p
    ensures Eval(fw, NAT, FlatMap(segments, RulesOf(s, fam)), p, depth) == Sequentially(segments, outcome, p)
    ensures Sequentially(segments, outcome, p).Ended? ==> Sequentially(segments, outcome, p).packet == p
  {
    if segments != [] {
      var front, last := segments[..|segments| - 1], segments[|segments| - 1];
      EvalSegments(fw, s, fam, front, outcome, p, depth);
      EvalConcat(fw, NAT, FlatMap(front, RulesOf(s, fam)), SegmentRules(s, fam, last), p, depth);
      assert RulesOf(s, fam)(last) == SegmentRules(s, fam, last);
    }
  }

  lemma SequentiallyPush(segments: seq<Segment>, outcome: Segment -> Outcome, p: Packet, g: Segment)
    ensures Sequentially(segments + [g], outcome, p) ==
            if Sequentially(segments, outcome, p).Ended? then outcome(g) else Sequentially(segments, outcome, p)
  {
    assert (segments + [g])[..|segments|] == segments;
  }

  lemma AllSegments(outcome: Segment -> Outcome, p: Packet)
    ensures Sequentially(Segments(), outcome, p) ==
            Then(Then(Then(Then(Then(Then(Then(Then(outcome(ExcludedPorts), outcome(Passthrough)), outcome(ProxyUsers)),
              outcome(ProxyGroups)), outcome(OwnerGroups)), outcome(TcpDns)), outcome(ToLoopback)), outcome(ExcludedRanges)),
              outcome(IncludedPorts))
  {
    var g1 := [] + [ExcludedPorts];
    var g2 := g1 + [Passthrough];
    var g3 := g2 + [ProxyUsers];
    var g4 := g3 + [ProxyGroups];
    var g5 := g4 + [OwnerGroups];
    var g6 := g5 + [TcpDns];
    var g7 := g6 + [ToLoopback];
    var g8 := g7 + [ExcludedRanges];
    SequentiallyPush([], outcome, p, ExcludedPorts);
    SequentiallyPush(g1, outcome, p, Passthrough);
    SequentiallyPush(g2, outcome, p, ProxyUsers);
    SequentiallyPush(g3, outcome, p, ProxyGroups);
    SequentiallyPush(g4, outcome, p, OwnerGroups);
    SequentiallyPush(g5, outcome, p, TcpDns);
    SequentiallyPush(g6, outcome, p, ToLoopback);
    SequentiallyPush(g7, outcome, p, ExcludedRanges);
    SequentiallyPush(g8, outcome, p, IncludedPorts);
    assert g8 + [IncludedPorts] == Segments();
  }

  /** The chains of the nat table the outbound rules lead to. */
  ghost predicate Redirecting(fw: Firewall, cfg: Config) {
    RedirectsTcp(fw, ISTIO_REDIRECT, cfg.proxyPort) && RedirectsTcp(fw, ISTIO_IN_REDIRECT, cfg.inboundCapturePort)
  }

  /** Sent by the inbound passthrough cluster. */
  predicate PassedThrough(fam: Family, p: Packet) {
    p(OutInterface("lo")) && p(Source(PassthroughSource(fam)))
  }

  /** What one segment does to a TCP packet. */
  function SegmentWanted(s: Setup, fam: Family, p: Packet, segment: Segment): Outcome {
    match segment
    case ExcludedPorts => if ToPort(Text.Fields(s.cfg.outboundPortsExclude), p) then Returned(p) else Ended(p)
    case Passthrough => if PassedThrough(fam, p) then Returned(p) else Ended(p)
    case ProxyUsers => OwnersWanted(s, fam, Named(s.cfg.Uids(), true), p)
    case ProxyGroups => OwnersWanted(s, fam, Named(s.cfg.Gids(), false), p)
    case OwnerGroups => if GroupPasses(s.cfg.Filter(), p) then Ended(p) else Returned(p)
    case TcpDns => if DnsCaptured(s, fam, p) then Decided(Redirected(DNS_PORT), p) else Ended(p)
    case ToLoopback => if p(Destination(Loopback(fam))) then Returned(p) else Ended(p)
    case ExcludedRanges => if ToAny(s.Excluded(fam).ipNets, p) then Returned(p) else Ended(p)
    case IncludedPorts => if ToPort(Text.Fields(s.cfg.outboundPortsInclude), p) then Decided(Redirected(s.cfg.proxyPort), p) else Ended(p)
  }

  lemma LoopbackOutcome(fw: Firewall, fam: Family, p: Packet, depth: nat)
    ensures Eval(fw, NAT, [PassthroughRule(fam)], p, depth) == if PassedThrough(fam, p) then Returned(p) else Ended(p)
    ensures Eval(fw, NAT, [ToRange(Loopback(fam), Return)], p, depth) == if p(Destination(Loopback(fam))) then Returned(p) else Ended(p)
  {
    var a, b := PassthroughRule(fam), ToRange(Loopback(fam), Return);
    assert a.conds[0] in a.conds && a.conds[1] in a.conds && b.conds[0] in b.conds;
    EvalOne(fw, NAT, a, p, depth);
    EvalOne(fw, NAT, b, p, depth);
  }

  lemma PortsOutcome(fw: Firewall, s: Setup, p: Packet, depth: nat)
    requires p(Protocol("tcp")) && depth > 0 && Redirecting(fw, s.cfg)
    ensures Eval(fw, NAT, FlatMap(Text.Fields(s.cfg.outboundPortsExclude), TcpPorts(Return)), p, depth) ==
            if ToPort(Text.Fields(s.cfg.outboundPortsExclude), p) then Returned(p) else Ended(p)
    ensures Eval(fw, NAT, FlatMap(Text.Fields(s.cfg.outboundPortsInclude), TcpPorts(Jump(ISTIO_REDIRECT))), p, depth) ==
            if ToPort(Text.Fields(s.cfg.outboundPortsInclude), p) then Decided(Redirected(s.cfg.proxyPort), p) else Ended(p)
  {
    var excluded, included := Text.Fields(s.cfg.outboundPortsExclude), Text.Fields(s.cfg.outboundPortsInclude);
    PortTargets(excluded, Return);
    PortMatches(excluded, Return, p);
    EvalUniform(fw, NAT, FlatMap(excluded, TcpPorts(Return)), Return, p, depth);
    PortTargets(included, Jump(ISTIO_REDIRECT));
    PortMatches(included, Jump(ISTIO_REDIRECT), p);
    EvalRedirect(fw, ISTIO_REDIRECT, s.cfg.proxyPort, p, depth - 1);
    EvalUniformJump(fw, NAT, FlatMap(included, TcpPorts(Jump(ISTIO_REDIRECT))), ISTIO_REDIRECT, Redirected(s.cfg.proxyPort), p, depth);
  }

  lemma ExcludedRangesOutcome(fw: Firewall, ranges: seq<string>, p: Packet, depth: nat)
    ensures Eval(fw, NAT, FlatMap(ranges, Ranges(Return)), p, depth) == if ToAny(ranges, p) then Returned(p) else Ended(p)
  {
    RangeTargets(ranges, Return);
    RangeMatches(ranges, Return, p);
    EvalUniform(fw, NAT, FlatMap(ranges, Ranges(Return)), Return, p, depth);
  }

  lemma SegmentOutcome(fw: Firewall, s: Setup, fam: Family, p: Packet, depth: nat, segment: Segment)
    requires p(Protocol("tcp")) && depth > 0 && Redirecting(fw, s.cfg)
    ensures Eval(fw, NAT, SegmentRules(s, fam, segment), p, depth) == SegmentWanted(s, fam, p, segment)
  {
    match segment
    case ExcludedPorts => PortsOutcome(fw, s, p, depth);
    case Passthrough => LoopbackOutcome(fw, fam, p, depth);
    case ProxyUsers => OwnersOutcome(fw, s, fam, s.cfg.Uids(), true, p, depth);
    case ProxyGroups => OwnersOutcome(fw, s, fam, s.cfg.Gids(), false, p, depth);
    case OwnerGroups => OwnerGroupsOutcome(fw, s.cfg.Filter(), p, depth);
    case TcpDns => TcpDnsOutcome(fw, s, fam, p, depth);
    case ToLoopback => LoopbackOutcome(fw, fam, p, depth);
    case ExcludedRanges => ExcludedRangesOutcome(fw, s.Excluded(fam).ipNets, p, depth);
    case IncludedPorts => PortsOutcome(fw, s, p, depth);
  }

  lemma IncludeOutcome(fw: Firewall, cfg: Config, range: NetworkRange, p: Packet, depth: nat)
    requires p(Protocol("tcp")) && depth > 0 && Redirecting(fw, cfg)
    ensures var o := Eval(fw, NAT, IncludeRules(range), p, depth);
            if range.isWildcard || ToAny(range.ipNets, p) then o == Decided(Redirected(cfg.proxyPort), p)
            else o == Ended(p) || o == Returned(p)
  {
    EvalRedirect(fw, ISTIO_REDIRECT, cfg.proxyPort, p, depth - 1);
    if range.isWildcard {
      EvalJump(fw, NAT, Rule([], Jump(ISTIO_REDIRECT)), p, depth);
    } else if |range.ipNets| > 0 {
      var rules := FlatMap(range.ipNets, Ranges(Jump(ISTIO_REDIRECT)));
      RangeTargets(range.ipNets, Jump(ISTIO_REDIRECT));
      RangeMatches(range.ipNets, Jump(ISTIO_REDIRECT), p);
      EvalUniformJump(fw, NAT, rules, ISTIO_REDIRECT, Redirected(cfg.proxyPort), p, depth);
      EvalOne(fw, NAT, Rule([], Return), p, depth);
      EvalConcat(fw, NAT, rules, [Rule([], Return)], p, depth);
    }
  }

  /** The wanted outcome of the whole outbound chain before the included ranges. */
  function AllWanted(s: Setup, fam: Family, p: Packet): Outcome {
    Sequentially(Segments(), (g: Segment) => SegmentWanted(s, fam, p, g), p)
  }

  lemma OutputRulesOutcome(fw: Firewall, s: Setup, fam: Family, p: Packet, depth: nat)
    requires p(Protocol("tcp")) && depth > 0 && Redirecting(fw, s.cfg)
    ensures Eval(fw, NAT, OutputRules(s, fam), p, depth) == AllWanted(s, fam, p)
  {
    var outcome := (g: Segment) => SegmentWanted(s, fam, p, g);
    forall g ensures outcome(g) == Eval(fw, NAT, SegmentRules(s, fam, g), p, depth) {
      SegmentOutcome(fw, s, fam, p, depth, g);
    }
    OwnersEnd(s, fam, Named(s.cfg.Uids(), true), p);
    OwnersEnd(s, fam, Named(s.cfg.Gids(), false), p);
    EvalSegments(fw, s, fam, Segments(), outcome, p, depth);
  }

  /** The verdict on a TCP packet that reaches the outbound chain. */
  function TcpWanted(s: Setup, fam: Family, p: Packet): Verdict {
    if ToPort(Text.Fields(s.cfg.outboundPortsExclude), p) || PassedThrough(fam, p) then Accepted
    else
      match OwnersVerdict(s, fam, p)
      case Decided(v, _) => v
      case Returned(_) => Accepted
      case Ended(_) =>
        if !GroupPasses(s.cfg.Filter(), p) then Accepted
        else if DnsCaptured(s, fam, p) then Redirected(DNS_PORT)
        else if p(Destination(Loopback(fam))) || ToAny(s.Excluded(fam).ipNets, p) || !Included(s, fam, p) then Accepted
        else Redirected(s.cfg.proxyPort)
  }

  lemma AllWantedParts(s: Setup, fam: Family, p: Packet)
    ensures AllWanted(s, fam, p) ==
            Then(if ToPort(Text.Fields(s.cfg.outboundPortsExclude), p) || PassedThrough(fam, p) then Returned(p) else OwnersVerdict(s, fam, p),
                 LaterWanted(s, fam, p))
  {
    AllWantedGrouped(s, fam, p);
    OwnersDecide(s, fam, p);
  }

  lemma AllWantedGrouped(s: Setup, fam: Family, p: Packet)
    ensures AllWanted(s, fam, p) ==
            Then(Then(Then(SegmentWanted(s, fam, p, ExcludedPorts), SegmentWanted(s, fam, p, Passthrough)),
                      Then(SegmentWanted(s, fam, p, ProxyUsers), SegmentWanted(s, fam, p, ProxyGroups))),
                 LaterWanted(s, fam, p))
  {
    var outcome := (g: Segment) => SegmentWanted(s, fam, p, g);
    AllSegments(outcome, p);
    Grouped(outcome(ExcludedPorts), outcome(Passthrough), outcome(ProxyUsers), outcome(ProxyGroups), outcome(OwnerGroups),
            outcome(TcpDns), outcome(ToLoopback), outcome(ExcludedRanges), outcome(IncludedPorts));
    LaterParts(s, fam, p);
  }

  /** The segments that come after the owners. */
  function LaterWanted(s: Setup, fam: Family, p: Packet): Outcome {
    if !GroupPasses(s.cfg.Filter(), p) then Returned(p)
    else if DnsCaptured(s, fam, p) then Decided(Redirected(DNS_PORT), p)
    else if p(Destination(Loopback(fam))) || ToAny(s.Excluded(fam).ipNets, p) then Returned(p)
    else if ToPort(Text.Fields(s.cfg.outboundPortsInclude), p) then Decided(Redirected(s.cfg.proxyPort), p)
    else Ended(p)
  }

  lemma LaterParts(s: Setup, fam: Family, p: Packet)
    ensures Then(Then(Then(Then(SegmentWanted(s, fam, p, OwnerGroups), SegmentWanted(s, fam, p, TcpDns)), SegmentWanted(s, fam, p, ToLoopback)),
              SegmentWanted(s, fam, p, ExcludedRanges)), SegmentWanted(s, fam, p, IncludedPorts)) == LaterWanted(s, fam, p)
  {
  }

  lemma Grouped(a: Outcome, b: Outcome, c: Outcome, d: Outcome, e: Outcome, f: Outcome, g: Outcome, h: Outcome, i: Outcome)
    ensures Then(Then(Then(Then(Then(Then(Then(Then(a, b), c), d), e), f), g), h), i) ==
            Then(Then(Then(a, b), Then(c, d)), Then(Then(Then(Then(e, f), g), h), i))
  {
  }

  lemma AllWantedVerdict(s: Setup, fam: Family, p: Packet)
    ensures match AllWanted(s, fam, p)
            case Decided(v, _) => TcpWanted(s, fam, p) == v && v != Accepted
            case Returned(q) => q == p && TcpWanted(s, fam, p) == Accepted
            case Ended(q) =>
              q == p &&
              TcpWanted(s, fam, p) ==
                if s.Included(fam).isWildcard || ToAny(s.Included(fam).ipNets, p) then Redirected(s.cfg.proxyPort) else Accepted
  {
    AllWantedParts(s, fam, p);
  }

  /** The outcome of the outbound chain on any TCP packet comes to the wanted verdict. */
  lemma IstioOutputOutcome(fw: Firewall, s: Setup, fam: Family, p: Packet, depth: nat)
    requires p(Protocol("tcp")) && depth > 0 && Redirecting(fw, s.cfg)
    ensures var o := Eval(fw, NAT, OutputRules(s, fam) + IncludeRules(s.Included(fam)), p, depth);
            if o.Decided? then o.verdict == TcpWanted(s, fam, p) != Accepted else o.packet == p && TcpWanted(s, fam, p) == Accepted
  {
    OutputRulesOutcome(fw, s, fam, p, depth);
    AllWantedVerdict(s, fam, p);
    IncludeOutcome(fw, s.cfg, s.Included(fam), p, depth);
    EvalConcat(fw, NAT, OutputRules(s, fam), IncludeRules(s.Included(fam)), p, depth);
  }

  // ---------------------------------------------------------------- off the loopback

  /** Through another interface than lo, to another address than loopback. */
  predicate Leaving(fam: Family, p: Packet) {
    !p(OutInterface("lo")) && !p(Destination(Loopback(fam)))
  }

  lemma OwnedByOwner(cfg: Config, p: Packet)
    ensures Owned(cfg, p) <==> AnyOwns(Owners(cfg), p)
  {
    NamedOwn(cfg.Uids(), true, p);
    NamedOwn(cfg.Gids(), false, p);
    EitherOwns(Named(cfg.Uids(), true), Named(cfg.Gids(), false), p);
  }

  predicate AnyOwns(owners: seq<Match>, p: Packet) {
    exists i :: 0 <= i < |owners| && p(owners[i])
  }

  lemma EitherOwns(a: seq<Match>, b: seq<Match>, p: Packet)
    ensures AnyOwns(a + b, p) <==> AnyOwns(a, p) || AnyOwns(b, p)
  {
    if i :| 0 <= i < |a| && p(a[i]) {
      assert p((a + b)[i]);
    }
    if i :| 0 <= i < |b| && p(b[i]) {
      assert p((a + b)[|a| + i]);
    }
  }

  lemma NamedOwn(names: seq<string>, uid: bool, p: Packet)
    ensures AnyOwns(Named(names, uid), p) <==> exists n :: n in names && p(if uid then UidOwner(n) else GidOwner(n))
  {
    if n :| n in names && p(if uid then UidOwner(n) else GidOwner(n)) {
      var i :| 0 <= i < |names| && names[i] == n;
      assert p(Named(names, uid)[i]);
    }
  }

  /** Off the loopback every packet of the proxy is let through and no other. */
  lemma LeavingOwners(s: Setup, fam: Family, p: Packet)
    requires !p(OutInterface("lo"))
    ensures OwnersVerdict(s, fam, p) == if Owned(s.cfg, p) then Returned(p) else Ended(p)
  {
    OwnedByOwner(s.cfg, p);
  }

  /** There the verdict is the plain one. */
  lemma LeavingWanted(s: Setup, fam: Family, p: Packet)
    requires Leaving(fam, p) && p(Protocol("tcp"))
    ensures TcpWanted(s, fam, p) == Wanted(s, fam, p)
  {
    LeavingOwners(s, fam, p);
  }
}
