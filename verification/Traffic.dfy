/** What the host's own rules, the excluded interfaces and the DNS rules do to packets in the nat OUTPUT chain. */
module Traffic {
  import opened Sequences
  import opened Netfilter
  import opened Commands
  import opened Builder
  import opened CallScripts
  import opened Capture
  import opened RunFacts
  import opened NeverFails
  import opened Tracing
  import opened Contents
  import opened Outbound
  import Text

  // ---------------------------------------------------------------- the rules the host had before

  /** Every jump of the firewall goes to a user chain of its table, as the kernel makes sure. */
  ghost predicate Closed(fw: Firewall) {
    forall id, r :: id in fw && r in fw[id] ==> TargetExists(fw, id.table, r.target)
  }

  /** Rules that only lead to unchanged chains do what they did. */
  lemma {:induction false} EvalUnchanged(fw: Firewall, fw': Firewall, table: string, rules: seq<Rule>, p: Packet, depth: nat)
    requires Closed(fw) && forall r :: r in rules ==> TargetExists(fw, table, r.target)
    requires forall id :: id in fw && id.chain !in BUILT_IN_CHAINS ==> id in fw' && fw'[id] == fw[id]
    ensures Eval(fw', table, rules, p, depth) == Eval(fw, table, rules, p, depth)
    decreases depth, |rules|
  {
    if rules != [] {
      var r, rest := rules[0], rules[1..];
      assert r in rules;
      if !Matches(r.conds, p) {
        EvalUnchanged(fw, fw', table, rest, p, depth);
      } else {
        match r.target
        case Return =>
        case Accept =>
        case Drop =>
        case Redirect(_, _) =>
        case Tproxy(_, _) =>
        case Jump(chain) =>
          if depth == 0 {
            EvalUnchanged(fw, fw', table, rest, p, depth);
          } else {
            var id := ChainId(table, chain);
            EvalUnchanged(fw, fw', table, fw[id], p, depth - 1);
            var sub := Eval(fw, table, fw[id], p, depth - 1);
            if !sub.Decided? {
              EvalUnchanged(fw, fw', table, rest, sub.packet, depth);
            }
          }
        case _ =>
          EvalUnchanged(fw, fw', table, rest, Effect(r.target, p), depth);
      }
    }
  }

  /** The host's own rules of a chain let the packet pass. */
  ghost predicate PassesHost(fw: Firewall, id: ChainId, p: Packet, depth: nat)
    requires id in fw
  {
    Eval(fw, id.table, fw[id], p, depth) == Ended(p)
  }

  ghost predicate HostPasses(fw: Firewall, p: Packet, depth: nat)
    requires ChainId(NAT, OUTPUT) in fw
  {
    PassesHost(fw, ChainId(NAT, OUTPUT), p, depth)
  }

  lemma NotIstio(id: ChainId)
    requires id.chain !in ISTIO_CHAINS && id.chain !in BUILT_IN_CHAINS
    ensures forall phase :: id !in Touched(phase)
  {
    forall phase ensures id !in Touched(phase) {
      if id in Touched(phase) {
        TouchedTables(phase, id);
      }
    }
  }

  lemma HostStillPasses(fw: Firewall, s: Setup, fam: Family, fw': Firewall, id: ChainId, p: Packet, depth: nat)
    requires Host(fw) && Closed(fw) && Enabled(s, fam) && Installed(fw, s, fam, fw')
    requires id in fw && PassesHost(fw, id, p, depth)
    ensures Eval(fw', id.table, fw[id], p, depth) == Ended(p)
  {
    forall other | other in fw && other.chain !in BUILT_IN_CHAINS ensures other in fw' && fw'[other] == fw[other] {
      NotIstio(other);
      UntouchedChain(fw, s, fam, fw', other);
    }
    EvalUnchanged(fw, fw', id.table, fw[id], p, depth);
  }

  // ---------------------------------------------------------------- excluded interfaces

  /** The rule of an excluded interface: packets to it for OUTPUT, packets from it for PREROUTING. */
  function InterfaceReturn(chain: string, i: string): Rule {
    Rule([Is(InterfaceTest(chain, i))], Return)
  }

  /** The chains excluded interfaces have rules in; those of the mangle table only in TPROXY mode. */
  predicate ForInterfaces(cfg: Config, id: ChainId) {
    id.chain in {PREROUTING, OUTPUT} && (id.table == NAT || (id.table == MANGLE && cfg.UsesTproxy()))
  }

  lemma InterfacePhase(s: Setup, fam: Family, id: ChainId)
    ensures PhaseContent(s, fam, id)(ExcludedInterfaces) == FlatMap(ExcludeInterfaceCalls(s.cfg), OnChain(id))
  {
  }

  lemma InterfaceMember(cfg: Config, id: ChainId, i: string)
    requires i in Text.Fields(cfg.excludeInterfaces) && ForInterfaces(cfg, id)
    ensures AppendCall(EXCLUDE_INTERFACE, id.chain, id.table, InterfaceReturn(id.chain, i)) in ExcludeInterfaceCalls(cfg)
  {
    var xs := Text.Fields(cfg.excludeInterfaces);
    var c := InterfaceReturns(id.table)(i)[if id.chain == OUTPUT then 1 else 0];
    BuiltInNames();
    assert c in InterfaceReturns(id.table)(i);
    FlatMapMember(xs, InterfaceReturns(id.table), c);
  }

  lemma BuiltInNames()
    ensures OUTPUT != PREROUTING && NAT != MANGLE
  {
  }

  lemma OnChainMember(calls: seq<Call>, id: ChainId, r: Rule)
    ensures r in FlatMap(calls, OnChain(id)) <==> exists c :: c in calls && CallId(c) == id && c.AppendCall? && c.rule == r
  {
    FlatMapMember(calls, OnChain(id), r);
    if c :| c in calls && CallId(c) == id && c.AppendCall? && c.rule == r {
      assert r in OnChain(id)(c);
    }
  }

  lemma InterfaceRules(cfg: Config, id: ChainId, r: Rule)
    requires ForInterfaces(cfg, id)
    ensures r in FlatMap(ExcludeInterfaceCalls(cfg), OnChain(id)) <==>
            exists i :: i in Text.Fields(cfg.excludeInterfaces) && r == InterfaceReturn(id.chain, i)
  {
    var calls := ExcludeInterfaceCalls(cfg);
    OnChainMember(calls, id, r);
    if c :| c in calls && CallId(c) == id && c.AppendCall? && c.rule == r {
      InterfaceCall(cfg, id, c);
    }
    if i :| i in Text.Fields(cfg.excludeInterfaces) && r == InterfaceReturn(id.chain, i) {
      InterfaceMember(cfg, id, i);
      InterfaceCallId(id, i);
    }
  }

  lemma InterfaceCallId(id: ChainId, i: string)
    ensures var c := AppendCall(EXCLUDE_INTERFACE, id.chain, id.table, InterfaceReturn(id.chain, i));
            CallId(c) == id && c.rule == InterfaceReturn(id.chain, i)
  {
  }

  lemma InterfaceCall(cfg: Config, id: ChainId, c: Call)
    requires c in ExcludeInterfaceCalls(cfg) && CallId(c) == id
    ensures exists i :: i in Text.Fields(cfg.excludeInterfaces) && c.rule == InterfaceReturn(id.chain, i)
  {
    var xs := Text.Fields(cfg.excludeInterfaces);
    BuiltInNames();
    if c in FlatMap(xs, InterfaceReturns(NAT)) {
      FlatMapMember(xs, InterfaceReturns(NAT), c);
    } else {
      FlatMapMember(xs, InterfaceReturns(MANGLE), c);
    }
  }

  lemma InterfacesOutcome(fw: Firewall, s: Setup, fam: Family, id: ChainId, p: Packet, depth: nat)
    requires ForInterfaces(s.cfg, id)
    ensures Eval(fw, id.table, PhaseContent(s, fam, id)(ExcludedInterfaces), p, depth) ==
            if PastExcluded(s.cfg, id.chain, p) then Returned(p) else Ended(p)
  {
    var rules := FlatMap(ExcludeInterfaceCalls(s.cfg), OnChain(id));
    InterfacePhase(s, fam, id);
    forall r ensures r in rules <==> exists i :: i in Text.Fields(s.cfg.excludeInterfaces) && r == InterfaceReturn(id.chain, i) {
      InterfaceRules(s.cfg, id, r);
    }
    InterfaceReturnsOutcome(fw, s.cfg, id, rules, p, depth);
  }

  lemma InterfaceReturnsOutcome(fw: Firewall, cfg: Config, id: ChainId, rules: seq<Rule>, p: Packet, depth: nat)
    requires forall r :: r in rules <==> exists i :: i in Text.Fields(cfg.excludeInterfaces) && r == InterfaceReturn(id.chain, i)
    ensures Eval(fw, id.table, rules, p, depth) == if PastExcluded(cfg, id.chain, p) then Returned(p) else Ended(p)
  {
    forall i ensures Matches(InterfaceReturn(id.chain, i).conds, p) <==> p(InterfaceTest(id.chain, i)) {
      assert InterfaceReturn(id.chain, i).conds[0] in InterfaceReturn(id.chain, i).conds;
    }
    EvalUniform(fw, id.table, rules, Return, p, depth);
  }

  // ---------------------------------------------------------------- DNS over UDP

  /** The rules the DNS helper appends to the nat OUTPUT chain of one family. */
  function NatDns(fam: Family): Applied -> seq<Rule> {
    (a: Applied) => if a.fam == fam && a.chain == OUTPUT && a.table == NAT then [a.rule] else []
  }

  lemma DnsPhase(s: Setup, fam: Family)
    ensures PhaseCalls(s, fam, UdpDns) == DnsUdpCalls(s.cfg, fam, s.hosts4, s.hosts6)
  {
  }

  lemma NatDnsContent(s: Setup, fam: Family)
    ensures PhaseContent(s, fam, ChainId(NAT, OUTPUT))(UdpDns) ==
            FlatMap(DnsUdpCalls(s.cfg, fam, s.hosts4, s.hosts6), OnChain(ChainId(NAT, OUTPUT)))
  {
    DnsPhase(s, fam);
    PhaseContentOf(s, fam, ChainId(NAT, OUTPUT), UdpDns, DnsUdpCalls(s.cfg, fam, s.hosts4, s.hosts6));
  }

  lemma AppliedOnNat(fam: Family, applied: seq<Applied>)
    ensures FlatMap(FlatMap(applied, AppendOne(fam)), OnChain(ChainId(NAT, OUTPUT))) == FlatMap(applied, NatDns(fam))
  {
    forall a ensures NatDns(fam)(a) == FlatMap(AppendOne(fam)(a), OnChain(ChainId(NAT, OUTPUT))) {
      NatDnsOne(fam, a);
    }
    FlatMapTwice(applied, AppendOne(fam), OnChain(ChainId(NAT, OUTPUT)), NatDns(fam));
  }

  lemma NatDnsOne(fam: Family, a: Applied)
    ensures NatDns(fam)(a) == FlatMap(AppendOne(fam)(a), OnChain(ChainId(NAT, OUTPUT)))
  {
    if a.fam == fam {
      var c := AppendCall(UNDEFINED_COMMAND, a.chain, a.table, a.rule);
      FlatMapPush([], OnChain(ChainId(NAT, OUTPUT)), c);
      assert [] + [c] == [c];
    }
  }

  lemma BothOnNat(fam: Family, r: Rule)
    ensures FlatMap(Both(OUTPUT, NAT, r), NatDns(fam)) == [r]
  {
    var a, b := Applied(V4, OUTPUT, NAT, r), Applied(V6, OUTPUT, NAT, r);
    FlatMapPush([], NatDns(fam), a);
    FlatMapPush([a], NatDns(fam), b);
    assert [] + [a] == [a] && [a] + [b] == [a, b];
  }

  /** The rules of a list each element of which gives both families the same rule. */
  lemma {:induction false} BothEach(fam: Family, xs: seq<string>, f: string -> seq<Applied>, rule: string -> Rule)
    requires forall x :: f(x) == Both(OUTPUT, NAT, rule(x))
    ensures FlatMap(FlatMap(xs, f), NatDns(fam)) == RulesEach(xs, rule)
  {
    if xs != [] {
      var front, last := xs[..|xs| - 1], xs[|xs| - 1];
      BothEach(fam, front, f, rule);
      BothOnNat(fam, rule(last));
      FlatMapConcat(FlatMap(front, f), f(last), NatDns(fam));
    }
  }

  function RulesEach(xs: seq<string>, rule: string -> Rule): (rules: seq<Rule>)
    ensures |rules| == |xs| && forall i :: 0 <= i < |xs| ==> rules[i] == rule(xs[i])
  {
    if xs == [] then [] else RulesEach(xs[..|xs| - 1], rule) + [rule(xs[|xs| - 1])]
  }

  function UdpOwnerReturn(owner: Match): Rule { UdpTo("53", [Is(owner)], Return) }

  function UdpDnsTo(host: string): Rule { UdpTo("53", [Is(Destination(host))], DnsRedirect()) }

  lemma UdpMatches(conds: seq<Cond>, t: Target, p: Packet)
    ensures Matches(UdpTo("53", conds, t).conds, p) <==> Udp53(p) && Matches(conds, p)
  {
    var head := [Is(Protocol("udp")), Is(DestPort("53"))];
    var all := UdpTo("53", conds, t).conds;
    assert all == head + conds;
    assert head[0] in all && head[1] in all;
    assert forall c :: c in conds ==> c in all;
    assert forall c :: c in all ==> c == head[0] || c == head[1] || c in conds;
  }

  /** Rules that differ only in one value: some rule matches when some value does. */
  lemma EachOutcome(fw: Firewall, xs: seq<string>, rule: string -> Rule, t: Target, p: Packet, depth: nat, holds: string -> bool)
    requires Final(t) && forall x :: rule(x).target == t && (Matches(rule(x).conds, p) <==> holds(x))
    ensures Eval(fw, NAT, RulesEach(xs, rule), p, depth) ==
            if exists x :: x in xs && holds(x) then FinalOutcome(t, p) else Ended(p)
  {
    var rules := RulesEach(xs, rule);
    if x :| x in xs && holds(x) {
      var i :| 0 <= i < |xs| && xs[i] == x;
      assert rules[i] in rules && Matches(rules[i].conds, p);
    }
    EvalUniform(fw, NAT, rules, t, p, depth);
  }

  lemma OwnersOnNat(fam: Family, names: seq<string>, uid: bool)
    ensures FlatMap(FlatMap(names, if uid then DnsUidReturn() else DnsGidReturn()), NatDns(fam)) ==
            RulesEach(names, (n: string) => UdpOwnerReturn(if uid then UidOwner(n) else GidOwner(n)))
  {
    var rule := (n: string) => UdpOwnerReturn(if uid then UidOwner(n) else GidOwner(n));
    if uid {
      BothEach(fam, names, DnsUidReturn(), rule);
    } else {
      BothEach(fam, names, DnsGidReturn(), rule);
    }
  }

  lemma UdpOwners(fw: Firewall, fam: Family, names: seq<string>, uid: bool, p: Packet, depth: nat)
    ensures Eval(fw, NAT, FlatMap(FlatMap(names, if uid then DnsUidReturn() else DnsGidReturn()), NatDns(fam)), p, depth) ==
            if Udp53(p) && exists n :: n in names && p(if uid then UidOwner(n) else GidOwner(n)) then Returned(p) else Ended(p)
  {
    var rule := (n: string) => UdpOwnerReturn(if uid then UidOwner(n) else GidOwner(n));
    var holds := (n: string) => Udp53(p) && p(if uid then UidOwner(n) else GidOwner(n));
    OwnersOnNat(fam, names, uid);
    forall n ensures Matches(rule(n).conds, p) <==> holds(n) {
      var conds := [Is(if uid then UidOwner(n) else GidOwner(n))];
      UdpMatches(conds, Return, p);
      assert conds[0] in conds;
    }
    EachOutcome(fw, names, rule, Return, p, depth, holds);
  }

  lemma UdpGroups(fw: Firewall, fam: Family, filter: InterceptFilter, p: Packet, depth: nat)
    ensures Eval(fw, NAT, FlatMap(DnsGroupReturns(filter), NatDns(fam)), p, depth) ==
            if Udp53(p) && !GroupPasses(filter, p) then Returned(p) else Ended(p)
  {
    if filter.except {
      UdpOwners(fw, fam, filter.values, false, p, depth);
    } else {
      var r := UdpTo("53", NoneOf(filter.values), Return);
      BothOnNat(fam, r);
      UdpMatches(NoneOf(filter.values), Return, p);
      NoneOfMatches(filter.values, p);
      EvalOne(fw, NAT, r, p, depth);
    }
  }

  lemma {:induction false} ServersOnNat(fam: Family, of: Family, hosts: seq<string>)
    ensures FlatMap(FlatMap(hosts, DnsServerRedirect(of)), NatDns(fam)) ==
            if of == fam then RulesEach(hosts, (h: string) => UdpDnsTo(h)) else []
  {
    if hosts != [] {
      var front, last := hosts[..|hosts| - 1], hosts[|hosts| - 1];
      ServersOnNat(fam, of, front);
      var a := Applied(of, OUTPUT, NAT, UdpDnsTo(last));
      FlatMapPush(FlatMap(front, DnsServerRedirect(of)), NatDns(fam), a);
      assert DnsServerRedirect(of)(last) == [a];
    }
  }

  lemma ServersOutcome(fw: Firewall, hosts: seq<string>, p: Packet, depth: nat)
    ensures Eval(fw, NAT, RulesEach(hosts, (h: string) => UdpDnsTo(h)), p, depth) ==
            if Udp53(p) && ToAny(hosts, p) then Decided(Redirected(DNS_PORT), p) else Ended(p)
  {
    var rule := (h: string) => UdpDnsTo(h);
    var holds := (h: string) => Udp53(p) && p(Destination(h));
    forall h ensures Matches(rule(h).conds, p) <==> holds(h) {
      UdpMatches([Is(Destination(h))], DnsRedirect(), p);
      assert [Is(Destination(h))][0] in [Is(Destination(h))];
    }
    EachOutcome(fw, hosts, rule, DnsRedirect(), p, depth, holds);
  }

  lemma AllRedirect(fw: Firewall, fam: Family, p: Packet, depth: nat)
    ensures Eval(fw, NAT, FlatMap(Both(OUTPUT, NAT, UdpTo("53", [], DnsRedirect())), NatDns(fam)), p, depth) ==
            if Udp53(p) then Decided(Redirected(DNS_PORT), p) else Ended(p)
  {
    var r := UdpTo("53", [], DnsRedirect());
    BothOnNat(fam, r);
    UdpMatches([], DnsRedirect(), p);
    EvalOne(fw, NAT, r, p, depth);
  }

  lemma ServerRedirects(fw: Firewall, fam: Family, hosts4: seq<string>, hosts6: seq<string>, p: Packet, depth: nat)
    ensures Eval(fw, NAT, FlatMap(DnsRedirects(hosts4, hosts6, false), NatDns(fam)), p, depth) ==
            if Udp53(p) && ToAny(if fam.V4? then hosts4 else hosts6, p) then Decided(Redirected(DNS_PORT), p) else Ended(p)
  {
    FlatMapConcat(FlatMap(hosts4, DnsServerRedirect(V4)), FlatMap(hosts6, DnsServerRedirect(V6)), NatDns(fam));
    ServersOnNat(fam, V4, hosts4);
    ServersOnNat(fam, V6, hosts6);
    var rules := RulesEach(if fam.V4? then hosts4 else hosts6, (h: string) => UdpDnsTo(h));
    assert rules + [] == rules && [] + rules == rules;
    ServersOutcome(fw, if fam.V4? then hosts4 else hosts6, p, depth);
  }

  lemma UdpRedirects(fw: Firewall, s: Setup, fam: Family, p: Packet, depth: nat)
    requires s.cfg.redirectDNS
    ensures Eval(fw, NAT, FlatMap(DnsRedirects(s.hosts4, s.hosts6, s.cfg.captureAllDNS), NatDns(fam)), p, depth) ==
            if p(Protocol("udp")) && DnsCaptured(s, fam, p) then Decided(Redirected(DNS_PORT), p) else Ended(p)
  {
    if s.cfg.captureAllDNS {
      AllRedirect(fw, fam, p, depth);
    } else {
      ServerRedirects(fw, fam, s.hosts4, s.hosts6, p, depth);
    }
  }

  /** The conntrack zones are in another table. */
  lemma ZonesNotOnNat(fam: Family, uids: seq<string>, gids: seq<string>, hosts4: seq<string>, hosts6: seq<string>, all: bool)
    ensures FlatMap(ConntrackZones(uids, gids, hosts4, hosts6, all), NatDns(fam)) == []
  {
    var zones := ConntrackZones(uids, gids, hosts4, hosts6, all);
    forall a | a in zones ensures NatDns(fam)(a) == [] {
      ZonesOnRaw(uids, gids, hosts4, hosts6, all, a);
    }
    FlatMapNothing(zones, NatDns(fam));
  }

  lemma ZonesOnRaw(uids: seq<string>, gids: seq<string>, hosts4: seq<string>, hosts6: seq<string>, all: bool, a: Applied)
    requires a in ConntrackZones(uids, gids, hosts4, hosts6, all)
    ensures a.table == RAW
  {
    if a in FlatMap(uids, ZoneOfUid()) {
      FlatMapMember(uids, ZoneOfUid(), a);
    } else if a in FlatMap(gids, ZoneOfGid()) {
      FlatMapMember(gids, ZoneOfGid(), a);
    } else if !all {
      if a in FlatMap(hosts4, ZoneOfServer(V4)) {
        FlatMapMember(hosts4, ZoneOfServer(V4), a);
      } else {
        FlatMapMember(hosts6, ZoneOfServer(V6), a);
      }
    }
  }

  lemma UdpDnsParts(fam: Family, a: seq<Applied>, b: seq<Applied>, c: seq<Applied>, d: seq<Applied>, e: seq<Applied>)
    requires FlatMap(e, NatDns(fam)) == []
    ensures FlatMap(a + b + c + d + e, NatDns(fam)) ==
            FlatMap(a, NatDns(fam)) + FlatMap(b, NatDns(fam)) + FlatMap(c, NatDns(fam)) + FlatMap(d, NatDns(fam))
  {
    FlatMapConcat(a, b, NatDns(fam));
    FlatMapConcat(a + b, c, NatDns(fam));
    FlatMapConcat(a + b + c, d, NatDns(fam));
    FlatMapConcat(a + b + c + d, e, NatDns(fam));
  }

  /** What the DNS rules of the nat OUTPUT chain do to any packet. */
  lemma UdpOutcome(fw: Firewall, s: Setup, fam: Family, p: Packet, depth: nat)
    ensures Eval(fw, NAT, PhaseContent(s, fam, ChainId(NAT, OUTPUT))(UdpDns), p, depth) == UdpWanted(s, fam, p)
  {
    NatDnsContent(s, fam);
    if s.cfg.redirectDNS {
      AppliedOnNat(fam, DnsUdp(s.cfg.Uids(), s.cfg.Gids(), s.hosts4, s.hosts6, s.cfg.captureAllDNS, s.cfg.Filter()));
      UdpRulesOutcome(fw, s, fam, s.cfg.Uids(), s.cfg.Gids(), s.cfg.Filter(), p, depth);
    }
  }

  function UdpWanted(s: Setup, fam: Family, p: Packet): Outcome {
    if !s.cfg.redirectDNS then Ended(p)
    else if Udp53(p) && (Owned(s.cfg, p) || !GroupPasses(s.cfg.Filter(), p)) then Returned(p)
    else if p(Protocol("udp")) && DnsCaptured(s, fam, p) then Decided(Redirected(DNS_PORT), p)
    else Ended(p)
  }

  /** The four groups of DNS rules, one after the other. */
  lemma CombineUdp(fw: Firewall, s: Setup, fam: Family, a: seq<Rule>, b: seq<Rule>, c: seq<Rule>, d: seq<Rule>, p: Packet, depth: nat)
    requires s.cfg.redirectDNS
    requires Eval(fw, NAT, a, p, depth) == if Udp53(p) && exists n :: n in s.cfg.Uids() && p(UidOwner(n)) then Returned(p) else Ended(p)
    requires Eval(fw, NAT, b, p, depth) == if Udp53(p) && exists n :: n in s.cfg.Gids() && p(GidOwner(n)) then Returned(p) else Ended(p)
    requires Eval(fw, NAT, c, p, depth) == if Udp53(p) && !GroupPasses(s.cfg.Filter(), p) then Returned(p) else Ended(p)
    requires Eval(fw, NAT, d, p, depth) ==
             if p(Protocol("udp")) && DnsCaptured(s, fam, p) then Decided(Redirected(DNS_PORT), p) else Ended(p)
    ensures Eval(fw, NAT, a + b + c + d, p, depth) == UdpWanted(s, fam, p)
  {
    EvalFour(fw, NAT, a, b, c, d, p, depth);
  }

  lemma UdpRulesOutcome(fw: Firewall, s: Setup, fam: Family, uids: seq<string>, gids: seq<string>, filter: InterceptFilter, p: Packet, depth: nat)
    requires s.cfg.redirectDNS
    requires uids == s.cfg.Uids() && gids == s.cfg.Gids() && filter == s.cfg.Filter()
    ensures Eval(fw, NAT, FlatMap(DnsUdp(uids, gids, s.hosts4, s.hosts6, s.cfg.captureAllDNS, filter), NatDns(fam)), p, depth) ==
            UdpWanted(s, fam, p)
  {
    UdpOwners(fw, fam, uids, true, p, depth);
    UdpOwners(fw, fam, gids, false, p, depth);
    UdpGroups(fw, fam, filter, p, depth);
    UdpRedirects(fw, s, fam, p, depth);
    var a, b, c := FlatMap(uids, DnsUidReturn()), FlatMap(gids, DnsGidReturn()), DnsGroupReturns(filter);
    var d := DnsRedirects(s.hosts4, s.hosts6, s.cfg.captureAllDNS);
    CombineUdp(fw, s, fam, FlatMap(a, NatDns(fam)), FlatMap(b, NatDns(fam)), FlatMap(c, NatDns(fam)), FlatMap(d, NatDns(fam)), p, depth);
    DnsUdpOnNat(fam, uids, gids, s.hosts4, s.hosts6, s.cfg.captureAllDNS, filter);
  }

  lemma DnsUdpOnNat(fam: Family, uids: seq<string>, gids: seq<string>, hosts4: seq<string>, hosts6: seq<string>, all: bool, filter: InterceptFilter)
    ensures FlatMap(DnsUdp(uids, gids, hosts4, hosts6, all, filter), NatDns(fam)) ==
            FlatMap(FlatMap(uids, DnsUidReturn()), NatDns(fam)) + FlatMap(FlatMap(gids, DnsGidReturn()), NatDns(fam)) +
            FlatMap(DnsGroupReturns(filter), NatDns(fam)) + FlatMap(DnsRedirects(hosts4, hosts6, all), NatDns(fam))
  {
    ZonesNotOnNat(fam, uids, gids, hosts4, hosts6, all);
    UdpDnsParts(fam, FlatMap(uids, DnsUidReturn()), FlatMap(gids, DnsGidReturn()), DnsGroupReturns(filter),
                DnsRedirects(hosts4, hosts6, all), ConntrackZones(uids, gids, hosts4, hosts6, all));
  }
}
