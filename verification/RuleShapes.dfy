/** The tokens of each shape of rule the source writes, and how recorded calls add up. */
module RuleShapes {
  import opened Sequences
  import opened Netfilter
  import opened Builder
  import opened Capture

  // ---------------------------------------------------------------- tokens of rules with a fixed shape

  lemma Tokens0(t: Target)
    ensures RuleTokens(Rule([], t)) == TargetTokens(t)
  {
  }

  lemma TokensPush(a: Cond, conds: seq<Cond>, t: Target)
    ensures RuleTokens(Rule([a] + conds, t)) == CondTokens(a) + RuleTokens(Rule(conds, t))
  {
    assert ([a] + conds)[1..] == conds;
    RuleTokensCons([a] + conds, t);
  }

  lemma Tokens1(a: Cond, t: Target)
    ensures RuleTokens(Rule([a], t)) == CondTokens(a) + TargetTokens(t)
  {
    assert [a] == [a] + [];
    TokensPush(a, [], t);
    Tokens0(t);
  }

  lemma Tokens2(a: Cond, b: Cond, t: Target)
    ensures RuleTokens(Rule([a, b], t)) == CondTokens(a) + (CondTokens(b) + TargetTokens(t))
  {
    assert [a, b] == [a] + [b];
    TokensPush(a, [b], t);
    Tokens1(b, t);
  }

  lemma Tokens3(a: Cond, b: Cond, c: Cond, t: Target)
    ensures RuleTokens(Rule([a, b, c], t)) == CondTokens(a) + (CondTokens(b) + (CondTokens(c) + TargetTokens(t)))
  {
    assert [a, b, c] == [a] + [b, c];
    TokensPush(a, [b, c], t);
    Tokens2(b, c, t);
  }

  lemma Tokens4(a: Cond, b: Cond, c: Cond, d: Cond, t: Target)
    ensures RuleTokens(Rule([a, b, c, d], t)) ==
            CondTokens(a) + (CondTokens(b) + (CondTokens(c) + (CondTokens(d) + TargetTokens(t))))
  {
    assert [a, b, c, d] == [a] + [b, c, d];
    TokensPush(a, [b, c, d], t);
    Tokens3(b, c, d, t);
  }

  lemma Tokens5(a: Cond, b: Cond, c: Cond, d: Cond, e: Cond, t: Target)
    ensures RuleTokens(Rule([a, b, c, d, e], t)) ==
            CondTokens(a) + (CondTokens(b) + (CondTokens(c) + (CondTokens(d) + (CondTokens(e) + TargetTokens(t)))))
  {
    assert [a, b, c, d, e] == [a] + [b, c, d, e];
    TokensPush(a, [b, c, d, e], t);
    Tokens4(b, c, d, e, t);
  }

  lemma {:induction false} CondsTokensConcat(a: seq<Cond>, b: seq<Cond>)
    ensures CondsTokens(a + b) == CondsTokens(a) + CondsTokens(b)
    decreases |a|
  {
    if a == [] {
      assert a + b == b;
    } else {
      assert (a + b)[1..] == a[1..] + b;
      CondsTokensConcat(a[1..], b);
    }
  }

  function NotGroupTokens(): string -> seq<string> {
    (group: string) => ["-m", "owner", "!", "--gid-owner", group]
  }

  lemma {:induction false} NoneOfTokens(groups: seq<string>)
    ensures FlatMap(groups, NotGroupTokens()) == CondsTokens(NoneOf(groups))
  {
    if groups != [] {
      var front, last := groups[..|groups| - 1], groups[|groups| - 1];
      NoneOfTokens(front);
      FlatMapPush(front, NotGroup(), last);
      assert front + [last] == groups;
      CondsTokensConcat(NoneOf(front), NotGroup()(last));
      assert CondsTokens([Not(GidOwner(last))]) == CondTokens(Not(GidOwner(last)));
      assert CondTokens(Not(GidOwner(last))) == NotGroupTokens()(last);
    }
  }

  /** CombineMatchers with the owner-group test: the tokens of all the tests in one list. */
  method CombineGroupMatchers(groups: seq<string>) returns (tokens: seq<string>)
    ensures tokens == CondsTokens(NoneOf(groups))
  {
    tokens := [];
    for i := 0 to |groups|
      invariant tokens == FlatMap(groups[..i], NotGroupTokens())
    {
      FlatMapStep(groups, NotGroupTokens(), i);
      tokens := tokens + ["-m", "owner", "!", "--gid-owner", groups[i]];
    }
    FlatMapWhole(groups, NotGroupTokens());
    NoneOfTokens(groups);
  }

  // ---------------------------------------------------------------- version-specific rules

  /** The source's rules before the placeholder is replaced, and what replacing it gives. */

  lemma BackToSelfVersioned(dns: bool, fam: Family, owner: Match, owner': Match)
    requires owner == UidOwner(owner.value) || owner == GidOwner(owner.value)
    requires owner' == SubMatch(Loopback(fam), owner)
    ensures SubRule(Loopback(fam), BackToSelfTemplate(dns, owner)) == BackToSelfRule(dns, fam, owner')
  {
  }

  function BackToSelfTemplate(dns: bool, owner: Match): Rule {
    if dns then
      Rule([Is(OutInterface("lo")), Not(Destination(IP_VERSION_SPECIFIC)), Tcp(), Not(DestPort("53")), Is(owner)],
           Jump(ISTIO_IN_REDIRECT))
    else
      Rule([Is(OutInterface("lo")), Not(Destination(IP_VERSION_SPECIFIC)), Is(owner)], Jump(ISTIO_IN_REDIRECT))
  }

  function MarkTemplate(owner: Match): Rule {
    Rule([Not(Destination(IP_VERSION_SPECIFIC)), Tcp(), Is(OutInterface("lo")), Is(owner)], SetMark(OUTBOUND_MARK))
  }

  lemma MarkVersioned(fam: Family, owner: Match)
    requires owner == UidOwner(owner.value) || owner == GidOwner(owner.value)
    ensures SubRule(Loopback(fam), MarkTemplate(owner)) == MarkRule(fam, SubMatch(Loopback(fam), owner))
  {
  }

  function TproxyTemplate(cfg: Config): Rule {
    Rule([Not(Destination(IP_VERSION_SPECIFIC)), Tcp()],
         Tproxy(cfg.inboundTProxyMark + "/0xffffffff", cfg.inboundCapturePort))
  }

  lemma TproxyVersioned(cfg: Config, fam: Family)
    ensures SubRule(Loopback(fam), TproxyTemplate(cfg)) == TproxyRule(cfg, fam)
  {
  }

  function PassthroughTemplate(): Rule {
    Rule([Is(OutInterface("lo")), Is(Source(IP_VERSION_SPECIFIC))], Return)
  }

  lemma PassthroughVersioned(fam: Family)
    ensures SubRule(PassthroughSource(fam), PassthroughTemplate()) ==
            PassthroughRule(fam)
  {
  }

  lemma LoopbackVersioned(fam: Family)
    ensures SubRule(Loopback(fam), ToRange(IP_VERSION_SPECIFIC, Return)) == ToRange(Loopback(fam), Return)
  {
  }

  lemma TcpPortTokens(port: string, target: string, t: Target)
    requires TargetTokens(t) == ["-j", target]
    ensures RuleTokens(TcpPortRule(port, t)) == ["-p", "tcp", "--dport", port, "-j", target]
  {
    Tokens2(Tcp(), Is(DestPort(port)), t);
  }

  lemma InterfaceTokens(name: string, target: string, t: Target)
    requires TargetTokens(t) == ["-j", target]
    ensures RuleTokens(Rule([Is(InInterface(name))], t)) == ["-i", name, "-j", target]
    ensures RuleTokens(Rule([Is(OutInterface(name))], t)) == ["-o", name, "-j", target]
  {
    Tokens1(Is(InInterface(name)), t);
    Tokens1(Is(OutInterface(name)), t);
  }

  lemma TcpTokens(target: string, t: Target)
    requires TargetTokens(t) == ["-j", target]
    ensures RuleTokens(TcpRule(t)) == ["-p", "tcp", "-j", target]
  {
    Tokens1(Tcp(), t);
  }

  lemma TcpRedirectTokens(port: string)
    ensures RuleTokens(TcpRule(Redirect("--to-ports", port))) == ["-p", "tcp", "-j", "REDIRECT", "--to-ports", port]
  {
    Tokens1(Tcp(), Redirect("--to-ports", port));
  }

  lemma RangeTokens(cidr: string, target: string, t: Target)
    requires TargetTokens(t) == ["-j", target]
    ensures RuleTokens(ToRange(cidr, t)) == ["-d", cidr, "-j", target]
  {
    Tokens1(Is(Destination(cidr)), t);
  }

  lemma MarkAcceptTokens(mark: string)
    ensures RuleTokens(Rule([], SetMark(mark))) == ["-j", "MARK", "--set-mark", mark]
    ensures RuleTokens(Rule([], Accept)) == ["-j", "ACCEPT"]
  {
    Tokens0(SetMark(mark));
    Tokens0(Accept);
  }

  lemma EstablishedTokens(port: string)
    ensures RuleTokens(EstablishedRule()) ==
            ["-p", "tcp", "-m", "conntrack", "--ctstate", ESTABLISHED, "-j", ISTIO_DIVERT]
    ensures RuleTokens(EstablishedPortRule(port)) ==
            ["-p", "tcp", "--dport", port, "-m", "conntrack", "--ctstate", ESTABLISHED, "-j", ISTIO_DIVERT]
  {
    Tokens2(Tcp(), Is(CtState(ESTABLISHED)), Jump(ISTIO_DIVERT));
    Tokens3(Tcp(), Is(DestPort(port)), Is(CtState(ESTABLISHED)), Jump(ISTIO_DIVERT));
  }

  lemma TproxyTokens(cfg: Config)
    ensures RuleTokens(TproxyTemplate(cfg)) ==
            ["!", "-d", IP_VERSION_SPECIFIC, "-p", "tcp", "-j", "TPROXY",
             "--tproxy-mark", cfg.inboundTProxyMark + "/0xffffffff", "--on-port", cfg.inboundCapturePort]
  {
    var r := TproxyTemplate(cfg);
    Tokens2(r.conds[0], r.conds[1], r.target);
  }

  lemma Triple(before: seq<Call>, added: seq<Call>)
    requires |added| == 3
    ensures before + [added[0]] + [added[1]] + [added[2]] == before + added
  {
  }

  lemma MangleJoin(before: seq<Call>, a: seq<Rule>, b: seq<Rule>)
    ensures before + Calls(UNDEFINED_COMMAND, OUTPUT, MANGLE, a) + Calls(UNDEFINED_COMMAND, OUTPUT, MANGLE, b) ==
            before + Calls(UNDEFINED_COMMAND, OUTPUT, MANGLE, a + b)
  {
    CallsConcat(UNDEFINED_COMMAND, OUTPUT, MANGLE, a, b);
    Assoc(before, Calls(UNDEFINED_COMMAND, OUTPUT, MANGLE, a), Calls(UNDEFINED_COMMAND, OUTPUT, MANGLE, b));
  }

  lemma NothingBefore(a: seq<Call>, b: seq<Call>)
    ensures [] + a == a && [] + b == b
  {
  }

  lemma PairUp<T>(before: seq<T>, a: T, b: T)
    ensures before + [a] + [b] == before + [a, b]
  {
  }

  lemma SegmentsInOrder()
    ensures [] + [ExcludedPorts] + [Passthrough] + [ProxyUsers] + [ProxyGroups] + [OwnerGroups] + [TcpDns] + [ToLoopback] +
            [ExcludedRanges] + [IncludedPorts] == Segments()
  {
  }

  lemma NoRules()
    ensures OutCalls([]) == []
  {
  }

  lemma OutJoinBoth(before4: seq<Call>, before6: seq<Call>, a4: seq<Rule>, a6: seq<Rule>, b4: seq<Rule>, b6: seq<Rule>)
    ensures before4 + OutCalls(a4) + OutCalls(b4) == before4 + OutCalls(a4 + b4)
    ensures before6 + OutCalls(a6) + OutCalls(b6) == before6 + OutCalls(a6 + b6)
  {
    OutJoin(before4, a4, b4);
    OutJoin(before6, a6, b6);
  }

  /** The owner test of a proxy user (`uid`) or group. */
  function Owner(uid: bool, owner: string): Match {
    if uid then UidOwner(owner) else GidOwner(owner)
  }

  function OwnerFlag(uid: bool): string {
    if uid then "--uid-owner" else "--gid-owner"
  }

  lemma Cat4<T>(a: T, b: T, c: T, d: T, e: T, f: T, g: T, rest: seq<T>)
    ensures [a, b] + ([c, d] + ([e, f, g] + rest)) == [a, b, c, d, e, f, g] + rest
  {
  }

  lemma Cat5<T>(a: T, b: T, c: T, d: T, e: T, rest: seq<T>)
    ensures [a, b] + ([c, d, e] + rest) == [a, b, c, d, e] + rest
  {
  }

  lemma BackToSelfTokens(uid: bool, owner: string)
    ensures RuleTokens(BackToSelfTemplate(false, Owner(uid, owner))) ==
            ["-o", "lo", "!", "-d", IP_VERSION_SPECIFIC] + (["-m", "owner", OwnerFlag(uid), owner] + ["-j", ISTIO_IN_REDIRECT])
  {
    OwnerTokens(uid, owner);
    FixedTestTokens();
    var m, j := CondTokens(Is(Owner(uid, owner))), TargetTokens(Jump(ISTIO_IN_REDIRECT));
    Tokens3(Is(OutInterface("lo")), Not(Destination(IP_VERSION_SPECIFIC)), Is(Owner(uid, owner)), Jump(ISTIO_IN_REDIRECT));
    Cat5("-o", "lo", "!", "-d", IP_VERSION_SPECIFIC, m + j);
  }

  lemma BackToSelfDnsTokens(uid: bool, owner: string)
    ensures RuleTokens(BackToSelfTemplate(true, Owner(uid, owner))) ==
            ["-o", "lo", "!", "-d", IP_VERSION_SPECIFIC] +
            (["-p", "tcp", "!", "--dport", "53"] + (["-m", "owner", OwnerFlag(uid), owner] + ["-j", ISTIO_IN_REDIRECT]))
  {
    OwnerTokens(uid, owner);
    var m, j := CondTokens(Is(Owner(uid, owner))), TargetTokens(Jump(ISTIO_IN_REDIRECT));
    Tokens5(Is(OutInterface("lo")), Not(Destination(IP_VERSION_SPECIFIC)), Tcp(), Not(DestPort("53")),
            Is(Owner(uid, owner)), Jump(ISTIO_IN_REDIRECT));
    Cat5("-p", "tcp", "!", "--dport", "53", m + j);
    Cat5("-o", "lo", "!", "-d", IP_VERSION_SPECIFIC, ["-p", "tcp", "!", "--dport", "53"] + (m + j));
    FixedTestTokens();
  }

  lemma FixedTestTokens()
    ensures CondTokens(Is(OutInterface("lo"))) == ["-o", "lo"]
    ensures CondTokens(Not(Destination(IP_VERSION_SPECIFIC))) == ["!", "-d", IP_VERSION_SPECIFIC]
    ensures CondTokens(Tcp()) == ["-p", "tcp"]
    ensures CondTokens(Not(DestPort("53"))) == ["!", "--dport", "53"]
  {
  }

  lemma OwnerTokens(uid: bool, owner: string)
    ensures CondTokens(Is(Owner(uid, owner))) == ["-m", "owner", OwnerFlag(uid), owner]
    ensures CondTokens(Not(Owner(uid, owner))) == ["-m", "owner", "!", OwnerFlag(uid), owner]
  {
  }

  lemma LoopbackReturnTokens(dns: bool, uid: bool, owner: string)
    ensures RuleTokens(LoopbackReturnRule(dns, Owner(uid, owner))) ==
            if dns then
              ["-o", "lo", "-p", "tcp", "!", "--dport", "53"] + ["-m", "owner", "!", OwnerFlag(uid), owner, "-j", "RETURN"]
            else
              ["-o", "lo"] + ["-m", "owner", "!", OwnerFlag(uid), owner, "-j", "RETURN"]
  {
    var m := Not(Owner(uid, owner));
    OwnerTokens(uid, owner);
    var tail := ["-m", "owner", "!", OwnerFlag(uid), owner, "-j", "RETURN"];
    assert CondTokens(m) + TargetTokens(Return) == tail;
    if dns {
      NonDnsReturnTokens(m, tail);
    } else {
      Tokens2(Is(OutInterface("lo")), m, Return);
    }
  }

  lemma NonDnsReturnTokens(m: Cond, tail: seq<string>)
    requires CondTokens(m) + TargetTokens(Return) == tail
    ensures RuleTokens(Rule([Is(OutInterface("lo")), Tcp(), Not(DestPort("53")), m], Return)) ==
            ["-o", "lo", "-p", "tcp", "!", "--dport", "53"] + tail
  {
    Tokens4(Is(OutInterface("lo")), Tcp(), Not(DestPort("53")), m, Return);
    Cat4("-o", "lo", "-p", "tcp", "!", "--dport", "53", tail);
  }

  lemma OwnerReturnTokens(uid: bool, owner: string)
    ensures RuleTokens(OwnerReturnRule(Owner(uid, owner))) == ["-m", "owner", OwnerFlag(uid), owner, "-j", "RETURN"]
  {
    Tokens1(Is(Owner(uid, owner)), Return);
  }

  // ---------------------------------------------------------------- joining what was added

  function OutCalls(rules: seq<Rule>): seq<Call> {
    Calls(UNDEFINED_COMMAND, ISTIO_OUTPUT, NAT, rules)
  }

  lemma OutOne(r: Rule)
    ensures OutCalls([r]) == [AppendCall(UNDEFINED_COMMAND, ISTIO_OUTPUT, NAT, r)]
  {
    CallsOne(UNDEFINED_COMMAND, ISTIO_OUTPUT, NAT, r);
  }

  lemma OutJoin(before: seq<Call>, a: seq<Rule>, b: seq<Rule>)
    ensures before + OutCalls(a) + OutCalls(b) == before + OutCalls(a + b)
  {
    CallsConcat(UNDEFINED_COMMAND, ISTIO_OUTPUT, NAT, a, b);
    Assoc(before, OutCalls(a), OutCalls(b));
  }

  lemma Nothing(before4: seq<Call>, before6: seq<Call>)
    ensures before4 + [] == before4 && before6 + [] == before6
  {
  }

  lemma Pair(before4: seq<Call>, before6: seq<Call>, a: Call, b: Call)
    ensures before4 + [a] + [b] == before4 + [a, b] && before6 + [a] + [b] == before6 + [a, b]
  {
  }

  lemma JoinInbound(before: seq<Call>, cfg: Config, fam: Family)
    requires cfg.inboundPortsInclude != ""
    ensures var jump := [AppendCall(JUMP_INBOUND, PREROUTING, InboundTable(cfg), TcpRule(Jump(ISTIO_INBOUND)))];
            before + (if cfg.UsesTproxy() then DivertCalls(cfg, fam) else []) + jump + InboundPortCalls(cfg) ==
            before + InboundCalls(cfg, fam)
  {
    var divert := if cfg.UsesTproxy() then DivertCalls(cfg, fam) else [];
    var jump := [AppendCall(JUMP_INBOUND, PREROUTING, InboundTable(cfg), TcpRule(Jump(ISTIO_INBOUND)))];
    Assoc(before, divert, jump);
    Assoc(before, divert + jump, InboundPortCalls(cfg));
  }

  lemma TcpDnsTokens(address: string)
    ensures RuleTokens(TcpDnsRule(address)) ==
            ["-p", "tcp", "--dport", "53"] + (["-d", address] + ["-j", "REDIRECT", "--to-ports", DNS_PORT])
    ensures RuleTokens(TcpPortRule("53", TcpDnsRedirect())) ==
            ["-p", "tcp", "--dport", "53"] + ["-j", "REDIRECT", "--to-ports", DNS_PORT]
  {
    var t := TargetTokens(TcpDnsRedirect());
    Tokens3(Tcp(), Is(DestPort("53")), Is(Destination(address)), TcpDnsRedirect());
    Tokens2(Tcp(), Is(DestPort("53")), TcpDnsRedirect());
    CatPairs("-p", "tcp", "--dport", "53", ["-d", address] + t);
    CatPairs("-p", "tcp", "--dport", "53", t);
  }

  lemma CatPairs<T>(a: T, b: T, c: T, d: T, rest: seq<T>)
    ensures [a, b] + ([c, d] + rest) == [a, b, c, d] + rest
  {
  }

  lemma PassthroughTokens()
    ensures RuleTokens(PassthroughTemplate()) == ["-o", "lo", "-s", IP_VERSION_SPECIFIC, "-j", "RETURN"]
  {
    Tokens2(Is(OutInterface("lo")), Is(Source(IP_VERSION_SPECIFIC)), Return);
  }

  lemma KubeRangeTokens(name: string, cidr: string)
    ensures RuleTokens(Rule([Is(InInterface(name)), Is(Destination(cidr))], Jump(ISTIO_REDIRECT))) ==
            ["-i", name, "-d", cidr, "-j", ISTIO_REDIRECT]
  {
    Tokens2(Is(InInterface(name)), Is(Destination(cidr)), Jump(ISTIO_REDIRECT));
  }

  lemma BareTokens()
    ensures RuleTokens(Rule([], Jump(ISTIO_REDIRECT))) == ["-j", ISTIO_REDIRECT]
    ensures RuleTokens(Rule([], Return)) == ["-j", "RETURN"]
  {
    Tokens0(Jump(ISTIO_REDIRECT));
    Tokens0(Return);
  }

  lemma DropInvalidTokens()
    ensures RuleTokens(Rule([Is(CtState("INVALID"))], Drop)) == ["-m", "conntrack", "--ctstate", "INVALID", "-j", "DROP"]
  {
    Tokens1(Is(CtState("INVALID")), Drop);
  }

  lemma SaveMarkTokens(mark: string)
    ensures RuleTokens(SaveMarkRule(mark)) == ["-p", "tcp"] + (["-m", "mark", "--mark", mark] + ["-j", "CONNMARK", "--save-mark"])
  {
    Tokens2(Tcp(), Is(Mark(mark)), SaveMark);
  }

  lemma RestoreMarkTokens(mark: string)
    ensures RuleTokens(RestoreMarkRule(mark)) ==
            ["-p", "tcp"] + (["-m", "connmark", "--mark", mark] + ["-j", "CONNMARK", "--restore-mark"])
  {
    Tokens2(Tcp(), Is(ConnMark(mark)), RestoreMark);
  }

  lemma MarkedReturnTokens(mark: string)
    ensures RuleTokens(MarkedLoopbackRule(mark)) ==
            ["-p", "tcp", "-o", "lo"] + (["-m", "mark", "--mark", mark] + ["-j", "RETURN"])
    ensures RuleTokens(MarkedInboundRule(mark)) == ["-p", "tcp"] + (["-m", "mark", "--mark", mark] + ["-j", "RETURN"])
  {
    MarkedLoopbackTokens(mark);
    Tokens2(Tcp(), Is(Mark(mark)), Return);
  }

  lemma MarkedLoopbackTokens(mark: string)
    ensures RuleTokens(MarkedLoopbackRule(mark)) ==
            ["-p", "tcp", "-o", "lo"] + (["-m", "mark", "--mark", mark] + ["-j", "RETURN"])
  {
    Tokens3(Tcp(), Is(OutInterface("lo")), Is(Mark(mark)), Return);
    CatPairs("-p", "tcp", "-o", "lo", CondTokens(Is(Mark(mark))) + TargetTokens(Return));
  }

  lemma FromPassthroughTokens(source: string)
    ensures RuleTokens(FromPassthroughRule(source)) == ["-p", "tcp", "-s", source] + (["-i", "lo"] + ["-j", "RETURN"])
  {
    Tokens3(Tcp(), Is(Source(source)), Is(InInterface("lo")), Return);
    CatPairs("-p", "tcp", "-s", source, ["-i", "lo"] + ["-j", "RETURN"]);
  }

  lemma UnmarkedLoopbackTokens()
    ensures RuleTokens(UnmarkedLoopbackRule()) ==
            ["-p", "tcp", "-i", "lo"] + (["-m", "mark", "!", "--mark", OUTBOUND_MARK] + ["-j", "RETURN"])
  {
    NotMarkTokens(OUTBOUND_MARK);
    var rest := CondTokens(Not(Mark(OUTBOUND_MARK))) + TargetTokens(Return);
    Tokens3(Tcp(), Is(InInterface("lo")), Not(Mark(OUTBOUND_MARK)), Return);
    CatPairs("-p", "tcp", "-i", "lo", rest);
  }

  lemma NotMarkTokens(mark: string)
    ensures CondTokens(Not(Mark(mark))) == ["-m", "mark", "!", "--mark", mark]
    ensures CondTokens(Is(InInterface("lo"))) == ["-i", "lo"]
  {
  }

  lemma MarkOwnerTokens(uid: bool, owner: string)
    ensures RuleTokens(MarkTemplate(Owner(uid, owner))) ==
            ["!", "-d", IP_VERSION_SPECIFIC] +
            (["-p", "tcp", "-o", "lo"] + (["-m", "owner", OwnerFlag(uid), owner] + ["-j", "MARK", "--set-mark", OUTBOUND_MARK]))
  {
    OwnerTokens(uid, owner);
    FixedTestTokens();
    var rest := CondTokens(Is(Owner(uid, owner))) + TargetTokens(SetMark(OUTBOUND_MARK));
    Tokens4(Not(Destination(IP_VERSION_SPECIFIC)), Tcp(), Is(OutInterface("lo")), Is(Owner(uid, owner)), SetMark(OUTBOUND_MARK));
    CatPairs("-p", "tcp", "-o", "lo", rest);
  }
}
