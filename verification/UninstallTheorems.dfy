/** Uninstalling undoes installing: exactly in which configurations. */
module UninstallTheorems {
  import opened Optional
  import opened Sequences
  import opened Netfilter
  import opened Commands
  import opened Builder
  import opened CallScripts
  import opened Install
  import opened Capture
  import opened RunFacts
  import opened NeverFails
  import opened Tracing
  import opened Contents
  import opened Traffic
  import opened Cleaner
  import opened Uninstall
  import Text

  /** Redirect mode, no excluded or KubeVirt interfaces, no dropping of invalid packets, no tracing. */
  predicate Removable(cfg: Config) {
    && !cfg.UsesTproxy()
    && Text.Fields(cfg.excludeInterfaces) == []
    && Text.Fields(cfg.kubeVirtInterfaces) == []
    && !cfg.dropInvalid
    && !cfg.traceLogging
  }

  /** The host has none of the DNS rules the cleaner deletes. */
  ghost predicate NoOldRules(fw: Firewall, cfg: CleanConfig) {
    forall a :: a in DnsApplied(cfg) && ChainId(a.table, a.chain) in fw ==> a.rule !in fw[ChainId(a.table, a.chain)]
  }

  /** The DNS servers are those of the configuration. */
  predicate OwnHosts(s: Setup) {
    s.hosts4 == s.cfg.Hosts(V4) && s.hosts6 == s.cfg.Hosts(V6)
  }

  // ---------------------------------------------------------------- what the cleaner deletes from a chain

  function RuleOn(id: ChainId): Applied -> seq<Rule> {
    (a: Applied) => if ChainId(a.table, a.chain) == id then [a.rule] else []
  }

  lemma {:induction false} DnsDeletedOn(id: ChainId, applied: seq<Applied>)
    ensures DeletedOn(id, FlatMap(applied, DeleteOf())) == FlatMap(applied, RuleOn(id))
  {
    if applied != [] {
      var front, last := applied[..|applied| - 1], applied[|applied| - 1];
      DnsDeletedOn(id, front);
      DeletedOnConcat(id, FlatMap(front, DeleteOf()), DeleteOf()(last));
      assert DeleteOf()(last)[1..] == [];
      assert DeletedOn(id, DeleteOf()(last)) == RuleOn(id)(last) + DeletedOn(id, []);
      assert RuleOn(id)(last) + [] == RuleOn(id)(last);
    }
  }

  function JumpDeleted(id: ChainId): seq<Rule> {
    if id == ChainId(NAT, OUTPUT) then [OUTBOUND_JUMP]
    else if id == ChainId(NAT, PREROUTING) || id == ChainId(MANGLE, PREROUTING) then [INBOUND_JUMP]
    else []
  }

  lemma DeletedOnOne(id: ChainId, c: Command)
    requires c.DeleteFrom?
    ensures DeletedOn(id, [c]) == if c.id == id then [c.rule] else []
  {
    assert [c][1..] == [];
  }

  lemma JumpsDeletedOn(id: ChainId)
    ensures DeletedOn(id, JumpDeletes()) == JumpDeleted(id)
  {
    var script := JumpDeletes();
    assert script == [script[0]] + [script[1]] + [script[2]];
    DeletedOnConcat(id, [script[0]] + [script[1]], [script[2]]);
    DeletedOnConcat(id, [script[0]], [script[1]]);
    DeletedOnOne(id, script[0]);
    DeletedOnOne(id, script[1]);
    DeletedOnOne(id, script[2]);
    DistinctIds();
  }

  lemma DistinctIds()
    ensures ChainId(NAT, PREROUTING) != ChainId(MANGLE, PREROUTING)
    ensures ChainId(NAT, PREROUTING) != ChainId(NAT, OUTPUT) && ChainId(MANGLE, PREROUTING) != ChainId(NAT, OUTPUT)
  {
    assert |NAT| != |MANGLE| && |PREROUTING| != |OUTPUT|;
  }

  lemma CleanDeletedOn(id: ChainId, cfg: CleanConfig)
    ensures DeletedOn(id, Deletes(cfg)) == JumpDeleted(id) + FlatMap(DnsApplied(cfg), RuleOn(id))
  {
    DeletedOnConcat(id, JumpDeletes(), FlatMap(DnsApplied(cfg), DeleteOf()));
    JumpsDeletedOn(id);
    DnsDeletedOn(id, DnsApplied(cfg));
  }

  lemma CleanDeletesOnly(cfg: CleanConfig)
    ensures forall c :: c in Deletes(cfg) ==> c.DeleteFrom?
  {
    forall c | c in FlatMap(DnsApplied(cfg), DeleteOf()) ensures c.DeleteFrom? {
      FlatMapMember(DnsApplied(cfg), DeleteOf(), c);
    }
  }

  /** On a host without chains of an earlier run, nothing the cleaner deletes is there. */
  lemma NothingToDelete(fw: Firewall, cfg: CleanConfig, id: ChainId, r: Rule)
    requires Host(fw) && Closed(fw) && NoOldRules(fw, cfg) && id in fw
    requires r in DeletedOn(id, Deletes(cfg))
    ensures r !in fw[id]
  {
    CleanDeletedOn(id, cfg);
    if r in JumpDeleted(id) {
      JumpDeletedShape(id, r);
      NoOldJumps(fw, id, r);
    } else {
      FlatMapMember(DnsApplied(cfg), RuleOn(id), r);
      var a :| a in DnsApplied(cfg) && r in RuleOn(id)(a);
    }
  }

  lemma JumpDeletedShape(id: ChainId, r: Rule)
    requires r in JumpDeleted(id)
    ensures r.target.Jump? && r.target.chain in ISTIO_CHAINS
  {
  }

  lemma NoOldJumps(fw: Firewall, id: ChainId, r: Rule)
    requires Host(fw) && Closed(fw) && id in fw && r.target.Jump? && r.target.chain in ISTIO_CHAINS
    ensures r !in fw[id]
  {
    assert forall x :: x in fw[id] ==> TargetExists(fw, id.table, x.target);
    assert !TargetExists(fw, id.table, r.target);
  }

  // ---------------------------------------------------------------- what a removable run adds to a chain

  function DnsOn(fam: Family, id: ChainId): Applied -> seq<Rule> {
    (a: Applied) => if a.fam == fam && ChainId(a.table, a.chain) == id then [a.rule] else []
  }

  lemma AppliedOnChain(fam: Family, id: ChainId, applied: seq<Applied>)
    ensures FlatMap(FlatMap(applied, AppendOne(fam)), OnChain(id)) == FlatMap(applied, DnsOn(fam, id))
  {
    forall a ensures DnsOn(fam, id)(a) == FlatMap(AppendOne(fam)(a), OnChain(id)) {
      if a.fam == fam {
        var c := AppendCall(UNDEFINED_COMMAND, a.chain, a.table, a.rule);
        FlatMapPush([], OnChain(id), c);
        assert [] + [c] == [c];
      }
    }
    FlatMapTwice(applied, AppendOne(fam), OnChain(id), DnsOn(fam, id));
  }

  lemma {:induction false} DnsOnFewer(fam: Family, id: ChainId, applied: seq<Applied>)
    ensures multiset(FlatMap(applied, DnsOn(fam, id))) <= multiset(FlatMap(applied, RuleOn(id)))
  {
    if applied != [] {
      DnsOnFewer(fam, id, applied[..|applied| - 1]);
    }
  }

  lemma SameApplied(s: Setup)
    requires OwnHosts(s)
    ensures s.cfg.redirectDNS ==>
              DnsApplied(CleanOf(s.cfg)) == DnsUdp(s.cfg.Uids(), s.cfg.Gids(), s.hosts4, s.hosts6, s.cfg.captureAllDNS, s.cfg.Filter())
  {
  }

  lemma UdpDnsContent(s: Setup, fam: Family, id: ChainId)
    requires OwnHosts(s)
    ensures PhaseContent(s, fam, id)(UdpDns) == FlatMap(DnsApplied(CleanOf(s.cfg)), DnsOn(fam, id))
  {
    DnsPhase(s, fam);
    PhaseContentOf(s, fam, id, UdpDns, DnsUdpCalls(s.cfg, fam, s.hosts4, s.hosts6));
    SameApplied(s);
    if s.cfg.redirectDNS {
      AppliedOnChain(fam, id, DnsApplied(CleanOf(s.cfg)));
    }
  }

  /** The phases a removable run does not go through. */
  lemma SilentPhases(s: Setup, fam: Family, phase: Phase)
    requires Removable(s.cfg)
    requires phase in {ExcludedInterfaces, KubeReturns, InvalidDrops, TproxyMarks, TproxyReturns}
    ensures PhaseCalls(s, fam, phase) == []
  {
  }

  lemma SilentContent(s: Setup, fam: Family, id: ChainId, phase: Phase)
    requires Removable(s.cfg) && id.chain in {PREROUTING, OUTPUT}
    requires phase !in {InboundPorts, OutputJump, UdpDns}
    ensures PhaseContent(s, fam, id)(phase) == []
  {
    if phase in {ExcludedInterfaces, KubeReturns, InvalidDrops, TproxyMarks, TproxyReturns} {
      SilentPhases(s, fam, phase);
      PhaseContentOf(s, fam, id, phase, []);
    } else if phase == IncludedRanges {
      IncludedPhase(s, fam);
      PhaseContentOf(s, fam, id, phase, IncludeCalls(s.cfg, s.Included(fam)));
      NoKubeIncludes(s.cfg, s.Included(fam), id);
    } else {
      BuiltInUntouched(phase, id);
      UntouchedEmpty(s, fam, id, phase);
    }
  }

  lemma BuiltInUntouched(phase: Phase, id: ChainId)
    requires id.chain in {PREROUTING, OUTPUT} && phase in {BaseChains, OutputChain}
    ensures id !in Touched(phase)
  {
    assert id.chain in BUILT_IN_CHAINS;
    BuiltInNotIstio(id.chain);
  }

  lemma NoKubeIncludes(cfg: Config, range: NetworkRange, id: ChainId)
    requires Text.Fields(cfg.kubeVirtInterfaces) == [] && id.chain in {PREROUTING, OUTPUT}
    ensures FlatMap(IncludeCalls(cfg, range), OnChain(id)) == []
  {
    BuiltInNotIstio(id.chain);
    forall c | c in IncludeCalls(cfg, range) ensures c.AppendCall? && c.chain == ISTIO_OUTPUT {
      NoKubeInclude(cfg, range, c);
    }
    FlatMapNothing(IncludeCalls(cfg, range), OnChain(id));
  }

  lemma NoKubeInclude(cfg: Config, range: NetworkRange, c: Call)
    requires Text.Fields(cfg.kubeVirtInterfaces) == [] && c in IncludeCalls(cfg, range)
    ensures c.AppendCall? && c.chain == ISTIO_OUTPUT
  {
    if !range.isWildcard && c in FlatMap(range.ipNets, IncludedRange([])) {
      FlatMapMember(range.ipNets, IncludedRange([]), c);
    }
  }

  lemma ThreeBuiltIn<B>(f: Phase -> seq<B>)
    requires forall phase :: phase !in {InboundPorts, OutputJump, UdpDns} ==> f(phase) == []
    ensures FlatMap(Phases(), f) == f(InboundPorts) + f(OutputJump) + f(UdpDns)
  {
    AllPhases(f);
  }

  lemma InboundContent(s: Setup, fam: Family, id: ChainId)
    requires Removable(s.cfg) && id.chain in {PREROUTING, OUTPUT}
    ensures PhaseContent(s, fam, id)(InboundPorts) == [] || (id == ChainId(NAT, PREROUTING) && PhaseContent(s, fam, id)(InboundPorts) == [INBOUND_JUMP])
  {
    InboundPhase(s, fam);
    PhaseContentOf(s, fam, id, InboundPorts, InboundCalls(s.cfg, fam));
    if s.cfg.inboundPortsInclude != "" {
      InboundJumpContent(s.cfg, fam, id);
    }
  }

  lemma InboundJumpContent(cfg: Config, fam: Family, id: ChainId)
    requires !cfg.UsesTproxy() && cfg.inboundPortsInclude != "" && id.chain in {PREROUTING, OUTPUT}
    ensures FlatMap(InboundCalls(cfg, fam), OnChain(id)) == if id == ChainId(NAT, PREROUTING) then [INBOUND_JUMP] else []
  {
    var jump := AppendCall(JUMP_INBOUND, PREROUTING, NAT, INBOUND_JUMP);
    InboundShape(cfg, fam, jump);
    InboundPortsElsewhere(cfg, id);
    FlatMapConcat([jump], InboundPortCalls(cfg), OnChain(id));
    FlatMapOne(OnChain(id), jump);
  }

  lemma InboundPortsElsewhere(cfg: Config, id: ChainId)
    requires id.chain in {PREROUTING, OUTPUT}
    ensures FlatMap(InboundPortCalls(cfg), OnChain(id)) == []
  {
    BuiltInNotIstio(id.chain);
    forall c | c in InboundPortCalls(cfg) ensures OnChain(id)(c) == [] {
      InboundPortChain(cfg, c);
    }
    FlatMapNothing(InboundPortCalls(cfg), OnChain(id));
  }

  lemma InboundShape(cfg: Config, fam: Family, jump: Call)
    requires !cfg.UsesTproxy() && cfg.inboundPortsInclude != "" && jump == AppendCall(JUMP_INBOUND, PREROUTING, NAT, INBOUND_JUMP)
    ensures InboundCalls(cfg, fam) == [jump] + InboundPortCalls(cfg)
  {
  }

  lemma JumpOnly(s: Setup, fam: Family, id: ChainId)
    requires id.chain in {PREROUTING, OUTPUT}
    ensures PhaseContent(s, fam, id)(OutputJump) == [] || (id == ChainId(NAT, OUTPUT) && PhaseContent(s, fam, id)(OutputJump) == [OUTBOUND_JUMP])
  {
    if id == ChainId(NAT, OUTPUT) {
      JumpContent(s, fam);
    } else {
      UntouchedEmpty(s, fam, id, OutputJump);
    }
  }

  /** Whatever a removable run adds to a built-in chain, the cleaner deletes at least as often. */
  lemma AddedDeleted(s: Setup, fam: Family, id: ChainId)
    requires Removable(s.cfg) && id.chain in {PREROUTING, OUTPUT}
    requires OwnHosts(s)
    ensures multiset(Content(s, fam, id)) <= multiset(DeletedOn(id, Deletes(CleanOf(s.cfg))))
  {
    var f := PhaseContent(s, fam, id);
    forall phase | phase !in {InboundPorts, OutputJump, UdpDns} ensures f(phase) == [] {
      SilentContent(s, fam, id, phase);
    }
    ThreeBuiltIn(f);
    InboundContent(s, fam, id);
    JumpOnly(s, fam, id);
    DistinctIds();
    UdpDnsContent(s, fam, id);
    DnsOnFewer(fam, id, DnsApplied(CleanOf(s.cfg)));
    CleanDeletedOn(id, CleanOf(s.cfg));
    JumpsFewer(f(InboundPorts), f(OutputJump), id);
  }

  lemma JumpsFewer(a: seq<Rule>, b: seq<Rule>, id: ChainId)
    requires a == [] || (id == ChainId(NAT, PREROUTING) && a == [INBOUND_JUMP])
    requires b == [] || (id == ChainId(NAT, OUTPUT) && b == [OUTBOUND_JUMP])
    ensures multiset(a + b) <= multiset(JumpDeleted(id))
  {
    DistinctIds();
  }

  // ---------------------------------------------------------------- after the deletions

  lemma RemovableAppends(s: Setup, fam: Family, c: Call)
    requires Removable(s.cfg) && c in RunCalls(s, fam)
    ensures c.AppendCall?
  {
    FlatMapMember(Phases(), CallsOf(s, fam), c);
    var phase :| phase in Phases() && c in CallsOf(s, fam)(phase);
    RemovablePhase(s, fam, phase, c);
  }

  lemma RemovablePhase(s: Setup, fam: Family, phase: Phase, c: Call)
    requires Removable(s.cfg) && c in PhaseCalls(s, fam, phase)
    ensures c.AppendCall?
  {
    if phase in {ExcludedInterfaces, KubeReturns, InvalidDrops, TproxyMarks, TproxyReturns} {
      SilentPhases(s, fam, phase);
    } else if phase == IncludedRanges {
      NoKubeInclude(s.cfg, s.Included(fam), c);
    } else if phase == InboundPorts {
      InboundAppends(s.cfg, fam, c);
    } else {
      AppendPhases(s, fam, phase, c);
    }
  }

  lemma AppendPhases(s: Setup, fam: Family, phase: Phase, c: Call)
    requires phase in {BaseChains, OutputJump, OutputChain, UdpDns} && c in PhaseCalls(s, fam, phase)
    ensures c.AppendCall?
  {
    match phase
    case BaseChains =>
    case OutputJump =>
    case OutputChain => CallsMember(UNDEFINED_COMMAND, ISTIO_OUTPUT, NAT, OutputRules(s, fam), c);
    case UdpDns => DnsAppends(s.cfg, fam, s.hosts4, s.hosts6, c);
  }

  /** What a removable run leaves in each chain. */
  lemma RemovableChain(fw: Firewall, s: Setup, fam: Family, fw': Firewall, id: ChainId)
    requires Host(fw) && Enabled(s, fam) && Removable(s.cfg) && Installed(fw, s, fam, fw')
    requires id in fw'
    ensures fw'[id] == Before(fw, id) + Content(s, fam, id)
  {
    forall c | c in RunCalls(s, fam) ensures c.AppendCall? {
      RemovableAppends(s, fam, c);
    }
    AppendedChain(fw, s, fam, fw', id);
  }

  lemma NothingElsewhere(s: Setup, fam: Family, id: ChainId)
    requires id.chain !in ISTIO_CHAINS && id.chain !in {PREROUTING, OUTPUT}
    ensures Content(s, fam, id) == []
  {
    forall phase | phase in Phases() ensures PhaseContent(s, fam, id)(phase) == [] {
      if id in Touched(phase) {
        TouchedTables(phase, id);
      }
      UntouchedEmpty(s, fam, id, phase);
    }
    FlatMapNothing(Phases(), PhaseContent(s, fam, id));
  }

  lemma NoDeletesElsewhere(cfg: CleanConfig, id: ChainId)
    requires id.chain !in {PREROUTING, OUTPUT}
    ensures DeletedOn(id, Deletes(cfg)) == []
  {
    CleanDeletedOn(id, cfg);
    forall a | a in DnsApplied(cfg) ensures RuleOn(id)(a) == [] {
      AppliedChains(cfg, a);
    }
    FlatMapNothing(DnsApplied(cfg), RuleOn(id));
  }

  lemma AppliedChains(cfg: CleanConfig, a: Applied)
    requires a in DnsApplied(cfg)
    ensures a.chain in {PREROUTING, OUTPUT}
  {
    CleanApplied(cfg, a);
    AppliedBuiltIn(a);
  }

  lemma AppliedBuiltIn(a: Applied)
    requires AppliedFits(a)
    ensures a.chain in {PREROUTING, OUTPUT}
  {
  }

  /** A chain of the host is back to what it was once the rules are deleted. */
  lemma HostChainRestored(fw: Firewall, s: Setup, fam: Family, id: ChainId)
    requires Host(fw) && Closed(fw) && Removable(s.cfg) && NoOldRules(fw, CleanOf(s.cfg)) && id in fw
    requires OwnHosts(s)
    ensures Without(fw[id] + Content(s, fam, id), DeletedOn(id, Deletes(CleanOf(s.cfg)))) == fw[id]
  {
    if id.chain in {PREROUTING, OUTPUT} {
      AddedDeleted(s, fam, id);
      BuiltInRestored(fw, CleanOf(s.cfg), id, Content(s, fam, id));
    } else {
      OtherRestored(fw, s, fam, CleanOf(s.cfg), id);
    }
  }

  lemma OtherRestored(fw: Firewall, s: Setup, fam: Family, cfg: CleanConfig, id: ChainId)
    requires id in fw && id.chain !in {PREROUTING, OUTPUT} && id.chain !in ISTIO_CHAINS
    ensures Without(fw[id] + Content(s, fam, id), DeletedOn(id, Deletes(cfg))) == fw[id]
  {
    NothingElsewhere(s, fam, id);
    NoDeletesElsewhere(cfg, id);
    NothingChanged(fw[id], Content(s, fam, id), DeletedOn(id, Deletes(cfg)));
  }

  lemma NothingChanged(kept: seq<Rule>, added: seq<Rule>, gone: seq<Rule>)
    requires added == [] && gone == []
    ensures Without(kept + added, gone) == kept
  {
    assert kept + [] == kept;
  }

  lemma BuiltInRestored(fw: Firewall, cfg: CleanConfig, id: ChainId, added: seq<Rule>)
    requires Host(fw) && Closed(fw) && NoOldRules(fw, cfg) && id in fw
    requires multiset(added) <= multiset(DeletedOn(id, Deletes(cfg)))
    ensures Without(fw[id] + added, DeletedOn(id, Deletes(cfg))) == fw[id]
  {
    var gone := DeletedOn(id, Deletes(cfg));
    forall r | r in gone ensures r !in fw[id] {
      NothingToDelete(fw, cfg, id, r);
    }
    WithoutAfter(fw[id], added, gone);
    WithoutEverything(added, gone);
    assert fw[id] + [] == fw[id];
  }

  /** Once the rules are deleted, the new chains are all that is left of a removable run. */
  lemma AfterDeletes(fw: Firewall, s: Setup, fam: Family, fw': Firewall)
    requires Host(fw) && Closed(fw) && Enabled(s, fam) && Removable(s.cfg) && Installed(fw, s, fam, fw')
    requires NoOldRules(fw, CleanOf(s.cfg)) && OwnHosts(s)
    ensures var mid := ExecQuietly(fw', Deletes(CleanOf(s.cfg)));
            && mid.Keys == fw.Keys + RunChains(s.cfg)
            && (forall id :: id in fw ==> mid[id] == fw[id])
            && (forall id :: id in RunChains(s.cfg) ==> mid[id] == Content(s, fam, id))
  {
    var script := Deletes(CleanOf(s.cfg));
    InstalledChains(fw, s, fam, fw');
    CleanDeletesOnly(CleanOf(s.cfg));
    ExecDeletes(fw', script);
    forall id | id in fw ensures ExecQuietly(fw', script)[id] == fw[id] {
      RemovableChain(fw, s, fam, fw', id);
      HostChainRestored(fw, s, fam, id);
    }
    forall id | id in RunChains(s.cfg) ensures ExecQuietly(fw', script)[id] == Content(s, fam, id) {
      RemovableChain(fw, s, fam, fw', id);
      NewChainDeletes(s.cfg, id);
      RunChainNames(s.cfg, id);
      assert id !in fw;
      assert [] + Content(s, fam, id) == Content(s, fam, id);
    }
  }

  lemma NewChainDeletes(cfg: Config, id: ChainId)
    requires id in RunChains(cfg)
    ensures DeletedOn(id, Deletes(CleanOf(cfg))) == []
  {
    RunChainNames(cfg, id);
    IstioChains(id.chain);
    NoDeletesElsewhere(CleanOf(cfg), id);
  }

  // ---------------------------------------------------------------- removing the new chains

  lemma ContentMember(s: Setup, fam: Family, id: ChainId, r: Rule)
    requires r in Content(s, fam, id)
    ensures exists phase, c :: c in PhaseCalls(s, fam, phase) && CallId(c) == id && c.rule == r
  {
    FlatMapMember(Phases(), PhaseContent(s, fam, id), r);
    var phase :| phase in Phases() && r in PhaseContent(s, fam, id)(phase);
    OnChainMember(PhaseCalls(s, fam, phase), id, r);
  }

  lemma InboundTargets(cfg: Config, c: Call)
    requires !cfg.UsesTproxy() && c in InboundPortCalls(cfg)
    ensures c.rule.target == Return || c.rule.target == Jump(ISTIO_IN_REDIRECT)
  {
    var table := InboundTable(cfg);
    if cfg.inboundPortsInclude == "*" {
      var excluded := FlatMap(Text.Fields(cfg.inboundPortsExclude), TcpPorts(Return));
      if c in Calls(EXCLUDE_INBOUND_PORT, ISTIO_INBOUND, table, excluded) {
        CallsMember(EXCLUDE_INBOUND_PORT, ISTIO_INBOUND, table, excluded, c);
        PortMember(Text.Fields(cfg.inboundPortsExclude), Return, c.rule);
      } else {
        CallsMember(UNDEFINED_COMMAND, ISTIO_INBOUND, table, RestRules(cfg), c);
      }
    } else {
      var ports := Text.Fields(cfg.inboundPortsInclude);
      CallsMember(INCLUDE_INBOUND_PORT, ISTIO_INBOUND, table, FlatMap(ports, TcpPorts(Jump(ISTIO_IN_REDIRECT))), c);
      PortMember(ports, Jump(ISTIO_IN_REDIRECT), c.rule);
    }
  }

  lemma InboundChainTargets(s: Setup, fam: Family, r: Rule)
    requires Removable(s.cfg) && r in Content(s, fam, ChainId(NAT, ISTIO_INBOUND))
    ensures r.target == Return || r.target == Jump(ISTIO_IN_REDIRECT)
  {
    ContentMember(s, fam, ChainId(NAT, ISTIO_INBOUND), r);
    var phase, c :| c in PhaseCalls(s, fam, phase) && CallId(c) == ChainId(NAT, ISTIO_INBOUND) && c.rule == r;
    PhaseFits(s, fam, phase, c);
    TouchesInbound(phase);
    if phase == InboundPorts {
      InboundPhase(s, fam);
      InboundCallTargets(s.cfg, fam, c);
    } else {
      BaseInbound(s.cfg, c);
    }
  }

  lemma InboundCallTargets(cfg: Config, fam: Family, c: Call)
    requires !cfg.UsesTproxy() && c in InboundCalls(cfg, fam) && CallId(c) == ChainId(NAT, ISTIO_INBOUND)
    ensures c.rule.target == Return || c.rule.target == Jump(ISTIO_IN_REDIRECT)
  {
    var jump := AppendCall(JUMP_INBOUND, PREROUTING, NAT, INBOUND_JUMP);
    InboundShape(cfg, fam, jump);
    NotInboundChain(jump);
    InboundTargets(cfg, c);
  }

  lemma NotInboundChain(jump: Call)
    requires jump.chain == PREROUTING
    ensures CallId(jump) != ChainId(NAT, ISTIO_INBOUND)
  {
    assert |PREROUTING| != |ISTIO_INBOUND|;
  }

  lemma TouchesInbound(phase: Phase)
    ensures ChainId(NAT, ISTIO_INBOUND) in Touched(phase) <==> phase in {BaseChains, InboundPorts}
  {
  }

  lemma BaseInbound(cfg: Config, c: Call)
    requires c in BaseCalls(cfg) && CallId(c) == ChainId(NAT, ISTIO_INBOUND)
    ensures c.rule.target == Return
  {
  }

  predicate Jumpless(rules: seq<Rule>) {
    forall r :: r in rules ==> !r.target.Jump?
  }

  /** The chains left after the deletions can go in the cleaner's order. */
  lemma RemovalOrder(fw: Firewall, mid: Firewall)
    requires Host(fw) && Closed(fw)
    requires forall id :: id in mid ==>
               id in fw || id in {ChainId(NAT, ISTIO_OUTPUT), ChainId(NAT, ISTIO_INBOUND), ChainId(NAT, ISTIO_REDIRECT), ChainId(NAT, ISTIO_IN_REDIRECT)}
    requires forall id :: id in fw ==> id in mid && mid[id] == fw[id]
    requires ChainId(NAT, ISTIO_INBOUND) in mid ==> !JumpsTo(mid[ChainId(NAT, ISTIO_INBOUND)], ISTIO_OUTPUT)
    requires ChainId(NAT, ISTIO_REDIRECT) in mid ==> Jumpless(mid[ChainId(NAT, ISTIO_REDIRECT)])
    requires ChainId(NAT, ISTIO_IN_REDIRECT) in mid ==> Jumpless(mid[ChainId(NAT, ISTIO_IN_REDIRECT)])
    ensures InOrder(mid, Removed())
  {
    var ids := Removed();
    forall id | id in ids ensures id.chain !in BUILT_IN_CHAINS && id.chain in ISTIO_CHAINS {
      IstioChains(id.chain);
    }
    forall i, from | 0 <= i < |ids| && from in mid && from !in ids[..i + 1] && from.table == ids[i].table
      ensures !JumpsTo(mid[from], ids[i].chain)
    {
      if from in fw {
        assert ids[i] in ids;
        NoJumpsToIstio(fw, from, ids[i].chain);
      } else {
        StillThere(i, from);
      }
    }
    InOrderIf(mid, ids);
  }

  lemma NoJumpsToIstio(fw: Firewall, id: ChainId, chain: string)
    requires Host(fw) && Closed(fw) && id in fw && chain in ISTIO_CHAINS
    ensures !JumpsTo(fw[id], chain)
  {
    forall r | r in fw[id] ensures r.target != Jump(chain) {
      if r.target == Jump(chain) {
        NoOldJumps(fw, id, r);
      }
    }
  }

  /** Which of the new chains are still there when the cleaner comes to the next. */
  lemma StillThere(i: nat, from: ChainId)
    requires i < |Removed()| && from !in Removed()[..i + 1] && from.table == Removed()[i].table
    requires from in {ChainId(NAT, ISTIO_OUTPUT), ChainId(NAT, ISTIO_INBOUND), ChainId(NAT, ISTIO_REDIRECT), ChainId(NAT, ISTIO_IN_REDIRECT)}
    ensures from == ChainId(NAT, ISTIO_REDIRECT) || from == ChainId(NAT, ISTIO_IN_REDIRECT) ||
            (from == ChainId(NAT, ISTIO_INBOUND) && Removed()[i].chain == ISTIO_OUTPUT)
  {
    assert Removed()[0] in Removed()[..i + 1];
    if i > 0 {
      assert Removed()[1] in Removed()[..i + 1];
    }
  }

  // ---------------------------------------------------------------- what any other run leaves behind

  lemma {:induction false} WithoutOthers(rules: seq<Rule>, gone: seq<Rule>, r: Rule)
    requires r !in gone
    ensures multiset(Without(rules, gone))[r] == multiset(rules)[r]
    decreases |gone|
  {
    if gone != [] {
      assert gone[0] in gone && forall x :: x in gone[1..] ==> x in gone;
      WithoutFirstCount(rules, gone[0]);
      WithoutOthers(WithoutFirst(rules, gone[0]), gone[1..], r);
    }
  }

  /** Flushing and deleting chains leaves the other chains alone. */
  lemma {:induction false} RemovalsKeep(fw: Firewall, script: seq<Command>, id: ChainId)
    requires forall c :: c in script ==> (c.Flush? || c.DeleteChain?) && c.id != id
    requires id in fw
    ensures id in ExecQuietly(fw, script) && ExecQuietly(fw, script)[id] == fw[id]
    decreases |script|
  {
    if script != [] {
      assert script[0] in script;
      var next := Step(fw, script[0]);
      RemovalsKeep(if next.Some? then next.value else fw, script[1..], id);
    }
  }

  lemma CleanKeeps(fw: Firewall, cfg: CleanConfig, id: ChainId, r: Rule)
    requires id in fw && id.chain in BUILT_IN_CHAINS && r !in DeletedOn(id, Deletes(cfg))
    ensures var end := ExecQuietly(fw, CleanScript(cfg)); id in end && multiset(end[id])[r] == multiset(fw[id])[r]
  {
    ExecQuietlyConcat(fw, Deletes(cfg), Removals());
    CleanDeletesOnly(cfg);
    ExecDeletes(fw, Deletes(cfg));
    WithoutOthers(fw[id], DeletedOn(id, Deletes(cfg)), r);
    forall c | c in Removals() ensures (c.Flush? || c.DeleteChain?) && c.id != id {
      RemovalShape(c);
      BuiltInNotIstio(id.chain);
    }
    RemovalsKeep(ExecQuietly(fw, Deletes(cfg)), Removals(), id);
  }

  lemma {:induction false} ChainAfterGrows(id: ChainId, rules: seq<Rule>, script: seq<Command>, r: Rule)
    requires ChainAfter(id, rules, script).Some?
    ensures multiset(ChainAfter(id, rules, script).value)[r] >= multiset(rules)[r]
    ensures (exists x :: x in script && Adds(x) && x.id == id && x.rule == r) ==>
              multiset(ChainAfter(id, rules, script).value)[r] > multiset(rules)[r]
    decreases |script|
  {
    if script != [] {
      var c := script[0];
      assert script == [c] + script[1..];
      if c.id != id {
        ChainAfterGrows(id, rules, script[1..], r);
      } else if c.AppendTo? {
        ChainAfterGrows(id, rules + [c.rule], script[1..], r);
      } else {
        var next := Inserted(rules, c.position, c.rule);
        assert rules == rules[..c.position - 1] + rules[c.position - 1..];
        assert multiset(next) == multiset(rules) + multiset{c.rule};
        ChainAfterGrows(id, next, script[1..], r);
      }
    }
  }

  lemma CallAdds(s: Setup, fam: Family, c: Call)
    requires c in RunCalls(s, fam)
    ensures exists x :: x in Script(s.cfg.traceLogging, RunCalls(s, fam)) && Adds(x) && x.id == CallId(c) && x.rule == c.rule
  {
    var trace := s.cfg.traceLogging;
    var x := if c.AppendCall? then AppendTo(CallId(c), c.rule) else InsertAt(CallId(c), c.position, c.rule);
    assert x in CommandsOf(trace)(c);
    FlatMapMember(RunCalls(s, fam), CommandsOf(trace), x);
  }

  lemma LogAdds(s: Setup, fam: Family)
    requires s.cfg.traceLogging
    ensures exists x :: x in Script(s.cfg.traceLogging, RunCalls(s, fam)) && Adds(x) && x.id == ChainId(NAT, OUTPUT) &&
                        x.rule == LogRule(JUMP_OUTBOUND, OUTBOUND_JUMP)
  {
    var c := AppendCall(JUMP_OUTBOUND, OUTPUT, NAT, OUTBOUND_JUMP);
    InRun(s, fam, OutputJump, c);
    var x := AppendTo(ChainId(NAT, OUTPUT), LogRule(JUMP_OUTBOUND, OUTBOUND_JUMP));
    assert x in CommandsOf(true)(c);
    FlatMapMember(RunCalls(s, fam), CommandsOf(true), x);
  }

  lemma NotDeleted(id: ChainId, cfg: CleanConfig, r: Rule)
    requires r.target.NfLog? || r.target.SaveMark? || r.target.Drop? || (id == ChainId(NAT, PREROUTING) && r.target.Return?)
    ensures r !in DeletedOn(id, Deletes(cfg))
  {
    CleanDeletedOn(id, cfg);
    if r in FlatMap(DnsApplied(cfg), RuleOn(id)) {
      DnsDeletedShape(id, cfg, r);
    }
    if r in JumpDeleted(id) {
      JumpDeletedShape(id, r);
    }
  }

  lemma DnsDeletedShape(id: ChainId, cfg: CleanConfig, r: Rule)
    requires r in FlatMap(DnsApplied(cfg), RuleOn(id))
    ensures (r.target.Return? || r.target.Redirect? || r.target.Zone?) && id != ChainId(NAT, PREROUTING)
  {
    forall a | a in DnsApplied(cfg) ensures AppliedFits(a) {
      CleanApplied(cfg, a);
    }
    FittingShape(id, DnsApplied(cfg), r);
  }

  lemma FittingShape(id: ChainId, applied: seq<Applied>, r: Rule)
    requires r in FlatMap(applied, RuleOn(id)) && forall a :: a in applied ==> AppliedFits(a)
    ensures (r.target.Return? || r.target.Redirect? || r.target.Zone?) && id != ChainId(NAT, PREROUTING)
  {
    FlatMapMember(applied, RuleOn(id), r);
    var a :| a in applied && r in RuleOn(id)(a);
    AppliedTarget(a);
  }

  lemma CleanApplied(cfg: CleanConfig, a: Applied)
    requires a in DnsApplied(cfg)
    ensures AppliedFits(a)
  {
    DnsUdpFits(Text.Fields(cfg.proxyUID), Text.Fields(cfg.proxyGID), Suffixed(cfg.dnsServersV4, HostSuffix(V4)),
               Suffixed(cfg.dnsServersV6, HostSuffix(V6)), cfg.captureAllDNS,
               ParseInterceptFilter(cfg.ownerGroupsInclude, cfg.ownerGroupsExclude), a);
  }

  lemma AppliedTarget(a: Applied)
    requires AppliedFits(a)
    ensures a.rule.target.Return? || a.rule.target.Redirect? || a.rule.target.Zone?
    ensures ChainId(a.table, a.chain) != ChainId(NAT, PREROUTING)
  {
  }

  /** A call of a run whose rule the cleaner does not delete, when nothing is traced. */
  lemma UndeletedCall(s: Setup, fam: Family) returns (c: Call)
    requires !Removable(s.cfg) && !s.cfg.traceLogging
    ensures c in RunCalls(s, fam)
    ensures c.rule.target.SaveMark? || c.rule.target.Drop? || (CallId(c) == ChainId(NAT, PREROUTING) && c.rule.target.Return?)
    ensures CallId(c) == ChainId(MANGLE, PREROUTING) || CallId(c) == ChainId(NAT, PREROUTING)
  {
    if s.cfg.UsesTproxy() {
      c := SaveMarkCall(s, fam);
    } else if s.cfg.dropInvalid {
      c := DropCall(s, fam);
    } else if Text.Fields(s.cfg.kubeVirtInterfaces) != [] {
      c := KubeReturnCall(s, fam);
    } else {
      c := InterfaceReturnCall(s, fam);
    }
  }

  lemma SaveMarkCall(s: Setup, fam: Family) returns (c: Call)
    requires s.cfg.UsesTproxy()
    ensures c in RunCalls(s, fam) && CallId(c) == ChainId(MANGLE, PREROUTING) && c.rule.target == SaveMark
  {
    c := AppendCall(UNDEFINED_COMMAND, PREROUTING, MANGLE, SaveMarkRule(s.cfg.inboundTProxyMark));
    InRun(s, fam, TproxyMarks, c);
  }

  lemma DropCall(s: Setup, fam: Family) returns (c: Call)
    requires s.cfg.dropInvalid
    ensures c in RunCalls(s, fam) && CallId(c) == ChainId(MANGLE, PREROUTING) && c.rule.target == Drop
  {
    c := DropInvalidCalls(s.cfg)[0];
    InRun(s, fam, InvalidDrops, c);
  }

  lemma KubeReturnCall(s: Setup, fam: Family) returns (c: Call)
    requires Text.Fields(s.cfg.kubeVirtInterfaces) != []
    ensures c in RunCalls(s, fam) && CallId(c) == ChainId(NAT, PREROUTING) && c.rule.target == Return
  {
    var xs := Text.Fields(s.cfg.kubeVirtInterfaces);
    c := KubeInsert([Is(InInterface(xs[0]))], Return);
    assert c in KubeTraffic(Return)(xs[0]);
    FlatMapMember(xs, KubeTraffic(Return), c);
    InRun(s, fam, KubeReturns, c);
  }

  lemma InterfaceReturnCall(s: Setup, fam: Family) returns (c: Call)
    requires Text.Fields(s.cfg.excludeInterfaces) != []
    ensures c in RunCalls(s, fam) && CallId(c) == ChainId(NAT, PREROUTING) && c.rule.target == Return
  {
    var xs := Text.Fields(s.cfg.excludeInterfaces);
    c := InterfaceReturns(NAT)(xs[0])[0];
    assert c in InterfaceReturns(NAT)(xs[0]);
    FlatMapMember(xs, InterfaceReturns(NAT), c);
    InRun(s, fam, ExcludedInterfaces, c);
  }

  /** Some built-in chain has more of some rule after installing and cleaning than before. */
  lemma LeftBehind(fw: Firewall, s: Setup, fam: Family, fw': Firewall, id: ChainId, r: Rule)
    requires Host(fw) && Enabled(s, fam) && Installed(fw, s, fam, fw')
    requires id in fw && id.chain in BUILT_IN_CHAINS && r !in DeletedOn(id, Deletes(CleanOf(s.cfg)))
    requires exists x :: x in Script(s.cfg.traceLogging, RunCalls(s, fam)) && Adds(x) && x.id == id && x.rule == r
    ensures ExecQuietly(fw', CleanScript(CleanOf(s.cfg))) != fw
  {
    InstalledChains(fw, s, fam, fw');
    ChainAfterGrows(id, fw[id], Script(s.cfg.traceLogging, RunCalls(s, fam)), r);
    CleanKeeps(fw', CleanOf(s.cfg), id, r);
  }

  lemma NotRestored(fw: Firewall, s: Setup, fam: Family, fw': Firewall)
    requires Host(fw) && Enabled(s, fam) && Installed(fw, s, fam, fw') && !Removable(s.cfg)
    ensures ExecQuietly(fw', CleanScript(CleanOf(s.cfg))) != fw
  {
    if s.cfg.traceLogging {
      LogAdds(s, fam);
      NotDeleted(ChainId(NAT, OUTPUT), CleanOf(s.cfg), LogRule(JUMP_OUTBOUND, OUTBOUND_JUMP));
      HostChains(fw, ChainId(NAT, OUTPUT));
      LeftBehind(fw, s, fam, fw', ChainId(NAT, OUTPUT), LogRule(JUMP_OUTBOUND, OUTBOUND_JUMP));
    } else {
      var c := UndeletedCall(s, fam);
      CallAdds(s, fam, c);
      NotDeleted(CallId(c), CleanOf(s.cfg), c.rule);
      HostChains(fw, CallId(c));
      LeftBehind(fw, s, fam, fw', CallId(c), c.rule);
    }
  }

  lemma HostChains(fw: Firewall, id: ChainId)
    requires Host(fw) && id.table in {NAT, MANGLE} && id.chain in {PREROUTING, OUTPUT}
    ensures id in fw && id.chain in BUILT_IN_CHAINS
  {
  }

  // ---------------------------------------------------------------- the theorem

  lemma Taken(fw: Firewall, mid: Firewall, cfg: Config)
    requires Host(fw) && !cfg.UsesTproxy()
    requires mid.Keys == fw.Keys || mid.Keys == fw.Keys + RunChains(cfg)
    requires forall id :: id in fw ==> mid[id] == fw[id]
    ensures mid - IdSet(Removed()) == fw
  {
    forall id | id in RunChains(cfg) ensures id in IdSet(Removed()) {
      NatRemoved(id, cfg);
    }
    forall id | id in IdSet(Removed()) ensures id !in fw {
      RemovedNames(id);
    }
  }

  lemma NatRemoved(id: ChainId, cfg: Config)
    requires id in RunChains(cfg) && !cfg.UsesTproxy()
    ensures id in IdSet(Removed())
    ensures id in {ChainId(NAT, ISTIO_OUTPUT), ChainId(NAT, ISTIO_INBOUND), ChainId(NAT, ISTIO_REDIRECT), ChainId(NAT, ISTIO_IN_REDIRECT)}
  {
    var ids := Removed();
    assert ids[0] in ids && ids[1] in ids && ids[5] in ids && ids[6] in ids;
  }

  lemma RemovedNames(id: ChainId)
    requires id in IdSet(Removed())
    ensures id.chain in ISTIO_CHAINS
  {
  }

  /** None of the new nat chains is jumped to from a chain that outlives it. */
  lemma NewChainsGo(s: Setup, fam: Family)
    requires Removable(s.cfg)
    ensures !JumpsTo(Content(s, fam, ChainId(NAT, ISTIO_INBOUND)), ISTIO_OUTPUT)
    ensures Jumpless(Content(s, fam, ChainId(NAT, ISTIO_REDIRECT)))
    ensures Jumpless(Content(s, fam, ChainId(NAT, ISTIO_IN_REDIRECT)))
  {
    RedirectContents(s, fam);
    forall r | r in Content(s, fam, ChainId(NAT, ISTIO_INBOUND)) ensures r.target != Jump(ISTIO_OUTPUT) {
      InboundChainTargets(s, fam, r);
      OtherChains();
    }
  }

  lemma CleanRestores(fw: Firewall, s: Setup, fam: Family, fw': Firewall)
    requires Host(fw) && Closed(fw) && Enabled(s, fam) && Removable(s.cfg) && Installed(fw, s, fam, fw')
    requires NoOldRules(fw, CleanOf(s.cfg)) && OwnHosts(s)
    ensures ExecQuietly(fw', CleanScript(CleanOf(s.cfg))) == fw && DeletesCleanly(fw', CleanScript(CleanOf(s.cfg)))
  {
    AfterDeletes(fw, s, fam, fw');
    RemovalsRestore(fw, s, fam, ExecQuietly(fw', Deletes(CleanOf(s.cfg))));
    Finish(fw', CleanOf(s.cfg));
  }

  lemma RemovalsRestore(fw: Firewall, s: Setup, fam: Family, mid: Firewall)
    requires Host(fw) && Closed(fw) && Removable(s.cfg)
    requires mid.Keys == fw.Keys + RunChains(s.cfg)
    requires forall id :: id in fw ==> mid[id] == fw[id]
    requires forall id :: id in RunChains(s.cfg) ==> mid[id] == Content(s, fam, id)
    ensures InOrder(mid, Removed()) && mid - IdSet(Removed()) == fw
  {
    NewChainsGo(s, fam);
    forall id | id in RunChains(s.cfg)
      ensures id in {ChainId(NAT, ISTIO_OUTPUT), ChainId(NAT, ISTIO_INBOUND), ChainId(NAT, ISTIO_REDIRECT), ChainId(NAT, ISTIO_IN_REDIRECT)}
    {
      NatRemoved(id, s.cfg);
    }
    InboundCreated(s.cfg);
    RemovalOrder(fw, mid);
    Taken(fw, mid, s.cfg);
  }

  lemma InboundCreated(cfg: Config)
    ensures {ChainId(NAT, ISTIO_INBOUND), ChainId(NAT, ISTIO_REDIRECT), ChainId(NAT, ISTIO_IN_REDIRECT)} <= RunChains(cfg)
  {
    NatCreated(cfg, ISTIO_INBOUND);
    NatCreated(cfg, ISTIO_REDIRECT);
    NatCreated(cfg, ISTIO_IN_REDIRECT);
  }

  lemma OtherChains()
    ensures ISTIO_IN_REDIRECT != ISTIO_OUTPUT
  {
    assert |ISTIO_IN_REDIRECT| != |ISTIO_OUTPUT|;
  }

  lemma Finish(fw: Firewall, cfg: CleanConfig)
    requires InOrder(ExecQuietly(fw, Deletes(cfg)), Removed())
    ensures ExecQuietly(fw, CleanScript(cfg)) == ExecQuietly(fw, Deletes(cfg)) - IdSet(Removed())
    ensures DeletesCleanly(fw, CleanScript(cfg))
  {
    ExecQuietlyConcat(fw, Deletes(cfg), Removals());
    RemovalsOf();
    RemoveAll(ExecQuietly(fw, Deletes(cfg)), Removed());
    CleanDeletesOnly(cfg);
    NoChainDeleted(fw, Deletes(cfg));
    DeletesCleanlyConcat(fw, Deletes(cfg), Removals());
  }

  /** The cleaner does nothing to a host the configurator has not touched. */
  lemma CleanHarmless(fw: Firewall, cfg: CleanConfig)
    requires Host(fw) && Closed(fw) && NoOldRules(fw, cfg)
    ensures ExecQuietly(fw, CleanScript(cfg)) == fw && DeletesCleanly(fw, CleanScript(cfg))
  {
    var mid := ExecQuietly(fw, Deletes(cfg));
    CleanDeletesOnly(cfg);
    ExecDeletes(fw, Deletes(cfg));
    forall id | id in fw ensures mid[id] == fw[id] {
      BuiltInRestored(fw, cfg, id, []);
      assert fw[id] + [] == fw[id];
    }
    assert mid == fw;
    NothingToRemove(fw);
    Finish(fw, cfg);
  }

  lemma NothingToRemove(fw: Firewall)
    requires Host(fw) && Closed(fw)
    ensures InOrder(fw, Removed()) && fw - IdSet(Removed()) == fw
  {
    NoneThere(fw);
    RemovalOrder(fw, fw);
    forall id | id in IdSet(Removed()) ensures id !in fw {
      RemovedNames(id);
    }
  }

  lemma NoneThere(fw: Firewall)
    requires Host(fw)
    ensures ChainId(NAT, ISTIO_INBOUND) !in fw && ChainId(NAT, ISTIO_REDIRECT) !in fw && ChainId(NAT, ISTIO_IN_REDIRECT) !in fw
  {
  }

  /**
   Uninstalling undoes installing. On a host with none of the rules the cleaner deletes, the cleaner
   with the same settings gives the firewall back exactly when the configuration is a removable one,
   and then no `-X` comes to a chain still in use; a family the run left alone stays as it is.
   */
  lemma UninstallUndoes(fw: Firewall, s: Setup, fam: Family, fw': Firewall, cmd: string)
    requires Host(fw) && Closed(fw) && Installed(fw, s, fam, fw')
    requires NoOldRules(fw, CleanOf(s.cfg)) && OwnHosts(s)
    ensures var script := CleanScript(CleanOf(s.cfg));
            var undone := ExecLinesQuietly(fw', Arguments(Lines(cmd, script))) == fw;
            (undone <==> !Enabled(s, fam) || Removable(s.cfg)) && (undone ==> DeletesCleanly(fw', script))
  {
    CleanDenotes(cmd, CleanOf(s.cfg));
    ExecQuietlyDenoted(fw', Arguments(Lines(cmd, CleanScript(CleanOf(s.cfg)))), CleanScript(CleanOf(s.cfg)));
    if !Enabled(s, fam) {
      DisabledInstalls(fw, s, fam, fw');
      CleanHarmless(fw, CleanOf(s.cfg));
    } else if Removable(s.cfg) {
      CleanRestores(fw, s, fam, fw');
    } else {
      NotRestored(fw, s, fam, fw');
    }
  }

  lemma DisabledInstalls(fw: Firewall, s: Setup, fam: Family, fw': Firewall)
    requires !Enabled(s, fam) && Installed(fw, s, fam, fw')
    ensures fw' == fw
  {
    assert UserChains([]) == [];
    assert BuildLines("iptables", []) == [];
  }
}
