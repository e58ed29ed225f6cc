/** The main theorems on outgoing packets: capture is what the configuration asks for, and nothing loops. */
module CaptureTheorems {
  import opened Netfilter
  import opened Commands
  import opened Builder
  import opened CallScripts
  import opened Capture
  import opened RunFacts
  import opened NeverFails
  import opened Tracing
  import opened Contents
  import opened Outbound
  import opened Traffic
  import Text

  // ---------------------------------------------------------------- the installed chains

  /** What the host's own rules are followed by in the nat OUTPUT chain. */
  ghost predicate OutputAs(fw: Firewall, s: Setup, fam: Family, before: seq<Rule>) {
    var id := ChainId(NAT, OUTPUT);
    && id in fw
    && fw[id] == before + (PhaseContent(s, fam, id)(ExcludedInterfaces) + [TcpRule(Jump(ISTIO_OUTPUT))] + PhaseContent(s, fam, id)(UdpDns))
    && ChainId(NAT, ISTIO_OUTPUT) in fw
    && fw[ChainId(NAT, ISTIO_OUTPUT)] == OutputRules(s, fam) + IncludeRules(s.Included(fam))
    && Redirecting(fw, s.cfg)
  }

  lemma NewChain(fw: Firewall, s: Setup, fam: Family, fw': Firewall, chain: string)
    requires Host(fw) && Enabled(s, fam) && !s.cfg.traceLogging && Installed(fw, s, fam, fw')
    requires chain in NAT_CHAINS
    ensures ChainId(NAT, chain) in fw' && fw'[ChainId(NAT, chain)] == Content(s, fam, ChainId(NAT, chain))
  {
    var id := ChainId(NAT, chain);
    InstalledChains(fw, s, fam, fw');
    NatCreated(s.cfg, chain);
    assert id !in fw;
    NatAppended(s, fam, chain);
    AppendedChain(fw, s, fam, fw', id);
    assert [] + Content(s, fam, id) == Content(s, fam, id);
  }

  lemma NatAppended(s: Setup, fam: Family, chain: string)
    requires chain in {OUTPUT} + NAT_CHAINS
    ensures forall c :: c in RunCalls(s, fam) && CallId(c) == ChainId(NAT, chain) ==> c.AppendCall?
  {
    NatOnlyAppended(chain);
    forall c | c in RunCalls(s, fam) && CallId(c) == ChainId(NAT, chain) ensures c.AppendCall? {
      InsertedChains(s, fam, c);
    }
  }

  lemma NatOnlyAppended(chain: string)
    requires chain in {OUTPUT} + NAT_CHAINS
    ensures OnlyAppended(ChainId(NAT, chain))
  {
  }

  lemma OutputInstalled(fw: Firewall, s: Setup, fam: Family, fw': Firewall)
    requires Host(fw) && Enabled(s, fam) && !s.cfg.traceLogging && Installed(fw, s, fam, fw')
    ensures OutputAs(fw', s, fam, fw[ChainId(NAT, OUTPUT)])
  {
    NewChain(fw, s, fam, fw', ISTIO_OUTPUT);
    IstioOutputContent(s, fam);
    NewChain(fw, s, fam, fw', ISTIO_REDIRECT);
    NewChain(fw, s, fam, fw', ISTIO_IN_REDIRECT);
    RedirectContents(s, fam);
    OutputKept(fw, s, fam, fw');
  }

  lemma OutputKept(fw: Firewall, s: Setup, fam: Family, fw': Firewall)
    requires Host(fw) && Enabled(s, fam) && !s.cfg.traceLogging && Installed(fw, s, fam, fw')
    ensures ChainId(NAT, OUTPUT) in fw'
    ensures fw'[ChainId(NAT, OUTPUT)] ==
            fw[ChainId(NAT, OUTPUT)] + (PhaseContent(s, fam, ChainId(NAT, OUTPUT))(ExcludedInterfaces) +
                                        [TcpRule(Jump(ISTIO_OUTPUT))] + PhaseContent(s, fam, ChainId(NAT, OUTPUT))(UdpDns))
  {
    InstalledChains(fw, s, fam, fw');
    NatAppended(s, fam, OUTPUT);
    AppendedChain(fw, s, fam, fw', ChainId(NAT, OUTPUT));
    OutputContent(s, fam);
  }

  // ---------------------------------------------------------------- the verdict of the chain

  lemma JumpMatches(p: Packet)
    ensures Matches(TcpRule(Jump(ISTIO_OUTPUT)).conds, p) <==> p(Protocol("tcp"))
  {
    var r := TcpRule(Jump(ISTIO_OUTPUT));
    assert r.conds[0] in r.conds;
  }

  /** The chain decides what the outbound chain or the DNS rules decide, in this order. */
  function Overall(s: Setup, fam: Family, p: Packet, inner: Outcome): Verdict {
    if ThroughExcluded(s.cfg, p) then Accepted
    else if p(Protocol("tcp")) && inner.Decided? then inner.verdict
    else if UdpWanted(s, fam, p).Decided? then UdpWanted(s, fam, p).verdict
    else Accepted
  }

  /**
   What the verdict of an installed chain depends on: the host's rules let the packet pass, `e` and `u`
   are the excluded interfaces and the DNS rules around the jump, and the redirecting chains are there.
   */
  ghost predicate Ready(fw: Firewall, s: Setup, fam: Family, before: seq<Rule>, e: seq<Rule>, u: seq<Rule>, p: Packet, depth: nat) {
    && depth >= 2
    && ChainId(NAT, OUTPUT) in fw && fw[ChainId(NAT, OUTPUT)] == before + (e + [TcpRule(Jump(ISTIO_OUTPUT))] + u)
    && ChainId(NAT, ISTIO_OUTPUT) in fw
    && Redirecting(fw, s.cfg)
    && Eval(fw, NAT, before, p, depth) == Ended(p)
    && Eval(fw, NAT, e, p, depth) == (if ThroughExcluded(s.cfg, p) then Returned(p) else Ended(p))
    && Eval(fw, NAT, u, p, depth) == UdpWanted(s, fam, p)
  }

  lemma OutputVerdict(fw: Firewall, s: Setup, fam: Family, before: seq<Rule>, e: seq<Rule>, u: seq<Rule>, p: Packet, depth: nat)
    requires Ready(fw, s, fam, before, e, u, p, depth)
    requires var inner := Eval(fw, NAT, fw[ChainId(NAT, ISTIO_OUTPUT)], p, depth - 1);
             p(Protocol("tcp")) ==> inner.Decided? || inner.packet == p
    ensures Traverse(fw, ChainId(NAT, OUTPUT), p, depth) ==
            Overall(s, fam, p, Eval(fw, NAT, fw[ChainId(NAT, ISTIO_OUTPUT)], p, depth - 1))
  {
    var j := TcpRule(Jump(ISTIO_OUTPUT));
    EvalConcat(fw, NAT, before, e + [j] + u, p, depth);
    EvalConcat(fw, NAT, e + [j], u, p, depth);
    EvalConcat(fw, NAT, e, [j], p, depth);
    JumpMatches(p);
    EvalJump(fw, NAT, j, p, depth);
  }

  lemma InstalledReady(fw: Firewall, s: Setup, fam: Family, fw': Firewall, p: Packet, depth: nat) returns (e: seq<Rule>, u: seq<Rule>)
    requires Host(fw) && Closed(fw) && Enabled(s, fam) && !s.cfg.traceLogging && Installed(fw, s, fam, fw')
    requires HostPasses(fw, p, depth) && depth >= 2
    ensures Ready(fw', s, fam, fw[ChainId(NAT, OUTPUT)], e, u, p, depth)
    ensures fw'[ChainId(NAT, ISTIO_OUTPUT)] == OutputRules(s, fam) + IncludeRules(s.Included(fam))
  {
    e, u := PhaseContent(s, fam, ChainId(NAT, OUTPUT))(ExcludedInterfaces), PhaseContent(s, fam, ChainId(NAT, OUTPUT))(UdpDns);
    OutputInstalled(fw, s, fam, fw');
    HostStillPasses(fw, s, fam, fw', ChainId(NAT, OUTPUT), p, depth);
    InterfacesOutcome(fw', s, fam, ChainId(NAT, OUTPUT), p, depth);
    UdpOutcome(fw', s, fam, p, depth);
  }

  /** The verdict of the nat OUTPUT chain on any packet at all. */
  function OutputWanted(s: Setup, fam: Family, p: Packet): Verdict {
    if ThroughExcluded(s.cfg, p) then Accepted
    else if p(Protocol("tcp")) && TcpWanted(s, fam, p) != Accepted then TcpWanted(s, fam, p)
    else if UdpWanted(s, fam, p).Decided? then UdpWanted(s, fam, p).verdict
    else Accepted
  }

  lemma OverallWanted(s: Setup, fam: Family, p: Packet, inner: Outcome)
    requires p(Protocol("tcp")) ==>
               if inner.Decided? then inner.verdict == TcpWanted(s, fam, p) != Accepted else TcpWanted(s, fam, p) == Accepted
    ensures Overall(s, fam, p, inner) == OutputWanted(s, fam, p)
  {
  }

  lemma ReadyWanted(fw: Firewall, s: Setup, fam: Family, before: seq<Rule>, e: seq<Rule>, u: seq<Rule>, p: Packet, depth: nat)
    requires Ready(fw, s, fam, before, e, u, p, depth)
    requires fw[ChainId(NAT, ISTIO_OUTPUT)] == OutputRules(s, fam) + IncludeRules(s.Included(fam))
    ensures Traverse(fw, ChainId(NAT, OUTPUT), p, depth) == OutputWanted(s, fam, p)
  {
    if p(Protocol("tcp")) {
      IstioOutputOutcome(fw, s, fam, p, depth - 1);
    }
    OutputVerdict(fw, s, fam, before, e, u, p, depth);
    OverallWanted(s, fam, p, Eval(fw, NAT, fw[ChainId(NAT, ISTIO_OUTPUT)], p, depth - 1));
  }

  lemma PlainVerdict(fw: Firewall, s: Setup, fam: Family, fw': Firewall, p: Packet, depth: nat)
    requires Host(fw) && Closed(fw) && Enabled(s, fam) && !s.cfg.traceLogging && Installed(fw, s, fam, fw')
    requires HostPasses(fw, p, depth) && depth >= 2
    ensures ChainId(NAT, OUTPUT) in fw' && Traverse(fw', ChainId(NAT, OUTPUT), p, depth) == OutputWanted(s, fam, p)
  {
    var e, u := InstalledReady(fw, s, fam, fw', p, depth);
    ReadyWanted(fw', s, fam, fw[ChainId(NAT, OUTPUT)], e, u, p, depth);
  }

  // ---------------------------------------------------------------- a traced run

  lemma UntracedTwin(fw: Firewall, s: Setup, fam: Family, fw': Firewall) returns (plain: Firewall)
    requires Host(fw) && Enabled(s, fam) && Installed(fw, s, fam, fw')
    ensures Installed(fw, Retraced(s, false), fam, plain) && Twins(fw', plain) && Erased(fw') == Erased(plain)
    ensures ChainId(NAT, OUTPUT) in fw'
  {
    HasOutput(fw, s, fam, fw');
    plain := TwinOf(fw, s, Retraced(s, false), fam, fw');
  }

  ghost predicate Twins(a: Firewall, b: Firewall) {
    forall id, p, depth :: id in a ==> id in b && Treated(a, id, p, depth) == Treated(b, id, p, depth)
  }

  lemma TwinOf(fw: Firewall, s: Setup, untraced: Setup, fam: Family, fw': Firewall) returns (plain: Firewall)
    requires Host(fw) && Enabled(s, fam) && Installed(fw, s, fam, fw') && untraced == Retraced(s, false)
    ensures Installed(fw, untraced, fam, plain) && Twins(fw', plain) && Erased(fw') == Erased(plain)
  {
    SameSetup(s);
    if s.cfg.traceLogging {
      plain := PlainTwin(fw, s, fam);
      TwinTraffic(fw, s, fam, Retraced(s, true), fw', plain);
    } else {
      plain := fw';
    }
  }

  lemma TwinTraffic(fw: Firewall, s: Setup, fam: Family, traced: Setup, fw': Firewall, plain: Firewall)
    requires Host(fw) && Enabled(s, fam) && traced == Retraced(s, true)
    requires Installed(fw, traced, fam, fw') && Installed(fw, Retraced(s, false), fam, plain)
    ensures Twins(fw', plain) && Erased(fw') == Erased(plain)
  {
    TracingTransparent(fw, s, fam, fw', plain);
  }

  lemma SameSetup(s: Setup)
    ensures s.cfg.traceLogging ==> Retraced(s, true) == s
    ensures !s.cfg.traceLogging ==> Retraced(s, false) == s
  {
  }

  lemma PlainTwin(fw: Firewall, s: Setup, fam: Family) returns (plain: Firewall)
    requires Host(fw)
    ensures Installed(fw, Retraced(s, false), fam, plain)
  {
    RunSucceeds(fw, Retraced(s, false), fam, "iptables");
    plain := ExecLines(fw, Arguments(BuildLines("iptables", RunEntries(Retraced(s, false), fam)))).value;
  }

  lemma HasOutput(fw: Firewall, s: Setup, fam: Family, fw': Firewall)
    requires Host(fw) && Enabled(s, fam) && Installed(fw, s, fam, fw')
    ensures ChainId(NAT, OUTPUT) in fw'
  {
    InstalledChains(fw, s, fam, fw');
  }

  /**
   The verdict of a run. On a host whose own rules let the packet pass, nat OUTPUT gives every packet
   exactly the verdict of the configuration, through whatever interface and to whatever address it goes,
   whoever sent it, and whether or not the run was traced.
   */
  lemma VerdictExactly(fw: Firewall, s: Setup, fam: Family, fw': Firewall, p: Packet, depth: nat)
    requires Host(fw) && Closed(fw) && Enabled(s, fam) && Installed(fw, s, fam, fw')
    requires HostPasses(fw, p, depth) && depth >= 2
    ensures ChainId(NAT, OUTPUT) in fw' && Traverse(fw', ChainId(NAT, OUTPUT), p, depth) == OutputWanted(s, fam, p)
  {
    var plain := UntracedTwin(fw, s, fam, fw');
    PlainVerdict(fw, Retraced(s, false), fam, plain, p, depth);
    WantedRetraced(s, fam, p);
  }

  lemma WantedRetraced(s: Setup, fam: Family, p: Packet)
    ensures OutputWanted(Retraced(s, false), fam, p) == OutputWanted(s, fam, p)
  {
    TcpRetraced(s, fam, p);
    UdpRetraced(s, fam, p);
  }

  lemma TcpRetraced(s: Setup, fam: Family, p: Packet)
    ensures TcpWanted(Retraced(s, false), fam, p) == TcpWanted(s, fam, p)
  {
    OwnersRetraced(s, fam, p);
  }

  lemma UdpRetraced(s: Setup, fam: Family, p: Packet)
    ensures UdpWanted(Retraced(s, false), fam, p) == UdpWanted(s, fam, p)
  {
  }

  lemma OwnersRetraced(s: Setup, fam: Family, p: Packet)
    ensures OwnersVerdict(Retraced(s, false), fam, p) == OwnersVerdict(s, fam, p)
  {
    TakerRetraced(s.cfg, Retraced(s, false).cfg, fam, Owners(s.cfg), p);
  }

  lemma {:induction false} TakerRetraced(cfg: Config, cfg': Config, fam: Family, owners: seq<Match>, p: Packet)
    requires cfg'.redirectDNS == cfg.redirectDNS
    ensures FirstTaker(cfg', fam, owners, p) == FirstTaker(cfg, fam, owners, p)
  {
    if owners != [] {
      TakerRetraced(cfg, cfg', fam, owners[..|owners| - 1], p);
    }
  }

  /** A packet that leaves off the loopback gets the verdict the configuration asks for in plain words. */
  lemma CaptureCorrect(fw: Firewall, s: Setup, fam: Family, fw': Firewall, p: Packet, depth: nat)
    requires Host(fw) && Closed(fw) && Enabled(s, fam) && Installed(fw, s, fam, fw')
    requires HostPasses(fw, p, depth) && depth >= 2
    requires Leaving(fam, p) && !ThroughExcluded(s.cfg, p) && !(p(Protocol("tcp")) && p(Protocol("udp")))
    ensures ChainId(NAT, OUTPUT) in fw' && Traverse(fw', ChainId(NAT, OUTPUT), p, depth) == Wanted(s, fam, p)
  {
    VerdictExactly(fw, s, fam, fw', p, depth);
    PlainWords(s, fam, p);
  }

  lemma PlainWords(s: Setup, fam: Family, p: Packet)
    requires Leaving(fam, p) && !ThroughExcluded(s.cfg, p) && !(p(Protocol("tcp")) && p(Protocol("udp")))
    ensures OutputWanted(s, fam, p) == Wanted(s, fam, p)
  {
    if p(Protocol("tcp")) {
      LeavingWanted(s, fam, p);
    }
  }

  /** With DNS capture off: to the proxy exactly when nothing excludes the packet and something includes it. */
  lemma CapturedExactly(fw: Firewall, s: Setup, fam: Family, fw': Firewall, p: Packet, depth: nat)
    requires Host(fw) && Closed(fw) && Enabled(s, fam) && Installed(fw, s, fam, fw')
    requires HostPasses(fw, p, depth) && depth >= 2 && !s.cfg.redirectDNS
    requires Leaving(fam, p) && !ThroughExcluded(s.cfg, p) && !Owned(s.cfg, p)
    requires p(Protocol("tcp")) && !p(Protocol("udp"))
    ensures ChainId(NAT, OUTPUT) in fw'
    ensures Traverse(fw', ChainId(NAT, OUTPUT), p, depth) == Redirected(s.cfg.proxyPort) <==>
            && !ToPort(Text.Fields(s.cfg.outboundPortsExclude), p)
            && GroupPasses(s.cfg.Filter(), p)
            && !ToAny(s.Excluded(fam).ipNets, p)
            && (ToPort(Text.Fields(s.cfg.outboundPortsInclude), p) || s.Included(fam).isWildcard || ToAny(s.Included(fam).ipNets, p))
  {
    CaptureCorrect(fw, s, fam, fw', p, depth);
  }

  // ---------------------------------------------------------------- the proxy's own packets

  /** Let through, or redirected to the inbound capture port on its way to another address through lo. */
  predicate OwnedVerdict(cfg: Config, fam: Family, p: Packet, v: Verdict) {
    || v == Accepted
    || (v == Redirected(cfg.inboundCapturePort) && p(Protocol("tcp")) && BackToSelf(fam, p) && !ThroughExcluded(cfg, p))
  }

  /** A packet of the proxy never gets past the rules of the proxy's owners. */
  lemma OwnedTaken(s: Setup, fam: Family, p: Packet)
    requires Owned(s.cfg, p)
    ensures !OwnersVerdict(s, fam, p).Ended?
  {
    OwnedByOwner(s.cfg, p);
  }

  lemma OwnedWanted(s: Setup, fam: Family, p: Packet)
    requires Owned(s.cfg, p)
    ensures OwnedVerdict(s.cfg, fam, p, OutputWanted(s, fam, p))
    ensures OutputWanted(s, fam, p) == if TurnsBack(s, fam, p) then Redirected(s.cfg.inboundCapturePort) else Accepted
  {
    OwnedTaken(s, fam, p);
    OwnedNotDns(s, fam, p);
  }

  lemma OwnedNotDns(s: Setup, fam: Family, p: Packet)
    requires Owned(s.cfg, p)
    ensures !UdpWanted(s, fam, p).Decided?
  {
  }

  /**
   No redirect loop: whatever the configuration, a packet sent by a proxy user or group is let through,
   or redirected to the inbound capture port, the latter only on lo and to another address than loopback.
   */
  lemma OwnedNeverCaptured(fw: Firewall, s: Setup, fam: Family, fw': Firewall, p: Packet, depth: nat)
    requires Host(fw) && Closed(fw) && Enabled(s, fam) && Installed(fw, s, fam, fw')
    requires HostPasses(fw, p, depth) && depth >= 2 && Owned(s.cfg, p)
    ensures ChainId(NAT, OUTPUT) in fw' && OwnedVerdict(s.cfg, fam, p, Traverse(fw', ChainId(NAT, OUTPUT), p, depth))
  {
    VerdictExactly(fw, s, fam, fw', p, depth);
    OwnedWanted(s, fam, p);
  }

  /** The rules of the owners send the packet back to the host, and nothing lets it through before them. */
  predicate TurnsBack(s: Setup, fam: Family, p: Packet) {
    && p(Protocol("tcp")) && !ThroughExcluded(s.cfg, p)
    && !ToPort(Text.Fields(s.cfg.outboundPortsExclude), p) && !PassedThrough(fam, p)
    && OwnersVerdict(s, fam, p).Decided?
  }

  /** The verdicts that send a packet of the proxy back to the proxy. */
  predicate Looping(cfg: Config, v: Verdict) {
    v == Redirected(cfg.proxyPort) || v == Redirected(DNS_PORT)
  }

  /** A packet of the proxy loops exactly when its rules send it back and inbound capture shares a port with the redirects. */
  lemma OwnedLoopsExactly(fw: Firewall, s: Setup, fam: Family, fw': Firewall, p: Packet, depth: nat)
    requires Host(fw) && Closed(fw) && Enabled(s, fam) && Installed(fw, s, fam, fw')
    requires HostPasses(fw, p, depth) && depth >= 2 && Owned(s.cfg, p)
    ensures ChainId(NAT, OUTPUT) in fw'
    ensures Looping(s.cfg, Traverse(fw', ChainId(NAT, OUTPUT), p, depth)) <==>
            s.cfg.inboundCapturePort in {s.cfg.proxyPort, DNS_PORT} && TurnsBack(s, fam, p)
  {
    VerdictExactly(fw, s, fam, fw', p, depth);
    OwnedWanted(s, fam, p);
  }

  /**
   Every TCP packet of the first owner through lo to another address, and to no excluded port, is sent
   back to the inbound capture port, unless it is a user's DNS request or comes from the passthrough cluster.
   */
  lemma FirstOwnerTurnsBack(fw: Firewall, s: Setup, fam: Family, fw': Firewall, p: Packet, depth: nat)
    requires Host(fw) && Closed(fw) && Enabled(s, fam) && Installed(fw, s, fam, fw')
    requires HostPasses(fw, p, depth) && depth >= 2
    requires p(Protocol("tcp")) && BackToSelf(fam, p) && !ThroughExcluded(s.cfg, p)
    requires !ToPort(Text.Fields(s.cfg.outboundPortsExclude), p) && !PassedThrough(fam, p)
    requires Owners(s.cfg) != [] && p(SubMatch(Loopback(fam), Owners(s.cfg)[0]))
    requires !(Owners(s.cfg)[0].UidOwner? && DnsExempt(s.cfg, p))
    ensures ChainId(NAT, OUTPUT) in fw'
    ensures Traverse(fw', ChainId(NAT, OUTPUT), p, depth) == Redirected(s.cfg.inboundCapturePort)
  {
    VerdictExactly(fw, s, fam, fw', p, depth);
    FirstTurnsBack(s, fam, p);
  }

  lemma FirstTurnsBack(s: Setup, fam: Family, p: Packet)
    requires Owners(s.cfg) != [] && SentBack(s.cfg, fam, Owners(s.cfg)[0], p)
    ensures OwnersVerdict(s, fam, p) == Decided(Redirected(s.cfg.inboundCapturePort), p)
  {
  }

  /**
   Where loopback is skipped, what the first owner does not send back is let through: the redirects of
   every later owner are never reached, DNS requests excepted.
   */
  lemma LaterOwnersUnreached(fw: Firewall, s: Setup, fam: Family, fw': Firewall, p: Packet, depth: nat)
    requires Host(fw) && Closed(fw) && Enabled(s, fam) && Installed(fw, s, fam, fw')
    requires HostPasses(fw, p, depth) && depth >= 2
    requires p(Protocol("tcp")) && !p(Protocol("udp")) && Skipped(s, p)
    requires Owners(s.cfg) != [] && !SentBack(s.cfg, fam, Owners(s.cfg)[0], p)
    ensures ChainId(NAT, OUTPUT) in fw' && Traverse(fw', ChainId(NAT, OUTPUT), p, depth) == Accepted
  {
    VerdictExactly(fw, s, fam, fw', p, depth);
    SkippedAccepted(s, fam, p);
  }

  lemma SkippedAccepted(s: Setup, fam: Family, p: Packet)
    requires p(Protocol("tcp")) && !p(Protocol("udp")) && Skipped(s, p)
    requires Owners(s.cfg) != [] && !SentBack(s.cfg, fam, Owners(s.cfg)[0], p)
    ensures OutputWanted(s, fam, p) == Accepted
  {
    assert OwnersVerdict(s, fam, p) == Returned(p);
  }
}
