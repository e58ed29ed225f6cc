/** The main theorems in the fields of the configuration: a run keeps what Intent.dfy says of outgoing and arriving packets. */
module Promises {
  import opened Optional
  import opened Sequences
  import opened Netfilter
  import opened Builder
  import opened Capture
  import opened Intent
  import opened NeverFails
  import opened Tracing
  import opened Outbound
  import opened Traffic
  import opened CaptureTheorems
  import opened Inbound
  import opened Marks
  import opened Zones
  import Text

  // ---------------------------------------------------------------- what a configuration is read as

  lemma NetsRead(ranges: seq<string>, parse: CidrParser, fam: Family, net: string)
    ensures net in FlatMap(ranges, NetOf(parse, fam)) <==>
            exists r :: r in ranges && parse(r).Some? && parse(r).value.isV4 == (fam == V4) && net == parse(r).value.text
  {
    FlatMapMember(ranges, NetOf(parse, fam), net);
    if r :| r in ranges && parse(r).Some? && parse(r).value.isV4 == (fam == V4) && net == parse(r).value.text {
      assert net in NetOf(parse, fam)(r);
    }
  }

  lemma RangesRead(list: string, parse: CidrParser, fam: Family, p: Packet)
    requires list != "*"
    ensures !RangesOf(parse, fam, list).isWildcard
    ensures ToAny(RangesOf(parse, fam, list).ipNets, p) <==> InRange(list, parse, fam, p)
  {
    var nets := RangesOf(parse, fam, list).ipNets;
    if net :| net in nets && p(Destination(net)) {
      NetsRead(Text.Fields(list), parse, fam, net);
    }
    if r :| r in Text.Fields(list) && parse(r).Some? && parse(r).value.isV4 == (fam == V4) && p(Destination(parse(r).value.text)) {
      NetsRead(Text.Fields(list), parse, fam, parse(r).value.text);
      assert parse(r).value.text in nets;
    }
  }

  lemma WildcardRead(parse: CidrParser, fam: Family, p: Packet)
    ensures RangesOf(parse, fam, "*").isWildcard && !ToAny(RangesOf(parse, fam, "*").ipNets, p)
  {
  }

  lemma LoopbackRead(cfg: Config, parse: CidrParser)
    ensures SetupOf(cfg, parse).skipLoopback <==> !CapturesLoopback(cfg, parse)
  {
  }

  lemma HostsRead(cfg: Config, parse: CidrParser, fam: Family, p: Packet)
    ensures ToAny(SetupOf(cfg, parse).Hosts(fam), p) <==> ToServer(cfg, fam, p)
  {
    var servers := if fam == V4 then cfg.dnsServersV4 else cfg.dnsServersV6;
    var hosts := SetupOf(cfg, parse).Hosts(fam);
    assert hosts == Suffixed(servers, HostSuffix(fam));
    if h :| h in hosts && p(Destination(h)) {
      var i :| 0 <= i < |hosts| && hosts[i] == h;
      assert servers[i] in servers && h == servers[i] + HostSuffix(fam);
    }
    if h :| h in servers && p(Destination(h + HostSuffix(fam))) {
      var i :| 0 <= i < |servers| && servers[i] == h;
      assert hosts[i] in hosts;
    }
  }

  lemma OwnersRead(cfg: Config)
    ensures Owners(cfg) == ProxyOwners(cfg)
  {
  }

  // ---------------------------------------------------------------- outgoing packets

  /** The same answer, once as the outcome of rules. */
  ghost predicate Says(said: Option<Verdict>, p: Packet, o: Outcome) {
    match said
    case None => o == Ended(p)
    case Some(verdict) => if verdict == Accepted then o == Returned(p) else o == Decided(verdict, p)
  }

  lemma OneSays(cfg: Config, parse: CidrParser, fam: Family, owner: Match, p: Packet)
    ensures Says(OwnersSay(cfg, parse, fam, [owner], p), p, OwnersWanted(SetupOf(cfg, parse), fam, [owner], p))
  {
    var s := SetupOf(cfg, parse);
    LoopbackRead(cfg, parse);
    SameSpelling(fam, owner.value);
    assert [owner][1..] == [] && [owner][..0] == [];
    assert OwnersWanted(s, fam, [owner], p) == OwnerWanted(s, fam, owner, p);
  }

  lemma FirstSays(cfg: Config, parse: CidrParser, fam: Family, owners: seq<Match>, p: Packet)
    requires owners != []
    ensures var first := OwnersSay(cfg, parse, fam, [owners[0]], p);
            OwnersSay(cfg, parse, fam, owners, p) == if first.Some? then first else OwnersSay(cfg, parse, fam, owners[1..], p)
  {
    assert [owners[0]][1..] == [];
  }

  lemma SaysThen(a: Option<Verdict>, b: Option<Verdict>, p: Packet, x: Outcome, y: Outcome)
    requires Says(a, p, x) && Says(b, p, y)
    ensures Says(if a.Some? then a else b, p, Then(x, y))
  {
  }

  lemma {:induction false} OwnersSayWanted(cfg: Config, parse: CidrParser, fam: Family, owners: seq<Match>, p: Packet)
    ensures Says(OwnersSay(cfg, parse, fam, owners, p), p, OwnersWanted(SetupOf(cfg, parse), fam, owners, p))
    decreases |owners|
  {
    if owners != [] {
      var first, rest := [owners[0]], owners[1..];
      var s := SetupOf(cfg, parse);
      OneSays(cfg, parse, fam, owners[0], p);
      FirstSays(cfg, parse, fam, owners, p);
      OwnersSayWanted(cfg, parse, fam, rest, p);
      SaysThen(OwnersSay(cfg, parse, fam, first, p), OwnersSay(cfg, parse, fam, rest, p), p,
               OwnersWanted(s, fam, first, p), OwnersWanted(s, fam, rest, p));
      OwnersConcat(s, fam, first, rest, p);
      assert first + rest == owners;
    }
  }

  lemma OwnersSayVerdict(cfg: Config, parse: CidrParser, fam: Family, p: Packet)
    ensures Says(OwnersSay(cfg, parse, fam, ProxyOwners(cfg), p), p, OwnersVerdict(SetupOf(cfg, parse), fam, p))
  {
    OwnersRead(cfg);
    OwnersSayWanted(cfg, parse, fam, Owners(cfg), p);
    OwnersConcat(SetupOf(cfg, parse), fam, Named(cfg.Uids(), true), Named(cfg.Gids(), false), p);
    OwnersDecide(SetupOf(cfg, parse), fam, p);
  }

  lemma GroupsRead(cfg: Config, p: Packet)
    ensures GroupPasses(cfg.Filter(), p) <==> OfCapturedGroup(cfg, p)
    ensures Owned(cfg, p) <==> FromProxy(cfg, p)
  {
  }

  lemma PlacesRead(cfg: Config, parse: CidrParser, fam: Family, p: Packet)
    requires cfg.outboundIPRangesExclude != "*"
    ensures var s := SetupOf(cfg, parse);
            && (DnsCaptured(s, fam, p) <==> AgentAnswers(cfg, fam, p))
            && (ToAny(s.Excluded(fam).ipNets, p) <==> InRange(cfg.outboundIPRangesExclude, parse, fam, p))
            && (Included(s, fam, p) <==>
                  ToListed(cfg.outboundPortsInclude, p) || cfg.outboundIPRangesInclude == "*" || InRange(cfg.outboundIPRangesInclude, parse, fam, p))
  {
    HostsRead(cfg, parse, fam, p);
    RangesRead(cfg.outboundIPRangesExclude, parse, fam, p);
    if cfg.outboundIPRangesInclude == "*" {
      WildcardRead(parse, fam, p);
    } else {
      RangesRead(cfg.outboundIPRangesInclude, parse, fam, p);
    }
  }

  lemma TcpRead(cfg: Config, parse: CidrParser, fam: Family, p: Packet)
    requires cfg.outboundIPRangesExclude != "*"
    ensures TcpWanted(SetupOf(cfg, parse), fam, p) == TcpGoes(cfg, parse, fam, p)
  {
    OwnersSayVerdict(cfg, parse, fam, p);
    GroupsRead(cfg, p);
    PlacesRead(cfg, parse, fam, p);
    SameSpelling(fam, "");
  }

  lemma GoesWanted(cfg: Config, parse: CidrParser, fam: Family, p: Packet)
    requires cfg.outboundIPRangesExclude != "*"
    ensures OutputWanted(SetupOf(cfg, parse), fam, p) == Goes(cfg, parse, fam, p)
  {
    TcpRead(cfg, parse, fam, p);
    GroupsRead(cfg, p);
    PlacesRead(cfg, parse, fam, p);
  }

  /** What a run of the configuration leaves of a firewall. */
  ghost predicate InstalledFor(fw: Firewall, cfg: Config, parse: CidrParser, fam: Family, fw': Firewall) {
    Host(fw) && Closed(fw) && (fam == V4 || cfg.enableInboundIPv6) && Installed(fw, SetupOf(cfg, parse), fam, fw')
  }

  /**
   Outgoing packets go where the configuration says, whatever it and they are, where the host's own rules let
   them pass. On `*` as excluded ranges the run stops before it installs anything.
   */
  lemma OutgoingKept(fw: Firewall, cfg: Config, parse: CidrParser, fam: Family, fw': Firewall, p: Packet, depth: nat)
    requires InstalledFor(fw, cfg, parse, fam, fw') && cfg.outboundIPRangesExclude != "*"
    requires HostPasses(fw, p, depth) && depth >= 2
    ensures ChainId("nat", "OUTPUT") in fw' && Traverse(fw', ChainId("nat", "OUTPUT"), p, depth) == Goes(cfg, parse, fam, p)
  {
    VerdictExactly(fw, SetupOf(cfg, parse), fam, fw', p, depth);
    GoesWanted(cfg, parse, fam, p);
  }

  /**
   Without DNS redirection an unowned TCP packet off the loopback, on no excluded interface, goes to the proxy
   exactly when no excluded port or range and no group keeps it out, and a port, a range or `*` includes it.
   */
  lemma CapturedKept(fw: Firewall, cfg: Config, parse: CidrParser, fam: Family, fw': Firewall, p: Packet, depth: nat)
    requires InstalledFor(fw, cfg, parse, fam, fw') && cfg.outboundIPRangesExclude != "*" && !cfg.redirectDNS
    requires HostPasses(fw, p, depth) && depth >= 2
    requires p(Protocol("tcp")) && !p(Protocol("udp")) && !p(OutInterface("lo")) && !p(Destination(OwnAddress(fam)))
    requires !OutThroughExcluded(cfg, p) && !FromProxy(cfg, p)
    ensures ChainId("nat", "OUTPUT") in fw'
    ensures Traverse(fw', ChainId("nat", "OUTPUT"), p, depth) == Redirected(cfg.proxyPort) <==>
            && !ToListed(cfg.outboundPortsExclude, p) && OfCapturedGroup(cfg, p)
            && !InRange(cfg.outboundIPRangesExclude, parse, fam, p)
            && (ToListed(cfg.outboundPortsInclude, p) || cfg.outboundIPRangesInclude == "*" ||
                InRange(cfg.outboundIPRangesInclude, parse, fam, p))
  {
    CapturedExactly(fw, SetupOf(cfg, parse), fam, fw', p, depth);
    GroupsRead(cfg, p);
    PlacesRead(cfg, parse, fam, p);
  }

  // ---------------------------------------------------------------- arriving packets

  lemma InterfacesRead(cfg: Config, p: Packet)
    ensures FromKube(cfg, p) <==> FromMachine(cfg, p)
    ensures FromExcluded(cfg, p) <==> FromExcludedInterface(cfg, p)
  {
    BuiltInNames();
    if i :| i in Text.Fields(cfg.excludeInterfaces) && p(InInterface(i)) {
      assert InterfaceTest(PREROUTING, i) == InInterface(i);
    }
  }

  lemma PortsRead(cfg: Config, p: Packet)
    ensures ToCapturedPort(cfg, p) <==> ToWantedPort(cfg, p)
  {
  }

  lemma NatRead(cfg: Config, parse: CidrParser, fam: Family, p: Packet)
    ensures NatWanted(SetupOf(cfg, parse), fam, p) == NatSends(cfg, parse, fam, p)
  {
    InterfacesRead(cfg, p);
    PortsRead(cfg, p);
    MachineRead(cfg, parse, fam, p);
  }

  lemma MachineRead(cfg: Config, parse: CidrParser, fam: Family, p: Packet)
    ensures InRanges(SetupOf(cfg, parse).Included(fam), p) <==>
            cfg.outboundIPRangesInclude == "*" || InRange(cfg.outboundIPRangesInclude, parse, fam, p)
  {
    if cfg.outboundIPRangesInclude == "*" {
      WildcardRead(parse, fam, p);
    } else {
      RangesRead(cfg.outboundIPRangesInclude, parse, fam, p);
    }
  }

  lemma TakenRead(cfg: Config, fam: Family, p: Packet)
    ensures Taken(cfg, fam, p) <==> Watched(cfg, p) && ToCapturedPort(cfg, p) && !Spared(cfg, fam, p)
    ensures Watched(cfg, p) <==>
            cfg.UsesTproxy() && p(Protocol("tcp")) && !FromExcluded(cfg, p) && !(cfg.dropInvalid && p(CtState("INVALID")))
  {
    InterfacesRead(cfg, p);
    PortsRead(cfg, p);
  }

  lemma MangleRead(cfg: Config, parse: CidrParser, fam: Family, p: Packet)
    ensures MangleWanted(SetupOf(cfg, parse), fam, p) == MangleSends(cfg, fam, p)
  {
    TakenRead(cfg, fam, p);
    InterfacesRead(cfg, p);
    SameSpelling(fam, cfg.inboundTProxyMark + "/0xffffffff");
    SameSpelling(fam, cfg.inboundCapturePort);
  }

  /** What is left of a packet that TPROXY mode has to do with. */
  lemma WatchedRead(cfg: Config, fam: Family, p: Packet)
    requires Watched(cfg, p)
    ensures MangleInboundWanted(cfg, fam, p).Decided? <==>
            Taken(cfg, fam, p) && (p(CtState("RELATED,ESTABLISHED")) || !p(Destination(OwnAddress(fam))))
    ensures MangleInboundWanted(cfg, fam, p).Decided? ==>
              MangleInboundWanted(cfg, fam, p).packet ==
              if p(CtState("RELATED,ESTABLISHED")) then Effect(SetMark(cfg.inboundTProxyMark), p) else p
    ensures MarkSaved(cfg, p) == if p(Mark(cfg.inboundTProxyMark)) then Effect(SaveMark, p) else p
  {
    TakenRead(cfg, fam, p);
    SameSpelling(fam, "");
  }

  lemma ArrivesRead(cfg: Config, parse: CidrParser, fam: Family, p: Packet)
    ensures forall m :: MangleLeaves(SetupOf(cfg, parse), fam, p)(m) == ArrivesWith(cfg, fam, p, m)
  {
    TakenRead(cfg, fam, p);
    if Watched(cfg, p) {
      WatchedRead(cfg, fam, p);
    } else {
      Unwatched(cfg, fam, p);
    }
  }

  lemma Unwatched(cfg: Config, fam: Family, p: Packet)
    requires !Watched(cfg, p)
    ensures (cfg.UsesTproxy() && FromExcluded(cfg, p)) || (cfg.dropInvalid && p(CtState("INVALID"))) ||
            (MangleInboundWanted(cfg, fam, p) == Ended(p) && MarkSaved(cfg, p) == p)
  {
    TakenRead(cfg, fam, p);
  }

  /** Arriving packets go where the configuration says, in either mode, and leave the mangle table marked as it says. */
  lemma ArrivingKept(fw: Firewall, cfg: Config, parse: CidrParser, fam: Family, fw': Firewall, p: Packet, depth: nat)
    requires InstalledFor(fw, cfg, parse, fam, fw') && depth >= 2
    ensures var nat_, mangle := ChainId("nat", "PREROUTING"), ChainId("mangle", "PREROUTING");
            && nat_ in fw && nat_ in fw' && mangle in fw && mangle in fw'
            && (PassesHost(fw, nat_, p, depth) ==> Traverse(fw', nat_, p, depth) == NatSends(cfg, parse, fam, p))
            && (PassesHost(fw, mangle, p, depth) ==>
                  && Traverse(fw', mangle, p, depth) == MangleSends(cfg, fam, p)
                  && forall m :: LeavesAs(fw', mangle, p, depth)(m) == ArrivesWith(cfg, fam, p, m))
  {
    ArrivalsExactly(fw, SetupOf(cfg, parse), fam, fw', p, depth);
    NatRead(cfg, parse, fam, p);
    MangleRead(cfg, parse, fam, p);
    ArrivesRead(cfg, parse, fam, p);
  }

  // ---------------------------------------------------------------- marks and zones

  /** Outgoing packets leave the mangle table marked as the configuration says, and are not decided there. */
  lemma MarksKept(fw: Firewall, cfg: Config, parse: CidrParser, fam: Family, fw': Firewall, p: Packet, depth: nat)
    requires InstalledFor(fw, cfg, parse, fam, fw')
    ensures var mangle := ChainId("mangle", "OUTPUT");
            && mangle in fw && mangle in fw'
            && (PassesHost(fw, mangle, p, depth) ==>
                  && Traverse(fw', mangle, p, depth) == Accepted
                  && forall m :: LeavesAs(fw', mangle, p, depth)(m) == LeavesWith(cfg, fam, p, m))
  {
    InstalledChains(fw, SetupOf(cfg, parse), fam, fw');
    if PassesHost(fw, MARKING, p, depth) {
      MarksExactly(fw, SetupOf(cfg, parse), fam, fw', p, depth);
    }
  }

  lemma ZoneRead(cfg: Config, parse: CidrParser, fam: Family, p: Packet)
    ensures ZoneWanted(SetupOf(cfg, parse), fam, RAW_OUT, p) == ZoneOut(cfg, fam, p)
    ensures ZoneWanted(SetupOf(cfg, parse), fam, RAW_IN, p) == ZoneIn(cfg, fam, p)
  {
    HostsRead(cfg, parse, fam, p);
    GroupsRead(cfg, p);
    BuiltInNames();
  }

  /** Packets are in the conntrack zones the configuration says, outgoing and arriving. */
  lemma ZonesKept(fw: Firewall, cfg: Config, parse: CidrParser, fam: Family, fw': Firewall, p: Packet, depth: nat)
    requires InstalledFor(fw, cfg, parse, fam, fw')
    ensures var out, in_ := ChainId("raw", "OUTPUT"), ChainId("raw", "PREROUTING");
            && out in fw && out in fw' && in_ in fw && in_ in fw'
            && (ZonelessHost(fw, out, p, depth) ==> ZoneAt(fw', out, p, depth) == ZoneOut(cfg, fam, p))
            && (ZonelessHost(fw, in_, p, depth) ==> ZoneAt(fw', in_, p, depth) == ZoneIn(cfg, fam, p))
  {
    InstalledChains(fw, SetupOf(cfg, parse), fam, fw');
    ZoneRead(cfg, parse, fam, p);
    if ZonelessHost(fw, RAW_OUT, p, depth) {
      ZonesExactly(fw, SetupOf(cfg, parse), fam, fw', RAW_OUT, p, depth);
    }
    if ZonelessHost(fw, RAW_IN, p, depth) {
      ZonesExactly(fw, SetupOf(cfg, parse), fam, fw', RAW_IN, p, depth);
    }
  }

  /**
   Of packets from port 53 exactly those are in zone 1 that arrive while all DNS is captured or are addressed
   to a listed server; so an answer from a listed server, which is addressed to the host, is in none.
   */
  lemma AnswersZonedExactly(fw: Firewall, cfg: Config, parse: CidrParser, fam: Family, fw': Firewall, p: Packet, depth: nat)
    requires InstalledFor(fw, cfg, parse, fam, fw') && cfg.redirectDNS
    requires p(Protocol("udp")) && p(SourcePort("53"))
    requires ChainId("raw", "PREROUTING") in fw && ZonelessHost(fw, ChainId("raw", "PREROUTING"), p, depth)
    ensures ChainId("raw", "PREROUTING") in fw'
    ensures ZoneAt(fw', ChainId("raw", "PREROUTING"), p, depth) == Some("1") <==> cfg.captureAllDNS || ToServer(cfg, fam, p)
  {
    ZonesKept(fw, cfg, parse, fam, fw', p, depth);
  }

  // ---------------------------------------------------------------- all of it

  /** The six built-in chains that a run fills. */
  predicate HasChains(fw: Firewall) {
    && ChainId("nat", "PREROUTING") in fw && ChainId("nat", "OUTPUT") in fw
    && ChainId("mangle", "PREROUTING") in fw && ChainId("mangle", "OUTPUT") in fw
    && ChainId("raw", "PREROUTING") in fw && ChainId("raw", "OUTPUT") in fw
  }

  /** Where a packet goes from each of the chains, where the host's own rules let it pass. */
  ghost predicate WaysKept(fw: Firewall, cfg: Config, parse: CidrParser, fam: Family, fw': Firewall, p: Packet, depth: nat)
    requires HasChains(fw) && HasChains(fw')
  {
    && (PassesHost(fw, ChainId("nat", "OUTPUT"), p, depth) ==>
          Traverse(fw', ChainId("nat", "OUTPUT"), p, depth) == Goes(cfg, parse, fam, p))
    && (PassesHost(fw, ChainId("nat", "PREROUTING"), p, depth) ==>
          Traverse(fw', ChainId("nat", "PREROUTING"), p, depth) == NatSends(cfg, parse, fam, p))
    && (PassesHost(fw, ChainId("mangle", "PREROUTING"), p, depth) ==>
          Traverse(fw', ChainId("mangle", "PREROUTING"), p, depth) == MangleSends(cfg, fam, p))
    && (PassesHost(fw, ChainId("mangle", "OUTPUT"), p, depth) ==>
          Traverse(fw', ChainId("mangle", "OUTPUT"), p, depth) == Accepted)
  }

  /** What it carries then: its marks, and the zone it is in. */
  ghost predicate MarkingsKept(fw: Firewall, cfg: Config, fam: Family, fw': Firewall, p: Packet, depth: nat)
    requires HasChains(fw) && HasChains(fw')
  {
    && (PassesHost(fw, ChainId("mangle", "PREROUTING"), p, depth) ==>
          forall m :: LeavesAs(fw', ChainId("mangle", "PREROUTING"), p, depth)(m) == ArrivesWith(cfg, fam, p, m))
    && (PassesHost(fw, ChainId("mangle", "OUTPUT"), p, depth) ==>
          forall m :: LeavesAs(fw', ChainId("mangle", "OUTPUT"), p, depth)(m) == LeavesWith(cfg, fam, p, m))
    && (ZonelessHost(fw, ChainId("raw", "OUTPUT"), p, depth) ==>
          ZoneAt(fw', ChainId("raw", "OUTPUT"), p, depth) == ZoneOut(cfg, fam, p))
    && (ZonelessHost(fw, ChainId("raw", "PREROUTING"), p, depth) ==>
          ZoneAt(fw', ChainId("raw", "PREROUTING"), p, depth) == ZoneIn(cfg, fam, p))
  }

  ghost predicate Kept(fw: Firewall, cfg: Config, parse: CidrParser, fam: Family, fw': Firewall, p: Packet, depth: nat) {
    && HasChains(fw) && HasChains(fw')
    && WaysKept(fw, cfg, parse, fam, fw', p, depth)
    && MarkingsKept(fw, cfg, fam, fw', p, depth)
  }

  lemma AllKept(fw: Firewall, cfg: Config, parse: CidrParser, fam: Family, fw': Firewall, p: Packet, depth: nat)
    requires InstalledFor(fw, cfg, parse, fam, fw') && cfg.outboundIPRangesExclude != "*" && depth >= 2
    ensures Kept(fw, cfg, parse, fam, fw', p, depth)
  {
    InstalledChains(fw, SetupOf(cfg, parse), fam, fw');
    if HostPasses(fw, p, depth) {
      OutgoingKept(fw, cfg, parse, fam, fw', p, depth);
    }
    ArrivingKept(fw, cfg, parse, fam, fw', p, depth);
    MarksKept(fw, cfg, parse, fam, fw', p, depth);
    ZonesKept(fw, cfg, parse, fam, fw', p, depth);
  }

  /** No packet can tell the firewalls apart. */
  ghost predicate AlikeFor(a: Firewall, b: Firewall, id: ChainId, p: Packet, depth: nat) {
    id in a && id in b && Treated(a, id, p, depth) == Treated(b, id, p, depth) && ZoneAt(a, id, p, depth) == ZoneAt(b, id, p, depth)
  }

  lemma WaysAlike(fw: Firewall, cfg: Config, parse: CidrParser, fam: Family, a: Firewall, b: Firewall, p: Packet, depth: nat)
    requires HasChains(fw) && HasChains(a) && HasChains(b) && WaysKept(fw, cfg, parse, fam, a, p, depth)
    requires forall id :: id in a ==> AlikeFor(a, b, id, p, depth)
    ensures WaysKept(fw, cfg, parse, fam, b, p, depth)
  {
    assert AlikeFor(a, b, ChainId("nat", "OUTPUT"), p, depth) && AlikeFor(a, b, ChainId("nat", "PREROUTING"), p, depth);
    assert AlikeFor(a, b, ChainId("mangle", "OUTPUT"), p, depth) && AlikeFor(a, b, ChainId("mangle", "PREROUTING"), p, depth);
  }

  lemma MarkingsAlike(fw: Firewall, cfg: Config, fam: Family, a: Firewall, b: Firewall, p: Packet, depth: nat)
    requires HasChains(fw) && HasChains(a) && HasChains(b) && MarkingsKept(fw, cfg, fam, a, p, depth)
    requires forall id :: id in a ==> AlikeFor(a, b, id, p, depth)
    ensures MarkingsKept(fw, cfg, fam, b, p, depth)
  {
    assert AlikeFor(a, b, ChainId("mangle", "OUTPUT"), p, depth) && AlikeFor(a, b, ChainId("mangle", "PREROUTING"), p, depth);
    assert AlikeFor(a, b, ChainId("raw", "OUTPUT"), p, depth) && AlikeFor(a, b, ChainId("raw", "PREROUTING"), p, depth);
  }

  /** Of two firewalls that differ only in logging rules the same holds. */
  lemma KeptAlike(fw: Firewall, cfg: Config, parse: CidrParser, fam: Family, a: Firewall, b: Firewall, p: Packet, depth: nat)
    requires Kept(fw, cfg, parse, fam, a, p, depth) && Twins(a, b) && Erased(a) == Erased(b)
    ensures Kept(fw, cfg, parse, fam, b, p, depth)
  {
    forall id | id in a ensures AlikeFor(a, b, id, p, depth) {
      SameZone(a, b, id, p, depth);
      assert Treated(a, id, p, depth) == Treated(b, id, p, depth);
    }
    assert Erased(a).Keys == a.Keys && Erased(b).Keys == b.Keys;
    WaysAlike(fw, cfg, parse, fam, a, b, p, depth);
    MarkingsAlike(fw, cfg, fam, a, b, p, depth);
  }

  /** Nothing happens to the second family while it is off. */
  lemma OtherFamilyKept(fw: Firewall, cfg: Config, parse: CidrParser, fw': Firewall)
    requires !cfg.enableInboundIPv6 && Installed(fw, SetupOf(cfg, parse), V6, fw')
    ensures fw' == fw
  {
    assert UserChains([]) == [];
    assert BuildLines("iptables", []) == [];
  }
}
