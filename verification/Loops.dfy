/** Which configurations let some packet of the proxy come back to the proxy. */
module Loops {
  import opened Netfilter
  import opened Capture
  import opened NeverFails
  import opened Tracing
  import opened Builder
  import opened Outbound
  import opened Traffic
  import opened CaptureTheorems
  import opened Headers
  import Text

  /** A packet of the proxy to this port is neither excluded nor spared. */
  predicate Loopable(cfg: Config, port: nat) {
    && (forall spec :: spec in Text.Fields(cfg.outboundPortsExclude) ==> !Covers(spec, port))
    && (port == 53 && cfg.redirectDNS ==> cfg.Gids() != [])
  }

  /**
   Inbound capture shares a port with the redirects, there are proxy owners, no excluded interface stands
   for lo, and some port is not excluded; with DNS redirection port 53 only counts when there is a group.
   */
  predicate LoopConfigured(cfg: Config) {
    && cfg.inboundCapturePort in {cfg.proxyPort, DNS_PORT}
    && Owners(cfg) != []
    && (forall i :: i in Text.Fields(cfg.excludeInterfaces) ==> !NamesInterface(i, "lo"))
    && exists port: nat :: port < PORTS && Loopable(cfg, port)
  }

  /** The owner whose packet to the port is sent back: the first, but the first group for redirected DNS. */
  function Sender(cfg: Config, port: nat): Match
    requires Owners(cfg) != [] && Loopable(cfg, port)
  {
    if port == 53 && cfg.redirectDNS then GidOwner(cfg.Gids()[0]) else Owners(cfg)[0]
  }

  /** A TCP packet of the owner through lo. */
  function SelfCall(fam: Family, owner: Match, port: nat, away: string, from: string): Header {
    var names := {owner.value, SubMatch(Loopback(fam), owner).value};
    Header("tcp", "", "lo", from, away, 1024, port, if owner.UidOwner? then names else {}, if owner.UidOwner? then {} else names,
           {"NEW"}, "", "")
  }

  lemma SelfCallFacts(cfg: Config, fam: Family, owner: Match, port: nat, away: string, from: string, contains: Contains)
    requires owner.UidOwner? || owner.GidOwner?
    requires !contains(Loopback(fam), away) && !contains(PassthroughSource(fam), from) && Loopable(cfg, port)
    requires forall i :: i in Text.Fields(cfg.excludeInterfaces) ==> !NamesInterface(i, "lo")
    ensures var p := PacketOf(SelfCall(fam, owner, port, away, from), contains);
            && p(Protocol("tcp")) && BackToSelf(fam, p) && !PassedThrough(fam, p) && !ThroughExcluded(cfg, p)
            && !ToPort(Text.Fields(cfg.outboundPortsExclude), p)
            && p(owner) && p(SubMatch(Loopback(fam), owner)) && (p(DestPort("53")) <==> port == 53)
  {
    CoversDns(port);
    OnlyLo("lo");
    SameKind(fam, owner);
  }

  lemma SameKind(fam: Family, owner: Match)
    ensures owner.UidOwner? ==> SubMatch(Loopback(fam), owner).UidOwner?
    ensures owner.GidOwner? ==> SubMatch(Loopback(fam), owner).GidOwner?
  {
  }

  lemma SenderOwns(cfg: Config, port: nat)
    requires Owners(cfg) != [] && Loopable(cfg, port)
    ensures Sender(cfg, port).UidOwner? || Sender(cfg, port).GidOwner?
    ensures exists i :: 0 <= i < |Owners(cfg)| && Owners(cfg)[i] == Sender(cfg, port)
  {
    if port == 53 && cfg.redirectDNS {
      assert Owners(cfg)[|cfg.Uids()|] == GidOwner(cfg.Gids()[0]);
    }
  }

  lemma SelfCallOwned(cfg: Config, fam: Family, port: nat, away: string, from: string, contains: Contains)
    requires Owners(cfg) != [] && Loopable(cfg, port)
    ensures Owned(cfg, PacketOf(SelfCall(fam, Sender(cfg, port), port, away, from), contains))
  {
    var p := PacketOf(SelfCall(fam, Sender(cfg, port), port, away, from), contains);
    SenderOwns(cfg, port);
    var i :| 0 <= i < |Owners(cfg)| && Owners(cfg)[i] == Sender(cfg, port);
    assert p(Owners(cfg)[i]);
    OwnedByOwner(cfg, p);
  }

  /** A packet of the first group and of no user is first taken by the rules of that group. */
  lemma FirstGroupTakes(s: Setup, fam: Family, p: Packet)
    requires s.cfg.Gids() != [] && forall v :: !p(UidOwner(v))
    requires SentBack(s.cfg, fam, GidOwner(s.cfg.Gids()[0]), p)
    ensures FirstTaker(s.cfg, fam, Owners(s.cfg), p) == |s.cfg.Uids()|
    ensures Owners(s.cfg)[|s.cfg.Uids()|] == GidOwner(s.cfg.Gids()[0])
  {
    var owners, n := Owners(s.cfg), |s.cfg.Uids()|;
    forall j | 0 <= j < n ensures !p(owners[j]) && !SentBack(s.cfg, fam, owners[j], p) {
      assert owners[j] == UidOwner(s.cfg.Uids()[j]);
      SameKind(fam, owners[j]);
    }
    assert owners[n] == Named(s.cfg.Gids(), false)[0];
    TakerIs(s.cfg, fam, owners, p, n);
  }

  lemma TakerIs(cfg: Config, fam: Family, owners: seq<Match>, p: Packet, n: nat)
    requires n < |owners| && SentBack(cfg, fam, owners[n], p)
    requires forall j :: 0 <= j < n ==> !p(owners[j]) && !SentBack(cfg, fam, owners[j], p)
    ensures FirstTaker(cfg, fam, owners, p) == n
  {
  }

  lemma SelfCallTurnsBack(s: Setup, fam: Family, port: nat, away: string, from: string, contains: Contains)
    requires LoopConfigured(s.cfg) && Loopable(s.cfg, port)
    requires !contains(Loopback(fam), away) && !contains(PassthroughSource(fam), from)
    ensures TurnsBack(s, fam, PacketOf(SelfCall(fam, Sender(s.cfg, port), port, away, from), contains))
  {
    var owner := Sender(s.cfg, port);
    var p := PacketOf(SelfCall(fam, owner, port, away, from), contains);
    SenderOwns(s.cfg, port);
    SelfCallFacts(s.cfg, fam, owner, port, away, from, contains);
    assert SentBack(s.cfg, fam, owner, p);
    if port == 53 && s.cfg.redirectDNS {
      FirstGroupTakes(s, fam, p);
    } else {
      FirstTurnsBack(s, fam, p);
    }
  }

  /** What it takes for a packet of the proxy to be sent back. */
  lemma TurnedBack(s: Setup, fam: Family, h: Header, contains: Contains)
    requires h.destPort < PORTS && TurnsBack(s, fam, PacketOf(h, contains))
    ensures Owners(s.cfg) != [] && Loopable(s.cfg, h.destPort)
    ensures forall i :: i in Text.Fields(s.cfg.excludeInterfaces) ==> !NamesInterface(i, "lo")
  {
    var p := PacketOf(h, contains);
    OnlyLo(h.outInterface);
    CoversDns(h.destPort);
    var owners := Owners(s.cfg);
    var k := if Skipped(s, p) then 0 else FirstTaker(s.cfg, fam, owners, p);
    assert k < |owners| && SentBack(s.cfg, fam, owners[k], p);
    forall spec | spec in Text.Fields(s.cfg.outboundPortsExclude) ensures !Covers(spec, h.destPort) {
      assert !p(DestPort(spec));
    }
    forall i | i in Text.Fields(s.cfg.excludeInterfaces) ensures !NamesInterface(i, "lo") {
      assert !p(OutInterface(i));
    }
  }

  /**
   Some packet of the proxy is redirected to a port it would come back from exactly in these configurations.
   `away` and `from` are addresses that are not the host's own and not the passthrough cluster's.
   */
  lemma LoopsExactly(fw: Firewall, s: Setup, fam: Family, fw': Firewall, contains: Contains, away: string, from: string, depth: nat)
    requires Host(fw) && Closed(fw) && Enabled(s, fam) && Installed(fw, s, fam, fw')
    requires depth >= 2 && forall h :: HostPasses(fw, PacketOf(h, contains), depth)
    requires !contains(Loopback(fam), away) && !contains(PassthroughSource(fam), from)
    ensures ChainId(NAT, OUTPUT) in fw'
    ensures (exists h :: LoopsBack(fw', s, h, contains, depth)) <==> LoopConfigured(s.cfg)
  {
    HasOutput(fw, s, fam, fw');
    if LoopConfigured(s.cfg) {
      var port: nat :| port < PORTS && Loopable(s.cfg, port);
      SelfCallLoops(fw, s, fam, fw', contains, port, away, from, SelfCall(fam, Sender(s.cfg, port), port, away, from), depth);
    }
    if h :| LoopsBack(fw', s, h, contains, depth) {
      OwnedLoopsExactly(fw, s, fam, fw', PacketOf(h, contains), depth);
      TurnedBack(s, fam, h, contains);
    }
  }

  /** In such a configuration the proxy's call of itself loops. */
  lemma SelfCallLoops(fw: Firewall, s: Setup, fam: Family, fw': Firewall, contains: Contains,
                      port: nat, away: string, from: string, h: Header, depth: nat)
    requires LoopConfigured(s.cfg) && port < PORTS && Loopable(s.cfg, port)
    requires h == SelfCall(fam, Sender(s.cfg, port), port, away, from)
    requires !contains(Loopback(fam), away) && !contains(PassthroughSource(fam), from)
    requires Host(fw) && Closed(fw) && Enabled(s, fam) && Installed(fw, s, fam, fw') && ChainId(NAT, OUTPUT) in fw'
    requires depth >= 2 && HostPasses(fw, PacketOf(h, contains), depth)
    ensures LoopsBack(fw', s, h, contains, depth)
  {
    SelfCallOwned(s.cfg, fam, port, away, from, contains);
    SelfCallTurnsBack(s, fam, port, away, from, contains);
    OwnedLoopsExactly(fw, s, fam, fw', PacketOf(h, contains), depth);
  }

  /** A packet of the proxy, with a port a packet can have, that is redirected to the proxy again. */
  ghost predicate LoopsBack(fw: Firewall, s: Setup, h: Header, contains: Contains, depth: nat)
    requires ChainId(NAT, OUTPUT) in fw
  {
    var p := PacketOf(h, contains);
    h.destPort < PORTS && Owned(s.cfg, p) && Looping(s.cfg, Traverse(fw, ChainId(NAT, OUTPUT), p, depth))
  }
}
