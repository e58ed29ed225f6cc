/**
 What a configuration promises, in its own fields and in tests a packet passes: which packets the proxy
 gets, which marks they carry, and which conntrack zone they are in. Nothing here says how rules bring it about.
 */
module Intent {
  import opened Optional
  import opened Netfilter
  import opened Capture
  import Text

  // ---------------------------------------------------------------- addresses

  /** The host's own address, as a range. */
  function OwnAddress(fam: Family): string {
    if fam == V4 then "127.0.0.1/32" else "::1/128"
  }

  /** Where the inbound passthrough cluster sends from. */
  function ClusterAddress(fam: Family): string {
    if fam == V4 then "127.0.0.6/32" else "::6/128"
  }

  /** In rules that are given for both families a value spelled like the placeholder becomes the own address. */
  function Spelled(fam: Family, value: string): string {
    if value == "PLACEHOLDER_IP_VERSION_SPECIFIC" then OwnAddress(fam) else value
  }

  /** To one of the configured ranges, as far as they can be read and are of the family. */
  predicate InRange(list: string, parse: CidrParser, fam: Family, p: Packet) {
    exists r :: r in Text.Fields(list) && parse(r).Some? && parse(r).value.isV4 == (fam == V4) && p(Destination(parse(r).value.text))
  }

  /** Loopback traffic is captured like any other when an included range starts at a loopback address. */
  predicate CapturesLoopback(cfg: Config, parse: CidrParser) {
    && cfg.outboundIPRangesInclude != "*"
    && exists r :: r in Text.Fields(cfg.outboundIPRangesInclude) && parse(r).Some? && parse(r).value.isLoopback
  }

  predicate ToListed(ports: string, p: Packet) {
    exists port :: port in Text.Fields(ports) && p(DestPort(port))
  }

  // ---------------------------------------------------------------- who sent it

  predicate FromProxy(cfg: Config, p: Packet) {
    || (exists uid :: uid in Text.Fields(cfg.proxyUID) && p(UidOwner(uid)))
    || (exists gid :: gid in Text.Fields(cfg.proxyGID) && p(GidOwner(gid)))
  }

  /** The sender's group is one whose traffic is captured. */
  predicate OfCapturedGroup(cfg: Config, p: Packet) {
    if cfg.ownerGroupsInclude == "*" then forall g :: g in Text.Fields(cfg.ownerGroupsExclude) ==> !p(GidOwner(g))
    else exists g :: g in Text.Fields(cfg.ownerGroupsInclude) && p(GidOwner(g))
  }

  /** To one of the DNS servers the configuration names. */
  predicate ToServer(cfg: Config, fam: Family, p: Packet) {
    if fam == V4 then exists h :: h in cfg.dnsServersV4 && p(Destination(h + "/32"))
    else exists h :: h in cfg.dnsServersV6 && p(Destination(h + "/128"))
  }

  /** A DNS request the agent answers. */
  predicate AgentAnswers(cfg: Config, fam: Family, p: Packet) {
    cfg.redirectDNS && p(DestPort("53")) && (cfg.captureAllDNS || ToServer(cfg, fam, p))
  }

  // ---------------------------------------------------------------- outgoing packets

  predicate OutThroughExcluded(cfg: Config, p: Packet) {
    exists i :: i in Text.Fields(cfg.excludeInterfaces) && p(OutInterface(i))
  }

  /** A DNS request while those are redirected. */
  predicate RedirectedDns(cfg: Config, p: Packet) {
    cfg.redirectDNS && p(DestPort("53"))
  }

  /** What a user or group of the proxy sends to the host itself by another address; a user's DNS requests are exempt. */
  predicate CallsItself(cfg: Config, fam: Family, owner: Match, p: Packet) {
    && p(OutInterface("lo")) && !p(Destination(OwnAddress(fam)))
    && p(owner.(value := Spelled(fam, owner.value)))
    && !(owner.UidOwner? && RedirectedDns(cfg, p))
  }

  /** The first user or group that has to do with a TCP packet says where it goes; None when there is none. */
  function OwnersSay(cfg: Config, parse: CidrParser, fam: Family, owners: seq<Match>, p: Packet): Option<Verdict> {
    if owners == [] then None
    else if CallsItself(cfg, fam, owners[0], p) then Some(Redirected(cfg.inboundCapturePort))
    else if p(owners[0]) || (p(OutInterface("lo")) && !CapturesLoopback(cfg, parse) && !RedirectedDns(cfg, p)) then Some(Accepted)
    else OwnersSay(cfg, parse, fam, owners[1..], p)
  }

  /** The proxy's users and then its groups. */
  function ProxyOwners(cfg: Config): seq<Match> {
    var uids, gids := Text.Fields(cfg.proxyUID), Text.Fields(cfg.proxyGID);
    seq(|uids|, i requires 0 <= i < |uids| => UidOwner(uids[i])) + seq(|gids|, i requires 0 <= i < |gids| => GidOwner(gids[i]))
  }

  /** Where a TCP packet goes that leaves through no excluded interface. */
  function TcpGoes(cfg: Config, parse: CidrParser, fam: Family, p: Packet): Verdict {
    if ToListed(cfg.outboundPortsExclude, p) || (p(OutInterface("lo")) && p(Source(ClusterAddress(fam)))) then Accepted
    else
      match OwnersSay(cfg, parse, fam, ProxyOwners(cfg), p)
      case Some(verdict) => verdict
      case None =>
        if !OfCapturedGroup(cfg, p) then Accepted
        else if AgentAnswers(cfg, fam, p) then Redirected("15053")
        else if p(Destination(OwnAddress(fam))) || InRange(cfg.outboundIPRangesExclude, parse, fam, p) then Accepted
        else if ToListed(cfg.outboundPortsInclude, p) || cfg.outboundIPRangesInclude == "*" ||
                InRange(cfg.outboundIPRangesInclude, parse, fam, p) then Redirected(cfg.proxyPort)
        else Accepted
  }

  /** Where an outgoing packet goes. */
  function Goes(cfg: Config, parse: CidrParser, fam: Family, p: Packet): Verdict {
    if OutThroughExcluded(cfg, p) then Accepted
    else if p(Protocol("tcp")) && TcpGoes(cfg, parse, fam, p) != Accepted then TcpGoes(cfg, parse, fam, p)
    else if p(Protocol("udp")) && AgentAnswers(cfg, fam, p) && !FromProxy(cfg, p) && OfCapturedGroup(cfg, p) then Redirected("15053")
    else Accepted
  }

  // ---------------------------------------------------------------- arriving packets

  predicate FromExcludedInterface(cfg: Config, p: Packet) {
    exists i :: i in Text.Fields(cfg.excludeInterfaces) && p(InInterface(i))
  }

  predicate FromMachine(cfg: Config, p: Packet) {
    exists i :: i in Text.Fields(cfg.kubeVirtInterfaces) && p(InInterface(i))
  }

  predicate ToWantedPort(cfg: Config, p: Packet) {
    if cfg.inboundPortsInclude == "*" then !ToListed(cfg.inboundPortsExclude, p) else ToListed(cfg.inboundPortsInclude, p)
  }

  /** Where the nat table sends an arriving packet: a virtual machine's traffic is outbound, the rest inbound. */
  function NatSends(cfg: Config, parse: CidrParser, fam: Family, p: Packet): Verdict {
    if !p(Protocol("tcp")) then Accepted
    else if FromMachine(cfg, p) then
      if cfg.outboundIPRangesInclude == "*" || InRange(cfg.outboundIPRangesInclude, parse, fam, p) then Redirected(cfg.proxyPort)
      else Accepted
    else if cfg.inboundInterceptionMode == "TPROXY" || FromExcludedInterface(cfg, p) || !ToWantedPort(cfg, p) ||
            p(DestPort(cfg.inboundTunnelPort)) then Accepted
    else Redirected(cfg.inboundCapturePort)
  }

  /** TPROXY mode has nothing to do with what comes from an excluded interface or is dropped. */
  predicate Watched(cfg: Config, p: Packet) {
    && cfg.inboundInterceptionMode == "TPROXY" && p(Protocol("tcp"))
    && !FromExcludedInterface(cfg, p) && !(cfg.dropInvalid && p(CtState("INVALID")))
  }

  /** To a captured port, not marked, and not looped back but by the proxy for a workload. */
  predicate Taken(cfg: Config, fam: Family, p: Packet) {
    && Watched(cfg, p) && ToWantedPort(cfg, p) && !p(Mark(cfg.inboundTProxyMark))
    && (p(InInterface("lo")) ==> !p(Source(ClusterAddress(fam))) && p(Mark("1338")))
  }

  /** What the mangle table does with an arriving packet. */
  function MangleSends(cfg: Config, fam: Family, p: Packet): Verdict {
    if cfg.inboundInterceptionMode == "TPROXY" && FromExcludedInterface(cfg, p) then Accepted
    else if cfg.dropInvalid && p(CtState("INVALID")) then Dropped
    else if Taken(cfg, fam, p) && !p(CtState("RELATED,ESTABLISHED")) && !p(Destination(OwnAddress(fam))) then
      Proxied(Spelled(fam, cfg.inboundTProxyMark + "/0xffffffff"), Spelled(fam, cfg.inboundCapturePort))
    else Accepted
  }

  /**
   Whether an arriving packet passes a test when it leaves the mangle table: packets of established
   connections have the mark, so that they are routed to the proxy, and the mark of one that has it is
   saved for its connection.
   */
  predicate ArrivesWith(cfg: Config, fam: Family, p: Packet, m: Match) {
    if m.Mark? && Taken(cfg, fam, p) && p(CtState("RELATED,ESTABLISHED")) then m.value == cfg.inboundTProxyMark
    else if m.ConnMark? && Watched(cfg, p) && p(Mark(cfg.inboundTProxyMark)) then p(Mark(m.value))
    else p(m)
  }

  // ---------------------------------------------------------------- marks of outgoing packets

  /** What the proxy sends to a workload of the host by the workload's address. */
  predicate ToWorkload(cfg: Config, fam: Family, p: Packet) {
    && p(OutInterface("lo")) && !p(Destination(OwnAddress(fam)))
    && (|| (exists uid :: uid in Text.Fields(cfg.proxyUID) && p(UidOwner(Spelled(fam, uid))))
        || (exists gid :: gid in Text.Fields(cfg.proxyGID) && p(GidOwner(Spelled(fam, gid)))))
  }

  /**
   Whether an outgoing packet passes a test when it leaves the mangle table. In TPROXY mode a packet gets its
   connection's mark back, so that it is routed to the proxy; otherwise what the proxy sends to a workload is
   marked 1338. What is marked on lo already stays as it is.
   */
  predicate LeavesWith(cfg: Config, fam: Family, p: Packet, m: Match) {
    if !m.Mark? || cfg.inboundInterceptionMode != "TPROXY" || !p(Protocol("tcp")) || OutThroughExcluded(cfg, p) then p(m)
    else if p(OutInterface("lo")) && p(Mark(cfg.inboundTProxyMark)) then p(m)
    else if p(ConnMark(cfg.inboundTProxyMark)) then p(ConnMark(m.value))
    else if ToWorkload(cfg, fam, p) then m.value == "1338"
    else p(m)
  }

  // ---------------------------------------------------------------- conntrack zones

  /** The zone of an outgoing packet: 1 for the proxy's own requests, 2 for its answers and the requests it answers. */
  function ZoneOut(cfg: Config, fam: Family, p: Packet): Option<string> {
    if !cfg.redirectDNS || !p(Protocol("udp")) then None
    else if FromProxy(cfg, p) && p(DestPort("53")) then Some("1")
    else if FromProxy(cfg, p) && p(SourcePort("15053")) then Some("2")
    else if AgentAnswers(cfg, fam, p) then Some("2")
    else None
  }

  /** The zone of an arriving packet: 1 from port 53, and to a server when not all DNS is captured. */
  function ZoneIn(cfg: Config, fam: Family, p: Packet): Option<string> {
    if cfg.redirectDNS && p(Protocol("udp")) && p(SourcePort("53")) && (cfg.captureAllDNS || ToServer(cfg, fam, p)) then Some("1")
    else None
  }
}
