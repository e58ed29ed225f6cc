/** The conntrack zones that the raw table puts packets in. */
module Zones {
  import opened Optional
  import opened Sequences
  import opened Netfilter
  import opened Commands
  import opened Builder
  import opened CallScripts
  import opened Capture
  import opened RunFacts
  import opened NeverFails
  import opened Tracing
  import opened Contents
  import opened Outbound
  import opened Traffic
  import opened CaptureTheorems

  // ---------------------------------------------------------------- which zone a packet is put in

  /** The zone the rules give a packet: the first CT rule it comes to counts, and later ones are ignored. */
  ghost function ZoneGiven(fw: Firewall, table: string, rules: seq<Rule>, p: Packet, depth: nat): Option<string>
    decreases depth, |rules|
  {
    if rules == [] then
      None
    else if !Matches(rules[0].conds, p) then
      ZoneGiven(fw, table, rules[1..], p, depth)
    else
      var t := rules[0].target;
      if t.Zone? then
        Some(t.zone)
      else if Final(t) then
        None
      else if !t.Jump? then
        ZoneGiven(fw, table, rules[1..], Effect(t, p), depth)
      else if depth == 0 || ChainId(table, t.chain) !in fw then
        ZoneGiven(fw, table, rules[1..], p, depth)
      else
        var zone := ZoneGiven(fw, table, fw[ChainId(table, t.chain)], p, depth - 1);
        var sub := Eval(fw, table, fw[ChainId(table, t.chain)], p, depth - 1);
        if zone.Some? || sub.Decided? then zone else ZoneGiven(fw, table, rules[1..], sub.packet, depth)
  }

  ghost function ZoneAt(fw: Firewall, id: ChainId, p: Packet, depth: nat): Option<string>
    requires id in fw
  {
    ZoneGiven(fw, id.table, fw[id], p, depth)
  }

  lemma {:induction false} ZoneConcat(fw: Firewall, table: string, a: seq<Rule>, b: seq<Rule>, p: Packet, depth: nat)
    ensures ZoneGiven(fw, table, a + b, p, depth) ==
            var zone, o := ZoneGiven(fw, table, a, p, depth), Eval(fw, table, a, p, depth);
            if zone.Some? || !o.Ended? then zone else ZoneGiven(fw, table, b, o.packet, depth)
    decreases depth, |a|
  {
    if a == [] {
      assert a + b == b;
    } else {
      assert (a + b)[1..] == a[1..] + b;
      var t := a[0].target;
      if !Matches(a[0].conds, p) {
        ZoneConcat(fw, table, a[1..], b, p, depth);
      } else if t.Jump? {
        if depth == 0 || ChainId(table, t.chain) !in fw {
          ZoneConcat(fw, table, a[1..], b, p, depth);
        } else {
          var sub := Eval(fw, table, fw[ChainId(table, t.chain)], p, depth - 1);
          if !sub.Decided? {
            ZoneConcat(fw, table, a[1..], b, sub.packet, depth);
          }
        }
      } else if !Final(t) && !t.Zone? {
        ZoneConcat(fw, table, a[1..], b, Effect(t, p), depth);
      }
    }
  }

  /** A logging rule does not change the zone. */
  lemma ZoneLogged(fw: Firewall, table: string, rules: seq<Rule>, p: Packet, depth: nat)
    requires rules != [] && rules[0].target.NfLog?
    ensures ZoneGiven(fw, table, rules, p, depth) == ZoneGiven(fw, table, rules[1..], p, depth)
    ensures Erase(rules) == Erase(rules[1..])
  {
  }

  lemma {:induction false} ZoneErased(fw: Firewall, table: string, rules: seq<Rule>, p: Packet, depth: nat)
    ensures ZoneGiven(fw, table, rules, p, depth) == ZoneGiven(Erased(fw), table, Erase(rules), p, depth)
    decreases depth, |rules|
  {
    if rules != [] {
      var t, rest := rules[0].target, rules[1..];
      if t.NfLog? {
        ZoneLogged(fw, table, rules, p, depth);
        ZoneErased(fw, table, rest, p, depth);
      } else {
        assert Erase(rules)[0] == rules[0] && Erase(rules)[1..] == Erase(rest);
        if !Matches(rules[0].conds, p) {
          ZoneErased(fw, table, rest, p, depth);
        } else if t.Jump? {
          if depth == 0 || ChainId(table, t.chain) !in fw {
            ZoneErased(fw, table, rest, p, depth);
          } else {
            var rules' := fw[ChainId(table, t.chain)];
            ZoneErased(fw, table, rules', p, depth - 1);
            EvalErased(fw, table, rules', p, depth - 1);
            var sub := Eval(fw, table, rules', p, depth - 1);
            if !sub.Decided? {
              ZoneErased(fw, table, rest, sub.packet, depth);
            }
          }
        } else if !Final(t) && !t.Zone? {
          ZoneErased(fw, table, rest, Effect(t, p), depth);
        }
      }
    }
  }

  /** Rules that only lead to unchanged chains give the zones they gave. */
  lemma {:induction false} ZoneUnchanged(fw: Firewall, fw': Firewall, table: string, rules: seq<Rule>, p: Packet, depth: nat)
    requires Closed(fw) && forall r :: r in rules ==> TargetExists(fw, table, r.target)
    requires forall id :: id in fw && id.chain !in BUILT_IN_CHAINS ==> id in fw' && fw'[id] == fw[id]
    ensures ZoneGiven(fw', table, rules, p, depth) == ZoneGiven(fw, table, rules, p, depth)
    decreases depth, |rules|
  {
    if rules != [] {
      var t, rest := rules[0].target, rules[1..];
      assert rules[0] in rules;
      if !Matches(rules[0].conds, p) {
        ZoneUnchanged(fw, fw', table, rest, p, depth);
      } else if t.Jump? {
        if depth == 0 {
          ZoneUnchanged(fw, fw', table, rest, p, depth);
        } else {
          var rules' := fw[ChainId(table, t.chain)];
          ZoneUnchanged(fw, fw', table, rules', p, depth - 1);
          EvalUnchanged(fw, fw', table, rules', p, depth - 1);
          var sub := Eval(fw, table, rules', p, depth - 1);
          if !sub.Decided? {
            ZoneUnchanged(fw, fw', table, rest, sub.packet, depth);
          }
        }
      } else if !Final(t) && !t.Zone? {
        ZoneUnchanged(fw, fw', table, rest, Effect(t, p), depth);
      }
    }
  }

  // ---------------------------------------------------------------- the installed chains

  const RAW_OUT := ChainId(RAW, OUTPUT)
  const RAW_IN := ChainId(RAW, PREROUTING)

  /** The rules the DNS helper appends to a chain of one family. */
  function ForChain(fam: Family, id: ChainId): Applied -> seq<Rule> {
    (a: Applied) => if a.fam == fam && ChainId(a.table, a.chain) == id then [a.rule] else []
  }

  lemma TouchesRaw(phase: Phase)
    ensures RAW_OUT in Touched(phase) <==> phase == UdpDns
    ensures RAW_IN in Touched(phase) <==> phase == UdpDns
  {
  }

  lemma DnsOnly<B>(f: Phase -> seq<B>)
    requires forall phase :: phase != UdpDns ==> f(phase) == []
    ensures FlatMap(Phases(), f) == f(UdpDns)
  {
    AllPhases(f);
  }

  lemma AppliedOne(fam: Family, id: ChainId, a: Applied)
    ensures ForChain(fam, id)(a) == FlatMap(AppendOne(fam)(a), OnChain(id))
  {
    if a.fam == fam {
      FlatMapOne(OnChain(id), AppendCall(UNDEFINED_COMMAND, a.chain, a.table, a.rule));
    }
  }

  lemma AppliedOn(fam: Family, id: ChainId, applied: seq<Applied>)
    ensures FlatMap(FlatMap(applied, AppendOne(fam)), OnChain(id)) == FlatMap(applied, ForChain(fam, id))
  {
    forall a ensures ForChain(fam, id)(a) == FlatMap(AppendOne(fam)(a), OnChain(id)) {
      AppliedOne(fam, id, a);
    }
    FlatMapTwice(applied, AppendOne(fam), OnChain(id), ForChain(fam, id));
  }

  /** All that the DNS helper is applied for. */
  function AllApplied(s: Setup): seq<Applied> {
    if s.cfg.redirectDNS then DnsUdp(s.cfg.Uids(), s.cfg.Gids(), s.hosts4, s.hosts6, s.cfg.captureAllDNS, s.cfg.Filter()) else []
  }

  lemma RawContent(s: Setup, fam: Family, id: ChainId)
    requires id in {RAW_OUT, RAW_IN}
    ensures Content(s, fam, id) == FlatMap(AllApplied(s), ForChain(fam, id))
  {
    var f := PhaseContent(s, fam, id);
    forall phase | phase != UdpDns ensures f(phase) == [] {
      TouchesRaw(phase);
      UntouchedEmpty(s, fam, id, phase);
    }
    DnsOnly(f);
    DnsPhase(s, fam);
    PhaseContentOf(s, fam, id, UdpDns, DnsUdpCalls(s.cfg, fam, s.hosts4, s.hosts6));
    AppliedOn(fam, id, AllApplied(s));
  }

  lemma RawOnlyAppended(id: ChainId)
    requires id in {RAW_OUT, RAW_IN}
    ensures OnlyAppended(id)
  {
  }

  lemma RawInstalled(fw: Firewall, s: Setup, fam: Family, fw': Firewall, id: ChainId)
    requires Host(fw) && Enabled(s, fam) && !s.cfg.traceLogging && Installed(fw, s, fam, fw') && id in {RAW_OUT, RAW_IN}
    ensures id in fw && id in fw' && fw'[id] == fw[id] + FlatMap(AllApplied(s), ForChain(fam, id))
  {
    InstalledChains(fw, s, fam, fw');
    RawOnlyAppended(id);
    forall c | c in RunCalls(s, fam) && CallId(c) == id ensures c.AppendCall? {
      InsertedChains(s, fam, c);
    }
    AppendedChain(fw, s, fam, fw', id);
    RawContent(s, fam, id);
  }

  // ---------------------------------------------------------------- which of the rules are where

  lemma NatApplied(s: Setup, a: Applied)
    requires a in FlatMap(s.cfg.Uids(), DnsUidReturn()) + FlatMap(s.cfg.Gids(), DnsGidReturn()) + DnsGroupReturns(s.cfg.Filter()) +
                  DnsRedirects(s.hosts4, s.hosts6, s.cfg.captureAllDNS)
    ensures a.table == NAT
  {
    if a in FlatMap(s.cfg.Uids(), DnsUidReturn()) {
      FlatMapMember(s.cfg.Uids(), DnsUidReturn(), a);
    } else if a in FlatMap(s.cfg.Gids(), DnsGidReturn()) {
      FlatMapMember(s.cfg.Gids(), DnsGidReturn(), a);
    } else if a in DnsGroupReturns(s.cfg.Filter()) {
      if s.cfg.Filter().except {
        FlatMapMember(s.cfg.Filter().values, DnsGidReturn(), a);
      }
    } else if !s.cfg.captureAllDNS {
      if a in FlatMap(s.hosts4, DnsServerRedirect(V4)) {
        FlatMapMember(s.hosts4, DnsServerRedirect(V4), a);
      } else {
        FlatMapMember(s.hosts6, DnsServerRedirect(V6), a);
      }
    }
  }

  lemma RawNotNat()
    ensures RAW != NAT
  {
  }

  /** Of what the DNS helper is applied for only the zones are in the raw table. */
  lemma ZonesOnly(s: Setup, fam: Family, id: ChainId)
    requires s.cfg.redirectDNS && id.table == RAW
    ensures FlatMap(AllApplied(s), ForChain(fam, id)) ==
            FlatMap(ConntrackZones(s.cfg.Uids(), s.cfg.Gids(), s.hosts4, s.hosts6, s.cfg.captureAllDNS), ForChain(fam, id))
  {
    var nat_ := FlatMap(s.cfg.Uids(), DnsUidReturn()) + FlatMap(s.cfg.Gids(), DnsGidReturn()) + DnsGroupReturns(s.cfg.Filter()) +
                DnsRedirects(s.hosts4, s.hosts6, s.cfg.captureAllDNS);
    var zones := ConntrackZones(s.cfg.Uids(), s.cfg.Gids(), s.hosts4, s.hosts6, s.cfg.captureAllDNS);
    RawNotNat();
    forall a | a in nat_ ensures ForChain(fam, id)(a) == [] {
      NatApplied(s, a);
    }
    FlatMapNothing(nat_, ForChain(fam, id));
    FlatMapConcat(nat_, zones, ForChain(fam, id));
  }

  lemma BothOn(fam: Family, id: ChainId, chain: string, r: Rule)
    ensures FlatMap(Both(chain, RAW, r), ForChain(fam, id)) == if id == ChainId(RAW, chain) then [r] else []
  {
    FlatMapTwo(ForChain(fam, id), Applied(V4, chain, RAW, r), Applied(V6, chain, RAW, r));
  }

  // ---------------------------------------------------------------- rules that give zones

  /** One rule that gives a zone. */
  lemma ZoneOne(fw: Firewall, r: Rule, p: Packet, depth: nat)
    requires r.target.Zone?
    ensures ZoneGiven(fw, RAW, [r], p, depth) == if Matches(r.conds, p) then Some(r.target.zone) else None
    ensures Eval(fw, RAW, [r], p, depth) == Ended(p)
  {
    assert [r][1..] == [];
  }

  lemma UdpMatch(port: Match, conds: seq<Cond>, t: Target, p: Packet)
    ensures Matches(UdpRule(port, conds, t).conds, p) <==> p(Protocol("udp")) && p(port) && Matches(conds, p)
  {
    var all := UdpRule(port, conds, t).conds;
    assert all == [Is(Protocol("udp")), Is(port)] + conds;
    assert all[0] in all && all[1] in all && forall c :: c in conds ==> c in all;
    assert forall c :: c in all ==> c == all[0] || c == all[1] || c in conds;
  }

  lemma OneTest(test: Match, p: Packet)
    ensures Matches([Is(test)], p) <==> p(test)
  {
    assert [Is(test)][0] in [Is(test)];
  }

  /** The two rules of an owner. */
  function OwnerZones(owner: Match): seq<Rule> {
    [UdpTo("53", [Is(owner)], Zone("1")), UdpFrom("15053", [Is(owner)], Zone("2"))]
  }

  /** The zone of what an owner sends: its DNS requests, and its answers to those it is sent. */
  function OwnerZone(owned: bool, p: Packet): Option<string> {
    if !owned || !p(Protocol("udp")) then None
    else if p(DestPort("53")) then Some("1")
    else if p(SourcePort("15053")) then Some("2")
    else None
  }

  lemma OwnerZonesOutcome(fw: Firewall, owner: Match, p: Packet, depth: nat)
    ensures ZoneGiven(fw, RAW, OwnerZones(owner), p, depth) == OwnerZone(p(owner), p)
    ensures Eval(fw, RAW, OwnerZones(owner), p, depth) == Ended(p)
  {
    var a, b := UdpTo("53", [Is(owner)], Zone("1")), UdpFrom("15053", [Is(owner)], Zone("2"));
    OneTest(owner, p);
    UdpMatch(DestPort("53"), [Is(owner)], Zone("1"), p);
    UdpMatch(SourcePort("15053"), [Is(owner)], Zone("2"), p);
    ZoneOne(fw, a, p, depth);
    ZoneOne(fw, b, p, depth);
    EvalConcat(fw, RAW, [a], [b], p, depth);
    ZoneConcat(fw, RAW, [a], [b], p, depth);
    assert [a] + [b] == OwnerZones(owner);
  }

  lemma OwnerZonesOn(fam: Family, owner: Match)
    ensures FlatMap(ZoneOfOwner(owner), ForChain(fam, RAW_OUT)) == OwnerZones(owner)
    ensures FlatMap(ZoneOfOwner(owner), ForChain(fam, RAW_IN)) == []
  {
    var a, b := Both(OUTPUT, RAW, UdpTo("53", [Is(owner)], Zone("1"))), Both(OUTPUT, RAW, UdpFrom(DNS_PORT, [Is(owner)], Zone("2")));
    BothOn(fam, RAW_OUT, OUTPUT, UdpTo("53", [Is(owner)], Zone("1")));
    BothOn(fam, RAW_OUT, OUTPUT, UdpFrom(DNS_PORT, [Is(owner)], Zone("2")));
    BothOn(fam, RAW_IN, OUTPUT, UdpTo("53", [Is(owner)], Zone("1")));
    BothOn(fam, RAW_IN, OUTPUT, UdpFrom(DNS_PORT, [Is(owner)], Zone("2")));
    BuiltInNames();
    FlatMapConcat(a, b, ForChain(fam, RAW_OUT));
    FlatMapConcat(a, b, ForChain(fam, RAW_IN));
  }

  function ZonesNamed(uid: bool): string -> seq<Applied> {
    if uid then ZoneOfUid() else ZoneOfGid()
  }

  function OwnerTest(uid: bool, name: string): Match {
    if uid then UidOwner(name) else GidOwner(name)
  }

  lemma NamedOn(fam: Family, uid: bool, name: string)
    ensures FlatMap(ZonesNamed(uid)(name), ForChain(fam, RAW_OUT)) == OwnerZones(OwnerTest(uid, name))
    ensures FlatMap(ZonesNamed(uid)(name), ForChain(fam, RAW_IN)) == []
  {
    OwnerZonesOn(fam, OwnerTest(uid, name));
  }

  /** Rules for each of some names, each of which gives the same zone or none. */
  lemma {:induction false} EachZone(fw: Firewall, names: seq<string>, rules: string -> seq<Rule>, holds: string -> bool, zone: Option<string>,
                                    p: Packet, depth: nat)
    requires forall n :: ZoneGiven(fw, RAW, rules(n), p, depth) == (if holds(n) then zone else None) && Eval(fw, RAW, rules(n), p, depth) == Ended(p)
    ensures ZoneGiven(fw, RAW, FlatMap(names, rules), p, depth) == if exists n :: n in names && holds(n) then zone else None
    ensures Eval(fw, RAW, FlatMap(names, rules), p, depth) == Ended(p)
  {
    if names != [] {
      var front, last := names[..|names| - 1], names[|names| - 1];
      EachZone(fw, front, rules, holds, zone, p, depth);
      ZoneConcat(fw, RAW, FlatMap(front, rules), rules(last), p, depth);
      EvalConcat(fw, RAW, FlatMap(front, rules), rules(last), p, depth);
      assert last in names && forall n :: n in names <==> n in front || n == last;
    }
  }

  function ZonesOfName(uid: bool): string -> seq<Rule> {
    (n: string) => OwnerZones(OwnerTest(uid, n))
  }

  lemma NamedRules(fam: Family, names: seq<string>, uid: bool)
    ensures FlatMap(FlatMap(names, ZonesNamed(uid)), ForChain(fam, RAW_OUT)) == FlatMap(names, ZonesOfName(uid))
  {
    forall n ensures ZonesOfName(uid)(n) == FlatMap(ZonesNamed(uid)(n), ForChain(fam, RAW_OUT)) {
      NamedOn(fam, uid, n);
    }
    FlatMapTwice(names, ZonesNamed(uid), ForChain(fam, RAW_OUT), ZonesOfName(uid));
  }

  predicate AnyOwner(names: seq<string>, uid: bool, p: Packet) {
    exists n :: n in names && p(OwnerTest(uid, n))
  }

  /** The zones of the users or of the groups. */
  lemma NamedZones(fw: Firewall, fam: Family, names: seq<string>, uid: bool, p: Packet, depth: nat)
    ensures var rules := FlatMap(FlatMap(names, ZonesNamed(uid)), ForChain(fam, RAW_OUT));
            && ZoneGiven(fw, RAW, rules, p, depth) == OwnerZone(AnyOwner(names, uid, p), p)
            && Eval(fw, RAW, rules, p, depth) == Ended(p)
  {
    var holds := (n: string) => p(OwnerTest(uid, n));
    NamedRules(fam, names, uid);
    forall n ensures ZoneGiven(fw, RAW, ZonesOfName(uid)(n), p, depth) == (if holds(n) then OwnerZone(true, p) else None)
                  && Eval(fw, RAW, ZonesOfName(uid)(n), p, depth) == Ended(p) {
      OwnerZonesOutcome(fw, OwnerTest(uid, n), p, depth);
    }
    EachZone(fw, names, ZonesOfName(uid), holds, OwnerZone(true, p), p, depth);
  }

  lemma {:induction false} NamedNotArriving(fam: Family, names: seq<string>, uid: bool)
    ensures FlatMap(FlatMap(names, ZonesNamed(uid)), ForChain(fam, RAW_IN)) == []
  {
    if names != [] {
      var front, last := names[..|names| - 1], names[|names| - 1];
      NamedNotArriving(fam, front, uid);
      NamedOn(fam, uid, last);
      FlatMapConcat(FlatMap(front, ZonesNamed(uid)), ZonesNamed(uid)(last), ForChain(fam, RAW_IN));
    }
  }

  // The zones of servers.

  /** The rule of one server in a chain: requests to it when leaving, and from port 53 to it when arriving. */
  function ServerZone(id: ChainId, conds: seq<Cond>): Rule {
    if id == RAW_OUT then UdpTo("53", conds, Zone("2")) else UdpFrom("53", conds, Zone("1"))
  }

  function ServerPort(id: ChainId): Match {
    if id == RAW_OUT then DestPort("53") else SourcePort("53")
  }

  function ServerZoneName(id: ChainId): string {
    if id == RAW_OUT then "2" else "1"
  }

  lemma ServerZoneOutcome(fw: Firewall, id: ChainId, conds: seq<Cond>, p: Packet, depth: nat)
    ensures ZoneGiven(fw, RAW, [ServerZone(id, conds)], p, depth) ==
            if p(Protocol("udp")) && p(ServerPort(id)) && Matches(conds, p) then Some(ServerZoneName(id)) else None
    ensures Eval(fw, RAW, [ServerZone(id, conds)], p, depth) == Ended(p)
  {
    UdpMatch(ServerPort(id), conds, ServerZone(id, conds).target, p);
    ZoneOne(fw, ServerZone(id, conds), p, depth);
  }

  lemma ServerOn(fam: Family, of: Family, id: ChainId, host: string)
    requires id in {RAW_OUT, RAW_IN}
    ensures FlatMap(ZoneOfServer(of)(host), ForChain(fam, id)) == if of == fam then [ServerZone(id, [Is(Destination(host))])] else []
  {
    BuiltInNames();
    FlatMapTwo(ForChain(fam, id), ZoneOfServer(of)(host)[0], ZoneOfServer(of)(host)[1]);
  }

  /** The zone of what goes to a server, or comes from port 53 to one. */
  function ServedZone(id: ChainId, served: bool, p: Packet): Option<string> {
    if p(Protocol("udp")) && p(ServerPort(id)) && served then Some(ServerZoneName(id)) else None
  }

  function ZonesOfHost(id: ChainId, here: bool): string -> seq<Rule> {
    (h: string) => if here then [ServerZone(id, [Is(Destination(h))])] else []
  }

  lemma ServersRules(fam: Family, of: Family, id: ChainId, hosts: seq<string>)
    requires id in {RAW_OUT, RAW_IN}
    ensures FlatMap(FlatMap(hosts, ZoneOfServer(of)), ForChain(fam, id)) == FlatMap(hosts, ZonesOfHost(id, of == fam))
  {
    forall h ensures ZonesOfHost(id, of == fam)(h) == FlatMap(ZoneOfServer(of)(h), ForChain(fam, id)) {
      ServerOn(fam, of, id, h);
    }
    FlatMapTwice(hosts, ZoneOfServer(of), ForChain(fam, id), ZonesOfHost(id, of == fam));
  }

  lemma HostOutcome(fw: Firewall, id: ChainId, here: bool, host: string, p: Packet, depth: nat)
    ensures ZoneGiven(fw, RAW, ZonesOfHost(id, here)(host), p, depth) == ServedZone(id, here && p(Destination(host)), p)
    ensures Eval(fw, RAW, ZonesOfHost(id, here)(host), p, depth) == Ended(p)
  {
    OneTest(Destination(host), p);
    ServerZoneOutcome(fw, id, [Is(Destination(host))], p, depth);
  }

  lemma ServersZones(fw: Firewall, fam: Family, of: Family, id: ChainId, hosts: seq<string>, p: Packet, depth: nat)
    requires id in {RAW_OUT, RAW_IN}
    ensures var rules := FlatMap(FlatMap(hosts, ZoneOfServer(of)), ForChain(fam, id));
            && ZoneGiven(fw, RAW, rules, p, depth) == ServedZone(id, of == fam && ToAny(hosts, p), p)
            && Eval(fw, RAW, rules, p, depth) == Ended(p)
  {
    var here := of == fam;
    var holds := (h: string) => here && p(Destination(h));
    ServersRules(fam, of, id, hosts);
    forall h ensures ZoneGiven(fw, RAW, ZonesOfHost(id, here)(h), p, depth) == (if holds(h) then ServedZone(id, true, p) else None)
                  && Eval(fw, RAW, ZonesOfHost(id, here)(h), p, depth) == Ended(p) {
      HostOutcome(fw, id, here, h, p, depth);
    }
    EachZone(fw, hosts, ZonesOfHost(id, here), holds, ServedZone(id, true, p), p, depth);
  }

  predicate Answered(s: Setup, fam: Family, p: Packet) {
    s.cfg.captureAllDNS || ToAny(s.Hosts(fam), p)
  }

  lemma AllServersOn(fam: Family, id: ChainId)
    requires id in {RAW_OUT, RAW_IN}
    ensures FlatMap(ZonesOfServers([], [], true), ForChain(fam, id)) == [ServerZone(id, [])]
  {
    var a, b := UdpTo("53", [], Zone("2")), UdpFrom("53", [], Zone("1"));
    BothOn(fam, id, OUTPUT, a);
    BothOn(fam, id, PREROUTING, b);
    BuiltInNames();
    FlatMapConcat(Both(OUTPUT, RAW, a), Both(PREROUTING, RAW, b), ForChain(fam, id));
    assert [a] + [] == [a] && [] + [b] == [b];
  }

  lemma AllServers(fw: Firewall, fam: Family, id: ChainId, p: Packet, depth: nat)
    requires id in {RAW_OUT, RAW_IN}
    ensures var rules := FlatMap(ZonesOfServers([], [], true), ForChain(fam, id));
            ZoneGiven(fw, RAW, rules, p, depth) == ServedZone(id, true, p) && Eval(fw, RAW, rules, p, depth) == Ended(p)
  {
    AllServersOn(fam, id);
    ServerZoneOutcome(fw, id, [], p, depth);
  }

  lemma ListedServers(fw: Firewall, s: Setup, fam: Family, id: ChainId, p: Packet, depth: nat)
    requires id in {RAW_OUT, RAW_IN}
    ensures var rules := FlatMap(ZonesOfServers(s.hosts4, s.hosts6, false), ForChain(fam, id));
            ZoneGiven(fw, RAW, rules, p, depth) == ServedZone(id, ToAny(s.Hosts(fam), p), p) && Eval(fw, RAW, rules, p, depth) == Ended(p)
  {
    var a, b := FlatMap(s.hosts4, ZoneOfServer(V4)), FlatMap(s.hosts6, ZoneOfServer(V6));
    ServersZones(fw, fam, V4, id, s.hosts4, p, depth);
    ServersZones(fw, fam, V6, id, s.hosts6, p, depth);
    FlatMapConcat(a, b, ForChain(fam, id));
    ZoneConcat(fw, RAW, FlatMap(a, ForChain(fam, id)), FlatMap(b, ForChain(fam, id)), p, depth);
    EvalConcat(fw, RAW, FlatMap(a, ForChain(fam, id)), FlatMap(b, ForChain(fam, id)), p, depth);
  }

  lemma ServersOutcomeOn(fw: Firewall, s: Setup, fam: Family, id: ChainId, p: Packet, depth: nat)
    requires id in {RAW_OUT, RAW_IN}
    ensures var rules := FlatMap(ZonesOfServers(s.hosts4, s.hosts6, s.cfg.captureAllDNS), ForChain(fam, id));
            ZoneGiven(fw, RAW, rules, p, depth) == ServedZone(id, Answered(s, fam, p), p) && Eval(fw, RAW, rules, p, depth) == Ended(p)
  {
    if s.cfg.captureAllDNS {
      AllServers(fw, fam, id, p, depth);
      assert ZonesOfServers(s.hosts4, s.hosts6, true) == ZonesOfServers([], [], true);
    } else {
      ListedServers(fw, s, fam, id, p, depth);
    }
  }

  // ---------------------------------------------------------------- the theorem

  /** The zone of a packet in one of the two chains. */
  function ZoneWanted(s: Setup, fam: Family, id: ChainId, p: Packet): Option<string> {
    if !s.cfg.redirectDNS || !p(Protocol("udp")) then None
    else if id == RAW_OUT && OwnerZone(Owned(s.cfg, p), p).Some? then OwnerZone(Owned(s.cfg, p), p)
    else ServedZone(id, Answered(s, fam, p), p)
  }

  lemma ZonesSplit(s: Setup, fam: Family, id: ChainId)
    ensures FlatMap(ConntrackZones(s.cfg.Uids(), s.cfg.Gids(), s.hosts4, s.hosts6, s.cfg.captureAllDNS), ForChain(fam, id)) ==
            FlatMap(FlatMap(s.cfg.Uids(), ZonesNamed(true)), ForChain(fam, id)) +
            FlatMap(FlatMap(s.cfg.Gids(), ZonesNamed(false)), ForChain(fam, id)) +
            FlatMap(ZonesOfServers(s.hosts4, s.hosts6, s.cfg.captureAllDNS), ForChain(fam, id))
  {
    var a, b := FlatMap(s.cfg.Uids(), ZonesNamed(true)), FlatMap(s.cfg.Gids(), ZonesNamed(false));
    var c := ZonesOfServers(s.hosts4, s.hosts6, s.cfg.captureAllDNS);
    FlatMapConcat(a, b, ForChain(fam, id));
    FlatMapConcat(a + b, c, ForChain(fam, id));
  }

  lemma ZonesThen(fw: Firewall, a: seq<Rule>, b: seq<Rule>, c: seq<Rule>, p: Packet, depth: nat)
    requires Eval(fw, RAW, a, p, depth) == Ended(p) && Eval(fw, RAW, b, p, depth) == Ended(p)
    ensures ZoneGiven(fw, RAW, a + b + c, p, depth) ==
            var x, y := ZoneGiven(fw, RAW, a, p, depth), ZoneGiven(fw, RAW, b, p, depth);
            if x.Some? then x else if y.Some? then y else ZoneGiven(fw, RAW, c, p, depth)
  {
    ZoneConcat(fw, RAW, a, b, p, depth);
    ZoneConcat(fw, RAW, a + b, c, p, depth);
    EvalConcat(fw, RAW, a, b, p, depth);
  }

  lemma OwnersEither(cfg: Config, p: Packet)
    ensures Owned(cfg, p) <==> AnyOwner(cfg.Uids(), true, p) || AnyOwner(cfg.Gids(), false, p)
  {
  }

  lemma LeavingZone(fw: Firewall, s: Setup, fam: Family, p: Packet, depth: nat)
    requires s.cfg.redirectDNS
    ensures ZoneGiven(fw, RAW, FlatMap(AllApplied(s), ForChain(fam, RAW_OUT)), p, depth) == ZoneWanted(s, fam, RAW_OUT, p)
  {
    ZonesOnly(s, fam, RAW_OUT);
    ZonesSplit(s, fam, RAW_OUT);
    NamedZones(fw, fam, s.cfg.Uids(), true, p, depth);
    NamedZones(fw, fam, s.cfg.Gids(), false, p, depth);
    ServersOutcomeOn(fw, s, fam, RAW_OUT, p, depth);
    ZonesThen(fw, FlatMap(FlatMap(s.cfg.Uids(), ZonesNamed(true)), ForChain(fam, RAW_OUT)),
              FlatMap(FlatMap(s.cfg.Gids(), ZonesNamed(false)), ForChain(fam, RAW_OUT)),
              FlatMap(ZonesOfServers(s.hosts4, s.hosts6, s.cfg.captureAllDNS), ForChain(fam, RAW_OUT)), p, depth);
    OwnersEither(s.cfg, p);
  }

  lemma ArrivingZone(fw: Firewall, s: Setup, fam: Family, p: Packet, depth: nat)
    requires s.cfg.redirectDNS
    ensures ZoneGiven(fw, RAW, FlatMap(AllApplied(s), ForChain(fam, RAW_IN)), p, depth) == ZoneWanted(s, fam, RAW_IN, p)
  {
    ZonesOnly(s, fam, RAW_IN);
    ZonesSplit(s, fam, RAW_IN);
    NamedNotArriving(fam, s.cfg.Uids(), true);
    NamedNotArriving(fam, s.cfg.Gids(), false);
    ServersOutcomeOn(fw, s, fam, RAW_IN, p, depth);
    var rules := FlatMap(ZonesOfServers(s.hosts4, s.hosts6, s.cfg.captureAllDNS), ForChain(fam, RAW_IN));
    assert [] + [] + rules == rules;
    InNotOut();
  }

  lemma InNotOut()
    ensures RAW_IN != RAW_OUT
  {
  }

  lemma AppliedZone(fw: Firewall, s: Setup, fam: Family, id: ChainId, p: Packet, depth: nat)
    requires id in {RAW_OUT, RAW_IN}
    ensures ZoneGiven(fw, RAW, FlatMap(AllApplied(s), ForChain(fam, id)), p, depth) == ZoneWanted(s, fam, id, p)
  {
    if s.cfg.redirectDNS {
      LeavingZone(fw, s, fam, p, depth);
      ArrivingZone(fw, s, fam, p, depth);
    }
  }

  /** The host's own rules of a chain let the packet pass and put it in no zone. */
  ghost predicate ZonelessHost(fw: Firewall, id: ChainId, p: Packet, depth: nat)
    requires id in fw
  {
    PassesHost(fw, id, p, depth) && ZoneAt(fw, id, p, depth) == None
  }

  lemma HostStillZoneless(fw: Firewall, s: Setup, fam: Family, fw': Firewall, id: ChainId, p: Packet, depth: nat)
    requires Host(fw) && Closed(fw) && Enabled(s, fam) && Installed(fw, s, fam, fw')
    requires id in fw && ZonelessHost(fw, id, p, depth)
    ensures ZoneGiven(fw', id.table, fw[id], p, depth) == None
  {
    forall other | other in fw && other.chain !in BUILT_IN_CHAINS ensures other in fw' && fw'[other] == fw[other] {
      NotIstio(other);
      UntouchedChain(fw, s, fam, fw', other);
    }
    ZoneUnchanged(fw, fw', id.table, fw[id], p, depth);
  }

  lemma PlainZones(fw: Firewall, s: Setup, fam: Family, fw': Firewall, id: ChainId, p: Packet, depth: nat)
    requires Host(fw) && Closed(fw) && Enabled(s, fam) && !s.cfg.traceLogging && Installed(fw, s, fam, fw')
    requires id in {RAW_OUT, RAW_IN} && id in fw && ZonelessHost(fw, id, p, depth)
    ensures id in fw' && ZoneAt(fw', id, p, depth) == ZoneWanted(s, fam, id, p)
  {
    RawInstalled(fw, s, fam, fw', id);
    HostStillPasses(fw, s, fam, fw', id, p, depth);
    HostStillZoneless(fw, s, fam, fw', id, p, depth);
    ZoneConcat(fw', RAW, fw[id], FlatMap(AllApplied(s), ForChain(fam, id)), p, depth);
    AppliedZone(fw', s, fam, id, p, depth);
  }

  lemma ZonesRetraced(s: Setup, fam: Family, id: ChainId, p: Packet)
    ensures ZoneWanted(Retraced(s, false), fam, id, p) == ZoneWanted(s, fam, id, p)
  {
  }

  lemma SameZone(a: Firewall, b: Firewall, id: ChainId, p: Packet, depth: nat)
    requires Erased(a) == Erased(b) && id in a
    ensures id in b && ZoneAt(a, id, p, depth) == ZoneAt(b, id, p, depth)
  {
    assert Erased(a)[id] == Erase(a[id]) && Erased(b)[id] == Erase(b[id]);
    ZoneErased(a, id.table, a[id], p, depth);
    ZoneErased(b, id.table, b[id], p, depth);
  }

  /**
   On a host whose own rules let the packet pass and put it in no zone, the raw chains of a run put every
   packet in exactly the zone of the configuration, traced or not.
   */
  lemma ZonesExactly(fw: Firewall, s: Setup, fam: Family, fw': Firewall, id: ChainId, p: Packet, depth: nat)
    requires Host(fw) && Closed(fw) && Enabled(s, fam) && Installed(fw, s, fam, fw')
    requires id in {RAW_OUT, RAW_IN} && id in fw && ZonelessHost(fw, id, p, depth)
    ensures id in fw' && ZoneAt(fw', id, p, depth) == ZoneWanted(s, fam, id, p)
  {
    InstalledChains(fw, s, fam, fw');
    var plain := UntracedTwin(fw, s, fam, fw');
    PlainZones(fw, Retraced(s, false), fam, plain, id, p, depth);
    ZonesRetraced(s, fam, id, p);
    SameZone(fw', plain, id, p, depth);
  }
}
