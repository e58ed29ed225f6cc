/** The UDP DNS helper shared by the configurator, which appends its rules, and the cleaner, which deletes them. */
module DnsRules {
  import opened Sequences
  import opened Netfilter
  import opened Builder
  import opened Capture
  import opened RuleShapes
  import opened Executions

  // ---------------------------------------------------------------- tokens

  lemma UdpTokens(port: Match, conds: seq<Cond>, t: Target)
    requires port.DestPort? || port.SourcePort?
    ensures RuleTokens(UdpRule(port, conds, t)) == UdpPort(port) + (CondsTokens(conds) + TargetTokens(t))
  {
    var p := Is(Protocol("udp"));
    TokensPush(Is(port), conds, t);
    TokensPush(p, [Is(port)] + conds, t);
    assert [p, Is(port)] + conds == [p] + ([Is(port)] + conds);
    CatPairs("-p", "udp", OptionName(port), port.value, CondsTokens(conds) + TargetTokens(t));
  }

  function UdpPort(port: Match): seq<string> {
    ["-p", "udp", OptionName(port), port.value]
  }

  lemma UdpOwnerTokens(port: Match, uid: bool, owner: string, t: Target)
    requires port.DestPort? || port.SourcePort?
    ensures RuleTokens(UdpRule(port, [Is(Owner(uid, owner))], t)) ==
            UdpPort(port) + (["-m", "owner", OwnerFlag(uid), owner] + TargetTokens(t))
  {
    UdpTokens(port, [Is(Owner(uid, owner))], t);
    OwnerTokens(uid, owner);
    OneCondTokens(Is(Owner(uid, owner)));
  }

  lemma UdpServerTokens(port: Match, address: string, t: Target)
    requires port.DestPort? || port.SourcePort?
    ensures RuleTokens(UdpRule(port, [Is(Destination(address))], t)) == UdpPort(port) + (["-d", address] + TargetTokens(t))
  {
    UdpTokens(port, [Is(Destination(address))], t);
    OneCondTokens(Is(Destination(address)));
  }

  lemma OneCondTokens(c: Cond)
    ensures CondsTokens([c]) == CondTokens(c)
  {
    assert CondsTokens([c]) == CondTokens(c) + CondsTokens([c][1..]);
  }

  lemma UdpAnyTokens(port: Match, t: Target)
    requires port.DestPort? || port.SourcePort?
    ensures RuleTokens(UdpRule(port, [], t)) == UdpPort(port) + TargetTokens(t)
  {
    UdpTokens(port, [], t);
    assert [] + TargetTokens(t) == TargetTokens(t);
  }

  // ---------------------------------------------------------------- the helper

  class UDPRuleApplier {
    const iptables: IptablesBuilder
    const ext: Dependencies
    const deleting: bool
    const cmd: string

    /** What the builder and the dependencies held when the helper was made, and the rules applied since. */
    ghost const base4: seq<Call>
    ghost const base6: seq<Call>
    ghost const baseRun: seq<seq<string>>
    ghost var applied: seq<Applied>

    ghost predicate Valid()
      reads this, iptables, ext
    {
      && iptables.Valid()
      && iptables.calls4 == (if deleting then base4 else base4 + FlatMap(applied, AppendOne(V4)))
      && iptables.calls6 == (if deleting then base6 else base6 + FlatMap(applied, AppendOne(V6)))
      && ext.executed == (if deleting then baseRun + FlatMap(applied, DeleteLine(cmd)) else baseRun)
    }

    constructor (iptables: IptablesBuilder, ext: Dependencies, deleting: bool, cmd: string)
      requires iptables.Valid()
      ensures Valid() && applied == []
      ensures this.iptables == iptables && this.ext == ext && this.deleting == deleting && this.cmd == cmd
      ensures base4 == iptables.calls4 && base6 == iptables.calls6 && baseRun == ext.executed
    {
      this.iptables, this.ext, this.deleting, this.cmd := iptables, ext, deleting, cmd;
      base4, base6, baseRun := iptables.calls4, iptables.calls6, ext.executed;
      applied := [];
      assert iptables.calls4 + [] == iptables.calls4 && iptables.calls6 + [] == iptables.calls6;
      assert ext.executed + [] == ext.executed;
    }

    method RunOne(fam: Family, chain: string, table: string, args: seq<string>, ghost rule: Rule)
      requires Valid() && args == RuleTokens(rule)
      modifies this, iptables, ext
      ensures Valid() && applied == old(applied) + [Applied(fam, chain, table, rule)]
      ensures ext.restored == old(ext.restored)
    {
      ghost var a := Applied(fam, chain, table, rule);
      FlatMapPush(applied, AppendOne(V4), a);
      FlatMapPush(applied, AppendOne(V6), a);
      FlatMapPush(applied, DeleteLine(cmd), a);
      ghost var done4, done6, run := FlatMap(applied, AppendOne(V4)), FlatMap(applied, AppendOne(V6)), FlatMap(applied, DeleteLine(cmd));
      Assoc(base4, done4, AppendOne(V4)(a));
      Assoc(base6, done6, AppendOne(V6)(a));
      Assoc(baseRun, run, DeleteLine(cmd)(a));
      assert done4 + [] == done4 && done6 + [] == done6;
      if !deleting {
        if fam.V4? {
          iptables.AppendRuleV4(UNDEFINED_COMMAND, chain, table, args, rule);
        } else {
          iptables.AppendRuleV6(UNDEFINED_COMMAND, chain, table, args, rule);
        }
      } else {
        var deleteArgs := [cmd, "-t", table, "-D", chain];
        deleteArgs := deleteArgs + args;
        ext.RunQuietlyAndIgnore(deleteArgs);
      }
      applied := applied + [a];
    }

    /** Run: the rule for both families; in delete mode that is two attempts with the same command. */
    method Run(chain: string, table: string, args: seq<string>, ghost rule: Rule)
      requires Valid() && args == RuleTokens(rule)
      modifies this, iptables, ext
      ensures Valid() && applied == old(applied) + Both(chain, table, rule)
      ensures ext.restored == old(ext.restored)
    {
      RunOne(V4, chain, table, args, rule);
      RunOne(V6, chain, table, args, rule);
      assert old(applied) + [Applied(V4, chain, table, rule)] + [Applied(V6, chain, table, rule)] ==
        old(applied) + Both(chain, table, rule);
    }

    /** A rule on packets of one owner, for both families. */
    method RunOwner(table: string, port: Match, owner: string, uid: bool, action: seq<string>, ghost t: Target)
      requires Valid() && (port.DestPort? || port.SourcePort?) && action == TargetTokens(t)
      modifies this, iptables, ext
      ensures Valid() && applied == old(applied) + Both(OUTPUT, table, UdpRule(port, [Is(Owner(uid, owner))], t))
      ensures ext.restored == old(ext.restored)
    {
      UdpOwnerTokens(port, uid, owner, t);
      Run(OUTPUT, table, UdpPort(port) + (["-m", "owner", OwnerFlag(uid), owner] + action),
          UdpRule(port, [Is(Owner(uid, owner))], t));
    }

    /** A rule on packets to one server, for its family. */
    method RunServer(fam: Family, chain: string, table: string, port: Match, host: string, action: seq<string>, ghost t: Target)
      requires Valid() && (port.DestPort? || port.SourcePort?) && action == TargetTokens(t)
      modifies this, iptables, ext
      ensures Valid() && applied == old(applied) + [Applied(fam, chain, table, UdpRule(port, [Is(Destination(host))], t))]
      ensures ext.restored == old(ext.restored)
    {
      UdpServerTokens(port, host, t);
      RunOne(fam, chain, table, UdpPort(port) + (["-d", host] + action), UdpRule(port, [Is(Destination(host))], t));
    }

    /** A rule on all packets of a port, for both families. */
    method RunAny(chain: string, table: string, port: Match, action: seq<string>, ghost t: Target)
      requires Valid() && (port.DestPort? || port.SourcePort?) && action == TargetTokens(t)
      modifies this, iptables, ext
      ensures Valid() && applied == old(applied) + Both(chain, table, UdpRule(port, [], t))
      ensures ext.restored == old(ext.restored)
    {
      UdpAnyTokens(port, t);
      Run(chain, table, UdpPort(port) + action, UdpRule(port, [], t));
    }

    method ReturnOwners(owners: seq<string>, uid: bool)
      requires Valid()
      modifies this, iptables, ext
      ensures Valid() && applied == old(applied) + FlatMap(owners, if uid then DnsUidReturn() else DnsGidReturn())
      ensures ext.restored == old(ext.restored)
    {
      ghost var f := if uid then DnsUidReturn() else DnsGidReturn();
      for i := 0 to |owners|
        invariant Valid() && applied == old(applied) + FlatMap(owners[..i], f)
        invariant ext.restored == old(ext.restored)
      {
        FlatMapRound(old(applied), owners, f, i);
        RunOwner(NAT, DestPort("53"), owners[i], uid, ["-j", "RETURN"], Return);
      }
      FlatMapWhole(owners, f);
    }

    method ReturnGroups(filter: InterceptFilter)
      requires Valid()
      modifies this, iptables, ext
      ensures Valid() && applied == old(applied) + DnsGroupReturns(filter)
      ensures ext.restored == old(ext.restored)
    {
      if filter.except {
        ReturnOwners(filter.values, false);
      } else {
        var groupIsNoneOf := CombineGroupMatchers(filter.values);
        UdpTokens(DestPort("53"), NoneOf(filter.values), Return);
        Run(OUTPUT, NAT, UdpPort(DestPort("53")) + (groupIsNoneOf + ["-j", "RETURN"]), UdpTo("53", NoneOf(filter.values), Return));
      }
    }

    method RedirectServer(fam: Family, host: string)
      requires Valid()
      modifies this, iptables, ext
      ensures Valid() && applied == old(applied) + DnsServerRedirect(fam)(host)
      ensures ext.restored == old(ext.restored)
    {
      RunServer(fam, OUTPUT, NAT, DestPort("53"), host, ["-j", "REDIRECT", "--to-port", DNS_PORT], DnsRedirect());
    }

    method RedirectServers(fam: Family, hosts: seq<string>)
      requires Valid()
      modifies this, iptables, ext
      ensures Valid() && applied == old(applied) + FlatMap(hosts, DnsServerRedirect(fam))
      ensures ext.restored == old(ext.restored)
    {
      for i := 0 to |hosts|
        invariant Valid() && applied == old(applied) + FlatMap(hosts[..i], DnsServerRedirect(fam))
        invariant ext.restored == old(ext.restored)
      {
        FlatMapRound(old(applied), hosts, DnsServerRedirect(fam), i);
        RedirectServer(fam, hosts[i]);
      }
      FlatMapWhole(hosts, DnsServerRedirect(fam));
    }

    method RedirectDns(hosts4: seq<string>, hosts6: seq<string>, captureAllDNS: bool)
      requires Valid()
      modifies this, iptables, ext
      ensures Valid() && applied == old(applied) + DnsRedirects(hosts4, hosts6, captureAllDNS)
      ensures ext.restored == old(ext.restored)
    {
      if captureAllDNS {
        RunAny(OUTPUT, NAT, DestPort("53"), ["-j", "REDIRECT", "--to-port", DNS_PORT], DnsRedirect());
      } else {
        RedirectServers(V4, hosts4);
        RedirectServers(V6, hosts6);
        Assoc(old(applied), FlatMap(hosts4, DnsServerRedirect(V4)), FlatMap(hosts6, DnsServerRedirect(V6)));
      }
    }

    method ZoneOwners(owners: seq<string>, uid: bool)
      requires Valid()
      modifies this, iptables, ext
      ensures Valid() && applied == old(applied) + FlatMap(owners, if uid then ZoneOfUid() else ZoneOfGid())
      ensures ext.restored == old(ext.restored)
    {
      ghost var f := if uid then ZoneOfUid() else ZoneOfGid();
      for i := 0 to |owners|
        invariant Valid() && applied == old(applied) + FlatMap(owners[..i], f)
        invariant ext.restored == old(ext.restored)
      {
        FlatMapRound(old(applied), owners, f, i);
        ZoneOwner(owners[i], uid);
      }
      FlatMapWhole(owners, f);
    }

    method ZoneOwner(owner: string, uid: bool)
      requires Valid()
      modifies this, iptables, ext
      ensures Valid() && applied == old(applied) + ZoneOfOwner(Owner(uid, owner))
      ensures ext.restored == old(ext.restored)
    {
      RunOwner(RAW, DestPort("53"), owner, uid, ["-j", "CT", "--zone", "1"], Zone("1"));
      RunOwner(RAW, SourcePort(DNS_PORT), owner, uid, ["-j", "CT", "--zone", "2"], Zone("2"));
      Assoc(old(applied), Both(OUTPUT, RAW, UdpTo("53", [Is(Owner(uid, owner))], Zone("1"))),
            Both(OUTPUT, RAW, UdpFrom(DNS_PORT, [Is(Owner(uid, owner))], Zone("2"))));
    }

    method ZoneServers(fam: Family, hosts: seq<string>)
      requires Valid()
      modifies this, iptables, ext
      ensures Valid() && applied == old(applied) + FlatMap(hosts, ZoneOfServer(fam))
      ensures ext.restored == old(ext.restored)
    {
      for i := 0 to |hosts|
        invariant Valid() && applied == old(applied) + FlatMap(hosts[..i], ZoneOfServer(fam))
        invariant ext.restored == old(ext.restored)
      {
        FlatMapRound(old(applied), hosts, ZoneOfServer(fam), i);
        ZoneServer(fam, hosts[i]);
      }
      FlatMapWhole(hosts, ZoneOfServer(fam));
    }

    method ZoneServer(fam: Family, host: string)
      requires Valid()
      modifies this, iptables, ext
      ensures Valid() && applied == old(applied) + ZoneOfServer(fam)(host)
      ensures ext.restored == old(ext.restored)
    {
      RunServer(fam, OUTPUT, RAW, DestPort("53"), host, ["-j", "CT", "--zone", "2"], Zone("2"));
      RunServer(fam, PREROUTING, RAW, SourcePort("53"), host, ["-j", "CT", "--zone", "1"], Zone("1"));
      ghost var conds := [Is(Destination(host))];
      Assoc(old(applied), [Applied(fam, OUTPUT, RAW, UdpTo("53", conds, Zone("2")))],
            [Applied(fam, PREROUTING, RAW, UdpFrom("53", conds, Zone("1")))]);
    }

    method ZoneDns(hosts4: seq<string>, hosts6: seq<string>, captureAllDNS: bool)
      requires Valid()
      modifies this, iptables, ext
      ensures Valid() && applied == old(applied) + ZonesOfServers(hosts4, hosts6, captureAllDNS)
      ensures ext.restored == old(ext.restored)
    {
      if captureAllDNS {
        RunAny(OUTPUT, RAW, DestPort("53"), ["-j", "CT", "--zone", "2"], Zone("2"));
        RunAny(PREROUTING, RAW, SourcePort("53"), ["-j", "CT", "--zone", "1"], Zone("1"));
        Assoc(old(applied), Both(OUTPUT, RAW, UdpTo("53", [], Zone("2"))), Both(PREROUTING, RAW, UdpFrom("53", [], Zone("1"))));
      } else {
        ZoneServers(V4, hosts4);
        ZoneServers(V6, hosts6);
        Assoc(old(applied), FlatMap(hosts4, ZoneOfServer(V4)), FlatMap(hosts6, ZoneOfServer(V6)));
      }
    }

    method AddConntrackZoneDNSUDP(uids: seq<string>, gids: seq<string>, hosts4: seq<string>, hosts6: seq<string>, captureAllDNS: bool)
      requires Valid()
      modifies this, iptables, ext
      ensures Valid() && applied == old(applied) + ConntrackZones(uids, gids, hosts4, hosts6, captureAllDNS)
      ensures ext.restored == old(ext.restored)
    {
      ZoneOwners(uids, true);
      ZoneOwners(gids, false);
      Assoc(old(applied), FlatMap(uids, ZoneOfUid()), FlatMap(gids, ZoneOfGid()));
      ZoneDns(hosts4, hosts6, captureAllDNS);
      Assoc(old(applied), FlatMap(uids, ZoneOfUid()) + FlatMap(gids, ZoneOfGid()), ZonesOfServers(hosts4, hosts6, captureAllDNS));
    }

    method HandleDNSUDP(uids: seq<string>, gids: seq<string>, hosts4: seq<string>, hosts6: seq<string>,
                        captureAllDNS: bool, filter: InterceptFilter)
      requires Valid() && applied == []
      modifies this, iptables, ext
      ensures Valid() && applied == DnsUdp(uids, gids, hosts4, hosts6, captureAllDNS, filter)
      ensures ext.restored == old(ext.restored)
    {
      ReturnOwners(uids, true);
      assert [] + FlatMap(uids, DnsUidReturn()) == FlatMap(uids, DnsUidReturn());
      ReturnOwners(gids, false);
      ReturnGroups(filter);
      RedirectDns(hosts4, hosts6, captureAllDNS);
      AddConntrackZoneDNSUDP(uids, gids, hosts4, hosts6, captureAllDNS);
    }
  }
}
