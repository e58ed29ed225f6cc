/** The cleaner: the commands it runs for one address family, and the loops that run them. */
module Cleaner {
  import opened Optional
  import opened Sequences
  import opened Netfilter
  import opened Commands
  import opened Builder
  import opened Capture
  import opened RuleShapes
  import opened Executions
  import opened DnsRules
  import opened RunFacts
  import opened CallScripts
  import Text

  datatype CleanConfig = CleanConfig(
    proxyUID: string, proxyGID: string, redirectDNS: bool,
    dnsServersV4: seq<string>, dnsServersV6: seq<string>, captureAllDNS: bool,
    ownerGroupsInclude: string, ownerGroupsExclude: string)

  /** The cleaner's settings that match a configurator's. */
  function CleanOf(cfg: Config): CleanConfig {
    CleanConfig(cfg.proxyUID, cfg.proxyGID, cfg.redirectDNS, cfg.dnsServersV4, cfg.dnsServersV6, cfg.captureAllDNS,
                cfg.ownerGroupsInclude, cfg.ownerGroupsExclude)
  }

  // ---------------------------------------------------------------- what it runs

  const INBOUND_JUMP := TcpRule(Jump(ISTIO_INBOUND))
  const OUTBOUND_JUMP := TcpRule(Jump(ISTIO_OUTPUT))

  function JumpDeletes(): seq<Command> {
    [DeleteFrom(ChainId(NAT, PREROUTING), INBOUND_JUMP), DeleteFrom(ChainId(MANGLE, PREROUTING), INBOUND_JUMP),
     DeleteFrom(ChainId(NAT, OUTPUT), OUTBOUND_JUMP)]
  }

  function DnsApplied(cfg: CleanConfig): seq<Applied> {
    if cfg.redirectDNS then
      DnsUdp(Text.Fields(cfg.proxyUID), Text.Fields(cfg.proxyGID), Suffixed(cfg.dnsServersV4, HostSuffix(V4)),
             Suffixed(cfg.dnsServersV6, HostSuffix(V6)), cfg.captureAllDNS,
             ParseInterceptFilter(cfg.ownerGroupsInclude, cfg.ownerGroupsExclude))
    else
      []
  }

  function DeleteOf(): Applied -> seq<Command> {
    (a: Applied) => [DeleteFrom(ChainId(a.table, a.chain), a.rule)]
  }

  function Deletes(cfg: CleanConfig): seq<Command> {
    JumpDeletes() + FlatMap(DnsApplied(cfg), DeleteOf())
  }

  function Remove(table: string): string -> seq<Command> {
    (chain: string) => [Flush(ChainId(table, chain)), DeleteChain(ChainId(table, chain))]
  }

  function Removals(): seq<Command> {
    FlatMap([ISTIO_OUTPUT, ISTIO_INBOUND], Remove(NAT)) +
    FlatMap([ISTIO_INBOUND, ISTIO_DIVERT, ISTIO_TPROXY], Remove(MANGLE)) +
    FlatMap([ISTIO_REDIRECT, ISTIO_IN_REDIRECT], Remove(NAT))
  }

  /** removeOldChains */
  function CleanScript(cfg: CleanConfig): seq<Command> {
    Deletes(cfg) + Removals()
  }

  function Line(cmd: string, c: Command): seq<string> {
    match c
    case DeleteFrom(id, r) => [cmd, "-t", id.table, "-D", id.chain] + RuleTokens(r)
    case Flush(id) => [cmd, "-t", id.table, "-F", id.chain]
    case DeleteChain(id) => [cmd, "-t", id.table, "-X", id.chain]
    case NewChain(id) => [cmd, "-t", id.table, "-N", id.chain]
    case AppendTo(id, r) => [cmd, "-t", id.table, "-A", id.chain] + RuleTokens(r)
    case InsertAt(id, position, r) => [cmd, "-t", id.table, "-I", id.chain, Decimal(position)] + RuleTokens(r)
  }

  function Render(cmd: string): Command -> seq<seq<string>> {
    (c: Command) => [Line(cmd, c)]
  }

  function Lines(cmd: string, script: seq<Command>): seq<seq<string>> {
    FlatMap(script, Render(cmd))
  }

  lemma JumpTokens(chain: string)
    ensures RuleTokens(TcpRule(Jump(chain))) == ["-p", "tcp", "-j", chain]
  {
    Tokens1(Tcp(), Jump(chain));
  }

  lemma {:induction false} DeleteLines(cmd: string, applied: seq<Applied>)
    ensures FlatMap(applied, DeleteLine(cmd)) == Lines(cmd, FlatMap(applied, DeleteOf()))
  {
    if applied != [] {
      var front, last := applied[..|applied| - 1], applied[|applied| - 1];
      DeleteLines(cmd, front);
      FlatMapPush(FlatMap(front, DeleteOf()), Render(cmd), DeleteOf()(last)[0]);
    }
  }

  lemma LinesConcat(cmd: string, a: seq<Command>, b: seq<Command>)
    ensures Lines(cmd, a + b) == Lines(cmd, a) + Lines(cmd, b)
  {
    FlatMapConcat(a, b, Render(cmd));
  }

  lemma LinesPush(cmd: string, a: seq<Command>, c: Command)
    ensures Lines(cmd, a + [c]) == Lines(cmd, a) + [Line(cmd, c)]
  {
    FlatMapPush(a, Render(cmd), c);
  }

  // ---------------------------------------------------------------- the lines mean just that

  lemma CleanReadable(cfg: CleanConfig, c: Command)
    requires c in CleanScript(cfg)
    ensures c.DeleteFrom? || c.Flush? || c.DeleteChain?
    ensures c.DeleteFrom? ==> Good(c.rule)
  {
    if c in JumpDeletes() {
      TcpRuleGood(Jump(ISTIO_INBOUND));
      TcpRuleGood(Jump(ISTIO_OUTPUT));
    } else if c in FlatMap(DnsApplied(cfg), DeleteOf()) {
      DnsDelete(cfg, c);
    } else {
      RemovalShape(c);
    }
  }

  lemma DnsDelete(cfg: CleanConfig, c: Command)
    requires c in FlatMap(DnsApplied(cfg), DeleteOf())
    ensures exists a :: a in DnsApplied(cfg) && AppliedFits(a) && c == DeleteFrom(ChainId(a.table, a.chain), a.rule)
  {
    FlatMapMember(DnsApplied(cfg), DeleteOf(), c);
    var a :| a in DnsApplied(cfg) && c in DeleteOf()(a);
    DnsUdpFits(Text.Fields(cfg.proxyUID), Text.Fields(cfg.proxyGID), Suffixed(cfg.dnsServersV4, HostSuffix(V4)),
               Suffixed(cfg.dnsServersV6, HostSuffix(V6)), cfg.captureAllDNS,
               ParseInterceptFilter(cfg.ownerGroupsInclude, cfg.ownerGroupsExclude), a);
  }

  lemma RemovalShape(c: Command)
    requires c in Removals()
    ensures c.Flush? || c.DeleteChain?
    ensures c.id.chain in ISTIO_CHAINS
  {
    if c in FlatMap([ISTIO_OUTPUT, ISTIO_INBOUND], Remove(NAT)) {
      FlatMapMember([ISTIO_OUTPUT, ISTIO_INBOUND], Remove(NAT), c);
    } else if c in FlatMap([ISTIO_INBOUND, ISTIO_DIVERT, ISTIO_TPROXY], Remove(MANGLE)) {
      FlatMapMember([ISTIO_INBOUND, ISTIO_DIVERT, ISTIO_TPROXY], Remove(MANGLE), c);
    } else {
      FlatMapMember([ISTIO_REDIRECT, ISTIO_IN_REDIRECT], Remove(NAT), c);
    }
  }

  lemma LineDenotes(cmd: string, c: Command)
    requires c.DeleteFrom? || c.Flush? || c.DeleteChain?
    requires c.DeleteFrom? ==> Good(c.rule)
    ensures Line(cmd, c) != [] && ParseCommand(Line(cmd, c)[1..]) == Some(c)
  {
    var args := Line(cmd, c)[1..];
    if c.DeleteFrom? {
      ParseRuleTokens(c.rule.conds, c.rule.target, "", "");
      assert args[4..] == RuleTokens(c.rule);
    }
  }

  lemma {:induction false} LinesOf(cmd: string, script: seq<Command>)
    ensures |Lines(cmd, script)| == |script|
    ensures forall i :: 0 <= i < |script| ==> Lines(cmd, script)[i] == Line(cmd, script[i])
  {
    if script != [] {
      var front, last := script[..|script| - 1], script[|script| - 1];
      LinesOf(cmd, front);
      LinesPush(cmd, front, last);
      assert front + [last] == script;
    }
  }

  /** The cleaner's lines denote its script. */
  lemma CleanDenotes(cmd: string, cfg: CleanConfig)
    ensures Denote(Arguments(Lines(cmd, CleanScript(cfg))), CleanScript(cfg))
  {
    var script := CleanScript(cfg);
    LinesOf(cmd, script);
    forall i | 0 <= i < |script| ensures ParseCommand(Arguments(Lines(cmd, script))[i]) == Some(script[i]) {
      CleanReadable(cfg, script[i]);
      LineDenotes(cmd, script[i]);
    }
  }

  function InboundLines(cmd: string): seq<seq<string>> {
    [[cmd, "-t", NAT, "-D", PREROUTING, "-p", "tcp", "-j", ISTIO_INBOUND],
     [cmd, "-t", MANGLE, "-D", PREROUTING, "-p", "tcp", "-j", ISTIO_INBOUND]]
  }

  lemma JumpLine(cmd: string, table: string, chain: string, target: string)
    ensures Line(cmd, DeleteFrom(ChainId(table, chain), TcpRule(Jump(target)))) ==
            [cmd, "-t", table, "-D", chain, "-p", "tcp", "-j", target]
  {
    JumpTokens(target);
  }

  lemma JumpLines(cmd: string)
    ensures Lines(cmd, JumpDeletes()) == InboundLines(cmd) + [[cmd, "-t", NAT, "-D", OUTPUT, "-p", "tcp", "-j", ISTIO_OUTPUT]]
  {
    LinesOf(cmd, JumpDeletes());
    JumpLine(cmd, NAT, PREROUTING, ISTIO_INBOUND);
    JumpLine(cmd, MANGLE, PREROUTING, ISTIO_INBOUND);
    JumpLine(cmd, NAT, OUTPUT, ISTIO_OUTPUT);
  }

  lemma RemovalLines(cmd: string, done: seq<seq<string>>)
    ensures done + Lines(cmd, FlatMap([ISTIO_OUTPUT, ISTIO_INBOUND], Remove(NAT))) +
                   Lines(cmd, FlatMap([ISTIO_INBOUND, ISTIO_DIVERT, ISTIO_TPROXY], Remove(MANGLE))) +
                   Lines(cmd, FlatMap([ISTIO_REDIRECT, ISTIO_IN_REDIRECT], Remove(NAT))) ==
            done + Lines(cmd, Removals())
  {
    LinesJoin(cmd, done, FlatMap([ISTIO_OUTPUT, ISTIO_INBOUND], Remove(NAT)),
              FlatMap([ISTIO_INBOUND, ISTIO_DIVERT, ISTIO_TPROXY], Remove(MANGLE)),
              FlatMap([ISTIO_REDIRECT, ISTIO_IN_REDIRECT], Remove(NAT)));
  }

  lemma CleanLines(cmd: string, cfg: CleanConfig, done: seq<seq<string>>)
    ensures done + Lines(cmd, JumpDeletes()) + Lines(cmd, FlatMap(DnsApplied(cfg), DeleteOf())) + Lines(cmd, Removals()) ==
            done + Lines(cmd, CleanScript(cfg))
  {
    LinesJoin(cmd, done, JumpDeletes(), FlatMap(DnsApplied(cfg), DeleteOf()), Removals());
  }

  lemma LinesJoin(cmd: string, done: seq<seq<string>>, a: seq<Command>, b: seq<Command>, c: seq<Command>)
    ensures done + Lines(cmd, a) + Lines(cmd, b) + Lines(cmd, c) == done + Lines(cmd, a + b + c)
  {
    LinesConcat(cmd, a, b);
    LinesConcat(cmd, a + b, c);
  }

  // ---------------------------------------------------------------- the cleaner object

  class IptablesCleaner {
    const cfg: CleanConfig
    const ext: Dependencies

    constructor (cfg: CleanConfig, ext: Dependencies)
      ensures this.cfg == cfg && this.ext == ext
    {
      this.cfg, this.ext := cfg, ext;
    }

    method FlushAndDeleteChains(cmd: string, table: string, chains: seq<string>)
      modifies ext
      ensures ext.executed == old(ext.executed) + Lines(cmd, FlatMap(chains, Remove(table))) && ext.restored == old(ext.restored)
    {
      for i := 0 to |chains|
        invariant ext.executed == old(ext.executed) + Lines(cmd, FlatMap(chains[..i], Remove(table))) && ext.restored == old(ext.restored)
      {
        var chain := chains[i];
        ghost var done := FlatMap(chains[..i], Remove(table));
        FlatMapStep(chains, Remove(table), i);
        assert done + Remove(table)(chain) == done + [Flush(ChainId(table, chain))] + [DeleteChain(ChainId(table, chain))];
        LinesPush(cmd, done, Flush(ChainId(table, chain)));
        LinesPush(cmd, done + [Flush(ChainId(table, chain))], DeleteChain(ChainId(table, chain)));
        ext.RunQuietlyAndIgnore([cmd, "-t", table, "-F", chain]);
        ext.RunQuietlyAndIgnore([cmd, "-t", table, "-X", chain]);
      }
      FlatMapWhole(chains, Remove(table));
    }

    method DeleteJumps(cmd: string)
      modifies ext
      ensures ext.executed == old(ext.executed) + Lines(cmd, JumpDeletes()) && ext.restored == old(ext.restored)
    {
      var tables := [NAT, MANGLE];
      for i := 0 to |tables|
        invariant ext.executed == old(ext.executed) + InboundLines(cmd)[..i] && ext.restored == old(ext.restored)
      {
        ext.RunQuietlyAndIgnore([cmd, "-t", tables[i], "-D", PREROUTING, "-p", "tcp", "-j", ISTIO_INBOUND]);
      }
      ext.RunQuietlyAndIgnore([cmd, "-t", NAT, "-D", OUTPUT, "-p", "tcp", "-j", ISTIO_OUTPUT]);
      JumpLines(cmd);
    }

    method DeleteDns(cmd: string)
      modifies ext
      ensures ext.executed == old(ext.executed) + Lines(cmd, FlatMap(DnsApplied(cfg), DeleteOf())) && ext.restored == old(ext.restored)
    {
      if cfg.redirectDNS {
        var ownerGroupsFilter := ParseInterceptFilter(cfg.ownerGroupsInclude, cfg.ownerGroupsExclude);
        var builder := new IptablesBuilder(false, false);
        var f := new UDPRuleApplier(builder, ext, true, cmd);
        f.HandleDNSUDP(Text.Fields(cfg.proxyUID), Text.Fields(cfg.proxyGID), Suffixed(cfg.dnsServersV4, HostSuffix(V4)),
                       Suffixed(cfg.dnsServersV6, HostSuffix(V6)), cfg.captureAllDNS, ownerGroupsFilter);
        DeleteLines(cmd, DnsApplied(cfg));
      }
    }

    method RemoveChains(cmd: string)
      modifies ext
      ensures ext.executed == old(ext.executed) + Lines(cmd, Removals()) && ext.restored == old(ext.restored)
    {
      FlushAndDeleteChains(cmd, NAT, [ISTIO_OUTPUT, ISTIO_INBOUND]);
      FlushAndDeleteChains(cmd, MANGLE, [ISTIO_INBOUND, ISTIO_DIVERT, ISTIO_TPROXY]);
      FlushAndDeleteChains(cmd, NAT, [ISTIO_REDIRECT, ISTIO_IN_REDIRECT]);
      RemovalLines(cmd, old(ext.executed));
    }

    method RemoveOldChains(cmd: string)
      modifies ext
      ensures ext.executed == old(ext.executed) + Lines(cmd, CleanScript(cfg)) && ext.restored == old(ext.restored)
    {
      DeleteJumps(cmd);
      DeleteDns(cmd);
      RemoveChains(cmd);
      CleanLines(cmd, cfg, old(ext.executed));
    }

    /** Both families, and then two listings the source runs on a best-effort basis. */
    method Run()
      modifies ext
      ensures ext.executed == old(ext.executed) + Lines("iptables", CleanScript(cfg)) + Lines("ip6tables", CleanScript(cfg)) +
                              [["iptables-save"], ["ip6tables-save"]]
      ensures ext.restored == old(ext.restored)
    {
      RemoveOldChains("iptables");
      RemoveOldChains("ip6tables");
      ghost var done := ext.executed;
      ext.RunQuietlyAndIgnore(["iptables-save"]);
      ext.RunQuietlyAndIgnore(["ip6tables-save"]);
      assert done + [["iptables-save"]] + [["ip6tables-save"]] == done + [["iptables-save"], ["ip6tables-save"]];
    }
  }
}
