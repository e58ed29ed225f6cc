/** The marks that outgoing packets leave the mangle table with. */
module Marks {
  import opened Sequences
  import opened Netfilter
  import opened Builder
  import opened CallScripts
  import opened Capture
  import opened Intent
  import opened RunFacts
  import opened NeverFails
  import opened Tracing
  import opened Contents
  import opened Outbound
  import opened Traffic
  import opened CaptureTheorems
  import opened InboundContents
  import opened Inbound
  import Text

  const MARKING := ChainId(MANGLE, OUTPUT)

  // ---------------------------------------------------------------- the installed chain

  function MarkingRules(cfg: Config, fam: Family): seq<Rule> {
    if cfg.UsesTproxy() then TproxyOutputRules(cfg, fam) else []
  }

  lemma TouchesMarking(phase: Phase)
    ensures MARKING in Touched(phase) <==> phase in {ExcludedInterfaces, TproxyMarks}
  {
  }

  lemma InterfacesAndMarks<B>(f: Phase -> seq<B>)
    requires forall phase :: phase !in {ExcludedInterfaces, TproxyMarks} ==> f(phase) == []
    ensures FlatMap(Phases(), f) == f(ExcludedInterfaces) + f(TproxyMarks)
  {
    AllPhases(f);
  }

  lemma MarksOnChain(cfg: Config, fam: Family)
    ensures FlatMap(TproxyAppends(cfg, fam), OnChain(MARKING)) == TproxyOutputRules(cfg, fam)
  {
    FirstElsewhere(SaveMarkRule(cfg.inboundTProxyMark));
    SecondOnChain(AppendCall(UNDEFINED_COMMAND, PREROUTING, MANGLE, SaveMarkRule(cfg.inboundTProxyMark)), TproxyOutputRules(cfg, fam));
  }

  lemma FirstElsewhere(r: Rule)
    ensures OnChain(MARKING)(AppendCall(UNDEFINED_COMMAND, PREROUTING, MANGLE, r)) == []
  {
    OutputNotPrerouting();
  }

  lemma SecondOnChain(first: Call, rules: seq<Rule>)
    requires OnChain(MARKING)(first) == []
    ensures FlatMap([first] + Calls(UNDEFINED_COMMAND, OUTPUT, MANGLE, rules), OnChain(MARKING)) == rules
  {
    FlatMapOne(OnChain(MARKING), first);
    FlatMapConcat([first], Calls(UNDEFINED_COMMAND, OUTPUT, MANGLE, rules), OnChain(MARKING));
    CallsOnChain(UNDEFINED_COMMAND, OUTPUT, MANGLE, rules, MARKING);
  }

  lemma MarkingPhase(s: Setup, fam: Family)
    ensures PhaseContent(s, fam, MARKING)(TproxyMarks) == MarkingRules(s.cfg, fam)
  {
    MarksPhase(s, fam);
    PhaseContentOf(s, fam, MARKING, TproxyMarks, if s.cfg.UsesTproxy() then TproxyAppends(s.cfg, fam) else []);
    MarksOnChain(s.cfg, fam);
  }

  lemma MarkingContent(s: Setup, fam: Family)
    ensures Content(s, fam, MARKING) == PhaseContent(s, fam, MARKING)(ExcludedInterfaces) + MarkingRules(s.cfg, fam)
  {
    var f := PhaseContent(s, fam, MARKING);
    forall phase | phase !in {ExcludedInterfaces, TproxyMarks} ensures f(phase) == [] {
      TouchesMarking(phase);
      UntouchedEmpty(s, fam, MARKING, phase);
    }
    InterfacesAndMarks(f);
    MarkingPhase(s, fam);
  }

  lemma MarkingOnlyAppended()
    ensures OnlyAppended(MARKING)
  {
  }

  lemma MarkingInstalled(fw: Firewall, s: Setup, fam: Family, fw': Firewall)
    requires Host(fw) && Enabled(s, fam) && !s.cfg.traceLogging && Installed(fw, s, fam, fw')
    ensures MARKING in fw && MARKING in fw'
    ensures fw'[MARKING] == fw[MARKING] + (PhaseContent(s, fam, MARKING)(ExcludedInterfaces) + MarkingRules(s.cfg, fam))
  {
    InstalledChains(fw, s, fam, fw');
    MarkingOnlyAppended();
    forall c | c in RunCalls(s, fam) && CallId(c) == MARKING ensures c.AppendCall? {
      InsertedChains(s, fam, c);
    }
    AppendedChain(fw, s, fam, fw', MARKING);
    MarkingContent(s, fam);
  }

  // ---------------------------------------------------------------- what its rules do

  /** The same packet, but marked 1338 if `marked`. */
  ghost predicate Remarked(p: Packet, q: Packet, marked: bool) {
    forall m: Match :: q(m) == if marked && m.Mark? then m.value == "1338" else p(m)
  }

  /** TCP through lo to another address than the host's own. */
  predicate ByOtherAddress(fam: Family, p: Packet) {
    p(Protocol("tcp")) && p(OutInterface("lo")) && !p(Destination(OwnAddress(fam)))
  }

  lemma SameSpelling(fam: Family, value: string)
    ensures Sub(Loopback(fam), value) == Spelled(fam, value) && Loopback(fam) == OwnAddress(fam)
  {
  }

  lemma MarkOneOutcome(fw: Firewall, fam: Family, owner: Match, p: Packet, depth: nat)
    ensures Eval(fw, MANGLE, [MarkRule(fam, owner)], p, depth) ==
            Ended(if ByOtherAddress(fam, p) && p(owner) then Effect(SetMark("1338"), p) else p)
  {
    var r := MarkRule(fam, owner);
    SameSpelling(fam, "");
    assert r.conds[0] in r.conds && r.conds[1] in r.conds && r.conds[2] in r.conds && r.conds[3] in r.conds;
    assert Matches(r.conds, p) <==> ByOtherAddress(fam, p) && p(owner);
    EvalPassing(fw, MANGLE, r, p, depth);
  }

  predicate AnyOf(names: seq<string>, test: string -> Match, p: Packet) {
    exists n :: n in names && p(test(n))
  }

  lemma AnyPush(front: seq<string>, last: string, test: string -> Match, p: Packet)
    ensures AnyOf(front + [last], test, p) <==> AnyOf(front, test, p) || p(test(last))
  {
    assert (front + [last])[|front|] == last;
    assert forall n :: n in front + [last] <==> n in front || n == last;
  }

  /** One mark rule for each name. */
  predicate MarksEach(fam: Family, names: seq<string>, rules: string -> seq<Rule>, test: string -> Match) {
    forall n :: n in names ==> rules(n) == [MarkRule(fam, test(n))] && !test(n).Mark?
  }

  /** The mark rules of some users or groups mark what any of them sends by another address, and nothing else. */
  lemma {:induction false} NamedMarks(fw: Firewall, fam: Family, names: seq<string>, rules: string -> seq<Rule>, test: string -> Match,
                                      p: Packet, depth: nat) returns (q: Packet)
    requires MarksEach(fam, names, rules, test)
    ensures Eval(fw, MANGLE, FlatMap(names, rules), p, depth) == Ended(q)
    ensures Remarked(p, q, ByOtherAddress(fam, p) && AnyOf(names, test, p))
  {
    if names == [] {
      q := p;
    } else {
      var front, last := names[..|names| - 1], names[|names| - 1];
      assert last in names;
      var mid := NamedMarks(fw, fam, front, rules, test, p, depth);
      q := NextMark(fw, fam, FlatMap(front, rules), test(last), AnyOf(front, test, p), p, mid, depth);
      AnyPush(front, last, test, p);
      assert front + [last] == names;
    }
  }

  function UserTest(fam: Family): string -> Match {
    (n: string) => UidOwner(Spelled(fam, n))
  }

  function GroupTest(fam: Family): string -> Match {
    (n: string) => GidOwner(Spelled(fam, n))
  }

  lemma MarksOfNames(fam: Family, names: seq<string>)
    ensures MarksEach(fam, names, MarkUid(fam), UserTest(fam)) && MarksEach(fam, names, MarkGid(fam), GroupTest(fam))
  {
    forall n | n in names
      ensures MarkUid(fam)(n) == [MarkRule(fam, UserTest(fam)(n))] && MarkGid(fam)(n) == [MarkRule(fam, GroupTest(fam)(n))]
    {
      SameSpelling(fam, n);
    }
  }

  /** The marks of all users and groups together. */
  lemma OwnersMarks(fw: Firewall, cfg: Config, fam: Family, p: Packet, depth: nat) returns (q: Packet)
    ensures Eval(fw, MANGLE, FlatMap(cfg.Uids(), MarkUid(fam)) + FlatMap(cfg.Gids(), MarkGid(fam)), p, depth) == Ended(q)
    ensures Remarked(p, q, p(Protocol("tcp")) && ToWorkload(cfg, fam, p))
  {
    MarksOfNames(fam, cfg.Uids());
    MarksOfNames(fam, cfg.Gids());
    var mid := NamedMarks(fw, fam, cfg.Uids(), MarkUid(fam), UserTest(fam), p, depth);
    q := NamedMarks(fw, fam, cfg.Gids(), MarkGid(fam), GroupTest(fam), mid, depth);
    EvalConcat(fw, MANGLE, FlatMap(cfg.Uids(), MarkUid(fam)), FlatMap(cfg.Gids(), MarkGid(fam)), p, depth);
    assert AnyOf(cfg.Gids(), GroupTest(fam), mid) <==> AnyOf(cfg.Gids(), GroupTest(fam), p);
    Workloads(cfg, fam, p);
  }

  lemma Workloads(cfg: Config, fam: Family, p: Packet)
    ensures p(Protocol("tcp")) && ToWorkload(cfg, fam, p) <==>
            ByOtherAddress(fam, p) && (AnyOf(cfg.Uids(), UserTest(fam), p) || AnyOf(cfg.Gids(), GroupTest(fam), p))
  {
  }

  /** One more mark rule. */
  lemma NextMark(fw: Firewall, fam: Family, rules: seq<Rule>, owner: Match, marked: bool, p: Packet, mid: Packet, depth: nat)
    returns (q: Packet)
    requires Eval(fw, MANGLE, rules, p, depth) == Ended(mid) && Remarked(p, mid, ByOtherAddress(fam, p) && marked)
    requires !owner.Mark?
    ensures Eval(fw, MANGLE, rules + [MarkRule(fam, owner)], p, depth) == Ended(q)
    ensures Remarked(p, q, ByOtherAddress(fam, p) && (marked || p(owner)))
  {
    MarkOneOutcome(fw, fam, owner, mid, depth);
    EvalConcat(fw, MANGLE, rules, [MarkRule(fam, owner)], p, depth);
    q := if ByOtherAddress(fam, mid) && mid(owner) then Effect(SetMark("1338"), mid) else mid;
  }

  lemma EdgeRules(fw: Firewall, mark: string, p: Packet, depth: nat)
    ensures Eval(fw, MANGLE, [MarkedLoopbackRule(mark)], p, depth) ==
            if p(Protocol("tcp")) && p(OutInterface("lo")) && p(Mark(mark)) then Returned(p) else Ended(p)
    ensures Eval(fw, MANGLE, [RestoreMarkRule(mark)], p, depth) ==
            Ended(if p(Protocol("tcp")) && p(ConnMark(mark)) then Effect(RestoreMark, p) else p)
  {
    var a, b := MarkedLoopbackRule(mark), RestoreMarkRule(mark);
    assert a.conds[0] in a.conds && a.conds[1] in a.conds && a.conds[2] in a.conds && b.conds[0] in b.conds && b.conds[1] in b.conds;
    EvalOne(fw, MANGLE, a, p, depth);
    assert Matches(b.conds, p) <==> p(Protocol("tcp")) && p(ConnMark(mark));
    EvalPassing(fw, MANGLE, b, p, depth);
  }

  lemma MarkingOutcome(fw: Firewall, cfg: Config, fam: Family, p: Packet, depth: nat) returns (o: Outcome)
    requires !OutThroughExcluded(cfg, p)
    ensures o == Eval(fw, MANGLE, MarkingRules(cfg, fam), p, depth) && !o.Decided?
    ensures forall m :: o.packet(m) == LeavesWith(cfg, fam, p, m)
  {
    o := Eval(fw, MANGLE, MarkingRules(cfg, fam), p, depth);
    if cfg.UsesTproxy() {
      var owners := OwnersRules(cfg, fam);
      var q := OwnersMarks(fw, cfg, fam, p, depth);
      AroundOwners(fw, cfg.inboundTProxyMark, owners, p, q, depth);
      Restored(cfg, fam, p, q);
    } else {
      Unmarked(cfg, fam, p);
    }
  }

  lemma Unmarked(cfg: Config, fam: Family, p: Packet)
    requires !cfg.UsesTproxy()
    ensures MarkingRules(cfg, fam) == [] && forall m :: p(m) == LeavesWith(cfg, fam, p, m)
  {
  }

  lemma OwnersRules(cfg: Config, fam: Family) returns (owners: seq<Rule>)
    requires cfg.UsesTproxy()
    ensures owners == FlatMap(cfg.Uids(), MarkUid(fam)) + FlatMap(cfg.Gids(), MarkGid(fam))
    ensures MarkingRules(cfg, fam) == [MarkedLoopbackRule(cfg.inboundTProxyMark)] + owners + [RestoreMarkRule(cfg.inboundTProxyMark)]
  {
    owners := FlatMap(cfg.Uids(), MarkUid(fam)) + FlatMap(cfg.Gids(), MarkGid(fam));
    Assoc([MarkedLoopbackRule(cfg.inboundTProxyMark)], FlatMap(cfg.Uids(), MarkUid(fam)), FlatMap(cfg.Gids(), MarkGid(fam)));
  }

  /** The two rules around the owners': marked traffic on lo returns first, and the connection's mark is restored last. */
  lemma AroundOwners(fw: Firewall, mark: string, owners: seq<Rule>, p: Packet, q: Packet, depth: nat)
    requires Eval(fw, MANGLE, owners, p, depth) == Ended(q)
    ensures Eval(fw, MANGLE, [MarkedLoopbackRule(mark)] + owners + [RestoreMarkRule(mark)], p, depth) ==
            if p(Protocol("tcp")) && p(OutInterface("lo")) && p(Mark(mark)) then Returned(p) else Ended(AfterRestore(mark, q))
  {
    EdgeRules(fw, mark, p, depth);
    EdgeRules(fw, mark, q, depth);
    EvalConcat(fw, MANGLE, [MarkedLoopbackRule(mark)], owners, p, depth);
    EvalConcat(fw, MANGLE, [MarkedLoopbackRule(mark)] + owners, [RestoreMarkRule(mark)], p, depth);
  }

  function AfterRestore(mark: string, q: Packet): Packet {
    if q(Protocol("tcp")) && q(ConnMark(mark)) then Effect(RestoreMark, q) else q
  }

  lemma Restored(cfg: Config, fam: Family, p: Packet, q: Packet)
    requires cfg.UsesTproxy() && !OutThroughExcluded(cfg, p)
    requires Remarked(p, q, p(Protocol("tcp")) && ToWorkload(cfg, fam, p))
    ensures !(p(Protocol("tcp")) && p(OutInterface("lo")) && p(Mark(cfg.inboundTProxyMark))) ==>
              forall m :: AfterRestore(cfg.inboundTProxyMark, q)(m) == LeavesWith(cfg, fam, p, m)
  {
  }

  // ---------------------------------------------------------------- the theorem

  lemma MarkingInterfaces(fw: Firewall, s: Setup, fam: Family, p: Packet, depth: nat)
    ensures Eval(fw, MANGLE, PhaseContent(s, fam, MARKING)(ExcludedInterfaces), p, depth) ==
            if s.cfg.UsesTproxy() && OutThroughExcluded(s.cfg, p) then Returned(p) else Ended(p)
  {
    if s.cfg.UsesTproxy() {
      InterfacesOutcome(fw, s, fam, MARKING, p, depth);
    } else {
      InterfacePhase(s, fam, MARKING);
      NoMarkingInterfaces(s.cfg);
    }
  }

  lemma NoMarkingInterfaces(cfg: Config)
    requires !cfg.UsesTproxy()
    ensures FlatMap(ExcludeInterfaceCalls(cfg), OnChain(MARKING)) == []
  {
    var xs := Text.Fields(cfg.excludeInterfaces);
    NatNotMangle();
    forall c | c in ExcludeInterfaceCalls(cfg) ensures OnChain(MARKING)(c) == [] {
      FlatMapMember(xs, InterfaceReturns(NAT), c);
    }
    FlatMapNothing(ExcludeInterfaceCalls(cfg), OnChain(MARKING));
  }

  lemma PlainMarks(fw: Firewall, s: Setup, fam: Family, fw': Firewall, p: Packet, depth: nat)
    requires Host(fw) && Closed(fw) && Enabled(s, fam) && !s.cfg.traceLogging && Installed(fw, s, fam, fw')
    requires MARKING in fw && PassesHost(fw, MARKING, p, depth)
    ensures MARKING in fw' && Traverse(fw', MARKING, p, depth) == Accepted
    ensures forall m :: LeavesAs(fw', MARKING, p, depth)(m) == LeavesWith(s.cfg, fam, p, m)
  {
    var e := PhaseContent(s, fam, MARKING)(ExcludedInterfaces);
    MarkingInstalled(fw, s, fam, fw');
    HostStillPasses(fw, s, fam, fw', MARKING, p, depth);
    MarkingInterfaces(fw', s, fam, p, depth);
    EvalConcat(fw', MANGLE, fw[MARKING], e + MarkingRules(s.cfg, fam), p, depth);
    EvalConcat(fw', MANGLE, e, MarkingRules(s.cfg, fam), p, depth);
    if !OutThroughExcluded(s.cfg, p) {
      var o := MarkingOutcome(fw', s.cfg, fam, p, depth);
    }
  }

  /**
   On a host whose own rules let the packet pass, a run leaves every outgoing packet with exactly the marks
   of the configuration, traced or not, and all its other tests as they were.
   */
  lemma MarksExactly(fw: Firewall, s: Setup, fam: Family, fw': Firewall, p: Packet, depth: nat)
    requires Host(fw) && Closed(fw) && Enabled(s, fam) && Installed(fw, s, fam, fw')
    requires MARKING in fw && PassesHost(fw, MARKING, p, depth)
    ensures MARKING in fw' && Traverse(fw', MARKING, p, depth) == Accepted
    ensures forall m :: LeavesAs(fw', MARKING, p, depth)(m) == LeavesWith(s.cfg, fam, p, m)
  {
    InstalledChains(fw, s, fam, fw');
    var plain := UntracedTwin(fw, s, fam, fw');
    PlainMarks(fw, Retraced(s, false), fam, plain, p, depth);
    MarksRetraced(s, fam, p);
  }

  lemma MarksRetraced(s: Setup, fam: Family, p: Packet)
    ensures forall m :: LeavesWith(Retraced(s, false).cfg, fam, p, m) == LeavesWith(s.cfg, fam, p, m)
  {
  }
}
