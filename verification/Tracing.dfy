/** Tracing only adds logging rules: with them erased, nothing has changed. */
module Tracing {
  import opened Optional
  import opened Sequences
  import opened Netfilter
  import opened Commands
  import opened Builder
  import opened CallScripts
  import opened Install
  import opened Capture
  import opened NeverFails

  // ---------------------------------------------------------------- erasing logging rules

  function Erase(rules: seq<Rule>): seq<Rule> {
    if rules == [] then []
    else (if rules[0].target.NfLog? then [] else [rules[0]]) + Erase(rules[1..])
  }

  function Erased(fw: Firewall): Firewall {
    map id | id in fw :: Erase(fw[id])
  }

  lemma {:induction false} EraseConcat(a: seq<Rule>, b: seq<Rule>)
    ensures Erase(a + b) == Erase(a) + Erase(b)
    decreases |a|
  {
    if a == [] {
      assert a + b == b;
    } else {
      assert (a + b)[1..] == a[1..] + b;
      EraseConcat(a[1..], b);
    }
  }

  /** No packet can tell a firewall from the one without its logging rules. */
  lemma {:induction false} EvalErased(fw: Firewall, table: string, rules: seq<Rule>, p: Packet, depth: nat)
    ensures Eval(fw, table, rules, p, depth) == Eval(Erased(fw), table, Erase(rules), p, depth)
    decreases depth, |rules|
  {
    if rules != [] {
      var rest := rules[1..];
      if !rules[0].target.NfLog? {
        assert Erase(rules)[0] == rules[0] && Erase(rules)[1..] == Erase(rest);
      } else {
        assert Erase(rules) == Erase(rest);
      }
      if !Matches(rules[0].conds, p) {
        EvalErased(fw, table, rest, p, depth);
      } else {
        match rules[0].target
        case Return =>
        case Accept =>
        case Drop =>
        case Redirect(_, _) =>
        case Tproxy(_, _) =>
        case Jump(chain) =>
          if depth == 0 || ChainId(table, chain) !in fw {
            EvalErased(fw, table, rest, p, depth);
          } else {
            var rules' := fw[ChainId(table, chain)];
            EvalErased(fw, table, rules', p, depth - 1);
            var sub := Eval(fw, table, rules', p, depth - 1);
            if !sub.Decided? {
              EvalErased(fw, table, rest, sub.packet, depth);
            }
          }
        case _ =>
          EvalErased(fw, table, rest, Effect(rules[0].target, p), depth);
      }
    }
  }

  // ---------------------------------------------------------------- recording with and without tracing

  /** An append, or an insertion at the head of its chain. */
  predicate AtAnEnd(c: Call) {
    c.InsertCall? ==> c.position == 1
  }

  lemma ScriptAtEnds(trace: bool, calls: seq<Call>, x: Command)
    requires forall c :: c in calls ==> AtAnEnd(c)
    requires x in Script(trace, calls)
    ensures x.AppendTo? || (x.InsertAt? && x.position == 1)
  {
    FlatMapMember(calls, CommandsOf(trace), x);
  }

  lemma AtEndsFits(id: ChainId, rules: seq<Rule>, trace: bool, calls: seq<Call>)
    requires forall c :: c in calls ==> AtAnEnd(c)
    ensures ChainAfter(id, rules, Script(trace, calls)).Some?
  {
    forall x | x in Script(trace, calls) ensures x.AppendTo? || (x.InsertAt? && x.position == 1) {
      ScriptAtEnds(trace, calls, x);
    }
    ChainAfterFits(id, rules, Script(trace, calls));
  }

  /** What one call does to a chain, its logging rule included. */
  lemma OneCall(id: ChainId, rules: seq<Rule>, trace: bool, c: Call)
    requires AtAnEnd(c)
    ensures ChainAfter(id, rules, CallCommands(trace, c)) ==
            Some(if CallId(c) != id then rules
                 else if c.AppendCall? then rules + LogOf(trace, c) + [c.rule]
                 else LogOf(trace, c) + [c.rule] + rules)
  {
    var script := CallCommands(trace, c);
    if CallId(c) != id {
      ElsewhereAfter(id, rules, script);
    } else if Traced(trace, c) {
      var log := LogRule(c.command, c.rule);
      assert Inserted(rules, 1, c.rule) == [c.rule] + rules;
      assert Inserted([c.rule] + rules, 1, log) == [log] + [c.rule] + rules;
      TwoCommands(id, rules, script);
    } else {
      assert rules + [] == rules && [] + [c.rule] == [c.rule];
      assert Inserted(rules, 1, c.rule) == [c.rule] + rules;
      assert script == [script[0]];
    }
  }

  lemma TwoCommands(id: ChainId, rules: seq<Rule>, script: seq<Command>)
    requires |script| == 2
    ensures ChainAfter(id, rules, script) ==
            var mid := ChainAfter(id, rules, script[..1]);
            if mid.None? then None else ChainAfter(id, mid.value, script[1..])
  {
    ChainAfterConcat(id, rules, script[..1], script[1..]);
    assert script == script[..1] + script[1..];
  }

  /** The logging rule recorded with a call. */
  function LogOf(trace: bool, c: Call): seq<Rule> {
    if Traced(trace, c) then [LogRule(c.command, c.rule)] else []
  }

  lemma OneCallErased(id: ChainId, traced: seq<Rule>, plain: seq<Rule>, c: Call)
    requires AtAnEnd(c) && Erase(traced) == Erase(plain)
    ensures ChainAfter(id, traced, CallCommands(true, c)).Some? && ChainAfter(id, plain, CallCommands(false, c)).Some?
    ensures Erase(ChainAfter(id, traced, CallCommands(true, c)).value) == Erase(ChainAfter(id, plain, CallCommands(false, c)).value)
  {
    OneCall(id, traced, true, c);
    OneCall(id, plain, false, c);
    assert LogOf(false, c) == [];
    LogErased(c);
    if c.AppendCall? {
      ErasedAppend(traced, plain, LogOf(true, c), c.rule);
    } else {
      ErasedPrepend(traced, plain, LogOf(true, c), c.rule);
    }
  }

  lemma LogErased(c: Call)
    ensures Erase(LogOf(true, c)) == []
  {
  }

  lemma ErasedAppend(traced: seq<Rule>, plain: seq<Rule>, log: seq<Rule>, r: Rule)
    requires Erase(traced) == Erase(plain) && Erase(log) == []
    ensures Erase(traced + log + [r]) == Erase(plain + [] + [r])
  {
    EraseConcat(traced + log, [r]);
    EraseConcat(traced, log);
    EraseConcat(plain, [r]);
    assert plain + [] == plain;
  }

  lemma ErasedPrepend(traced: seq<Rule>, plain: seq<Rule>, log: seq<Rule>, r: Rule)
    requires Erase(traced) == Erase(plain) && Erase(log) == []
    ensures Erase(log + [r] + traced) == Erase([] + [r] + plain)
  {
    EraseConcat(log + [r], traced);
    ErasedFirst(log, r);
    EraseConcat([] + [r], plain);
  }

  lemma ErasedFirst(log: seq<Rule>, r: Rule)
    requires Erase(log) == []
    ensures Erase(log + [r]) == Erase([] + [r])
  {
    EraseConcat(log, [r]);
    EraseConcat([], [r]);
  }

  /**
   Any appends and insertions at the head leave every chain the same, up to logging rules, whether or
   not they are traced.
   */
  lemma {:induction false} CallsErased(id: ChainId, rules: seq<Rule>, calls: seq<Call>)
    requires forall c :: c in calls ==> AtAnEnd(c)
    ensures ChainAfter(id, rules, Script(true, calls)).Some? && ChainAfter(id, rules, Script(false, calls)).Some?
    ensures Erase(ChainAfter(id, rules, Script(true, calls)).value) == Erase(ChainAfter(id, rules, Script(false, calls)).value)
  {
    AtEndsFits(id, rules, true, calls);
    AtEndsFits(id, rules, false, calls);
    if calls != [] {
      var front, last := calls[..|calls| - 1], calls[|calls| - 1];
      CallsErased(id, rules, front);
      ChainAfterConcat(id, rules, Script(true, front), CallCommands(true, last));
      ChainAfterConcat(id, rules, Script(false, front), CallCommands(false, last));
      OneCallErased(id, ChainAfter(id, rules, Script(true, front)).value, ChainAfter(id, rules, Script(false, front)).value, last);
    }
  }

  /** An insertion at the head commutes with erasing. */
  lemma HeadInsertErased(x: seq<Rule>, y: seq<Rule>, r: Rule)
    requires Erase(x) == Erase(y)
    ensures Erase(Inserted(x, 1, r)) == Erase(Inserted(y, 1, r))
  {
    assert Inserted(x, 1, r) == [r] + x && Inserted(y, 1, r) == [r] + y;
    EraseConcat([r], x);
    EraseConcat([r], y);
  }

  function LogRules(n: nat): seq<Rule> {
    if n == 0 then [] else [Rule([], NfLog(""))] + LogRules(n - 1)
  }

  lemma {:induction false} LogRulesErased(n: nat)
    ensures |LogRules(n)| == n && Erase(LogRules(n)) == []
  {
    if n > 0 {
      LogRulesErased(n - 1);
      assert LogRules(n)[1..] == LogRules(n - 1);
    }
  }

  /** For every position below the head two chains that differ in logging rules, and in more after the insertion. */
  lemma DeeperInsertErased(k: nat, a: Rule, b: Rule)
    requires k >= 2 && !a.target.NfLog? && !b.target.NfLog? && a != b
    ensures var x, y := LogRules(k - 1) + [a], [a] + LogRules(k - 1);
            && |x| == |y| == k && Erase(x) == Erase(y) == [a]
            && Erase(Inserted(x, k, b)) == [b, a] && Erase(Inserted(y, k, b)) == [a, b]
  {
    var logs := LogRules(k - 1);
    LogRulesErased(k - 1);
    EraseOne(a);
    EraseConcat(logs, [a]);
    EraseConcat([a], logs);
    ErasePair(b, a);
    assert Inserted(logs + [a], k, b) == logs + [b, a];
    EraseConcat(logs, [b, a]);
    LogRulesErased(k - 2);
    InsertedBehind(k, a, b);
    EraseConcat([a] + LogRules(k - 2), [b] + [Rule([], NfLog(""))]);
    EraseConcat([a], LogRules(k - 2));
    EraseConcat([b], [Rule([], NfLog(""))]);
    EraseOne(b);
    LogRulesErased(1);
    assert LogRules(1) == [Rule([], NfLog(""))];
  }

  lemma EraseOne(r: Rule)
    requires !r.target.NfLog?
    ensures Erase([r]) == [r]
  {
    assert [r][1..] == [];
  }

  lemma {:induction false} LogRulesPush(n: nat)
    ensures LogRules(n) + [Rule([], NfLog(""))] == LogRules(n + 1)
  {
    if n > 0 {
      LogRulesPush(n - 1);
    }
  }

  lemma InsertedBehind(k: nat, a: Rule, b: Rule)
    requires k >= 2
    ensures |LogRules(k - 1)| == k - 1
    ensures Inserted([a] + LogRules(k - 1), k, b) == [a] + LogRules(k - 2) + ([b] + [Rule([], NfLog(""))])
  {
    LogRulesErased(k - 1);
    LogRulesErased(k - 2);
    LogRulesPush(k - 2);
    var log := Rule([], NfLog(""));
    assert [a] + LogRules(k - 1) == [a] + LogRules(k - 2) + [log];
  }

  /** Inserting keeps chains that differ only in logging rules so exactly at the head. */
  lemma HeadInsertsExactly(k: nat)
    requires k >= 1
    ensures (forall x, y, r {:trigger Inserted(x, k, r), Inserted(y, k, r)} ::
               k - 1 <= |x| && k - 1 <= |y| && Erase(x) == Erase(y) ==> Erase(Inserted(x, k, r)) == Erase(Inserted(y, k, r))) <==>
            k == 1
  {
    if k == 1 {
      forall x, y, r | Erase(x) == Erase(y) ensures Erase(Inserted(x, 1, r)) == Erase(Inserted(y, 1, r)) {
        HeadInsertErased(x, y, r);
      }
    } else {
      var a, b := Rule([], Return), Rule([], Accept);
      DeeperInsertErased(k, a, b);
      assert [b, a][0] != [a, b][0];
    }
  }

  /** Further down a chain an insertion counts logging rules too, and lands elsewhere. */
  lemma DeeperInsertsDiffer(id: ChainId, a: Rule, b: Rule)
    requires !a.target.NfLog? && !b.target.NfLog? && a != b
    ensures Erase(AppendThenInsert(id, true, a, b)) == [b, a]
    ensures Erase(AppendThenInsert(id, false, a, b)) == [a, b]
  {
    var first := AppendCall(JUMP_OUTBOUND, id.chain, id.table, a);
    var log := LogRule(JUMP_OUTBOUND, a);
    OneCall(id, [], true, first);
    OneCall(id, [], false, first);
    assert [] + [log] + [a] == [log, a] && [] + [] + [a] == [a];
    assert Inserted([log, a], 2, b) == [log] + [b, a] && Inserted([a], 2, b) == [a, b];
    EraseConcat([log], [b, a]);
    ErasePair(b, a);
    ErasePair(a, b);
  }

  /** A fresh chain after an append, which is traced if anything is, and an insertion at position 2. */
  function AppendThenInsert(id: ChainId, trace: bool, a: Rule, b: Rule): seq<Rule> {
    var mid := ChainAfter(id, [], CallCommands(trace, AppendCall(JUMP_OUTBOUND, id.chain, id.table, a)));
    if mid.None? || mid.value == [] then [] else Inserted(mid.value, 2, b)
  }

  lemma ErasePair(a: Rule, b: Rule)
    requires !a.target.NfLog? && !b.target.NfLog?
    ensures Erase([a, b]) == [a, b]
  {
    assert [a, b][1..] == [b] && [b][1..] == [];
    assert Erase([b]) == [b];
  }

  // ---------------------------------------------------------------- the run

  lemma HeadAtEnds(s: Setup, fam: Family, c: Call)
    requires c in FlatMap(Head(), CallsOf(s, fam))
    ensures AtAnEnd(c)
  {
    HeadCall(s, fam, c);
  }

  /** The last insertions are not traced, so they put the same rules in front either way. */
  lemma TailErased(id: ChainId, traced: seq<Rule>, plain: seq<Rule>, s: Setup, fam: Family)
    requires Erase(traced) == Erase(plain)
    ensures var tail := PhaseCalls(s, fam, TproxyReturns);
            && ChainAfter(id, traced, Script(true, tail)).Some? && ChainAfter(id, plain, Script(false, tail)).Some?
            && Erase(ChainAfter(id, traced, Script(true, tail)).value) == Erase(ChainAfter(id, plain, Script(false, tail)).value)
  {
    TailFits(id, traced, s, fam, true);
    TailFits(id, plain, s, fam, false);
    if s.cfg.UsesTproxy() {
      TailScript(s.cfg, fam, true);
      TailScript(s.cfg, fam, false);
      if id == ChainId(MANGLE, ISTIO_INBOUND) {
        var a, b, c := MarkedInboundRule(s.cfg.inboundTProxyMark), FromPassthroughRule(PassthroughSource(fam)), UnmarkedLoopbackRule();
        ThreeInserts(id, traced, a, b, c);
        ThreeInserts(id, plain, a, b, c);
        EraseConcat([a, b, c], traced);
        EraseConcat([a, b, c], plain);
      } else {
        ElsewhereAfter(id, traced, Script(true, TproxyInserts(s.cfg, fam)));
        ElsewhereAfter(id, plain, Script(false, TproxyInserts(s.cfg, fam)));
      }
    }
  }

  lemma RunErased(id: ChainId, rules: seq<Rule>, s: Setup, fam: Family)
    ensures var calls := RunCalls(s, fam);
            && ChainAfter(id, rules, Script(true, calls)).Some? && ChainAfter(id, rules, Script(false, calls)).Some?
            && Erase(ChainAfter(id, rules, Script(true, calls)).value) == Erase(ChainAfter(id, rules, Script(false, calls)).value)
  {
    var head, tail := FlatMap(Head(), CallsOf(s, fam)), PhaseCalls(s, fam, TproxyReturns);
    forall c | c in head ensures AtAnEnd(c) {
      HeadAtEnds(s, fam, c);
    }
    CallsErased(id, rules, head);
    RunSplit(s, fam);
    SplitScript(id, rules, true, head, tail);
    SplitScript(id, rules, false, head, tail);
    TailErased(id, ChainAfter(id, rules, Script(true, head)).value, ChainAfter(id, rules, Script(false, head)).value, s, fam);
  }

  lemma SplitScript(id: ChainId, rules: seq<Rule>, trace: bool, a: seq<Call>, b: seq<Call>)
    ensures ChainAfter(id, rules, Script(trace, a + b)) ==
            var mid := ChainAfter(id, rules, Script(trace, a));
            if mid.None? then None else ChainAfter(id, mid.value, Script(trace, b))
  {
    FlatMapConcat(a, b, CommandsOf(trace));
    ChainAfterConcat(id, rules, Script(trace, a), Script(trace, b));
  }

  // ---------------------------------------------------------------- tracing changes nothing else

  function Retraced(s: Setup, trace: bool): Setup {
    s.(cfg := s.cfg.(traceLogging := trace))
  }

  lemma SegmentRetraced(s: Setup, fam: Family, trace: bool, segment: Segment)
    ensures SegmentRules(Retraced(s, trace), fam, segment) == SegmentRules(s, fam, segment)
  {
  }

  lemma OutputRetraced(s: Setup, fam: Family, trace: bool)
    ensures OutputRules(Retraced(s, trace), fam) == OutputRules(s, fam)
  {
    forall segment | segment in Segments() ensures RulesOf(Retraced(s, trace), fam)(segment) == RulesOf(s, fam)(segment) {
      SegmentRetraced(s, fam, trace, segment);
    }
    FlatMapSame(Segments(), RulesOf(Retraced(s, trace), fam), RulesOf(s, fam));
  }

  lemma PhaseRetraced(s: Setup, fam: Family, trace: bool, phase: Phase)
    ensures PhaseCalls(Retraced(s, trace), fam, phase) == PhaseCalls(s, fam, phase)
  {
    if phase == OutputChain {
      OutputRetraced(s, fam, trace);
      OutputPhase(s, fam);
      OutputPhase(Retraced(s, trace), fam);
    } else {
      OtherPhaseRetraced(s, fam, trace, phase);
    }
  }

  lemma OtherPhaseRetraced(s: Setup, fam: Family, trace: bool, phase: Phase)
    requires phase != OutputChain
    ensures PhaseCalls(Retraced(s, trace), fam, phase) == PhaseCalls(s, fam, phase)
  {
  }

  /** Whether tracing is on does not influence which calls a run makes. */
  lemma CallsRetraced(s: Setup, fam: Family, trace: bool)
    ensures RunCalls(Retraced(s, trace), fam) == RunCalls(s, fam)
  {
    forall phase | phase in Phases() ensures CallsOf(Retraced(s, trace), fam)(phase) == CallsOf(s, fam)(phase) {
      PhaseRetraced(s, fam, trace, phase);
    }
    FlatMapSame(Phases(), CallsOf(Retraced(s, trace), fam), CallsOf(s, fam));
  }

  // ---------------------------------------------------------------- the theorem

  predicate Enabled(s: Setup, fam: Family) {
    fam.V4? || s.cfg.enableInboundIPv6
  }

  /** The firewall a host has after running the script of a run. */
  ghost predicate Installed(fw: Firewall, s: Setup, fam: Family, fw': Firewall) {
    ExecLines(fw, Arguments(BuildLines("iptables", RunEntries(s, fam)))) == Some(fw')
  }

  /** The chains after a run, one by one. */
  lemma InstalledChains(fw: Firewall, s: Setup, fam: Family, fw': Firewall)
    requires Host(fw) && Enabled(s, fam) && Installed(fw, s, fam, fw')
    ensures LogsReadably(s.cfg.traceLogging, RunCalls(s, fam))
    ensures fw'.Keys == fw.Keys + RunChains(s.cfg)
    ensures forall id :: id in fw' ==> Some(fw'[id]) == ChainAfter(id, Before(fw, id), Script(s.cfg.traceLogging, RunCalls(s, fam)))
  {
    RunSucceeds(fw, s, fam, "iptables");
    CallsInstallable(fw, s, fam, s.cfg.traceLogging);
    Installs(fw, "iptables", s.cfg.traceLogging, RunCalls(s, fam));
    RunCreates(s, fam);
  }

  /**
   Tracing is transparent: the firewall installed with tracing is, with its logging rules erased, the
   one installed without, and does the same to every packet in every chain.
   */
  lemma TracingTransparent(fw: Firewall, s: Setup, fam: Family, traced: Firewall, plain: Firewall)
    requires Host(fw) && Enabled(s, fam)
    requires Installed(fw, Retraced(s, true), fam, traced) && Installed(fw, Retraced(s, false), fam, plain)
    ensures Erased(traced) == Erased(plain)
    ensures forall id, p, depth :: id in traced ==> id in plain && Treated(traced, id, p, depth) == Treated(plain, id, p, depth)
  {
    CallsRetraced(s, fam, true);
    CallsRetraced(s, fam, false);
    InstalledChains(fw, Retraced(s, true), fam, traced);
    InstalledChains(fw, Retraced(s, false), fam, plain);
    forall id | id in traced ensures Erase(traced[id]) == Erase(plain[id]) {
      RunErased(id, Before(fw, id), s, fam);
    }
    SameVerdicts(traced, plain);
  }

  lemma SameVerdicts(traced: Firewall, plain: Firewall)
    requires traced.Keys == plain.Keys && forall id :: id in traced ==> Erase(traced[id]) == Erase(plain[id])
    ensures Erased(traced) == Erased(plain)
    ensures forall id, p, depth :: id in traced ==> Treated(traced, id, p, depth) == Treated(plain, id, p, depth)
  {
    assert Erased(traced) == Erased(plain);
    forall id, p, depth | id in traced ensures Treated(traced, id, p, depth) == Treated(plain, id, p, depth) {
      EvalErased(traced, id.table, traced[id], p, depth);
      EvalErased(plain, id.table, plain[id], p, depth);
    }
  }

  // ---------------------------------------------------------------- what is logged

  /** The prefixes under which a packet is logged on its way through some rules. */
  ghost function Reports(fw: Firewall, table: string, rules: seq<Rule>, p: Packet, depth: nat): seq<string>
    decreases depth, |rules|
  {
    if rules == [] then
      []
    else if !Matches(rules[0].conds, p) then
      Reports(fw, table, rules[1..], p, depth)
    else
      var t := rules[0].target;
      if t.NfLog? then
        [t.prefix] + Reports(fw, table, rules[1..], p, depth)
      else if Final(t) then
        []
      else if !t.Jump? then
        Reports(fw, table, rules[1..], Effect(t, p), depth)
      else if depth == 0 || ChainId(table, t.chain) !in fw then
        Reports(fw, table, rules[1..], p, depth)
      else
        var sub := Eval(fw, table, fw[ChainId(table, t.chain)], p, depth - 1);
        Reports(fw, table, fw[ChainId(table, t.chain)], p, depth - 1) +
        (if sub.Decided? then [] else Reports(fw, table, rules[1..], sub.packet, depth))
  }

  /** What a traced append adds to a chain logs, under the name of its command in quotes, exactly the packets its rule matches. */
  lemma AppendReports(fw: Firewall, id: ChainId, c: Call, p: Packet, depth: nat)
    requires c.AppendCall? && c.command != UNDEFINED_COMMAND && CallId(c) == id
    ensures var added := ChainAfter(id, [], CallCommands(true, c));
            && added.Some?
            && Reports(fw, id.table, added.value, p, depth) ==
                 if Matches(c.rule.conds, p) then ["\"" + c.command + "\""] + Reports(fw, id.table, [c.rule], p, depth) else []
  {
    OneCall(id, [], true, c);
    var log := LogRule(c.command, c.rule);
    assert [] + [log] + [c.rule] == [log, c.rule] && [log, c.rule][1..] == [c.rule] && [c.rule][1..] == [];
    assert ChainAfter(id, [], CallCommands(true, c)) == Some([log, c.rule]);
    assert !Matches(c.rule.conds, p) ==> Reports(fw, id.table, [c.rule], p, depth) == [];
  }
}
