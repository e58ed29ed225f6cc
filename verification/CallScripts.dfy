/** The commands a list of builder calls comes to, and what running them does to a firewall. */
module CallScripts {
  import opened Optional
  import opened Sequences
  import opened Netfilter
  import opened Commands
  import opened Builder

  // ---------------------------------------------------------------- calls as typed commands

  function CallId(c: Call): ChainId { ChainId(c.table, c.chain) }

  function LogRule(command: string, r: Rule): Rule { Rule(r.conds, NfLog(Quoted(command))) }

  predicate Traced(trace: bool, c: Call) {
    trace && c.command != UNDEFINED_COMMAND
  }

  function CallCommands(trace: bool, c: Call): seq<Command> {
    match c
    case AppendCall(command, _, _, rule) =>
      (if Traced(trace, c) then [AppendTo(CallId(c), LogRule(command, rule))] else []) +
      [AppendTo(CallId(c), rule)]
    case InsertCall(command, _, _, position, rule) =>
      [InsertAt(CallId(c), position, rule)] +
      (if Traced(trace, c) then [InsertAt(CallId(c), position, LogRule(command, rule))] else [])
  }

  function CommandsOf(trace: bool): Call -> seq<Command> {
    (c: Call) => CallCommands(trace, c)
  }

  /** The rule-adding commands of a list of calls. */
  function Script(trace: bool, calls: seq<Call>): seq<Command> {
    FlatMap(calls, CommandsOf(trace))
  }

  // ---------------------------------------------------------------- the recorded tokens mean just that

  /** A call whose tokens can be read back; a value that looks like `-j` would cut a logging rule short. */
  predicate Readable(trace: bool, c: Call) {
    && GoodRule(c.rule.conds, c.rule.target, "")
    && (Traced(trace, c) ==> forall x :: x in c.rule.conds ==> x.test.value != "-j")
  }

  lemma {:induction false} NoJumpToken(conds: seq<Cond>)
    requires forall x :: x in conds ==> x.test.value != "-j"
    ensures "-j" !in CondsTokens(conds)
    decreases |conds|
  {
    if conds != [] {
      assert conds[0] in conds;
      NoJumpToken(conds[1..]);
      assert "-j" !in CondTokens(conds[0]);
    }
  }

  lemma {:induction false} GoodLogRule(conds: seq<Cond>, t: Target, t': Target, proto: string)
    requires GoodRule(conds, t, proto) && t'.NfLog?
    ensures GoodRule(conds, t', proto)
    decreases |conds|
  {
    if conds != [] {
      GoodLogRule(conds[1..], t, t', NextProtocol(conds[0], proto));
    }
  }

  /** Cutting a rule at its `-j` and putting another action there. */
  lemma FirstJump(conds: seq<string>, target: seq<string>, action: seq<string>)
    requires "-j" !in conds && target != [] && target[0] == "-j"
    ensures IndexOf("-j", conds + target) == |conds|
    ensures (conds + target)[..|conds|] + action == conds + action
  {
    IndexOfFirst("-j", conds + target, |conds|);
  }

  lemma TargetStarts(t: Target)
    ensures TargetTokens(t) != [] && TargetTokens(t)[0] == "-j"
  {
  }

  lemma LoggedTokens(c: Call)
    requires Readable(true, c) && c.command != UNDEFINED_COMMAND
    ensures Logged(true, c.command, RuleTokens(c.rule))
    ensures LogParams(c.command, RuleTokens(c.rule)) == RuleTokens(LogRule(c.command, c.rule))
  {
    NoJumpToken(c.rule.conds);
    TargetStarts(c.rule.target);
    var prefix := Quoted(c.command);
    FirstJump(CondsTokens(c.rule.conds), TargetTokens(c.rule.target), LogTokens(prefix));
    LogTarget(prefix);
  }

  lemma LogTarget(prefix: string)
    ensures TargetTokens(NfLog(prefix)) == LogTokens(prefix)
  {
  }

  lemma LoggedOrNot(trace: bool, c: Call)
    requires Readable(trace, c)
    ensures Logged(trace, c.command, RuleTokens(c.rule)) <==> Traced(trace, c)
  {
    if Traced(trace, c) {
      LoggedTokens(c);
    }
  }

  /** The arguments of a rule line, after the command's name. */
  function EntryArgs(e: Entry): seq<string> {
    ["-t", e.table] + e.params
  }

  function ArgsOf(): Entry -> seq<seq<string>> {
    (e: Entry) => [EntryArgs(e)]
  }

  lemma ParseAppend(id: ChainId, r: Rule)
    requires GoodRule(r.conds, r.target, "")
    ensures ParseCommand(["-t", id.table] + (["-A", id.chain] + RuleTokens(r))) == Some(AppendTo(id, r))
  {
    var args := ["-t", id.table] + (["-A", id.chain] + RuleTokens(r));
    ParseRuleTokens(r.conds, r.target, "", "");
    assert args[4..] == RuleTokens(r);
    assert args[0] == "-t" && args[1] == id.table && args[2] == "-A" && args[3] == id.chain;
  }

  lemma ParseInsert(id: ChainId, position: nat, r: Rule)
    requires GoodRule(r.conds, r.target, "")
    ensures ParseCommand(["-t", id.table] + (["-I", id.chain, Decimal(position)] + RuleTokens(r))) == Some(InsertAt(id, position, r))
  {
    var args := ["-t", id.table] + (["-I", id.chain, Decimal(position)] + RuleTokens(r));
    ParseRuleTokens(r.conds, r.target, "", "");
    ParseDecimalOf(position);
    assert args[4..] == [Decimal(position)] + RuleTokens(r);
    assert args[4..][1..] == RuleTokens(r);
    assert args[0] == "-t" && args[1] == id.table && args[2] == "-I" && args[3] == id.chain;
  }

  /** The lines of one call denote its commands. */
  lemma CallDenotes(trace: bool, c: Call)
    requires Readable(trace, c)
    ensures Denote(FlatMap(CallEntries(trace, c), ArgsOf()), CallCommands(trace, c))
  {
    if Traced(trace, c) {
      TracedCallDenotes(c);
    } else {
      LoggedOrNot(trace, c);
      UntracedDenotes(CallId(c), c);
      EntriesOneByOne(CallEntries(trace, c));
    }
  }

  lemma TracedCallDenotes(c: Call)
    requires Readable(true, c) && Traced(true, c)
    ensures Denote(FlatMap(CallEntries(true, c), ArgsOf()), CallCommands(true, c))
  {
    LoggedTokens(c);
    GoodLogRule(c.rule.conds, c.rule.target, NfLog(Quoted(c.command)), "");
    LoggedDenotes(CallId(c), c, LogRule(c.command, c.rule));
  }

  lemma LoggedDenotes(id: ChainId, c: Call, log: Rule)
    requires GoodRule(c.rule.conds, c.rule.target, "") && GoodRule(log.conds, log.target, "") && id == CallId(c)
    requires Logged(true, c.command, RuleTokens(c.rule)) && LogParams(c.command, RuleTokens(c.rule)) == RuleTokens(log)
    ensures Denote(FlatMap(CallEntries(true, c), ArgsOf()),
                   if c.AppendCall? then [AppendTo(id, log), AppendTo(id, c.rule)]
                   else [InsertAt(id, c.position, c.rule), InsertAt(id, c.position, log)])
  {
    TracedDenotes(id, c, log);
    EntriesOneByOne(CallEntries(true, c));
  }

  lemma UntracedDenotes(id: ChainId, c: Call)
    requires GoodRule(c.rule.conds, c.rule.target, "") && id == CallId(c)
    ensures c.AppendCall? ==> ParseCommand(EntryArgs(Entry(c.chain, c.table, ["-A", c.chain] + RuleTokens(c.rule)))) == Some(AppendTo(id, c.rule))
    ensures c.InsertCall? ==>
              ParseCommand(EntryArgs(Entry(c.chain, c.table, ["-I", c.chain, Decimal(c.position)] + RuleTokens(c.rule)))) ==
              Some(InsertAt(id, c.position, c.rule))
  {
    ParseAppend(id, c.rule);
    if c.InsertCall? {
      ParseInsert(id, c.position, c.rule);
    }
  }

  lemma TracedDenotes(id: ChainId, c: Call, log: Rule)
    requires GoodRule(c.rule.conds, c.rule.target, "") && GoodRule(log.conds, log.target, "") && id == CallId(c)
    ensures c.AppendCall? ==>
              && ParseCommand(EntryArgs(Entry(c.chain, c.table, ["-A", c.chain] + RuleTokens(c.rule)))) == Some(AppendTo(id, c.rule))
              && ParseCommand(EntryArgs(Entry(c.chain, c.table, ["-A", c.chain] + RuleTokens(log)))) == Some(AppendTo(id, log))
    ensures c.InsertCall? ==>
              && ParseCommand(EntryArgs(Entry(c.chain, c.table, ["-I", c.chain, Decimal(c.position)] + RuleTokens(c.rule)))) ==
                 Some(InsertAt(id, c.position, c.rule))
              && ParseCommand(EntryArgs(Entry(c.chain, c.table, ["-I", c.chain, Decimal(c.position)] + RuleTokens(log)))) ==
                 Some(InsertAt(id, c.position, log))
  {
    UntracedDenotes(id, c);
    ParseAppend(id, log);
    if c.InsertCall? {
      ParseInsert(id, c.position, log);
    }
  }

  lemma {:induction false} EntriesOneByOne(entries: seq<Entry>)
    ensures |FlatMap(entries, ArgsOf())| == |entries|
    ensures forall i :: 0 <= i < |entries| ==> FlatMap(entries, ArgsOf())[i] == EntryArgs(entries[i])
  {
    if entries != [] {
      EntriesOneByOne(entries[..|entries| - 1]);
    }
  }

  lemma {:induction false} RecordedDenotes(trace: bool, calls: seq<Call>)
    requires forall c :: c in calls ==> Readable(trace, c)
    ensures Denote(FlatMap(Recorded(trace, calls), ArgsOf()), Script(trace, calls))
  {
    if calls != [] {
      var front, last := calls[..|calls| - 1], calls[|calls| - 1];
      RecordedDenotes(trace, front);
      CallDenotes(trace, last);
      FlatMapConcat(Recorded(trace, front), CallEntries(trace, last), ArgsOf());
      DenoteConcat(FlatMap(Recorded(trace, front), ArgsOf()), Script(trace, front),
                   FlatMap(CallEntries(trace, last), ArgsOf()), CallCommands(trace, last));
    }
  }

  // ---------------------------------------------------------------- the chains that get created

  function NewCommands(ids: seq<ChainId>): seq<Command> {
    seq(|ids|, i requires 0 <= i < |ids| => NewChain(ids[i]))
  }

  /** The command lines without the name of the command. */
  function Arguments(lines: seq<seq<string>>): (args: seq<seq<string>>)
    ensures |args| == |lines|
    ensures forall i :: 0 <= i < |lines| && lines[i] != [] ==> args[i] == lines[i][1..]
  {
    seq(|lines|, i requires 0 <= i < |lines| => if lines[i] == [] then [] else lines[i][1..])
  }

  lemma RuleLineArgs(command: string, entries: seq<Entry>)
    ensures Arguments(RuleLines(command, entries)) == FlatMap(entries, ArgsOf())
  {
    EntriesOneByOne(entries);
    forall i | 0 <= i < |entries| ensures Arguments(RuleLines(command, entries))[i] == EntryArgs(entries[i]) {
      var e := entries[i];
      assert RuleLines(command, entries)[i] == [command, "-t", e.table] + e.params;
      assert ([command, "-t", e.table] + e.params)[1..] == ["-t", e.table] + e.params;
    }
  }

  lemma NewLineArgs(command: string, ids: seq<ChainId>)
    ensures Denote(Arguments(NewLines(command, ids)), NewCommands(ids))
  {
    forall i | 0 <= i < |ids| ensures ParseCommand(Arguments(NewLines(command, ids))[i]) == Some(NewChain(ids[i])) {
      assert Arguments(NewLines(command, ids))[i] == ["-t", ids[i].table, "-N", ids[i].chain];
    }
  }

  /** All the lines of a build denote the chain creations followed by the script. */
  lemma BuildDenotes(command: string, trace: bool, calls: seq<Call>)
    requires forall c :: c in calls ==> Readable(trace, c)
    ensures Denote(Arguments(BuildLines(command, Recorded(trace, calls))),
                   NewCommands(NewChains(Recorded(trace, calls))) + Script(trace, calls))
  {
    var entries := Recorded(trace, calls);
    RecordedDenotes(trace, calls);
    RuleLineArgs(command, entries);
    NewLineArgs(command, NewChains(entries));
    DenoteConcat(Arguments(NewLines(command, NewChains(entries))), NewCommands(NewChains(entries)),
                 FlatMap(entries, ArgsOf()), Script(trace, calls));
    ArgumentsConcat(NewLines(command, NewChains(entries)), RuleLines(command, entries));
  }

  lemma ArgumentsConcat(a: seq<seq<string>>, b: seq<seq<string>>)
    ensures Arguments(a + b) == Arguments(a) + Arguments(b)
  {
  }
}
