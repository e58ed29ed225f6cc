/** The two renderings of what a builder recorded agree, and exactly how far. */
module RestoreTheorems {
  import opened Optional
  import opened Sequences
  import opened Netfilter
  import opened Commands
  import opened Builder
  import opened CallScripts
  import opened Install
  import opened Tracing
  import opened Restore
  import Text

  // ---------------------------------------------------------------- what the restore file says

  /** The logging rule as read from the file, where the quotes around its prefix are taken off. */
  function ReadLogRule(command: string, r: Rule): Rule { Rule(r.conds, NfLog(command)) }

  function RestoreCommands(trace: bool, c: Call): seq<Command> {
    match c
    case AppendCall(command, _, _, rule) =>
      (if Traced(trace, c) then [AppendTo(CallId(c), ReadLogRule(command, rule))] else []) +
      [AppendTo(CallId(c), rule)]
    case InsertCall(command, _, _, position, rule) =>
      [InsertAt(CallId(c), position, rule)] +
      (if Traced(trace, c) then [InsertAt(CallId(c), position, ReadLogRule(command, rule))] else [])
  }

  function RestoreCommandsOf(trace: bool): Call -> seq<Command> {
    (c: Call) => RestoreCommands(trace, c)
  }

  function RestoreScript(trace: bool, calls: seq<Call>): seq<Command> {
    FlatMap(calls, RestoreCommandsOf(trace))
  }

  /** A name that is read back from between quotes. */
  predicate PlainName(name: string) {
    Plain(name) && '\\' !in name
  }

  /** Every token of the call is a word that needs no quoting. */
  predicate PlainTokens(c: Call) {
    && Plain(c.table) && Plain(c.chain)
    && forall token :: token in RuleTokens(c.rule) ==> Plain(token)
  }

  /** And so is its name, if that is logged. */
  predicate PlainCall(trace: bool, c: Call) {
    PlainTokens(c) && (Traced(trace, c) ==> PlainName(c.command))
  }

  // ---------------------------------------------------------------- the text of one entry

  ghost predicate TextMeans(e: Entry, x: Command) {
    e.table == x.id.table && Means(e.table, RuleText()(e), x)
  }

  lemma EntryMeans(e: Entry, words: seq<string>, x: Command)
    requires |e.params| == |words| && words != [] && e.params[0] == words[0] && words[0] != "" && words[0][0] == '-'
    requires forall i :: 0 <= i < |words| ==> Written(e.params[i], words[i])
    requires e.table == x.id.table && ParseCommand(["-t", e.table] + words) == Some(x)
    ensures TextMeans(e, x)
  {
    WordsOfJoin(e.params, words);
    var text := Text.Join(e.params, ' ');
    assert text[0] == '-';
  }

  lemma PlainMeans(e: Entry, x: Command)
    requires e.params != [] && e.params[0] != "" && e.params[0][0] == '-'
    requires forall p :: p in e.params ==> Plain(p)
    requires e.table == x.id.table && ParseCommand(EntryArgs(e)) == Some(x)
    ensures TextMeans(e, x)
  {
    forall i | 0 <= i < |e.params| ensures Written(e.params[i], e.params[i]) {
      assert e.params[i] in e.params;
    }
    EntryMeans(e, e.params, x);
  }

  lemma PlainDecimal(n: nat)
    ensures Plain(Decimal(n))
    ensures forall c :: c in Decimal(n) ==> '0' <= c <= '9'
  {
  }

  lemma PlainFlags()
    ensures Plain("-A") && Plain("-I") && Plain("-N")
  {
  }

  /** The entry of a call's own rule. */
  lemma RuleMeans(c: Call)
    requires GoodRule(c.rule.conds, c.rule.target, "") && PlainTokens(c)
    ensures c.AppendCall? ==> TextMeans(Entry(c.chain, c.table, ["-A", c.chain] + RuleTokens(c.rule)), AppendTo(CallId(c), c.rule))
    ensures c.InsertCall? ==>
              TextMeans(Entry(c.chain, c.table, ["-I", c.chain, Decimal(c.position)] + RuleTokens(c.rule)),
                        InsertAt(CallId(c), c.position, c.rule))
  {
    UntracedDenotes(CallId(c), c);
    PlainFlags();
    if c.AppendCall? {
      PlainMeans(Entry(c.chain, c.table, ["-A", c.chain] + RuleTokens(c.rule)), AppendTo(CallId(c), c.rule));
    } else {
      PlainDecimal(c.position);
      PlainMeans(Entry(c.chain, c.table, ["-I", c.chain, Decimal(c.position)] + RuleTokens(c.rule)),
                 InsertAt(CallId(c), c.position, c.rule));
    }
  }

  /** The tokens of a logging rule are written with a quoted prefix and read without. */
  lemma LogWritten(c: Call)
    requires Readable(true, c) && c.command != UNDEFINED_COMMAND && PlainTokens(c) && PlainName(c.command)
    ensures var tokens, words := LogParams(c.command, RuleTokens(c.rule)), RuleTokens(ReadLogRule(c.command, c.rule));
            |tokens| == |words| && forall i :: 0 <= i < |tokens| ==> Written(tokens[i], words[i])
  {
    LoggedTokens(c);
    LogTarget(Quoted(c.command));
    LogTarget(c.command);
    LogTokensWritten(c.command);
    var conds := CondsTokens(c.rule.conds);
    forall i | 0 <= i < |conds| ensures Written(conds[i], conds[i]) {
      assert RuleTokens(c.rule)[i] in RuleTokens(c.rule);
    }
  }

  lemma PlainLogWords()
    ensures Plain("-j") && Plain("NFLOG") && Plain("--nflog-prefix") && Plain("--nflog-group")
    ensures Plain("1337") && Plain("--nflog-size") && Plain("20")
  {
  }

  lemma LogTokensWritten(command: string)
    requires PlainName(command)
    ensures var tokens, words := LogTokens(Quoted(command)), LogTokens(command);
            forall i :: 0 <= i < |tokens| ==> Written(tokens[i], words[i])
  {
    PlainLogWords();
  }

  lemma PrefixMeans(e: Entry, head: seq<string>, tokens: seq<string>, words: seq<string>, x: Command)
    requires e.params == head + tokens && head != [] && head[0] != "" && head[0][0] == '-'
    requires |tokens| == |words| && forall i :: 0 <= i < |words| ==> Written(tokens[i], words[i])
    requires forall h :: h in head ==> Plain(h)
    requires e.table == x.id.table && ParseCommand(["-t", e.table] + (head + words)) == Some(x)
    ensures TextMeans(e, x)
  {
    EntryMeans(e, head + words, x);
  }

  /** A rule written with some token quoted, as an append and as an insertion. */
  lemma WrittenMeans(id: ChainId, position: nat, r: Rule, tokens: seq<string>)
    requires GoodRule(r.conds, r.target, "") && Plain(id.chain) && |tokens| == |RuleTokens(r)|
    requires forall i :: 0 <= i < |tokens| ==> Written(tokens[i], RuleTokens(r)[i])
    ensures TextMeans(Entry(id.chain, id.table, ["-A", id.chain] + tokens), AppendTo(id, r))
    ensures TextMeans(Entry(id.chain, id.table, ["-I", id.chain, Decimal(position)] + tokens), InsertAt(id, position, r))
  {
    PlainFlags();
    PlainDecimal(position);
    ParseAppend(id, r);
    PrefixMeans(Entry(id.chain, id.table, ["-A", id.chain] + tokens), ["-A", id.chain], tokens, RuleTokens(r), AppendTo(id, r));
    ParseInsert(id, position, r);
    PrefixMeans(Entry(id.chain, id.table, ["-I", id.chain, Decimal(position)] + tokens), ["-I", id.chain, Decimal(position)],
                tokens, RuleTokens(r), InsertAt(id, position, r));
  }

  lemma LogMeans(c: Call)
    requires Readable(true, c) && c.command != UNDEFINED_COMMAND && PlainTokens(c) && PlainName(c.command)
    ensures var tokens, id, log := LogParams(c.command, RuleTokens(c.rule)), CallId(c), ReadLogRule(c.command, c.rule);
            && TextMeans(Entry(c.chain, c.table, ["-A", c.chain] + tokens), AppendTo(id, log))
            && (c.InsertCall? ==>
                  TextMeans(Entry(c.chain, c.table, ["-I", c.chain, Decimal(c.position)] + tokens), InsertAt(id, c.position, log)))
  {
    GoodLogRule(c.rule.conds, c.rule.target, NfLog(c.command), "");
    LogWritten(c);
    WrittenMeans(CallId(c), if c.InsertCall? then c.position else 1, ReadLogRule(c.command, c.rule),
                 LogParams(c.command, RuleTokens(c.rule)));
  }

  ghost predicate AllTextMean(entries: seq<Entry>, script: seq<Command>) {
    |entries| == |script| && forall i :: 0 <= i < |entries| ==> TextMeans(entries[i], script[i])
  }

  lemma TwoTexts(a: Entry, x: Command, b: Entry, y: Command)
    requires TextMeans(a, x) && TextMeans(b, y)
    ensures AllTextMean([a] + [b], [x] + [y])
  {
  }

  lemma TracedTexts(c: Call)
    requires Readable(true, c) && c.command != UNDEFINED_COMMAND && PlainTokens(c) && PlainName(c.command)
    ensures AllTextMean(CallEntries(true, c), RestoreCommands(true, c))
  {
    var id, tokens, log := CallId(c), LogParams(c.command, RuleTokens(c.rule)), ReadLogRule(c.command, c.rule);
    RuleMeans(c);
    LogMeans(c);
    LoggedOrNot(true, c);
    if c.AppendCall? {
      TwoTexts(Entry(c.chain, c.table, ["-A", c.chain] + tokens), AppendTo(id, log),
               Entry(c.chain, c.table, ["-A", c.chain] + RuleTokens(c.rule)), AppendTo(id, c.rule));
    } else {
      TwoTexts(Entry(c.chain, c.table, ["-I", c.chain, Decimal(c.position)] + RuleTokens(c.rule)), InsertAt(id, c.position, c.rule),
               Entry(c.chain, c.table, ["-I", c.chain, Decimal(c.position)] + tokens), InsertAt(id, c.position, log));
    }
  }

  lemma CallTexts(trace: bool, c: Call)
    requires Readable(trace, c) && PlainCall(trace, c)
    ensures AllTextMean(CallEntries(trace, c), RestoreCommands(trace, c))
  {
    if Traced(trace, c) {
      TracedTexts(c);
    } else {
      LoggedOrNot(trace, c);
      RuleMeans(c);
    }
  }

  lemma {:induction false} RecordedTexts(trace: bool, calls: seq<Call>)
    requires forall c :: c in calls ==> Readable(trace, c) && PlainCall(trace, c)
    ensures AllTextMean(Recorded(trace, calls), RestoreScript(trace, calls))
  {
    if calls != [] {
      var front, last := calls[..|calls| - 1], calls[|calls| - 1];
      RecordedTexts(trace, front);
      CallTexts(trace, last);
      TextsConcat(Recorded(trace, front), RestoreScript(trace, front), CallEntries(trace, last), RestoreCommands(trace, last));
    }
  }

  lemma TextsConcat(entries: seq<Entry>, script: seq<Command>, entries': seq<Entry>, script': seq<Command>)
    requires AllTextMean(entries, script) && AllTextMean(entries', script')
    ensures AllTextMean(entries + entries', script + script')
  {
  }

  // ---------------------------------------------------------------- the texts of one table

  lemma {:induction false} OnlyPush(table: string, script: seq<Command>, c: Command)
    ensures Only(table, script + [c]) == Only(table, script) + (if c.id.table == table then [c] else [])
  {
    OnlyConcat(table, script, [c]);
    assert [c][1..] == [];
  }

  lemma {:induction false} OnlyConcat(table: string, a: seq<Command>, b: seq<Command>)
    ensures Only(table, a + b) == Only(table, a) + Only(table, b)
    decreases |a|
  {
    if a == [] {
      assert a + b == b;
    } else {
      OnlyConcat(table, a[1..], b);
      OnlyStep(table, a, b);
    }
  }

  lemma OnlyStep(table: string, a: seq<Command>, b: seq<Command>)
    requires a != [] && Only(table, a[1..] + b) == Only(table, a[1..]) + Only(table, b)
    ensures Only(table, a + b) == Only(table, a) + Only(table, b)
  {
    assert (a + b)[1..] == a[1..] + b && (a + b)[0] == a[0];
    var first := if a[0].id.table == table then [a[0]] else [];
    Assoc(first, Only(table, a[1..]), Only(table, b));
  }

  lemma {:induction false} TableEntries(table: string, entries: seq<Entry>, script: seq<Command>)
    requires AllTextMean(entries, script)
    ensures AllMean(table, ValuesAt(entries, TableOfEntry(), RuleText(), table), Only(table, script))
  {
    if entries != [] {
      var n := |entries| - 1;
      TableEntries(table, entries[..n], script[..n]);
      OnlyPush(table, script[..n], script[n]);
      assert script[..n] + [script[n]] == script;
      OneEntry(table, entries, script);
    }
  }

  lemma OneEntry(table: string, entries: seq<Entry>, script: seq<Command>)
    requires AllTextMean(entries, script) && entries != []
    requires var n := |entries| - 1;
             && AllMean(table, ValuesAt(entries[..n], TableOfEntry(), RuleText(), table), Only(table, script[..n]))
             && Only(table, script) == Only(table, script[..n]) + (if script[n].id.table == table then [script[n]] else [])
    ensures AllMean(table, ValuesAt(entries, TableOfEntry(), RuleText(), table), Only(table, script))
  {
    assert TextMeans(entries[|entries| - 1], script[|entries| - 1]);
  }

  lemma NewMeans(id: ChainId)
    requires Plain(id.chain)
    ensures Means(id.table, NewText()(id), NewChain(id))
  {
    var rest := " " + id.chain;
    PlainFlags();
    WordFirst("-N", "-N", rest);
    WordFirst(id.chain, id.chain, "");
    assert id.chain + "" == id.chain && rest[1..] == id.chain;
    assert "-N " + id.chain == "-N" + rest;
    assert ["-N"] + [id.chain] == ["-N", id.chain];
    assert ["-t", id.table] + ["-N", id.chain] == ["-t", id.table, "-N", id.chain];
    assert ("-N " + id.chain)[0] == '-';
  }

  lemma {:induction false} TableChains(table: string, ids: seq<ChainId>)
    requires forall id :: id in ids ==> Plain(id.chain)
    ensures AllMean(table, ValuesAt(ids, TableOfChain(), NewText(), table), Only(table, NewCommands(ids)))
  {
    if ids != [] {
      var n := |ids| - 1;
      TableChains(table, ids[..n]);
      OnlyPush(table, NewCommands(ids[..n]), NewChain(ids[n]));
      assert NewCommands(ids[..n]) + [NewChain(ids[n])] == NewCommands(ids);
      NewMeans(ids[n]);
    }
  }

  /** The whole script: the chains to create, then the rules as read from the file. */
  function FileScript(trace: bool, calls: seq<Call>): seq<Command> {
    NewCommands(NewChains(Recorded(trace, calls))) + RestoreScript(trace, calls)
  }

  lemma PlainChains(trace: bool, calls: seq<Call>)
    requires forall c :: c in calls ==> PlainTokens(c)
    ensures forall id :: id in NewChains(Recorded(trace, calls)) ==> Plain(id.chain) && Plain(id.table)
    ensures forall e :: e in Recorded(trace, calls) ==> Plain(e.table)
  {
    forall e | e in Recorded(trace, calls) ensures Plain(e.table) && Plain(e.chain) {
      CallOfEntry(trace, calls, e);
    }
    forall id | id in NewChains(Recorded(trace, calls)) ensures Plain(id.chain) && Plain(id.table) {
      NewChainsMentioned(Recorded(trace, calls), id);
    }
  }

  lemma TableMeans(trace: bool, calls: seq<Call>, table: string)
    requires forall c :: c in calls ==> Readable(trace, c) && PlainCall(trace, c)
    ensures AllMean(table, TableTexts(table, Recorded(trace, calls)), Only(table, FileScript(trace, calls)))
  {
    var entries := Recorded(trace, calls);
    RecordedTexts(trace, calls);
    TableEntries(table, entries, RestoreScript(trace, calls));
    PlainChains(trace, calls);
    TableChains(table, NewChains(entries));
    OnlyConcat(table, NewCommands(NewChains(entries)), RestoreScript(trace, calls));
  }

  // ---------------------------------------------------------------- the whole file

  lemma ExecBlock(fw: Firewall, entries: seq<Entry>, table: string, script: seq<Command>, rest: seq<string>)
    requires Plain(table) && AllMean(table, TableTexts(table, entries), script)
    ensures ExecRestore(fw, TableBlock(entries)(table) + rest, None) ==
            var mid := Exec(fw, script); if mid.None? then None else ExecRestore(mid.value, rest, None)
  {
    var texts := TableTexts(table, entries);
    if texts == [] {
      assert TableBlock(entries)(table) + rest == rest;
    } else {
      ExecTableLines(fw, table, texts, script, rest);
    }
  }

  lemma ExecTableLines(fw: Firewall, table: string, texts: seq<string>, script: seq<Command>, rest: seq<string>)
    requires Plain(table) && AllMean(table, texts, script)
    ensures ExecRestore(fw, ["* " + table] + texts + ["COMMIT"] + rest, None) ==
            var mid := Exec(fw, script); if mid.None? then None else ExecRestore(mid.value, rest, None)
  {
    var lines := ["* " + table] + texts + ["COMMIT"] + rest;
    TableLine(table);
    assert lines[0] == "* " + table && lines[1..] == texts + ["COMMIT"] + rest;
    ExecTexts(fw, table, texts, script, rest);
  }

  lemma {:induction false} ExecBlocks(fw: Firewall, entries: seq<Entry>, order: seq<string>, script: seq<Command>)
    requires forall t :: t in order ==> Plain(t)
    requires forall t :: AllMean(t, TableTexts(t, entries), Only(t, script))
    ensures ExecRestore(fw, RestoreLines(order, entries), None) == Exec(fw, FlatMap(order, InTableOf(script)))
    decreases |order|
  {
    if order != [] {
      var t, rest := order[0], order[1..];
      assert t in order && forall u :: u in rest ==> u in order;
      FlatMapFirst(order, TableBlock(entries));
      FlatMapFirst(order, InTableOf(script));
      ExecBlock(fw, entries, t, Only(t, script), RestoreLines(rest, entries));
      ExecConcat(fw, Only(t, script), FlatMap(rest, InTableOf(script)));
      var mid := Exec(fw, Only(t, script));
      if mid.Some? {
        ExecBlocks(mid.value, entries, rest, script);
      }
    }
  }

  lemma ScriptTables(trace: bool, calls: seq<Call>, order: seq<string>, x: Command)
    requires forall c :: c in calls ==> Readable(trace, c) && PlainCall(trace, c)
    requires IsTableOrder(order, Recorded(trace, calls)) && x in FileScript(trace, calls)
    ensures x.id.table in order
  {
    var entries := Recorded(trace, calls);
    var ids := NewChains(entries);
    RecordedTexts(trace, calls);
    if x in NewCommands(ids) {
      var i :| 0 <= i < |ids| && x == NewChain(ids[i]);
      NewChainsMentioned(entries, ids[i]);
      var e :| e in entries && e.table == x.id.table;
      assert TableOfEntry()(e) in Keys(entries, TableOfEntry());
    } else {
      var i :| 0 <= i < |entries| && x == RestoreScript(trace, calls)[i];
      assert TextMeans(entries[i], x) && entries[i] in entries;
      assert TableOfEntry()(entries[i]) in Keys(entries, TableOfEntry());
    }
  }

  lemma PlainTables(trace: bool, calls: seq<Call>, order: seq<string>)
    requires forall c :: c in calls ==> PlainTokens(c)
    requires IsTableOrder(order, Recorded(trace, calls))
    ensures forall t :: t in order ==> Plain(t)
  {
    PlainChains(trace, calls);
    assert Plain(FILTER) && Plain(NAT) && Plain(MANGLE);
  }

  /** The file, with its tables in any order, does what its script does command by command. */
  lemma FileRuns(fw: Firewall, trace: bool, calls: seq<Call>, order: seq<string>)
    requires forall c :: c in calls ==> Readable(trace, c) && PlainCall(trace, c)
    requires IsTableOrder(order, Recorded(trace, calls))
    ensures ExecRestore(fw, RestoreLines(order, Recorded(trace, calls)), None) == Exec(fw, FileScript(trace, calls))
  {
    var script := FileScript(trace, calls);
    forall t ensures AllMean(t, TableTexts(t, Recorded(trace, calls)), Only(t, script)) {
      TableMeans(trace, calls, t);
    }
    PlainTables(trace, calls, order);
    ExecBlocks(fw, Recorded(trace, calls), order, script);
    forall x | x in script ensures x.id.table in order {
      ScriptTables(trace, calls, order, x);
    }
    ByTables(fw, order, script);
  }

  // ---------------------------------------------------------------- against the single commands

  lemma {:induction false} SameUntraced(calls: seq<Call>)
    ensures RestoreScript(false, calls) == Script(false, calls)
  {
    FlatMapSame(calls, RestoreCommandsOf(false), CommandsOf(false));
  }

  /**
   Two renderings agree: without tracing the restore file, its tables in any order, gives the firewall
   the single commands give, or fails as they do.
   */
  lemma RenderingsAgree(fw: Firewall, command: string, calls: seq<Call>, order: seq<string>)
    requires forall c :: c in calls ==> Readable(false, c) && PlainCall(false, c)
    requires IsTableOrder(order, Recorded(false, calls))
    ensures ExecRestore(fw, RestoreLines(order, Recorded(false, calls)), None) ==
            ExecLines(fw, Arguments(BuildLines(command, Recorded(false, calls))))
  {
    FileRuns(fw, false, calls, order);
    SameUntraced(calls);
    BuildDenotes(command, false, calls);
    ExecDenoted(fw, Arguments(BuildLines(command, Recorded(false, calls))), FileScript(false, calls));
  }

  // With tracing the two differ in the prefix of the logging rules, and in nothing else.

  predicate AlikeRules(a: Rule, b: Rule) {
    a == b || (a.target.NfLog? && b.target.NfLog?)
  }

  predicate AlikeChains(a: seq<Rule>, b: seq<Rule>) {
    |a| == |b| && forall i :: 0 <= i < |a| ==> AlikeRules(a[i], b[i])
  }

  predicate Alike(a: Firewall, b: Firewall) {
    a.Keys == b.Keys && forall id :: id in a ==> AlikeChains(a[id], b[id])
  }

  predicate AlikeCommands(a: Command, b: Command) {
    match (a, b)
    case (NewChain(i), NewChain(j)) => i == j
    case (AppendTo(i, r), AppendTo(j, q)) => i == j && AlikeRules(r, q)
    case (InsertAt(i, m, r), InsertAt(j, n, q)) => i == j && m == n && AlikeRules(r, q)
    case _ => false
  }

  lemma StepAlike(f: Firewall, g: Firewall, a: Command, b: Command)
    requires Alike(f, g) && AlikeCommands(a, b)
    ensures Step(f, a).Some? <==> Step(g, b).Some?
    ensures Step(f, a).Some? ==> Alike(Step(f, a).value, Step(g, b).value)
  {
    if !a.NewChain? {
      assert TargetExists(f, a.id.table, a.rule.target) <==> TargetExists(g, b.id.table, b.rule.target);
    }
  }

  lemma {:induction false} ExecAlike(f: Firewall, g: Firewall, a: seq<Command>, b: seq<Command>)
    requires Alike(f, g) && |a| == |b| && forall i :: 0 <= i < |a| ==> AlikeCommands(a[i], b[i])
    ensures Exec(f, a).Some? <==> Exec(g, b).Some?
    ensures Exec(f, a).Some? ==> Alike(Exec(f, a).value, Exec(g, b).value)
    decreases |a|
  {
    if a != [] {
      StepAlike(f, g, a[0], b[0]);
      var next := Step(f, a[0]);
      if next.Some? {
        ExecAlike(next.value, Step(g, b[0]).value, a[1..], b[1..]);
      }
    }
  }

  lemma {:induction false} ScriptsAlike(trace: bool, calls: seq<Call>)
    ensures var a, b := Script(trace, calls), RestoreScript(trace, calls);
            |a| == |b| && forall i :: 0 <= i < |a| ==> AlikeCommands(a[i], b[i])
  {
    if calls != [] {
      ScriptsAlike(trace, calls[..|calls| - 1]);
      var c := calls[|calls| - 1];
      var a, b := CallCommands(trace, c), RestoreCommands(trace, c);
      assert |a| == |b| && forall i :: 0 <= i < |a| ==> AlikeCommands(a[i], b[i]);
    }
  }

  lemma {:induction false} AlikeErased(a: seq<Rule>, b: seq<Rule>)
    requires AlikeChains(a, b)
    ensures Erase(a) == Erase(b)
    decreases |a|
  {
    if a != [] {
      AlikeErased(a[1..], b[1..]);
      assert AlikeRules(a[0], b[0]);
    }
  }

  lemma AlikeFile(command: string, trace: bool, calls: seq<Call>, fw: Firewall)
    requires forall c :: c in calls ==> Readable(trace, c)
    ensures var a, b := ExecLines(fw, Arguments(BuildLines(command, Recorded(trace, calls)))), Exec(fw, FileScript(trace, calls));
            (a.Some? <==> b.Some?) && (a.Some? ==> Alike(a.value, b.value))
  {
    var news := NewCommands(NewChains(Recorded(trace, calls)));
    BuildDenotes(command, trace, calls);
    ExecDenoted(fw, Arguments(BuildLines(command, Recorded(trace, calls))), news + Script(trace, calls));
    ScriptsAlike(trace, calls);
    ExecAlike(fw, fw, news + Script(trace, calls), FileScript(trace, calls));
  }

  /**
   With or without tracing both renderings succeed or fail together, and what they leave differs at
   most in logging rules: no packet gets another verdict.
   */
  lemma RenderingsEquivalent(fw: Firewall, command: string, trace: bool, calls: seq<Call>, order: seq<string>)
    requires forall c :: c in calls ==> Readable(trace, c) && PlainCall(trace, c)
    requires IsTableOrder(order, Recorded(trace, calls))
    ensures var restored := ExecRestore(fw, RestoreLines(order, Recorded(trace, calls)), None);
            var executed := ExecLines(fw, Arguments(BuildLines(command, Recorded(trace, calls))));
            && (restored.Some? <==> executed.Some?)
            && (restored.Some? ==>
                  && Erased(restored.value) == Erased(executed.value)
                  && forall id, p, depth :: id in executed.value ==>
                       id in restored.value && Traverse(restored.value, id, p, depth) == Traverse(executed.value, id, p, depth))
  {
    FileRuns(fw, trace, calls, order);
    AlikeFile(command, trace, calls, fw);
    var restored, executed := Exec(fw, FileScript(trace, calls)), ExecLines(fw, Arguments(BuildLines(command, Recorded(trace, calls))));
    if restored.Some? {
      forall id | id in executed.value ensures Erase(executed.value[id]) == Erase(restored.value[id]) {
        AlikeErased(executed.value[id], restored.value[id]);
      }
      SameVerdicts(executed.value, restored.value);
    }
  }

  // The difference is there whenever something was traced.

  predicate AddsRule(x: Command, id: ChainId, r: Rule) {
    Adds(x) && x.id == id && x.rule == r
  }

  lemma StepCount(fw: Firewall, x: Command, id: ChainId, r: Rule)
    requires (x.NewChain? || Adds(x)) && Step(fw, x).Some?
    ensures multiset(Before(Step(fw, x).value, id))[r] == multiset(Before(fw, id))[r] + (if AddsRule(x, id, r) then 1 else 0)
  {
    if x.InsertAt? && x.id == id {
      var rules := fw[id];
      assert rules == rules[..x.position - 1] + rules[x.position - 1..];
    }
  }

  lemma {:induction false} ExecCount(fw: Firewall, script: seq<Command>, id: ChainId, r: Rule)
    requires forall x :: x in script ==> x.NewChain? || Adds(x)
    requires Exec(fw, script).Some?
    ensures var n, m := multiset(Before(fw, id))[r], multiset(Before(Exec(fw, script).value, id))[r];
            n <= m && (m > n <==> exists x :: x in script && AddsRule(x, id, r))
    decreases |script|
  {
    if script != [] {
      var x := script[0];
      assert x in script && forall y :: y in script[1..] ==> y in script;
      StepCount(fw, x, id, r);
      ExecCount(Step(fw, x).value, script[1..], id, r);
      assert forall y :: y in script ==> y == x || y in script[1..];
    }
  }

  lemma OnlyAdditions(trace: bool, calls: seq<Call>, ids: seq<ChainId>)
    ensures forall x :: x in NewCommands(ids) + Script(trace, calls) ==> x.NewChain? || Adds(x)
    ensures forall x :: x in NewCommands(ids) + RestoreScript(trace, calls) ==> x.NewChain? || Adds(x)
  {
    forall x | x in Script(trace, calls) ensures Adds(x) {
      FlatMapMember(calls, CommandsOf(trace), x);
    }
    forall x | x in RestoreScript(trace, calls) ensures Adds(x) {
      FlatMapMember(calls, RestoreCommandsOf(trace), x);
    }
  }

  /** A logging rule with its prefix still quoted comes from the single commands, never from the file. */
  lemma QuotedOnlyExecuted(trace: bool, calls: seq<Call>, c: Call)
    requires forall d :: d in calls ==> PlainCall(trace, d)
    requires c in calls && Traced(trace, c)
    ensures exists x :: x in Script(trace, calls) && AddsRule(x, CallId(c), LogRule(c.command, c.rule))
    ensures forall x :: x in RestoreScript(trace, calls) ==> !AddsRule(x, CallId(c), LogRule(c.command, c.rule))
  {
    var log := LogRule(c.command, c.rule);
    var x := if c.AppendCall? then AppendTo(CallId(c), log) else InsertAt(CallId(c), c.position, log);
    assert x in CommandsOf(trace)(c);
    FlatMapMember(calls, CommandsOf(trace), x);
    assert AddsRule(x, CallId(c), log);
    forall y | y in RestoreScript(trace, calls) ensures !AddsRule(y, CallId(c), log) {
      FlatMapMember(calls, RestoreCommandsOf(trace), y);
      var d :| d in calls && y in RestoreCommandsOf(trace)(d);
      PlainPrefix(d);
    }
  }

  lemma PlainPrefix(d: Call)
    requires PlainTokens(d)
    ensures PlainName(d.command) ==> forall command :: Quoted(command) != d.command
    ensures d.rule.target.NfLog? ==> forall command :: Quoted(command) != d.rule.target.prefix
  {
    forall command ensures Quoted(command)[0] == '"' && Quoted(command)[0] in Quoted(command) {}
    if d.rule.target.NfLog? {
      var tokens := TargetTokens(d.rule.target);
      assert tokens[3] == d.rule.target.prefix && tokens[3] in tokens;
      assert tokens[3] in RuleTokens(d.rule);
    }
  }

  lemma IdenticalExactly(fw: Firewall, command: string, trace: bool, calls: seq<Call>, order: seq<string>)
    requires forall c :: c in calls ==> Readable(trace, c) && PlainCall(trace, c)
    requires IsTableOrder(order, Recorded(trace, calls))
    requires ExecLines(fw, Arguments(BuildLines(command, Recorded(trace, calls)))).Some?
    ensures ExecRestore(fw, RestoreLines(order, Recorded(trace, calls)), None) ==
            ExecLines(fw, Arguments(BuildLines(command, Recorded(trace, calls)))) <==>
            forall c :: c in calls ==> !Traced(trace, c)
  {
    FileRuns(fw, trace, calls, order);
    AlikeFile(command, trace, calls, fw);
    LinesRun(fw, command, trace, calls);
    if c :| c in calls && Traced(trace, c) {
      TracedDiffers(fw, trace, calls, c);
    } else {
      FlatMapSame(calls, RestoreCommandsOf(trace), CommandsOf(trace));
    }
  }

  /** The single commands do what their script does. */
  lemma LinesRun(fw: Firewall, command: string, trace: bool, calls: seq<Call>)
    requires forall c :: c in calls ==> Readable(trace, c)
    ensures ExecLines(fw, Arguments(BuildLines(command, Recorded(trace, calls)))) ==
            Exec(fw, NewCommands(NewChains(Recorded(trace, calls))) + Script(trace, calls))
  {
    BuildDenotes(command, trace, calls);
    ExecDenoted(fw, Arguments(BuildLines(command, Recorded(trace, calls))),
                NewCommands(NewChains(Recorded(trace, calls))) + Script(trace, calls));
  }

  lemma TracedDiffers(fw: Firewall, trace: bool, calls: seq<Call>, c: Call)
    requires forall d :: d in calls ==> PlainCall(trace, d)
    requires c in calls && Traced(trace, c)
    requires Exec(fw, NewCommands(NewChains(Recorded(trace, calls))) + Script(trace, calls)).Some?
    requires Exec(fw, FileScript(trace, calls)).Some?
    ensures Exec(fw, NewCommands(NewChains(Recorded(trace, calls))) + Script(trace, calls)) != Exec(fw, FileScript(trace, calls))
  {
    var ids := NewChains(Recorded(trace, calls));
    var log := LogRule(c.command, c.rule);
    QuotedOnlyExecuted(trace, calls, c);
    OnlyAdditions(trace, calls, ids);
    ExecCount(fw, NewCommands(ids) + Script(trace, calls), CallId(c), log);
    ExecCount(fw, FileScript(trace, calls), CallId(c), log);
  }
}
