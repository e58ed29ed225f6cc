/** Exactly which recorded values come back from the restore file. */
module RestoreExactly {
  import opened Optional
  import opened Sequences
  import opened Netfilter
  import opened Commands
  import opened Builder
  import opened CallScripts
  import opened Install
  import opened Tracing
  import opened Restore
  import opened RestoreTheorems
  import Text

  // ---------------------------------------------------------------- words without quotes

  /** No quotes, and no line break, which would start another line of the file. */
  predicate Quoteless(word: string) {
    forall c :: c in word ==> c != '"' && c != '\n'
  }

  predicate QuotelessCall(trace: bool, c: Call) {
    && Quoteless(c.table) && Quoteless(c.chain)
    && (forall token :: token in RuleTokens(c.rule) ==> Quoteless(token))
    && (Traced(trace, c) ==> PlainName(c.command))
  }

  /** A token without quotes, or a plain name between them. */
  ghost predicate Tame(token: string) {
    Quoteless(token) || exists name :: PlainName(name) && token == Quoted(name)
  }

  lemma PlainQuoteless(word: string)
    requires Plain(word)
    ensures Quoteless(word)
  {
  }

  /** Up to the next blank every word found is plain. */
  lemma {:induction false} ScanToken(x: string, rest: string, word: string)
    requires Quoteless(x) && (word == "" || Plain(word)) && (rest == "" || rest[0] == ' ')
    ensures forall w :: w in Scan(x + rest, word, false, false) ==> Plain(w) || (rest != "" && w in Words(rest[1..]))
    decreases |x|
  {
    if x == "" {
      assert x + rest == rest;
    } else {
      assert x[0] in x && (x + rest)[1..] == x[1..] + rest && forall c :: c in x[1..] ==> c in x;
      if Blank(x[0]) {
        ScanToken(x[1..], rest, "");
      } else {
        ScanToken(x[1..], rest, word + [x[0]]);
      }
    }
  }

  lemma {:induction false} TameWords(tokens: seq<string>)
    requires forall token :: token in tokens ==> Tame(token)
    ensures forall w :: w in Words(Text.Join(tokens, ' ')) ==> Plain(w)
    decreases |tokens|
  {
    if tokens != [] {
      assert tokens[0] in tokens && forall token :: token in tokens[1..] ==> token in tokens;
      TameWords(tokens[1..]);
      var rest := if |tokens| == 1 then "" else [' '] + Text.Join(tokens[1..], ' ');
      assert Text.Join(tokens, ' ') == tokens[0] + rest;
      assert rest != "" ==> rest[1..] == Text.Join(tokens[1..], ' ');
      FirstTame(tokens[0], rest);
    }
  }

  lemma FirstTame(token: string, rest: string)
    requires Tame(token) && (rest == "" || rest[0] == ' ')
    ensures forall w :: w in Words(token + rest) ==> Plain(w) || (rest != "" && w in Words(rest[1..]))
  {
    if Quoteless(token) {
      ScanToken(token, rest, "");
    } else {
      var name :| PlainName(name) && token == Quoted(name);
      WordFirst(token, name, rest);
    }
  }

  // ---------------------------------------------------------------- what a line of the file can do

  const FLAGS := {"-A", "-I", "-N"}

  lemma PlainFlag(flag: string)
    requires flag in FLAGS
    ensures Plain(flag) && flag[0] == '-'
  {
  }

  /** A text that appends, inserts or creates, all in plain words. */
  predicate Harmless(text: string) {
    var words := Words(text);
    text != "" && text[0] == '-' && words != [] && words[0] in FLAGS && forall w :: w in words ==> Plain(w)
  }

  predicate TableHeader(line: string) {
    && line != "" && line[0] == '*'
    && Words(line) != [] && Words(line)[0] == "*"
    && forall w :: w in Words(line[1..]) ==> Plain(w)
  }

  predicate GoodLine(line: string) {
    line == "COMMIT" || Harmless(line) || TableHeader(line)
  }

  lemma TameText(params: seq<string>)
    requires |params| >= 2 && params[0] in FLAGS && forall token :: token in params ==> Tame(token)
    ensures Harmless(Text.Join(params, ' '))
  {
    PlainFlag(params[0]);
    JoinFirst(params);
    FirstFlag(params[0], [' '] + Text.Join(params[1..], ' '));
    TameWords(params);
  }

  lemma JoinFirst(params: seq<string>)
    requires |params| >= 2
    ensures Text.Join(params, ' ') == params[0] + ([' '] + Text.Join(params[1..], ' '))
  {
  }

  lemma FirstFlag(flag: string, rest: string)
    requires Plain(flag) && flag[0] == '-' && rest != "" && rest[0] == ' '
    ensures Words(flag + rest) != [] && Words(flag + rest)[0] == flag && (flag + rest)[0] == '-'
  {
    WordFirst(flag, flag, rest);
  }

  lemma HeaderLine(table: string)
    requires Quoteless(table)
    ensures TableHeader("* " + table)
  {
    var line := "* " + table;
    assert Plain("*");
    assert line == "*" + (" " + table);
    WordFirst("*", "*", " " + table);
    assert (" " + table)[1..] == table && line[1..] == " " + table;
    assert " " + table == "" + (" " + table);
    ScanToken("", " " + table, "");
    ScanToken(table, "", "");
    assert table + "" == table;
  }

  lemma RuleTame(c: Call, trace: bool, token: string)
    requires QuotelessCall(trace, c) && Readable(trace, c)
    requires token in RuleTokens(c.rule) || (Traced(trace, c) && token in LogParams(c.command, RuleTokens(c.rule)))
    ensures Tame(token)
  {
    if token !in RuleTokens(c.rule) {
      LoggedTokens(c);
      LogTarget(Quoted(c.command));
      PlainLogWords();
      forall w | w in {"-j", "NFLOG", "--nflog-prefix", "--nflog-group", "1337", "--nflog-size", "20"} ensures Quoteless(w) {
        PlainQuoteless(w);
      }
      assert token in CondsTokens(c.rule.conds) || token in LogTokens(Quoted(c.command));
    }
  }

  lemma EntryTame(trace: bool, c: Call, e: Entry)
    requires QuotelessCall(trace, c) && Readable(trace, c) && e in CallEntries(trace, c)
    ensures |e.params| >= 2 && e.params[0] in FLAGS && forall token :: token in e.params ==> Tame(token)
    ensures Quoteless(e.table) && Quoteless(e.chain)
  {
    LoggedOrNot(trace, c);
    PlainFlags();
    PlainQuoteless("-A");
    PlainQuoteless("-I");
    var body := if e.params[0] == "-A" then e.params[2..] else e.params[3..];
    if c.InsertCall? {
      PlainDecimal(c.position);
      PlainQuoteless(Decimal(c.position));
    }
    forall token | token in e.params ensures Tame(token) {
      if token in RuleTokens(c.rule) || (Traced(trace, c) && token in LogParams(c.command, RuleTokens(c.rule))) {
        RuleTame(c, trace, token);
      }
    }
  }

  lemma {:induction false} ValuesAtMember<A, K, V>(xs: seq<A>, key: A -> K, value: A -> V, k: K, v: V)
    requires v in ValuesAt(xs, key, value, k)
    ensures exists x :: x in xs && value(x) == v
  {
    if value(xs[|xs| - 1]) != v {
      ValuesAtMember(xs[..|xs| - 1], key, value, k, v);
    }
  }

  lemma TextsHarmless(trace: bool, calls: seq<Call>, table: string, text: string)
    requires forall c :: c in calls ==> Readable(trace, c) && QuotelessCall(trace, c)
    requires text in TableTexts(table, Recorded(trace, calls))
    ensures Harmless(text)
  {
    var entries := Recorded(trace, calls);
    if text in ValuesAt(entries, TableOfEntry(), RuleText(), table) {
      ValuesAtMember(entries, TableOfEntry(), RuleText(), table, text);
      var e :| e in entries && RuleText()(e) == text;
      RecordedTame(trace, calls, e);
      TameText(e.params);
    } else {
      ValuesAtMember(NewChains(entries), TableOfChain(), NewText(), table, text);
      var id :| id in NewChains(entries) && NewText()(id) == text;
      NewChainsMentioned(entries, id);
      var e :| e in entries && e.table == id.table && e.chain == id.chain;
      RecordedTame(trace, calls, e);
      NewTame(id.chain);
    }
  }

  lemma NewTame(chain: string)
    requires Quoteless(chain)
    ensures Harmless("-N " + chain)
  {
    PlainFlags();
    PlainQuoteless("-N");
    TameText(["-N", chain]);
    assert ["-N", chain][1..] == [chain];
    assert Text.Join(["-N", chain], ' ') == "-N" + [' '] + chain;
    assert "-N" + [' '] + chain == "-N " + chain;
  }

  lemma RecordedTame(trace: bool, calls: seq<Call>, e: Entry)
    requires forall c :: c in calls ==> Readable(trace, c) && QuotelessCall(trace, c)
    requires e in Recorded(trace, calls)
    ensures |e.params| >= 2 && e.params[0] in FLAGS && forall token :: token in e.params ==> Tame(token)
    ensures Quoteless(e.table) && Quoteless(e.chain)
  {
    FlatMapMember(calls, EntriesOf(trace), e);
    var c :| c in calls && e in EntriesOf(trace)(c);
    EntryTame(trace, c, e);
  }

  lemma LinesGood(trace: bool, calls: seq<Call>, order: seq<string>, line: string)
    requires forall c :: c in calls ==> Readable(trace, c) && QuotelessCall(trace, c)
    requires IsTableOrder(order, Recorded(trace, calls)) && line in RestoreLines(order, Recorded(trace, calls))
    ensures GoodLine(line)
  {
    var table := BlockOf(order, Recorded(trace, calls), line);
    if line in TableTexts(table, Recorded(trace, calls)) {
      TextsHarmless(trace, calls, table, line);
    } else if line != "COMMIT" {
      TableQuoteless(trace, calls, table);
      HeaderLine(table);
    }
  }

  lemma BlockOf(order: seq<string>, entries: seq<Entry>, line: string) returns (table: string)
    requires IsTableOrder(order, entries) && line in RestoreLines(order, entries)
    ensures table in RestoreTables(entries) && (line in TableTexts(table, entries) || line == "COMMIT" || line == "* " + table)
  {
    FlatMapMember(order, TableBlock(entries), line);
    table :| table in order && line in TableBlock(entries)(table);
  }

  lemma TableQuoteless(trace: bool, calls: seq<Call>, table: string)
    requires forall c :: c in calls ==> Readable(trace, c) && QuotelessCall(trace, c)
    requires table in RestoreTables(Recorded(trace, calls))
    ensures Quoteless(table)
  {
    if table in Keys(Recorded(trace, calls), TableOfEntry()) {
      var e :| e in Recorded(trace, calls) && TableOfEntry()(e) == table;
      RecordedTame(trace, calls, e);
    } else {
      assert Quoteless(FILTER) && Quoteless(NAT) && Quoteless(MANGLE);
    }
  }

  // ---------------------------------------------------------------- what plain words can say

  predicate PlainRule(id: ChainId, r: Rule) {
    Plain(id.table) && Plain(id.chain) && forall token :: token in RuleTokens(r) ==> Plain(token)
  }

  predicate AllPlain(tokens: seq<string>) {
    forall token :: token in tokens ==> Plain(token)
  }

  lemma PlainTest(mod: string, proto: string, option: string, value: string)
    requires ParseTest(mod, proto, option, value).Some? && Plain(value)
    ensures AllPlain(CondTokens(Is(ParseTest(mod, proto, option, value).value)))
    ensures AllPlain(CondTokens(Not(ParseTest(mod, proto, option, value).value)))
  {
    var m := ParseTest(mod, proto, option, value).value;
    PlainOptions(m);
  }

  lemma PlainOptions(m: Match)
    ensures Plain(OptionName(m)) && (ModuleName(m) != "" ==> Plain(ModuleName(m))) && Plain("-m") && Plain("!")
  {
  }

  lemma ParsedValues(toks: seq<string>, proto: string)
    requires toks != [] && ParseTarget(toks, proto).Some?
    ensures forall v :: v in TargetValues(ParseTarget(toks, proto).value) ==> v in toks
  {
  }

  lemma PlainValues(t: Target)
    requires forall v :: v in TargetValues(t) ==> Plain(v)
    ensures AllPlain(TargetTokens(t))
  {
    PlainNames();
    PlainMarkNames();
    PlainTproxyNames();
    PlainLogWords();
  }

  lemma PlainTarget(toks: seq<string>, proto: string)
    requires toks != [] && ParseTarget(toks, proto).Some? && AllPlain(toks)
    ensures AllPlain(TargetTokens(ParseTarget(toks, proto).value))
  {
    ParsedValues(toks, proto);
    PlainValues(ParseTarget(toks, proto).value);
  }

  lemma PlainNames()
    ensures Plain("-j") && Plain("RETURN") && Plain("ACCEPT") && Plain("DROP") && Plain("REDIRECT") && Plain("TPROXY")
  {
  }

  lemma PlainMarkNames()
    ensures Plain("MARK") && Plain("CONNMARK") && Plain("--set-mark") && Plain("--save-mark") && Plain("--restore-mark")
  {
  }

  lemma PlainTproxyNames()
    ensures Plain("--tproxy-mark") && Plain("--on-port") && Plain("CT") && Plain("--zone")
  {
  }

  lemma PlainCons(c: Cond, conds: seq<Cond>, t: Target)
    requires AllPlain(CondTokens(c)) && AllPlain(RuleTokens(Rule(conds, t)))
    ensures AllPlain(RuleTokens(Rule([c] + conds, t)))
  {
    RuleTokensCons([c] + conds, t);
    assert ([c] + conds)[1..] == conds;
  }

  /** A rule read from plain words is written in plain words. */
  lemma {:induction false} ParsedPlain(toks: seq<string>, mod: string, proto: string)
    requires ParseRule(toks, mod, proto).Some? && AllPlain(toks)
    ensures AllPlain(RuleTokens(ParseRule(toks, mod, proto).value))
    decreases |toks|
  {
    var r := ParseRule(toks, mod, proto).value;
    forall i | 0 <= i < |toks| ensures Plain(toks[i]) {
      assert toks[i] in toks;
    }
    if toks[0] == "-m" {
      RestPlain(toks, 2);
      ParsedPlain(toks[2..], toks[1], proto);
    } else if toks[0] == "-j" {
      RestPlain(toks, 1);
      PlainTarget(toks[1..], proto);
      assert RuleTokens(r) == TargetTokens(r.target);
    } else if toks[0] == "!" {
      RestPlain(toks, 3);
      var test := ParseTest(mod, proto, toks[1], toks[2]).value;
      ParsedPlain(toks[3..], mod, NextProtocol(Not(test), proto));
      PlainTest(mod, proto, toks[1], toks[2]);
      PlainCons(Not(test), r.conds[1..], r.target);
    } else {
      RestPlain(toks, 2);
      var test := ParseTest(mod, proto, toks[0], toks[1]).value;
      ParsedPlain(toks[2..], mod, NextProtocol(Is(test), proto));
      PlainTest(mod, proto, toks[0], toks[1]);
      PlainCons(Is(test), r.conds[1..], r.target);
    }
  }

  lemma RestPlain(toks: seq<string>, n: nat)
    requires AllPlain(toks) && n <= |toks|
    ensures AllPlain(toks[n..])
  {
  }

  /** What a harmless text makes the file do. */
  lemma HarmlessRead(table: string, text: string)
    requires Plain(table) && Harmless(text) && ParseCommand(["-t", table] + Words(text)).Some?
    ensures var x := ParseCommand(["-t", table] + Words(text)).value;
            (x.NewChain? || Adds(x)) && (Adds(x) ==> PlainRule(x.id, x.rule))
  {
    var words := Words(text);
    var args := ["-t", table] + words;
    assert args[2] == words[0] && args[3] == words[1] && words[1] in words;
    assert args[4..] == words[2..];
    RestPlain(words, 2);
    if words[0] == "-A" {
      ParsedPlain(words[2..], "", "");
    } else if words[0] == "-I" {
      RestPlain(words[2..], 1);
      ParsedPlain(words[2..][1..], "", "");
    }
  }

  /** The file never adds a rule that is not written in plain words. */
  lemma {:induction false} FileCounts(fw: Firewall, lines: seq<string>, table: Option<string>, id: ChainId, r: Rule)
    requires (forall line :: line in lines ==> GoodLine(line)) && (table.Some? ==> Plain(table.value))
    requires ExecRestore(fw, lines, table).Some? && !PlainRule(id, r)
    ensures multiset(Before(ExecRestore(fw, lines, table).value, id))[r] == multiset(Before(fw, id))[r]
    decreases |lines|
  {
    if lines != [] {
      var line := lines[0];
      assert line in lines && forall l :: l in lines[1..] ==> l in lines;
      if table.None? {
        NotStar(line);
        assert Words(line[1..])[0] in Words(line[1..]);
        FileCounts(fw, lines[1..], Some(Words(line[1..])[0]), id, r);
      } else if line == "COMMIT" {
        FileCounts(fw, lines[1..], None, id, r);
      } else {
        HeaderUnread(table.value, line);
        HarmlessRead(table.value, line);
        var x := ParseCommand(["-t", table.value] + Words(line)).value;
        StepCount(fw, x, id, r);
        FileCounts(Step(fw, x).value, lines[1..], table, id, r);
      }
    }
  }

  /** Between blocks only a header is read. */
  lemma NotStar(line: string)
    requires GoodLine(line) && line != "" && line[0] == '*' && Words(line[1..]) != []
    ensures Plain(Words(line[1..])[0])
  {
  }

  /** Inside a block a header is no command. */
  lemma HeaderUnread(table: string, line: string)
    ensures TableHeader(line) ==> ParseCommand(["-t", table] + Words(line)).None?
  {
    var args := ["-t", table] + Words(line);
    assert |args| >= 3 ==> args[2] == Words(line)[0];
  }

  // ---------------------------------------------------------------- the two renderings

  lemma PlainRuleOf(c: Call)
    ensures PlainRule(CallId(c), c.rule) <==> PlainTokens(c)
  {
  }

  lemma CallAdded(trace: bool, calls: seq<Call>, c: Call)
    requires c in calls
    ensures exists x :: x in Script(trace, calls) && AddsRule(x, CallId(c), c.rule)
  {
    var x := if c.AppendCall? then AppendTo(CallId(c), c.rule) else InsertAt(CallId(c), c.position, c.rule);
    assert x in CommandsOf(trace)(c);
    FlatMapMember(calls, CommandsOf(trace), x);
    assert AddsRule(x, CallId(c), c.rule);
  }

  /** The single commands add the rule of every call. */
  lemma ExecutedCounts(fw: Firewall, command: string, trace: bool, calls: seq<Call>, c: Call)
    requires (forall d :: d in calls ==> Readable(trace, d)) && c in calls
    requires ExecLines(fw, Arguments(BuildLines(command, Recorded(trace, calls)))).Some?
    ensures multiset(Before(ExecLines(fw, Arguments(BuildLines(command, Recorded(trace, calls)))).value, CallId(c)))[c.rule] >
            multiset(Before(fw, CallId(c)))[c.rule]
  {
    var ids := NewChains(Recorded(trace, calls));
    LinesRun(fw, command, trace, calls);
    OnlyAdditions(trace, calls, ids);
    CallAdded(trace, calls, c);
    var x :| x in Script(trace, calls) && AddsRule(x, CallId(c), c.rule);
    assert x in NewCommands(ids) + Script(trace, calls);
    ExecCount(fw, NewCommands(ids) + Script(trace, calls), CallId(c), c.rule);
  }

  /**
   A recorded value with a blank, such as the second of the ports "80, 443", or an empty one: after the
   restore file, if it can be read at all, its rule is not there as often as after the single commands.
   */
  lemma NotPlainDiffers(fw: Firewall, command: string, trace: bool, calls: seq<Call>, order: seq<string>, c: Call)
    requires forall d :: d in calls ==> Readable(trace, d) && QuotelessCall(trace, d)
    requires IsTableOrder(order, Recorded(trace, calls)) && c in calls && !PlainTokens(c)
    requires ExecLines(fw, Arguments(BuildLines(command, Recorded(trace, calls)))).Some?
    ensures var restored := ExecRestore(fw, RestoreLines(order, Recorded(trace, calls)), None);
            var executed := ExecLines(fw, Arguments(BuildLines(command, Recorded(trace, calls))));
            restored.Some? ==>
              multiset(Before(restored.value, CallId(c)))[c.rule] < multiset(Before(executed.value, CallId(c)))[c.rule]
  {
    var lines := RestoreLines(order, Recorded(trace, calls));
    ExecutedCounts(fw, command, trace, calls, c);
    PlainRuleOf(c);
    forall line | line in lines ensures GoodLine(line) {
      LinesGood(trace, calls, order, line);
    }
    if ExecRestore(fw, lines, None).Some? {
      FileCounts(fw, lines, None, CallId(c), c.rule);
    }
  }

  lemma {:induction false} EraseCounts(rules: seq<Rule>, r: Rule)
    requires !r.target.NfLog?
    ensures multiset(Erase(rules))[r] == multiset(rules)[r]
    decreases |rules|
  {
    if rules != [] {
      EraseCounts(rules[1..], r);
      assert rules == [rules[0]] + rules[1..];
    }
  }

  lemma ErasedCounts(fw: Firewall, fw': Firewall, id: ChainId, r: Rule)
    requires Erased(fw) == Erased(fw') && !r.target.NfLog?
    ensures multiset(Before(fw, id))[r] == multiset(Before(fw', id))[r]
  {
    assert id in fw <==> id in Erased(fw);
    assert id in fw' <==> id in Erased(fw');
    if id in fw {
      EraseCounts(fw[id], r);
      EraseCounts(fw'[id], r);
      assert Erased(fw)[id] == Erased(fw')[id];
    }
  }

  /** With or without tracing the file gives what the single commands give, logging rules aside, exactly when every recorded token is plain. */
  lemma QuotelessEquivalent(fw: Firewall, command: string, trace: bool, calls: seq<Call>, order: seq<string>)
    requires forall c :: c in calls ==> Readable(trace, c) && QuotelessCall(trace, c) && !c.rule.target.NfLog?
    requires IsTableOrder(order, Recorded(trace, calls))
    requires ExecLines(fw, Arguments(BuildLines(command, Recorded(trace, calls)))).Some?
    ensures var restored := ExecRestore(fw, RestoreLines(order, Recorded(trace, calls)), None);
            var executed := ExecLines(fw, Arguments(BuildLines(command, Recorded(trace, calls))));
            restored.Some? && Erased(restored.value) == Erased(executed.value) <==> forall c :: c in calls ==> PlainTokens(c)
  {
    if c :| c in calls && !PlainTokens(c) {
      NotPlainDiffers(fw, command, trace, calls, order, c);
      NotErased(fw, command, trace, calls, order, c);
    } else {
      RenderingsEquivalent(fw, command, trace, calls, order);
    }
  }

  lemma NotErased(fw: Firewall, command: string, trace: bool, calls: seq<Call>, order: seq<string>, c: Call)
    requires ExecLines(fw, Arguments(BuildLines(command, Recorded(trace, calls)))).Some? && !c.rule.target.NfLog?
    requires var restored := ExecRestore(fw, RestoreLines(order, Recorded(trace, calls)), None);
             var executed := ExecLines(fw, Arguments(BuildLines(command, Recorded(trace, calls))));
             restored.Some? ==>
               multiset(Before(restored.value, CallId(c)))[c.rule] < multiset(Before(executed.value, CallId(c)))[c.rule]
    ensures var restored := ExecRestore(fw, RestoreLines(order, Recorded(trace, calls)), None);
            var executed := ExecLines(fw, Arguments(BuildLines(command, Recorded(trace, calls))));
            !(restored.Some? && Erased(restored.value) == Erased(executed.value))
  {
    var restored := ExecRestore(fw, RestoreLines(order, Recorded(trace, calls)), None);
    var executed := ExecLines(fw, Arguments(BuildLines(command, Recorded(trace, calls))));
    if restored.Some? && Erased(restored.value) == Erased(executed.value) {
      ErasedCounts(restored.value, executed.value, CallId(c), c.rule);
    }
  }
}
