/** The two renderings for any values at all: a quote or a line break in a value never survives the restore file. */
module RestoreQuoted {
  import opened Optional
  import opened Sequences
  import opened Netfilter
  import opened Commands
  import opened Builder
  import opened CallScripts
  import opened Install
  import opened Tracing
  import opened Restore
  import opened RestoreTheorems
  import opened RestoreExactly
  import Text

  // ---------------------------------------------------------------- quotes and line breaks

  predicate Lost(c: char) { c == '"' || c == '\n' }

  /** How many quotes and line breaks a text has. */
  function Losses(s: string): nat {
    if s == "" then 0 else (if Lost(s[0]) then 1 else 0) + Losses(s[1..])
  }

  function LossesOf(): string -> nat {
    (s: string) => Losses(s)
  }

  function AllLosses(tokens: seq<string>): nat {
    Total(tokens, LossesOf())
  }

  lemma {:induction false} LossesConcat(a: string, b: string)
    ensures Losses(a + b) == Losses(a) + Losses(b)
    decreases |a|
  {
    if a == "" {
      assert a + b == b;
    } else {
      assert (a + b)[1..] == a[1..] + b;
      LossesConcat(a[1..], b);
    }
  }

  lemma {:induction false} QuotelessLosses(s: string)
    ensures Losses(s) == 0 <==> Quoteless(s)
    decreases |s|
  {
    if s != "" {
      QuotelessLosses(s[1..]);
      assert s[0] in s && forall c :: c in s[1..] ==> c in s;
      assert forall c :: c in s ==> c == s[0] || c in s[1..];
      assert Quoteless(s) <==> !Lost(s[0]) && Quoteless(s[1..]);
    }
  }

  lemma AllQuoteless(tokens: seq<string>)
    ensures AllLosses(tokens) == 0 <==> forall token :: token in tokens ==> Quoteless(token)
  {
    TotalZero(tokens, LossesOf());
    forall token | token in tokens ensures LossesOf()(token) == 0 <==> Quoteless(token) {
      QuotelessLosses(token);
    }
  }

  lemma LossesFirst(tokens: seq<string>)
    requires tokens != []
    ensures AllLosses(tokens) == Losses(tokens[0]) + AllLosses(tokens[1..])
  {
    assert tokens == [tokens[0]] + tokens[1..];
    TotalConcat([tokens[0]], tokens[1..], LossesOf());
    TotalPush([], LossesOf(), tokens[0]);
    assert [] + [tokens[0]] == [tokens[0]];
  }

  lemma LossesBoth(a: seq<string>, b: seq<string>)
    ensures AllLosses(a + b) == AllLosses(a) + AllLosses(b)
  {
    TotalConcat(a, b, LossesOf());
  }

  lemma {:induction false} JoinLosses(tokens: seq<string>)
    ensures Losses(Text.Join(tokens, ' ')) == AllLosses(tokens)
    decreases |tokens|
  {
    if tokens != [] {
      LossesFirst(tokens);
      if |tokens| == 1 {
        assert tokens[1..] == [];
      } else {
        JoinLosses(tokens[1..]);
        LossesConcat(tokens[0] + [' '], Text.Join(tokens[1..], ' '));
        LossesConcat(tokens[0], [' ']);
        assert Losses([' ']) == 0;
      }
    }
  }

  // ---------------------------------------------------------------- splitting a line loses them

  lemma OneWord(word: string, rest: seq<string>)
    ensures AllLosses([word] + rest) == Losses(word) + AllLosses(rest)
  {
    LossesFirst([word] + rest);
    assert ([word] + rest)[1..] == rest;
  }

  lemma WordGrows(word: string, c: char)
    ensures Losses(word + [c]) == Losses(word) + (if Lost(c) then 1 else 0)
  {
    LossesConcat(word, [c]);
    assert [c][1..] == "";
  }

  /** Splitting never adds a quote or a line break. */
  lemma {:induction false} ScanLosses(s: string, word: string, quoted: bool, escaped: bool)
    ensures AllLosses(Scan(s, word, quoted, escaped)) <= Losses(word) + Losses(s)
    decreases |s|
  {
    if s == "" {
      OneWord(word, []);
      assert [word] + [] == [word];
    } else {
      WordGrows(word, s[0]);
      ScanLosses(s[1..], "", false, false);
      if quoted {
        ScanLosses(s[1..], word + [s[0]], true, false);
        ScanLosses(s[1..], word, true, true);
      } else {
        ScanLosses(s[1..], word, true, false);
        ScanLosses(s[1..], word + [s[0]], false, false);
      }
      OneWord(word, Scan(s[1..], "", false, false));
    }
  }

  /** Outside quotes the first of them goes. */
  lemma {:induction false} ScanLoses(s: string, word: string)
    requires Losses(s) > 0
    ensures AllLosses(Scan(s, word, false, false)) < Losses(word) + Losses(s)
    decreases |s|
  {
    WordGrows(word, s[0]);
    if s[0] == '"' {
      ScanLosses(s[1..], word, true, false);
    } else if Blank(s[0]) {
      OneWord(word, Scan(s[1..], "", false, false));
      if s[0] == '\n' {
        ScanLosses(s[1..], "", false, false);
      } else {
        ScanLoses(s[1..], "");
      }
    } else {
      ScanLoses(s[1..], word + [s[0]]);
    }
  }

  function Kept(): string -> nat {
    (line: string) => AllLosses(Words(line))
  }

  /** The lines of the file as they are read: a line break within a value starts another one. */
  function Broken(): string -> seq<string> {
    (line: string) => Text.Split(line, '\n')
  }

  function FileLines(lines: seq<string>): seq<string> {
    FlatMap(lines, Broken())
  }

  lemma {:induction false} PiecesLosses(s: string)
    ensures AllLosses(Text.Split(s, '\n')) <= Losses(s)
    ensures '\n' in s ==> AllLosses(Text.Split(s, '\n')) < Losses(s)
    decreases |s|
  {
    if s == "" {
      OneWord("", []);
      assert [""] + [] == [""];
    } else {
      var rest := Text.Split(s[1..], '\n');
      PiecesLosses(s[1..]);
      if s[0] == '\n' {
        OneWord("", rest);
      } else {
        OneWord([s[0]] + rest[0], rest[1..]);
        LossesFirst(rest);
        assert ([s[0]] + rest[0])[1..] == rest[0];
        assert '\n' in s ==> '\n' in s[1..];
      }
    }
  }

  /** A line broken and split keeps fewer of them than it had, if it had any. */
  lemma LineLosses(line: string)
    ensures Total(Broken()(line), Kept()) <= Losses(line)
    ensures Losses(line) > 0 ==> Total(Broken()(line), Kept()) < Losses(line)
  {
    var pieces := Text.Split(line, '\n');
    PiecesLosses(line);
    forall piece | piece in pieces ensures Kept()(piece) <= LossesOf()(piece) && (LossesOf()(piece) > 0 ==> Kept()(piece) < LossesOf()(piece)) {
      ScanLosses(piece, "", false, false);
      if Losses(piece) > 0 {
        ScanLoses(piece, "");
      }
    }
    TotalLess(pieces, Kept(), LossesOf());
  }

  // ---------------------------------------------------------------- reading a rule adds none


  lemma OptionQuoteless(m: Match)
    ensures Quoteless(OptionName(m)) && Quoteless(ModuleName(m)) && Quoteless("-m") && Quoteless("!")
  {
  }

  lemma TwoLosses(a: string, b: string)
    ensures AllLosses([a, b]) == Losses(a) + Losses(b)
  {
    LossesFirst([a, b]);
    assert [a, b][1..] == [b];
    OneWord(b, []);
    assert [b] + [] == [b];
  }

  /** What comes before the option of a test. */
  function TestPrefix(c: Cond): seq<string> {
    (if ModuleName(c.test) == "" then [] else ["-m", ModuleName(c.test)]) + (if c.negated then ["!"] else [])
  }

  lemma PrefixLosses(c: Cond)
    ensures AllLosses(TestPrefix(c)) == 0 && Losses(OptionName(c.test)) == 0
  {
    OptionQuoteless(c.test);
    AllQuoteless(TestPrefix(c));
    QuotelessLosses(OptionName(c.test));
  }

  lemma CondLosses(c: Cond)
    ensures AllLosses(CondTokens(c)) == Losses(c.test.value)
  {
    PrefixLosses(c);
    TwoLosses(OptionName(c.test), c.test.value);
    LossesBoth(TestPrefix(c), [OptionName(c.test), c.test.value]);
    assert CondTokens(c) == TestPrefix(c) + [OptionName(c.test), c.test.value];
  }

  /** The tokens of a target that was read are those it was read from. */
  lemma TargetRead(toks: seq<string>, proto: string)
    requires toks != [] && ParseTarget(toks, proto).Some?
    ensures TargetTokens(ParseTarget(toks, proto).value) == ["-j"] + toks
  {
    if |toks| == 7 {
      assert toks == toks[..3] + toks[3..];
    }
  }

  lemma RestLosses(toks: seq<string>, n: nat)
    requires n <= |toks|
    ensures AllLosses(toks[n..]) + AllLosses(toks[..n]) == AllLosses(toks)
  {
    assert toks == toks[..n] + toks[n..];
    LossesBoth(toks[..n], toks[n..]);
  }

  lemma ValueLosses(toks: seq<string>, n: nat)
    requires n < |toks|
    ensures AllLosses(toks[n + 1..]) + Losses(toks[n]) <= AllLosses(toks)
  {
    RestLosses(toks, n);
    LossesFirst(toks[n..]);
    assert toks[n..][1..] == toks[n + 1..];
  }

  lemma RuleLosses(c: Cond, conds: seq<Cond>, t: Target)
    ensures AllLosses(RuleTokens(Rule([c] + conds, t))) == Losses(c.test.value) + AllLosses(RuleTokens(Rule(conds, t)))
  {
    RuleTokensCons([c] + conds, t);
    assert ([c] + conds)[1..] == conds;
    LossesBoth(CondTokens(c), RuleTokens(Rule(conds, t)));
    CondLosses(c);
  }

  /** A test read from its value, and the rest of the rule from what follows. */
  lemma WithTest(toks: seq<string>, n: nat, c: Cond, r: Rule)
    requires n < |toks| && toks[n] == c.test.value && AllLosses(RuleTokens(r)) <= AllLosses(toks[n + 1..])
    ensures AllLosses(RuleTokens(Rule([c] + r.conds, r.target))) <= AllLosses(toks)
  {
    ValueLosses(toks, n);
    RuleLosses(c, r.conds, r.target);
  }

  lemma OnlyTarget(toks: seq<string>, proto: string)
    requires |toks| >= 2 && toks[0] == "-j" && ParseTarget(toks[1..], proto).Some?
    ensures RuleTokens(Rule([], ParseTarget(toks[1..], proto).value)) == toks
  {
    TargetRead(toks[1..], proto);
    assert toks == ["-j"] + toks[1..];
  }

  lemma {:induction false} ParsedLosses(toks: seq<string>, mod: string, proto: string)
    requires ParseRule(toks, mod, proto).Some?
    ensures AllLosses(RuleTokens(ParseRule(toks, mod, proto).value)) <= AllLosses(toks)
    decreases |toks|, 1
  {
    if toks[0] == "-m" {
      RestLosses(toks, 2);
      ParsedLosses(toks[2..], toks[1], proto);
    } else if toks[0] == "-j" {
      OnlyTarget(toks, proto);
    } else {
      TestLosses(toks, mod, proto);
    }
  }

  /** The first test of a rule that was read, where its value stands, and the rest. */
  lemma FirstTest(toks: seq<string>, mod: string, proto: string) returns (c: Cond, n: nat)
    requires ParseRule(toks, mod, proto).Some? && toks[0] != "-m" && toks[0] != "-j"
    ensures 0 < n < |toks| && toks[n] == c.test.value
    ensures var rest := ParseRule(toks[n + 1..], mod, NextProtocol(c, proto));
            rest.Some? && ParseRule(toks, mod, proto) == Some(Rule([c] + rest.value.conds, rest.value.target))
  {
    if toks[0] == "!" {
      c, n := Not(ParseTest(mod, proto, toks[1], toks[2]).value), 2;
    } else {
      c, n := Is(ParseTest(mod, proto, toks[0], toks[1]).value), 1;
    }
  }

  lemma {:induction false} TestLosses(toks: seq<string>, mod: string, proto: string)
    requires ParseRule(toks, mod, proto).Some? && toks[0] != "-m" && toks[0] != "-j"
    ensures AllLosses(RuleTokens(ParseRule(toks, mod, proto).value)) <= AllLosses(toks)
    decreases |toks|, 0
  {
    var c, n := FirstTest(toks, mod, proto);
    ParsedLosses(toks[n + 1..], mod, NextProtocol(c, proto));
    WithTest(toks, n, c, ParseRule(toks[n + 1..], mod, NextProtocol(c, proto)).value);
  }

  // ---------------------------------------------------------------- what a firewall has of them

  /** What the rules of a chain have; `logs` tells whether logging rules count. */
  function RuleWeight(logs: bool): Rule -> nat {
    (r: Rule) => if logs || !r.target.NfLog? then AllLosses(RuleTokens(r)) else 0
  }

  ghost function ChainWeight(logs: bool, fw: Firewall): ChainId -> nat {
    (id: ChainId) => Total(Before(fw, id), RuleWeight(logs))
  }

  /** What the chains of a list have. */
  ghost function Weight(logs: bool, ids: seq<ChainId>, fw: Firewall): nat {
    Total(ids, ChainWeight(logs, fw))
  }

  /** A change of one chain is a change of the whole. */
  lemma {:induction false} WeightChanges(logs: bool, ids: seq<ChainId>, fw: Firewall, fw': Firewall, id: ChainId)
    requires Distinct(ids) && forall other :: other != id ==> Before(fw', other) == Before(fw, other)
    ensures Weight(logs, ids, fw') + (if id in ids then ChainWeight(logs, fw)(id) else 0) ==
            Weight(logs, ids, fw) + (if id in ids then ChainWeight(logs, fw')(id) else 0)
  {
    if ids != [] {
      var front, last := ids[..|ids| - 1], ids[|ids| - 1];
      WeightChanges(logs, front, fw, fw', id);
      assert id in ids <==> id in front || id == last;
      assert last == id ==> id !in front;
    }
  }

  lemma InsertedWeight(logs: bool, rules: seq<Rule>, position: nat, r: Rule)
    requires 1 <= position <= |rules| + 1
    ensures Total(Inserted(rules, position, r), RuleWeight(logs)) == Total(rules, RuleWeight(logs)) + RuleWeight(logs)(r)
  {
    var a, b := rules[..position - 1], rules[position - 1..];
    assert rules == a + b;
    TotalConcat(a, b, RuleWeight(logs));
    TotalPush(a, RuleWeight(logs), r);
    TotalConcat(a + [r], b, RuleWeight(logs));
  }

  lemma {:induction false} WithoutFirstWeight(logs: bool, rules: seq<Rule>, r: Rule)
    ensures Total(WithoutFirst(rules, r), RuleWeight(logs)) <= Total(rules, RuleWeight(logs))
    decreases |rules|
  {
    if rules != [] {
      assert rules == [rules[0]] + rules[1..];
      TotalConcat([rules[0]], rules[1..], RuleWeight(logs));
      if rules[0] != r {
        WithoutFirstWeight(logs, rules[1..], r);
        TotalConcat([rules[0]], WithoutFirst(rules[1..], r), RuleWeight(logs));
      }
    }
  }

  /** What a command adds. */
  function AddedBy(logs: bool, x: Command): nat {
    if Adds(x) then RuleWeight(logs)(x.rule) else 0
  }

  function Added(logs: bool): Command -> nat {
    (x: Command) => AddedBy(logs, x)
  }

  lemma ChainChanges(logs: bool, fw: Firewall, x: Command)
    requires Step(fw, x).Some?
    ensures var fw' := Step(fw, x).value;
            && (forall other :: other != x.id ==> Before(fw', other) == Before(fw, other))
            && ChainWeight(logs, fw')(x.id) <= ChainWeight(logs, fw)(x.id) + Added(logs)(x)
            && (Adds(x) || x.NewChain? ==> ChainWeight(logs, fw')(x.id) == ChainWeight(logs, fw)(x.id) + Added(logs)(x))
  {
    match x
    case AppendTo(id, r) => TotalPush(fw[id], RuleWeight(logs), r);
    case InsertAt(id, position, r) => InsertedWeight(logs, fw[id], position, r);
    case DeleteFrom(id, r) => WithoutFirstWeight(logs, fw[id], r);
    case _ =>
  }

  lemma StepWeight(logs: bool, ids: seq<ChainId>, fw: Firewall, x: Command)
    requires Distinct(ids) && Step(fw, x).Some?
    ensures Weight(logs, ids, Step(fw, x).value) <= Weight(logs, ids, fw) + Added(logs)(x)
    ensures (Adds(x) || x.NewChain?) && x.id in ids ==> Weight(logs, ids, Step(fw, x).value) == Weight(logs, ids, fw) + Added(logs)(x)
  {
    ChainChanges(logs, fw, x);
    WeightChanges(logs, ids, fw, Step(fw, x).value, x.id);
  }

  /** A script that only adds, and only to the chains of the list, adds all it has. */
  lemma {:induction false} ExecWeight(logs: bool, ids: seq<ChainId>, fw: Firewall, script: seq<Command>)
    requires Distinct(ids) && Exec(fw, script).Some?
    requires forall x :: x in script ==> (Adds(x) || x.NewChain?) && x.id in ids
    ensures Weight(logs, ids, Exec(fw, script).value) == Weight(logs, ids, fw) + Total(script, Added(logs))
    decreases |script|
  {
    if script != [] {
      var x := script[0];
      assert x in script && forall y :: y in script[1..] ==> y in script;
      StepWeight(logs, ids, fw, x);
      ExecWeight(logs, ids, Step(fw, x).value, script[1..]);
      assert script == [x] + script[1..];
      TotalConcat([x], script[1..], Added(logs));
      TotalPush([], Added(logs), x);
      assert [] + [x] == [x];
    }
  }

  lemma ReadWeight(logs: bool, table: string, words: seq<string>)
    requires ParseCommand(["-t", table] + words).Some?
    ensures Added(logs)(ParseCommand(["-t", table] + words).value) <= AllLosses(words)
  {
    var args := ["-t", table] + words;
    var x := ParseCommand(args).value;
    assert args[4..] == words[2..];
    RestLosses(words, 2);
    if x.AppendTo? {
      ParsedLosses(args[4..], "", "");
    } else if x.InsertAt? {
      RestLosses(args[4..], 1);
      ParsedLosses(args[4..][1..], "", "");
    }
  }

  /** A file adds at most what is kept of its lines. */
  lemma {:induction false} FileWeight(logs: bool, ids: seq<ChainId>, fw: Firewall, lines: seq<string>, table: Option<string>)
    requires Distinct(ids) && ExecRestore(fw, lines, table).Some?
    ensures Weight(logs, ids, ExecRestore(fw, lines, table).value) <= Weight(logs, ids, fw) + Total(lines, Kept())
    decreases |lines|
  {
    if lines != [] {
      var line := lines[0];
      assert lines == [line] + lines[1..];
      TotalConcat([line], lines[1..], Kept());
      if table.None? {
        FileWeight(logs, ids, fw, lines[1..], Some(Words(line[1..])[0]));
      } else if line == "COMMIT" {
        FileWeight(logs, ids, fw, lines[1..], None);
      } else {
        var x := ParseCommand(["-t", table.value] + Words(line)).value;
        ReadWeight(logs, table.value, Words(line));
        StepWeight(logs, ids, fw, x);
        TotalPush([], Kept(), line);
        assert [] + [line] == [line];
        FileWeight(logs, ids, Step(fw, x).value, lines[1..], table);
      }
    }
  }

  // ---------------------------------------------------------------- what is kept of the file

  /** A call whose chain has no quotes in its name; if its rule is logged, nor have its values. */
  predicate Named(trace: bool, c: Call) {
    Quoteless(c.table) && Quoteless(c.chain) && (Traced(trace, c) ==> QuotelessCall(trace, c))
  }

  function LineKept(): string -> nat {
    (line: string) => Total(Broken()(line), Kept())
  }

  function EntryKept(): Entry -> nat {
    (e: Entry) => LineKept()(RuleText()(e))
  }

  function CallKept(trace: bool): Call -> nat {
    (c: Call) => Total(CallEntries(trace, c), EntryKept())
  }

  function CallLosses(): Call -> nat {
    (c: Call) => AllLosses(RuleTokens(c.rule))
  }

  lemma TextLosses(head: seq<string>, c: Call)
    requires forall h :: h in head ==> Quoteless(h)
    ensures Losses(Text.Join(head + RuleTokens(c.rule), ' ')) == CallLosses()(c)
  {
    JoinLosses(head + RuleTokens(c.rule));
    LossesBoth(head, RuleTokens(c.rule));
    AllQuoteless(head);
  }

  lemma HeadQuoteless(c: Call)
    requires Quoteless(c.chain)
    ensures Quoteless("-A") && Quoteless("-I") && (c.InsertCall? ==> Quoteless(Decimal(c.position)))
  {
    PlainFlags();
    PlainQuoteless("-A");
    PlainQuoteless("-I");
    if c.InsertCall? {
      PlainDecimal(c.position);
      PlainQuoteless(Decimal(c.position));
    }
  }

  lemma UntracedKept(trace: bool, c: Call)
    requires Readable(trace, c) && Named(trace, c) && !Traced(trace, c)
    ensures CallKept(trace)(c) <= CallLosses()(c) && (CallLosses()(c) > 0 ==> CallKept(trace)(c) < CallLosses()(c))
  {
    LoggedOrNot(trace, c);
    HeadQuoteless(c);
    var head := if c.AppendCall? then ["-A", c.chain] else ["-I", c.chain, Decimal(c.position)];
    var e := Entry(c.chain, c.table, head + RuleTokens(c.rule));
    assert CallEntries(trace, c) == [e];
    TextLosses(head, c);
    LineLosses(RuleText()(e));
    TotalPush([], EntryKept(), e);
    assert [] + [e] == [e];
  }

  lemma {:induction false} JoinUnbroken(tokens: seq<string>)
    requires forall token :: token in tokens ==> '\n' !in token
    ensures '\n' !in Text.Join(tokens, ' ')
    decreases |tokens|
  {
    if |tokens| > 0 {
      assert tokens[0] in tokens && forall token :: token in tokens[1..] ==> token in tokens;
      JoinUnbroken(tokens[1..]);
    }
  }

  lemma TameUnbroken(token: string)
    requires Tame(token)
    ensures '\n' !in token
  {
  }

  /** Of a text of tame tokens only plain words are read. */
  lemma TameKept(params: seq<string>)
    requires |params| >= 2 && params[0] in FLAGS && forall token :: token in params ==> Tame(token)
    ensures Broken()(Text.Join(params, ' ')) == [Text.Join(params, ' ')] && LineKept()(Text.Join(params, ' ')) == 0
  {
    var text := Text.Join(params, ' ');
    forall token | token in params ensures '\n' !in token {
      TameUnbroken(token);
    }
    JoinUnbroken(params);
    Text.SplitFree(text, '\n');
    TameText(params);
    forall w | w in Words(text) ensures Quoteless(w) {
      PlainQuoteless(w);
    }
    AllQuoteless(Words(text));
    TotalZero([text], Kept());
  }

  ghost predicate TameParams(e: Entry) {
    |e.params| >= 2 && e.params[0] in FLAGS && forall token :: token in e.params ==> Tame(token)
  }

  lemma NoneKept(entries: seq<Entry>)
    requires forall e :: e in entries ==> TameParams(e)
    ensures Total(entries, EntryKept()) == 0
  {
    forall e | e in entries ensures EntryKept()(e) == 0 {
      TameKept(e.params);
      assert RuleText()(e) == Text.Join(e.params, ' ');
    }
    TotalZero(entries, EntryKept());
  }

  lemma TracedKept(trace: bool, c: Call)
    requires Readable(trace, c) && QuotelessCall(trace, c)
    ensures CallKept(trace)(c) == 0 && CallLosses()(c) == 0
  {
    AllQuoteless(RuleTokens(c.rule));
    forall e | e in CallEntries(trace, c) ensures TameParams(e) {
      EntryTame(trace, c, e);
    }
    NoneKept(CallEntries(trace, c));
  }

  lemma OneKept(trace: bool, c: Call)
    requires Readable(trace, c) && Named(trace, c)
    ensures CallKept(trace)(c) <= CallLosses()(c) && (CallLosses()(c) > 0 ==> CallKept(trace)(c) < CallLosses()(c))
  {
    if Traced(trace, c) {
      TracedKept(trace, c);
    } else {
      UntracedKept(trace, c);
    }
  }

  lemma NothingKept(line: string)
    requires Quoteless(line)
    ensures LineKept()(line) == 0
  {
    QuotelessLosses(line);
    LineLosses(line);
  }

  lemma EntryNames(trace: bool, calls: seq<Call>, e: Entry)
    requires (forall c :: c in calls ==> Named(trace, c)) && e in Recorded(trace, calls)
    ensures Quoteless(e.table) && Quoteless(e.chain)
  {
    CallOfEntry(trace, calls, e);
  }

  lemma TableNames(trace: bool, calls: seq<Call>, table: string)
    requires (forall c :: c in calls ==> Named(trace, c)) && table in RestoreTables(Recorded(trace, calls))
    ensures Quoteless(table)
  {
    if table in Keys(Recorded(trace, calls), TableOfEntry()) {
      var e :| e in Recorded(trace, calls) && TableOfEntry()(e) == table;
      EntryNames(trace, calls, e);
    } else {
      assert Quoteless(FILTER) && Quoteless(NAT) && Quoteless(MANGLE);
    }
  }

  lemma CreationsKept(trace: bool, calls: seq<Call>, table: string)
    requires forall c :: c in calls ==> Named(trace, c)
    ensures Total(ValuesAt(NewChains(Recorded(trace, calls)), TableOfChain(), NewText(), table), LineKept()) == 0
  {
    var entries := Recorded(trace, calls);
    var texts := ValuesAt(NewChains(entries), TableOfChain(), NewText(), table);
    forall text | text in texts ensures LineKept()(text) == 0 {
      ValuesAtMember(NewChains(entries), TableOfChain(), NewText(), table, text);
      var id :| id in NewChains(entries) && NewText()(id) == text;
      NewChainsMentioned(entries, id);
      var e :| e in entries && e.table == id.table && e.chain == id.chain;
      EntryNames(trace, calls, e);
      NothingKept(text);
    }
    TotalZero(texts, LineKept());
  }

  function TableKept(entries: seq<Entry>): string -> nat {
    (table: string) => Total(ValuesAt(entries, TableOfEntry(), RuleText(), table), LineKept())
  }

  lemma OneLineKept(line: string)
    requires Quoteless(line)
    ensures Total([line], LineKept()) == 0
  {
    NothingKept(line);
    TotalZero([line], LineKept());
  }

  lemma BlockKept(trace: bool, calls: seq<Call>, table: string)
    requires (forall c :: c in calls ==> Named(trace, c)) && table in RestoreTables(Recorded(trace, calls))
    ensures Total(TableBlock(Recorded(trace, calls))(table), LineKept()) <= TableKept(Recorded(trace, calls))(table)
  {
    var entries := Recorded(trace, calls);
    var creations := ValuesAt(NewChains(entries), TableOfChain(), NewText(), table);
    var rules := ValuesAt(entries, TableOfEntry(), RuleText(), table);
    TableNames(trace, calls, table);
    CreationsKept(trace, calls, table);
    TotalConcat(creations, rules, LineKept());
    OneLineKept("* " + table);
    OneLineKept("COMMIT");
    TotalConcat(["* " + table], creations + rules, LineKept());
    TotalConcat(["* " + table] + (creations + rules), ["COMMIT"], LineKept());
  }

  /** The file keeps no more than its calls have, and fewer if they have any. */
  lemma FileKept(trace: bool, calls: seq<Call>, order: seq<string>)
    requires forall c :: c in calls ==> Readable(trace, c) && Named(trace, c)
    requires IsTableOrder(order, Recorded(trace, calls))
    ensures var kept := Total(FileLines(RestoreLines(order, Recorded(trace, calls))), Kept());
            kept <= Total(calls, CallLosses()) && (Total(calls, CallLosses()) > 0 ==> kept < Total(calls, CallLosses()))
  {
    var entries := Recorded(trace, calls);
    TotalFlat(RestoreLines(order, entries), Broken(), Kept(), LineKept());
    forall table | table in order ensures Total(TableBlock(entries)(table), LineKept()) <= TableKept(entries)(table) {
      BlockKept(trace, calls, table);
    }
    TotalFlat(order, TableBlock(entries), LineKept(), TableKept(entries));
    TotalByKey(entries, TableOfEntry(), RuleText(), order, LineKept(), EntryKept());
    SameTotal(order, TableKept(entries), (k: string) => Total(ValuesAt(entries, TableOfEntry(), RuleText(), k), LineKept()));
    TotalFlat(calls, EntriesOf(trace), EntryKept(), CallKept(trace));
    forall c | c in calls ensures CallKept(trace)(c) <= CallLosses()(c) && (CallLosses()(c) > 0 ==> CallKept(trace)(c) < CallLosses()(c)) {
      OneKept(trace, c);
    }
    TotalLess(calls, CallKept(trace), CallLosses());
  }

  lemma {:induction false} SameTotal<A>(xs: seq<A>, f: A -> nat, g: A -> nat)
    requires forall x :: f(x) == g(x)
    ensures Total(xs, f) == Total(xs, g)
  {
    if xs != [] {
      SameTotal(xs[..|xs| - 1], f, g);
    }
  }

  // ---------------------------------------------------------------- what the single commands add

  function OneId(): Call -> seq<ChainId> {
    (c: Call) => [CallId(c)]
  }

  function Same(): ChainId -> ChainId {
    (id: ChainId) => id
  }

  /** The chains of some calls, each once. */
  function CallIds(calls: seq<Call>): seq<ChainId> {
    FirstOfEach(FlatMap(calls, OneId()), Same())
  }

  lemma CallIdsOf(calls: seq<Call>)
    ensures Distinct(CallIds(calls)) && forall c :: c in calls ==> CallId(c) in CallIds(calls)
  {
    var all := FlatMap(calls, OneId());
    FirstOfEachDistinct(all, Same());
    assert forall i, j :: 0 <= i < j < |CallIds(calls)| ==> Same()(CallIds(calls)[i]) != Same()(CallIds(calls)[j]);
    forall c | c in calls ensures CallId(c) in CallIds(calls) {
      assert CallId(c) in OneId()(c);
      FlatMapMember(calls, OneId(), CallId(c));
      assert Same()(CallId(c)) in Keys(all, Same());
      assert Same()(CallId(c)) in Keys(CallIds(calls), Same());
    }
  }

  lemma CreationIds(trace: bool, calls: seq<Call>, x: Command)
    requires x in NewCommands(NewChains(Recorded(trace, calls)))
    ensures x.NewChain? && exists c :: c in calls && CallId(c) == x.id
  {
    var ids := NewChains(Recorded(trace, calls));
    var i :| 0 <= i < |ids| && x == NewChain(ids[i]);
    NewChainsMentioned(Recorded(trace, calls), ids[i]);
    var e :| e in Recorded(trace, calls) && e.table == ids[i].table && e.chain == ids[i].chain;
    CallOfEntry(trace, calls, e);
  }

  lemma AdditionIds(trace: bool, calls: seq<Call>, x: Command)
    requires x in Script(trace, calls)
    ensures Adds(x) && exists c :: c in calls && CallId(c) == x.id
  {
    FlatMapMember(calls, CommandsOf(trace), x);
  }

  lemma ScriptIds(trace: bool, calls: seq<Call>, x: Command)
    requires x in NewCommands(NewChains(Recorded(trace, calls))) + Script(trace, calls)
    ensures (Adds(x) || x.NewChain?) && x.id in CallIds(calls)
  {
    CallIdsOf(calls);
    if x in Script(trace, calls) {
      AdditionIds(trace, calls, x);
    } else {
      CreationIds(trace, calls, x);
    }
  }

  lemma OneAdds(logs: bool, x: Command, r: Rule)
    requires Adds(x) && x.rule == r && (logs || !r.target.NfLog?)
    ensures Total([x], Added(logs)) == AllLosses(RuleTokens(r))
  {
    TotalPush([], Added(logs), x);
    assert [] + [x] == [x];
  }

  lemma CommandsAdd(logs: bool, trace: bool, c: Call)
    requires logs || !c.rule.target.NfLog?
    ensures Total(CommandsOf(trace)(c), Added(logs)) >= CallLosses()(c)
  {
    if c.AppendCall? {
      var x := AppendTo(CallId(c), c.rule);
      var log := if Traced(trace, c) then [AppendTo(CallId(c), LogRule(c.command, c.rule))] else [];
      OneAdds(logs, x, c.rule);
      TotalConcat(log, [x], Added(logs));
    } else {
      var x := InsertAt(CallId(c), c.position, c.rule);
      var log := if Traced(trace, c) then [InsertAt(CallId(c), c.position, LogRule(c.command, c.rule))] else [];
      OneAdds(logs, x, c.rule);
      TotalConcat([x], log, Added(logs));
    }
  }

  /** The single commands add all their calls have. */
  lemma ExecutedWeight(logs: bool, fw: Firewall, command: string, trace: bool, calls: seq<Call>)
    requires forall c :: c in calls ==> Readable(trace, c) && (logs || !c.rule.target.NfLog?)
    requires ExecLines(fw, Arguments(BuildLines(command, Recorded(trace, calls)))).Some?
    ensures var executed := ExecLines(fw, Arguments(BuildLines(command, Recorded(trace, calls)))).value;
            Weight(logs, CallIds(calls), executed) >= Weight(logs, CallIds(calls), fw) + Total(calls, CallLosses())
  {
    var news := NewCommands(NewChains(Recorded(trace, calls)));
    LinesRun(fw, command, trace, calls);
    CallIdsOf(calls);
    forall x | x in news + Script(trace, calls) ensures (Adds(x) || x.NewChain?) && x.id in CallIds(calls) {
      ScriptIds(trace, calls, x);
    }
    ExecWeight(logs, CallIds(calls), fw, news + Script(trace, calls));
    TotalConcat(news, Script(trace, calls), Added(logs));
    forall c | c in calls ensures Total(CommandsOf(trace)(c), Added(logs)) >= CallLosses()(c) {
      CommandsAdd(logs, trace, c);
    }
    TotalFlatAtLeast(calls, CommandsOf(trace), Added(logs), CallLosses());
  }

  // ---------------------------------------------------------------- the theorems

  /** Some value of some call has a quote or a line break. */
  predicate Lossy(calls: seq<Call>) {
    Total(calls, CallLosses()) > 0
  }

  lemma LossyDiffers(logs: bool, fw: Firewall, command: string, trace: bool, calls: seq<Call>, order: seq<string>)
    requires forall c :: c in calls ==> Readable(trace, c) && Named(trace, c) && (logs || !c.rule.target.NfLog?)
    requires IsTableOrder(order, Recorded(trace, calls)) && Lossy(calls)
    requires ExecLines(fw, Arguments(BuildLines(command, Recorded(trace, calls)))).Some?
    requires ExecRestore(fw, FileLines(RestoreLines(order, Recorded(trace, calls))), None).Some?
    ensures Weight(logs, CallIds(calls), ExecRestore(fw, FileLines(RestoreLines(order, Recorded(trace, calls))), None).value) <
            Weight(logs, CallIds(calls), ExecLines(fw, Arguments(BuildLines(command, Recorded(trace, calls)))).value)
  {
    CallIdsOf(calls);
    FileKept(trace, calls, order);
    FileWeight(logs, CallIds(calls), fw, FileLines(RestoreLines(order, Recorded(trace, calls))), None);
    ExecutedWeight(logs, fw, command, trace, calls);
  }

  lemma NotLossy(trace: bool, calls: seq<Call>)
    requires (forall c :: c in calls ==> Named(trace, c)) && !Lossy(calls)
    ensures forall c :: c in calls ==> QuotelessCall(trace, c)
  {
    TotalZero(calls, CallLosses());
    forall c | c in calls ensures QuotelessCall(trace, c) {
      AllQuoteless(RuleTokens(c.rule));
    }
  }

  lemma PlainNotLossy(calls: seq<Call>)
    requires forall c :: c in calls ==> PlainTokens(c)
    ensures !Lossy(calls)
  {
    forall c | c in calls ensures CallLosses()(c) == 0 {
      forall token | token in RuleTokens(c.rule) ensures Quoteless(token) {
        PlainQuoteless(token);
      }
      AllQuoteless(RuleTokens(c.rule));
    }
    TotalZero(calls, CallLosses());
  }

  lemma {:induction false} BrokenWhole(lines: seq<string>)
    requires forall line :: line in lines ==> '\n' !in line
    ensures FileLines(lines) == lines
  {
    if lines != [] {
      var front, last := lines[..|lines| - 1], lines[|lines| - 1];
      assert last in lines && forall line :: line in front ==> line in lines;
      BrokenWhole(front);
      Text.SplitFree(last, '\n');
    }
  }

  lemma TextUnbroken(trace: bool, calls: seq<Call>, table: string, text: string)
    requires forall c :: c in calls ==> Readable(trace, c) && QuotelessCall(trace, c)
    requires text in TableTexts(table, Recorded(trace, calls))
    ensures '\n' !in text
  {
    var entries := Recorded(trace, calls);
    if text in ValuesAt(entries, TableOfEntry(), RuleText(), table) {
      ValuesAtMember(entries, TableOfEntry(), RuleText(), table, text);
      var e :| e in entries && RuleText()(e) == text;
      RecordedTame(trace, calls, e);
      forall token | token in e.params ensures '\n' !in token {
        TameUnbroken(token);
      }
      JoinUnbroken(e.params);
    } else {
      ValuesAtMember(NewChains(entries), TableOfChain(), NewText(), table, text);
      var id :| id in NewChains(entries) && NewText()(id) == text;
      NewChainsMentioned(entries, id);
      var e :| e in entries && e.table == id.table && e.chain == id.chain;
      RecordedTame(trace, calls, e);
    }
  }

  lemma FrameWhole(table: string, line: string)
    requires Quoteless(table) && (line == "COMMIT" || line == "* " + table)
    ensures '\n' !in line
  {
  }

  lemma LineWhole(trace: bool, calls: seq<Call>, order: seq<string>, line: string)
    requires forall c :: c in calls ==> Readable(trace, c) && QuotelessCall(trace, c)
    requires IsTableOrder(order, Recorded(trace, calls)) && line in RestoreLines(order, Recorded(trace, calls))
    ensures '\n' !in line
  {
    var table := BlockOf(order, Recorded(trace, calls), line);
    TableQuoteless(trace, calls, table);
    if line in TableTexts(table, Recorded(trace, calls)) {
      TextUnbroken(trace, calls, table, line);
    } else {
      FrameWhole(table, line);
    }
  }

  /** Without line breaks in the values the file has the lines it was made of. */
  lemma LinesWhole(trace: bool, calls: seq<Call>, order: seq<string>)
    requires forall c :: c in calls ==> Readable(trace, c) && QuotelessCall(trace, c)
    requires IsTableOrder(order, Recorded(trace, calls))
    ensures FileLines(RestoreLines(order, Recorded(trace, calls))) == RestoreLines(order, Recorded(trace, calls))
  {
    forall line | line in RestoreLines(order, Recorded(trace, calls)) ensures '\n' !in line {
      LineWhole(trace, calls, order, line);
    }
    BrokenWhole(RestoreLines(order, Recorded(trace, calls)));
  }

  lemma {:induction false} EraseWeight(rules: seq<Rule>)
    ensures Total(Erase(rules), RuleWeight(false)) == Total(rules, RuleWeight(false))
    decreases |rules|
  {
    if rules != [] {
      EraseWeight(rules[1..]);
      assert rules == [rules[0]] + rules[1..];
      TotalConcat([rules[0]], rules[1..], RuleWeight(false));
      EraseConcat([rules[0]], rules[1..]);
      TotalConcat(Erase([rules[0]]), Erase(rules[1..]), RuleWeight(false));
      TotalPush([], RuleWeight(false), rules[0]);
      assert [] + [rules[0]] == [rules[0]] && [rules[0]][1..] == [];
    }
  }

  /** Firewalls that differ in logging rules only have the same weight apart from them. */
  lemma {:induction false} ErasedWeight(ids: seq<ChainId>, fw: Firewall, fw': Firewall)
    requires Erased(fw) == Erased(fw')
    ensures Weight(false, ids, fw) == Weight(false, ids, fw')
  {
    if ids != [] {
      var id := ids[|ids| - 1];
      ErasedWeight(ids[..|ids| - 1], fw, fw');
      assert id in fw <==> id in Erased(fw);
      assert id in fw' <==> id in Erased(fw');
      if id in fw {
        EraseWeight(fw[id]);
        EraseWeight(fw'[id]);
        assert Erased(fw)[id] == Erased(fw')[id];
      }
    }
  }

  /**
   The file gives just what the single commands give exactly when nothing was traced and every recorded
   token is plain, whatever else the values hold.
   */
  lemma AgreeExactly(fw: Firewall, command: string, trace: bool, calls: seq<Call>, order: seq<string>)
    requires forall c :: c in calls ==> Readable(trace, c) && Named(trace, c)
    requires IsTableOrder(order, Recorded(trace, calls))
    requires ExecLines(fw, Arguments(BuildLines(command, Recorded(trace, calls)))).Some?
    ensures ExecRestore(fw, FileLines(RestoreLines(order, Recorded(trace, calls))), None) ==
            ExecLines(fw, Arguments(BuildLines(command, Recorded(trace, calls)))) <==>
            forall c :: c in calls ==> !Traced(trace, c) && PlainTokens(c)
  {
    if Lossy(calls) {
      if ExecRestore(fw, FileLines(RestoreLines(order, Recorded(trace, calls))), None).Some? {
        LossyDiffers(true, fw, command, trace, calls, order);
      }
      if forall c :: c in calls ==> PlainTokens(c) {
        PlainNotLossy(calls);
      }
    } else {
      NotLossy(trace, calls);
      LinesWhole(trace, calls, order);
      QuotelessSame(fw, command, trace, calls, order);
    }
  }

  lemma QuotelessSame(fw: Firewall, command: string, trace: bool, calls: seq<Call>, order: seq<string>)
    requires forall c :: c in calls ==> Readable(trace, c) && QuotelessCall(trace, c)
    requires IsTableOrder(order, Recorded(trace, calls))
    requires ExecLines(fw, Arguments(BuildLines(command, Recorded(trace, calls)))).Some?
    ensures ExecRestore(fw, RestoreLines(order, Recorded(trace, calls)), None) ==
            ExecLines(fw, Arguments(BuildLines(command, Recorded(trace, calls)))) <==>
            forall c :: c in calls ==> !Traced(trace, c) && PlainTokens(c)
  {
    if c :| c in calls && !PlainTokens(c) {
      NotPlainDiffers(fw, command, trace, calls, order, c);
    } else {
      IdenticalExactly(fw, command, trace, calls, order);
    }
  }

  /** With or without tracing the file gives what the single commands give, logging rules aside, exactly when every recorded token is plain. */
  lemma EquivalentExactly(fw: Firewall, command: string, trace: bool, calls: seq<Call>, order: seq<string>)
    requires forall c :: c in calls ==> Readable(trace, c) && Named(trace, c) && !c.rule.target.NfLog?
    requires IsTableOrder(order, Recorded(trace, calls))
    requires ExecLines(fw, Arguments(BuildLines(command, Recorded(trace, calls)))).Some?
    ensures var restored := ExecRestore(fw, FileLines(RestoreLines(order, Recorded(trace, calls))), None);
            var executed := ExecLines(fw, Arguments(BuildLines(command, Recorded(trace, calls))));
            restored.Some? && Erased(restored.value) == Erased(executed.value) <==> forall c :: c in calls ==> PlainTokens(c)
  {
    if Lossy(calls) {
      var restored := ExecRestore(fw, FileLines(RestoreLines(order, Recorded(trace, calls))), None);
      var executed := ExecLines(fw, Arguments(BuildLines(command, Recorded(trace, calls))));
      if restored.Some? && Erased(restored.value) == Erased(executed.value) {
        LossyDiffers(false, fw, command, trace, calls, order);
        ErasedWeight(CallIds(calls), restored.value, executed.value);
      }
      if forall c :: c in calls ==> PlainTokens(c) {
        PlainNotLossy(calls);
      }
    } else {
      NotLossy(trace, calls);
      LinesWhole(trace, calls, order);
      QuotelessEquivalent(fw, command, trace, calls, order);
    }
  }
}
