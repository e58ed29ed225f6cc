/**
 The rule builder: it records rules as token lists for two address families, optionally pairs each
 with a logging rule, and renders what it recorded as command lines or as a restore file.
 */
module Builder {
  import opened Netfilter
  import opened Sequences
  import Commands
  import Text

  /** A recorded rule; `params` are the tokens after `-t table`. */
  datatype Entry = Entry(chain: string, table: string, params: seq<string>)

  /** The identifier of the command a rule belongs to; rules of this one are never logged. */
  const UNDEFINED_COMMAND := "UndefinedCommand"

  const IP_VERSION_SPECIFIC := "PLACEHOLDER_IP_VERSION_SPECIFIC"

  // ---------------------------------------------------------------- recording one rule

  function IndexOf(element: string, data: seq<string>): (k: int)
    ensures k == -1 <==> element !in data
    ensures k != -1 ==> 0 <= k < |data| && data[k] == element && element !in data[..k]
  {
    if data == [] then -1
    else if data[0] == element then 0
    else
      var k := IndexOf(element, data[1..]);
      assert k != -1 ==> data[..k + 1] == [data[0]] + data[1..][..k];
      if k == -1 then -1 else k + 1
  }

  method FindIndex(element: string, data: seq<string>) returns (k: int)
    ensures k == IndexOf(element, data)
  {
    for i := 0 to |data|
      invariant element !in data[..i]
    {
      if data[i] == element {
        IndexOfFirst(element, data, i);
        return i;
      }
    }
    assert data[..|data|] == data;
    return -1;
  }

  lemma {:induction false} IndexOfFirst(element: string, data: seq<string>, k: nat)
    requires k < |data| && data[k] == element && element !in data[..k]
    ensures IndexOf(element, data) == k
    decreases k
  {
    if k > 0 {
      assert data[0] in data[..k];
      assert data[1..][..k - 1] == data[1..k];
      assert forall x :: x in data[1..k] ==> x in data[..k];
      IndexOfFirst(element, data[1..], k - 1);
    }
  }

  /** fmt's %q on an identifier. */
  function Quoted(identifier: string): string {
    "\"" + identifier + "\""
  }

  predicate Logged(trace: bool, command: string, params: seq<string>) {
    trace && IndexOf("-j", params) >= 0 && command != UNDEFINED_COMMAND
  }

  /** The tokens of the logging rule: the same tests, with the packet sent to log group 1337. */
  function LogParams(command: string, params: seq<string>): seq<string>
    requires IndexOf("-j", params) >= 0
  {
    params[..IndexOf("-j", params)] + LogTokens(Quoted(command))
  }

  /** The action of a logging rule; the size of 20 is that of an IPv4 header. */
  function LogTokens(prefix: string): seq<string> {
    ["-j", "NFLOG", "--nflog-prefix", prefix, "--nflog-group", "1337", "--nflog-size", "20"]
  }

  /** An append is recorded after its logging rule. */
  function AppendEntries(trace: bool, command: string, chain: string, table: string, params: seq<string>): seq<Entry> {
    (if Logged(trace, command, params) then
       [Entry(chain, table, ["-A", chain] + LogParams(command, params))]
     else
       []) +
    [Entry(chain, table, ["-A", chain] + params)]
  }

  /** An insertion is recorded before its logging rule, which then pushes it down. */
  function InsertEntries(trace: bool, command: string, chain: string, table: string, position: nat, params: seq<string>): seq<Entry> {
    [Entry(chain, table, ["-I", chain, Commands.Decimal(position)] + params)] +
    (if Logged(trace, command, params) then
       [Entry(chain, table, ["-I", chain, Commands.Decimal(position)] + LogParams(command, params))]
     else
       [])
  }

  // ---------------------------------------------------------------- builder calls

  /** One call of the builder, with the rule its tokens stand for. */
  datatype Call =
    | AppendCall(command: string, chain: string, table: string, rule: Rule)
    | InsertCall(command: string, chain: string, table: string, position: nat, rule: Rule)

  function CallEntries(trace: bool, c: Call): seq<Entry> {
    match c
    case AppendCall(command, chain, table, rule) => AppendEntries(trace, command, chain, table, RuleTokens(rule))
    case InsertCall(command, chain, table, position, rule) =>
      InsertEntries(trace, command, chain, table, position, RuleTokens(rule))
  }

  function EntriesOf(trace: bool): Call -> seq<Entry> {
    (c: Call) => CallEntries(trace, c)
  }

  /** The rules the builder holds after a list of calls. */
  function Recorded(trace: bool, calls: seq<Call>): seq<Entry> {
    FlatMap(calls, EntriesOf(trace))
  }

  function ReplaceVersionSpecific(contents: string, inputs: seq<string>): seq<string> {
    seq(|inputs|, i requires 0 <= i < |inputs| =>
      if inputs[i] == IP_VERSION_SPECIFIC then contents else inputs[i])
  }

  // What replacing the placeholder means for the rule the tokens stand for.

  function Sub(address: string, value: string): string {
    if value == IP_VERSION_SPECIFIC then address else value
  }

  function SubMatch(address: string, m: Match): Match {
    m.(value := Sub(address, m.value))
  }

  function SubCond(address: string, c: Cond): Cond {
    c.(test := SubMatch(address, c.test))
  }

  function SubTarget(address: string, t: Target): Target {
    match t
    case Jump(c) => Jump(Sub(address, c))
    case Redirect(flag, port) => Redirect(Sub(address, flag), Sub(address, port))
    case Tproxy(mark, port) => Tproxy(Sub(address, mark), Sub(address, port))
    case SetMark(mark) => SetMark(Sub(address, mark))
    case Zone(zone) => Zone(Sub(address, zone))
    case NfLog(prefix) => NfLog(Sub(address, prefix))
    case _ => t
  }

  function SubRule(address: string, r: Rule): Rule {
    Rule(seq(|r.conds|, i requires 0 <= i < |r.conds| => SubCond(address, r.conds[i])), SubTarget(address, r.target))
  }

  lemma ReplaceConcat(address: string, a: seq<string>, b: seq<string>)
    ensures ReplaceVersionSpecific(address, a + b) == ReplaceVersionSpecific(address, a) + ReplaceVersionSpecific(address, b)
  {
  }

  lemma ReplaceCond(address: string, c: Cond)
    ensures ReplaceVersionSpecific(address, CondTokens(c)) == CondTokens(SubCond(address, c))
  {
    var c' := SubCond(address, c);
    assert OptionName(c'.test) == OptionName(c.test) && ModuleName(c'.test) == ModuleName(c.test);
  }

  lemma ReplaceTarget(address: string, t: Target)
    ensures ReplaceVersionSpecific(address, TargetTokens(t)) == TargetTokens(SubTarget(address, t))
  {
  }

  /** Replacing the placeholder in the tokens is replacing it in the rule. */
  lemma {:induction false} ReplaceRule(address: string, r: Rule)
    ensures ReplaceVersionSpecific(address, RuleTokens(r)) == RuleTokens(SubRule(address, r))
    decreases |r.conds|
  {
    var r' := SubRule(address, r);
    if r.conds == [] {
      ReplaceTarget(address, r.target);
      assert RuleTokens(r) == TargetTokens(r.target);
      assert RuleTokens(r') == TargetTokens(r'.target);
    } else {
      var rest := Rule(r.conds[1..], r.target);
      ReplaceRule(address, rest);
      ReplaceCond(address, r.conds[0]);
      RuleTokensCons(r.conds, r.target);
      ReplaceConcat(address, CondTokens(r.conds[0]), RuleTokens(rest));
      RuleTokensCons(r'.conds, r'.target);
      assert Rule(r'.conds[1..], r'.target) == SubRule(address, rest);
    }
  }

  // ---------------------------------------------------------------- rendering

  /** The set key the source tells chains apart by. */
  function ChainTable(): ChainId -> string {
    (id: ChainId) => id.chain + ":" + id.table
  }

  function UserChain(): Entry -> seq<ChainId> {
    (e: Entry) => if e.chain in BUILT_IN_CHAINS then [] else [ChainId(e.table, e.chain)]
  }

  /** The chains the entries mention that are not built in, in order. */
  function UserChains(entries: seq<Entry>): seq<ChainId> {
    FlatMap(entries, UserChain())
  }

  /** The chains to create, in order of first mention. */
  function NewChains(entries: seq<Entry>): seq<ChainId> {
    FirstOfEach(UserChains(entries), ChainTable())
  }

  /** What one more entry adds to the chains to create and to the set of keys. */
  lemma NewChainsStep(entries: seq<Entry>, e: Entry)
    ensures UserChains(entries + [e]) == UserChains(entries) + UserChain()(e)
    ensures if e.chain in BUILT_IN_CHAINS then
              NewChains(entries + [e]) == NewChains(entries)
            else
              && NewChains(entries + [e]) == NewChains(entries) +
                   (if e.chain + ":" + e.table in Keys(UserChains(entries), ChainTable()) then []
                    else [ChainId(e.table, e.chain)])
              && Keys(UserChains(entries + [e]), ChainTable()) ==
                   Keys(UserChains(entries), ChainTable()) + {e.chain + ":" + e.table}
  {
    FlatMapPush(entries, UserChain(), e);
    if e.chain in BUILT_IN_CHAINS {
      assert UserChains(entries) + [] == UserChains(entries);
    } else {
      FirstOfEachPush(UserChains(entries), ChainTable(), ChainId(e.table, e.chain));
    }
  }

  function NewLines(command: string, ids: seq<ChainId>): seq<seq<string>> {
    seq(|ids|, i requires 0 <= i < |ids| => [command, "-t", ids[i].table, "-N", ids[i].chain])
  }

  function RuleLines(command: string, entries: seq<Entry>): seq<seq<string>> {
    seq(|entries|, i requires 0 <= i < |entries| => [command, "-t", entries[i].table] + entries[i].params)
  }

  /** The chains looked up, and the line created, as one more entry is scanned. */
  lemma NewLinesStep(command: string, entries: seq<Entry>, e: Entry)
    ensures var lookup, known := Keys(UserChains(entries), ChainTable()),
                e.chain in BUILT_IN_CHAINS || e.chain + ":" + e.table in Keys(UserChains(entries), ChainTable());
            && Keys(UserChains(entries + [e]), ChainTable()) == (if known then lookup else lookup + {e.chain + ":" + e.table})
            && NewLines(command, NewChains(entries + [e])) ==
                 NewLines(command, NewChains(entries)) + (if known then [] else [[command, "-t", e.table, "-N", e.chain]])
  {
    NewChainsStep(entries, e);
    NewLinesPush(command, NewChains(entries), ChainId(e.table, e.chain));
    if e.chain in BUILT_IN_CHAINS {
      assert UserChains(entries) + [] == UserChains(entries);
    }
  }

  lemma NewLinesPush(command: string, ids: seq<ChainId>, id: ChainId)
    ensures NewLines(command, ids + [id]) == NewLines(command, ids) + [[command, "-t", id.table, "-N", id.chain]]
    ensures ids + [] == ids
  {
  }

  lemma RuleLinesPush(command: string, entries: seq<Entry>, e: Entry)
    ensures RuleLines(command, entries + [e]) == RuleLines(command, entries) + [[command, "-t", e.table] + e.params]
  {
  }

  /** All chain creations first, then the rules in the order they were recorded. */
  function BuildLines(command: string, entries: seq<Entry>): seq<seq<string>> {
    NewLines(command, NewChains(entries)) + RuleLines(command, entries)
  }

  // The table and the text of one line of the restore file.

  function TableOfChain(): ChainId -> string {
    (id: ChainId) => id.table
  }

  function NewText(): ChainId -> string {
    (id: ChainId) => "-N " + id.chain
  }

  function TableOfEntry(): Entry -> string {
    (e: Entry) => e.table
  }

  function RuleText(): Entry -> string {
    (e: Entry) => Text.Join(e.params, ' ')
  }

  /** The lines of one table: its chain creations, then its rules. */
  function TableTexts(table: string, entries: seq<Entry>): seq<string> {
    ValuesAt(NewChains(entries), TableOfChain(), NewText(), table) +
    ValuesAt(entries, TableOfEntry(), RuleText(), table)
  }

  function NoTexts(): map<string, seq<string>> {
    map[FILTER := [], NAT := [], MANGLE := []]
  }

  /** The source's map from tables to lines after its two passes. */
  function TableMap(entries: seq<Entry>): map<string, seq<string>> {
    Group(Group(NoTexts(), NewChains(entries), TableOfChain(), NewText()), entries, TableOfEntry(), RuleText())
  }

  /** The tables the restore file goes through: three always, any other when a rule names it. */
  function RestoreTables(entries: seq<Entry>): set<string> {
    NoTexts().Keys + Keys(entries, TableOfEntry())
  }

  /** Exactly the user chains of the entries are created. */
  lemma NewChainsMentioned(entries: seq<Entry>, id: ChainId)
    ensures id in NewChains(entries) ==>
              id.chain !in BUILT_IN_CHAINS && exists e :: e in entries && e.table == id.table && e.chain == id.chain
  {
    FirstOfEachDistinct(UserChains(entries), ChainTable());
    FlatMapMember(entries, UserChain(), id);
  }

  /** The two passes give each table the text the specification asks for. */
  lemma TableMapCorrect(entries: seq<Entry>, t: string)
    ensures t in TableMap(entries) <==> t in RestoreTables(entries)
    ensures t in TableMap(entries) ==> TableMap(entries)[t] == TableTexts(t, entries)
  {
    var ids := NewChains(entries);
    var created := Group(NoTexts(), ids, TableOfChain(), NewText());
    GroupHolds(NoTexts(), ids, TableOfChain(), NewText(), t);
    GroupHolds(created, entries, TableOfEntry(), RuleText(), t);
    assert Held(TableMap(entries), t) == [] + TableTexts(t, entries);
    if id :| id in ids && TableOfChain()(id) == t {
      NewChainsMentioned(entries, id);
    }
  }

  /** What one more entry adds to the map of the first pass. */
  lemma ChainTextsStep(empty: map<string, seq<string>>, entries: seq<Entry>, e: Entry)
    ensures var m := Group(empty, NewChains(entries), TableOfChain(), NewText());
            Group(empty, NewChains(entries + [e]), TableOfChain(), NewText()) ==
            if e.chain in BUILT_IN_CHAINS || e.chain + ":" + e.table in Keys(UserChains(entries), ChainTable()) then m
            else Put(m, e.table, "-N " + e.chain)
  {
    NewChainsStep(entries, e);
    var ids, id := NewChains(entries), ChainId(e.table, e.chain);
    GroupPush(empty, ids, TableOfChain(), NewText(), id);
    assert ids + [] == ids;
  }

  /** `order` lists every table of the file once. */
  ghost predicate IsTableOrder(order: seq<string>, entries: seq<Entry>) {
    && (forall t :: t in order <==> t in RestoreTables(entries))
    && (forall i, j :: 0 <= i < j < |order| ==> order[i] != order[j])
  }

  function TableBlock(entries: seq<Entry>): string -> seq<string> {
    (table: string) =>
      if TableTexts(table, entries) == [] then []
      else ["* " + table] + TableTexts(table, entries) + ["COMMIT"]
  }

  /** The restore file, one string a line, when the tables come in the given order. */
  function RestoreLines(order: seq<string>, entries: seq<Entry>): seq<string> {
    FlatMap(order, TableBlock(entries))
  }

  // ---------------------------------------------------------------- the builder object

  class IptablesBuilder {
    var rulesv4: seq<Entry>
    var rulesv6: seq<Entry>
    const traceLogging: bool
    const enableInboundIPv6: bool

    /** The calls made so far, for each family. */
    ghost var calls4: seq<Call>
    ghost var calls6: seq<Call>

    /** What a call records; a name that keeps the details out of the callers' proofs. */
    ghost const records: Call -> seq<Entry>

    ghost predicate Valid()
      reads this
    {
      && (forall c {:trigger CallEntries(traceLogging, c)} :: records(c) == CallEntries(traceLogging, c))
      && rulesv4 == FlatMap(calls4, records)
      && rulesv6 == if enableInboundIPv6 then FlatMap(calls6, records) else []
    }

    constructor (traceLogging: bool, enableInboundIPv6: bool)
      ensures Valid() && calls4 == [] && calls6 == []
      ensures this.traceLogging == traceLogging && this.enableInboundIPv6 == enableInboundIPv6
    {
      this.traceLogging := traceLogging;
      this.enableInboundIPv6 := enableInboundIPv6;
      rulesv4, rulesv6 := [], [];
      calls4, calls6 := [], [];
      records := EntriesOf(traceLogging);
    }

    lemma RulesRecorded()
      requires Valid()
      ensures rulesv4 == Recorded(traceLogging, calls4)
      ensures rulesv6 == if enableInboundIPv6 then Recorded(traceLogging, calls6) else []
    {
      SameRecords(calls4);
      SameRecords(calls6);
    }

    lemma SameRecords(calls: seq<Call>)
      requires Valid()
      ensures FlatMap(calls, records) == Recorded(traceLogging, calls)
    {
      forall c | c in calls ensures records(c) == EntriesOf(traceLogging)(c) {
        assert records(c) == CallEntries(traceLogging, c);
      }
      FlatMapSame(calls, records, EntriesOf(traceLogging));
    }

    method InsertInternal(ipt: seq<Entry>, command: string, chain: string, table: string, position: nat, params: seq<string>)
      returns (ipt': seq<Entry>)
      ensures ipt' == ipt + InsertEntries(traceLogging, command, chain, table, position, params)
    {
      ipt' := ipt + [Entry(chain, table, ["-I", chain, Commands.Decimal(position)] + params)];
      var idx := FindIndex("-j", params);
      if traceLogging && idx >= 0 && command != UNDEFINED_COMMAND {
        var match_ := params[..idx];
        match_ := match_ + ["-j", "NFLOG", "--nflog-prefix", Quoted(command), "--nflog-group", "1337", "--nflog-size", "20"];
        ipt' := ipt' + [Entry(chain, table, ["-I", chain, Commands.Decimal(position)] + match_)];
      }
    }

    method AppendInternal(ipt: seq<Entry>, command: string, chain: string, table: string, params: seq<string>)
      returns (ipt': seq<Entry>)
      ensures ipt' == ipt + AppendEntries(traceLogging, command, chain, table, params)
    {
      ipt' := ipt;
      var idx := FindIndex("-j", params);
      if traceLogging && idx >= 0 && command != UNDEFINED_COMMAND {
        var match_ := params[..idx];
        match_ := match_ + ["-j", "NFLOG", "--nflog-prefix", Quoted(command), "--nflog-group", "1337", "--nflog-size", "20"];
        ipt' := ipt' + [Entry(chain, table, ["-A", chain] + match_)];
      }
      ipt' := ipt' + [Entry(chain, table, ["-A", chain] + params)];
    }

    method AppendRuleV4(command: string, chain: string, table: string, params: seq<string>, ghost rule: Rule)
      requires Valid() && params == RuleTokens(rule)
      modifies this
      ensures Valid()
      ensures calls4 == old(calls4) + [AppendCall(command, chain, table, rule)] && calls6 == old(calls6)
    {
      rulesv4 := AppendInternal(rulesv4, command, chain, table, params);
      FlatMapPush(calls4, records, AppendCall(command, chain, table, rule));
      assert records(AppendCall(command, chain, table, rule)) == CallEntries(traceLogging, AppendCall(command, chain, table, rule));
      calls4 := calls4 + [AppendCall(command, chain, table, rule)];
    }

    method AppendRuleV6(command: string, chain: string, table: string, params: seq<string>, ghost rule: Rule)
      requires Valid() && params == RuleTokens(rule)
      modifies this
      ensures Valid()
      ensures calls6 == old(calls6) + [AppendCall(command, chain, table, rule)] && calls4 == old(calls4)
    {
      if enableInboundIPv6 {
        rulesv6 := AppendInternal(rulesv6, command, chain, table, params);
      }
      FlatMapPush(calls6, records, AppendCall(command, chain, table, rule));
      assert records(AppendCall(command, chain, table, rule)) == CallEntries(traceLogging, AppendCall(command, chain, table, rule));
      calls6 := calls6 + [AppendCall(command, chain, table, rule)];
    }

    method AppendRule(command: string, chain: string, table: string, params: seq<string>, ghost rule: Rule)
      requires Valid() && params == RuleTokens(rule)
      modifies this
      ensures Valid()
      ensures calls4 == old(calls4) + [AppendCall(command, chain, table, rule)]
      ensures calls6 == old(calls6) + [AppendCall(command, chain, table, rule)]
    {
      AppendRuleV4(command, chain, table, params, rule);
      AppendRuleV6(command, chain, table, params, rule);
    }

    method InsertRuleV4(command: string, chain: string, table: string, position: nat, params: seq<string>, ghost rule: Rule)
      requires Valid() && params == RuleTokens(rule)
      modifies this
      ensures Valid()
      ensures calls4 == old(calls4) + [InsertCall(command, chain, table, position, rule)] && calls6 == old(calls6)
    {
      rulesv4 := InsertInternal(rulesv4, command, chain, table, position, params);
      FlatMapPush(calls4, records, InsertCall(command, chain, table, position, rule));
      assert records(InsertCall(command, chain, table, position, rule)) == CallEntries(traceLogging, InsertCall(command, chain, table, position, rule));
      calls4 := calls4 + [InsertCall(command, chain, table, position, rule)];
    }

    method InsertRuleV6(command: string, chain: string, table: string, position: nat, params: seq<string>, ghost rule: Rule)
      requires Valid() && params == RuleTokens(rule)
      modifies this
      ensures Valid()
      ensures calls6 == old(calls6) + [InsertCall(command, chain, table, position, rule)] && calls4 == old(calls4)
    {
      if enableInboundIPv6 {
        rulesv6 := InsertInternal(rulesv6, command, chain, table, position, params);
      }
      FlatMapPush(calls6, records, InsertCall(command, chain, table, position, rule));
      assert records(InsertCall(command, chain, table, position, rule)) == CallEntries(traceLogging, InsertCall(command, chain, table, position, rule));
      calls6 := calls6 + [InsertCall(command, chain, table, position, rule)];
    }

    method InsertRule(command: string, chain: string, table: string, position: nat, params: seq<string>, ghost rule: Rule)
      requires Valid() && params == RuleTokens(rule)
      modifies this
      ensures Valid()
      ensures calls4 == old(calls4) + [InsertCall(command, chain, table, position, rule)]
      ensures calls6 == old(calls6) + [InsertCall(command, chain, table, position, rule)]
    {
      InsertRuleV4(command, chain, table, position, params, rule);
      InsertRuleV6(command, chain, table, position, params, rule);
    }

    method AppendVersionedRule(ipv4: string, ipv6: string, command: string, chain: string, table: string,
                               params: seq<string>, ghost rule: Rule)
      requires Valid() && params == RuleTokens(rule)
      modifies this
      ensures Valid()
      ensures calls4 == old(calls4) + [AppendCall(command, chain, table, SubRule(ipv4, rule))]
      ensures calls6 == old(calls6) + [AppendCall(command, chain, table, SubRule(ipv6, rule))]
    {
      ReplaceRule(ipv4, rule);
      ReplaceRule(ipv6, rule);
      var params4 := Replaced(ipv4, params);
      AppendRuleV4(command, chain, table, params4, SubRule(ipv4, rule));
      var params6 := Replaced(ipv6, params);
      AppendRuleV6(command, chain, table, params6, SubRule(ipv6, rule));
    }

    method Replaced(contents: string, inputs: seq<string>) returns (res: seq<string>)
      ensures res == ReplaceVersionSpecific(contents, inputs)
    {
      res := [];
      for i := 0 to |inputs|
        invariant |res| == i
        invariant forall k :: 0 <= k < i ==>
          res[k] == if inputs[k] == IP_VERSION_SPECIFIC then contents else inputs[k]
      {
        res := res + [if inputs[i] == IP_VERSION_SPECIFIC then contents else inputs[i]];
      }
    }

    method BuildRules(command: string, rules: seq<Entry>) returns (output: seq<seq<string>>)
      ensures output == BuildLines(command, rules)
    {
      output := [];
      var lookup: set<string> := {};
      for i := 0 to |rules|
        invariant lookup == Keys(UserChains(rules[..i]), ChainTable())
        invariant output == NewLines(command, NewChains(rules[..i]))
      {
        var r := rules[i];
        var chainTable := r.chain + ":" + r.table;
        assert rules[..i + 1] == rules[..i] + [r];
        if chainTable !in lookup {
          if r.chain !in BUILT_IN_CHAINS {
            output := output + [[command, "-t", r.table, "-N", r.chain]];
            lookup := lookup + {chainTable};
          }
        }
        NewLinesStep(command, rules[..i], r);
      }
      assert rules[..|rules|] == rules;
      ghost var created := output;
      for i := 0 to |rules|
        invariant output == created + RuleLines(command, rules[..i])
      {
        assert rules[..i + 1] == rules[..i] + [rules[i]];
        RuleLinesPush(command, rules[..i], rules[i]);
        output := output + [[command, "-t", rules[i].table] + rules[i].params];
      }
    }

    method BuildV4() returns (output: seq<seq<string>>)
      ensures output == BuildLines("iptables", rulesv4)
      ensures Valid() ==> output == BuildLines("iptables", Recorded(traceLogging, calls4))
    {
      if Valid() {
        RulesRecorded();
      }
      output := BuildRules("iptables", rulesv4);
    }

    method BuildV6() returns (output: seq<seq<string>>)
      ensures output == BuildLines("ip6tables", rulesv6)
      ensures Valid() ==> output == BuildLines("ip6tables", if enableInboundIPv6 then Recorded(traceLogging, calls6) else [])
    {
      if Valid() {
        RulesRecorded();
      }
      output := BuildRules("ip6tables", rulesv6);
    }

    /** Go visits the map's keys in an unspecified order; `order` is the one that was taken. */
    method ConstructRestoreContents(tableRules: map<string, seq<string>>, ghost rules: seq<Entry>)
      returns (lines: seq<string>, ghost order: seq<string>)
      requires tableRules == TableMap(rules)
      ensures IsTableOrder(order, rules)
      ensures lines == RestoreLines(order, rules)
    {
      lines, order := [], [];
      var left := tableRules.Keys;
      while left != {}
        invariant left <= tableRules.Keys
        invariant forall t :: t in order <==> t in tableRules.Keys && t !in left
        invariant forall i, j :: 0 <= i < j < |order| ==> order[i] != order[j]
        invariant lines == RestoreLines(order, rules)
        decreases left
      {
        var table :| table in left;
        left := left - {table};
        FlatMapPush(order, TableBlock(rules), table);
        TableMapCorrect(rules, table);
        order := order + [table];
        if |tableRules[table]| > 0 {
          lines := lines + (["* " + table] + tableRules[table] + ["COMMIT"]);
        }
      }
      forall t ensures t in order <==> t in RestoreTables(rules) {
        TableMapCorrect(rules, t);
      }
    }

    method BuildRestore(rules: seq<Entry>) returns (lines: seq<string>, ghost order: seq<string>)
      ensures IsTableOrder(order, rules)
      ensures lines == RestoreLines(order, rules)
    {
      var tableRules := ChainTexts(NoTexts(), rules);
      ghost var created := tableRules;
      for i := 0 to |rules|
        invariant tableRules == Group(created, rules[..i], TableOfEntry(), RuleText())
      {
        assert rules[..i + 1] == rules[..i] + [rules[i]];
        GroupPush(created, rules[..i], TableOfEntry(), RuleText(), rules[i]);
        tableRules := Put(tableRules, rules[i].table, Text.Join(rules[i].params, ' '));
      }
      assert rules[..|rules|] == rules;
      lines, order := ConstructRestoreContents(tableRules, rules);
    }

    /** The first loop of the source's buildRestore: a `-N` line for each new user chain. */
    method ChainTexts(empty: map<string, seq<string>>, rules: seq<Entry>) returns (tableRules: map<string, seq<string>>)
      ensures tableRules == Group(empty, NewChains(rules), TableOfChain(), NewText())
    {
      tableRules := empty;
      var lookup: set<string> := {};
      for i := 0 to |rules|
        invariant lookup == Keys(UserChains(rules[..i]), ChainTable())
        invariant tableRules == Group(empty, NewChains(rules[..i]), TableOfChain(), NewText())
      {
        var r := rules[i];
        var chainTable := r.chain + ":" + r.table;
        assert rules[..i + 1] == rules[..i] + [r];
        NewLinesStep("", rules[..i], r);
        ChainTextsStep(empty, rules[..i], r);
        if chainTable !in lookup {
          if r.chain !in BUILT_IN_CHAINS {
            tableRules := Put(tableRules, r.table, "-N " + r.chain);
            lookup := lookup + {chainTable};
          }
        }
      }
      assert rules[..|rules|] == rules;
    }
  }
}
