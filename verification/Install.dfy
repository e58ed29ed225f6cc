/** Running everything a builder recorded: when it succeeds, and what every chain then holds. */
module Install {
  import opened Optional
  import opened Sequences
  import opened Netfilter
  import opened Commands
  import opened Builder
  import opened CallScripts

  // ---------------------------------------------------------------- creating chains

  /** The firewall with some more, empty, chains. */
  function WithChains(fw: Firewall, ids: set<ChainId>): Firewall {
    fw + map id | id in ids :: []
  }

  function IdSet(ids: seq<ChainId>): set<ChainId> {
    set id | id in ids
  }

  lemma WithOneMore(fw: Firewall, id: ChainId, ids: set<ChainId>)
    ensures WithChains(fw[id := []], ids) == WithChains(fw, {id} + ids)
  {
  }

  predicate Creatable(fw: Firewall, ids: seq<ChainId>) {
    && (forall id :: id in ids ==> id !in fw && id.chain !in BUILT_IN_CHAINS)
    && (forall i, j :: 0 <= i < j < |ids| ==> ids[i] != ids[j])
  }

  lemma RestCreatable(fw: Firewall, ids: seq<ChainId>)
    requires Creatable(fw, ids) && ids != []
    ensures Creatable(fw[ids[0] := []], ids[1..])
    ensures Exec(fw, NewCommands(ids)) == Exec(fw[ids[0] := []], NewCommands(ids[1..]))
  {
    assert ids[0] in ids && NewCommands(ids)[1..] == NewCommands(ids[1..]);
    assert Step(fw, NewCommands(ids)[0]) == Some(fw[ids[0] := []]);
  }

  lemma {:induction false} ExecNew(fw: Firewall, ids: seq<ChainId>)
    requires Creatable(fw, ids)
    ensures Exec(fw, NewCommands(ids)) == Some(WithChains(fw, IdSet(ids)))
    decreases |ids|
  {
    if ids == [] {
      assert WithChains(fw, {}) == fw;
    } else {
      var first, rest := ids[0], ids[1..];
      RestCreatable(fw, ids);
      ExecNew(fw[first := []], rest);
      WithOneMore(fw, first, IdSet(rest));
      assert IdSet(ids) == {first} + IdSet(rest);
    }
  }

  // ---------------------------------------------------------------- which chains are created

  /** Chain and table can be told from the source's key, since no table has a colon in its name. */
  lemma KeyDeterminesChain(a: ChainId, b: ChainId)
    requires ':' !in a.table && ':' !in b.table
    requires a.chain + ":" + a.table == b.chain + ":" + b.table
    ensures a == b
  {
    var s := a.chain + ":" + a.table;
    assert s == b.chain + ":" + b.table;
    assert s[|a.chain|] == ':' && s[|b.chain|] == ':';
    assert forall k :: |a.chain| < k < |s| ==> s[k] == a.table[k - |a.chain| - 1];
    assert forall k :: |b.chain| < k < |s| ==> s[k] == b.table[k - |b.chain| - 1];
    assert |a.chain| == |b.chain|;
    assert a.chain == s[..|a.chain|] == b.chain;
    assert a.table == s[|a.chain| + 1..] == b.table;
  }

  /** The chains that calls mention and that are not built in. */
  function UserIds(calls: seq<Call>): set<ChainId> {
    set c | c in calls && c.chain !in BUILT_IN_CHAINS :: CallId(c)
  }

  lemma CallOfEntry(trace: bool, calls: seq<Call>, e: Entry)
    requires e in Recorded(trace, calls)
    ensures exists c :: c in calls && c.chain == e.chain && c.table == e.table
  {
    FlatMapMember(calls, EntriesOf(trace), e);
  }

  lemma EntryOfCall(trace: bool, calls: seq<Call>, c: Call)
    requires c in calls
    ensures exists e :: e in Recorded(trace, calls) && e.chain == c.chain && e.table == c.table
  {
    var entries := CallEntries(trace, c);
    var e := if c.AppendCall? then entries[|entries| - 1] else entries[0];
    assert e in EntriesOf(trace)(c);
    FlatMapMember(calls, EntriesOf(trace), e);
  }

  /** A user chain of the calls is created. */
  lemma UserChainCreated(trace: bool, calls: seq<Call>, c: Call)
    requires forall d :: d in calls ==> ':' !in d.table
    requires c in calls && c.chain !in BUILT_IN_CHAINS
    ensures CallId(c) in NewChains(Recorded(trace, calls))
  {
    var entries := Recorded(trace, calls);
    EntryOfCall(trace, calls, c);
    var e :| e in entries && e.chain == c.chain && e.table == c.table;
    var id := CallId(c);
    assert id in UserChain()(e);
    FlatMapMember(entries, UserChain(), id);
    assert ChainTable()(id) in Keys(UserChains(entries), ChainTable());
    FirstOfEachDistinct(UserChains(entries), ChainTable());
    var same :| same in NewChains(entries) && ChainTable()(same) == ChainTable()(id);
    NewChainsMentioned(entries, same);
    var e' :| e' in entries && e'.table == same.table && e'.chain == same.chain;
    CallOfEntry(trace, calls, e');
    KeyDeterminesChain(same, id);
  }

  /** Each user chain is created exactly once in its table, and no built-in chain is. */
  lemma ChainsCreated(trace: bool, calls: seq<Call>)
    requires forall c :: c in calls ==> ':' !in c.table
    ensures var ids := NewChains(Recorded(trace, calls));
            && IdSet(ids) == UserIds(calls)
            && (forall i, j :: 0 <= i < j < |ids| ==> ids[i] != ids[j])
            && (forall id :: id in ids ==> id.chain !in BUILT_IN_CHAINS)
  {
    var entries := Recorded(trace, calls);
    var ids := NewChains(entries);
    FirstOfEachDistinct(UserChains(entries), ChainTable());
    forall id ensures id in ids <==> id in UserIds(calls) {
      if id in ids {
        NewChainsMentioned(entries, id);
        var e :| e in entries && e.table == id.table && e.chain == id.chain;
        CallOfEntry(trace, calls, e);
      }
      if c :| c in calls && c.chain !in BUILT_IN_CHAINS && CallId(c) == id {
        UserChainCreated(trace, calls, c);
      }
    }
    forall id | id in ids ensures id.chain !in BUILT_IN_CHAINS {
      NewChainsMentioned(entries, id);
    }
  }

  // ---------------------------------------------------------------- running the whole

  /** Calls whose chains are built in and present, or new; and whose jumps go to chains they fill. */
  ghost predicate Installable(fw: Firewall, trace: bool, calls: seq<Call>) {
    && (forall c :: c in calls ==> Readable(trace, c) && ':' !in c.table)
    && (forall c :: c in calls && c.chain in BUILT_IN_CHAINS ==> CallId(c) in fw)
    && (forall id :: id in UserIds(calls) ==> id !in fw)
    && (forall c :: c in calls && c.rule.target.Jump? ==> ChainId(c.table, c.rule.target.chain) in UserIds(calls))
  }

  function Before(fw: Firewall, id: ChainId): seq<Rule> {
    if id in fw then fw[id] else []
  }

  lemma ScriptAnchored(fw: Firewall, trace: bool, calls: seq<Call>, x: Command)
    requires Installable(fw, trace, calls)
    requires x in Script(trace, calls)
    ensures Anchored(x, fw.Keys + UserIds(calls))
  {
    FlatMapMember(calls, CommandsOf(trace), x);
    var c :| c in calls && x in CommandsOf(trace)(c);
    if c.chain !in BUILT_IN_CHAINS {
      assert CallId(c) in UserIds(calls);
    }
  }

  /** The recorded lines run as: create the chains, then add the rules. */
  lemma InstallRuns(fw: Firewall, command: string, trace: bool, calls: seq<Call>)
    requires Installable(fw, trace, calls)
    ensures ExecLines(fw, Arguments(BuildLines(command, Recorded(trace, calls)))) ==
            Exec(WithChains(fw, UserIds(calls)), Script(trace, calls))
  {
    var lines := Arguments(BuildLines(command, Recorded(trace, calls)));
    var ids := NewChains(Recorded(trace, calls));
    BuildDenotes(command, trace, calls);
    ExecDenoted(fw, lines, NewCommands(ids) + Script(trace, calls));
    ExecConcat(fw, NewCommands(ids), Script(trace, calls));
    ChainsCreated(trace, calls);
    assert forall id :: id in ids ==> id in UserIds(calls);
    assert IdSet(ids) == UserIds(calls);
    ExecNew(fw, ids);
  }

  /**
   What the recorded rules do to a firewall, line by line: they succeed exactly when every insertion
   fits, and then only chains the calls name have changed.
   */
  lemma Installs(fw: Firewall, command: string, trace: bool, calls: seq<Call>)
    requires Installable(fw, trace, calls)
    ensures var r := ExecLines(fw, Arguments(BuildLines(command, Recorded(trace, calls))));
            var ids := fw.Keys + UserIds(calls);
            && (r.Some? <==> forall id :: id in ids ==> ChainAfter(id, Before(fw, id), Script(trace, calls)).Some?)
            && (r.Some? ==>
                  && r.value.Keys == ids
                  && forall id :: id in ids ==> Some(r.value[id]) == ChainAfter(id, Before(fw, id), Script(trace, calls)))
  {
    var script := Script(trace, calls);
    InstallRuns(fw, command, trace, calls);
    var mid := WithChains(fw, UserIds(calls));
    assert mid.Keys == fw.Keys + UserIds(calls);
    assert forall id :: id in mid ==> mid[id] == Before(fw, id);
    forall x | x in script ensures Anchored(x, mid.Keys) {
      ScriptAnchored(fw, trace, calls, x);
    }
    ExecAdditions(mid, script);
  }
}
