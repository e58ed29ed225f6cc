/** Running the cleaner after the configurator: when it gives the host its firewall back. */
module Uninstall {
  import opened Optional
  import opened Sequences
  import opened Netfilter
  import opened Commands
  import opened Install
  import opened Capture
  import opened Cleaner

  // ---------------------------------------------------------------- deleting rules

  /** The rules a script deletes from one chain. */
  function DeletedOn(id: ChainId, script: seq<Command>): seq<Rule> {
    if script == [] then []
    else (if script[0].id == id && script[0].DeleteFrom? then [script[0].rule] else []) + DeletedOn(id, script[1..])
  }

  lemma {:induction false} DeletedOnConcat(id: ChainId, a: seq<Command>, b: seq<Command>)
    ensures DeletedOn(id, a + b) == DeletedOn(id, a) + DeletedOn(id, b)
    decreases |a|
  {
    if a == [] {
      assert a + b == b;
    } else {
      assert (a + b)[1..] == a[1..] + b;
      DeletedOnConcat(id, a[1..], b);
    }
  }

  /** `rules` after one attempt to delete each of `gone`. */
  function Without(rules: seq<Rule>, gone: seq<Rule>): seq<Rule>
    decreases |gone|
  {
    if gone == [] then rules else Without(WithoutFirst(rules, gone[0]), gone[1..])
  }

  lemma {:induction false} WithoutAbsent(rules: seq<Rule>, r: Rule)
    requires r !in rules
    ensures WithoutFirst(rules, r) == rules
    decreases |rules|
  {
    if rules != [] {
      assert rules[0] in rules;
      assert forall x :: x in rules[1..] ==> x in rules;
      WithoutAbsent(rules[1..], r);
    }
  }

  lemma {:induction false} WithoutFirstCount(rules: seq<Rule>, r: Rule)
    ensures multiset(WithoutFirst(rules, r)) == multiset(rules) - multiset{r}
    decreases |rules|
  {
    if rules != [] {
      assert rules == [rules[0]] + rules[1..];
      if rules[0] != r {
        WithoutFirstCount(rules[1..], r);
      }
    }
  }

  /** Deleting only touches what comes after a part that holds none of the deleted rules. */
  lemma {:induction false} WithoutFirstAfter(before: seq<Rule>, rules: seq<Rule>, r: Rule)
    requires r !in before
    ensures WithoutFirst(before + rules, r) == before + WithoutFirst(rules, r)
    decreases |before|
  {
    if before == [] {
      assert before + rules == rules;
    } else {
      assert (before + rules)[1..] == before[1..] + rules;
      assert before[0] in before && forall x :: x in before[1..] ==> x in before;
      WithoutFirstAfter(before[1..], rules, r);
    }
  }

  lemma {:induction false} WithoutAfter(before: seq<Rule>, rules: seq<Rule>, gone: seq<Rule>)
    requires forall r :: r in gone ==> r !in before
    ensures Without(before + rules, gone) == before + Without(rules, gone)
    decreases |gone|
  {
    if gone != [] {
      assert gone[0] in gone && forall r :: r in gone[1..] ==> r in gone;
      WithoutFirstAfter(before, rules, gone[0]);
      WithoutAfter(before, WithoutFirst(rules, gone[0]), gone[1..]);
    }
  }

  /** Nothing is left of rules each of which is deleted as often as it occurs. */
  lemma {:induction false} WithoutEverything(rules: seq<Rule>, gone: seq<Rule>)
    requires multiset(rules) <= multiset(gone)
    ensures Without(rules, gone) == []
    decreases |gone|
  {
    if gone == [] {
      assert |multiset(rules)| == |rules|;
      assert multiset(rules) == multiset{};
    } else {
      assert gone == [gone[0]] + gone[1..];
      WithoutFirstCount(rules, gone[0]);
      WithoutEverything(WithoutFirst(rules, gone[0]), gone[1..]);
    }
  }

  /** A script of deletions acts on each chain by itself. */
  lemma {:induction false} ExecDeletes(fw: Firewall, script: seq<Command>)
    requires forall c :: c in script ==> c.DeleteFrom?
    ensures ExecQuietly(fw, script).Keys == fw.Keys
    ensures forall id :: id in fw ==> ExecQuietly(fw, script)[id] == Without(fw[id], DeletedOn(id, script))
    decreases |script|
  {
    if script != [] {
      var c := script[0];
      assert c in script;
      var next := Step(fw, c);
      var fw' := if next.Some? then next.value else fw;
      assert fw'.Keys == fw.Keys;
      ExecDeletes(fw', script[1..]);
      forall id | id in fw ensures Without(fw'[id], DeletedOn(id, script[1..])) == Without(fw[id], DeletedOn(id, script)) {
        if c.id == id {
          if next.None? {
            WithoutAbsent(fw[id], c.rule);
          }
          assert fw'[id] == WithoutFirst(fw[id], c.rule);
          assert DeletedOn(id, script)[0] == c.rule && DeletedOn(id, script)[1..] == DeletedOn(id, script[1..]);
        } else {
          assert DeletedOn(id, script) == DeletedOn(id, script[1..]);
        }
      }
    }
  }

  // ---------------------------------------------------------------- removing chains

  /** No `-X` of the script comes to a chain that still has rules or that some rule still jumps to. */
  ghost predicate DeletesCleanly(fw: Firewall, script: seq<Command>)
    decreases |script|
  {
    if script == [] then
      true
    else
      var c := script[0];
      var next := Step(fw, c);
      && (c.DeleteChain? && c.id in fw ==> fw[c.id] == [] && !Referenced(fw, c.id))
      && DeletesCleanly(if next.Some? then next.value else fw, script[1..])
  }

  lemma {:induction false} DeletesCleanlyConcat(fw: Firewall, a: seq<Command>, b: seq<Command>)
    ensures DeletesCleanly(fw, a + b) <==> DeletesCleanly(fw, a) && DeletesCleanly(ExecQuietly(fw, a), b)
    decreases |a|
  {
    if a == [] {
      assert a + b == b;
    } else {
      assert (a + b)[1..] == a[1..] + b;
      var next := Step(fw, a[0]);
      DeletesCleanlyConcat(if next.Some? then next.value else fw, a[1..], b);
    }
  }

  lemma {:induction false} NoChainDeleted(fw: Firewall, script: seq<Command>)
    requires forall c :: c in script ==> !c.DeleteChain?
    ensures DeletesCleanly(fw, script)
    decreases |script|
  {
    if script != [] {
      assert script[0] in script;
      var next := Step(fw, script[0]);
      NoChainDeleted(if next.Some? then next.value else fw, script[1..]);
    }
  }

  function RemoveOf(id: ChainId): seq<Command> { [Flush(id), DeleteChain(id)] }

  predicate JumpsTo(rules: seq<Rule>, chain: string) {
    exists r :: r in rules && r.target == Jump(chain)
  }

  /** Only the chain itself may jump to it. */
  predicate FreeToGo(fw: Firewall, id: ChainId) {
    && id.chain !in BUILT_IN_CHAINS
    && forall from :: from in fw && from != id && from.table == id.table ==> !JumpsTo(fw[from], id.chain)
  }

  lemma RemoveOne(fw: Firewall, id: ChainId)
    requires FreeToGo(fw, id)
    ensures ExecQuietly(fw, RemoveOf(id)) == fw - {id} && DeletesCleanly(fw, RemoveOf(id))
  {
    var flushed := if id in fw then fw[id := []] else fw;
    TwoSteps(fw, Flush(id), DeleteChain(id), flushed, fw - {id});
    if id in fw {
      assert forall from :: from in flushed && from.table == id.table ==> !JumpsTo(flushed[from], id.chain);
      assert flushed - {id} == fw - {id};
    } else {
      assert fw - {id} == fw;
    }
  }

  lemma TwoSteps(fw: Firewall, a: Command, b: Command, mid: Firewall, end: Firewall)
    requires mid == if Step(fw, a).Some? then Step(fw, a).value else fw
    requires !a.DeleteChain? && b.DeleteChain?
    ensures (end == if Step(mid, b).Some? then Step(mid, b).value else mid) ==> ExecQuietly(fw, [a, b]) == end
    ensures (b.id in mid ==> mid[b.id] == [] && !Referenced(mid, b.id)) ==> DeletesCleanly(fw, [a, b])
  {
    assert [a, b][1..] == [b] && [b][1..] == [];
    assert ExecQuietly(mid, [b]) == if Step(mid, b).Some? then Step(mid, b).value else mid;
    assert DeletesCleanly(mid, [b]) <==> (b.id in mid ==> mid[b.id] == [] && !Referenced(mid, b.id));
  }

  function RemoveEach(ids: seq<ChainId>): seq<Command> {
    if ids == [] then [] else RemoveOf(ids[0]) + RemoveEach(ids[1..])
  }

  /** Each chain is jumped to only by itself and by chains removed before it. */
  predicate InOrder(fw: Firewall, ids: seq<ChainId>)
    decreases |ids|
  {
    ids == [] || (FreeToGo(fw, ids[0]) && InOrder(fw - {ids[0]}, ids[1..]))
  }

  lemma {:induction false} RemoveAll(fw: Firewall, ids: seq<ChainId>)
    requires InOrder(fw, ids)
    ensures ExecQuietly(fw, RemoveEach(ids)) == fw - IdSet(ids) && DeletesCleanly(fw, RemoveEach(ids))
    decreases |ids|
  {
    if ids == [] {
      assert fw - IdSet(ids) == fw;
    } else {
      RemoveOne(fw, ids[0]);
      RemoveAll(fw - {ids[0]}, ids[1..]);
      ExecQuietlyConcat(fw, RemoveOf(ids[0]), RemoveEach(ids[1..]));
      DeletesCleanlyConcat(fw, RemoveOf(ids[0]), RemoveEach(ids[1..]));
      assert IdSet(ids) == {ids[0]} + IdSet(ids[1..]);
      assert fw - {ids[0]} - IdSet(ids[1..]) == fw - IdSet(ids);
    }
  }

  /** The chains the cleaner removes, in its order. */
  function Removed(): seq<ChainId> {
    [ChainId(NAT, ISTIO_OUTPUT), ChainId(NAT, ISTIO_INBOUND),
     ChainId(MANGLE, ISTIO_INBOUND), ChainId(MANGLE, ISTIO_DIVERT), ChainId(MANGLE, ISTIO_TPROXY),
     ChainId(NAT, ISTIO_REDIRECT), ChainId(NAT, ISTIO_IN_REDIRECT)]
  }

  function InTable(table: string, chains: seq<string>): seq<ChainId> {
    seq(|chains|, i requires 0 <= i < |chains| => ChainId(table, chains[i]))
  }

  lemma {:induction false} RemoveEachConcat(a: seq<ChainId>, b: seq<ChainId>)
    ensures RemoveEach(a + b) == RemoveEach(a) + RemoveEach(b)
    decreases |a|
  {
    if a == [] {
      assert a + b == b;
    } else {
      assert (a + b)[1..] == a[1..] + b;
      RemoveEachConcat(a[1..], b);
    }
  }

  lemma {:induction false} RemoveInTable(table: string, chains: seq<string>)
    ensures FlatMap(chains, Remove(table)) == RemoveEach(InTable(table, chains))
  {
    if chains != [] {
      var front, last := chains[..|chains| - 1], chains[|chains| - 1];
      RemoveInTable(table, front);
      RemoveEachConcat(InTable(table, front), [ChainId(table, last)]);
      assert InTable(table, chains) == InTable(table, front) + [ChainId(table, last)];
      var one := [ChainId(table, last)];
      assert one[1..] == [];
      assert RemoveEach(one) == RemoveOf(one[0]) + RemoveEach([]);
    }
  }

  lemma RemovalsOf()
    ensures Removals() == RemoveEach(Removed())
  {
    RemoveInTable(NAT, [ISTIO_OUTPUT, ISTIO_INBOUND]);
    RemoveInTable(MANGLE, [ISTIO_INBOUND, ISTIO_DIVERT, ISTIO_TPROXY]);
    RemoveInTable(NAT, [ISTIO_REDIRECT, ISTIO_IN_REDIRECT]);
    var a, b, c := InTable(NAT, [ISTIO_OUTPUT, ISTIO_INBOUND]), InTable(MANGLE, [ISTIO_INBOUND, ISTIO_DIVERT, ISTIO_TPROXY]),
                   InTable(NAT, [ISTIO_REDIRECT, ISTIO_IN_REDIRECT]);
    RemoveEachConcat(a, b);
    RemoveEachConcat(a + b, c);
    assert a + b + c == Removed();
  }

  /** Chains can go in this order when what remains at each point does not jump to the next. */
  lemma {:induction false} InOrderIf(fw: Firewall, ids: seq<ChainId>)
    requires forall id :: id in ids ==> id.chain !in BUILT_IN_CHAINS
    requires forall i, from :: 0 <= i < |ids| && from in fw && from !in ids[..i + 1] && from.table == ids[i].table ==>
               !JumpsTo(fw[from], ids[i].chain)
    ensures InOrder(fw, ids)
    decreases |ids|
  {
    if ids != [] {
      var rest, fw' := ids[1..], fw - {ids[0]};
      assert ids[0] in ids && ids[..1] == [ids[0]];
      assert FreeToGo(fw, ids[0]);
      forall i, from | 0 <= i < |rest| && from in fw' && from !in rest[..i + 1] && from.table == rest[i].table
        ensures !JumpsTo(fw'[from], rest[i].chain)
      {
        assert ids[..i + 2] == [ids[0]] + rest[..i + 1];
        assert from !in ids[..(i + 1) + 1] && rest[i] == ids[i + 1];
      }
      InOrderIf(fw', rest);
    }
  }
}
