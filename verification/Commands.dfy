/** The packet filter commands: what each does to a firewall, and how command lines denote them. */
module Commands {
  import opened Optional
  import opened Netfilter

  datatype Command =
    | NewChain(id: ChainId)
    | AppendTo(id: ChainId, rule: Rule)
    | InsertAt(id: ChainId, position: nat, rule: Rule)
    | DeleteFrom(id: ChainId, rule: Rule)
    | Flush(id: ChainId)
    | DeleteChain(id: ChainId)

  // ---------------------------------------------------------------- effect on a firewall

  predicate TargetExists(fw: Firewall, table: string, t: Target) {
    t.Jump? ==> ChainId(table, t.chain) in fw && t.chain !in BUILT_IN_CHAINS
  }

  /** Some rule of the chain's table jumps to the chain. */
  ghost predicate Referenced(fw: Firewall, id: ChainId) {
    exists from :: from in fw && from.table == id.table && exists r :: r in fw[from] && r.target == Jump(id.chain)
  }

  function Inserted(rules: seq<Rule>, position: nat, r: Rule): seq<Rule>
    requires 1 <= position <= |rules| + 1
  {
    rules[..position - 1] + [r] + rules[position - 1..]
  }

  /** `rules` without the first rule equal to `r`. */
  function WithoutFirst(rules: seq<Rule>, r: Rule): seq<Rule> {
    if rules == [] then []
    else if rules[0] == r then rules[1..]
    else [rules[0]] + WithoutFirst(rules[1..], r)
  }

  /** One command; None when it fails, and then it changes nothing. */
  ghost function Step(fw: Firewall, c: Command): Option<Firewall> {
    match c
    case NewChain(id) =>
      if id in fw || id.chain in BUILT_IN_CHAINS then None else Some(fw[id := []])
    case AppendTo(id, r) =>
      if id !in fw || !TargetExists(fw, id.table, r.target) then None
      else Some(fw[id := fw[id] + [r]])
    case InsertAt(id, position, r) =>
      if id !in fw || !TargetExists(fw, id.table, r.target) || !(1 <= position <= |fw[id]| + 1) then None
      else Some(fw[id := Inserted(fw[id], position, r)])
    case DeleteFrom(id, r) =>
      if id !in fw || r !in fw[id] then None else Some(fw[id := WithoutFirst(fw[id], r)])
    case Flush(id) =>
      if id !in fw then None else Some(fw[id := []])
    case DeleteChain(id) =>
      if id !in fw || id.chain in BUILT_IN_CHAINS || fw[id] != [] || Referenced(fw, id) then None
      else Some(fw - {id})
  }

  /** A script that stops at the first failure. */
  ghost function Exec(fw: Firewall, script: seq<Command>): Option<Firewall>
    decreases |script|
  {
    if script == [] then
      Some(fw)
    else
      var next :- Step(fw, script[0]);
      Exec(next, script[1..])
  }

  /** A script whose failures are ignored. */
  ghost function ExecQuietly(fw: Firewall, script: seq<Command>): Firewall
    decreases |script|
  {
    if script == [] then
      fw
    else
      var next := Step(fw, script[0]);
      ExecQuietly(if next.Some? then next.value else fw, script[1..])
  }

  lemma {:induction false} ExecConcat(fw: Firewall, a: seq<Command>, b: seq<Command>)
    ensures Exec(fw, a + b) == var mid := Exec(fw, a); if mid.None? then None else Exec(mid.value, b)
    decreases |a|
  {
    if a == [] {
      assert a + b == b;
    } else {
      assert (a + b)[1..] == a[1..] + b;
      var next := Step(fw, a[0]);
      if next.Some? {
        ExecConcat(next.value, a[1..], b);
      }
    }
  }

  lemma {:induction false} ExecQuietlyConcat(fw: Firewall, a: seq<Command>, b: seq<Command>)
    ensures ExecQuietly(fw, a + b) == ExecQuietly(ExecQuietly(fw, a), b)
    decreases |a|
  {
    if a == [] {
      assert a + b == b;
    } else {
      assert (a + b)[1..] == a[1..] + b;
      var next := Step(fw, a[0]);
      ExecQuietlyConcat(if next.Some? then next.value else fw, a[1..], b);
    }
  }

  // ---------------------------------------------------------------- decimal positions

  function Decimal(n: nat): (s: string)
    ensures s != ""
  {
    if n < 10 then [Digit(n)] else Decimal(n / 10) + [Digit(n % 10)]
  }

  function Digit(d: nat): char
    requires d < 10
  {
    ('0' as int + d) as char
  }

  function ParseDecimal(s: string): Option<nat> {
    if s == "" then
      None
    else
      var last := s[|s| - 1];
      if !('0' <= last <= '9') then
        None
      else if |s| == 1 then
        Some(last as int - '0' as int)
      else
        var front :- ParseDecimal(s[..|s| - 1]);
        Some(10 * front + (last as int - '0' as int))
  }

  lemma {:induction false} ParseDecimalOf(n: nat)
    ensures ParseDecimal(Decimal(n)) == Some(n)
  {
    if n >= 10 {
      ParseDecimalOf(n / 10);
      assert Decimal(n)[..|Decimal(n)| - 1] == Decimal(n / 10);
    }
  }

  // ---------------------------------------------------------------- command lines

  /** Reads `-t table <operation> chain ...`, the arguments that follow the command's name. */
  function ParseCommand(args: seq<string>): Option<Command> {
    if |args| < 4 || args[0] != "-t" then
      None
    else
      var id := ChainId(args[1], args[3]);
      var body := args[4..];
      if args[2] == "-N" then
        if body == [] then Some(NewChain(id)) else None
      else if args[2] == "-F" then
        if body == [] then Some(Flush(id)) else None
      else if args[2] == "-X" then
        if body == [] then Some(DeleteChain(id)) else None
      else if args[2] == "-A" then
        var rule :- ParseRule(body, "", "");
        Some(AppendTo(id, rule))
      else if args[2] == "-D" then
        var rule :- ParseRule(body, "", "");
        Some(DeleteFrom(id, rule))
      else if args[2] == "-I" && body != [] then
        var position :- ParseDecimal(body[0]);
        var rule :- ParseRule(body[1..], "", "");
        Some(InsertAt(id, position, rule))
      else
        None
  }

  /** A script of command lines; a line that cannot be read fails. */
  ghost function ExecLines(fw: Firewall, lines: seq<seq<string>>): Option<Firewall>
    decreases |lines|
  {
    if lines == [] then
      Some(fw)
    else
      var command :- ParseCommand(lines[0]);
      var next :- Step(fw, command);
      ExecLines(next, lines[1..])
  }

  /** A script of command lines whose failures are ignored. */
  ghost function ExecLinesQuietly(fw: Firewall, lines: seq<seq<string>>): Firewall
    decreases |lines|
  {
    if lines == [] then
      fw
    else
      var command := ParseCommand(lines[0]);
      var next := if command.Some? then Step(fw, command.value) else None;
      ExecLinesQuietly(if next.Some? then next.value else fw, lines[1..])
  }

  /** `lines` are command lines for exactly the commands of `script`. */
  ghost predicate Denote(lines: seq<seq<string>>, script: seq<Command>) {
    |lines| == |script| && forall i :: 0 <= i < |lines| ==> ParseCommand(lines[i]) == Some(script[i])
  }

  lemma {:induction false} ExecDenoted(fw: Firewall, lines: seq<seq<string>>, script: seq<Command>)
    requires Denote(lines, script)
    ensures ExecLines(fw, lines) == Exec(fw, script)
    decreases |lines|
  {
    if lines != [] {
      assert ParseCommand(lines[0]) == Some(script[0]);
      var next := Step(fw, script[0]);
      if next.Some? {
        ExecDenoted(next.value, lines[1..], script[1..]);
      }
    }
  }

  lemma {:induction false} ExecQuietlyDenoted(fw: Firewall, lines: seq<seq<string>>, script: seq<Command>)
    requires Denote(lines, script)
    ensures ExecLinesQuietly(fw, lines) == ExecQuietly(fw, script)
    decreases |lines|
  {
    if lines != [] {
      assert ParseCommand(lines[0]) == Some(script[0]);
      var next := Step(fw, script[0]);
      ExecQuietlyDenoted(if next.Some? then next.value else fw, lines[1..], script[1..]);
    }
  }

  lemma DenoteConcat(a: seq<seq<string>>, x: seq<Command>, b: seq<seq<string>>, y: seq<Command>)
    requires Denote(a, x) && Denote(b, y)
    ensures Denote(a + b, x + y)
  {
  }

  // ---------------------------------------------------------------- scripts that only add rules

  predicate Adds(c: Command) {
    c.AppendTo? || c.InsertAt?
  }

  /** The chain named by a rule-adding command and its target, if a jump, are among `chains`. */
  predicate Anchored(c: Command, chains: set<ChainId>)
  {
    && Adds(c)
    && c.id in chains
    && (c.rule.target.Jump? ==>
          ChainId(c.id.table, c.rule.target.chain) in chains && c.rule.target.chain !in BUILT_IN_CHAINS)
  }

  /** What a script does to the content of one chain; None if an insertion falls outside it. */
  function ChainAfter(id: ChainId, rules: seq<Rule>, script: seq<Command>): Option<seq<Rule>>
    decreases |script|
  {
    if script == [] then
      Some(rules)
    else if script[0].id != id then
      ChainAfter(id, rules, script[1..])
    else
      match script[0]
      case AppendTo(_, r) => ChainAfter(id, rules + [r], script[1..])
      case InsertAt(_, position, r) =>
        if 1 <= position <= |rules| + 1 then ChainAfter(id, Inserted(rules, position, r), script[1..]) else None
      case _ => None
  }

  lemma {:induction false} ChainAfterConcat(id: ChainId, rules: seq<Rule>, a: seq<Command>, b: seq<Command>)
    ensures ChainAfter(id, rules, a + b) ==
            var mid := ChainAfter(id, rules, a); if mid.None? then None else ChainAfter(id, mid.value, b)
    decreases |a|
  {
    if a == [] {
      assert a + b == b;
    } else {
      assert (a + b)[1..] == a[1..] + b;
      if a[0].id != id {
        ChainAfterConcat(id, rules, a[1..], b);
      } else {
        match a[0]
        case AppendTo(_, r) => ChainAfterConcat(id, rules + [r], a[1..], b);
        case InsertAt(_, position, r) =>
          if 1 <= position <= |rules| + 1 {
            ChainAfterConcat(id, Inserted(rules, position, r), a[1..], b);
          }
        case _ =>
      }
    }
  }

  /**
   A script of anchored additions runs to the end exactly when no insertion falls outside its chain,
   and then every chain holds what ChainAfter says.
   */
  lemma {:induction false} ExecAdditions(fw: Firewall, script: seq<Command>)
    requires forall c :: c in script ==> Anchored(c, fw.Keys)
    ensures Exec(fw, script).Some? <==> forall id :: id in fw ==> ChainAfter(id, fw[id], script).Some?
    ensures Exec(fw, script).Some? ==>
              && Exec(fw, script).value.Keys == fw.Keys
              && forall id :: id in fw ==> Some(Exec(fw, script).value[id]) == ChainAfter(id, fw[id], script)
    decreases |script|
  {
    if script != [] {
      var c := script[0];
      assert Anchored(c, fw.Keys);
      var next := Step(fw, c);
      if next.Some? {
        assert next.value.Keys == fw.Keys;
        ExecAdditions(next.value, script[1..]);
        assert forall id :: id in fw ==>
          ChainAfter(id, next.value[id], script[1..]) == ChainAfter(id, fw[id], script);
      } else {
        assert ChainAfter(c.id, fw[c.id], script).None?;
      }
    }
  }

  /** The rules a script appends to one chain. */
  function AppendedOn(id: ChainId, script: seq<Command>): seq<Rule> {
    if script == [] then
      []
    else
      (if script[0].id == id && script[0].AppendTo? then [script[0].rule] else []) +
      AppendedOn(id, script[1..])
  }

  lemma {:induction false} AppendedOnConcat(id: ChainId, a: seq<Command>, b: seq<Command>)
    ensures AppendedOn(id, a + b) == AppendedOn(id, a) + AppendedOn(id, b)
    decreases |a|
  {
    if a == [] {
      assert a + b == b;
    } else {
      assert (a + b)[1..] == a[1..] + b;
      AppendedOnConcat(id, a[1..], b);
    }
  }

  /** On a chain a script only appends to, the old content keeps its place. */
  lemma {:induction false} ChainAfterAppends(id: ChainId, rules: seq<Rule>, script: seq<Command>)
    requires forall c :: c in script && c.id == id ==> c.AppendTo?
    ensures ChainAfter(id, rules, script) == Some(rules + AppendedOn(id, script))
    decreases |script|
  {
    if script == [] {
      assert rules + AppendedOn(id, script) == rules;
    } else {
      var c := script[0];
      assert c in script;
      if c.id == id {
        ChainAfterAppends(id, rules + [c.rule], script[1..]);
        assert rules + [c.rule] + AppendedOn(id, script[1..]) == rules + AppendedOn(id, script);
      } else {
        ChainAfterAppends(id, rules, script[1..]);
        assert rules + AppendedOn(id, script[1..]) == rules + AppendedOn(id, script);
      }
    }
  }

  /** Appends and insertions at the head always fit. */
  lemma {:induction false} ChainAfterFits(id: ChainId, rules: seq<Rule>, script: seq<Command>)
    requires forall c :: c in script ==> c.AppendTo? || (c.InsertAt? && c.position == 1)
    ensures ChainAfter(id, rules, script).Some?
    decreases |script|
  {
    if script != [] {
      var c := script[0];
      assert c in script;
      if c.id != id {
        ChainAfterFits(id, rules, script[1..]);
      } else if c.AppendTo? {
        ChainAfterFits(id, rules + [c.rule], script[1..]);
      } else {
        ChainAfterFits(id, Inserted(rules, 1, c.rule), script[1..]);
      }
    }
  }
}
