/**
 Packet filter rules: their typed form, their command-line tokens, and what a chain of them does to
 a packet. A packet is represented by the tests it passes, so nothing is assumed about how ports,
 address ranges, users or groups are written.
 */
module Netfilter {
  import opened Optional
  import opened Sequences

  // ---------------------------------------------------------------- names

  const NAT := "nat"
  const MANGLE := "mangle"
  const RAW := "raw"
  const FILTER := "filter"

  const PREROUTING := "PREROUTING"
  const INPUT := "INPUT"
  const FORWARD := "FORWARD"
  const OUTPUT := "OUTPUT"
  const POSTROUTING := "POSTROUTING"

  const BUILT_IN_CHAINS := {PREROUTING, INPUT, FORWARD, OUTPUT, POSTROUTING}

  /** The target names that are not jumps to a chain of the table. */
  const EXTENSIONS := {"RETURN", "ACCEPT", "DROP", "REDIRECT", "MARK", "CONNMARK", "TPROXY", "CT", "NFLOG"}

  // ---------------------------------------------------------------- typed rules

  datatype Match =
    | Protocol(value: string)
    | InInterface(value: string)
    | OutInterface(value: string)
    | Source(value: string)
    | Destination(value: string)
    | SourcePort(value: string)
    | DestPort(value: string)
    | UidOwner(value: string)
    | GidOwner(value: string)
    | CtState(value: string)
    | Mark(value: string)
    | ConnMark(value: string)

  datatype Cond = Cond(negated: bool, test: Match)

  function Is(test: Match): Cond { Cond(false, test) }

  function Not(test: Match): Cond { Cond(true, test) }

  datatype Target =
    | Return
    | Accept
    | Drop
    | Jump(chain: string)
    | Redirect(flag: string, port: string)
    | Tproxy(mark: string, port: string)
    | SetMark(mark: string)
    | SaveMark
    | RestoreMark
    | Zone(zone: string)
    | NfLog(prefix: string)

  datatype Rule = Rule(conds: seq<Cond>, target: Target)

  // ---------------------------------------------------------------- tokens

  function OptionName(m: Match): string {
    match m
    case Protocol(_) => "-p"
    case InInterface(_) => "-i"
    case OutInterface(_) => "-o"
    case Source(_) => "-s"
    case Destination(_) => "-d"
    case SourcePort(_) => "--sport"
    case DestPort(_) => "--dport"
    case UidOwner(_) => "--uid-owner"
    case GidOwner(_) => "--gid-owner"
    case CtState(_) => "--ctstate"
    case Mark(_) => "--mark"
    case ConnMark(_) => "--mark"
  }

  /** The match extension an option belongs to; empty for options every rule may use. */
  function ModuleName(m: Match): string {
    match m
    case UidOwner(_) => "owner"
    case GidOwner(_) => "owner"
    case CtState(_) => "conntrack"
    case Mark(_) => "mark"
    case ConnMark(_) => "connmark"
    case _ => ""
  }

  function CondTokens(c: Cond): seq<string> {
    (if ModuleName(c.test) == "" then [] else ["-m", ModuleName(c.test)]) +
    (if c.negated then ["!"] else []) +
    [OptionName(c.test), c.test.value]
  }

  function CondsTokens(conds: seq<Cond>): seq<string> {
    if conds == [] then [] else CondTokens(conds[0]) + CondsTokens(conds[1..])
  }

  function TargetTokens(t: Target): seq<string> {
    match t
    case Return => ["-j", "RETURN"]
    case Accept => ["-j", "ACCEPT"]
    case Drop => ["-j", "DROP"]
    case Jump(c) => ["-j", c]
    case Redirect(flag, port) => ["-j", "REDIRECT", flag, port]
    case Tproxy(mark, port) => ["-j", "TPROXY", "--tproxy-mark", mark, "--on-port", port]
    case SetMark(mark) => ["-j", "MARK", "--set-mark", mark]
    case SaveMark => ["-j", "CONNMARK", "--save-mark"]
    case RestoreMark => ["-j", "CONNMARK", "--restore-mark"]
    case Zone(zone) => ["-j", "CT", "--zone", zone]
    case NfLog(prefix) =>
      ["-j", "NFLOG", "--nflog-prefix", prefix, "--nflog-group", "1337", "--nflog-size", "20"]
  }

  function RuleTokens(r: Rule): seq<string> {
    CondsTokens(r.conds) + TargetTokens(r.target)
  }

  /** What a target says beyond its name and options. */
  function TargetValues(t: Target): set<string> {
    match t
    case Jump(chain) => {chain}
    case Redirect(flag, port) => {flag, port}
    case Tproxy(mark, port) => {mark, port}
    case SetMark(mark) => {mark}
    case Zone(zone) => {zone}
    case NfLog(prefix) => {prefix}
    case _ => {}
  }

  lemma RuleTokensCons(conds: seq<Cond>, t: Target)
    requires conds != []
    ensures RuleTokens(Rule(conds, t)) == CondTokens(conds[0]) + RuleTokens(Rule(conds[1..], t))
  {
    Assoc(CondTokens(conds[0]), CondsTokens(conds[1..]), TargetTokens(t));
  }

  // ---------------------------------------------------------------- reading tokens back

  predicate CarriesPorts(proto: string) {
    proto == "tcp" || proto == "udp"
  }

  /** One `option value` pair; port tests need a protocol, extension tests need their `-m`. */
  function ParseTest(mod: string, proto: string, option: string, value: string): Option<Match> {
    if option == "-p" then Some(Protocol(value))
    else if option == "-i" then Some(InInterface(value))
    else if option == "-o" then Some(OutInterface(value))
    else if option == "-s" then Some(Source(value))
    else if option == "-d" then Some(Destination(value))
    else if option == "--sport" && CarriesPorts(proto) then Some(SourcePort(value))
    else if option == "--dport" && CarriesPorts(proto) then Some(DestPort(value))
    else if option == "--uid-owner" && mod == "owner" then Some(UidOwner(value))
    else if option == "--gid-owner" && mod == "owner" then Some(GidOwner(value))
    else if option == "--ctstate" && mod == "conntrack" then Some(CtState(value))
    else if option == "--mark" && mod == "mark" then Some(Mark(value))
    else if option == "--mark" && mod == "connmark" then Some(ConnMark(value))
    else None
  }

  function ParseTarget(toks: seq<string>, proto: string): Option<Target>
    requires toks != []
  {
    var name := toks[0];
    if name !in EXTENSIONS then
      if |toks| == 1 then Some(Jump(name)) else None
    else if |toks| == 1 then
      if name == "RETURN" then Some(Return)
      else if name == "ACCEPT" then Some(Accept)
      else if name == "DROP" then Some(Drop)
      else None
    else if |toks| == 2 then
      if name == "CONNMARK" && toks[1] == "--save-mark" then Some(SaveMark)
      else if name == "CONNMARK" && toks[1] == "--restore-mark" then Some(RestoreMark)
      else None
    else if |toks| == 3 then
      if name == "REDIRECT" && toks[1] in {"--to-ports", "--to-port"} && CarriesPorts(proto) then
        Some(Redirect(toks[1], toks[2]))
      else if name == "MARK" && toks[1] == "--set-mark" then Some(SetMark(toks[2]))
      else if name == "CT" && toks[1] == "--zone" then Some(Zone(toks[2]))
      else None
    else if |toks| == 5 && name == "TPROXY" && CarriesPorts(proto) &&
            toks[1] == "--tproxy-mark" && toks[3] == "--on-port" then
      Some(Tproxy(toks[2], toks[4]))
    else if |toks| == 7 && name == "NFLOG" && toks[1] == "--nflog-prefix" &&
            toks[3..] == ["--nflog-group", "1337", "--nflog-size", "20"] then
      Some(NfLog(toks[2]))
    else
      None
  }

  function NextProtocol(c: Cond, proto: string): string {
    if c.test.Protocol? && !c.negated then c.test.value else proto
  }

  /** Reads a rule body left to right; `-j` ends it. */
  function ParseRule(toks: seq<string>, mod: string, proto: string): Option<Rule> {
    if |toks| < 2 then
      None
    else if toks[0] == "-m" then
      if toks[1] in {"owner", "conntrack", "mark", "connmark"} then
        ParseRule(toks[2..], toks[1], proto)
      else
        None
    else if toks[0] == "-j" then
      var target :- ParseTarget(toks[1..], proto);
      Some(Rule([], target))
    else if toks[0] == "!" then
      if |toks| < 3 then None else
      var test :- ParseTest(mod, proto, toks[1], toks[2]);
      var rest :- ParseRule(toks[3..], mod, NextProtocol(Not(test), proto));
      Some(Rule([Not(test)] + rest.conds, rest.target))
    else
      var test :- ParseTest(mod, proto, toks[0], toks[1]);
      var rest :- ParseRule(toks[2..], mod, NextProtocol(Is(test), proto));
      Some(Rule([Is(test)] + rest.conds, rest.target))
  }

  // ---------------------------------------------------------------- tokens are unambiguous

  predicate GoodTarget(t: Target, proto: string) {
    match t
    case Jump(c) => c !in EXTENSIONS
    case Redirect(flag, _) => flag in {"--to-ports", "--to-port"} && CarriesPorts(proto)
    case Tproxy(_, _) => CarriesPorts(proto)
    case _ => true
  }

  /** A rule whose port tests and port targets come after a protocol that has ports. */
  predicate GoodRule(conds: seq<Cond>, target: Target, proto: string) {
    if conds == [] then
      GoodTarget(target, proto)
    else
      && (conds[0].test.SourcePort? || conds[0].test.DestPort? ==> CarriesPorts(proto))
      && GoodRule(conds[1..], target, NextProtocol(conds[0], proto))
  }

  lemma ParseTargetTokens(t: Target, proto: string)
    requires GoodTarget(t, proto)
    ensures TargetTokens(t)[0] == "-j"
    ensures ParseTarget(TargetTokens(t)[1..], proto) == Some(t)
  {
    var toks := TargetTokens(t)[1..];
    if t.NfLog? {
      assert toks[3..] == ["--nflog-group", "1337", "--nflog-size", "20"];
    }
  }

  /** One condition is read back and the reader goes on with the rest. */
  lemma ParseCondTokens(c: Cond, rest: seq<string>, mod: string, proto: string) returns (mod': string)
    requires c.test.SourcePort? || c.test.DestPort? ==> CarriesPorts(proto)
    ensures var tail := ParseRule(rest, mod', NextProtocol(c, proto));
            tail.Some? ==>
              ParseRule(CondTokens(c) + rest, mod, proto) ==
              Some(Rule([c] + tail.value.conds, tail.value.target))
  {
    mod' := if ModuleName(c.test) == "" then mod else ModuleName(c.test);
    var toks := CondTokens(c) + rest;
    var bare := (if c.negated then ["!"] else []) + [OptionName(c.test), c.test.value] + rest;
    assert ParseTest(mod', proto, OptionName(c.test), c.test.value) == Some(c.test);
    if ModuleName(c.test) == "" {
      assert toks == bare;
    } else {
      assert toks[2..] == bare;
      assert toks[0] == "-m" && toks[1] == mod';
    }
    if c.negated {
      assert bare[0] == "!" && bare[1] == OptionName(c.test) && bare[2] == c.test.value;
      assert bare[3..] == rest;
    } else {
      assert bare[0] == OptionName(c.test) && bare[1] == c.test.value;
      assert bare[2..] == rest;
    }
  }

  /** Reading the tokens of a rule gives the rule back. */
  lemma {:induction false} ParseRuleTokens(conds: seq<Cond>, target: Target, mod: string, proto: string)
    requires GoodRule(conds, target, proto)
    ensures ParseRule(RuleTokens(Rule(conds, target)), mod, proto) == Some(Rule(conds, target))
    decreases |conds|
  {
    var toks := RuleTokens(Rule(conds, target));
    if conds == [] {
      ParseTargetTokens(target, proto);
      assert toks == TargetTokens(target);
    } else {
      var rest := RuleTokens(Rule(conds[1..], target));
      RuleTokensCons(conds, target);
      var mod' := ParseCondTokens(conds[0], rest, mod, proto);
      ParseRuleTokens(conds[1..], target, mod', NextProtocol(conds[0], proto));
      assert [conds[0]] + conds[1..] == conds;
    }
  }

  // ---------------------------------------------------------------- packets and verdicts

  /** A packet, given by the tests that hold of it. */
  type Packet = Match -> bool

  predicate Matches(conds: seq<Cond>, p: Packet) {
    forall c :: c in conds ==> p(c.test) != c.negated
  }

  datatype Verdict = Accepted | Dropped | Redirected(port: string) | Proxied(mark: string, port: string)

  /** What a list of rules does, and the packet as it then is: a final verdict, a RETURN, or running off the end. */
  datatype Outcome = Decided(verdict: Verdict, packet: Packet) | Returned(packet: Packet) | Ended(packet: Packet)

  datatype ChainId = ChainId(table: string, chain: string)

  type Firewall = map<ChainId, seq<Rule>>

  /** The targets after which a packet goes on to the next rule, and how they change it. */
  function Effect(t: Target, p: Packet): Packet {
    match t
    case SetMark(mark) => (m: Match) => if m.Mark? then m.value == mark else p(m)
    case SaveMark => (m: Match) => if m.ConnMark? then p(Mark(m.value)) else p(m)
    case RestoreMark => (m: Match) => if m.Mark? then p(ConnMark(m.value)) else p(m)
    case _ => p
  }

  /**
   First-match evaluation of `rules` in `table`. `depth` bounds the nesting of jumps; a jump beyond
   it, or to a chain that does not exist, does nothing.
   */
  ghost function Eval(fw: Firewall, table: string, rules: seq<Rule>, p: Packet, depth: nat): Outcome
    decreases depth, |rules|
  {
    if rules == [] then
      Ended(p)
    else if !Matches(rules[0].conds, p) then
      Eval(fw, table, rules[1..], p, depth)
    else
      match rules[0].target
      case Return => Returned(p)
      case Accept => Decided(Accepted, p)
      case Drop => Decided(Dropped, p)
      case Redirect(_, port) => Decided(Redirected(port), p)
      case Tproxy(mark, port) => Decided(Proxied(mark, port), p)
      case Jump(chain) =>
        if depth == 0 || ChainId(table, chain) !in fw then
          Eval(fw, table, rules[1..], p, depth)
        else
          var sub := Eval(fw, table, fw[ChainId(table, chain)], p, depth - 1);
          if sub.Decided? then sub else Eval(fw, table, rules[1..], sub.packet, depth)
      case _ => Eval(fw, table, rules[1..], Effect(rules[0].target, p), depth)
  }

  /** What the rules of a chain do to a packet. */
  ghost function Treated(fw: Firewall, id: ChainId, p: Packet, depth: nat): Outcome
    requires id in fw
  {
    Eval(fw, id.table, fw[id], p, depth)
  }

  /** The verdict of a built-in chain; a packet no rule decides is accepted. */
  ghost function Traverse(fw: Firewall, id: ChainId, p: Packet, depth: nat): Verdict
    requires id in fw
  {
    var o := Treated(fw, id, p, depth);
    if o.Decided? then o.verdict else Accepted
  }

  /** The packet as it leaves a built-in chain, with the marks it then has. */
  ghost function LeavesAs(fw: Firewall, id: ChainId, p: Packet, depth: nat): Packet
    requires id in fw
  {
    Treated(fw, id, p, depth).packet
  }

  lemma {:induction false} EvalConcat(fw: Firewall, table: string, a: seq<Rule>, b: seq<Rule>, p: Packet, depth: nat)
    ensures Eval(fw, table, a + b, p, depth) ==
            var o := Eval(fw, table, a, p, depth);
            if o.Ended? then Eval(fw, table, b, o.packet, depth) else o
    decreases depth, |a|
  {
    if a == [] {
      assert a + b == b;
    } else {
      assert (a + b)[1..] == a[1..] + b;
      if !Matches(a[0].conds, p) {
        EvalConcat(fw, table, a[1..], b, p, depth);
      } else {
        match a[0].target
        case Return =>
        case Accept =>
        case Drop =>
        case Redirect(_, _) =>
        case Tproxy(_, _) =>
        case Jump(chain) =>
          if depth == 0 || ChainId(table, chain) !in fw {
            EvalConcat(fw, table, a[1..], b, p, depth);
          } else {
            var sub := Eval(fw, table, fw[ChainId(table, chain)], p, depth - 1);
            if !sub.Decided? {
              EvalConcat(fw, table, a[1..], b, sub.packet, depth);
            }
          }
        case _ =>
          EvalConcat(fw, table, a[1..], b, Effect(a[0].target, p), depth);
      }
    }
  }

  /** A list no rule of which matches leaves the packet alone. */
  lemma {:induction false} EvalNoMatch(fw: Firewall, table: string, rules: seq<Rule>, p: Packet, depth: nat)
    requires forall r :: r in rules ==> !Matches(r.conds, p)
    ensures Eval(fw, table, rules, p, depth) == Ended(p)
    decreases |rules|
  {
    if rules != [] {
      EvalNoMatch(fw, table, rules[1..], p, depth);
    }
  }

  predicate Final(t: Target) {
    t.Return? || t.Accept? || t.Drop? || t.Redirect? || t.Tproxy?
  }

  function FinalOutcome(t: Target, p: Packet): Outcome
    requires Final(t)
  {
    match t
    case Return => Returned(p)
    case Accept => Decided(Accepted, p)
    case Drop => Decided(Dropped, p)
    case Redirect(_, port) => Decided(Redirected(port), p)
    case Tproxy(mark, port) => Decided(Proxied(mark, port), p)
  }

  /** A list of rules with one final target has it exactly when some rule matches. */
  lemma {:induction false} EvalUniform(fw: Firewall, table: string, rules: seq<Rule>, t: Target, p: Packet, depth: nat)
    requires Final(t)
    requires forall r :: r in rules ==> r.target == t
    ensures Eval(fw, table, rules, p, depth) ==
            if exists r :: r in rules && Matches(r.conds, p) then FinalOutcome(t, p) else Ended(p)
    decreases |rules|
  {
    if rules != [] {
      if Matches(rules[0].conds, p) {
        assert rules[0] in rules;
      } else {
        EvalUniform(fw, table, rules[1..], t, p, depth);
        assert forall r :: r in rules ==> r == rules[0] || r in rules[1..];
      }
    }
  }
}
