/** Domain policies: documents, their compiled form, and decisions. */
module DomainPolicy {
  import opened Optional

  // ---------------------------------------------------------------- what the Go libraries answer

  /** An address and a range, as whatever bytes the libraries keep for them. */
  datatype Ip = Ip(bytes: seq<int>)

  datatype Network = Network(ip: seq<int>, mask: seq<int>)

  /** Text and address functions of the Go libraries, as far as they are used here: just some functions. */
  datatype Library = Library(
    trimSpace: string -> string,
    toLower: string -> string,
    hostOf: string -> Option<string>,
    parseIP: string -> Option<Ip>,
    parseCIDR: string -> Option<Network>,
    sameIP: (Ip, Ip) -> bool,
    contains: (Network, Ip) -> bool)

  function TrimPrefix(s: string, prefix: string): string {
    if prefix <= s then s[|prefix|..] else s
  }

  predicate HasSuffix(s: string, suffix: string) {
    |suffix| <= |s| && s[|s| - |suffix|..] == suffix
  }

  function TrimSuffix(s: string, suffix: string): string {
    if HasSuffix(s, suffix) then s[..|s| - |suffix|] else s
  }

  /** strings.Trim(s, "[]") */
  function TrimBrackets(s: string): string
    decreases |s|
  {
    if s != "" && s[0] in "[]" then TrimBrackets(s[1..])
    else if s != "" && s[|s| - 1] in "[]" then TrimBrackets(s[..|s| - 1])
    else s
  }

  function Host(lib: Library, value: string): string {
    var host := lib.trimSpace(value);
    var split := lib.hostOf(host);
    TrimSuffix(TrimPrefix(if split.Some? then split.value else host, "["), "]")
  }

  function NormalizeDomain(lib: Library, value: string): string {
    if lib.trimSpace(value) == "" then "" else lib.toLower(TrimSuffix(Host(lib, value), "."))
  }

  function ExtractIP(lib: Library, value: string): Option<Ip> {
    if lib.trimSpace(value) == "" then None else lib.parseIP(Host(lib, value))
  }

  // ---------------------------------------------------------------- one list, read plainly

  datatype Item = Nothing | Net(network: Network) | Address(ip: Ip) | Wildcard(suffix: string) | Domain(name: string) | Invalid

  /** What one value of a list stands for. */
  function ItemOf(lib: Library, raw: string): Item {
    var value := lib.trimSpace(raw);
    if value == "" then Nothing
    else if lib.parseCIDR(value).Some? then Net(lib.parseCIDR(value).value)
    else if lib.parseIP(TrimBrackets(value)).Some? then Address(lib.parseIP(TrimBrackets(value)).value)
    else
      var domain := NormalizeDomain(lib, value);
      if domain == "" then Nothing
      else if "*." <= domain then
        var suffix := TrimPrefix(domain, "*.");
        if suffix == "" then Invalid else Wildcard(suffix)
      else Domain(domain)
  }

  predicate ItemMatches(lib: Library, item: Item, domain: string, ip: Option<Ip>) {
    match item
    case Net(network) => ip.Some? && lib.contains(network, ip.value)
    case Address(a) => ip.Some? && lib.sameIP(a, ip.value)
    case Wildcard(suffix) => domain != "" && HasSuffix(domain, "." + suffix) && domain != suffix
    case Domain(name) => domain != "" && domain == name
    case _ => false
  }

  /** A list matches when one of its values does. */
  predicate ListMatches(lib: Library, values: seq<string>, domain: string, ip: Option<Ip>) {
    exists v :: v in values && ItemMatches(lib, ItemOf(lib, v), domain, ip)
  }

  predicate ValidList(lib: Library, values: seq<string>) {
    forall v :: v in values ==> !ItemOf(lib, v).Invalid?
  }

  // ---------------------------------------------------------------- the compiled index

  datatype MatcherSet = MatcherSet(domains: set<string>, wildcardDomains: seq<string>, ips: seq<Ip>, nets: seq<Network>)

  function EmptySet(): MatcherSet {
    MatcherSet({}, [], [], [])
  }

  predicate SetMatches(lib: Library, m: MatcherSet, domain: string, ip: Option<Ip>) {
    || (domain != "" && domain in m.domains)
    || (domain != "" && exists s :: s in m.wildcardDomains && HasSuffix(domain, "." + s) && domain != s)
    || (ip.Some? && exists a :: a in m.ips && lib.sameIP(a, ip.value))
    || (ip.Some? && exists n :: n in m.nets && lib.contains(n, ip.value))
  }

  /** Adding one item to the index adds exactly what it matches. */
  function WithItem(m: MatcherSet, item: Item): MatcherSet {
    match item
    case Net(network) => m.(nets := m.nets + [network])
    case Address(ip) => m.(ips := m.ips + [ip])
    case Wildcard(suffix) => m.(wildcardDomains := m.wildcardDomains + [suffix])
    case Domain(name) => m.(domains := m.domains + {name})
    case _ => m
  }

  lemma WithItemMatches(lib: Library, m: MatcherSet, item: Item, domain: string, ip: Option<Ip>)
    ensures SetMatches(lib, WithItem(m, item), domain, ip) <==> SetMatches(lib, m, domain, ip) || ItemMatches(lib, item, domain, ip)
  {
    match item
    case Net(network) => assert forall n :: n in m.nets + [network] <==> n in m.nets || n == network;
    case Address(a) => assert forall x :: x in m.ips + [a] <==> x in m.ips || x == a;
    case Wildcard(suffix) =>
      assert forall s :: s in m.wildcardDomains + [suffix] <==> s in m.wildcardDomains || s == suffix;
    case Domain(name) =>
    case _ =>
  }

  /** The index of the valid values of a list. */
  function Index(lib: Library, values: seq<string>): MatcherSet {
    if values == [] then EmptySet()
    else WithItem(Index(lib, values[..|values| - 1]), ItemOf(lib, values[|values| - 1]))
  }

  method CompileMatcherSet(lib: Library, values: seq<string>) returns (r: Option<MatcherSet>)
    ensures r == if ValidList(lib, values) then Some(Index(lib, values)) else None
  {
    var set_ := EmptySet();
    for i := 0 to |values|
      invariant ValidList(lib, values[..i]) && set_ == Index(lib, values[..i])
    {
      assert values[..i + 1][..i] == values[..i];
      assert values[..i + 1] == values[..i] + [values[i]];
      var value := lib.trimSpace(values[i]);
      if value == "" {
        continue;
      }
      var ipNet := lib.parseCIDR(value);
      if ipNet.Some? {
        set_ := set_.(nets := set_.nets + [ipNet.value]);
        continue;
      }
      var ip := lib.parseIP(TrimBrackets(value));
      if ip.Some? {
        set_ := set_.(ips := set_.ips + [ip.value]);
        continue;
      }
      var domain := NormalizeDomain(lib, value);
      if domain == "" {
        continue;
      }
      if "*." <= domain {
        var suffix := TrimPrefix(domain, "*.");
        if suffix == "" {
          assert ItemOf(lib, values[i]).Invalid?;
          return None;
        }
        set_ := set_.(wildcardDomains := set_.wildcardDomains + [suffix]);
        continue;
      }
      set_ := set_.(domains := set_.domains + {domain});
    }
    assert values[..|values|] == values;
    return Some(set_);
  }

  method Matches(lib: Library, m: MatcherSet, domain: string, ip: Option<Ip>) returns (r: bool)
    ensures r <==> SetMatches(lib, m, domain, ip)
  {
    if domain != "" {
      if domain in m.domains {
        return true;
      }
      for i := 0 to |m.wildcardDomains|
        invariant forall k :: 0 <= k < i ==> !(HasSuffix(domain, "." + m.wildcardDomains[k]) && domain != m.wildcardDomains[k])
      {
        var suffix := m.wildcardDomains[i];
        if HasSuffix(domain, "." + suffix) && domain != suffix {
          return true;
        }
      }
    }
    if ip.Some? {
      for i := 0 to |m.ips|
        invariant forall k :: 0 <= k < i ==> !lib.sameIP(m.ips[k], ip.value)
      {
        if lib.sameIP(m.ips[i], ip.value) {
          return true;
        }
      }
      for i := 0 to |m.nets|
        invariant forall k :: 0 <= k < i ==> !lib.contains(m.nets[k], ip.value)
      {
        if lib.contains(m.nets[i], ip.value) {
          return true;
        }
      }
    }
    return false;
  }

  /** The compiled index matches exactly what a scan of the list does. */
  lemma {:induction false} IndexMatches(lib: Library, values: seq<string>, domain: string, ip: Option<Ip>)
    ensures SetMatches(lib, Index(lib, values), domain, ip) <==> ListMatches(lib, values, domain, ip)
  {
    if values != [] {
      var n := |values| - 1;
      IndexMatches(lib, values[..n], domain, ip);
      WithItemMatches(lib, Index(lib, values[..n]), ItemOf(lib, values[n]), domain, ip);
      assert values == values[..n] + [values[n]];
    }
  }

  // ---------------------------------------------------------------- documents and policies

  const INBOUND := "inbound"
  const OUTBOUND := "outbound"
  const DEFAULT_ALLOW := "default_allow"
  const DEFAULT_DENY := "default_deny"

  datatype RuleDocument = RuleDocument(direction: string, mode: string, allowList: seq<string>, blockList: seq<string>)

  datatype DirectionPolicy = DirectionPolicy(mode: string, allow: MatcherSet, block: MatcherSet)

  type Policy = map<string, DirectionPolicy>

  datatype Decision = Decision(allowed: bool, reason: string)

  const ALLOWED := Decision(true, "")
  const BLOCKED := Decision(false, "domain_policy_blocklist")
  const NOT_ALLOWED := Decision(false, "domain_policy_allowlist")

  function DirectionOf(lib: Library, rule: RuleDocument): string {
    lib.toLower(lib.trimSpace(rule.direction))
  }

  function ModeOf(lib: Library, rule: RuleDocument): string {
    var mode := lib.toLower(lib.trimSpace(rule.mode));
    if mode == "" then "default_allow" else mode
  }

  predicate ValidRule(lib: Library, rule: RuleDocument) {
    && DirectionOf(lib, rule) in {"inbound", "outbound"}
    && ModeOf(lib, rule) in {"default_allow", "default_deny"}
    && ValidList(lib, rule.allowList) && ValidList(lib, rule.blockList)
  }

  predicate ValidRules(lib: Library, rules: seq<RuleDocument>) {
    forall r :: r in rules ==> ValidRule(lib, r)
  }

  function CompiledRule(lib: Library, rule: RuleDocument): DirectionPolicy {
    DirectionPolicy(ModeOf(lib, rule), Index(lib, rule.allowList), Index(lib, rule.blockList))
  }

  function Compiled(lib: Library, rules: seq<RuleDocument>): Policy {
    if rules == [] then map[]
    else
      var last := rules[|rules| - 1];
      Compiled(lib, rules[..|rules| - 1])[DirectionOf(lib, last) := CompiledRule(lib, last)]
  }

  lemma CompiledStep(lib: Library, rules: seq<RuleDocument>, i: nat)
    requires i < |rules|
    ensures ValidRules(lib, rules[..i + 1]) <==> ValidRules(lib, rules[..i]) && ValidRule(lib, rules[i])
    ensures ValidRules(lib, rules) ==> ValidRule(lib, rules[i])
    ensures Compiled(lib, rules[..i + 1]) == Compiled(lib, rules[..i])[DirectionOf(lib, rules[i]) := CompiledRule(lib, rules[i])]
  {
    assert rules[..i + 1][..i] == rules[..i] && rules[..i + 1] == rules[..i] + [rules[i]];
    assert rules[i] in rules;
  }

  method Compile(lib: Library, rules: seq<RuleDocument>) returns (r: Option<Policy>)
    ensures r == if ValidRules(lib, rules) then Some(Compiled(lib, rules)) else None
  {
    var p: Policy := map[];
    for i := 0 to |rules|
      invariant ValidRules(lib, rules[..i]) && p == Compiled(lib, rules[..i])
    {
      CompiledStep(lib, rules, i);
      var rule := rules[i];
      var direction := lib.toLower(lib.trimSpace(rule.direction));
      if direction != INBOUND && direction != OUTBOUND {
        return None;
      }
      var mode := lib.toLower(lib.trimSpace(rule.mode));
      if mode == "" {
        mode := DEFAULT_ALLOW;
      }
      if mode != DEFAULT_ALLOW && mode != DEFAULT_DENY {
        return None;
      }
      var allow := CompileMatcherSet(lib, rule.allowList);
      if allow.None? {
        return None;
      }
      var block := CompileMatcherSet(lib, rule.blockList);
      if block.None? {
        return None;
      }
      p := p[direction := DirectionPolicy(mode, allow.value, block.value)];
    }
    assert rules[..|rules|] == rules;
    return Some(p);
  }

  /** A decision of a compiled policy. */
  function Decide(lib: Library, p: Policy, direction: string, domain: string, targetAddr: string): Decision {
    if direction !in p then ALLOWED
    else
      var rule := p[direction];
      var name, ip := NormalizeDomain(lib, domain), ExtractIP(lib, targetAddr);
      if rule.mode == DEFAULT_ALLOW then if SetMatches(lib, rule.block, name, ip) then BLOCKED else ALLOWED
      else if rule.mode == DEFAULT_DENY then if SetMatches(lib, rule.allow, name, ip) then ALLOWED else NOT_ALLOWED
      else ALLOWED
  }

  method Evaluate(lib: Library, p: Policy, direction: string, domain: string, targetAddr: string) returns (r: Decision)
    ensures r == Decide(lib, p, direction, domain, targetAddr)
  {
    if direction !in p {
      return ALLOWED;
    }
    var rule := p[direction];
    var normalizedDomain := NormalizeDomain(lib, domain);
    var targetIP := ExtractIP(lib, targetAddr);
    if rule.mode == DEFAULT_ALLOW {
      var blocked := Matches(lib, rule.block, normalizedDomain, targetIP);
      return if blocked then BLOCKED else ALLOWED;
    }
    if rule.mode == DEFAULT_DENY {
      var allowed := Matches(lib, rule.allow, normalizedDomain, targetIP);
      return if allowed then ALLOWED else NOT_ALLOWED;
    }
    return ALLOWED;
  }

  // ---------------------------------------------------------------- against the document

  /** The last rule of a direction is the one that counts. */
  function LastRule(lib: Library, rules: seq<RuleDocument>, direction: string): Option<RuleDocument> {
    if rules == [] then None
    else if DirectionOf(lib, rules[|rules| - 1]) == direction then Some(rules[|rules| - 1])
    else LastRule(lib, rules[..|rules| - 1], direction)
  }

  /** A decision by plain scanning: the last rule of the direction, its list from end to end. */
  function Scanned(lib: Library, rules: seq<RuleDocument>, direction: string, domain: string, targetAddr: string): Decision {
    match LastRule(lib, rules, direction)
    case None => Decision(true, "")
    case Some(rule) =>
      var name, ip := NormalizeDomain(lib, domain), ExtractIP(lib, targetAddr);
      if ModeOf(lib, rule) == "default_deny" then
        if ListMatches(lib, rule.allowList, name, ip) then Decision(true, "") else Decision(false, "domain_policy_allowlist")
      else
        if ListMatches(lib, rule.blockList, name, ip) then Decision(false, "domain_policy_blocklist") else Decision(true, "")
  }

  lemma PolicyOf(before: Policy, of: string, policy: DirectionPolicy, direction: string)
    ensures var p := before[of := policy];
            if of == direction then direction in p && p[direction] == policy
            else (direction in p <==> direction in before) && (direction in p ==> p[direction] == before[direction])
  {
  }

  lemma {:induction false} CompiledLast(lib: Library, rules: seq<RuleDocument>, direction: string)
    ensures match LastRule(lib, rules, direction)
            case None => direction !in Compiled(lib, rules)
            case Some(rule) => rule in rules && direction in Compiled(lib, rules) && Compiled(lib, rules)[direction] == CompiledRule(lib, rule)
  {
    if rules != [] {
      var front, last := rules[..|rules| - 1], rules[|rules| - 1];
      CompiledLast(lib, front, direction);
      assert last in rules && forall r :: r in front ==> r in rules;
      PolicyOf(Compiled(lib, front), DirectionOf(lib, last), CompiledRule(lib, last), direction);
    }
  }

  /** The compiled policy decides as the scan of the document does. */
  lemma CompiledDecides(lib: Library, rules: seq<RuleDocument>, direction: string, domain: string, targetAddr: string)
    requires ValidRules(lib, rules)
    ensures Decide(lib, Compiled(lib, rules), direction, domain, targetAddr) == Scanned(lib, rules, direction, domain, targetAddr)
  {
    CompiledLast(lib, rules, direction);
    var last := LastRule(lib, rules, direction);
    if last.Some? {
      assert ValidRule(lib, last.value);
      IndexMatches(lib, last.value.allowList, NormalizeDomain(lib, domain), ExtractIP(lib, targetAddr));
      IndexMatches(lib, last.value.blockList, NormalizeDomain(lib, domain), ExtractIP(lib, targetAddr));
    }
  }

  // ---------------------------------------------------------------- ways to write a host

  /** A host name without brackets and without a dot at the end. */
  predicate Bare(host: string) {
    host != "" && host[0] != '[' && host[|host| - 1] != ']' && host[|host| - 1] != '.'
  }

  /** The host by itself, with a dot at the end, or in brackets; with white space around it, and with or without a port. */
  predicate Writes(lib: Library, value: string, host: string) {
    var text := lib.trimSpace(value);
    && text != ""
    && (if lib.hostOf(text).Some? then lib.hostOf(text).value else text) in {host, host + ".", "[" + host + "]"}
  }

  lemma BareTrimmed(host: string)
    requires Bare(host)
    ensures TrimPrefix(host, "[") == host && TrimSuffix(host, "]") == host && TrimSuffix(host, ".") == host
    ensures TrimSuffix(host + "]", "]") == host && TrimSuffix(host + ".", ".") == host
    ensures TrimPrefix(host + ".", "[") == host + "." && TrimSuffix(host + ".", "]") == host + "."
    ensures TrimPrefix("[" + host + "]", "[") == host + "]"
  {
    var dotted, closed, boxed := host + ".", host + "]", "[" + host + "]";
    assert dotted[0] == host[0] && dotted[|dotted| - 1..] == "." && closed[|closed| - 1..] == "]";
    assert host[|host| - 1..] == [host[|host| - 1]];
    assert dotted[..|dotted| - 1] == host && closed[..|closed| - 1] == host;
    assert boxed == "[" + closed && boxed[1..] == closed;
  }

  /** However a host is written, it is known by its name in lower case. */
  lemma WrittenNormalized(lib: Library, value: string, host: string)
    requires Bare(host) && Writes(lib, value, host)
    ensures NormalizeDomain(lib, value) == lib.toLower(host)
  {
    BareTrimmed(host);
  }

  lemma SameNameDecides(lib: Library, p: Policy, direction: string, a: string, b: string, targetAddr: string)
    requires NormalizeDomain(lib, a) == NormalizeDomain(lib, b)
    ensures Decide(lib, p, direction, a, targetAddr) == Decide(lib, p, direction, b, targetAddr)
  {
  }

  /** Two ways to write a host, in whatever case, get the same decision. */
  lemma SpellingIrrelevant(lib: Library, p: Policy, direction: string, a: string, hostA: string, b: string, hostB: string, targetAddr: string)
    requires Bare(hostA) && Writes(lib, a, hostA) && Bare(hostB) && Writes(lib, b, hostB)
    requires lib.toLower(hostA) == lib.toLower(hostB)
    ensures Decide(lib, p, direction, a, targetAddr) == Decide(lib, p, direction, b, targetAddr)
  {
    WrittenNormalized(lib, a, hostA);
    WrittenNormalized(lib, b, hostB);
    SameNameDecides(lib, p, direction, a, b, targetAddr);
  }

  /** A value of a list that is a plain host name, however it is written. */
  predicate NamesHost(lib: Library, value: string, host: string) {
    var text, name := lib.trimSpace(value), lib.toLower(host);
    && text != "" && lib.parseCIDR(text).None? && lib.parseIP(TrimBrackets(text)).None?
    && Bare(host) && Writes(lib, text, host) && name != "" && !("*." <= name)
  }

  /** By a valid document, what the last rule for the direction blocks by name is blocked, and what it allows by name allowed. */
  lemma NamedHostsDecided(lib: Library, rules: seq<RuleDocument>, direction: string, rule: RuleDocument, value: string, host: string,
                          domain: string, asked: string, targetAddr: string)
    requires ValidRules(lib, rules) && LastRule(lib, rules, direction) == Some(rule)
    requires NamesHost(lib, value, host) && Bare(asked) && Writes(lib, domain, asked) && lib.toLower(asked) == lib.toLower(host)
    ensures var mode, decision := ModeOf(lib, rule), Decide(lib, Compiled(lib, rules), direction, domain, targetAddr);
            && (mode == "default_allow" && value in rule.blockList ==> decision == Decision(false, "domain_policy_blocklist"))
            && (mode == "default_deny" && value in rule.allowList ==> decision == Decision(true, ""))
  {
    CompiledDecides(lib, rules, direction, domain, targetAddr);
    WrittenNormalized(lib, domain, asked);
    WrittenNormalized(lib, lib.trimSpace(value), host);
    var name := lib.toLower(host);
    assert ItemOf(lib, value) == Domain(name);
    assert ItemMatches(lib, ItemOf(lib, value), name, ExtractIP(lib, targetAddr));
  }

  /** A value of a list that is a wildcard for what is under a host. */
  predicate NamesUnder(lib: Library, value: string, host: string) {
    var text, name := lib.trimSpace(value), lib.toLower("*." + host);
    && text != "" && lib.parseCIDR(text).None? && lib.parseIP(TrimBrackets(text)).None?
    && Bare("*." + host) && Writes(lib, text, "*." + host) && |name| > 2 && name[..2] == "*."
  }

  /** A listed host matches its own name and no other; a listed wildcard matches exactly the names under it. */
  lemma OneValueExactly(lib: Library, value: string, host: string, domain: string)
    ensures NamesHost(lib, value, host) ==> (ListMatches(lib, [value], domain, None) <==> domain == lib.toLower(host))
    ensures NamesUnder(lib, value, host) ==>
              (ListMatches(lib, [value], domain, None) <==> HasSuffix(domain, "." + lib.toLower("*." + host)[2..]))
  {
    assert [value][0] == value && (forall v :: v in [value] <==> v == value);
    assert ListMatches(lib, [value], domain, None) <==> ItemMatches(lib, ItemOf(lib, value), domain, None);
    if NamesHost(lib, value, host) {
      WrittenNormalized(lib, lib.trimSpace(value), host);
      assert ItemOf(lib, value) == Domain(lib.toLower(host));
    }
    if NamesUnder(lib, value, host) {
      WrittenNormalized(lib, lib.trimSpace(value), "*." + host);
      assert ItemOf(lib, value) == Wildcard(lib.toLower("*." + host)[2..]);
    }
  }

  /** An address without brackets, by itself or in brackets. */
  predicate WritesAddress(text: string, address: string) {
    && address != "" && address[0] !in "[]" && address[|address| - 1] !in "[]"
    && text in {address, "[" + address + "]"}
  }

  lemma AddressTrimmed(text: string, address: string)
    requires WritesAddress(text, address)
    ensures TrimBrackets(text) == address && TrimSuffix(TrimPrefix(text, "["), "]") == address
  {
    var closed := address + "]";
    assert closed[..|closed| - 1] == address && closed[|closed| - 1..] == "]";
    assert address[|address| - 1..] == [address[|address| - 1]];
    assert TrimBrackets(address) == address && TrimBrackets(closed) == address;
    if text != address {
      assert text == "[" + closed && text[1..] == closed && text[0] == '[';
    }
  }

  /** A target address is an address, with or without a port. */
  predicate Targets(lib: Library, targetAddr: string, address: string) {
    var text := lib.trimSpace(targetAddr);
    text != "" && WritesAddress(if lib.hostOf(text).Some? then lib.hostOf(text).value else text, address)
  }

  lemma TargetRead(lib: Library, targetAddr: string, address: string)
    requires Targets(lib, targetAddr, address)
    ensures ExtractIP(lib, targetAddr) == lib.parseIP(address)
  {
    var text := lib.trimSpace(targetAddr);
    AddressTrimmed(if lib.hostOf(text).Some? then lib.hostOf(text).value else text, address);
  }

  /** A listed range matches exactly the target addresses in it, a listed address those equal to it, with or without brackets and port. */
  lemma AddressesExactly(lib: Library, value: string, address: string, domain: string, targetAddr: string, asked: string)
    requires Targets(lib, targetAddr, asked)
    ensures var text, matched := lib.trimSpace(value), ListMatches(lib, [value], domain, ExtractIP(lib, targetAddr));
            && (text != "" && lib.parseCIDR(text).Some? ==>
                  (matched <==> lib.parseIP(asked).Some? && lib.contains(lib.parseCIDR(text).value, lib.parseIP(asked).value)))
            && (text != "" && lib.parseCIDR(text).None? && WritesAddress(text, address) && lib.parseIP(address).Some? ==>
                  (matched <==> lib.parseIP(asked).Some? && lib.sameIP(lib.parseIP(address).value, lib.parseIP(asked).value)))
  {
    TargetRead(lib, targetAddr, asked);
    assert [value][0] == value && (forall v :: v in [value] <==> v == value);
    var ip := ExtractIP(lib, targetAddr);
    assert ListMatches(lib, [value], domain, ip) <==> ItemMatches(lib, ItemOf(lib, value), domain, ip);
    var text := lib.trimSpace(value);
    if WritesAddress(text, address) {
      AddressTrimmed(text, address);
    }
  }
}
