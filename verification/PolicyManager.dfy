/** The policy manager: the last good policy, and the cache file that carries it over a restart. */
module PolicyManager {
  import opened Optional
  import opened DomainPolicy

  type Body = seq<int>

  /** The JSON decoder: the rules of a document, or nothing. */
  type Decoder = Body -> Option<seq<RuleDocument>>

  /** Reading a document: decoding and compiling. */
  function Parsed(lib: Library, decode: Decoder, body: Body): Option<Policy> {
    var rules :- decode(body);
    if ValidRules(lib, rules) then Some(Compiled(lib, rules)) else None
  }

  method Parse(lib: Library, decode: Decoder, body: Body) returns (r: Option<Policy>)
    ensures r == Parsed(lib, decode, body)
  {
    var rules := decode(body);
    if rules.None? {
      return None;
    }
    r := Compile(lib, rules.value);
  }

  // ---------------------------------------------------------------- steps

  datatype Source = NoSource | FromCache | FromRemote

  /** What a process holds, and the cache file on disk. */
  datatype State = State(policy: Option<Policy>, source: Source, failed: bool, file: Option<Body>)

  /** Loading the cache, a failed fetch or parse, installing a fetched document, saving it, a new process. */
  datatype Event = Loaded(readable: bool) | FetchFailed | Refused(body: Body) | Installed(body: Body) | Saved(body: Body) | Restarted

  function Next(lib: Library, decode: Decoder, s: State, e: Event): Option<State> {
    match e
    case Loaded(readable) =>
      if s.file.None? || !readable then Some(s)
      else
        var p := Parsed(lib, decode, s.file.value);
        Some(if p.None? then s else s.(policy := p, source := FromCache, failed := false))
    case FetchFailed => Some(s.(failed := true))
    case Refused(body) => if Parsed(lib, decode, body).Some? then None else Some(s.(failed := true))
    case Installed(body) =>
      var p := Parsed(lib, decode, body);
      if p.None? then None else Some(s.(policy := p, source := FromRemote, failed := false))
    case Saved(body) => if Parsed(lib, decode, body).None? then None else Some(s.(file := Some(body)))
    case Restarted => Some(State(None, NoSource, false, s.file))
  }

  function Run(lib: Library, decode: Decoder, s: State, events: seq<Event>): Option<State> {
    if events == [] then Some(s)
    else
      var before :- Run(lib, decode, s, events[..|events| - 1]);
      Next(lib, decode, before, events[|events| - 1])
  }

  lemma RunPush(lib: Library, decode: Decoder, s: State, events: seq<Event>, e: Event)
    ensures Run(lib, decode, s, events + [e]) ==
            var before := Run(lib, decode, s, events); if before.None? then None else Next(lib, decode, before.value, e)
  {
    assert (events + [e])[..|events|] == events;
  }

  // ---------------------------------------------------------------- the manager object

  const SCOPE_INBOUND := "inbound"
  const SCOPE_BOTH := "both"

  class Manager {
    const lib: Library
    const decode: Decoder
    const enabled: bool
    const scope: string
    const named: bool
    var policy: Option<Policy>
    var source: Source
    var failed: bool

    /** The cache file, which outlives the process. */
    var file: Option<Body>

    /** `enabled` and `named`: there is a URL, and both an application name and an instance address. */
    constructor (lib: Library, decode: Decoder, enabled: bool, scope: string, named: bool, file: Option<Body>)
      ensures Value() == State(None, NoSource, false, file)
      ensures this.lib == lib && this.decode == decode && this.enabled == enabled && this.scope == scope && this.named == named
    {
      this.lib, this.decode, this.enabled, this.scope, this.named := lib, decode, enabled, scope, named;
      policy, source, failed, this.file := None, NoSource, false, file;
    }

    function Value(): State
      reads this
    {
      State(policy, source, failed, file)
    }

    method LoadCache(readable: bool)
      modifies this
      ensures Next(lib, decode, old(Value()), Loaded(readable)) == Some(Value())
    {
      if file.None? || !readable {
        return;
      }
      var p := Parse(lib, decode, file.value);
      if p.None? {
        return;
      }
      policy, source, failed := p, FromCache, false;
    }

    /** `fetched` is the body the remote end gives, if any; `saves` whether writing the file works. */
    method Reload(fetched: Option<Body>, saves: bool) returns (ok: bool)
      modifies this
      ensures Run(lib, decode, old(Value()), ReloadEvents(lib, decode, enabled, named, fetched, saves)) == Some(Value())
      ensures ok <==> !enabled || (named && fetched.Some? && Parsed(lib, decode, fetched.value).Some?)
    {
      ghost var s := Value();
      if !enabled {
        return true;
      }
      if !named || fetched.None? {
        failed := true;
        RunOne(lib, decode, s, Value(), FetchFailed);
        return false;
      }
      var p := Parse(lib, decode, fetched.value);
      if p.None? {
        failed := true;
        RunOne(lib, decode, s, Value(), Refused(fetched.value));
        return false;
      }
      policy, source, failed := p, FromRemote, false;
      RunOne(lib, decode, s, Value(), Installed(fetched.value));
      if saves {
        file := fetched;
        RunPush(lib, decode, s, [Installed(fetched.value)], Saved(fetched.value));
      }
      return true;
    }

    /** The cache first, then the remote end. */
    method Start(readable: bool, fetched: Option<Body>, saves: bool)
      modifies this
      ensures !enabled ==> Value() == old(Value())
      ensures enabled ==>
                Run(lib, decode, old(Value()), [Loaded(readable)] + ReloadEvents(lib, decode, enabled, named, fetched, saves)) == Some(Value())
    {
      if !enabled {
        return;
      }
      ghost var s := Value();
      LoadCache(readable);
      RunOne(lib, decode, s, Value(), Loaded(readable));
      ghost var t := Value();
      var ok := Reload(fetched, saves);
      RunConcat(lib, decode, s, [Loaded(readable)], ReloadEvents(lib, decode, enabled, named, fetched, saves));
    }

    method Evaluate(direction: string, domain: string, targetAddr: string) returns (r: Decision)
      ensures r == DecisionAfter(lib, enabled, scope, Value(), direction, domain, targetAddr)
    {
      if !enabled || !DirectionEnabled(scope, direction) {
        return ALLOWED;
      }
      if policy.None? {
        return ALLOWED;
      }
      r := DomainPolicy.Evaluate(lib, policy.value, direction, domain, targetAddr);
    }
  }

  /** The steps of one reload. */
  function ReloadEvents(lib: Library, decode: Decoder, enabled: bool, named: bool, fetched: Option<Body>, saves: bool): seq<Event> {
    if !enabled then []
    else if !named || fetched.None? then [FetchFailed]
    else if Parsed(lib, decode, fetched.value).None? then [Refused(fetched.value)]
    else if saves then [Installed(fetched.value)] + [Saved(fetched.value)]
    else [Installed(fetched.value)]
  }

  lemma RunOne(lib: Library, decode: Decoder, s: State, t: State, e: Event)
    requires Next(lib, decode, s, e) == Some(t)
    ensures Run(lib, decode, s, [e]) == Some(t)
  {
    RunPush(lib, decode, s, [], e);
    assert [] + [e] == [e];
  }

  lemma {:induction false} RunConcat(lib: Library, decode: Decoder, s: State, a: seq<Event>, b: seq<Event>)
    ensures Run(lib, decode, s, a + b) ==
            var mid := Run(lib, decode, s, a); if mid.None? then None else Run(lib, decode, mid.value, b)
    decreases |b|
  {
    if b == [] {
      assert a + b == a;
    } else {
      var front, last := b[..|b| - 1], b[|b| - 1];
      RunConcat(lib, decode, s, a, front);
      RunPush(lib, decode, s, a + front, last);
      assert a + b == a + front + [last];
    }
  }

  // ---------------------------------------------------------------- over runs

  /** The document a process last read successfully, from the file or from the remote end. */
  function LastGood(lib: Library, decode: Decoder, s: State, events: seq<Event>): Option<Body> {
    if events == [] then None
    else
      var front, last := events[..|events| - 1], events[|events| - 1];
      match last
      case Installed(body) => Some(body)
      case Restarted => None
      case Loaded(readable) =>
        var file := LastSaved(s.file, front);
        if readable && file.Some? && Parsed(lib, decode, file.value).Some? then file else LastGood(lib, decode, s, front)
      case _ => LastGood(lib, decode, s, front)
  }

  /** The document last saved, or what the file held at first. */
  function LastSaved(file: Option<Body>, events: seq<Event>): Option<Body> {
    if events == [] then file
    else if events[|events| - 1].Saved? then Some(events[|events| - 1].body)
    else LastSaved(file, events[..|events| - 1])
  }

  /** In every run the policy is that of the last good document, and the file holds the last one saved. */
  lemma {:induction false} LastGoodPolicy(lib: Library, decode: Decoder, file: Option<Body>, events: seq<Event>)
    requires Run(lib, decode, State(None, NoSource, false, file), events).Some?
    ensures var s, end := State(None, NoSource, false, file), Run(lib, decode, State(None, NoSource, false, file), events).value;
            && end.file == LastSaved(file, events)
            && end.policy == (match LastGood(lib, decode, s, events) case None => None case Some(body) => Parsed(lib, decode, body))
            && (LastGood(lib, decode, s, events).Some? ==> Parsed(lib, decode, LastGood(lib, decode, s, events).value).Some?)
  {
    if events != [] {
      LastGoodPolicy(lib, decode, file, events[..|events| - 1]);
    }
  }

  /** A policy that was read decides as a plain scan of the document it was read from. */
  lemma ParsedDecides(lib: Library, decode: Decoder, body: Body, direction: string, domain: string, targetAddr: string)
    requires Parsed(lib, decode, body).Some?
    ensures decode(body).Some?
    ensures Decide(lib, Parsed(lib, decode, body).value, direction, domain, targetAddr) ==
            Scanned(lib, decode(body).value, direction, domain, targetAddr)
  {
    CompiledDecides(lib, decode(body).value, direction, domain, targetAddr);
  }

  predicate DirectionEnabled(scope: string, direction: string) {
    if scope == SCOPE_BOTH then true
    else if scope == SCOPE_INBOUND then direction == INBOUND
    else direction == OUTBOUND
  }

  /** Both directions, one of them, or by default the outgoing one. */
  predicate InScope(scope: string, direction: string) {
    || scope == "both"
    || (scope == "inbound" && direction == "inbound")
    || (scope !in {"both", "inbound"} && direction == "outbound")
  }

  /** What a manager decides after a run; `enabled` when it has a URL. */
  function DecisionAfter(lib: Library, enabled: bool, scope: string, s: State,
                         direction: string, domain: string, targetAddr: string): Decision
  {
    if !enabled || !DirectionEnabled(scope, direction) || s.policy.None? then ALLOWED
    else Decide(lib, s.policy.value, direction, domain, targetAddr)
  }

  /**
   Over any run of loads, reloads and restarts the manager decides by a plain scan of the last document
   read successfully, if it is on and the direction in scope; failures change nothing.
   */
  lemma DecidesAsLastGood(lib: Library, decode: Decoder, enabled: bool, scope: string, file: Option<Body>, events: seq<Event>,
                          direction: string, domain: string, targetAddr: string)
    requires Run(lib, decode, State(None, NoSource, false, file), events).Some?
    ensures var s := State(None, NoSource, false, file);
            var good := LastGood(lib, decode, s, events);
            DecisionAfter(lib, enabled, scope, Run(lib, decode, s, events).value, direction, domain, targetAddr) ==
            if !enabled || !InScope(scope, direction) || good.None? || decode(good.value).None? then Decision(true, "")
            else Scanned(lib, decode(good.value).value, direction, domain, targetAddr)
  {
    var s := State(None, NoSource, false, file);
    LastGoodPolicy(lib, decode, file, events);
    var good := LastGood(lib, decode, s, events);
    if good.Some? {
      ParsedDecides(lib, decode, good.value, direction, domain, targetAddr);
    }
  }

  /** The last saved document parses, since only documents that do are saved. */
  lemma {:induction false} SavedParses(lib: Library, decode: Decoder, s: State, events: seq<Event>)
    requires Run(lib, decode, s, events).Some?
    requires exists e :: e in events && e.Saved?
    ensures LastSaved(s.file, events).Some? && Parsed(lib, decode, LastSaved(s.file, events).value).Some?
  {
    var n := |events| - 1;
    if !events[n].Saved? {
      assert forall e :: e in events ==> e in events[..n] || e == events[n];
      SavedParses(lib, decode, s, events[..n]);
    }
  }

  /** A restart whose remote fetch fails decides exactly as the last successfully saved document says. */
  lemma RestartDecides(lib: Library, decode: Decoder, enabled: bool, scope: string, file: Option<Body>, events: seq<Event>,
                       direction: string, domain: string, targetAddr: string)
    requires Run(lib, decode, State(None, NoSource, false, file), events).Some?
    requires exists e :: e in events && e.Saved?
    ensures var s, saved := State(None, NoSource, false, file), LastSaved(file, events);
            var end := Run(lib, decode, s, events + [Restarted] + [Loaded(true)] + [FetchFailed]);
            && end.Some? && saved.Some? && decode(saved.value).Some?
            && DecisionAfter(lib, enabled, scope, end.value, direction, domain, targetAddr) ==
                 if !enabled || !InScope(scope, direction) then Decision(true, "")
                 else Scanned(lib, decode(saved.value).value, direction, domain, targetAddr)
  {
    var s := State(None, NoSource, false, file);
    LastGoodPolicy(lib, decode, file, events);
    SavedParses(lib, decode, s, events);
    RunPush(lib, decode, s, events, Restarted);
    RunPush(lib, decode, s, events + [Restarted], Loaded(true));
    RunPush(lib, decode, s, events + [Restarted] + [Loaded(true)], FetchFailed);
    ParsedDecides(lib, decode, LastSaved(file, events).value, direction, domain, targetAddr);
  }
}
