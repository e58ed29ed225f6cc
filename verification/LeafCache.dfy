/** The cache of leaf certificates against rotation of the certificate authority. */
module LeafCache {
  import opened Optional

  const HOUR := 3600

  /** A certificate authority by number, and a leaf it signed. */
  datatype Leaf = Leaf(domain: string, signer: nat, notAfter: int)

  /**
   `pending` are leaves that some GetCertificate is making and has not stored yet; `clearing` are the domains
   that a rotation under way, which holds the lock, has still to visit.
   */
  datatype State = State(primary: Option<nat>, secondary: Option<nat>, leaves: map<string, Leaf>, pending: map<nat, Leaf>,
                         clearing: Option<set<string>>)

  function Initial(): State {
    State(None, None, map[], map[], None)
  }

  /** A cached leaf is good enough while it has more than an hour left. */
  predicate Fresh(s: State, domain: string, now: int) {
    domain in s.leaves && s.leaves[domain].notAfter > now + HOUR
  }

  // ---------------------------------------------------------------- steps

  /**
   The atomic steps of any number of goroutines: reading the authority that is to sign, under the read lock;
   storing what was signed; replacing the authorities, under the lock; visiting one domain of the cache; and
   letting go of the lock once every domain that was there at the start has been visited.
   */
  datatype Event =
    | Signed(routine: nat, domain: string, now: int)
    | Stored(routine: nat)
    | Switched(certs: seq<nat>)
    | Cleared(domain: string)
    | Finished

  function Rotated(s: State, certs: seq<nat>): State
    requires certs != []
  {
    s.(primary := Some(certs[0]), secondary := if |certs| > 1 then Some(certs[1]) else None, clearing := Some(s.leaves.Keys))
  }

  function Next(s: State, e: Event): Option<State> {
    match e
    case Signed(routine, domain, now) =>
      if routine in s.pending || s.primary.None? || s.clearing.Some? then None
      else Some(s.(pending := s.pending[routine := Leaf(domain, s.primary.value, now + 24 * HOUR)]))
    case Stored(routine) =>
      if routine !in s.pending then None
      else Some(s.(leaves := s.leaves[s.pending[routine].domain := s.pending[routine]], pending := s.pending - {routine}))
    case Switched(certs) =>
      if certs == [] || s.clearing.Some? then None else Some(Rotated(s, certs))
    case Cleared(domain) =>
      if s.clearing.None? then None
      else Some(s.(leaves := s.leaves - {domain}, clearing := Some(s.clearing.value - {domain})))
    case Finished =>
      if s.clearing != Some({}) then None else Some(s.(clearing := None))
  }

  function Run(s: State, events: seq<Event>): Option<State>
    decreases |events|
  {
    if events == [] then Some(s)
    else
      var next :- Next(s, events[0]);
      Run(next, events[1..])
  }

  // ---------------------------------------------------------------- leaves of the current authority

  /**
   Every cached leaf is for its own domain and signed by the current primary, unless a rotation under way
   has still to visit it; and what is about to be stored is signed by the current primary too.
   */
  predicate Current(s: State) {
    && (forall d :: d in s.leaves ==>
          s.leaves[d].domain == d && (s.primary == Some(s.leaves[d].signer) || (s.clearing.Some? && d in s.clearing.value)))
    && (forall r :: r in s.pending ==> s.primary == Some(s.pending[r].signer))
  }

  /** Every state of a run is current. */
  predicate AlwaysCurrent(s: State, events: seq<Event>)
    decreases |events|
  {
    Current(s) && (events == [] || (Next(s, events[0]).Some? ==> AlwaysCurrent(Next(s, events[0]).value, events[1..])))
  }

  /** Whenever the primary authority changes, no leaf is being made. */
  predicate NoOverlap(s: State, events: seq<Event>)
    decreases |events|
  {
    events == [] ||
    ((events[0].Switched? && events[0].certs != [] && s.primary != Some(events[0].certs[0]) ==> s.pending.Keys == {}) &&
     (Next(s, events[0]).Some? ==> NoOverlap(Next(s, events[0]).value, events[1..])))
  }

  /** A rotation keeps the state current exactly when it keeps the primary authority or nothing is pending. */
  lemma SwitchKeeps(s: State, certs: seq<nat>)
    requires Current(s) && certs != [] && s.clearing.None?
    ensures Current(Rotated(s, certs)) <==> s.primary == Some(certs[0]) || s.pending.Keys == {}
  {
    if s.primary != Some(certs[0]) && s.pending.Keys != {} {
      var r :| r in s.pending.Keys;
      assert !Current(Rotated(s, certs));
    }
  }

  /** Every state of a run is current exactly when no leaf is being made whenever the primary authority changes. */
  lemma {:induction false} CurrentExactly(s: State, events: seq<Event>)
    requires Current(s) && Run(s, events).Some?
    ensures AlwaysCurrent(s, events) <==> NoOverlap(s, events)
    decreases |events|
  {
    if events != [] {
      var e := events[0];
      var next := Next(s, e).value;
      if e.Switched? {
        SwitchKeeps(s, e.certs);
      }
      if Current(next) {
        CurrentExactly(next, events[1..]);
      }
    }
  }

  /** In particular the last state; with no rotation under way every cached leaf is the current primary's. */
  lemma {:induction false} EndsCurrent(s: State, events: seq<Event>)
    requires Current(s) && NoOverlap(s, events) && Run(s, events).Some?
    ensures var end := Run(s, events).value;
            Current(end) && (end.clearing.None? ==> forall d :: d in end.leaves ==> end.primary == Some(end.leaves[d].signer))
    decreases |events|
  {
    if events != [] {
      CurrentExactly(s, events);
      EndsCurrent(Next(s, events[0]).value, events[1..]);
    }
  }

  /**
   A leaf that is being made while the authority changes, and is stored after the rotation, stays in the
   cache under the old authority, for anyone to be served. `clear` is any visit of the whole cache.
   */
  lemma OverlapServesOld(s: State, routine: nat, certs: seq<nat>, clear: seq<Event>, now: int)
    requires Current(s) && routine in s.pending && certs != [] && s.primary != Some(certs[0])
    requires s.pending[routine].notAfter > now + HOUR
    requires (forall e :: e in clear ==> e.Cleared?) && Run(s, [Switched(certs)] + clear + [Finished]).Some?
    ensures var end := Run(s, [Switched(certs)] + clear + [Finished] + [Stored(routine)]);
            var d := s.pending[routine].domain;
            end.Some? && end.value.clearing.None? && Fresh(end.value, d, now) && end.value.primary != Some(end.value.leaves[d].signer)
  {
    var all := [Switched(certs)] + clear + [Finished];
    RunConcat(s, [Switched(certs)] + clear, [Finished]);
    RunConcat(s, [Switched(certs)], clear);
    RunOne(s, Rotated(s, certs), Switched(certs));
    ClearingKeeps(Rotated(s, certs), clear);
    var mid := Run(Rotated(s, certs), clear).value;
    var done := Run(s, all).value;
    RunOne(mid, done, Finished);
    RunConcat(s, all, [Stored(routine)]);
    RunOne(done, Next(done, Stored(routine)).value, Stored(routine));
  }

  lemma {:induction false} ClearingKeeps(s: State, clear: seq<Event>)
    requires (forall e :: e in clear ==> e.Cleared?) && Run(s, clear).Some?
    ensures Run(s, clear).value.pending == s.pending && Run(s, clear).value.primary == s.primary
    decreases |clear|
  {
    if clear != [] {
      assert clear[0] in clear && forall e :: e in clear[1..] ==> e in clear;
      ClearingKeeps(Next(s, clear[0]).value, clear[1..]);
    }
  }

  lemma {:induction false} RunConcat(s: State, a: seq<Event>, b: seq<Event>)
    ensures Run(s, a + b) == var mid := Run(s, a); if mid.None? then None else Run(mid.value, b)
    decreases |a|
  {
    if a == [] {
      assert a + b == b;
    } else {
      assert (a + b)[1..] == a[1..] + b;
      if Next(s, a[0]).Some? {
        RunConcat(Next(s, a[0]).value, a[1..], b);
      }
    }
  }

  lemma RunOne(s: State, t: State, e: Event)
    ensures Run(s, [e]) == Next(s, e)
    ensures Next(s, e) == Some(t) ==> Run(s, [e]) == Some(t)
  {
    assert [e][1..] == [];
  }

  /** One more event. */
  lemma RunPush(s: State, events: seq<Event>, e: Event)
    ensures Run(s, events + [e]) == var mid := Run(s, events); if mid.None? then None else Next(mid.value, e)
  {
    RunConcat(s, events, [e]);
    if Run(s, events).Some? {
      RunOne(Run(s, events).value, s, e);
    }
  }

  // ---------------------------------------------------------------- the certificate store

  datatype Got = Certificate(leaf: Leaf) | MissingName | NoAuthority

  class CertStore {
    var primary: Option<nat>
    var secondary: Option<nat>
    var leafCache: map<string, Leaf>

    /** What other goroutines are at. */
    ghost var pending: map<nat, Leaf>
    ghost var clearing: Option<set<string>>

    constructor ()
      ensures Value() == Initial()
    {
      primary, secondary, leafCache, pending, clearing := None, None, map[], map[], None;
    }

    ghost function Value(): State
      reads this
    {
      State(primary, secondary, leafCache, pending, clearing)
    }

    /** A leaf that is in the cache and good enough. */
    method Lookup(domain: string, now: int) returns (r: Option<Leaf>)
      ensures r == if Fresh(Value(), domain, now) then Some(leafCache[domain]) else None
    {
      if domain in leafCache {
        var leaf := leafCache[domain];
        if leaf.notAfter > now + HOUR {
          return Some(leaf);
        }
      }
      return None;
    }

    /** The read lock is free while no rotation is under way. */
    method GenerateLeafCert(routine: nat, domain: string, now: int) returns (r: Option<Leaf>)
      requires routine !in pending && clearing.None?
      modifies this
      ensures if old(primary).None? then r == None && Value() == old(Value())
              else Next(old(Value()), Signed(routine, domain, now)) == Some(Value()) && r == Some(pending[routine])
      ensures r.Some? ==> r.value == Leaf(domain, primary.value, now + 86400)
    {
      if primary.None? {
        return None;
      }
      var cert := Leaf(domain, primary.value, now + 24 * HOUR);
      pending := pending[routine := cert];
      return Some(cert);
    }

    method Store(routine: nat, cert: Leaf)
      requires routine in pending && pending[routine] == cert
      modifies this
      ensures Next(old(Value()), Stored(routine)) == Some(Value())
    {
      leafCache := leafCache[cert.domain := cert];
      pending := pending - {routine};
    }

    /**
     What is served has more than an hour left; while the cache is current it is for the domain and the current
     primary's, or an old one that a rotation under way has still to visit. Only signing waits for the lock.
     */
    method GetCertificate(routine: nat, domain: string, now: int) returns (r: Got)
      requires routine !in pending
      requires domain != "" && !Fresh(Value(), domain, now) ==> clearing.None?
      modifies this
      ensures clearing == old(clearing) && (old(Current(Value())) ==> Current(Value()))
      ensures old(Current(Value())) && r.Certificate? ==>
                r.leaf.domain == domain && (primary == Some(r.leaf.signer) || (clearing.Some? && domain in clearing.value))
      ensures r.MissingName? <==> domain == ""
      ensures r.Certificate? ==> r.leaf.notAfter > now + 3600
      ensures if domain == "" || Fresh(old(Value()), domain, now) || old(primary).None? then Value() == old(Value())
              else Run(old(Value()), [Signed(routine, domain, now)] + [Stored(routine)]) == Some(Value())
      ensures r.NoAuthority? ==> primary.None?
      ensures domain != "" && Fresh(old(Value()), domain, now) ==> r == Certificate(old(leafCache)[domain])
    {
      if domain == "" {
        return MissingName;
      }
      var cached := Lookup(domain, now);
      if cached.Some? {
        return Certificate(cached.value);
      }
      ghost var s := Value();
      var cert := GenerateLeafCert(routine, domain, now);
      if cert.None? {
        return NoAuthority;
      }
      RunOne(s, Value(), Signed(routine, domain, now));
      Store(routine, cert.value);
      RunPush(s, [Signed(routine, domain, now)], Stored(routine));
      return Certificate(cert.value);
    }

    /** The first half of a rotation: the lock and the authorities. */
    method Switch(certs: seq<nat>)
      requires certs != [] && clearing.None?
      modifies this
      ensures Next(old(Value()), Switched(certs)) == Some(Value())
      ensures primary == Some(certs[0]) && secondary == (if |certs| > 1 then Some(certs[1]) else None)
      ensures leafCache == old(leafCache) && pending == old(pending) && clearing == Some(leafCache.Keys)
    {
      primary := Some(certs[0]);
      if |certs| > 1 {
        secondary := Some(certs[1]);
      } else {
        secondary := None;
      }
      clearing := Some(leafCache.Keys);
    }

    /** The rotation is a run: the new authorities first, and then the cached leaves one by one in any order. */
    method Reload(certs: seq<nat>) returns (ghost events: seq<Event>)
      requires clearing.None?
      modifies this
      ensures Run(old(Value()), events) == Some(Value()) && pending == old(pending) && clearing.None?
      ensures certs == [] ==> events == []
      ensures certs != [] ==> secondary == if |certs| > 1 then Some(certs[1]) else None
      ensures certs != [] ==> leafCache == map[] && primary == Some(certs[0]) && |events| == |old(leafCache)| + 2 &&
                              events[0] == Switched(certs) && forall i :: 0 < i < |events| ==> !events[i].Switched?
    {
      events := [];
      if |certs| == 0 {
        return;
      }
      ghost var s := Value();
      Switch(certs);
      ghost var held := secondary;
      events := [Switched(certs)];
      RunOne(s, Value(), Switched(certs));
      while leafCache.Keys != {}
        invariant Run(s, events) == Some(Value()) && clearing == Some(leafCache.Keys) && pending == old(pending)
        invariant primary == Some(certs[0]) && secondary == held && |events| + |leafCache| == |old(leafCache)| + 1
        invariant events != [] && events[0] == Switched(certs) && forall i :: 0 < i < |events| ==> events[i].Cleared?
        decreases |leafCache|
      {
        var domain :| domain in leafCache.Keys;
        RunPush(s, events, Cleared(domain));
        DropOne(leafCache, domain);
        leafCache := leafCache - {domain};
        clearing := Some(clearing.value - {domain});
        events := events + [Cleared(domain)];
      }
      RunPush(s, events, Finished);
      clearing := None;
      events := events + [Finished];
    }
  }

  lemma DropOne(m: map<string, Leaf>, k: string)
    requires k in m
    ensures (m - {k}).Keys == m.Keys - {k} && |m - {k}| == |m| - 1
  {
    assert m == (m - {k})[k := m[k]];
  }
}
