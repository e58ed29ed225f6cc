/** The credential resolver: a cache with a time to live in front of a fetcher. */
module CredentialCache {
  import opened Optional

  // ---------------------------------------------------------------- keys

  function FmtKey(agentID: string, targetHost: string, userID: string): string {
    agentID + ":" + targetHost + ":" + userID
  }

  lemma {:induction false} DropCommon(a: string, x: string, y: string)
    ensures a + x == a + y <==> x == y
  {
    assert (a + x)[|a|..] == x && (a + y)[|a|..] == y;
  }

  /** For one agent two different hosts can share a key exactly when one continues the other after a colon. */
  lemma HostsCollideExactly(agentID: string, h1: string, h2: string)
    requires h1 != h2
    ensures (exists u1, u2 :: FmtKey(agentID, h1, u1) == FmtKey(agentID, h2, u2)) <==> h1 + ":" <= h2 || h2 + ":" <= h1
  {
    if u1, u2 :| FmtKey(agentID, h1, u1) == FmtKey(agentID, h2, u2) {
      SameTail(agentID, h1, u1, h2, u2);
      if |h1| <= |h2| {
        Continues(h1, u1, h2, u2);
      } else {
        Continues(h2, u2, h1, u1);
      }
    }
    if h1 + ":" <= h2 {
      Collides(agentID, h1, h2);
    } else if h2 + ":" <= h1 {
      Collides(agentID, h2, h1);
    }
  }

  lemma SameTail(agentID: string, h1: string, u1: string, h2: string, u2: string)
    ensures FmtKey(agentID, h1, u1) == FmtKey(agentID, h2, u2) <==> h1 + ":" + u1 == h2 + ":" + u2
  {
    var a := agentID + ":";
    assert FmtKey(agentID, h1, u1) == a + (h1 + ":" + u1);
    assert FmtKey(agentID, h2, u2) == a + (h2 + ":" + u2);
    DropCommon(a, h1 + ":" + u1, h2 + ":" + u2);
  }

  lemma Continues(h1: string, u1: string, h2: string, u2: string)
    requires h1 + ":" + u1 == h2 + ":" + u2 && |h1| <= |h2|
    ensures h1 == h2 || h1 + ":" <= h2
  {
    var s := h1 + ":" + u1;
    assert s == h2 + ":" + u2;
    assert s[..|h1|] == h1 && s[..|h2|] == h2 && s[|h1|] == ':';
    if |h1| < |h2| {
      assert h2[..|h1| + 1] == s[..|h1| + 1] == h1 + ":";
    }
  }

  lemma Collides(agentID: string, h1: string, h2: string)
    requires h1 + ":" <= h2
    ensures FmtKey(agentID, h1, h2[|h1| + 1..] + ":") == FmtKey(agentID, h2, "")
  {
    var rest := h2[|h1| + 1..];
    assert h2 == h1 + ":" + rest;
    assert h1 + ":" + (rest + ":") == h2 + ":" + "";
    SameTail(agentID, h1, rest + ":", h2, "");
  }

  /** Keys tell host and user apart when no host contains a colon. */
  lemma KeysDistinguish(agentID: string, h1: string, u1: string, h2: string, u2: string)
    requires ':' !in h1 && ':' !in h2 && FmtKey(agentID, h1, u1) == FmtKey(agentID, h2, u2)
    ensures h1 == h2 && u1 == u2
  {
    if h1 != h2 {
      HostsCollideExactly(agentID, h1, h2);
      NoColon(h1, h2);
      NoColon(h2, h1);
    }
    SameTail(agentID, h1, u1, h2, u2);
    DropCommon(h1 + ":", u1, u2);
  }

  lemma NoColon(a: string, b: string)
    requires ':' !in b
    ensures !(a + ":" <= b)
  {
    assert (a + ":")[|a|] == ':';
    assert forall i :: 0 <= i < |b| ==> b[i] != ':';
  }

  // ---------------------------------------------------------------- steps

  type Credential = string

  datatype CacheEntry = CacheEntry(cred: Credential, expiresAt: int)

  /** A fetch that succeeded, and when its result was stamped. */
  datatype Fetch = Fetch(agentID: string, host: string, user: string, cred: Credential, at: int)

  datatype State = State(cache: map<string, CacheEntry>, fetches: seq<Fetch>)

  /** The atomic operations on the cache, by any number of goroutines: dropping what was seen expired, and storing. */
  datatype Event = Deleted(key: string) | Stored(fetch: Fetch)

  function KeyOf(f: Fetch): string {
    FmtKey(f.agentID, f.host, f.user)
  }

  function Next(ttl: int, s: State, e: Event): State {
    match e
    case Deleted(key) => s.(cache := s.cache - {key})
    case Stored(f) => State(s.cache[KeyOf(f) := CacheEntry(f.cred, f.at + ttl)], s.fetches + [f])
  }

  function Run(ttl: int, events: seq<Event>): State {
    if events == [] then State(map[], []) else Next(ttl, Run(ttl, events[..|events| - 1]), events[|events| - 1])
  }

  /** A lookup that hits, at a time. */
  predicate Hits(s: State, key: string, now: int) {
    key in s.cache && now < s.cache[key].expiresAt
  }

  ghost predicate Backed(ttl: int, s: State) {
    forall k :: k in s.cache ==> exists f :: f in s.fetches && KeyOf(f) == k && s.cache[k] == CacheEntry(f.cred, f.at + ttl)
  }

  lemma NextBacked(ttl: int, s: State, e: Event)
    requires Backed(ttl, s)
    ensures Backed(ttl, Next(ttl, s, e))
  {
    var t := Next(ttl, s, e);
    forall k | k in t.cache
      ensures exists f :: f in t.fetches && KeyOf(f) == k && t.cache[k] == CacheEntry(f.cred, f.at + ttl)
    {
      if e.Stored? && k == KeyOf(e.fetch) {
        assert e.fetch in t.fetches;
      } else {
        var f :| f in s.fetches && KeyOf(f) == k && s.cache[k] == CacheEntry(f.cred, f.at + ttl);
        assert f in t.fetches;
      }
    }
  }

  lemma {:induction false} RunBacked(ttl: int, events: seq<Event>)
    ensures Backed(ttl, Run(ttl, events))
  {
    if events != [] {
      RunBacked(ttl, events[..|events| - 1]);
      NextBacked(ttl, Run(ttl, events[..|events| - 1]), events[|events| - 1]);
    }
  }

  lemma {:induction false} FetchesStored(ttl: int, events: seq<Event>)
    ensures forall f :: f in Run(ttl, events).fetches ==> Stored(f) in events
  {
    if events != [] {
      var n := |events| - 1;
      FetchesStored(ttl, events[..n]);
      assert forall e :: e in events[..n] ==> e in events;
      assert events[n] in events;
    }
  }

  /**
   In every interleaving with one agent and hosts without colons, a hit for a host and a user is what a fetch
   for exactly this host and user returned less than the time to live ago.
   */
  lemma HitsAreFresh(ttl: int, events: seq<Event>, agentID: string, host: string, user: string, now: int)
    requires forall e :: e in events && e.Stored? ==> e.fetch.agentID == agentID && ':' !in e.fetch.host
    requires ':' !in host
    requires Hits(Run(ttl, events), FmtKey(agentID, host, user), now)
    ensures var s, key := Run(ttl, events), FmtKey(agentID, host, user);
            exists f :: f in s.fetches && f.host == host && f.user == user && f.cred == s.cache[key].cred && now - f.at < ttl
  {
    var s, key := Run(ttl, events), FmtKey(agentID, host, user);
    RunBacked(ttl, events);
    FetchesStored(ttl, events);
    var f :| f in s.fetches && KeyOf(f) == key && s.cache[key] == CacheEntry(f.cred, f.at + ttl);
    KeysDistinguish(agentID, f.host, f.user, host, user);
  }

  /** The event has to do with the entry of another key. */
  predicate Elsewhere(e: Event, key: string) {
    match e
    case Deleted(k) => k != key
    case Stored(f) => KeyOf(f) != key
  }

  /**
   What was fetched for a host and a user is found, until something is stored for them or dropped again,
   exactly while it is younger than the time to live.
   */
  lemma {:induction false} LivesExactly(ttl: int, before: seq<Event>, f: Fetch, later: seq<Event>, now: int)
    requires forall e :: e in later ==> Elsewhere(e, f.agentID + ":" + f.host + ":" + f.user)
    ensures var s, key := Run(ttl, before + [Stored(f)] + later), f.agentID + ":" + f.host + ":" + f.user;
            key in s.cache && s.cache[key].cred == f.cred && (Hits(s, key, now) <==> now - f.at < ttl)
    decreases |later|
  {
    var events := before + [Stored(f)] + later;
    if later == [] {
      assert events[..|events| - 1] == before && events[|events| - 1] == Stored(f);
    } else {
      var front, last := later[..|later| - 1], later[|later| - 1];
      assert last in later && forall e :: e in front ==> e in later;
      assert events[..|events| - 1] == before + [Stored(f)] + front && events[|events| - 1] == last;
      LivesExactly(ttl, before, f, front, now);
    }
  }

  // ---------------------------------------------------------------- the resolver object

  datatype Resolved = Disabled | Credential_(cred: Credential) | FetchFailed

  class Resolver {
    const vaultURI: string
    const ttl: int
    var cache: map<string, CacheEntry>
    ghost var fetches: seq<Fetch>

    constructor (vaultURI: string, ttl: int)
      ensures this.vaultURI == vaultURI && this.ttl == ttl && Value() == State(map[], [])
    {
      this.vaultURI, this.ttl, cache, fetches := vaultURI, ttl, map[], [];
    }

    ghost function Value(): State
      reads this
    {
      State(cache, fetches)
    }

    /** `now` is when the cache is looked at, `fetched` what the fetcher returns and `later` when that is stamped. */
    method Resolve(agentID: string, targetHost: string, userID: string, now: int, fetched: Option<Credential>, later: int)
      returns (r: Resolved)
      modifies this
      ensures var s, key := old(Value()), FmtKey(agentID, targetHost, userID);
              if vaultURI == "" then r == Disabled && Value() == s
              else if Hits(s, key, now) then r == Credential_(s.cache[key].cred) && Value() == s
              else
                var missed := if key in s.cache then Next(ttl, s, Deleted(key)) else s;
                if fetched.None? then r == FetchFailed && Value() == missed
                else r == Credential_(fetched.value) &&
                     Value() == Next(ttl, missed, Stored(Fetch(agentID, targetHost, userID, fetched.value, later)))
    {
      if vaultURI == "" {
        return Disabled;
      }
      var key := FmtKey(agentID, targetHost, userID);
      if key in cache {
        var entry := cache[key];
        if now < entry.expiresAt {
          return Credential_(entry.cred);
        }
        cache := cache - {key};
      }
      if fetched.None? {
        return FetchFailed;
      }
      cache := cache[key := CacheEntry(fetched.value, later + ttl)];
      fetches := fetches + [Fetch(agentID, targetHost, userID, fetched.value, later)];
      return Credential_(fetched.value);
    }
  }
}
