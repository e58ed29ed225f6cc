/** The bounded connection pool: its accounting over all interleavings, and the loop that discards stale connections. */
module ConnectionPool {
  import opened Optional
  import opened Sequences

  datatype Limits = Limits(maxActive: int, maxIdle: nat)

  predicate ValidLimits(l: Limits) {
    l.maxIdle <= l.maxActive
  }

  /**
   Where an open connection is: in the idle channel, being examined by some Get, about to be closed by the
   Get or Put that holds it, or with a caller.
   */
  datatype Place = Idle | Checking | Doomed | Lent

  datatype State = State(idle: seq<nat>, place: map<nat, Place>, closed: set<nat>, openedCount: int, next: nat)

  function Initial(): State {
    State([], map[], {}, 0, 0)
  }

  // ---------------------------------------------------------------- steps

  /** What happens inside one critical section or one channel operation. */
  datatype Event =
    | Receive
    | Reject(conn: nat)
    | Discard(conn: nat)
    | Hand(conn: nat)
    | Open
    | PutIdle(conn: nat)
    | PutFull(conn: nat)
    | CloseLent(conn: nat)

  predicate At(s: State, c: nat, p: Place) {
    c in s.place && s.place[c] == p
  }

  function Move(s: State, c: nat, p: Place): State {
    s.(place := s.place[c := p])
  }

  /** Closing takes the connection off the count. */
  function Shut(s: State, c: nat): State {
    s.(place := s.place - {c}, closed := s.closed + {c}, openedCount := s.openedCount - 1)
  }

  /** The steps callers make keep to the rule that each lent connection is put back or closed once. */
  function Next(l: Limits, s: State, e: Event): Option<State> {
    match e
    case Receive => if s.idle == [] then None else Some(Move(s, s.idle[0], Checking).(idle := s.idle[1..]))
    case Reject(c) => if !At(s, c, Checking) then None else Some(Move(s, c, Doomed))
    case Discard(c) => if !At(s, c, Doomed) then None else Some(Shut(s, c))
    case Hand(c) => if !At(s, c, Checking) || c in s.closed then None else Some(Move(s, c, Lent))
    case Open =>
      if s.openedCount >= l.maxActive then None
      else Some(Move(s, s.next, Lent).(openedCount := s.openedCount + 1, next := s.next + 1))
    case PutIdle(c) =>
      if !At(s, c, Lent) || |s.idle| >= l.maxIdle then None else Some(Move(s, c, Idle).(idle := s.idle + [c]))
    case PutFull(c) => if !At(s, c, Lent) || |s.idle| < l.maxIdle then None else Some(Move(s, c, Doomed))
    case CloseLent(c) => if !At(s, c, Lent) then None else Some(Shut(s, c))
  }

  function Run(l: Limits, s: State, events: seq<Event>): Option<State>
    decreases |events|
  {
    if events == [] then Some(s)
    else
      var next :- Next(l, s, events[0]);
      Run(l, next, events[1..])
  }

  lemma RunThen(l: Limits, s: State, e: Event, t: State, rest: seq<Event>)
    requires Next(l, s, e) == Some(t)
    ensures Run(l, s, [e] + rest) == Run(l, t, rest)
  {
    assert ([e] + rest)[1..] == rest;
  }

  lemma RunOne(l: Limits, s: State, e: Event, t: State)
    requires Next(l, s, e) == Some(t)
    ensures Run(l, s, [e]) == Some(t)
  {
    assert [e][1..] == [];
    assert Run(l, t, []) == Some(t);
  }

  // ---------------------------------------------------------------- the invariant

  /** The channel holds exactly the idle connections, each once. */
  ghost predicate Channel(s: State) {
    && Distinct(s.idle)
    && (forall c :: c in s.idle ==> At(s, c, Idle))
    && (forall c :: At(s, c, Idle) ==> c in s.idle)
  }

  predicate Numbered(s: State) {
    && (forall c :: c in s.place ==> c < s.next && c !in s.closed)
    && (forall c :: c in s.closed ==> c < s.next)
  }

  predicate Counted(l: Limits, s: State) {
    && s.openedCount == |s.place.Keys|
    && (s.openedCount <= l.maxActive || s.openedCount == 0)
    && |s.idle| <= l.maxIdle
  }

  ghost predicate Inv(l: Limits, s: State) {
    Channel(s) && Numbered(s) && Counted(l, s)
  }

  lemma MoveKeeps(s: State, c: nat, p: Place)
    requires Channel(s) && Numbered(s) && c in s.place && s.place[c] != Idle && p != Idle
    ensures Channel(Move(s, c, p)) && Numbered(Move(s, c, p)) && Move(s, c, p).place.Keys == s.place.Keys
  {
    var t := Move(s, c, p);
    assert forall x :: x in t.idle ==> At(s, x, Idle);
    assert forall x :: At(t, x, Idle) ==> At(s, x, Idle);
  }

  lemma ShutKeeps(s: State, c: nat)
    requires Channel(s) && Numbered(s) && c in s.place && s.place[c] != Idle
    ensures Channel(Shut(s, c)) && Numbered(Shut(s, c)) && |Shut(s, c).place.Keys| == |s.place.Keys| - 1
  {
    var t := Shut(s, c);
    assert t.place.Keys == s.place.Keys - {c};
    assert forall x :: x in t.idle ==> At(s, x, Idle);
    assert forall x :: At(t, x, Idle) ==> At(s, x, Idle);
  }

  lemma ReceiveKeeps(l: Limits, s: State)
    requires Channel(s) && Numbered(s) && s.idle != []
    ensures var t := Next(l, s, Receive).value; Channel(t) && Numbered(t) && t.place.Keys == s.place.Keys
  {
    var c, t := s.idle[0], Next(l, s, Receive).value;
    assert c in s.idle;
    forall x | x in t.idle ensures At(t, x, Idle) {
      var i :| 0 <= i < |t.idle| && t.idle[i] == x;
      assert s.idle[i + 1] == x && x in s.idle;
    }
    forall x | At(t, x, Idle) ensures x in t.idle {
      assert At(s, x, Idle) && x != c;
    }
  }

  lemma PutKeeps(l: Limits, s: State, c: nat)
    requires Channel(s) && Numbered(s) && At(s, c, Lent) && |s.idle| < l.maxIdle
    ensures var t := Next(l, s, PutIdle(c)).value; Channel(t) && Numbered(t) && t.place.Keys == s.place.Keys
  {
    var t := Next(l, s, PutIdle(c)).value;
    assert c !in s.idle;
    assert forall x :: x in t.idle <==> x in s.idle || x == c;
    assert forall x :: At(t, x, Idle) ==> At(s, x, Idle) || x == c;
  }

  lemma OpenKeeps(l: Limits, s: State)
    requires Channel(s) && Numbered(s) && s.openedCount < l.maxActive
    ensures var t := Next(l, s, Open).value; Channel(t) && Numbered(t) && |t.place.Keys| == |s.place.Keys| + 1
  {
    var t := Next(l, s, Open).value;
    assert s.next !in s.place && t.place.Keys == s.place.Keys + {s.next};
    assert forall x :: x in t.idle ==> At(s, x, Idle);
    assert forall x :: At(t, x, Idle) ==> At(s, x, Idle);
  }

  lemma NextKeeps(l: Limits, s: State, e: Event)
    requires Inv(l, s) && Next(l, s, e).Some?
    ensures Inv(l, Next(l, s, e).value)
  {
    match e
    case Discard(c) => ShutKeeps(s, c);
    case Open => OpenKeeps(l, s);
    case CloseLent(c) => ShutKeeps(s, c);
    case _ => MovesKeep(l, s, e);
  }

  /** A step after which the same connections are open. */
  lemma MovesKeep(l: Limits, s: State, e: Event)
    requires !e.Discard? && !e.Open? && !e.CloseLent?
    requires Inv(l, s) && Next(l, s, e).Some?
    ensures Inv(l, Next(l, s, e).value)
  {
    match e
    case Receive => ReceiveKeeps(l, s);
    case Reject(c) => MoveKeeps(s, c, Doomed);
    case Hand(c) => MoveKeeps(s, c, Lent);
    case PutIdle(c) => PutKeeps(l, s, c);
    case PutFull(c) => MoveKeeps(s, c, Doomed);
  }

  lemma {:induction false} AlwaysAccounted(l: Limits, s: State, events: seq<Event>)
    requires Inv(l, s) && Run(l, s, events).Some?
    ensures Inv(l, Run(l, s, events).value)
    decreases |events|
  {
    if events != [] {
      NextKeeps(l, s, events[0]);
      AlwaysAccounted(l, Next(l, s, events[0]).value, events[1..]);
    }
  }

  /** The open connections that are not in the channel: lent, or in transit in some Get or Put. */
  function Away(s: State): set<nat> {
    set c | c in s.place.Keys && s.place[c] != Idle
  }

  lemma {:induction false} IdleCount(idle: seq<nat>)
    requires Distinct(idle)
    ensures |AsSet(idle)| == |idle|
  {
    if idle != [] {
      var front, last := idle[..|idle| - 1], idle[|idle| - 1];
      IdleCount(front);
      assert front + [last] == idle;
      AsSetPush(front, last);
      LastIsNew(idle);
    }
  }

  lemma LastIsNew(idle: seq<nat>)
    requires idle != [] && Distinct(idle)
    ensures idle[|idle| - 1] !in AsSet(idle[..|idle| - 1])
  {
  }

  lemma AsSetPush(xs: seq<nat>, x: nat)
    ensures AsSet(xs + [x]) == AsSet(xs) + {x}
    ensures AsSet([x] + xs) == {x} + AsSet(xs)
  {
  }

  function AsSet(xs: seq<nat>): set<nat> {
    set x | x in xs
  }

  lemma DisjointCount(a: set<nat>, b: set<nat>)
    requires a !! b
    ensures |a + b| == |a| + |b|
  {
  }

  lemma IdlePlusAway(s: State)
    requires Channel(s)
    ensures |s.place.Keys| == |s.idle| + |Away(s)|
  {
    var idle := AsSet(s.idle);
    IdleCount(s.idle);
    forall c ensures c in s.place.Keys <==> c in idle + Away(s) {
      if c in s.idle {
        assert At(s, c, Idle);
      } else if c in s.place && s.place[c] == Idle {
        assert At(s, c, Idle);
      }
    }
    assert s.place.Keys == idle + Away(s);
    forall c | c in idle ensures c !in Away(s) {
      assert At(s, c, Idle);
    }
    DisjointCount(idle, Away(s));
  }

  /**
   The accounts over any interleaving from the empty pool: the count is the idle connections plus those lent
   or in transit and never above the limit, the idle ones are within theirs, and none is both.
   */
  lemma PoolAccounting(l: Limits, events: seq<Event>)
    requires ValidLimits(l) && Run(l, Initial(), events).Some?
    ensures var s := Run(l, Initial(), events).value;
            && s.openedCount == |s.idle| + |Away(s)|
            && s.openedCount <= l.maxActive
            && |s.idle| <= l.maxIdle
            && (forall c :: c in s.idle ==> !At(s, c, Lent) && c !in s.closed)
  {
    AlwaysAccounted(l, Initial(), events);
    var s := Run(l, Initial(), events).value;
    IdlePlusAway(s);
    assert forall c :: c in s.idle ==> At(s, c, Idle);
  }

  /** Closing takes one off the count whatever is closed: the accounts still hold exactly if it was open. */
  lemma CloseExactly(l: Limits, s: State, c: nat)
    requires Inv(l, s)
    ensures Shut(s, c).openedCount == |Shut(s, c).place.Keys| <==> c in s.place
  {
    assert Shut(s, c).place.Keys == s.place.Keys - {c};
    if c !in s.place {
      assert s.place.Keys - {c} == s.place.Keys;
    }
  }

  // ---------------------------------------------------------------- Get by itself

  datatype Got = Conn(conn: nat) | ErrClosed | ErrMaxActive | ErrFactory

  /** A connection taken from the channel and closed, and one taken and lent. */
  function Dropped(s: State): State
    requires s.idle != []
  {
    Shut(s.(idle := s.idle[1..]), s.idle[0])
  }

  function LentFirst(s: State): State
    requires s.idle != []
  {
    Move(s.(idle := s.idle[1..]), s.idle[0], Lent)
  }

  /** What Get comes to while nobody else uses the pool. */
  function Getting(l: Limits, s: State, stale: nat -> bool, made: bool): (r: (State, Got))
    decreases |s.idle|
  {
    if s.idle == [] then
      if s.openedCount >= l.maxActive then (s, ErrMaxActive)
      else if !made then (s, ErrFactory)
      else (Move(s, s.next, Lent).(openedCount := s.openedCount + 1, next := s.next + 1), Conn(s.next))
    else if stale(s.idle[0]) then Getting(l, Dropped(s), stale, made)
    else if s.idle[0] in s.closed then Getting(l, s.(idle := s.idle[1..]), stale, made)
    else (LentFirst(s), Conn(s.idle[0]))
  }

  lemma GettingStep(l: Limits, s: State, stale: nat -> bool, made: bool)
    requires Inv(l, s) && s.idle != []
    ensures s.idle[0] !in s.closed && Inv(l, Dropped(s)) && Inv(l, LentFirst(s))
    ensures Getting(l, s, stale, made) == if stale(s.idle[0]) then Getting(l, Dropped(s), stale, made) else (LentFirst(s), Conn(s.idle[0]))
  {
    DroppedKeeps(l, s);
    LentKeeps(l, s);
  }

  /** The steps Get makes. */
  function GetEvents(l: Limits, s: State, stale: nat -> bool, made: bool): seq<Event>
    decreases |s.idle|
  {
    if s.idle == [] then
      if s.openedCount >= l.maxActive || !made then [] else [Open]
    else
      var c := s.idle[0];
      if stale(c) then [Receive] + ([Reject(c)] + ([Discard(c)] + GetEvents(l, Dropped(s), stale, made)))
      else [Receive] + [Hand(c)]
  }

  lemma DroppedRuns(l: Limits, s: State, rest: seq<Event>)
    requires s.idle != []
    ensures var c := s.idle[0]; Run(l, s, [Receive] + ([Reject(c)] + ([Discard(c)] + rest))) == Run(l, Dropped(s), rest)
  {
    var c := s.idle[0];
    var s1 := Next(l, s, Receive).value;
    var s2 := Move(s1, c, Doomed);
    assert s2.place - {c} == s.place - {c};
    RunThen(l, s, Receive, s1, [Reject(c)] + ([Discard(c)] + rest));
    RunThen(l, s1, Reject(c), s2, [Discard(c)] + rest);
    RunThen(l, s2, Discard(c), Dropped(s), rest);
  }

  lemma LentRuns(l: Limits, s: State)
    requires s.idle != [] && s.idle[0] !in s.closed
    ensures Run(l, s, [Receive] + [Hand(s.idle[0])]) == Some(LentFirst(s))
  {
    var c := s.idle[0];
    var s1 := Next(l, s, Receive).value;
    assert s1.place[c := Lent] == s.place[c := Lent];
    RunThen(l, s, Receive, s1, [Hand(c)]);
    RunOne(l, s1, Hand(c), LentFirst(s));
  }

  lemma DroppedKeeps(l: Limits, s: State)
    requires Inv(l, s) && s.idle != []
    ensures Inv(l, Dropped(s))
  {
    var c := s.idle[0];
    var s1 := Next(l, s, Receive).value;
    ReceiveKeeps(l, s);
    ShutKeeps(s1, c);
    assert s1.place - {c} == s.place - {c};
  }

  lemma LentKeeps(l: Limits, s: State)
    requires Inv(l, s) && s.idle != []
    ensures Inv(l, LentFirst(s)) && s.idle[0] !in s.closed
  {
    var c := s.idle[0];
    var s1 := Next(l, s, Receive).value;
    assert c in s.idle && At(s, c, Idle);
    ReceiveKeeps(l, s);
    MoveKeeps(s1, c, Lent);
    assert s1.place[c := Lent] == s.place[c := Lent];
  }

  /** Get is made of the atomic steps. */
  lemma {:induction false} GettingRuns(l: Limits, s: State, stale: nat -> bool, made: bool)
    requires Inv(l, s)
    ensures Run(l, s, GetEvents(l, s, stale, made)) == Some(Getting(l, s, stale, made).0)
    decreases |s.idle|
  {
    if s.idle == [] {
      if s.openedCount < l.maxActive && made {
        RunOne(l, s, Open, Next(l, s, Open).value);
      }
    } else {
      LentKeeps(l, s);
      if stale(s.idle[0]) {
        DroppedKeeps(l, s);
        GettingRuns(l, Dropped(s), stale, made);
        DroppedRuns(l, s, GetEvents(l, Dropped(s), stale, made));
      } else {
        LentRuns(l, s);
      }
    }
  }

  /** How many idle connections come before the first good one. */
  function Stale(idle: seq<nat>, stale: nat -> bool): (k: nat)
    ensures k <= |idle|
    ensures forall j :: 0 <= j < k ==> stale(idle[j])
    ensures k < |idle| ==> !stale(idle[k])
  {
    if idle == [] || !stale(idle[0]) then 0 else 1 + Stale(idle[1..], stale)
  }

  /** The first good idle connection, and exactly the stale ones before it closed; or a new one. */
  ghost predicate FirstGood(l: Limits, s: State, stale: nat -> bool, made: bool, t: State, got: Got) {
    var k := Stale(s.idle, stale);
    && t.closed == s.closed + AsSet(s.idle[..k])
    && (k < |s.idle| ==> got == Conn(s.idle[k]) && t.idle == s.idle[k + 1..] && t.openedCount == s.openedCount - k)
    && (k == |s.idle| ==>
          && t.idle == []
          && got == (if s.openedCount - k >= l.maxActive then ErrMaxActive else if made then Conn(s.next) else ErrFactory))
  }

  lemma FirstGoodStep(l: Limits, s: State, stale: nat -> bool, made: bool, t: State, got: Got)
    requires s.idle != [] && stale(s.idle[0]) && FirstGood(l, Dropped(s), stale, made, t, got)
    ensures FirstGood(l, s, stale, made, t, got)
  {
    var k := Stale(s.idle[1..], stale);
    assert s.idle[..k + 1] == [s.idle[0]] + s.idle[1..][..k];
    AsSetPush(s.idle[1..][..k], s.idle[0]);
  }

  lemma FirstGoodEnd(l: Limits, s: State, stale: nat -> bool, made: bool)
    requires s.idle == [] || (!stale(s.idle[0]) && s.idle[0] !in s.closed)
    ensures FirstGood(l, s, stale, made, Getting(l, s, stale, made).0, Getting(l, s, stale, made).1)
  {
    assert AsSet(s.idle[..0]) == {};
  }

  /** Get hands out the first good idle connection and closes exactly the stale ones before it, or opens a new one. */
  lemma {:induction false} GettingFirstGood(l: Limits, s: State, stale: nat -> bool, made: bool)
    requires Inv(l, s)
    ensures FirstGood(l, s, stale, made, Getting(l, s, stale, made).0, Getting(l, s, stale, made).1)
    decreases |s.idle|
  {
    if s.idle != [] {
      GettingStep(l, s, stale, made);
    }
    if s.idle != [] && stale(s.idle[0]) {
      var r := Getting(l, Dropped(s), stale, made);
      GettingFirstGood(l, Dropped(s), stale, made);
      FirstGoodStep(l, s, stale, made, r.0, r.1);
    } else {
      FirstGoodEnd(l, s, stale, made);
    }
  }

  // ---------------------------------------------------------------- the pool object

  class ChannelPool {
    const limits: Limits
    var idleConnections: seq<nat>
    var closed: set<nat>
    var openedCount: int
    var next: nat
    var released: bool

    /** Where the open connections are. */
    ghost var place: map<nat, Place>

    ghost function Value(): State
      reads this
    {
      State(idleConnections, place, closed, openedCount, next)
    }

    ghost predicate Valid()
      reads this
    {
      released || Inv(limits, Value())
    }

    constructor (limits: Limits)
      requires ValidLimits(limits)
      ensures Valid() && this.limits == limits && Value() == Initial() && !released
    {
      this.limits, idleConnections, closed, openedCount, next, released, place := limits, [], {}, 0, 0, false, map[];
    }

    /** After Release, closing does nothing any more. */
    method Close(conn: nat)
      modifies this
      ensures released == old(released)
      ensures Value() == if released then old(Value()) else Shut(old(Value()), conn)
    {
      if released {
        return;
      }
      openedCount := openedCount - 1;
      closed := closed + {conn};
      place := place - {conn};
    }

    /** A caller closes a connection it was lent. */
    method CloseByCaller(conn: nat)
      requires Valid() && !released && At(Value(), conn, Lent)
      modifies this
      ensures Valid() && !released && Next(limits, old(Value()), CloseLent(conn)) == Some(Value())
    {
      ghost var s := Value();
      Close(conn);
      NextKeeps(limits, s, CloseLent(conn));
    }

    /** Returns a connection to the idle ones, or closes it when there is no room; after Release it stays as it is. */
    method Put(conn: nat)
      modifies this
      ensures released == old(released)
      ensures Value() == if released then old(Value()) else Putting(limits, old(Value()), conn)
      ensures old(Valid()) && (released || At(old(Value()), conn, Lent)) ==> Valid()
      ensures old(Valid()) && !released && At(old(Value()), conn, Lent) ==>
                Run(limits, old(Value()), PutEvents(limits, old(Value()), conn)) == Some(Value())
    {
      ghost var s := Value();
      if !released && Inv(limits, s) && At(s, conn, Lent) {
        PuttingRuns(limits, s, conn);
      }
      if released {
        Close(conn);
        return;
      }
      if |idleConnections| < limits.maxIdle {
        idleConnections := idleConnections + [conn];
        place := place[conn := Idle];
        return;
      }
      Close(conn);
    }

    /** One round of the loop in Get: the next idle connection is discarded, or found good. */
    method TakeIdle(stale: nat -> bool) returns (good: Option<nat>)
      requires Valid() && !released && idleConnections != []
      modifies this
      ensures Valid() && !released
      ensures var s := old(Value());
              if stale(s.idle[0]) then good == None && Value() == Dropped(s)
              else good == Some(s.idle[0]) && Value() == LentFirst(s)
    {
      ghost var s := Value();
      var wrapConn := idleConnections[0];
      DroppedKeeps(limits, s);
      LentKeeps(limits, s);
      idleConnections := idleConnections[1..];
      if stale(wrapConn) {
        Close(wrapConn);
        return None;
      }
      if wrapConn in closed {
        return None;
      }
      place := place[wrapConn := Lent];
      return Some(wrapConn);
    }

    /** The part of Get that comes after an empty channel. */
    method OpenNew(made: bool) returns (r: Got)
      requires Valid() && !released && idleConnections == []
      modifies this
      ensures Valid() && !released
      ensures forall stale :: (Value(), r) == Getting(limits, old(Value()), stale, made)
    {
      if openedCount >= limits.maxActive {
        return ErrMaxActive;
      }
      if !made {
        return ErrFactory;
      }
      OpenKeeps(limits, Value());
      r := Conn(next);
      place := place[next := Lent];
      openedCount, next := openedCount + 1, next + 1;
    }

    /** `stale` is the outcome of the idle-time and ping checks, `made` that of the factory. */
    method Get(stale: nat -> bool, made: bool) returns (r: Got)
      requires Valid()
      modifies this
      ensures Valid() && released == old(released)
      ensures released ==> r == ErrClosed && Value() == old(Value())
      ensures !released ==> (Value(), r) == Getting(limits, old(Value()), stale, made)
    {
      if released {
        return ErrClosed;
      }
      ghost var goal := Getting(limits, Value(), stale, made);
      while |idleConnections| > 0
        invariant !released && Valid()
        invariant Getting(limits, Value(), stale, made) == goal
        decreases |idleConnections|
      {
        GettingStep(limits, Value(), stale, made);
        var good := TakeIdle(stale);
        if good.Some? {
          return Conn(good.value);
        }
      }
      r := OpenNew(made);
    }

    method Release()
      requires Valid()
      modifies this
      ensures Valid() && released
      ensures !old(released) ==> idleConnections == [] && closed == old(closed) + AsSet(old(idleConnections))
    {
      if !released {
        closed := closed + AsSet(idleConnections);
        idleConnections := [];
      }
      released := true;
    }
  }

  function PutEvents(l: Limits, s: State, c: nat): seq<Event> {
    if |s.idle| < l.maxIdle then [PutIdle(c)] else [PutFull(c)] + [Discard(c)]
  }

  /** What Put does with any connection, lent or not. */
  function Putting(l: Limits, s: State, c: nat): State {
    if |s.idle| < l.maxIdle then Move(s, c, Idle).(idle := s.idle + [c]) else Shut(s, c)
  }

  lemma PuttingRuns(l: Limits, s: State, c: nat)
    requires Inv(l, s) && At(s, c, Lent)
    ensures Run(l, s, PutEvents(l, s, c)) == Some(Putting(l, s, c)) && Inv(l, Putting(l, s, c))
  {
    if |s.idle| < l.maxIdle {
      RunOne(l, s, PutIdle(c), Putting(l, s, c));
      NextKeeps(l, s, PutIdle(c));
    } else {
      PutFullRuns(l, s, c);
    }
  }

  /** Putting a connection back keeps the accounts exactly if it is open and not idle already. */
  lemma PutExactly(l: Limits, s: State, c: nat)
    requires Inv(l, s)
    ensures Inv(l, Putting(l, s, c)) <==> c in s.place && s.place[c] != Idle
  {
    var t := Putting(l, s, c);
    if c in s.place && s.place[c] != Idle {
      var lent := Move(s, c, Lent);
      MoveKeeps(s, c, Lent);
      assert lent.place.Keys == s.place.Keys;
      assert Putting(l, lent, c) == t by {
        assert lent.place[c := Idle] == s.place[c := Idle];
        assert lent.place - {c} == s.place - {c};
      }
      PuttingRuns(l, lent, c);
    } else if c in s.place {
      IdleTwice(l, s, c);
    } else if |s.idle| < l.maxIdle {
      assert t.place.Keys == s.place.Keys + {c};
    } else {
      assert t.place == s.place;
    }
  }

  lemma IdleTwice(l: Limits, s: State, c: nat)
    requires Inv(l, s) && At(s, c, Idle)
    ensures !Inv(l, Putting(l, s, c))
  {
    var t := Putting(l, s, c);
    assert c in s.idle;
    var i :| 0 <= i < |s.idle| && s.idle[i] == c;
    if |s.idle| < l.maxIdle {
      assert t.idle[i] == t.idle[|s.idle|] == c;
    } else {
      assert c in t.idle && c !in t.place;
    }
  }

  lemma PutFullRuns(l: Limits, s: State, c: nat)
    requires Inv(l, s) && At(s, c, Lent) && |s.idle| >= l.maxIdle
    ensures Run(l, s, [PutFull(c)] + [Discard(c)]) == Some(Shut(s, c)) && Inv(l, Shut(s, c))
  {
    var t := Move(s, c, Doomed);
    assert t.place - {c} == s.place - {c};
    RunThen(l, s, PutFull(c), t, [Discard(c)]);
    RunOne(l, t, Discard(c), Shut(s, c));
    ShutKeeps(s, c);
  }

  // ---------------------------------------------------------------- Put and then Get

  lemma {:induction false} StaleAll(idle: seq<nat>, c: nat, stale: nat -> bool)
    requires forall x :: x in idle ==> stale(x)
    ensures Stale(idle, stale) == |idle|
    ensures Stale(idle + [c], stale) == if stale(c) then |idle| + 1 else |idle|
    decreases |idle|
  {
    if idle == [] {
      assert ([] + [c])[1..] == [];
    } else {
      assert idle[0] in idle && (idle + [c])[1..] == idle[1..] + [c];
      StaleAll(idle[1..], c, stale);
    }
  }

  /**
   A connection that is put back while every idle one is stale is what the next Get lends exactly when there
   was room for it and it is not stale itself.
   */
  lemma ReturnedExactly(l: Limits, s: State, c: nat, stale: nat -> bool, made: bool)
    requires Inv(l, s) && At(s, c, Lent) && forall x :: x in s.idle ==> stale(x)
    ensures Getting(l, Putting(l, s, c), stale, made).1 == Conn(c) <==> |s.idle| < l.maxIdle && !stale(c)
  {
    var t := Putting(l, s, c);
    PuttingRuns(l, s, c);
    GettingFirstGood(l, t, stale, made);
    StaleAll(s.idle, c, stale);
    assert c < s.next;
  }
}
