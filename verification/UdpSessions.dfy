/**
 The UDP session table and its reply goroutines, as atomic steps: a step is what one goroutine does in
 one critical section, or one socket operation outside any.
 */
module UdpSessions {
  import opened Optional

  /** A session; `socket` identifies its upstream socket, and no two sessions ever share one. */
  datatype Session = Session(key: string, client: string, original: string, socket: nat)

  function KeyOf(client: string, original: string): string {
    client + "|" + original
  }

  /** A reply socket, and the address it is bound to. */
  datatype Bound = Bound(socket: nat, address: string)

  /** Where a reply goroutine is: reading upstream, about to look up the reply socket, sending from it, closing, or gone. */
  datatype Phase = Reading | Holding | Sending(conn: Bound) | Closing | Gone

  datatype Routine = Routine(session: Session, phase: Phase)

  /** Where the serving goroutine is: waiting for a packet, writing one upstream, or closing after a failed write. */
  datatype Serving = Waiting | Writing(session: Session) | Dropping(key: string)

  /** What was read from an upstream socket and sent on, from which address and to which. */
  datatype Reply = Reply(socket: nat, from: string, to: string)

  /** `open` are the upstream sockets with the addresses they are connected to. */
  datatype State = State(
    sessions: map<string, Session>, open: map<nat, string>, routines: map<nat, Routine>,
    replies: map<string, Bound>, serving: Serving, next: nat, delivered: seq<Reply>)

  function Initial(): State {
    State(map[], map[], map[], map[], Waiting, 0, [])
  }

  // ---------------------------------------------------------------- the critical sections

  /** getOrCreateSession; `dialed` tells whether dialing upstream succeeds, if it comes to that. */
  function GetOrCreate(s: State, client: string, original: string, dialed: bool): (r: (State, Option<Session>)) {
    var key := KeyOf(client, original);
    if key in s.sessions then (s, Some(s.sessions[key]))
    else if !dialed then (s, None)
    else
      var session := Session(key, client, original, s.next);
      (s.(sessions := s.sessions[key := session], open := s.open[s.next := original],
          routines := s.routines[s.next := Routine(session, Reading)], next := s.next + 1),
       Some(session))
  }

  /** closeSession: it closes whatever session has the key now. */
  function Close(s: State, key: string): State {
    if key !in s.sessions then s
    else s.(sessions := s.sessions - {key}, open := s.open - {s.sessions[key].socket})
  }

  /** getReplyConn; `listened` tells whether a new socket can be had, if it comes to that. */
  function ReplySocket(s: State, original: string, listened: bool): (r: (State, Option<Bound>)) {
    if original in s.replies then (s, Some(s.replies[original]))
    else if !listened then (s, None)
    else
      var conn := Bound(s.next, original);
      (s.(replies := s.replies[original := conn], next := s.next + 1), Some(conn))
  }

  // ---------------------------------------------------------------- steps

  datatype Event =
    | Packet(client: string, original: string, dialed: bool)
    | Written(ok: bool)
    | Dropped
    | Read(id: nat, ok: bool)
    | Located(id: nat, listened: bool)
    | Sent(id: nat, from: string, to: string, ok: bool)
    | Closed(id: nat)

  function SetPhase(s: State, id: nat, phase: Phase): State
    requires id in s.routines
  {
    s.(routines := s.routines[id := s.routines[id].(phase := phase)])
  }

  lemma PhaseTwice(s: State, id: nat, phase: Phase, phase': Phase)
    requires id in s.routines
    ensures SetPhase(SetPhase(s, id, phase), id, phase') == SetPhase(s, id, phase')
  {
    var once := s.routines[id := s.routines[id].(phase := phase)];
    assert once[id := once[id].(phase := phase')] == s.routines[id := s.routines[id].(phase := phase')];
  }

  predicate In(s: State, id: nat, phase: Phase) {
    id in s.routines && s.routines[id].phase == phase
  }

  /** The goroutine is about to write to its session's client, from the reply socket it holds. */
  predicate Sends(s: State, id: nat, from: string, to: string) {
    && id in s.routines && s.routines[id].phase.Sending?
    && from == s.routines[id].phase.conn.address && to == s.routines[id].session.client
  }

  function Delivered(s: State, r: Reply): State {
    s.(delivered := s.delivered + [r])
  }

  /** One step; None when the goroutine it is about is not where the step starts from. */
  function Next(s: State, e: Event): Option<State> {
    match e
    case Packet(client, original, dialed) =>
      if !s.serving.Waiting? then None else
      var r := GetOrCreate(s, client, original, dialed);
      Some(if r.1.Some? then r.0.(serving := Writing(r.1.value)) else r.0)
    case Written(ok) =>
      if !s.serving.Writing? || (ok && s.serving.session.socket !in s.open) then None
      else Some(s.(serving := if ok then Waiting else Dropping(s.serving.session.key)))
    case Dropped =>
      if !s.serving.Dropping? then None else Some(Close(s, s.serving.key).(serving := Waiting))
    case Read(id, ok) =>
      if !In(s, id, Reading) || (ok && s.routines[id].session.socket !in s.open) then None
      else Some(SetPhase(s, id, if ok then Holding else Closing))
    case Located(id, listened) =>
      if !In(s, id, Holding) then None else
      var r := ReplySocket(s, s.routines[id].session.original, listened);
      Some(SetPhase(r.0, id, if r.1.Some? then Sending(r.1.value) else Closing))
    case Sent(id, from, to, ok) =>
      if !Sends(s, id, from, to) then None
      else Some(SetPhase(if ok then Delivered(s, Reply(id, from, to)) else s, id, if ok then Reading else Closing))
    case Closed(id) =>
      if !In(s, id, Closing) then None
      else Some(SetPhase(Close(s, s.routines[id].session.key), id, Gone))
  }

  function Run(s: State, events: seq<Event>): Option<State>
    decreases |events|
  {
    if events == [] then Some(s)
    else
      var next :- Next(s, events[0]);
      Run(next, events[1..])
  }

  // ---------------------------------------------------------------- the table

  class UDPServer {
    var sessions: map<string, Session>
    var replyConn: map<string, Bound>

    /** The sockets, the goroutines and what was sent, as the operating system and the runtime see them. */
    var open: map<nat, string>
    var delivered: seq<Reply>
    var routines: map<nat, Routine>
    var next: nat
    var serving: Serving

    constructor ()
      ensures Value() == Initial()
    {
      sessions, replyConn, open, delivered, routines, next, serving := map[], map[], map[], [], map[], 0, Waiting;
    }

    function Value(): State
      reads this
    {
      State(sessions, open, routines, replyConn, serving, next, delivered)
    }

    method GetOrCreateSession(client: string, original: string, dialed: bool) returns (r: Option<Session>)
      modifies this
      ensures (Value(), r) == GetOrCreate(old(Value()), client, original, dialed)
    {
      var key := client + "|" + original;
      if key in sessions {
        return Some(sessions[key]);
      }
      if !dialed {
        return None;
      }
      var session := Session(key, client, original, next);
      open := open[next := original];
      sessions := sessions[key := session];
      routines := routines[next := Routine(session, Reading)];
      next := next + 1;
      return Some(session);
    }

    method GetReplyConn(original: string, listened: bool) returns (r: Option<Bound>)
      modifies this
      ensures (Value(), r) == ReplySocket(old(Value()), original, listened)
    {
      if original in replyConn {
        return Some(replyConn[original]);
      }
      if !listened {
        return None;
      }
      var conn := Bound(next, original);
      replyConn := replyConn[original := conn];
      next := next + 1;
      return Some(conn);
    }

    method CloseSession(key: string)
      modifies this
      ensures Value() == Close(old(Value()), key)
    {
      if key !in sessions {
        return;
      }
      open := open - {sessions[key].socket};
      sessions := sessions - {key};
    }

    /** The end of a reply goroutine. */
    method CloseAndLeave(id: nat)
      requires id in routines
      modifies this
      ensures Run(SetPhase(old(Value()), id, Closing), [Closed(id)]) == Some(Value())
    {
      ghost var s := SetPhase(Value(), id, Closing);
      CloseSession(routines[id].session.key);
      routines := routines[id := Routine(routines[id].session, Gone)];
      assert s.routines[id := Routine(s.routines[id].session, Gone)] == routines;
      RunOne(s, Value(), Closed(id));
    }

    method Enter(id: nat, phase: Phase)
      requires id in routines
      modifies this
      ensures Value() == SetPhase(old(Value()), id, phase)
    {
      routines := routines[id := Routine(routines[id].session, phase)];
    }

    /** What was read is sent to the client, from the reply socket. */
    method SendReply(id: nat, conn: Bound, sent: bool)
      requires id in routines
      modifies this
      ensures var s := old(Value());
              Run(SetPhase(s, id, Sending(conn)), SendEvents(id, conn.address, s.routines[id].session.client, sent)) == Some(Value())
    {
      var client := routines[id].session.client;
      ghost var s := SetPhase(Value(), id, Sending(conn));
      if !sent {
        PhaseTwice(Value(), id, Sending(conn), Closing);
        CloseAndLeave(id);
        RunThen(s, SetPhase(s, id, Closing), Sent(id, conn.address, client, false), [Closed(id)]);
        return;
      }
      delivered := delivered + [Reply(id, conn.address, client)];
      PhaseTwice(Value(), id, Sending(conn), Reading);
      Enter(id, Reading);
      RunOne(s, Value(), Sent(id, conn.address, client, true));
    }

    /** One round of the reply loop, from the read on; `read`, `listened` and `sent` are how its operations end. */
    method ProxyReply(id: nat, read: bool, listened: bool, sent: bool)
      requires In(Value(), id, Reading) && (read ==> routines[id].session.socket in open)
      modifies this
      ensures Run(old(Value()), ReplyEvents(old(Value()), id, read, listened, sent)) == Some(Value())
    {
      ghost var s0 := Value();
      if !read {
        CloseAndLeave(id);
        RunThen(s0, SetPhase(s0, id, Closing), Read(id, false), [Closed(id)]);
        return;
      }
      Enter(id, Holding);
      ghost var s1 := Value();
      var replyConn := GetReplyConn(routines[id].session.original, listened);
      ghost var s2 := Value();
      if replyConn.None? {
        CloseAndLeave(id);
        RunThen(s1, SetPhase(s2, id, Closing), Located(id, listened), [Closed(id)]);
        RunThen(s0, s1, Read(id, true), [Located(id, listened)] + [Closed(id)]);
        return;
      }
      ghost var events := SendEvents(id, replyConn.value.address, s2.routines[id].session.client, sent);
      SendReply(id, replyConn.value, sent);
      RunThen(s1, SetPhase(s2, id, Sending(replyConn.value)), Located(id, listened), events);
      RunThen(s0, s1, Read(id, true), [Located(id, listened)] + events);
    }
  }

  function SendEvents(id: nat, from: string, to: string, sent: bool): seq<Event> {
    if sent then [Sent(id, from, to, true)] else [Sent(id, from, to, false)] + [Closed(id)]
  }

  /** The steps of one round of the reply loop. */
  function ReplyEvents(s: State, id: nat, read: bool, listened: bool, sent: bool): seq<Event>
    requires id in s.routines
  {
    var session := s.routines[id].session;
    var conn := ReplySocket(s, session.original, listened).1;
    [Read(id, read)] +
    (if !read then [Closed(id)]
     else [Located(id, listened)] + (if conn.None? then [Closed(id)] else SendEvents(id, conn.value.address, session.client, sent)))
  }

  lemma RunOne(s: State, t: State, e: Event)
    requires Next(s, e) == Some(t)
    ensures Run(s, [e]) == Some(t)
  {
    assert [e][1..] == [];
    assert Run(t, []) == Some(t);
  }

  lemma RunThen(s: State, t: State, e: Event, rest: seq<Event>)
    requires Next(s, e) == Some(t)
    ensures Run(s, [e] + rest) == Run(t, rest)
  {
    assert ([e] + rest)[1..] == rest;
  }

  // ---------------------------------------------------------------- the invariant

  predicate Live(s: State, id: nat) {
    id in s.routines && !s.routines[id].phase.Gone?
  }

  /** A socket is open exactly when its session is in the table, under its own key. */
  predicate OpenExactly(s: State) {
    && (forall k :: k in s.sessions ==> s.sessions[k].key == k && s.sessions[k].socket in s.open)
    && (forall id :: id in s.open ==> id in s.routines && Mapped(s, s.routines[id].session))
  }

  predicate Mapped(s: State, session: Session) {
    session.key in s.sessions && s.sessions[session.key] == session
  }

  /** Every session in the table has its own goroutine, still running. */
  predicate Served(s: State) {
    forall k :: k in s.sessions ==> Live(s, s.sessions[k].socket) && s.routines[s.sessions[k].socket].session == s.sessions[k]
  }

  ghost predicate Inv(s: State) {
    && OpenExactly(s)
    && Served(s)
    && (forall id :: id in s.routines ==> id < s.next && s.routines[id].session.socket == id)
  }

  lemma CloseKeeps(s: State, key: string)
    requires Inv(s)
    ensures Inv(Close(s, key)) && key !in Close(s, key).sessions
  {
    if key in s.sessions {
      var t := Close(s, key);
      forall id | id in t.open ensures Mapped(t, t.routines[id].session) {
        assert Mapped(s, s.routines[id].session);
      }
      forall k | k in t.sessions ensures t.sessions[k].socket in t.open {
        assert s.routines[s.sessions[k].socket].session == s.sessions[k];
        assert s.routines[s.sessions[key].socket].session == s.sessions[key];
      }
    }
  }

  lemma CreateKeeps(s: State, client: string, original: string, dialed: bool)
    requires Inv(s)
    ensures Inv(GetOrCreate(s, client, original, dialed).0)
  {
    if KeyOf(client, original) !in s.sessions && dialed {
      NewKeeps(s, Session(KeyOf(client, original), client, original, s.next), GetOrCreate(s, client, original, dialed).0);
    }
  }

  lemma NewKeeps(s: State, session: Session, t: State)
    requires Inv(s) && session.socket == s.next && session.key !in s.sessions
    requires t == s.(sessions := s.sessions[session.key := session], open := s.open[s.next := session.original],
                     routines := s.routines[s.next := Routine(session, Reading)], next := s.next + 1)
    ensures Inv(t)
  {
    forall id | id in t.open ensures id in t.routines && Mapped(t, t.routines[id].session) {
      if id != s.next {
        assert Mapped(s, s.routines[id].session);
      }
    }
    forall k | k in t.sessions
      ensures t.sessions[k].key == k && t.sessions[k].socket in t.open
      ensures Live(t, t.sessions[k].socket) && t.routines[t.sessions[k].socket].session == t.sessions[k]
    {
      if k != session.key {
        assert Live(s, s.sessions[k].socket) && s.sessions[k].socket < s.next;
      }
    }
  }

  /** A goroutine that has just closed its key may go: its session is not in the table any more. */
  lemma PhaseKeeps(s: State, id: nat, phase: Phase)
    requires Inv(s) && id in s.routines
    requires phase.Gone? ==> s.routines[id].session.key !in s.sessions
    ensures Inv(SetPhase(s, id, phase))
  {
    var t := SetPhase(s, id, phase);
    forall k | k in t.sessions ensures Live(t, t.sessions[k].socket) && t.routines[t.sessions[k].socket].session == t.sessions[k] {
      assert Live(s, s.sessions[k].socket) && s.routines[s.sessions[k].socket].session == s.sessions[k];
    }
    forall i | i in t.open ensures i in t.routines && Mapped(t, t.routines[i].session) {
      assert Mapped(s, s.routines[i].session);
    }
  }

  lemma LocateKeeps(s: State, original: string, listened: bool)
    requires Inv(s)
    ensures Inv(ReplySocket(s, original, listened).0)
    ensures ReplySocket(s, original, listened).0.routines == s.routines
  {
    var t := ReplySocket(s, original, listened).0;
    forall id | id in t.open ensures Mapped(t, t.routines[id].session) {
      assert Mapped(s, s.routines[id].session);
    }
  }

  lemma ServingKeeps(s: State, serving: Serving)
    requires Inv(s)
    ensures Inv(s.(serving := serving))
  {
    var t := s.(serving := serving);
    forall id | id in t.open ensures Mapped(t, t.routines[id].session) {
      assert Mapped(s, s.routines[id].session);
    }
    forall k | k in t.sessions ensures Live(t, t.sessions[k].socket) {
      assert Live(s, s.sessions[k].socket);
    }
  }

  lemma DeliveredKeeps(s: State, r: Reply)
    requires Inv(s)
    ensures Inv(Delivered(s, r))
  {
    var t := Delivered(s, r);
    forall id | id in t.open ensures Mapped(t, t.routines[id].session) {
      assert Mapped(s, s.routines[id].session);
    }
    forall k | k in t.sessions ensures Live(t, t.sessions[k].socket) {
      assert Live(s, s.sessions[k].socket);
    }
  }

  /** Every step keeps the invariant, also when an old goroutine closes a newer session of the same key. */
  lemma NextKeeps(s: State, e: Event)
    requires Inv(s) && Next(s, e).Some?
    ensures Inv(Next(s, e).value)
  {
    match e
    case Packet(client, original, dialed) =>
      var r := GetOrCreate(s, client, original, dialed);
      CreateKeeps(s, client, original, dialed);
      if r.1.Some? {
        ServingKeeps(r.0, Writing(r.1.value));
      }
    case Written(ok) => ServingKeeps(s, Next(s, e).value.serving);
    case Dropped =>
      CloseKeeps(s, s.serving.key);
      ServingKeeps(Close(s, s.serving.key), Waiting);
    case Read(id, ok) => PhaseKeeps(s, id, if ok then Holding else Closing);
    case Located(id, listened) =>
      var original := s.routines[id].session.original;
      LocateKeeps(s, original, listened);
      PhaseKeeps(ReplySocket(s, original, listened).0, id, if ReplySocket(s, original, listened).1.Some? then Sending(ReplySocket(s, original, listened).1.value) else Closing);
    case Sent(id, from, to, ok) =>
      DeliveredKeeps(s, Reply(id, from, to));
      PhaseKeeps(if ok then Delivered(s, Reply(id, from, to)) else s, id, if ok then Reading else Closing);
    case Closed(id) =>
      CloseKeeps(s, s.routines[id].session.key);
      PhaseKeeps(Close(s, s.routines[id].session.key), id, Gone);
  }

  /** In every interleaving: sockets are open exactly when mapped, and every mapped session is served. */
  lemma {:induction false} AlwaysInv(s: State, events: seq<Event>)
    requires Inv(s) && Run(s, events).Some?
    ensures Inv(Run(s, events).value)
    decreases |events|
  {
    if events != [] {
      NextKeeps(s, events[0]);
      AlwaysInv(Next(s, events[0]).value, events[1..]);
    }
  }

  lemma RunsSafely(events: seq<Event>)
    requires Run(Initial(), events).Some?
    ensures var s := Run(Initial(), events).value;
            && (forall k :: k in s.sessions ==> s.sessions[k].key == k && s.sessions[k].socket in s.open && Live(s, s.sessions[k].socket))
            && (forall id :: id in s.open ==> exists k :: k in s.sessions && s.sessions[k].socket == id)
  {
    AlwaysInv(Initial(), events);
    var s := Run(Initial(), events).value;
    forall k | k in s.sessions ensures Live(s, s.sessions[k].socket) {}
    forall id | id in s.open ensures exists k :: k in s.sessions && s.sessions[k].socket == id {
      assert Mapped(s, s.routines[id].session);
      assert s.sessions[s.routines[id].session.key].socket == id;
    }
  }

  lemma NothingLeaks(s: State)
    requires Inv(s) && forall id :: id in s.routines ==> s.routines[id].phase.Gone?
    ensures s.sessions.Keys == {} && s.open.Keys == {}
  {
    assert forall k :: k in s.sessions ==> Live(s, s.sessions[k].socket);
    assert forall id :: id in s.open ==> Mapped(s, s.routines[id].session);
  }

  /**
   What the closing step of a goroutine closes: the session the table has under its key. That is the
   session of another goroutine exactly when the key is taken and not by the goroutine's own session.
   */
  lemma ClosesAnotherExactly(s: State, id: nat)
    requires Inv(s) && In(s, id, Closing)
    ensures var t, session := Next(s, Closed(id)).value, s.routines[id].session;
            && t.open == s.open - (if session.key in s.sessions then {s.sessions[session.key].socket} else {})
            && ((exists other :: other != id && other in s.open && other !in t.open) <==>
                session.key in s.sessions && !Mapped(s, session))
  {
    var t, session := Next(s, Closed(id)).value, s.routines[id].session;
    if session.key in s.sessions && !Mapped(s, session) {
      var other := s.sessions[session.key].socket;
      assert s.routines[other].session == s.sessions[session.key];
      assert other != id && other in s.open && other !in t.open;
    }
  }

  /**
   A goroutine whose session was dropped and replaced under its key closes the replacement; the
   replacement then is out of the table and closed, and its own goroutine still runs to notice.
   */
  lemma StaleClose(s: State, old_: nat, fresh_: nat)
    requires Inv(s) && In(s, old_, Closing) && Live(s, fresh_) && old_ != fresh_
    requires s.routines[old_].session.key == s.routines[fresh_].session.key && Mapped(s, s.routines[fresh_].session)
    ensures Next(s, Closed(old_)).Some?
    ensures var t := Next(s, Closed(old_)).value;
            fresh_ in s.open && fresh_ !in t.open && !Mapped(t, t.routines[fresh_].session) && Live(t, fresh_) && Inv(t)
  {
    NextKeeps(s, Closed(old_));
  }

  lemma KeyDetermines(client: string, original: string, client': string, original': string)
    requires '|' !in client && '|' !in client'
    requires KeyOf(client, original) == KeyOf(client', original')
    ensures client == client' && original == original'
  {
    var key := KeyOf(client, original);
    assert key == KeyOf(client', original');
    assert forall k :: 0 <= k < |client| ==> key[k] == client[k];
    assert forall k :: 0 <= k < |client'| ==> key[k] == client'[k];
    assert key[|client|] == '|' && key[|client'|] == '|';
    assert |client| == |client'|;
    assert client == key[..|client|] && client' == key[..|client'|];
    assert original == key[|client| + 1..] && original' == key[|client'| + 1..];
  }

  // ---------------------------------------------------------------- whose sessions they are

  /** The session was made by a packet from its client to its original destination, and its socket is the one dialed then. */
  ghost predicate Made(events: seq<Event>, session: Session) {
    && session.key == session.client + "|" + session.original
    && MadeFor(events, session.socket, session.client, session.original)
  }

  ghost predicate MadeFor(events: seq<Event>, socket: nat, client: string, original: string) {
    exists j :: 0 <= j < |events| && events[j] == Packet(client, original, true) && Dials(events[..j], socket)
  }

  /** After these events the next socket to be opened is this one. */
  predicate Dials(events: seq<Event>, socket: nat) {
    Run(Initial(), events).Some? && Run(Initial(), events).value.next == socket
  }

  lemma {:induction false} RunPush(s: State, events: seq<Event>, e: Event)
    ensures Run(s, events + [e]) == var before := Run(s, events); if before.None? then None else Next(before.value, e)
    decreases |events|
  {
    if events == [] {
      assert events + [e] == [e] && [e][1..] == [];
      if Next(s, e).Some? {
        RunOne(s, Next(s, e).value, e);
      }
    } else {
      assert (events + [e])[1..] == events[1..] + [e];
      if Next(s, events[0]).Some? {
        RunPush(Next(s, events[0]).value, events[1..], e);
      }
    }
  }

  lemma MadeLater(events: seq<Event>, e: Event, socket: nat, client: string, original: string)
    requires MadeFor(events, socket, client, original)
    ensures MadeFor(events + [e], socket, client, original)
  {
    var j :| 0 <= j < |events| && events[j] == Packet(client, original, true) && Dials(events[..j], socket);
    assert (events + [e])[j] == events[j] && (events + [e])[..j] == events[..j];
  }

  lemma MadeNow(events: seq<Event>, socket: nat, client: string, original: string)
    requires Dials(events, socket)
    ensures MadeFor(events + [Packet(client, original, true)], socket, client, original)
  {
    var all := events + [Packet(client, original, true)];
    assert all[|events|] == Packet(client, original, true) && all[..|events|] == events;
  }

  /** Every session that is in the table, in a goroutine or being served was made for its own client and destination. */
  ghost predicate SessionsMade(events: seq<Event>, s: State) {
    && (forall k :: k in s.sessions ==> Made(events, s.sessions[k]))
    && (forall id :: id in s.routines ==> Made(events, s.routines[id].session))
    && (s.serving.Writing? ==> Made(events, s.serving.session))
  }

  /** Upstream sockets are connected to their session's destination, reply sockets bound to the address they are kept for. */
  predicate SocketsPlaced(s: State) {
    && (forall id :: id in s.open ==> id in s.routines && s.open[id] == s.routines[id].session.original)
    && (forall k :: k in s.replies ==> s.replies[k].address == k)
    && (forall id :: id in s.routines && s.routines[id].phase.Sending? ==>
          s.routines[id].phase.conn.address == s.routines[id].session.original)
  }

  /** Every reply went to the client of its session, from the address that client had sent to. */
  ghost predicate RepliesMade(events: seq<Event>, s: State) {
    forall r :: r in s.delivered ==> MadeFor(events, r.socket, r.to, r.from)
  }

  lemma AllMadeLater(events: seq<Event>, e: Event)
    ensures forall session :: Made(events, session) ==> Made(events + [e], session)
  {
    forall session | Made(events, session) ensures Made(events + [e], session) {
      MadeLater(events, e, session.socket, session.client, session.original);
    }
  }

  lemma SessionsStay(events: seq<Event>, s: State, e: Event, t: State)
    requires SessionsMade(events, s)
    requires forall k :: k in t.sessions ==> k in s.sessions && t.sessions[k] == s.sessions[k]
    requires forall id :: id in t.routines ==> id in s.routines && t.routines[id].session == s.routines[id].session
    requires t.serving.Writing? ==> t.serving == s.serving
    ensures SessionsMade(events + [e], t)
  {
    AllMadeLater(events, e);
  }

  lemma SessionsCreated(events: seq<Event>, s: State, client: string, original: string, dialed: bool)
    requires SessionsMade(events, s) && Run(Initial(), events) == Some(s) && s.serving.Waiting?
    ensures SessionsMade(events + [Packet(client, original, dialed)], Next(s, Packet(client, original, dialed)).value)
  {
    var e, key := Packet(client, original, dialed), client + "|" + original;
    AllMadeLater(events, e);
    if key !in s.sessions && dialed {
      NewMade(events, s, Session(key, client, original, s.next), Next(s, e).value);
    }
  }

  lemma NewMade(events: seq<Event>, s: State, session: Session, t: State)
    requires SessionsMade(events, s) && Run(Initial(), events) == Some(s)
    requires session == Session(session.client + "|" + session.original, session.client, session.original, s.next)
    requires t.sessions == s.sessions[session.key := session] && t.serving == Writing(session)
    requires t.routines == s.routines[s.next := Routine(session, Reading)]
    ensures SessionsMade(events + [Packet(session.client, session.original, true)], t)
  {
    AllMadeLater(events, Packet(session.client, session.original, true));
    MadeNow(events, s.next, session.client, session.original);
  }

  /** No other step makes a session. */
  lemma SameSessions(s: State, e: Event)
    requires !e.Packet? && Next(s, e).Some?
    ensures var t := Next(s, e).value;
            && (forall k :: k in t.sessions ==> k in s.sessions && t.sessions[k] == s.sessions[k])
            && (forall id :: id in t.routines ==> id in s.routines && t.routines[id].session == s.routines[id].session)
            && (t.serving.Writing? ==> t.serving == s.serving)
  {
  }

  lemma SessionsKept(events: seq<Event>, s: State, e: Event)
    requires SessionsMade(events, s) && Run(Initial(), events) == Some(s) && Next(s, e).Some?
    ensures SessionsMade(events + [e], Next(s, e).value)
  {
    if e.Packet? {
      SessionsCreated(events, s, e.client, e.original, e.dialed);
    } else {
      SameSessions(s, e);
      SessionsStay(events, s, e, Next(s, e).value);
    }
  }

  lemma SocketsKept(s: State, e: Event)
    requires SocketsPlaced(s) && Next(s, e).Some? && forall id :: id in s.routines ==> id < s.next
    ensures SocketsPlaced(Next(s, e).value)
  {
  }

  lemma RepliesKept(events: seq<Event>, s: State, e: Event)
    requires RepliesMade(events, s) && SessionsMade(events, s) && SocketsPlaced(s) && Inv(s) && Next(s, e).Some?
    ensures RepliesMade(events + [e], Next(s, e).value)
  {
    var t := Next(s, e).value;
    forall r | r in t.delivered ensures MadeFor(events + [e], r.socket, r.to, r.from) {
      if r !in s.delivered {
        assert e.Sent? && r == Reply(e.id, e.from, e.to);
        assert Made(events, s.routines[e.id].session);
      }
      MadeLater(events, e, r.socket, r.to, r.from);
    }
  }

  lemma {:induction false} AlwaysMade(events: seq<Event>)
    requires Run(Initial(), events).Some?
    ensures var s := Run(Initial(), events).value; Inv(s) && SessionsMade(events, s) && SocketsPlaced(s) && RepliesMade(events, s)
    decreases |events|
  {
    AlwaysInv(Initial(), events);
    if events != [] {
      var front, e := events[..|events| - 1], events[|events| - 1];
      assert front + [e] == events;
      RunPush(Initial(), front, e);
      AlwaysMade(front);
      var before := Run(Initial(), front).value;
      SessionsKept(front, before, e);
      SocketsKept(before, e);
      RepliesKept(front, before, e);
    }
  }

  /**
   In every run, every session in the table or with a goroutine has the key of its client and destination, was made
   by a packet from the one to the other, and while its upstream socket is open that is connected to the destination.
   */
  lemma SessionsBelong(events: seq<Event>, session: Session)
    requires Run(Initial(), events).Some?
    requires var s := Run(Initial(), events).value;
             session in s.sessions.Values || exists id :: id in s.routines && s.routines[id].session == session
    ensures session.key == session.client + "|" + session.original
    ensures exists j :: 0 <= j < |events| && events[j] == Packet(session.client, session.original, true) && Dials(events[..j], session.socket)
    ensures var s := Run(Initial(), events).value; session.socket in s.open ==> s.open[session.socket] == session.original
  {
    AlwaysMade(events);
    var s := Run(Initial(), events).value;
    if session in s.sessions.Values {
      var k :| k in s.sessions && s.sessions[k] == session;
      assert Made(events, s.sessions[k]) && Live(s, s.sessions[k].socket);
    }
  }

  /** In every run, every reply went to the client whose packet made its session, from the address the packet was sent to. */
  lemma RepliesReturn(events: seq<Event>, r: Reply)
    requires Run(Initial(), events).Some? && r in Run(Initial(), events).value.delivered
    ensures exists j :: 0 <= j < |events| && events[j] == Packet(r.to, r.from, true) && Dials(events[..j], r.socket)
  {
    AlwaysMade(events);
  }

  /** In every run, a packet is passed on through a socket that is connected to where it was going. */
  lemma PacketsPassOn(events: seq<Event>, client: string, original: string, dialed: bool)
    requires Run(Initial(), events).Some?
    requires '|' !in client && forall e :: e in events && e.Packet? ==> '|' !in e.client
    requires Next(Run(Initial(), events).value, Packet(client, original, dialed)).Some?
    ensures var t := Next(Run(Initial(), events).value, Packet(client, original, dialed)).value;
            t.serving.Writing? ==>
              && t.serving.session.client == client && t.serving.session.original == original
              && t.serving.session.socket in t.open && t.open[t.serving.session.socket] == original
  {
    AlwaysMade(events);
    var s, key := Run(Initial(), events).value, KeyOf(client, original);
    if key in s.sessions {
      var session := s.sessions[key];
      assert Made(events, session) && Live(s, session.socket);
      var j :| 0 <= j < |events| && events[j] == Packet(session.client, session.original, true) && Dials(events[..j], session.socket);
      assert events[j] in events;
      KeyDetermines(session.client, session.original, client, original);
    }
  }
}
