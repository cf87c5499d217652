/** The routing table as a function of what was handled, and how it outlives registrations. */
module RouteHistory {
  import opened Bytes
  import opened Outcomes
  import opened Encryption
  import opened Packets
  import opened Handler
  import opened Routes
  import opened Framing
  import opened Service

  datatype RouteAction = Updated(payload: seq<byte>) | Left

  /** What a step does to the routes of `id`: an aligned route update handled, or the cleanup after
      an acknowledged disconnect. */
  function ActionOf(s: State, e: Event, id: ClientId): seq<RouteAction>
    requires Enabled(s, e)
  {
    match e
    case Dispatch(owner, _, _) =>
      var p := s.phase.packet;
      if owner == id && IsControl(p, RouteUpdate) && |p.payload| % ENTRY_LENGTH == 0 then [Updated(p.payload)] else []
    case Finish(owner) => if owner == id && s.phase.Leaving? then [Left] else []
    case _ => []
  }

  function Actions(c: Cipher, s: State, es: seq<Event>, id: ClientId): seq<RouteAction>
    requires ValidRun(c, s, es)
    decreases es
  {
    if es == [] then [] else ActionOf(s, es[0], id) + Actions(c, Step(c, s, es[0]), es[1..], id)
  }

  /** The latest action decides. */
  predicate RoutesFollow(s: State, actions: seq<RouteAction>, id: ClientId) {
    if actions != [] && actions[|actions| - 1].Updated?
    then id in s.routes && s.routes[id] == WholeEntries(actions[|actions| - 1].payload)
    else id !in s.routes
  }

  lemma StepFollows(c: Cipher, s: State, e: Event, id: ClientId, before: seq<RouteAction>)
    requires Enabled(s, e) && RoutesFollow(s, before, id)
    ensures RoutesFollow(Step(c, s, e), before + ActionOf(s, e, id), id)
  {
    hide Boxed, Poll, Unread, Frame, Echo, ConfigReply;
    assert before + [] == before;
    if e.Dispatch? && s.phase.packet.packetType != Keepalive {
      var p := s.phase.packet;
      var s' := Tabled(s, e.id, p);
      var reply := ReplyTo(s', e.id, p);
      if reply.Ok? {
        ReplyOutcome(c, s', e.id, reply.value, e.nonce, e.room, if IsControl(p, Disconnect)
            then Leaving(e.id) else Idle);
      }
    }
  }

  lemma {:induction false} RunFollows(c: Cipher, s: State, es: seq<Event>, id: ClientId, before: seq<RouteAction>)
    requires ValidRun(c, s, es) && RoutesFollow(s, before, id)
    ensures RoutesFollow(Run(c, s, es), before + Actions(c, s, es, id), id)
    decreases es
  {
    hide Step, RoutesFollow;
    if es == [] {
      assert before + [] == before;
    } else {
      var first := ActionOf(s, es[0], id);
      StepFollows(c, s, es[0], id, before);
      RunFollows(c, Step(c, s, es[0]), es[1..], id, before + first);
      assert before + first + Actions(c, Step(c, s, es[0]), es[1..], id) == before + Actions(c, s, es, id);
    }
  }

  /** In every reachable state a client has routes exactly if its latest route action is an update,
      and then they are the parse of that update. Failed acknowledgments, evictions and other
      clients change nothing. */
  lemma RoutesEqualHistory(c: Cipher, es: seq<Event>, id: ClientId)
    requires ValidRun(c, Init(), es)
    ensures RoutesFollow(Run(c, Init(), es), Actions(c, Init(), es, id), id)
  {
    RunFollows(c, Init(), es, id, []);
    assert [] + Actions(c, Init(), es, id) == Actions(c, Init(), es, id);
  }

  /** The cleanup phase is reached exactly by a disconnect of a registered client whose
      acknowledgment the socket took in full. */
  lemma LeavingIffAcknowledged(c: Cipher, s: State, id: ClientId, nonce: Nonce, room: nat)
    requires s.phase.Received?
    ensures Dispatched(c, s, id, s.phase.packet, nonce, room).phase == Leaving(id) <==>
            && IsControl(s.phase.packet, Disconnect)
            && id in s.registry.clients
            && room >= PREFIX_LENGTH + BOX_OVERHEAD
  {
    var p := s.phase.packet;
    if p.packetType != Keepalive && ReplyTo(Tabled(s, id, p), id, p).Ok? {
      var reply := ReplyTo(Tabled(s, id, p), id, p).value;
      ReplyOutcome(c, Tabled(s, id, p), id, reply, nonce, room, if IsControl(p, Disconnect) then Leaving(id) else Idle);
      if IsControl(p, Disconnect) {
        BoxRoundTrip(c, nonce, reply);
      }
    }
  }

  // ---- Routes without a registration

  predicate Orphaned(s: State, id: ClientId) {
    id in s.routes && id !in s.registry.clients
  }

  /** The routing table is not cleaned when a client is evicted: exactly three kinds of step leave
      routes without a registration. */
  lemma OrphanedByIff(c: Cipher, s: State, e: Event, id: ClientId)
    requires Enabled(s, e) && !Orphaned(s, id)
    ensures Orphaned(Step(c, s, e), id) <==>
            || (e == StaleRemove(id) && id in s.routes)
            || (e == Finish(id) && s.phase.Failing? && IsFatalError(s.phase.error) && id in s.routes)
            || (e.Dispatch? && e.id == id && id !in s.registry.clients &&
                IsControl(s.phase.packet, RouteUpdate) && |s.phase.packet.payload| % ENTRY_LENGTH == 0)
  {
    if e.Dispatch? && s.phase.packet.packetType != Keepalive {
      var p := s.phase.packet;
      var s' := Tabled(s, e.id, p);
      var reply := ReplyTo(s', e.id, p);
      if reply.Ok? {
        ReplyOutcome(c, s', e.id, reply.value, e.nonce, e.room, if IsControl(p, Disconnect)
            then Leaving(e.id) else Idle);
      }
    }
  }

  /** The same three kinds of step leave a configuration without a registration. */
  lemma ConfigOrphanedByIff(c: Cipher, s: State, e: Event, id: ClientId)
    requires Enabled(s, e) && !(id in s.configs && id !in s.registry.clients)
    ensures id in Step(c, s, e).configs && id !in Step(c, s, e).registry.clients <==>
            || (e == StaleRemove(id) && id in s.configs)
            || (e == Finish(id) && s.phase.Failing? && IsFatalError(s.phase.error) && id in s.configs)
            || (e.Dispatch? && e.id == id && id !in s.registry.clients && IsControl(s.phase.packet, ConfigRequest))
  {
    hide Boxed, Poll, Unread, Frame, Echo, ConfigReply;
    if e.Dispatch? && s.phase.packet.packetType != Keepalive {
      var p := s.phase.packet;
      var s' := Tabled(s, e.id, p);
      var reply := ReplyTo(s', e.id, p);
      if reply.Ok? {
        ReplyOutcome(c, s', e.id, reply.value, e.nonce, e.room,
                     if IsControl(p, Disconnect) then Leaving(e.id) else Idle);
      }
    }
  }

  /** A registered client whose route update is in its inbox gets its routes. */
  lemma UpdateTabled(c: Cipher, s: State, id: ClientId, nonce: Nonce) returns (es: seq<Event>)
    requires s.phase == Idle && s.doomed == {} && id in s.registry.clients
    requires Boxed(c, nonce, NewControl(RouteUpdate)).Ok?
    requires s.registry.clients[id].inbox == Frame(Boxed(c, nonce, NewControl(RouteUpdate)).value)
    ensures ValidRun(c, s, es)
    ensures var s' := Run(c, s, es);
            && id in s'.routes && id in s'.registry.clients && s'.registry.clients[id].lastSeen <= s.now
            && s'.doomed == {} && s'.now == s.now
  {
    var update := NewControl(RouteUpdate);
    var body := Boxed(c, nonce, update).value;
    BoxRoundTrip(c, nonce, update);
    assert Frame(body) + [] == Frame(body);
    HeadPoll(Frame(body), [], body, []);
    var s1 := Step(c, s, PollClient(id, true));
    var dispatch := Dispatch(id, nonce, 0);
    ReplyOutcome(c, Tabled(s1, id, update), id, RouteAck(), nonce, 0, Idle);
    RunCons(c, s1, dispatch, []);
    es := [dispatch] + [];
    RunCons(c, s, PollClient(id, true), es);
    es := [PollClient(id, true)] + es;
  }

  /** Past the stale limit the monitor removes the client and leaves its routes. */
  lemma SilenceOrphans(c: Cipher, s: State, id: ClientId) returns (es: seq<Event>)
    requires id in s.routes && id in s.registry.clients && s.registry.clients[id].lastSeen <= s.now && s.doomed == {}
    ensures ValidRun(c, s, es) && Orphaned(Run(c, s, es), id)
  {
    var s1 := Step(c, s, Advance(STALE_AFTER + 1));
    var s2 := Step(c, s1, StaleList);
    RunCons(c, s2, StaleRemove(id), []);
    es := [StaleRemove(id)] + [];
    RunCons(c, s1, StaleList, es);
    es := [StaleList] + es;
    RunCons(c, s, Advance(STALE_AFTER + 1), es);
    es := [Advance(STALE_AFTER + 1)] + es;
  }

  /** Such states are reached: a route update, then silence past the stale limit. */
  lemma OrphanReachable(c: Cipher, nonce: Nonce, id: ClientId) returns (es: seq<Event>)
    ensures ValidRun(c, Init(), es) && Orphaned(Run(c, Init(), es), id)
  {
    SmallPacketsPack(c, nonce, NewControl(RouteUpdate));
    var frame := Frame(Boxed(c, nonce, NewControl(RouteUpdate)).value);
    hide Boxed, Frame;
    var s1 := Step(c, Init(), Accept(id));
    var s2 := Step(c, s1, Arrive(id, frame));
    assert s2.registry.clients[id].inbox == frame;
    es := UpdateTabled(c, s2, id, nonce);
    var rest := SilenceOrphans(c, Run(c, s2, es), id);
    RunConcatenates(c, s2, es, rest);
    es := es + rest;
    RunCons(c, s1, Arrive(id, frame), es);
    es := [Arrive(id, frame)] + es;
    RunCons(c, Init(), Accept(id), es);
    es := [Accept(id)] + es;
  }
}
