/** What the server holds and writes for one client depends on that client's events alone. */
module NonInterference {
  import opened Bytes
  import opened Encryption
  import opened Packets
  import opened Handler
  import opened Routes
  import opened Framing
  import opened Service

  function Only<V>(m: map<ClientId, V>, id: ClientId): map<ClientId, V> {
    map k | k in m && k == id :: m[k]
  }

  function OnlyRegistry(g: Registry, id: ClientId): Registry {
    Registry(Only(g.clients, id), Only(g.wire, id))
  }

  function OnlyPhase(phase: Phase, id: ClientId): Phase {
    if phase.Idle? || phase.id != id then Idle else phase
  }

  /** The part of the server's state that belongs to one client. */
  function Project(s: State, id: ClientId): State {
    State(s.now, OnlyRegistry(s.registry, id), Only(s.routes, id), Only(s.configs, id),
          OnlyPhase(s.phase, id), s.doomed * {id})
  }

  /** The passing of time and the listing of stale clients concern everyone. */
  predicate Concerns(e: Event, id: ClientId) {
    e.Advance? || e.StaleList? || e.id == id
  }

  function Filter(es: seq<Event>, id: ClientId): seq<Event> {
    if es == [] then []
    else (if Concerns(es[0], id) then [es[0]] else []) + Filter(es[1..], id)
  }

  lemma RegistryCommutes(g: Registry, id: ClientId, bytes: seq<byte>, now: nat)
    ensures OnlyRegistry(Accepted(g, id, now), id) == Accepted(OnlyRegistry(g, id), id, now)
    ensures OnlyRegistry(Arrived(g, id, bytes), id) == Arrived(OnlyRegistry(g, id), id, bytes)
    ensures OnlyRegistry(Removed(g, id), id) == Removed(OnlyRegistry(g, id), id)
    ensures OnlyRegistry(Touched(g, id, now), id) == Touched(OnlyRegistry(g, id), id, now)
    ensures Stale(g, now) * {id} == Stale(OnlyRegistry(g, id), now)
  {
  }

  lemma RegistryLeavesOthers(g: Registry, id: ClientId, other: ClientId, bytes: seq<byte>, now: nat)
    requires id != other
    ensures OnlyRegistry(Accepted(g, id, now), other) == OnlyRegistry(g, other)
    ensures OnlyRegistry(Arrived(g, id, bytes), other) == OnlyRegistry(g, other)
    ensures OnlyRegistry(Removed(g, id), other) == OnlyRegistry(g, other)
    ensures OnlyRegistry(Touched(g, id, now), other) == OnlyRegistry(g, other)
  {
  }

  lemma ReadIsOwn(g: Registry, id: ClientId, peekOk: bool, now: nat)
    ensures ReadResult(OnlyRegistry(g, id), id, peekOk) == ReadResult(g, id, peekOk)
    ensures OnlyRegistry(AfterRead(g, id, peekOk, now), id) == AfterRead(OnlyRegistry(g, id), id, peekOk, now)
    ensures forall other | other != id :: OnlyRegistry(AfterRead(g, id, peekOk, now), other) == OnlyRegistry(g, other)
  {
    hide Poll, Unread;
  }

  lemma WriteIsOwn(g: Registry, id: ClientId, packet: seq<byte>, room: nat)
    ensures WriteResult(OnlyRegistry(g, id), id, packet, room) == WriteResult(g, id, packet, room)
    ensures OnlyRegistry(AfterWrite(g, id, packet, room), id) == AfterWrite(OnlyRegistry(g, id), id, packet, room)
    ensures forall other | other != id :: OnlyRegistry(AfterWrite(g, id, packet, room), other) == OnlyRegistry(g, other)
  {
  }

  lemma PollCommutes(c: Cipher, s: State, id: ClientId, peekOk: bool)
    requires s.phase == Idle
    ensures AfterPoll(c, Project(s, id), id, peekOk) == Project(AfterPoll(c, s, id, peekOk), id)
  {
    PhaseAfterPoll(c, s, id, peekOk);
    ReadIsOwn(s.registry, id, peekOk, s.now);
  }

  lemma PollLeavesOthers(c: Cipher, s: State, id: ClientId, other: ClientId, peekOk: bool)
    requires s.phase == Idle && id != other
    ensures Project(AfterPoll(c, s, id, peekOk), other) == Project(s, other)
  {
    PhaseAfterPoll(c, s, id, peekOk);
    ReadIsOwn(s.registry, id, peekOk, s.now);
  }

  lemma ReplyCommutes(c: Cipher, s: State, id: ClientId, reply: VpnPacket, nonce: Nonce, room: nat, next: Phase)
    requires s.phase.Received? && s.phase.id == id && (next.Idle? || next.id == id)
    ensures Replied(c, Project(s, id), id, reply, nonce, room, next)
         == Project(Replied(c, s, id, reply, nonce, room, next), id)
    ensures forall other | other != id ::
              Project(Replied(c, s, id, reply, nonce, room, next), other) == Project(s, other)
  {
    hide Boxed, AfterWrite, WriteResult, Only;
    if Boxed(c, nonce, reply).Ok? {
      WriteIsOwn(s.registry, id, Boxed(c, nonce, reply).value, room);
    }
  }

  lemma TablesCommute(s: State, id: ClientId, p: VpnPacket)
    ensures Tabled(Project(s, id), id, p) == Project(Tabled(s, id, p), id)
    ensures ReplyTo(Project(s, id), id, p) == ReplyTo(s, id, p)
  {
    hide ParsedRoutes, ConfigReply, Echo, OnlyRegistry, OnlyPhase;
  }

  lemma TablesLeaveOthers(s: State, id: ClientId, p: VpnPacket, other: ClientId)
    requires id != other
    ensures Project(Tabled(s, id, p), other) == Project(s, other)
  {
  }

  lemma DispatchCommutes(c: Cipher, s: State, id: ClientId, nonce: Nonce, room: nat)
    requires s.phase.Received? && s.phase.id == id
    ensures Dispatched(c, Project(s, id), id, s.phase.packet, nonce, room)
         == Project(Dispatched(c, s, id, s.phase.packet, nonce, room), id)
    ensures forall other | other != id ::
              Project(Dispatched(c, s, id, s.phase.packet, nonce, room), other) == Project(s, other)
  {
    var p := s.phase.packet;
    if p.packetType == Keepalive {
      RegistryCommutes(s.registry, id, [], s.now);
      forall other | other != id
        ensures Project(Dispatched(c, s, id, p, nonce, room), other) == Project(s, other)
      {
        RegistryLeavesOthers(s.registry, id, other, [], s.now);
      }
    } else {
      var s' := Tabled(s, id, p);
      TablesCommute(s, id, p);
      var reply := ReplyTo(s', id, p);
      TablesCommute(s', id, p);
      if reply.Ok? {
        ReplyCommutes(c, s', id, reply.value, nonce, room, if IsControl(p, Disconnect) then Leaving(id) else Idle);
      }
      forall other | other != id
        ensures Project(Dispatched(c, s, id, p, nonce, room), other) == Project(s, other)
      {
        TablesLeaveOthers(s, id, p, other);
      }
    }
  }

  lemma FinishCommutes(s: State, id: ClientId)
    requires (s.phase.Leaving? || s.phase.Failing?) && s.phase.id == id
    ensures Finished(Project(s, id), id) == Project(Finished(s, id), id)
  {
  }

  lemma FinishLeavesOthers(s: State, id: ClientId, other: ClientId)
    requires (s.phase.Leaving? || s.phase.Failing?) && s.phase.id == id && id != other
    ensures Project(Finished(s, id), other) == Project(s, other)
  {
  }

  /** An event of the client does to its part what it does to the whole. */
  lemma OwnStep(c: Cipher, s: State, e: Event, id: ClientId)
    requires Enabled(s, e) && Concerns(e, id)
    ensures Enabled(Project(s, id), e)
    ensures Step(c, Project(s, id), e) == Project(Step(c, s, e), id)
  {
    match e {
      case Advance(_) =>
      case StaleList => RegistryCommutes(s.registry, id, [], s.now);
      case Accept(_) => RegistryCommutes(s.registry, id, [], s.now);
      case Arrive(_, bytes) => RegistryCommutes(s.registry, id, bytes, s.now);
      case StaleRemove(_) => RegistryCommutes(s.registry, id, [], s.now);
      case PollClient(_, peekOk) => PollCommutes(c, s, id, peekOk);
      case Dispatch(_, nonce, room) => DispatchCommutes(c, s, id, nonce, room);
      case Finish(_) => FinishCommutes(s, id);
    }
  }

  /** An event of another client does nothing to it. */
  lemma OthersStep(c: Cipher, s: State, e: Event, id: ClientId)
    requires Enabled(s, e) && !Concerns(e, id)
    ensures Project(Step(c, s, e), id) == Project(s, id)
  {
    match e {
      case Accept(_) => RegistryLeavesOthers(s.registry, e.id, id, [], s.now);
      case Arrive(_, bytes) => RegistryLeavesOthers(s.registry, e.id, id, bytes, s.now);
      case StaleRemove(_) => RegistryLeavesOthers(s.registry, e.id, id, [], s.now);
      case PollClient(_, peekOk) => PollLeavesOthers(c, s, e.id, id, peekOk);
      case Dispatch(_, nonce, room) => DispatchCommutes(c, s, e.id, nonce, room);
      case Finish(_) => FinishLeavesOthers(s, e.id, id);
    }
  }

  /** Over any run, the part belonging to one client is what its own events alone would produce. */
  lemma {:induction false} NonInterference(c: Cipher, s: State, es: seq<Event>, id: ClientId)
    requires ValidRun(c, s, es)
    ensures ValidRun(c, Project(s, id), Filter(es, id))
    ensures Run(c, Project(s, id), Filter(es, id)) == Project(Run(c, s, es), id)
    decreases es
  {
    if es != [] {
      var s' := Step(c, s, es[0]);
      NonInterference(c, s', es[1..], id);
      if Concerns(es[0], id) {
        OwnStep(c, s, es[0], id);
        RunCons(c, Project(s, id), es[0], Filter(es[1..], id));
      } else {
        OthersStep(c, s, es[0], id);
        assert Filter(es, id) == Filter(es[1..], id);
      }
    }
  }

  lemma OnlyDetermines<V>(a: map<ClientId, V>, b: map<ClientId, V>)
    requires forall id: ClientId :: Only(a, id) == Only(b, id)
    ensures a == b
  {
    forall id | id in a || id in b ensures id in a && id in b && a[id] == b[id] {
      assert id in Only(a, id) || id in Only(b, id);
    }
  }

  lemma ProjectionsDetermine(a: State, b: State)
    requires forall id: ClientId :: Project(a, id) == Project(b, id)
    ensures a == b
  {
    assert Project(a, "") == Project(b, "");
    forall id: ClientId
      ensures Only(a.registry.clients, id) == Only(b.registry.clients, id)
      ensures Only(a.registry.wire, id) == Only(b.registry.wire, id)
      ensures Only(a.routes, id) == Only(b.routes, id) && Only(a.configs, id) == Only(b.configs, id)
      ensures id in a.doomed <==> id in b.doomed
    {
      assert Project(a, id) == Project(b, id);
      assert id in a.doomed <==> id in Project(a, id).doomed;
      assert id in b.doomed <==> id in Project(b, id).doomed;
    }
    OnlyDetermines(a.registry.clients, b.registry.clients);
    OnlyDetermines(a.registry.wire, b.registry.wire);
    OnlyDetermines(a.routes, b.routes);
    OnlyDetermines(a.configs, b.configs);
    var id := if a.phase.Idle? then if b.phase.Idle? then "" else b.phase.id else a.phase.id;
    assert Project(a, id).phase == Project(b, id).phase;
  }

  /** Hence runs that give every client the same events in the same order end in the same state,
      tables, streams and all. */
  lemma OrderOfClientsIrrelevant(c: Cipher, s: State, es: seq<Event>, fs: seq<Event>)
    requires ValidRun(c, s, es) && ValidRun(c, s, fs)
    requires forall id: ClientId :: Filter(es, id) == Filter(fs, id)
    ensures Run(c, s, es) == Run(c, s, fs)
  {
    forall id: ClientId ensures Project(Run(c, s, es), id) == Project(Run(c, s, fs), id) {
      NonInterference(c, s, es, id);
      NonInterference(c, s, fs, id);
    }
    ProjectionsDetermine(Run(c, s, es), Run(c, s, fs));
  }

  // ---- One turn of the main loop

  lemma IterationCommutes(c: Cipher, s: State, id: ClientId, peekOk: bool, nonce: Nonce, room: nat)
    requires s.phase == Idle
    ensures Iterated(c, Project(s, id), id, peekOk, nonce, room) == Project(Iterated(c, s, id, peekOk, nonce, room), id)
  {
    var s1 := AfterPoll(c, s, id, peekOk);
    PhaseAfterPoll(c, s, id, peekOk);
    PollCommutes(c, s, id, peekOk);
    if s1.phase.Received? {
      var s2 := Dispatched(c, s1, id, s1.phase.packet, nonce, room);
      PhaseAfterDispatch(c, s1, id, s1.phase.packet, nonce, room);
      DispatchCommutes(c, s1, id, nonce, room);
      if s2.phase.Leaving? || s2.phase.Failing? {
        FinishCommutes(s2, id);
      }
    } else if s1.phase.Failing? {
      FinishCommutes(s1, id);
    }
  }

  lemma IterationLeavesOthers(c: Cipher, s: State, id: ClientId, other: ClientId, peekOk: bool, nonce: Nonce, room: nat)
    requires s.phase == Idle && id != other
    ensures Project(Iterated(c, s, id, peekOk, nonce, room), other) == Project(s, other)
  {
    var s1 := AfterPoll(c, s, id, peekOk);
    PhaseAfterPoll(c, s, id, peekOk);
    PollLeavesOthers(c, s, id, other, peekOk);
    if s1.phase.Received? {
      var s2 := Dispatched(c, s1, id, s1.phase.packet, nonce, room);
      PhaseAfterDispatch(c, s1, id, s1.phase.packet, nonce, room);
      DispatchCommutes(c, s1, id, nonce, room);
      if s2.phase.Leaving? || s2.phase.Failing? {
        FinishLeavesOthers(s2, id, other);
      }
    } else if s1.phase.Failing? {
      FinishLeavesOthers(s1, id, other);
    }
  }
}
