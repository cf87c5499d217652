/** The worker thread: its handlers and one pass of its main loop, each proved to be the step of the
    state machine it stands for. */
module Worker {
  import opened Outcomes
  import opened Encryption
  import opened Packets
  import opened Handler
  import opened Configuration
  import opened Routes
  import opened Service
  import opened Eviction
  import opened Network
  import opened NonInterference

  /** What the surroundings decide in one turn: whether the peek succeeds, the reply's nonce, and how
      much of the reply the socket takes. */
  datatype Turn = Turn(peekOk: bool, nonce: Nonce, room: nat)

  /** How a handler that ends in `phase` returns. */
  function Returned(phase: Phase): Outcome<()> {
    match phase
    case Failing(_, e) => Err(e)
    case Crashed(_) => Panic
    case _ => Ok(())
  }

  /** An acknowledged disconnect is cleaned up by the handler itself. */
  function Settled(s: State, id: ClientId): State {
    if s.phase.Leaving? then Finished(s, id) else s
  }

  class VpnWorker {
    const server: TcpServer
    const cipher: Cipher
    var routes: map<ClientId, seq<RouteEntry>>
    var clientConfigs: map<ClientId, VpnConfig>

    constructor (server: TcpServer, cipher: Cipher)
      ensures this.server == server && this.cipher == cipher && routes == map[] && clientConfigs == map[]
    {
      this.server, this.cipher := server, cipher;
      routes, clientConfigs := map[], map[];
    }

    /** The worker and its server between two turns. */
    ghost function View(now: nat): State
      reads this, server
    {
      State(now, server.View(), routes, clientConfigs, Idle, {})
    }

    /** Packing and writing, which every reply ends with. */
    method SendReply(id: ClientId, reply: VpnPacket, nonce: Nonce, room: nat, ghost next: Phase, ghost now: nat)
      returns (r: Outcome<()>)
      requires next.Idle? || next.Leaving?
      modifies server
      ensures View(now) == Replied(cipher, old(View(now)), id, reply, nonce, room, next).(phase := Idle)
      ensures r == Returned(Replied(cipher, old(View(now)), id, reply, nonce, room, next).phase)
      ensures r.Ok? <==> Replied(cipher, old(View(now)), id, reply, nonce, room, next).phase == next
    {
      var encrypted :- Pack(cipher, nonce, reply);
      r := server.WritePacket(id, encrypted, room);
    }

    method HandleKeepalive(id: ClientId, now: nat) returns (r: Outcome<()>)
      modifies server
      ensures View(now) == old(View(now)).(registry := Touched(old(server.View()), id, now))
      ensures r == if id in old(server.clients) then Ok(()) else Err(ClientNotFound)
    {
      r := server.UpdateClientTimestamp(id, now);
    }

    method HandleDataPacket(id: ClientId, packet: VpnPacket, nonce: Nonce, room: nat, ghost now: nat)
      returns (r: Outcome<()>)
      modifies server
      ensures View(now) == Replied(cipher, old(View(now)), id, Echo(packet), nonce, room, Idle).(phase := Idle)
      ensures r == Returned(Replied(cipher, old(View(now)), id, Echo(packet), nonce, room, Idle).phase)
    {
      var response := VpnPacket(packet.destIp, packet.sourceIp, Data, packet.controlType, packet.payload);
      r := SendReply(id, response, nonce, room, Idle, now);
    }

    method SendConfig(id: ClientId, nonce: Nonce, room: nat, ghost now: nat) returns (r: Outcome<()>)
      modifies this, server
      ensures clientConfigs
          == if id in old(clientConfigs) then old(clientConfigs) else old(clientConfigs)[id := DefaultConfig()]
      ensures id !in old(clientConfigs) ==>
                clientConfigs[id].mtu == 1500 && clientConfigs[id].keepaliveInterval == Duration(30, 0)
                && clientConfigs[id].reconnectAttempts == 3
      ensures var s := old(View(now)).(configs := clientConfigs);
              && View(now) == Replied(cipher, s, id, ConfigReply(clientConfigs[id]), nonce, room, Idle).(phase := Idle)
              && r == Returned(Replied(cipher, s, id, ConfigReply(clientConfigs[id]), nonce, room, Idle).phase)
    {
      if id !in clientConfigs {
        clientConfigs := clientConfigs[id := VpnConfig(1500, Duration(30, 0), 3)];
      }
      label inserted:
      var configData := SerializeConfig(clientConfigs[id]);
      var configPacket := NewControl(ConfigResponse).(payload := configData);
      assert old@inserted(View(now)) == old(View(now)).(configs := clientConfigs);
      r := SendReply(id, configPacket, nonce, room, Idle, now);
    }

    method UpdateRoutes(id: ClientId, packet: VpnPacket, nonce: Nonce, room: nat, ghost now: nat)
      returns (r: Outcome<()>)
      modifies this, server
      ensures ParsedRoutes(packet.payload).Err? ==>
                View(now) == old(View(now)) && r == Err(ParsedRoutes(packet.payload).error)
      ensures ParsedRoutes(packet.payload).Ok? ==>
                var s := old(View(now)).(routes := old(routes)[id := ParsedRoutes(packet.payload).value]);
                && View(now) == Replied(cipher, s, id, RouteAck(), nonce, room, Idle).(phase := Idle)
                && r == Returned(Replied(cipher, s, id, RouteAck(), nonce, room, Idle).phase)
    {
      var routeUpdates :- ParseRouteUpdates(packet.payload);
      routes := routes[id := routeUpdates];
      var ackPacket := NewControl(RouteUpdate);
      ackPacket := ackPacket.(payload := [1]);
      r := SendReply(id, ackPacket, nonce, room, Idle, now);
    }

    method HandleDisconnect(id: ClientId, nonce: Nonce, room: nat, ghost now: nat) returns (r: Outcome<()>)
      modifies this, server
      ensures var s := Replied(cipher, old(View(now)), id, NewControl(Disconnect), nonce, room, Leaving(id));
              && View(now) == Settled(s, id).(phase := Idle)
              && r == Returned(s.phase)
      ensures r.Ok? ==> id !in server.clients && id !in routes && id !in clientConfigs
      ensures !r.Ok? ==> routes == old(routes) && clientConfigs == old(clientConfigs)
      ensures !r.Ok? ==> server.clients == old(server.clients)
    {
      r := SendReply(id, NewControl(Disconnect), nonce, room, Leaving(id), now);
      if !r.Ok? {
        return;
      }
      server.RemoveClient(id);
      routes := routes - {id};
      clientConfigs := clientConfigs - {id};
    }

    method HandleControlPacket(id: ClientId, packet: VpnPacket, nonce: Nonce, room: nat, ghost now: nat)
      returns (r: Outcome<()>)
      requires packet.packetType == Control
      modifies this, server
      ensures var s := Dispatched(cipher, old(View(now)), id, packet, nonce, room);
              && View(now) == Settled(s, id).(phase := Idle)
              && r == Returned(s.phase)
    {
      hide WholeEntries, ConfigReply, Boxed, AfterWrite, WriteResult;
      match packet.controlType {
        case Some(ConfigRequest) => r := SendConfig(id, nonce, room, now);
        case Some(RouteUpdate) => r := UpdateRoutes(id, packet, nonce, room, now);
        case Some(Disconnect) => r := HandleDisconnect(id, nonce, room, now);
        case _ => r := Err(Protocol);
      }
    }

    /** The packet-type match that ends `HandleClientPacket`. */
    method HandlePacket(id: ClientId, packet: VpnPacket, nonce: Nonce, room: nat, now: nat) returns (r: Outcome<()>)
      modifies this, server
      ensures var s := Dispatched(cipher, old(View(now)), id, packet, nonce, room);
              && View(now) == Settled(s, id).(phase := Idle)
              && r == Returned(s.phase)
    {
      match packet.packetType {
        case Data => r := HandleDataPacket(id, packet, nonce, room, now);
        case Keepalive => r := HandleKeepalive(id, now);
        case Control => r := HandleControlPacket(id, packet, nonce, room, now);
      }
    }

    method HandleClientPacket(id: ClientId, turn: Turn, now: nat) returns (r: Outcome<()>)
      modifies this, server
      ensures var s := Handled(cipher, old(View(now)), id, turn.peekOk, turn.nonce, turn.room);
              && View(now) == s.(phase := Idle)
              && r == Returned(s.phase)
    {
      var encryptedPacket :- server.ServiceReadPacket(id, turn.peekOk, now);
      if |encryptedPacket| < 4 {
        return Ok(());
      }
      var packet :- Unpack(cipher, encryptedPacket);
      ghost var s := AfterPoll(cipher, old(View(now)), id, turn.peekOk);
      assert s == View(now).(phase := Received(id, packet));
      DispatchIgnoresPhase(cipher, s, id, packet, turn.nonce, turn.room);
      r := HandlePacket(id, packet, turn.nonce, turn.room, now);
    }

    /** The main loop's turn for one id of its snapshot. */
    method ServeClient(id: ClientId, turn: Turn, now: nat) returns (crashed: bool)
      modifies this, server
      ensures var s := Iterated(cipher, old(View(now)), id, turn.peekOk, turn.nonce, turn.room);
              && View(now) == s.(phase := Idle)
              && crashed == s.phase.Crashed?
    {
      var r := HandleClientPacket(id, turn, now);
      crashed := r.Panic?;
      if r == Err(ClientNotFound) {
        server.RemoveClient(id);
      } else if r.Err? && IsFatalError(r.error) {
        server.RemoveClient(id);
      }
    }

    /** One pass of the main loop: a snapshot of the ids, then a turn for each. */
    method MainLoopPass(turns: ClientId -> Turn, now: nat) returns (clientIds: seq<ClientId>, crashed: bool)
      modifies this, server
      ensures forall id :: id in clientIds <==> id in old(server.clients)
      ensures forall i, j | 0 <= i < j < |clientIds| :: clientIds[i] != clientIds[j]
      ensures View(now) == Pass(cipher, old(View(now)), clientIds, turns).(phase := Idle)
      ensures crashed == Pass(cipher, old(View(now)), clientIds, turns).phase.Crashed?
    {
      clientIds := server.GetClientIds();
      crashed := false;
      ghost var start := View(now);
      assert clientIds[0..] == clientIds;
      for i := 0 to |clientIds|
        invariant !crashed
        invariant Pass(cipher, start, clientIds, turns) == Pass(cipher, View(now), clientIds[i..], turns)
      {
        assert clientIds[i..][1..] == clientIds[i + 1..];
        ghost var before := View(now);
        crashed := ServeClient(clientIds[i], turns(clientIds[i]), now);
        IterationPhase(cipher, before, clientIds[i], turns(clientIds[i]));
        if crashed {
          return;
        }
      }
    }
  }

  lemma ReplyIgnoresPhase(c: Cipher, s: State, id: ClientId, reply: VpnPacket, nonce: Nonce, room: nat, next: Phase)
    ensures Replied(c, s, id, reply, nonce, room, next) == Replied(c, s.(phase := Idle), id, reply, nonce, room, next)
  {
  }

  lemma DispatchIgnoresPhase(c: Cipher, s: State, id: ClientId, p: VpnPacket, nonce: Nonce, room: nat)
    ensures Dispatched(c, s, id, p, nonce, room) == Dispatched(c, s.(phase := Idle), id, p, nonce, room)
  {
    var s' := Tabled(s, id, p);
    assert Tabled(s.(phase := Idle), id, p) == s'.(phase := Idle);
    var reply := ReplyTo(s', id, p);
    assert ReplyTo(s'.(phase := Idle), id, p) == reply;
    if reply.Ok? {
      ReplyIgnoresPhase(c, s', id, reply.value, nonce, room, if IsControl(p, Disconnect) then Leaving(id) else Idle);
    }
  }

  /** A pass over a snapshot, up to the turn that aborts the thread if one does. */
  function Pass(c: Cipher, s: State, ids: seq<ClientId>, turns: ClientId -> Turn): State
    decreases ids
  {
    if ids == [] || s.phase != Idle then s
    else
      var turn := turns(ids[0]);
      Pass(c, Iterated(c, s, ids[0], turn.peekOk, turn.nonce, turn.room), ids[1..], turns)
  }

  lemma IterationPhase(c: Cipher, s: State, id: ClientId, turn: Turn)
    requires s.phase == Idle
    ensures var s' := Iterated(c, s, id, turn.peekOk, turn.nonce, turn.room);
            && (s'.phase == Idle || s'.phase == Crashed(id))
            && s'.doomed == s.doomed && s'.now == s.now
  {
    hide AfterRead, ReadResult, ReadPhase, Dispatched;
    var s1 := AfterPoll(c, s, id, turn.peekOk);
    PhaseAfterPoll(c, s, id, turn.peekOk);
    if s1.phase.Received? {
      PhaseAfterDispatch(c, s1, id, s1.phase.packet, turn.nonce, turn.room);
    }
  }

  predicate Distinct(ids: seq<ClientId>) {
    forall i, j | 0 <= i < j < |ids| :: ids[i] != ids[j]
  }

  /** What waits for the client is a whole frame that opens to eight or nine bytes. */
  predicate Crashes(c: Cipher, s: State, id: ClientId, turn: Turn) {
    id in s.registry.clients && CrashingInbox(c, s.registry.clients[id].inbox, turn.peekOk)
  }

  predicate NoneCrashes(c: Cipher, s: State, ids: seq<ClientId>, turns: ClientId -> Turn) {
    forall id | id in ids :: !Crashes(c, s, id, turns(id))
  }

  lemma IterationCrashes(c: Cipher, s: State, id: ClientId, turn: Turn)
    requires s.phase == Idle
    ensures Iterated(c, s, id, turn.peekOk, turn.nonce, turn.room).phase ==
            if Crashes(c, s, id, turn) then Crashed(id) else Idle
  {
    hide CrashingInbox;
    if id in s.registry.clients {
      EvictionLaw(c, s, id, turn.peekOk, turn.nonce, turn.room);
    }
  }

  /** A pass comes to its end if and only if no client it lists has sent such a frame, and then does to
      each of them one turn on its own part, and nothing to the rest. */
  lemma {:induction false} PassServesEachAlone(c: Cipher, s: State, ids: seq<ClientId>, turns: ClientId -> Turn,
          id: ClientId)
    requires s.phase == Idle && Distinct(ids)
    ensures Pass(c, s, ids, turns).phase == Idle <==> NoneCrashes(c, s, ids, turns)
    ensures NoneCrashes(c, s, ids, turns) ==>
              Project(Pass(c, s, ids, turns), id) == if id in ids then Alone(c, s, id, turns) else Project(s, id)
    decreases ids
  {
    hide CrashingInbox, Iterated;
    if ids != [] {
      var first, turn := ids[0], turns(ids[0]);
      var s' := Iterated(c, s, first, turn.peekOk, turn.nonce, turn.room);
      IterationCrashes(c, s, first, turn);
      if Crashes(c, s, first, turn) {
        assert ids[0] in ids;
      } else {
        IterationCommutes(c, s, first, turn.peekOk, turn.nonce, turn.room);
        forall i | i != first ensures Project(s', i) == Project(s, i) {
          IterationLeavesOthers(c, s, first, i, turn.peekOk, turn.nonce, turn.room);
        }
        forall i | i in ids[1..] ensures i != first && Crashes(c, s', i, turns(i)) == Crashes(c, s, i, turns(i)) {
          assert Project(s', i) == Project(s, i);
          OwnClient(s, i);
          OwnClient(s', i);
        }
        assert NoneCrashes(c, s, ids, turns) <==> NoneCrashes(c, s', ids[1..], turns) by {
          assert forall i :: i in ids <==> i == first || i in ids[1..];
        }
        PassServesEachAlone(c, s', ids[1..], turns, id);
      }
    }
  }

  lemma OwnClient(s: State, id: ClientId)
    ensures id in s.registry.clients <==> id in Project(s, id).registry.clients
    ensures id in s.registry.clients ==> Project(s, id).registry.clients[id] == s.registry.clients[id]
  {
  }

  function Alone(c: Cipher, s: State, id: ClientId, turns: ClientId -> Turn): State {
    Iterated(c, Project(s, id), id, turns(id).peekOk, turns(id).nonce, turns(id).room)
  }

  /** The order in which the snapshot lists the clients does not matter, unless the worker aborts on
      the way. */
  lemma SnapshotOrderIrrelevant(c: Cipher, s: State, ids: seq<ClientId>, ids': seq<ClientId>, turns: ClientId -> Turn)
    requires s.phase == Idle && Distinct(ids) && Distinct(ids') && (forall id :: id in ids <==> id in ids')
    requires NoneCrashes(c, s, ids, turns)
    ensures Pass(c, s, ids, turns) == Pass(c, s, ids', turns)
  {
    forall id: ClientId ensures Project(Pass(c, s, ids, turns), id) == Project(Pass(c, s, ids', turns), id) {
      PassServesEachAlone(c, s, ids, turns, id);
      PassServesEachAlone(c, s, ids', turns, id);
    }
    ProjectionsDetermine(Pass(c, s, ids, turns), Pass(c, s, ids', turns));
  }

  /** A pass is a run of the state machine, so what holds in every reachable state holds after it. */
  lemma {:induction false} PassIsRun(c: Cipher, s: State, ids: seq<ClientId>, turns: ClientId -> Turn)
    returns (es: seq<Event>)
    requires s.phase == Idle && s.doomed == {}
    ensures ValidRun(c, s, es) && Run(c, s, es) == Pass(c, s, ids, turns)
    decreases ids
  {
    es := [];
    if ids != [] {
      var turn := turns(ids[0]);
      var s' := Iterated(c, s, ids[0], turn.peekOk, turn.nonce, turn.room);
      es := IterationIsRun(c, s, ids[0], turn.peekOk, turn.nonce, turn.room);
      IterationPhase(c, s, ids[0], turn);
      if s'.phase == Idle {
        var rest := PassIsRun(c, s', ids[1..], turns);
        RunConcatenates(c, s, es, rest);
        es := es + rest;
      }
    }
  }
}
