/** The connection manager, a second server loop with its own registry. Unlike the worker it removes
    a client from both registries at once, and so keeps them consistent. */
module Connections {
  import opened Bytes
  import opened Outcomes
  import opened Encryption
  import opened Packets
  import opened Handler
  import opened Configuration
  import opened Routes
  import opened Framing
  import opened Service
  import opened Network
  import Session

  datatype ConnectionInfo = ConnectionInfo(
    lastSeen: nat,
    bytesSent: nat,
    bytesReceived: nat,
    packetsSent: nat,
    packetsReceived: nat)

  datatype ManagerState = ManagerState(
    now: nat,
    registry: Registry,
    connections: map<ClientId, ConnectionInfo>)

  datatype Served = Served(result: Outcome<()>, after: ManagerState)

  // ---- The steps

  function Updated(info: ConnectionInfo, bytesSent: nat, bytesReceived: nat, now: nat): ConnectionInfo {
    ConnectionInfo(now, info.bytesSent + bytesSent, info.bytesReceived + bytesReceived,
                   info.packetsSent + 1, info.packetsReceived + 1)
  }

  /** The first packet of a client only opens its entry; later ones count. */
  function WithStats(s: ManagerState, id: ClientId, bytesSent: nat, bytesReceived: nat): ManagerState {
    s.(connections := s.connections[id :=
         if id in s.connections then Updated(s.connections[id], bytesSent, bytesReceived, s.now)
         else ConnectionInfo(s.now, 0, 0, 0, 0)])
  }

  function Dropped(s: ManagerState, id: ClientId): ManagerState {
    s.(registry := Removed(s.registry, id), connections := s.connections - {id})
  }

  /** Packing and writing. */
  function Sent(c: Cipher, s: ManagerState, id: ClientId, reply: VpnPacket, nonce: Nonce, room: nat): Served {
    match Boxed(c, nonce, reply)
    case Ok(box) =>
      Served(WriteResult(s.registry, id, box, room), s.(registry := AfterWrite(s.registry, id, box, room)))
    case Err(e) => Served(Err(e), s)
    case Panic => Served(Panic, s)
  }

  function PlainEcho(p: VpnPacket): VpnPacket {
    VpnPacket(p.destIp, p.sourceIp, Data, None, p.payload)
  }

  function DataServed(c: Cipher, s: ManagerState, id: ClientId, p: VpnPacket, nonce: Nonce, room: nat): Served {
    var sent := Sent(c, s, id, PlainEcho(p), nonce, room);
    if sent.result.Ok?
    then Served(Ok(()), WithStats(sent.after, id, 0, |Boxed(c, nonce, PlainEcho(p)).value|))
    else sent
  }

  function KeepaliveServed(s: ManagerState, id: ClientId): Served {
    Served(Ok(()), if id in s.connections
                   then s.(connections := s.connections[id := s.connections[id].(lastSeen := s.now)]) else s)
  }

  function DisconnectServed(c: Cipher, s: ManagerState, id: ClientId, nonce: Nonce, room: nat): Served {
    var sent := Sent(c, s, id, NewControl(Disconnect), nonce, room);
    if sent.result.Ok? then Served(Ok(()), Dropped(sent.after, id)) else sent
  }

  function PacketServed(c: Cipher, s: ManagerState, id: ClientId, p: VpnPacket, nonce: Nonce, room: nat): Served {
    match p.packetType
    case Data => DataServed(c, s, id, p, nonce, room)
    case Keepalive => KeepaliveServed(s, id)
    case Control =>
      match p.controlType
      case Some(ConfigRequest) => Sent(c, s, id, ConfigReply(DefaultConfig()), nonce, room)
      case Some(RouteUpdate) => Sent(c, s, id, RouteAck(), nonce, room)
      case Some(Disconnect) => DisconnectServed(c, s, id, nonce, room)
      case _ => Served(Err(Protocol), s)
  }

  /** Reading, unpacking, counting and answering one packet. Silence reads as an empty packet, which
      fails to decrypt without costing the client anything. */
  function ClientServed(c: Cipher, s: ManagerState, id: ClientId, peekOk: bool, nonce: Nonce, room: nat): Served {
    var s1 := s.(registry := AfterRead(s.registry, id, peekOk, s.now));
    match ReadResult(s.registry, id, peekOk)
    case Err(e) => Served(Err(e), s1)
    case Panic => Served(Panic, s1)
    case Ok(body) =>
      match Unboxed(c, body)
      case Err(e) => Served(Err(e), s1)
      case Panic => Served(Panic, s1)
      case Ok(p) => PacketServed(c, WithStats(s1, id, |body|, 0), id, p, nonce, room)
  }

  function AfterServe(c: Cipher, s: ManagerState, id: ClientId, peekOk: bool, nonce: Nonce, room: nat): ManagerState {
    var served := ClientServed(c, s, id, peekOk, nonce, room);
    if served.result.Err? && IsFatalError(served.result.error) then Dropped(served.after, id) else served.after
  }

  predicate Active(info: ConnectionInfo, now: nat) {
    now - info.lastSeen < STALE_AFTER
  }

  function Inactive(s: ManagerState): set<ClientId> {
    set id | id in s.connections && !Active(s.connections[id], s.now)
  }

  function Cleaned(s: ManagerState): ManagerState {
    s.(registry := s.registry.(clients := s.registry.clients - Inactive(s)),
       connections := s.connections - Inactive(s))
  }

  // ---- Runs

  datatype ManagerEvent =
    | Passing(elapsed: nat)
    | Accepting(id: ClientId)
    | Arriving(id: ClientId, bytes: seq<byte>)
    | Serving(id: ClientId, peekOk: bool, nonce: Nonce, room: nat)
    | Cleanup

  function ManagerStep(c: Cipher, s: ManagerState, e: ManagerEvent): ManagerState {
    match e
    case Passing(elapsed) => s.(now := s.now + elapsed)
    case Accepting(id) => s.(registry := Accepted(s.registry, id, s.now))
    case Arriving(id, bytes) => s.(registry := Arrived(s.registry, id, bytes))
    case Serving(id, peekOk, nonce, room) => AfterServe(c, s, id, peekOk, nonce, room)
    case Cleanup => Cleaned(s)
  }

  function ManagerRun(c: Cipher, s: ManagerState, es: seq<ManagerEvent>): ManagerState
    decreases es
  {
    if es == [] then s else ManagerRun(c, ManagerStep(c, s, es[0]), es[1..])
  }

  /** Every connection with statistics is registered with the server. */
  predicate Consistent(s: ManagerState) {
    s.connections.Keys <= s.registry.clients.Keys
  }

  lemma PacketKeepsConsistent(c: Cipher, s: ManagerState, id: ClientId, p: VpnPacket, nonce: Nonce, room: nat)
    requires Consistent(s) && id in s.registry.clients
    ensures Consistent(PacketServed(c, s, id, p, nonce, room).after)
  {
    hide Boxed, Frame, WriteResult, Updated;
  }

  lemma ServeKeepsConsistent(c: Cipher, s: ManagerState, id: ClientId, peekOk: bool, nonce: Nonce, room: nat)
    requires Consistent(s)
    ensures Consistent(AfterServe(c, s, id, peekOk, nonce, room))
  {
    hide Unboxed, PacketServed, Poll, Unread, PollResult, Updated;
    var read := ReadResult(s.registry, id, peekOk);
    if read.Ok? && Unboxed(c, read.value).Ok? {
      var s1 := WithStats(s.(registry := AfterRead(s.registry, id, peekOk, s.now)), id, |read.value|, 0);
      assert Consistent(s1) && id in s1.registry.clients;
      PacketKeepsConsistent(c, s1, id, Unboxed(c, read.value).value, nonce, room);
    }
  }

  /** With accepting, serving one packet and cleaning up as atomic steps, the two registries agree in
      every reachable state. */
  lemma {:induction false} RunKeepsConsistent(c: Cipher, s: ManagerState, es: seq<ManagerEvent>)
    requires Consistent(s)
    ensures Consistent(ManagerRun(c, s, es))
    decreases es
  {
    if es != [] {
      if es[0].Serving? {
        ServeKeepsConsistent(c, s, es[0].id, es[0].peekOk, es[0].nonce, es[0].room);
      }
      RunKeepsConsistent(c, ManagerStep(c, s, es[0]), es[1..]);
    }
  }

  /** Atomicity matters: a cleanup between reading a packet and counting it leaves the registries
      consistent exactly if it did not remove that client. */
  lemma CleanupWhileServing(s: ManagerState, id: ClientId, bytesSent: nat)
    requires Consistent(s) && id in s.registry.clients
    ensures Consistent(WithStats(Cleaned(s), id, bytesSent, 0)) <==>
            id in s.connections ==> s.now - s.connections[id].lastSeen < 90_000_000_000
  {
  }

  // ---- What the manager answers, drops and counts

  /** The answer a packet gets from the manager: the worker's, except that a ragged route update is
      acknowledged too. */
  function ManagerAnswer(p: VpnPacket): Option<VpnPacket> {
    if IsControl(p, RouteUpdate)
    then Some(VpnPacket([0, 0, 0, 0], [0, 0, 0, 0], Control, Some(RouteUpdate), [1]))
    else Session.AnswerTo(p)
  }

  /** What a registered client is sent: the frame of a box that opens to the answer, as far as the
      socket takes it, or nothing. */
  predicate WritesAnswer(c: Cipher, g: Registry, g': Registry, id: ClientId, answer: Option<VpnPacket>, room: nat,
                         box: seq<byte>) {
    if answer.None? then g'.wire == g.wire
    else
      && Unboxed(c, box) == Ok(answer.value)
      && g'.wire == g.wire[id := WireOf(g, id) + if room < |Frame(box)| then Frame(box)[..room] else Frame(box)]
  }

  lemma SentWrites(c: Cipher, s: ManagerState, id: ClientId, reply: VpnPacket, nonce: Nonce, room: nat)
    requires id in s.registry.clients && Normal(reply) == reply && |reply.payload| + BOX_OVERHEAD < TWO_TO_THE_32
    ensures Boxed(c, nonce, reply).Ok?
    ensures var sent, box := Sent(c, s, id, reply, nonce, room), Boxed(c, nonce, reply).value;
            && WritesAnswer(c, s.registry, sent.after.registry, id, Some(reply), room, box)
            && sent.after.connections == s.connections && sent.after.registry.clients == s.registry.clients
            && sent.after.now == s.now
            && sent.result == (if room < |Frame(box)| then Err(Io) else Ok(()))
            && |box| == |reply.payload| + BOX_OVERHEAD
  {
    hide Frame, Unboxed;
    SmallPacketsPack(c, nonce, reply);
    BoxRoundTrip(c, nonce, reply);
    var box := Boxed(c, nonce, reply).value;
    assert Frame(box)[..|Frame(box)|] == Frame(box);
  }

  /** A Data packet whose echo is written is counted once more. */
  function Counted(info: ConnectionInfo, p: VpnPacket, room: nat, box: seq<byte>): ConnectionInfo {
    if p.packetType == Data && room >= 4 + |box|
    then info.(bytesReceived := info.bytesReceived + |box|, packetsSent := info.packetsSent + 1,
               packetsReceived := info.packetsReceived + 1)
    else info
  }

  /** The client is dropped: it asked for it and was told so, or its packet deserves no answer. */
  predicate Drops(p: VpnPacket, room: nat) {
    || (IsControl(p, Disconnect) && room >= 42)
    || (p.packetType != Keepalive && ManagerAnswer(p).None?)
  }

  lemma PacketEffect(c: Cipher, s: ManagerState, id: ClientId, p: VpnPacket, nonce: Nonce, room: nat)
    returns (box: seq<byte>)
    requires Normal(p) == p && |p.payload| + BOX_OVERHEAD < TWO_TO_THE_32
    requires id in s.registry.clients && id in s.connections && s.connections[id].lastSeen == s.now
    ensures var served := PacketServed(c, s, id, p, nonce, room);
            var s' := if served.result == Err(Protocol) then Dropped(served.after, id) else served.after;
            && WritesAnswer(c, s.registry, s'.registry, id, ManagerAnswer(p), room, box)
            && (served.result.Err? ==> served.result == Err(Protocol) || served.result == Err(Io))
            && !served.result.Panic?
            && s'.registry.clients == (if Drops(p, room) then s.registry.clients - {id} else s.registry.clients)
            && s'.connections == if Drops(p, room) then s.connections - {id}
                                 else s.connections[id := Counted(s.connections[id], p, room, box)]
  {
    hide Unboxed, Frame, Boxed, Sent, ConfigBytes, WholeEntries;
    box := [];
    DefaultBytes();
    if ManagerAnswer(p).Some? {
      var reply := ManagerAnswer(p).value;
      SentWrites(c, s, id, reply, nonce, room);
      box := Boxed(c, nonce, reply).value;
    }
  }

  /** One packet served: what is answered, who is dropped, and what is counted; the first packet of a
      client opens an entry of zeros instead of being counted. */
  lemma ServeAnswers(c: Cipher, s: ManagerState, id: ClientId, body: seq<byte>, p: VpnPacket, nonce: Nonce, room: nat)
    returns (box: seq<byte>)
    requires id in s.registry.clients && Poll(s.registry.clients[id].inbox, true) == Whole(body)
    requires Unboxed(c, body) == Ok(p)
    ensures var s' := AfterServe(c, s, id, true, nonce, room);
            && WritesAnswer(c, s.registry, s'.registry, id, ManagerAnswer(p), room, box)
            && (id in s'.registry.clients <==> !Drops(p, room)) && (id in s'.connections <==> !Drops(p, room))
            && (!Drops(p, room) ==>
                  s'.connections[id] ==
                  Counted(if id !in s.connections then ConnectionInfo(s.now, 0, 0, 0, 0)
                          else
                            var info := s.connections[id];
                            ConnectionInfo(s.now, info.bytesSent + |body|, info.bytesReceived, info.packetsSent + 1,
                                           info.packetsReceived + 1),
                          p, room, box))
  {
    hide Unboxed, Frame, PacketServed, Drops, ManagerAnswer, WritesAnswer;
    UnboxedReboxes(c, body);
    var s1 := WithStats(s.(registry := AfterRead(s.registry, id, true, s.now)), id, |body|, 0);
    box := PacketEffect(c, s1, id, p, nonce, room);
    SameWire(c, s.registry, s1.registry, AfterServe(c, s, id, true, nonce, room).registry, id, ManagerAnswer(p),
             room, box);
  }

  lemma SameWire(c: Cipher, g: Registry, g1: Registry, g': Registry, id: ClientId, answer: Option<VpnPacket>,
                 room: nat, box: seq<byte>)
    requires g1.wire == g.wire && WritesAnswer(c, g1, g', id, answer, room, box)
    ensures WritesAnswer(c, g, g', id, answer, room, box)
  {
  }

  /** A turn that finds no packet writes and counts nothing. It drops the client exactly if it is not
      registered, announces too much, or sent something of an unknown type. */
  lemma ServeWithoutPacket(c: Cipher, s: ManagerState, id: ClientId, peekOk: bool, nonce: Nonce, room: nat)
    requires var read := ReadResult(s.registry, id, peekOk); read.Ok? ==> !Unboxed(c, read.value).Ok?
    ensures var s' := AfterServe(c, s, id, peekOk, nonce, room);
            var read := ReadResult(s.registry, id, peekOk);
            && s'.registry.wire == s.registry.wire
            && if || id !in s.registry.clients
                  || (peekOk && |s.registry.clients[id].inbox| >= 4 && Announced(s.registry.clients[id].inbox) > 65535)
                  || (read.Ok? && Opened(c, read.value).Ok? && |Opened(c, read.value).value| >= 10)
               then id !in s'.registry.clients && s'.connections == s.connections - {id}
               else id in s'.registry.clients && s'.connections == s.connections
  {
  }

  lemma ManagerRunCons(c: Cipher, s: ManagerState, e: ManagerEvent, rest: seq<ManagerEvent>)
    ensures ManagerRun(c, s, [e] + rest) == ManagerRun(c, ManagerStep(c, s, e), rest)
  {
  }

  /** The first keepalive of a client opens its entry. */
  lemma KeepaliveOpensEntry(c: Cipher, s: ManagerState, id: ClientId, nonce: Nonce, room: nat, body: seq<byte>)
    requires id in s.registry.clients && s.registry.clients[id].inbox == Frame(body) && id !in s.connections
    requires |body| <= MAX_BODY && Unboxed(c, body) == Ok(NewKeepalive())
    ensures ReadResult(s.registry, id, true) == Ok(body)
    ensures ManagerStep(c, s, Serving(id, true, nonce, room)) ==
            ManagerState(s.now, Registry(s.registry.clients[id := ClientInfo([], s.now)], s.registry.wire),
                         s.connections[id := ConnectionInfo(s.now, 0, 0, 0, 0)])
  {
    hide Frame, Unboxed;
    assert Frame(body) + [] == Frame(body);
    HeadPoll(Frame(body), [], body, []);
  }

  /** The broken case is reached: an idle client sends a packet, and a cleanup comes between the read
      and the count. */
  lemma CleanupBreaksReachable(c: Cipher, nonce: Nonce, id: ClientId) returns (es: seq<ManagerEvent>, body: seq<byte>)
    ensures var s := ManagerRun(c, ManagerState(0, Registry(map[], map[]), map[]), es);
            var afterRead := s.(registry := AfterRead(s.registry, id, true, s.now));
            && id in s.registry.clients && ReadResult(s.registry, id, true) == Ok(body) && Unboxed(c, body).Ok?
            && Consistent(WithStats(afterRead, id, |body|, 0))
            && !Consistent(WithStats(Cleaned(afterRead), id, |body|, 0))
  {
    hide Frame, Unboxed, Poll, Unread, AfterServe;
    SmallPacketsPack(c, nonce, NewKeepalive());
    BoxRoundTrip(c, nonce, NewKeepalive());
    body := Boxed(c, nonce, NewKeepalive()).value;
    var frame := Frame(body);
    assert [] + frame == frame && frame + [] == frame;
    HeadPoll(frame, [], body, []);
    var arriving, serving, passing := Arriving(id, frame), Serving(id, true, nonce, 0), Passing(STALE_AFTER);
    var s0 := ManagerState(0, Registry(map[], map[]), map[]);
    var s1 := ManagerStep(c, s0, Accepting(id));
    var s2 := ManagerStep(c, s1, arriving);
    KeepaliveOpensEntry(c, s2, id, nonce, 0, body);
    var s3 := ManagerStep(c, s2, serving);
    var s4 := ManagerStep(c, s3, passing);
    var s5 := ManagerStep(c, s4, arriving);
    ManagerRunCons(c, s4, arriving, []);
    ManagerRunCons(c, s3, passing, [arriving] + []);
    ManagerRunCons(c, s2, serving, [passing] + ([arriving] + []));
    ManagerRunCons(c, s1, arriving, [serving] + ([passing] + ([arriving] + [])));
    ManagerRunCons(c, s0, Accepting(id), [arriving] + ([serving] + ([passing] + ([arriving] + []))));
    es := [Accepting(id)] + ([arriving] + ([serving] + ([passing] + ([arriving] + []))));
    assert ManagerRun(c, s0, es) == s5;
    assert s5.registry.clients[id].inbox == frame && !Active(s5.connections[id], s5.now);
  }

  // ---- The class

  class ConnectionManager {
    const server: TcpServer
    const cipher: Cipher
    var connections: map<ClientId, ConnectionInfo>

    constructor (server: TcpServer, cipher: Cipher)
      ensures this.server == server && this.cipher == cipher && connections == map[]
    {
      this.server, this.cipher, connections := server, cipher, map[];
    }

    ghost function View(now: nat): ManagerState
      reads this, server
    {
      ManagerState(now, server.View(), connections)
    }

    method UpdateConnectionStats(id: ClientId, bytesSent: nat, bytesReceived: nat, now: nat)
      modifies this
      ensures View(now) == WithStats(old(View(now)), id, bytesSent, bytesReceived)
      ensures id in connections && connections[id].lastSeen == now
      ensures id !in old(connections) ==> connections[id] == ConnectionInfo(now, 0, 0, 0, 0)
      ensures id in old(connections) ==>
                && connections[id].bytesSent == old(connections)[id].bytesSent + bytesSent
                && connections[id].bytesReceived == old(connections)[id].bytesReceived + bytesReceived
                && connections[id].packetsSent == old(connections)[id].packetsSent + 1
                && connections[id].packetsReceived == old(connections)[id].packetsReceived + 1
    {
      if id in connections {
        var info := connections[id];
        info := info.(lastSeen := now);
        info := info.(bytesSent := info.bytesSent + bytesSent, bytesReceived := info.bytesReceived + bytesReceived);
        info := info.(packetsSent := info.packetsSent + 1, packetsReceived := info.packetsReceived + 1);
        connections := connections[id := info];
      } else {
        connections := connections[id := ConnectionInfo(now, 0, 0, 0, 0)];
      }
    }

    method RemoveConnection(id: ClientId, ghost now: nat)
      modifies this, server
      ensures View(now) == Dropped(old(View(now)), id)
    {
      connections := connections - {id};
      server.RemoveClient(id);
    }

    method SendReply(id: ClientId, reply: VpnPacket, nonce: Nonce, room: nat, ghost now: nat) returns (r: Outcome<nat>)
      modifies server
      ensures var sent := Sent(cipher, old(View(now)), id, reply, nonce, room);
              && View(now) == sent.after
              && (r.Ok? <==> sent.result.Ok?)
              && (r.Ok? ==> Boxed(cipher, nonce, reply).Ok? && r.value == |Boxed(cipher, nonce, reply).value|)
              && (!r.Ok? ==> r.PropagateFailure<()>() == sent.result)
    {
      var encrypted :- Pack(cipher, nonce, reply);
      var _ :- server.WritePacket(id, encrypted, room);
      r := Ok(|encrypted|);
    }

    method HandleDataPacket(id: ClientId, packet: VpnPacket, nonce: Nonce, room: nat, now: nat) returns (r: Outcome<()>)
      modifies this, server
      ensures Served(r, View(now)) == DataServed(cipher, old(View(now)), id, packet, nonce, room)
    {
      var response := VpnPacket(packet.destIp, packet.sourceIp, Data, None, packet.payload);
      var length :- SendReply(id, response, nonce, room, now);
      UpdateConnectionStats(id, 0, length, now);
      r := Ok(());
    }

    method HandleKeepalive(id: ClientId, now: nat) returns (r: Outcome<()>)
      modifies this
      ensures Served(r, View(now)) == KeepaliveServed(old(View(now)), id)
    {
      if id in connections {
        connections := connections[id := connections[id].(lastSeen := now)];
      }
      r := Ok(());
    }

    method UpdateRoutes(id: ClientId, packet: VpnPacket, nonce: Nonce, room: nat, ghost now: nat)
      returns (r: Outcome<()>, routes: seq<RouteEntry>)
      modifies server
      ensures Served(r, View(now)) == Sent(cipher, old(View(now)), id, RouteAck(), nonce, room)
      ensures routes == WholeEntries(packet.payload[..|packet.payload| - |packet.payload| % ENTRY_LENGTH])
    {
      routes := ParseWholeRoutes(packet.payload);
      var sent := SendReply(id, VpnPacket(NO_IP, NO_IP, Control, Some(RouteUpdate), [1]), nonce, room, now);
      r := if sent.Ok? then Ok(()) else sent.PropagateFailure();
    }

    method HandleDisconnect(id: ClientId, nonce: Nonce, room: nat, ghost now: nat) returns (r: Outcome<()>)
      modifies this, server
      ensures Served(r, View(now)) == DisconnectServed(cipher, old(View(now)), id, nonce, room)
    {
      var _ :- SendReply(id, NewControl(Disconnect), nonce, room, now);
      RemoveConnection(id, now);
      r := Ok(());
    }

    method SendConfig(id: ClientId, nonce: Nonce, room: nat, ghost now: nat) returns (r: Outcome<()>)
      modifies server
      ensures Served(r, View(now)) == Sent(cipher, old(View(now)), id, ConfigReply(DefaultConfig()), nonce, room)
    {
      var configData := SerializeConfig(VpnConfig(1500, Duration(30, 0), 3));
      var configPacket := VpnPacket(NO_IP, NO_IP, Control, Some(ConfigResponse), configData);
      var _ :- SendReply(id, configPacket, nonce, room, now);
      r := Ok(());
    }

    /** The packet-type match, control types included. */
    method HandlePacket(id: ClientId, packet: VpnPacket, nonce: Nonce, room: nat, now: nat) returns (r: Outcome<()>)
      modifies this, server
      ensures Served(r, View(now)) == PacketServed(cipher, old(View(now)), id, packet, nonce, room)
    {
      match packet.packetType {
        case Data => r := HandleDataPacket(id, packet, nonce, room, now);
        case Keepalive => r := HandleKeepalive(id, now);
        case Control =>
          match packet.controlType {
            case Some(ConfigRequest) => r := SendConfig(id, nonce, room, now);
            case Some(RouteUpdate) =>
              var routes;
              r, routes := UpdateRoutes(id, packet, nonce, room, now);
            case Some(Disconnect) => r := HandleDisconnect(id, nonce, room, now);
            case _ => r := Err(Protocol);
          }
      }
    }

    method HandleClientPackets(id: ClientId, peekOk: bool, nonce: Nonce, room: nat, now: nat) returns (r: Outcome<()>)
      modifies this, server
      ensures Served(r, View(now)) == ClientServed(cipher, old(View(now)), id, peekOk, nonce, room)
    {
      var encryptedPacket :- server.ServiceReadPacket(id, peekOk, now);
      var packet :- Unpack(cipher, encryptedPacket);
      UpdateConnectionStats(id, |encryptedPacket|, 0, now);
      r := HandlePacket(id, packet, nonce, room, now);
    }

    /** The loop's turn for one client. */
    method ServeClient(id: ClientId, peekOk: bool, nonce: Nonce, room: nat, now: nat) returns (crashed: bool)
      modifies this, server
      ensures View(now) == AfterServe(cipher, old(View(now)), id, peekOk, nonce, room)
      ensures Consistent(old(View(now))) ==> Consistent(View(now))
    {
      if Consistent(View(now)) {
        ServeKeepsConsistent(cipher, View(now), id, peekOk, nonce, room);
      }
      var r := HandleClientPackets(id, peekOk, nonce, room, now);
      crashed := r.Panic?;
      if r == Err(ClientNotFound) {
        RemoveConnection(id, now);
      } else if r.Err? && IsFatalError(r.error) {
        RemoveConnection(id, now);
      }
    }

    method CleanupStaleConnections(now: nat)
      modifies this, server
      ensures View(now) == Cleaned(old(View(now)))
      ensures forall id | id in old(connections) ::
                id in connections <==> now - old(connections)[id].lastSeen < 90_000_000_000
      ensures forall id | id in old(server.clients) ::
                id in server.clients <==>
                id in old(connections) ==> now - old(connections)[id].lastSeen < 90_000_000_000
    {
      var ids := Listing(connections.Keys);
      ghost var start := View(now);
      assert ids[..0] == [];
      for i := 0 to |ids|
        invariant View(now) == Without(start, Gone(start, ids[..i]))
      {
        assert ids[..i + 1] == ids[..i] + [ids[i]] && ids[i] !in ids[..i];
        RetainStep(start, ids[..i], ids[i]);
        RetainIfActive(ids[i], now);
      }
      assert ids[..|ids|] == ids;
      assert Gone(start, ids) == Inactive(start);
    }

    /** The closure that decides about one entry. */
    method RetainIfActive(id: ClientId, now: nat)
      requires id in connections
      modifies this, server
      ensures View(now) == Retained(old(View(now)), id)
    {
      var isActive := now - connections[id].lastSeen < STALE_AFTER;
      if !isActive {
        server.RemoveClient(id);
        connections := connections - {id};
      }
    }

    /** Dropping the manager visits the server's ids only; that empties both registries exactly if
        every connection is among them. */
    method Drop(ghost now: nat)
      modifies this, server
      ensures server.clients == map[] && server.wire == old(server.wire)
      ensures connections == old(connections) - old(server.clients.Keys)
      ensures connections == map[] <==> Consistent(old(View(now)))
    {
      var clientIds := server.GetClientIds();
      ghost var start := View(now);
      assert clientIds[..0] == [];
      for i := 0 to |clientIds|
        invariant View(now) == Without(start, Visited(clientIds[..i]))
      {
        assert clientIds[..i + 1] == clientIds[..i] + [clientIds[i]];
        DropStep(start, clientIds[..i], clientIds[i]);
        RemoveConnection(clientIds[i], now);
      }
      assert clientIds[..|clientIds|] == clientIds;
      assert Visited(clientIds) == old(server.clients.Keys);
      assert forall id :: id in connections <==> id in old(connections) && id !in old(server.clients);
      assert connections == map[] <==> forall id :: id !in connections;
    }
  }

  ghost function Visited(ids: seq<ClientId>): set<ClientId> {
    set id | id in ids
  }

  lemma DropStep(s: ManagerState, visited: seq<ClientId>, id: ClientId)
    ensures Dropped(Without(s, Visited(visited)), id) == Without(s, Visited(visited + [id]))
  {
  }

  ghost function Gone(s: ManagerState, visited: seq<ClientId>): set<ClientId> {
    set id | id in Inactive(s) && id in visited
  }

  ghost function Retained(s: ManagerState, id: ClientId): ManagerState
    requires id in s.connections
  {
    if Active(s.connections[id], s.now) then s else Dropped(s, id)
  }

  lemma RetainStep(s: ManagerState, visited: seq<ClientId>, id: ClientId)
    requires id in s.connections && id !in visited
    ensures id in Without(s, Gone(s, visited)).connections
    ensures Retained(Without(s, Gone(s, visited)), id) == Without(s, Gone(s, visited + [id]))
  {
  }

  ghost function Without(s: ManagerState, ids: set<ClientId>): ManagerState {
    s.(registry := s.registry.(clients := s.registry.clients - ids), connections := s.connections - ids)
  }
}
