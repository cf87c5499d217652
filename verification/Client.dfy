/** The VPN client: handshake, requests, keepalives and the one-way door of disconnecting. */
module Client {
  import opened Bytes
  import opened Outcomes
  import opened Encryption
  import opened Packets
  import opened Handler
  import opened Configuration
  import opened Framing

  /** `outgoing` is what the network took, `incoming` what it brought and was not read yet.
      `keepalive` tells whether the client holds a keepalive thread to join. */
  datatype ClientState = ClientState(
    connected: bool,
    config: VpnConfig,
    keepalive: bool,
    outgoing: seq<byte>,
    incoming: seq<byte>)

  datatype Called<+T> = Called(result: Outcome<T>, after: ClientState)

  function SentPart(body: seq<byte>, room: nat): seq<byte> {
    if room < |Frame(body)| then Frame(body)[..room] else Frame(body)
  }

  /** Packing and writing; `room` is how many bytes the socket takes before it fails. */
  function WriteCall(c: Cipher, s: ClientState, p: VpnPacket, nonce: Nonce, room: nat): Called<()> {
    match Boxed(c, nonce, p)
    case Ok(box) =>
      Called(if room < |Frame(box)| then Err(Io) else Ok(()), s.(outgoing := s.outgoing + SentPart(box, room)))
    case Err(e) => Called(Err(e), s)
    case Panic => Called(Panic, s)
  }

  /** Writing a request, then reading from what is there and what arrives before the timeout. */
  function ExchangeCall(c: Cipher, s: ClientState, p: VpnPacket, nonce: Nonce, room: nat,
          arriving: seq<byte>): Called<VpnPacket> {
    var written := WriteCall(c, s, p, nonce, room);
    if !written.result.Ok? then Called(written.result.PropagateFailure(), written.after)
    else
      var available := s.incoming + arriving;
      var after := written.after.(incoming := ClientUnread(available));
      match ClientRead(available)
      case Ok(box) => Called(Unboxed(c, box), after)
      case Err(e) => Called(Err(e), after)
      case Panic => Called(Panic, after)
  }

  function HandshakeCall(c: Cipher, s: ClientState, nonce: Nonce, room: nat, arriving: seq<byte>): Called<()> {
    var x := ExchangeCall(c, s, NewControl(ConfigRequest), nonce, room, arriving);
    if !x.result.Ok? then Called(x.result.PropagateFailure(), x.after)
    else
      var r := x.result.value;
      if r.packetType != Control || r.controlType != Some(ConfigResponse) then Called(Err(Protocol), x.after)
      else
        var config := ConfigFrom(r.payload);
        if !config.Ok? then Called(config.PropagateFailure(), x.after)
        else Called(Ok(()), x.after.(config := config.value, connected := true, keepalive := true))
  }

  function SendCall(c: Cipher, s: ClientState, p: VpnPacket, nonce: Nonce, room: nat,
          arriving: seq<byte>): Called<VpnPacket> {
    if !s.connected then Called(Err(Protocol), s) else ExchangeCall(c, s, p, nonce, room, arriving)
  }

  function DisconnectCall(c: Cipher, s: ClientState, nonce: Nonce, room: nat): Called<()> {
    if !s.connected then Called(Ok(()), s)
    else
      var written := WriteCall(c, s, NewControl(Disconnect), nonce, room);
      if written.result.Ok? then Called(Ok(()), written.after.(connected := false, keepalive := false)) else written
  }

  // ---- Lifecycle

  datatype Call =
    | Send(packet: VpnPacket, nonce: Nonce, room: nat, arriving: seq<byte>)
    | Disconnects(nonce: Nonce, room: nat)
    | Drop(nonce: Nonce, room: nat)
    | KeepaliveTurn(nonce: Nonce, room: nat)

  function AfterCall(c: Cipher, s: ClientState, call: Call): ClientState {
    match call
    case Send(p, nonce, room, arriving) => SendCall(c, s, p, nonce, room, arriving).after
    case Disconnects(nonce, room) => DisconnectCall(c, s, nonce, room).after
    case Drop(nonce, room) => DisconnectCall(c, s, nonce, room).after
    case KeepaliveTurn(nonce, room) => WriteCall(c, s, NewKeepalive(), nonce, room).after
  }

  function AfterCalls(c: Cipher, s: ClientState, calls: seq<Call>): ClientState
    decreases calls
  {
    if calls == [] then s else AfterCalls(c, AfterCall(c, s, calls[0]), calls[1..])
  }

  /** Disconnecting or dropping puts a complete Disconnect frame on the stream. */
  predicate WritesDisconnect(c: Cipher, s: ClientState, call: Call) {
    && (call.Disconnects? || call.Drop?)
    && Boxed(c, call.nonce, NewControl(Disconnect)).Ok?
    && AfterCall(c, s, call).outgoing == s.outgoing + Frame(Boxed(c, call.nonce, NewControl(Disconnect)).value)
  }

  function DisconnectsWritten(c: Cipher, s: ClientState, calls: seq<Call>): nat
    decreases calls
  {
    if calls == [] then 0
    else
      (if WritesDisconnect(c, s, calls[0]) then 1 else 0)
      + DisconnectsWritten(c, AfterCall(c, s, calls[0]), calls[1..])
  }

  lemma CallEffect(c: Cipher, s: ClientState, call: Call)
    ensures WritesDisconnect(c, s, call) ==> s.connected
    ensures AfterCall(c, s, call).connected <==> s.connected && !WritesDisconnect(c, s, call)
  {
  }

  /** Over any calls, at most one Disconnect is written by `disconnect` or by dropping, and the client is
      connected at the end exactly if it was at the beginning and none was written by these. */
  lemma {:induction false} Lifecycle(c: Cipher, s: ClientState, calls: seq<Call>)
    ensures DisconnectsWritten(c, s, calls) <= 1
    ensures !s.connected ==> DisconnectsWritten(c, s, calls) == 0
    ensures AfterCalls(c, s, calls).connected <==> s.connected && DisconnectsWritten(c, s, calls) == 0
    decreases calls
  {
    if calls != [] {
      CallEffect(c, s, calls[0]);
      Lifecycle(c, AfterCall(c, s, calls[0]), calls[1..]);
    }
  }

  /** A Disconnect sent with `send_packet` does not count: the frame is on the stream, the client is as
      connected as before, and `disconnect` puts another one there. */
  lemma SentDisconnectStaysConnected(c: Cipher, s: ClientState, send: Call, disconnect: Call)
    requires s.connected && send.Send? && send.packet == NewControl(Disconnect) && send.room >= KEEPALIVE_LENGTH
    requires disconnect.Disconnects? && disconnect.room >= KEEPALIVE_LENGTH
    ensures var sent := AfterCall(c, s, send);
            && sent.connected && sent.keepalive == s.keepalive && sent.config == s.config
            && Boxed(c, send.nonce, NewControl(Disconnect)).Ok?
            && Boxed(c, disconnect.nonce, NewControl(Disconnect)).Ok?
            && sent.outgoing == s.outgoing + Frame(Boxed(c, send.nonce, NewControl(Disconnect)).value)
            && AfterCall(c, sent, disconnect).outgoing ==
               sent.outgoing + Frame(Boxed(c, disconnect.nonce, NewControl(Disconnect)).value)
    ensures DisconnectsWritten(c, s, [send, disconnect]) == 1
  {
    SmallPacketsPack(c, send.nonce, NewControl(Disconnect));
    SmallPacketsPack(c, disconnect.nonce, NewControl(Disconnect));
    BoxRoundTrip(c, send.nonce, NewControl(Disconnect));
    BoxRoundTrip(c, disconnect.nonce, NewControl(Disconnect));
    CallEffect(c, s, send);
    var sent := AfterCall(c, s, send);
    assert [send, disconnect][1..] == [disconnect] && [disconnect][1..] == [];
    assert WritesDisconnect(c, sent, disconnect) && DisconnectsWritten(c, sent, [disconnect]) == 1;
  }

  /** After a Disconnect written by `disconnect` or by dropping, every request fails and changes nothing,
      on the stream or off it. */
  lemma NoRequestAfterDisconnect(c: Cipher, s: ClientState, calls: seq<Call>, p: VpnPacket, nonce: Nonce, room: nat,
          arriving: seq<byte>)
    requires DisconnectsWritten(c, s, calls) > 0
    ensures SendCall(c, AfterCalls(c, s, calls), p, nonce, room, arriving)
         == Called(Err(Protocol), AfterCalls(c, s, calls))
  {
    Lifecycle(c, s, calls);
  }

  /** A call that exchanges packets puts on the stream the frame of its own packet, or what the socket
      takes of it, and reads only after it was taken in full; it changes nothing else. */
  lemma ExchangeEffect(c: Cipher, s: ClientState, p: VpnPacket, nonce: Nonce, room: nat, arriving: seq<byte>)
    requires Boxed(c, nonce, p).Ok?
    ensures var frame, available := Frame(Boxed(c, nonce, p).value), s.incoming + arriving;
            var x := ExchangeCall(c, s, p, nonce, room, arriving);
            && x.after == ClientState(s.connected, s.config, s.keepalive,
                                      s.outgoing + (if room < |frame| then frame[..room] else frame),
                                      if room < |frame| then s.incoming else ClientUnread(available))
            && (x.result.Ok? <==>
                  room >= |frame| && ClientRead(available).Ok? && Unboxed(c, ClientRead(available).value).Ok?)
            && (x.result.Ok? ==> x.result == Unboxed(c, ClientRead(available).value))
            && (room < |frame| ==> x.result == Err(Io))
  {
  }

  /** A handshake writes a configuration request, as far as the socket takes it. It succeeds exactly if
      the request is taken in full and a frame comes back that opens to a configuration; the client
      then is connected, holds that configuration and has a keepalive thread. Otherwise these three
      are as before. */
  lemma HandshakeIff(c: Cipher, s: ClientState, nonce: Nonce, room: nat, arriving: seq<byte>)
    ensures var available := s.incoming + arriving;
            var h := HandshakeCall(c, s, nonce, room, arriving);
            h.result.Ok? <==>
              && room >= 42
              && ClientRead(available).Ok?
              && Unboxed(c, ClientRead(available).value).Ok?
              && var r := Unboxed(c, ClientRead(available).value).value;
                 r.controlType == Some(ConfigResponse) && |r.payload| >= 12
    ensures var h := HandshakeCall(c, s, nonce, room, arriving);
            h.result.Ok? ==>
              && h.after.connected && h.after.keepalive
              && ConfigBytes(h.after.config) <= Unboxed(c, ClientRead(s.incoming + arriving).value).value.payload
    ensures var h := HandshakeCall(c, s, nonce, room, arriving);
            !h.result.Ok? ==>
              h.after.connected == s.connected && h.after.config == s.config && h.after.keepalive == s.keepalive
    ensures Boxed(c, nonce, NewControl(ConfigRequest)).Ok?
    ensures var frame := Frame(Boxed(c, nonce, NewControl(ConfigRequest)).value);
            var h := HandshakeCall(c, s, nonce, room, arriving);
            && h.after.outgoing == s.outgoing + (if room < |frame| then frame[..room] else frame)
            && h.after.incoming == if room < |frame| then s.incoming else ClientUnread(s.incoming + arriving)
  {
    BoxRoundTrip(c, nonce, NewControl(ConfigRequest));
    ExchangeEffect(c, s, NewControl(ConfigRequest), nonce, room, arriving);
    var available := s.incoming + arriving;
    if ClientRead(available).Ok? {
      var box := ClientRead(available).value;
      if Unboxed(c, box).Ok? {
        UnboxedReboxes(c, box);
        var r := Unboxed(c, box).value;
        if |r.payload| >= CONFIG_LENGTH {
          ConfigRewrites(r.payload);
        }
      }
    }
  }

  /** Disconnecting a connected client writes a Disconnect, as far as the socket takes it. Exactly if it
      is taken in full, the client is no longer connected and has no keepalive thread. */
  lemma DisconnectIff(c: Cipher, s: ClientState, nonce: Nonce, room: nat)
    requires s.connected
    ensures Boxed(c, nonce, NewControl(Disconnect)).Ok?
    ensures var frame := Frame(Boxed(c, nonce, NewControl(Disconnect)).value);
            var d := DisconnectCall(c, s, nonce, room);
            && (d.result.Ok? <==> room >= 42)
            && d.after == ClientState(room < 42, s.config, s.keepalive && room < 42,
                                      s.outgoing + (if room < 42 then frame[..room] else frame), s.incoming)
  {
    BoxRoundTrip(c, nonce, NewControl(Disconnect));
  }

  // ---- The keepalive thread's output

  /** The packet the keepalive thread sends. */
  predicate IsKeepalive(c: Cipher, body: seq<byte>) {
    Unboxed(c, body) == Ok(VpnPacket([0, 0, 0, 0], [0, 0, 0, 0], Keepalive, None, []))
  }

  /** `sent` whole keepalive frames, and after them, if a write failed, a proper part of one more. */
  ghost predicate KeepalivesOnly(c: Cipher, bytes: seq<byte>, sent: nat, broken: bool) {
    exists bodies, part ::
      && bytes == Encode(bodies) + part && |bodies| == sent
      && (forall i | 0 <= i < |bodies| :: IsKeepalive(c, bodies[i]))
      && (if broken then exists body :: IsKeepalive(c, body) && part < Frame(body) else part == [])
  }

  // ---- The classes

  class TcpClient {
    var outgoing: seq<byte>
    var incoming: seq<byte>

    constructor ()
      ensures outgoing == [] && incoming == []
    {
      outgoing, incoming := [], [];
    }

    method ClientReadPacket(arriving: seq<byte>) returns (r: Outcome<seq<byte>>)
      modifies `incoming
      ensures r == ClientRead(old(incoming) + arriving)
      ensures incoming == ClientUnread(old(incoming) + arriving)
    {
      incoming := incoming + arriving;
      ghost var available := incoming;
      if |incoming| < PREFIX_LENGTH {
        incoming := [];
        return Err(Io);
      }
      var lenBytes := incoming[..PREFIX_LENGTH];
      incoming := incoming[PREFIX_LENGTH..];
      var packetLen := FromBe32(lenBytes);
      if packetLen > MAX_BODY {
        return Err(Protocol);
      }
      if |incoming| < packetLen {
        incoming := [];
        return Err(Io);
      }
      var buffer := incoming[..packetLen];
      incoming := incoming[packetLen..];
      assert buffer == available[PREFIX_LENGTH..PREFIX_LENGTH + packetLen];
      r := Ok(buffer);
    }

    method WritePacket(packet: seq<byte>, room: nat) returns (r: Outcome<()>)
      modifies `outgoing
      ensures outgoing == old(outgoing) + SentPart(packet, room)
      ensures r == if room < |Frame(packet)| then Err(Io) else Ok(())
    {
      var lenBytes := Be32(|packet|);
      ghost var frame := Frame(packet);
      if room < PREFIX_LENGTH {
        outgoing := outgoing + lenBytes[..room];
        assert frame[..room] == lenBytes[..room];
        return Err(Io);
      }
      outgoing := outgoing + lenBytes;
      if room - PREFIX_LENGTH < |packet| {
        outgoing := outgoing + packet[..room - PREFIX_LENGTH];
        assert frame[..room] == lenBytes + packet[..room - PREFIX_LENGTH];
        return Err(Io);
      }
      outgoing := outgoing + packet;
      assert frame == lenBytes + packet;
      r := Ok(());
    }
  }

  class VpnClient {
    const client: TcpClient
    const cipher: Cipher
    var config: VpnConfig
    var connected: bool
    var clientThread: bool
    // Nothing ever sets it.
    const shutdownFlag := false

    ghost function View(): ClientState
      reads this, client
    {
      ClientState(connected, config, clientThread, client.outgoing, client.incoming)
    }

    constructor (client: TcpClient, cipher: Cipher, config: VpnConfig)
      ensures this.client == client && this.cipher == cipher
      ensures View() == ClientState(false, config, false, client.outgoing, client.incoming)
    {
      this.client, this.cipher, this.config := client, cipher, config;
      connected, clientThread := false, false;
    }

    method ApplyConfig(configData: seq<byte>) returns (r: Outcome<()>)
      modifies `config
      ensures r.Ok? <==> ConfigFrom(configData).Ok?
      ensures config == if r.Ok? then ConfigFrom(configData).value else old(config)
      ensures !r.Ok? ==> r == Err(Protocol)
    {
      var config' :- Configuration.FromBytes(configData);
      config := config';
      r := Ok(());
    }

    method Handshake(nonce: Nonce, room: nat, arriving: seq<byte>) returns (r: Outcome<()>)
      modifies this, client
      ensures Called(r, View()) == HandshakeCall(cipher, old(View()), nonce, room, arriving)
    {
      var configRequest := NewControl(ConfigRequest);
      var encryptedRequest :- Pack(cipher, nonce, configRequest);
      var _ :- client.WritePacket(encryptedRequest, room);
      var encryptedResponse :- client.ClientReadPacket(arriving);
      var response :- Unpack(cipher, encryptedResponse);
      if response.packetType != Control || response.controlType != Some(ConfigResponse) {
        return Err(Protocol);
      }
      var _ :- ApplyConfig(response.payload);
      connected := true;
      clientThread := true;
      r := Ok(());
    }

    method SendPacket(packet: VpnPacket, nonce: Nonce, room: nat, arriving: seq<byte>) returns (r: Outcome<VpnPacket>)
      modifies client
      ensures Called(r, View()) == SendCall(cipher, old(View()), packet, nonce, room, arriving)
    {
      if !connected {
        return Err(Protocol);
      }
      var encrypted :- Pack(cipher, nonce, packet);
      var _ :- client.WritePacket(encrypted, room);
      var encryptedResponse :- client.ClientReadPacket(arriving);
      r := Unpack(cipher, encryptedResponse);
    }

    /** The call joins the keepalive thread. */
    ghost predicate Joins(nonce: Nonce, room: nat)
      reads this, client
    {
      connected && clientThread && DisconnectCall(cipher, View(), nonce, room).result.Ok?
    }

    /** Once the Disconnect is written the call joins the keepalive thread. `nonces` and `rooms` are the
        rounds this thread gets to run meanwhile; as its flag is never raised, the call returns only if
        one of them fails to write. */
    method Disconnect(nonce: Nonce, room: nat, nonces: seq<Nonce>, rooms: seq<nat>)
      returns (r: Outcome<()>, sent: nat, returned: bool)
      requires |nonces| == |rooms|
      modifies `connected, `clientThread, client
      ensures r == DisconnectCall(cipher, old(View()), nonce, room).result
      ensures !connected <==> r.Ok?
      ensures !old(Joins(nonce, room)) ==> returned && View() == DisconnectCall(cipher, old(View()), nonce, room).after
      ensures old(Joins(nonce, room)) ==>
                && RoundsAlive(rooms, sent)
                && (returned <==> exists i | 0 <= i < |rooms| :: rooms[i] < KEEPALIVE_LENGTH)
                && var after := DisconnectCall(cipher, old(View()), nonce, room).after;
                   View() == after.(outgoing := after.outgoing + KeepaliveOutput(cipher, nonces, rooms, sent))
    {
      r, sent, returned := Ok(()), 0, true;
      if connected {
        var disconnectPacket := NewControl(Packets.Disconnect);
        var encrypted := Pack(cipher, nonce, disconnectPacket);
        if !encrypted.Ok? {
          r := encrypted.PropagateFailure();
          return;
        }
        r := client.WritePacket(encrypted.value, room);
        if !r.Ok? {
          return;
        }
        connected := false;
        if clientThread {
          clientThread := false;
          sent, returned := KeepaliveLoop(nonces, rooms);
        }
      }
    }

    /** Dropping the client disconnects it and forgets whether that worked, but waits just the same. */
    method Drop(nonce: Nonce, room: nat, nonces: seq<Nonce>, rooms: seq<nat>) returns (sent: nat, returned: bool)
      requires |nonces| == |rooms|
      modifies `connected, `clientThread, client
      ensures !old(Joins(nonce, room)) ==> returned && View() == DisconnectCall(cipher, old(View()), nonce, room).after
      ensures old(Joins(nonce, room)) ==>
                && RoundsAlive(rooms, sent)
                && (returned <==> exists i | 0 <= i < |rooms| :: rooms[i] < KEEPALIVE_LENGTH)
                && var after := DisconnectCall(cipher, old(View()), nonce, room).after;
                   View() == after.(outgoing := after.outgoing + KeepaliveOutput(cipher, nonces, rooms, sent))
    {
      var _, n, b := Disconnect(nonce, room, nonces, rooms);
      sent, returned := n, b;
    }

    /** One round of the keepalive thread; `alive` is false when the write fails. */
    method SendKeepalive(nonce: Nonce, room: nat) returns (alive: bool)
      modifies client`outgoing
      ensures alive <==> room >= KEEPALIVE_LENGTH
      ensures client.outgoing == old(client.outgoing) +
                if alive then KeepaliveFrame(cipher, nonce) else KeepaliveFrame(cipher, nonce)[..room]
    {
      BoxRoundTrip(cipher, nonce, NewKeepalive());
      alive := true;
      var encrypted := Pack(cipher, nonce, NewKeepalive());
      if encrypted.Ok? {
        var written := client.WritePacket(encrypted.value, room);
        alive := written.Ok?;
      }
    }

    /** The keepalive thread, given the nonce and the socket's room of each round it gets to run. The
        flag stays down, so it ends only when a write fails: at the first round without room. */
    method KeepaliveLoop(nonces: seq<Nonce>, rooms: seq<nat>) returns (sent: nat, broken: bool)
      requires |nonces| == |rooms|
      modifies client`outgoing
      ensures RoundsAlive(rooms, sent)
      ensures broken <==> exists i | 0 <= i < |rooms| :: rooms[i] < KEEPALIVE_LENGTH
      ensures client.outgoing == old(client.outgoing) + KeepaliveOutput(cipher, nonces, rooms, sent)
      ensures KeepalivesOnly(cipher, KeepaliveOutput(cipher, nonces, rooms, sent), sent, broken)
    {
      hide KeepaliveFrame, KeepalivesOnly;
      sent, broken := 0, false;
      while !shutdownFlag && sent < |rooms|
        invariant sent <= |rooms| && !broken
        invariant forall i | 0 <= i < sent :: rooms[i] >= KEEPALIVE_LENGTH
        invariant client.outgoing == old(client.outgoing) + Keepalives(cipher, nonces[..sent])
        decreases |rooms| - sent
      {
        var alive := SendKeepalive(nonces[sent], rooms[sent]);
        if !alive {
          broken := true;
          OutputIsKeepalives(cipher, nonces, rooms, sent);
          return;
        }
        assert nonces[..sent + 1] == nonces[..sent] + [nonces[sent]];
        KeepalivesSnoc(cipher, nonces[..sent], nonces[sent]);
        sent := sent + 1;
      }
      OutputIsKeepalives(cipher, nonces, rooms, sent);
    }
  }

  const KEEPALIVE_LENGTH := 42

  /** The first `sent` rounds write their keepalives, and the next one, if there is one, fails. */
  predicate RoundsAlive(rooms: seq<nat>, sent: nat) {
    && sent <= |rooms|
    && (forall i | 0 <= i < sent :: rooms[i] >= KEEPALIVE_LENGTH)
    && (sent < |rooms| ==> rooms[sent] < KEEPALIVE_LENGTH)
  }

  /** What these rounds put on the stream. */
  function KeepaliveOutput(c: Cipher, nonces: seq<Nonce>, rooms: seq<nat>, sent: nat): seq<byte>
    requires |nonces| == |rooms| && RoundsAlive(rooms, sent)
  {
    Keepalives(c, nonces[..sent]) + if sent < |rooms| then KeepaliveFrame(c, nonces[sent])[..rooms[sent]] else []
  }

  function KeepaliveFrame(c: Cipher, nonce: Nonce): (f: seq<byte>)
    ensures |f| == KEEPALIVE_LENGTH
  {
    BoxRoundTrip(c, nonce, NewKeepalive());
    Frame(Boxed(c, nonce, NewKeepalive()).value)
  }

  function Keepalives(c: Cipher, nonces: seq<Nonce>): seq<byte> {
    if nonces == [] then [] else KeepaliveFrame(c, nonces[0]) + Keepalives(c, nonces[1..])
  }

  function KeepaliveBodies(c: Cipher, nonces: seq<Nonce>): (bodies: seq<seq<byte>>)
    ensures |bodies| == |nonces|
  {
    if nonces == [] then []
    else
      BoxRoundTrip(c, nonces[0], NewKeepalive());
      [Boxed(c, nonces[0], NewKeepalive()).value] + KeepaliveBodies(c, nonces[1..])
  }

  lemma {:induction false} KeepalivesEncode(c: Cipher, nonces: seq<Nonce>)
    ensures Keepalives(c, nonces) == Encode(KeepaliveBodies(c, nonces))
    ensures forall i | 0 <= i < |nonces| :: IsKeepalive(c, KeepaliveBodies(c, nonces)[i])
  {
    hide Frame, Unboxed;
    if nonces != [] {
      BoxRoundTrip(c, nonces[0], NewKeepalive());
      KeepalivesEncode(c, nonces[1..]);
    }
  }

  /** Whatever the rounds are given, keepalives are all they write. */
  lemma OutputIsKeepalives(c: Cipher, nonces: seq<Nonce>, rooms: seq<nat>, sent: nat)
    requires |nonces| == |rooms| && RoundsAlive(rooms, sent)
    ensures KeepalivesOnly(c, KeepaliveOutput(c, nonces, rooms, sent), sent, sent < |rooms|)
  {
    hide Unboxed;
    var bodies := KeepaliveBodies(c, nonces[..sent]);
    KeepalivesEncode(c, nonces[..sent]);
    if sent < |rooms| {
      BoxRoundTrip(c, nonces[sent], NewKeepalive());
      var body := Boxed(c, nonces[sent], NewKeepalive()).value;
      assert IsKeepalive(c, body) && KeepaliveFrame(c, nonces[sent])[..rooms[sent]] < Frame(body);
    }
  }

  /** A round between the caller's calls is a round of the loop. */
  lemma TurnIsRound(c: Cipher, s: ClientState, nonce: Nonce, room: nat)
    ensures AfterCall(c, s, KeepaliveTurn(nonce, room)) ==
            s.(outgoing := s.outgoing + KeepaliveOutput(c, [nonce], [room], if room >= 42 then 1 else 0))
  {
    hide Boxed;
    SmallPacketsPack(c, nonce, NewKeepalive());
    BoxRoundTrip(c, nonce, NewKeepalive());
    var frame := KeepaliveFrame(c, nonce);
    assert Keepalives(c, [nonce]) == frame + Keepalives(c, []) == frame;
    assert [nonce][..1] == [nonce] && [nonce][..0] == [];
    assert frame + [] == frame && [] + frame[..if room < 42 then room else 42]
        == frame[..if room < 42 then room else 42];
  }

  lemma {:induction false} KeepalivesSnoc(c: Cipher, nonces: seq<Nonce>, nonce: Nonce)
    ensures Keepalives(c, nonces + [nonce]) == Keepalives(c, nonces) + KeepaliveFrame(c, nonce)
  {
    if nonces == [] {
      assert [nonce][1..] == [];
    } else {
      KeepalivesSnoc(c, nonces[1..], nonce);
      assert (nonces + [nonce])[1..] == nonces[1..] + [nonce];
    }
  }
}
