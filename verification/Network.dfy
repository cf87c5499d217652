/** The server's end of the network: the registry of connections and its framed, non-blocking
    reads and writes, updated in place. */
module Network {
  import opened Bytes
  import opened Outcomes
  import opened Handler
  import opened Framing
  import opened Service

  /** How many bytes the reader peeks at. */
  const PEEK_LENGTH := 10

  class TcpServer {
    var clients: map<ClientId, ClientInfo>
    // The bytes the network has taken from the server, per connection.
    var wire: map<ClientId, seq<byte>>

    ghost function View(): Registry
      reads this
    {
      Registry(clients, wire)
    }

    constructor ()
      ensures View() == Registry(map[], map[])
    {
      clients, wire := map[], map[];
    }

    /** The accept loop's handling of one connection. */
    method AcceptClient(id: ClientId, now: nat)
      modifies this
      ensures View() == Accepted(old(View()), id, now)
      ensures id in clients && clients[id].lastSeen == now
      ensures forall other | other != id :: other in clients <==> other in old(clients)
    {
      clients := clients[id := ClientInfo([], now)];
      wire := wire[id := []];
    }

    method ServiceReadPacket(id: ClientId, peekOk: bool, now: nat) returns (r: Outcome<seq<byte>>)
      modifies `clients
      ensures r == ReadResult(old(View()), id, peekOk)
      ensures View() == AfterRead(old(View()), id, peekOk, now)
      ensures clients.Keys == old(clients.Keys)
    {
      if id !in clients {
        return Err(ClientNotFound);
      }
      var info := clients[id];
      ghost var before := clients;
      var size := if |info.inbox| < PEEK_LENGTH then |info.inbox| else PEEK_LENGTH;
      if !peekOk || size < PREFIX_LENGTH {
        assert before[id := ClientInfo(info.inbox, info.lastSeen)] == before;
        return Ok([]);
      }
      var lenBytes := info.inbox[..PREFIX_LENGTH];
      info := info.(inbox := info.inbox[PREFIX_LENGTH..]);
      clients := clients[id := info];
      var packetLen := FromBe32(lenBytes);
      if packetLen > MAX_BODY {
        return Err(Protocol);
      }
      if |info.inbox| < packetLen {
        // The bytes that are there are consumed before the stream would block.
        clients := clients[id := info.(inbox := [])];
        return Err(Io);
      }
      var buffer := info.inbox[..packetLen];
      clients := clients[id := ClientInfo(info.inbox[packetLen..], now)];
      assert buffer == before[id].inbox[PREFIX_LENGTH..PREFIX_LENGTH + packetLen];
      r := Ok(buffer);
    }

    method WritePacket(id: ClientId, packet: seq<byte>, room: nat) returns (r: Outcome<()>)
      modifies `wire
      ensures r == WriteResult(View(), id, packet, room)
      ensures View() == AfterWrite(old(View()), id, packet, room)
    {
      if id !in clients {
        return Err(ClientNotFound);
      }
      var lenBytes := Be32(|packet|);
      var sent := WireOf(Registry(clients, wire), id);
      ghost var frame := Frame(packet);
      if room < PREFIX_LENGTH {
        wire := wire[id := sent + lenBytes[..room]];
        assert frame[..room] == lenBytes[..room];
        return Err(Io);
      }
      wire := wire[id := sent + lenBytes];
      if room - PREFIX_LENGTH < |packet| {
        wire := wire[id := sent + lenBytes + packet[..room - PREFIX_LENGTH]];
        assert sent + frame[..room] == sent + lenBytes + packet[..room - PREFIX_LENGTH];
        return Err(Io);
      }
      wire := wire[id := sent + lenBytes + packet];
      assert sent + frame[..|frame|] == sent + lenBytes + packet;
      r := Ok(());
    }

    method RemoveClient(id: ClientId)
      modifies `clients
      ensures View() == Removed(old(View()), id)
      ensures id !in clients
    {
      clients := clients - {id};
    }

    /** A snapshot in the map's order, which is arbitrary. */
    method GetClientIds() returns (ids: seq<ClientId>)
      ensures forall id :: id in ids <==> id in clients
      ensures forall i, j | 0 <= i < j < |ids| :: ids[i] != ids[j]
    {
      ids := Listing(clients.Keys);
    }

    method UpdateClientTimestamp(id: ClientId, now: nat) returns (r: Outcome<()>)
      modifies `clients
      ensures View() == Touched(old(View()), id, now)
      ensures r == if id in old(clients) then Ok(()) else Err(ClientNotFound)
    {
      if id in clients {
        clients := clients[id := clients[id].(lastSeen := now)];
        r := Ok(());
      } else {
        r := Err(ClientNotFound);
      }
    }

    method GetStaleClients(now: nat) returns (ids: seq<ClientId>)
      ensures forall id :: id in ids <==> id in clients && now - clients[id].lastSeen > 90_000_000_000
      ensures forall id :: id in ids <==> id in Stale(View(), now)
    {
      ids := Listing(set id | id in clients && now - clients[id].lastSeen > STALE_AFTER);
    }
  }

  method Listing(keys: set<ClientId>) returns (ids: seq<ClientId>)
    ensures forall id :: id in ids <==> id in keys
    ensures forall i, j | 0 <= i < j < |ids| :: ids[i] != ids[j]
  {
    ids := [];
    var rest := keys;
    while rest != {}
      invariant rest <= keys
      invariant forall id :: id in ids <==> id in keys - rest
      invariant forall i, j | 0 <= i < j < |ids| :: ids[i] != ids[j]
      decreases |rest|
    {
      var id :| id in rest;
      assert id !in ids && forall other :: other in ids + [id] <==> other in ids || other == id;
      rest := rest - {id};
      ids := ids + [id];
    }
  }

  /** The keepalive monitor's check, run under the server lock. */
  method CheckClientKeepalive(server: TcpServer, now: nat)
    modifies server
    ensures server.clients == old(server.clients) - Stale(old(server.View()), now)
    ensures forall id | id in old(server.clients) ::
              id in server.clients <==> now - old(server.clients)[id].lastSeen <= 90_000_000_000
    ensures server.wire == old(server.wire)
  {
    var staleClients := server.GetStaleClients(now);
    for i := 0 to |staleClients|
      invariant server.clients == old(server.clients) - (set id | id in staleClients[..i])
      invariant server.wire == old(server.wire)
    {
      server.RemoveClient(staleClients[i]);
      assert staleClients[..i + 1] == staleClients[..i] + [staleClients[i]];
    }
    assert staleClients[..|staleClients|] == staleClients;
    assert (set id | id in staleClients) == Stale(old(server.View()), now);
  }
}
