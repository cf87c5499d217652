/** The server as a state machine: the connection registry, the worker's tables, and the steps of
    the accept thread, the network, the keepalive monitor and the worker. A worker step is what runs
    between two acquisitions of the registry lock, so the other threads interleave with a half-handled
    packet. */
module Service {
  import opened Bytes
  import opened Outcomes
  import opened Encryption
  import opened Packets
  import opened Handler
  import opened Configuration
  import opened Routes
  import opened Framing

  type ClientId = string

  const SECOND := 1_000_000_000
  const STALE_AFTER := 90 * SECOND

  // ---- The registry

  /** A registered connection: its unread bytes and when it was last heard of, in nanoseconds. */
  datatype ClientInfo = ClientInfo(inbox: seq<byte>, lastSeen: nat)

  /** `wire` is what was ever written to a connection; it stays readable by the client after the
      server has dropped its end. */
  datatype Registry = Registry(clients: map<ClientId, ClientInfo>, wire: map<ClientId, seq<byte>>)

  function WireOf(g: Registry, id: ClientId): seq<byte> {
    if id in g.wire then g.wire[id] else []
  }

  /** What was written to a connection after its first `taken` bytes. */
  function WireFrom(g: Registry, id: ClientId, taken: nat): seq<byte> {
    if taken <= |WireOf(g, id)| then WireOf(g, id)[taken..] else []
  }

  function Accepted(g: Registry, id: ClientId, now: nat): Registry {
    Registry(g.clients[id := ClientInfo([], now)], g.wire[id := []])
  }

  function Arrived(g: Registry, id: ClientId, bytes: seq<byte>): Registry {
    if id in g.clients
    then g.(clients := g.clients[id := g.clients[id].(inbox := g.clients[id].inbox + bytes)])
    else g
  }

  function ReadResult(g: Registry, id: ClientId, peekOk: bool): Outcome<seq<byte>> {
    if id in g.clients then PollResult(Poll(g.clients[id].inbox, peekOk)) else Err(ClientNotFound)
  }

  function AfterRead(g: Registry, id: ClientId, peekOk: bool, now: nat): Registry {
    if id !in g.clients then g
    else
      var info := g.clients[id];
      var seen := if Poll(info.inbox, peekOk).Whole? then now else info.lastSeen;
      g.(clients := g.clients[id := ClientInfo(Unread(info.inbox, peekOk), seen)])
  }

  /** `room` is how many bytes the socket takes before it fails. */
  function WriteResult(g: Registry, id: ClientId, packet: seq<byte>, room: nat): Outcome<()> {
    if id !in g.clients then Err(ClientNotFound)
    else if room < |Frame(packet)| then Err(Io)
    else Ok(())
  }

  function AfterWrite(g: Registry, id: ClientId, packet: seq<byte>, room: nat): Registry {
    if id !in g.clients then g
    else
      var taken := if room < |Frame(packet)| then room else |Frame(packet)|;
      g.(wire := g.wire[id := WireOf(g, id) + Frame(packet)[..taken]])
  }

  function Removed(g: Registry, id: ClientId): Registry {
    g.(clients := g.clients - {id})
  }

  function Touched(g: Registry, id: ClientId, now: nat): Registry {
    if id in g.clients then g.(clients := g.clients[id := g.clients[id].(lastSeen := now)]) else g
  }

  function Stale(g: Registry, now: nat): set<ClientId> {
    set id | id in g.clients && now - g.clients[id].lastSeen > STALE_AFTER
  }

  // ---- The worker

  datatype Phase =
    | Idle
    | Received(id: ClientId, packet: VpnPacket)
    | Failing(id: ClientId, error: VpnError)
    | Leaving(id: ClientId)
    | Crashed(id: ClientId)

  /** `doomed` is what the keepalive monitor has listed as stale and not yet removed; while it is
      not empty the monitor holds the server lock and the worker waits. */
  datatype State = State(
    now: nat,
    registry: Registry,
    routes: map<ClientId, seq<RouteEntry>>,
    configs: map<ClientId, VpnConfig>,
    phase: Phase,
    doomed: set<ClientId>)

  function Init(): State {
    State(0, Registry(map[], map[]), map[], map[], Idle, {})
  }

  function Echo(p: VpnPacket): VpnPacket {
    VpnPacket(p.destIp, p.sourceIp, Data, p.controlType, p.payload)
  }

  function ConfigReply(config: VpnConfig): VpnPacket {
    NewControl(ConfigResponse).(payload := ConfigBytes(config))
  }

  function RouteAck(): VpnPacket {
    NewControl(RouteUpdate).(payload := [1])
  }

  /** Where reading one packet and unpacking it leads. */
  function ReadPhase(c: Cipher, id: ClientId, read: Outcome<seq<byte>>): Phase {
    match read
    case Err(e) => Failing(id, e)
    case Panic => Crashed(id)
    case Ok(body) =>
      if |body| < 4 then Idle
      else
        match Unboxed(c, body)
        case Ok(p) => Received(id, p)
        case Err(e) => Failing(id, e)
        case Panic => Crashed(id)
  }

  function AfterPoll(c: Cipher, s: State, id: ClientId, peekOk: bool): State {
    s.(registry := AfterRead(s.registry, id, peekOk, s.now),
       phase := ReadPhase(c, id, ReadResult(s.registry, id, peekOk)))
  }

  /** Packing and writing a reply; `next` is where a successful write leads. */
  function Replied(c: Cipher, s: State, id: ClientId, reply: VpnPacket, nonce: Nonce, room: nat, next: Phase): State {
    match Boxed(c, nonce, reply)
    case Err(e) => s.(phase := Failing(id, e))
    case Panic => s.(phase := Crashed(id))
    case Ok(box) =>
      s.(registry := AfterWrite(s.registry, id, box, room),
         phase := match WriteResult(s.registry, id, box, room)
                  case Ok(_) => next
                  case Err(e) => Failing(id, e)
                  case Panic => Crashed(id))
  }

  predicate IsControl(p: VpnPacket, t: ControlType) {
    p.packetType == Control && p.controlType == Some(t)
  }

  /** The entries a packet makes in the worker's tables before its reply is packed. */
  function Tabled(s: State, id: ClientId, p: VpnPacket): State {
    if IsControl(p, ConfigRequest) && id !in s.configs then s.(configs := s.configs[id := DefaultConfig()])
    else if IsControl(p, RouteUpdate) && ParsedRoutes(p.payload).Ok?
    then s.(routes := s.routes[id := ParsedRoutes(p.payload).value])
    else s
  }

  /** The reply to a packet, once the tables are up to date. */
  function ReplyTo(s: State, id: ClientId, p: VpnPacket): Outcome<VpnPacket> {
    if p.packetType == Data then Ok(Echo(p))
    else if IsControl(p, ConfigRequest) && id in s.configs then Ok(ConfigReply(s.configs[id]))
    else if IsControl(p, RouteUpdate) && ParsedRoutes(p.payload).Ok? then Ok(RouteAck())
    else if IsControl(p, Disconnect) then Ok(NewControl(Disconnect))
    else Err(Protocol)
  }

  /** Handling an unpacked packet up to and including the write of its reply. */
  function Dispatched(c: Cipher, s: State, id: ClientId, p: VpnPacket, nonce: Nonce, room: nat): State {
    if p.packetType == Keepalive then
      s.(registry := Touched(s.registry, id, s.now),
         phase := if id in s.registry.clients then Idle else Failing(id, ClientNotFound))
    else
      var s' := Tabled(s, id, p);
      match ReplyTo(s', id, p)
      case Ok(reply) =>
        Replied(c, s', id, reply, nonce, room, if IsControl(p, Disconnect) then Leaving(id) else Idle)
      case Err(e) => s'.(phase := Failing(id, e))
      case Panic => s'.(phase := Crashed(id))
  }

  /** What follows an acknowledged disconnect, or an error. */
  function Finished(s: State, id: ClientId): State {
    match s.phase
    case Leaving(_) =>
      s.(registry := Removed(s.registry, id), routes := s.routes - {id}, configs := s.configs - {id}, phase := Idle)
    case Failing(_, e) =>
      s.(registry := if IsFatalError(e) then Removed(s.registry, id) else s.registry, phase := Idle)
    case _ => s
  }

  // ---- Steps and runs

  datatype Event =
    | Advance(elapsed: nat)
    | StaleList
    | Accept(id: ClientId)
    | Arrive(id: ClientId, bytes: seq<byte>)
    | StaleRemove(id: ClientId)
    | PollClient(id: ClientId, peekOk: bool)
    | Dispatch(id: ClientId, nonce: Nonce, room: nat)
    | Finish(id: ClientId)

  predicate Enabled(s: State, e: Event) {
    match e
    case StaleList => s.doomed == {}
    case StaleRemove(id) => id in s.doomed
    case PollClient(id, _) => s.doomed == {} && s.phase == Idle
    case Dispatch(id, _, _) => s.doomed == {} && s.phase.Received? && s.phase.id == id
    case Finish(id) => s.doomed == {} && (s.phase.Leaving? || s.phase.Failing?) && s.phase.id == id
    case _ => true
  }

  function Step(c: Cipher, s: State, e: Event): State
    requires Enabled(s, e)
  {
    match e
    case Advance(elapsed) => s.(now := s.now + elapsed)
    case StaleList => s.(doomed := Stale(s.registry, s.now))
    case Accept(id) => s.(registry := Accepted(s.registry, id, s.now))
    case Arrive(id, bytes) => s.(registry := Arrived(s.registry, id, bytes))
    case StaleRemove(id) => s.(registry := Removed(s.registry, id), doomed := s.doomed - {id})
    case PollClient(id, peekOk) => AfterPoll(c, s, id, peekOk)
    case Dispatch(id, nonce, room) => Dispatched(c, s, id, s.phase.packet, nonce, room)
    case Finish(id) => Finished(s, id)
  }

  predicate ValidRun(c: Cipher, s: State, es: seq<Event>)
    decreases es
  {
    es == [] || (Enabled(s, es[0]) && ValidRun(c, Step(c, s, es[0]), es[1..]))
  }

  function Run(c: Cipher, s: State, es: seq<Event>): State
    requires ValidRun(c, s, es)
    decreases es
  {
    if es == [] then s else Run(c, Step(c, s, es[0]), es[1..])
  }

  lemma {:induction false} RunConcatenates(c: Cipher, s: State, a: seq<Event>, b: seq<Event>)
    requires ValidRun(c, s, a)
    ensures ValidRun(c, s, a + b) <==> ValidRun(c, Run(c, s, a), b)
    ensures ValidRun(c, s, a + b) ==> Run(c, s, a + b) == Run(c, Run(c, s, a), b)
    decreases a
  {
    if a == [] {
      assert a + b == b;
    } else {
      assert (a + b)[1..] == a[1..] + b && (a + b)[0] == a[0];
      RunConcatenates(c, Step(c, s, a[0]), a[1..], b);
    }
  }

  // ---- One turn of the main loop, uninterrupted

  /** `handle_client_packet` without interference. It ends in `Idle` when it returns Ok, in `Failing`
      when it returns an error, and in `Crashed` when it aborts. */
  function Handled(c: Cipher, s: State, id: ClientId, peekOk: bool, nonce: Nonce, room: nat): State {
    var s1 := AfterPoll(c, s, id, peekOk);
    if !s1.phase.Received? then s1
    else
      var s2 := Dispatched(c, s1, id, s1.phase.packet, nonce, room);
      if s2.phase.Leaving? then Finished(s2, id) else s2
  }

  /** The main loop's handling of one id of its snapshot. */
  function Iterated(c: Cipher, s: State, id: ClientId, peekOk: bool, nonce: Nonce, room: nat): State {
    var s' := Handled(c, s, id, peekOk, nonce, room);
    if s'.phase.Failing? then Finished(s', id) else s'
  }

  lemma RunCons(c: Cipher, s: State, e: Event, rest: seq<Event>)
    requires Enabled(s, e) && ValidRun(c, Step(c, s, e), rest)
    ensures ValidRun(c, s, [e] + rest) && Run(c, s, [e] + rest) == Run(c, Step(c, s, e), rest)
  {
  }

  /** The reply packs, its client is still registered, and the socket takes the whole frame. */
  predicate Deliverable(c: Cipher, s: State, id: ClientId, reply: VpnPacket, nonce: Nonce, room: nat) {
    var box := Boxed(c, nonce, reply);
    box.Ok? && id in s.registry.clients && room >= |Frame(box.value)|
  }

  /** A reply changes no registration and no table; delivery decides between `next` and failing, and
      only a missing registration makes the failure fatal. */
  lemma ReplyOutcome(c: Cipher, s: State, id: ClientId, reply: VpnPacket, nonce: Nonce, room: nat, next: Phase)
    ensures var s' := Replied(c, s, id, reply, nonce, room, next);
            var box := Boxed(c, nonce, reply);
            && s'.registry.clients == s.registry.clients
            && s'.registry == (if box.Ok? then AfterWrite(s.registry, id, box.value, room) else s.registry)
            && s'.routes == s.routes && s'.configs == s.configs && s'.now == s.now && s'.doomed == s.doomed
            && s'.phase == if Deliverable(c, s, id, reply, nonce, room) then next
                           else Failing(id, if !box.Ok? then VpnError.Encryption
                                            else if id !in s.registry.clients then ClientNotFound
                                            else Io)
  {
  }

  lemma PhaseAfterPoll(c: Cipher, s: State, id: ClientId, peekOk: bool)
    requires s.phase == Idle
    ensures var phase := AfterPoll(c, s, id, peekOk).phase; !phase.Leaving? && (phase.Idle? || phase.id == id)
  {
  }

  lemma PhaseAfterDispatch(c: Cipher, s: State, id: ClientId, p: VpnPacket, nonce: Nonce, room: nat)
    ensures var s' := Dispatched(c, s, id, p, nonce, room);
            && !s'.phase.Received? && (s'.phase.Idle? || s'.phase.id == id)
            && s'.doomed == s.doomed && s'.now == s.now
  {
    hide Replied, Boxed, ParsedRoutes, ConfigReply, Touched;
    var s' := Tabled(s, id, p);
    var reply := ReplyTo(s', id, p);
    if p.packetType != Keepalive && reply.Ok? {
      ReplyOutcome(c, s', id, reply.value, nonce, room, if IsControl(p, Disconnect) then Leaving(id) else Idle);
    }
  }

  lemma FinishIsRun(c: Cipher, s: State, id: ClientId) returns (es: seq<Event>)
    requires s.doomed == {} && !s.phase.Received? && (s.phase.Idle? || s.phase.id == id)
    ensures ValidRun(c, s, es)
    ensures Run(c, s, es) == if s.phase.Leaving? || s.phase.Failing? then Finished(s, id) else s
  {
    es := [];
    if s.phase.Leaving? || s.phase.Failing? {
      RunCons(c, s, Finish(id), []);
      es := [Finish(id)] + [];
    }
  }

  lemma DispatchIsRun(c: Cipher, s: State, id: ClientId, nonce: Nonce, room: nat) returns (es: seq<Event>)
    requires s.doomed == {} && s.phase.Received? && s.phase.id == id
    ensures ValidRun(c, s, es)
    ensures var s' := Dispatched(c, s, id, s.phase.packet, nonce, room);
            Run(c, s, es) == if s'.phase.Leaving? || s'.phase.Failing? then Finished(s', id) else s'
  {
    var s' := Dispatched(c, s, id, s.phase.packet, nonce, room);
    PhaseAfterDispatch(c, s, id, s.phase.packet, nonce, room);
    es := FinishIsRun(c, s', id);
    RunCons(c, s, Dispatch(id, nonce, room), es);
    es := [Dispatch(id, nonce, room)] + es;
  }

  /** An uninterrupted turn is a run of the steps above, so whatever holds of all runs holds of it. */
  lemma IterationIsRun(c: Cipher, s: State, id: ClientId, peekOk: bool, nonce: Nonce, room: nat)
    returns (es: seq<Event>)
    requires s.phase == Idle && s.doomed == {}
    ensures ValidRun(c, s, es) && Run(c, s, es) == Iterated(c, s, id, peekOk, nonce, room)
  {
    var s1 := AfterPoll(c, s, id, peekOk);
    PhaseAfterPoll(c, s, id, peekOk);
    if s1.phase.Received? {
      es := DispatchIsRun(c, s1, id, nonce, room);
    } else {
      es := FinishIsRun(c, s1, id);
    }
    RunCons(c, s, PollClient(id, peekOk), es);
    es := [PollClient(id, peekOk)] + es;
  }
}
