/** One client talking to the server among all the others: every answer the client takes off the
    stream is the answer to the request it is waiting on. */
module Session {
  import opened Bytes
  import opened Outcomes
  import opened Encryption
  import opened Packets
  import opened Handler
  import opened Configuration
  import opened Routes
  import opened Framing
  import opened Service
  import opened NonInterference
  import Eviction
  import Client
  import Replies

  datatype Exchange = Exchange(request: VpnPacket, answer: Outcome<VpnPacket>)

  /** `flight` is written by the client and not yet arrived; `taken` is how much of the server's
      bytes the client has read; `waiting` is the request whose answer `send_packet` is blocked on. */
  datatype Session = Session(
    server: State,
    flight: seq<byte>,
    taken: nat,
    waiting: Option<VpnPacket>,
    exchanges: seq<Exchange>)

  datatype SessionEvent =
    | Request(packet: VpnPacket, nonce: Nonce)
    | SendKeepalive(nonce: Nonce)
    | Deliver(count: nat)
    | Response
    | Server(event: Event)

  /** Frames are written atomically, requests stay below the wrap of the length prefix, the blocking
      read never times out, the server's polls of this client are whole, and its id is not reused. */
  predicate SessionEnabled(ss: Session, e: SessionEvent, id: ClientId) {
    match e
    case Request(p, _) => ss.waiting.None? && |p.payload| + BOX_OVERHEAD < TWO_TO_THE_32
    case SendKeepalive(_) => true
    case Deliver(count) => count <= |ss.flight|
    case Response => ss.waiting.Some? && ClientRead(WireFrom(ss.server.registry, id, ss.taken)) != Err(Io)
    case Server(event) =>
      && Enabled(ss.server, event)
      && (event.Accept? || event.Arrive? ==> event.id != id)
      && (event.PollClient? && event.id == id && id in ss.server.registry.clients ==>
            WholePoll(ss.server.registry.clients[id].inbox, event.peekOk))
  }

  function BoxOf(c: Cipher, nonce: Nonce, p: VpnPacket): seq<byte> {
    var box := Boxed(c, nonce, p);
    if box.Ok? then box.value else []
  }

  function Answered(c: Cipher, read: Outcome<seq<byte>>): Outcome<VpnPacket> {
    var box :- read;
    Unboxed(c, box)
  }

  function SessionStep(c: Cipher, ss: Session, e: SessionEvent, id: ClientId): Session
    requires SessionEnabled(ss, e, id)
  {
    match e
    case Request(p, nonce) =>
      ss.(flight := ss.flight + Frame(BoxOf(c, nonce, p)), waiting := Some(p))
    case SendKeepalive(nonce) =>
      ss.(flight := ss.flight + Frame(BoxOf(c, nonce, NewKeepalive())))
    case Deliver(count) =>
      ss.(server := Step(c, ss.server, Arrive(id, ss.flight[..count])), flight := ss.flight[count..])
    case Response =>
      var unheard := WireFrom(ss.server.registry, id, ss.taken);
      ss.(taken := ss.taken + |unheard| - |ClientUnread(unheard)|,
          waiting := None,
          exchanges := ss.exchanges + [Exchange(ss.waiting.value, Answered(c, ClientRead(unheard)))])
    case Server(event) => ss.(server := Step(c, ss.server, event))
  }

  predicate SessionRun(c: Cipher, ss: Session, es: seq<SessionEvent>, id: ClientId)
    decreases es
  {
    es == [] || (SessionEnabled(ss, es[0], id) && SessionRun(c, SessionStep(c, ss, es[0], id), es[1..], id))
  }

  function SessionEnd(c: Cipher, ss: Session, es: seq<SessionEvent>, id: ClientId): Session
    requires SessionRun(c, ss, es, id)
    decreases es
  {
    if es == [] then ss else SessionEnd(c, SessionStep(c, ss, es[0], id), es[1..], id)
  }

  const ZERO_IP: Ip := [0, 0, 0, 0]

  /** The answer a request deserves, byte for byte; None for the packets the server does not answer. */
  function AnswerTo(p: VpnPacket): Option<VpnPacket> {
    match p.packetType
    case Data => Some(VpnPacket(p.destIp, p.sourceIp, Data, None, p.payload))
    case Keepalive => None
    case Control =>
      match p.controlType
      case Some(RouteUpdate) =>
        if |p.payload| % 16 == 0
        then Some(VpnPacket(ZERO_IP, ZERO_IP, Control, Some(RouteUpdate), [1])) else None
      case Some(Disconnect) => Some(VpnPacket(ZERO_IP, ZERO_IP, Control, Some(Disconnect), []))
      case Some(ConfigResponse) => None
      case _ =>
        Some(VpnPacket(ZERO_IP, ZERO_IP, Control, Some(ConfigResponse), [0, 0, 5, 220, 0, 0, 0, 30, 0, 0, 0, 3]))
  }

  predicate RightAnswers(exchanges: seq<Exchange>) {
    forall x | x in exchanges :: AnswerTo(x.request).Some? && x.answer == Ok(AnswerTo(x.request).value)
  }

  // ---- The invariant

  /** Where the pending request is: nowhere (or lost), in the stream at index `at`, in the worker's
      hands, or answered in a frame not yet read. */
  datatype Stage = Nowhere | Asked(at: nat) | Serving | Written(box: seq<byte>)

  /** The server will still read this client's stream. */
  predicate Usable(v: State, id: ClientId) {
    id in v.registry.clients && !(v.phase.Failing? && IsFatalError(v.phase.error))
  }

  predicate KeepaliveBox(c: Cipher, box: seq<byte>) {
    |box| < TWO_TO_THE_32 && Unboxed(c, box).Ok? && Unboxed(c, box).value.packetType == Keepalive
  }

  predicate RequestBox(c: Cipher, box: seq<byte>, p: VpnPacket) {
    |box| < TWO_TO_THE_32 && Unboxed(c, box) == Ok(Normal(p)) && p.packetType != Keepalive
  }

  /** The client waits for the answer to a keepalive, which never comes. */
  predicate Stuck(waiting: Option<VpnPacket>) {
    waiting.Some? && waiting.value.packetType == Keepalive
  }

  predicate QueueIs(c: Cipher, queue: seq<seq<byte>>, stage: Stage, waiting: Option<VpnPacket>) {
    && (stage.Asked? ==> stage.at < |queue| && waiting.Some? && RequestBox(c, queue[stage.at], waiting.value))
    && forall i | 0 <= i < |queue| ::
         stage == Asked(i) || (KeepaliveBox(c, queue[i]) && (Stuck(waiting) || |queue[i]| <= MAX_BODY))
  }

  predicate PhaseIs(v: State, id: ClientId, stage: Stage, waiting: Option<VpnPacket>) {
    && !v.phase.Crashed?
    && (!v.phase.Idle? ==> v.phase.id == id)
    && (stage.Serving? <==> v.phase.Received? && v.phase.packet.packetType != Keepalive)
    && (stage.Serving? ==>
          && waiting.Some?
          && v.phase.packet == Normal(waiting.value)
          && |waiting.value.payload| + BOX_OVERHEAD <= MAX_BODY)
  }

  predicate UnheardIs(c: Cipher, unheard: seq<byte>, stage: Stage, waiting: Option<VpnPacket>) {
    match stage
    case Nowhere => if waiting.None? then unheard == [] else ClientRead(unheard) == Err(Io)
    case Written(box) =>
      && waiting.Some? && AnswerTo(waiting.value).Some?
      && unheard == Frame(box) && |box| <= MAX_BODY
      && Unboxed(c, box) == Ok(AnswerTo(waiting.value).value)
    case _ => unheard == []
  }

  /** `v` is the client's part of the server; `queue` holds the boxes the server has not read. */
  predicate PartAligned(c: Cipher, v: State, ss: Session, id: ClientId, queue: seq<seq<byte>>, stage: Stage) {
    && Replies.OneConfig(v)
    && RightAnswers(ss.exchanges)
    && ss.taken <= |WireOf(v.registry, id)|
    && (Usable(v, id) ==> v.registry.clients[id].inbox + ss.flight == Encode(queue))
    && QueueIs(c, queue, stage, ss.waiting)
    && PhaseIs(v, id, stage, ss.waiting)
    && UnheardIs(c, WireOf(v.registry, id)[ss.taken..], stage, ss.waiting)
  }

  predicate Aligned(c: Cipher, ss: Session, id: ClientId, queue: seq<seq<byte>>, stage: Stage) {
    PartAligned(c, Project(ss.server, id), ss, id, queue, stage)
  }

  lemma NewBox(c: Cipher, nonce: Nonce, p: VpnPacket)
    requires |p.payload| + BOX_OVERHEAD < TWO_TO_THE_32
    ensures |BoxOf(c, nonce, p)| < TWO_TO_THE_32 && Unboxed(c, BoxOf(c, nonce, p)) == Ok(Normal(p))
    ensures |BoxOf(c, nonce, p)| == |p.payload| + BOX_OVERHEAD
  {
    BoxRoundTrip(c, nonce, p);
  }

  lemma RequestKeepsAligned(c: Cipher, ss: Session, e: SessionEvent, id: ClientId, queue: seq<seq<byte>>, stage: Stage)
    returns (queue': seq<seq<byte>>, stage': Stage)
    requires e.Request? && SessionEnabled(ss, e, id) && Aligned(c, ss, id, queue, stage)
    ensures Aligned(c, SessionStep(c, ss, e, id), id, queue', stage')
    ensures queue' == queue + [BoxOf(c, e.nonce, e.packet)]
    ensures e.packet.packetType != Keepalive ==> stage' == Asked(|queue|)
  {
    hide Frame, Unboxed, BoxOf;
    var box := BoxOf(c, e.nonce, e.packet);
    NewBox(c, e.nonce, e.packet);
    queue' := queue + [box];
    stage' := if e.packet.packetType == Keepalive then Nowhere else Asked(|queue|);
    EncodeSnoc(queue, box);
    if Usable(Project(ss.server, id), id) {
      var inbox := ss.server.registry.clients[id].inbox;
      assert inbox + (ss.flight + Frame(box)) == inbox + ss.flight + Frame(box);
    }
  }

  lemma KeepaliveKeepsAligned(c: Cipher, ss: Session, e: SessionEvent, id: ClientId, queue: seq<seq<byte>>,
          stage: Stage)
    returns (queue': seq<seq<byte>>)
    requires e.SendKeepalive? && SessionEnabled(ss, e, id) && Aligned(c, ss, id, queue, stage)
    ensures Aligned(c, SessionStep(c, ss, e, id), id, queue', stage)
  {
    hide Frame, Unboxed, BoxOf, ClientRead, AnswerTo, PhaseIs, UnheardIs;
    var box := BoxOf(c, e.nonce, NewKeepalive());
    NewBox(c, e.nonce, NewKeepalive());
    queue' := queue + [box];
    EncodeSnoc(queue, box);
    if Usable(Project(ss.server, id), id) {
      var inbox := ss.server.registry.clients[id].inbox;
      assert inbox + (ss.flight + Frame(box)) == inbox + ss.flight + Frame(box);
    }
  }

  lemma DeliverKeepsAligned(c: Cipher, ss: Session, e: SessionEvent, id: ClientId, queue: seq<seq<byte>>, stage: Stage)
    requires e.Deliver? && SessionEnabled(ss, e, id) && Aligned(c, ss, id, queue, stage)
    ensures Aligned(c, SessionStep(c, ss, e, id), id, queue, stage)
  {
    var bytes := ss.flight[..e.count];
    OwnStep(c, ss.server, Arrive(id, bytes), id);
    if id in ss.server.registry.clients {
      var inbox := ss.server.registry.clients[id].inbox;
      assert inbox + bytes + ss.flight[e.count..] == inbox + ss.flight;
    }
  }

  lemma ResponseKeepsAligned(c: Cipher, ss: Session, e: SessionEvent, id: ClientId, queue: seq<seq<byte>>, stage: Stage)
    requires e.Response? && SessionEnabled(ss, e, id) && Aligned(c, ss, id, queue, stage)
    ensures Aligned(c, SessionStep(c, ss, e, id), id, queue, Nowhere)
  {
    assert stage.Written?;
    assert Frame(stage.box) + [] == Frame(stage.box);
    ClientReadsFrame(stage.box, []);
  }

  // ---- The server's steps on this client's part

  /** Once the server no longer reads the stream, what is left in it no longer matters. */
  function Abandoned(stage: Stage): Stage {
    if stage.Asked? then Nowhere else stage
  }

  lemma ReadBox(c: Cipher, v: State, id: ClientId, box: seq<byte>)
    requires v.phase == Idle && id in v.registry.clients
    requires Poll(v.registry.clients[id].inbox, true) == Whole(box) && Unboxed(c, box).Ok?
    ensures var v' := AfterPoll(c, v, id, true);
            && v'.phase == Received(id, Unboxed(c, box).value)
            && v'.configs == v.configs && v'.registry.wire == v.registry.wire
            && id in v'.registry.clients
            && v'.registry.clients[id].inbox == Unread(v.registry.clients[id].inbox, true)
  {
  }

  /** The first box has been read. */
  function Ahead(stage: Stage): Stage {
    if !stage.Asked? then stage else if stage.at == 0 then Serving else Asked(stage.at - 1)
  }

  lemma QueueAdvances(c: Cipher, queue: seq<seq<byte>>, stage: Stage, waiting: Option<VpnPacket>)
    requires queue != [] && QueueIs(c, queue, stage, waiting)
    ensures QueueIs(c, queue[1..], Ahead(stage), waiting)
    ensures if stage == Asked(0) then waiting.Some? && RequestBox(c, queue[0], waiting.value)
            else KeepaliveBox(c, queue[0])
  {
    hide KeepaliveBox, RequestBox;
    assert forall i | 0 <= i < |queue[1..]| :: queue[1..][i] == queue[i + 1];
  }

  lemma ReadKeepsPhase(c: Cipher, v: State, v': State, id: ClientId, box: seq<byte>, stage: Stage,
          waiting: Option<VpnPacket>)
    requires v.phase == Idle && PhaseIs(v, id, stage, waiting) && |box| <= MAX_BODY && Unboxed(c, box).Ok?
    requires v'.phase == Received(id, Unboxed(c, box).value)
    requires if stage == Asked(0) then waiting.Some? && RequestBox(c, box, waiting.value) else KeepaliveBox(c, box)
    ensures PhaseIs(v', id, Ahead(stage), waiting)
  {
    hide Unboxed;
    UnboxedReboxes(c, box);
  }

  lemma UnheardStays(c: Cipher, unheard: seq<byte>, stage: Stage, waiting: Option<VpnPacket>)
    requires UnheardIs(c, unheard, stage, waiting)
    ensures UnheardIs(c, unheard, Ahead(stage), waiting)
  {
    hide ClientRead, AnswerTo, Unboxed, Frame;
  }

  lemma ReadKeepsAligned(c: Cipher, v: State, v': State, ss: Session, id: ClientId, queue: seq<seq<byte>>, stage: Stage)
    returns (queue': seq<seq<byte>>, stage': Stage)
    requires PartAligned(c, v, ss, id, queue, stage) && v.phase == Idle && id in v.registry.clients
    requires queue != [] && |queue[0]| <= MAX_BODY && Unboxed(c, queue[0]).Ok?
    requires v'.phase == Received(id, Unboxed(c, queue[0]).value)
    requires v'.configs == v.configs && v'.registry.wire == v.registry.wire
    requires id in v'.registry.clients && v'.registry.clients[id].inbox + ss.flight == Encode(queue[1..])
    ensures PartAligned(c, v', ss, id, queue', stage')
    ensures queue' == queue[1..] && stage' == Ahead(stage)
  {
    hide Encode, Unboxed, RightAnswers, QueueIs, KeepaliveBox, RequestBox, PhaseIs, UnheardIs;
    QueueAdvances(c, queue, stage, ss.waiting);
    UnheardStays(c, WireOf(v.registry, id)[ss.taken..], stage, ss.waiting);
    ReadKeepsPhase(c, v, v', id, queue[0], stage, ss.waiting);
    queue', stage' := queue[1..], Ahead(stage);
  }

  lemma BusyPollKeepsAligned(c: Cipher, v: State, ss: Session, id: ClientId, queue: seq<seq<byte>>, stage: Stage)
    returns (queue': seq<seq<byte>>, stage': Stage)
    requires PartAligned(c, v, ss, id, queue, stage) && v.phase == Idle
    requires id in v.registry.clients && |v.registry.clients[id].inbox| >= PREFIX_LENGTH
    requires WholePoll(v.registry.clients[id].inbox, true)
    ensures PartAligned(c, AfterPoll(c, v, id, true), ss, id, queue', stage')
    ensures queue != []
    ensures |queue[0]| <= MAX_BODY ==>
              var v' := AfterPoll(c, v, id, true);
              && queue' == queue[1..] && stage' == Ahead(stage)
              && v'.phase.Received? && Unboxed(c, queue[0]) == Ok(v'.phase.packet)
              && id in v'.registry.clients
  {
    hide Poll, Unread, Frame, Unboxed;
    var inbox := v.registry.clients[id].inbox;
    assert queue != [];
    HeadPoll(inbox, ss.flight, queue[0], Encode(queue[1..]));
    if |queue[0]| > MAX_BODY {
      queue', stage' := [], Abandoned(stage);
    } else {
      ReadBox(c, v, id, queue[0]);
      queue', stage' := ReadKeepsAligned(c, v, AfterPoll(c, v, id, true), ss, id, queue, stage);
    }
  }

  lemma PollKeepsAligned(c: Cipher, v: State, ss: Session, id: ClientId, peekOk: bool, queue: seq<seq<byte>>,
          stage: Stage)
    returns (queue': seq<seq<byte>>, stage': Stage)
    requires PartAligned(c, v, ss, id, queue, stage) && v.phase == Idle
    requires id in v.registry.clients ==> WholePoll(v.registry.clients[id].inbox, peekOk)
    ensures PartAligned(c, AfterPoll(c, v, id, peekOk), ss, id, queue', stage')
  {
    if id in v.registry.clients && peekOk && |v.registry.clients[id].inbox| >= PREFIX_LENGTH {
      queue', stage' := BusyPollKeepsAligned(c, v, ss, id, queue, stage);
    } else {
      queue', stage' := queue, stage;
    }
  }

  /** The reply the worker makes to a packet is the answer its sender deserves. */
  lemma ReplyIsAnswer(v: State, id: ClientId, p: VpnPacket)
    requires Replies.OneConfig(v)
    ensures var reply := ReplyTo(Tabled(v, id, Normal(p)), id, Normal(p));
            && Replies.OneConfig(Tabled(v, id, Normal(p)))
            && (if AnswerTo(p).Some? then reply == Ok(AnswerTo(p).value) else reply == Err(Protocol))
            && (reply.Ok? ==> Normal(reply.value) == reply.value)
            && (reply.Ok? ==> |reply.value.payload| <= |p.payload| || |reply.value.payload| <= CONFIG_LENGTH)
  {
    DefaultBytes();
  }

  lemma WriteKeepsAligned(c: Cipher, v: State, ss: Session, id: ClientId, reply: VpnPacket, nonce: Nonce, room: nat,
          next: Phase)
    returns (stage': Stage)
    requires Replies.OneConfig(v) && RightAnswers(ss.exchanges) && ss.taken == |WireOf(v.registry, id)|
    requires ss.waiting.Some? && AnswerTo(ss.waiting.value) == Some(reply)
    requires Normal(reply) == reply && |reply.payload| + BOX_OVERHEAD <= MAX_BODY
    requires next == Idle || next == Leaving(id)
    ensures var v' := Service.Replied(c, v, id, reply, nonce, room, next);
            && (stage'.Nowhere? || stage'.Written?)
            && PhaseIs(v', id, stage', ss.waiting)
            && ss.taken <= |WireOf(v'.registry, id)|
            && UnheardIs(c, WireOf(v'.registry, id)[ss.taken..], stage', ss.waiting)
    ensures id in v.registry.clients && room >= Replies.MAX_FRAME ==> stage'.Written?
  {
    ReplyOutcome(c, v, id, reply, nonce, room, next);
    BoxRoundTrip(c, nonce, reply);
    var box := Boxed(c, nonce, reply).value;
    var before, frame := WireOf(v.registry, id), Frame(box);
    stage' := Nowhere;
    if id in v.registry.clients {
      var sent := frame[..if room < |frame| then room else |frame|];
      assert WireOf(AfterWrite(v.registry, id, box, room), id) == before + sent;
      assert (before + sent)[ss.taken..] == sent;
      if room < |frame| {
        PartialFrameUnreadable(box, sent);
      } else {
        stage' := Written(box);
      }
    }
  }

  lemma ReplyKeepsAligned(c: Cipher, v: State, ss: Session, id: ClientId, reply: VpnPacket, nonce: Nonce, room: nat,
                          next: Phase, queue: seq<seq<byte>>)
    returns (stage': Stage)
    requires PartAligned(c, v, ss, id, queue, Serving) && AnswerTo(ss.waiting.value) == Some(reply)
    requires Normal(reply) == reply && |reply.payload| + BOX_OVERHEAD <= MAX_BODY
    requires next == Idle || next == Leaving(id)
    ensures PartAligned(c, Service.Replied(c, v, id, reply, nonce, room, next), ss, id, queue, stage')
    ensures id in v.registry.clients && room >= Replies.MAX_FRAME ==> stage'.Written?
  {
    hide Service.Replied, Frame, Unboxed, Encode, ClientRead, AnswerTo;
    stage' := WriteKeepsAligned(c, v, ss, id, reply, nonce, room, next);
    ReplyOutcome(c, v, id, reply, nonce, room, next);
  }

  lemma DispatchKeepsAligned(c: Cipher, v: State, ss: Session, id: ClientId, nonce: Nonce, room: nat,
          queue: seq<seq<byte>>, stage: Stage)
    returns (queue': seq<seq<byte>>, stage': Stage)
    requires PartAligned(c, v, ss, id, queue, stage) && v.phase.Received?
    ensures PartAligned(c, Dispatched(c, v, id, v.phase.packet, nonce, room), ss, id, queue', stage')
    ensures stage.Serving? && AnswerTo(ss.waiting.value).Some? ==>
              (id in v.registry.clients && room >= Replies.MAX_FRAME ==> stage'.Written?)
    ensures v.phase.packet.packetType == Keepalive ==> queue' == queue && stage' == stage
  {
    hide Service.Replied, Frame, Unboxed, ParsedRoutes, Encode, AnswerTo;
    queue', stage' := queue, stage;
    var p := v.phase.packet;
    if p.packetType != Keepalive {
      var v' := Tabled(v, id, p);
      var reply := ReplyTo(v', id, p);
      ReplyIsAnswer(v, id, ss.waiting.value);
      if reply.Ok? {
        var next := if IsControl(p, Disconnect) then Leaving(id) else Idle;
        stage' := ReplyKeepsAligned(c, v', ss, id, reply.value, nonce, room, next, queue);
      } else {
        queue', stage' := [], Nowhere;
      }
    }
  }

  lemma FinishKeepsAligned(c: Cipher, v: State, ss: Session, id: ClientId, queue: seq<seq<byte>>, stage: Stage)
    returns (queue': seq<seq<byte>>, stage': Stage)
    requires PartAligned(c, v, ss, id, queue, stage) && (v.phase.Leaving? || v.phase.Failing?)
    ensures PartAligned(c, Finished(v, id), ss, id, queue', stage')
    ensures v.phase.Failing? && !IsFatalError(v.phase.error) ==> queue' == queue && stage' == stage
  {
    queue', stage' := queue, stage;
    if v.phase.Leaving? || IsFatalError(v.phase.error) {
      queue', stage' := [], Abandoned(stage);
    }
  }

  lemma OwnEventKeepsAligned(c: Cipher, v: State, ss: Session, e: Event, id: ClientId, queue: seq<seq<byte>>,
          stage: Stage)
    returns (queue': seq<seq<byte>>, stage': Stage)
    requires Enabled(v, e) && Concerns(e, id) && !e.Accept? && !e.Arrive?
    requires e.PollClient? && id in v.registry.clients ==> WholePoll(v.registry.clients[id].inbox, e.peekOk)
    requires PartAligned(c, v, ss, id, queue, stage)
    ensures PartAligned(c, Step(c, v, e), ss, id, queue', stage')
  {
    queue', stage' := queue, stage;
    match e {
      case PollClient(_, peekOk) => queue', stage' := PollKeepsAligned(c, v, ss, id, peekOk, queue, stage);
      case Dispatch(_, nonce, room) => queue', stage' := DispatchKeepsAligned(c, v, ss, id, nonce, room, queue, stage);
      case Finish(_) => queue', stage' := FinishKeepsAligned(c, v, ss, id, queue, stage);
      case StaleRemove(_) => queue', stage' := [], Abandoned(stage);
      case _ =>
    }
  }

  lemma OthersKeepAligned(c: Cipher, ss: Session, e: Event, id: ClientId, queue: seq<seq<byte>>, stage: Stage)
    requires Enabled(ss.server, e) && !Concerns(e, id) && Aligned(c, ss, id, queue, stage)
    ensures Aligned(c, ss.(server := Step(c, ss.server, e)), id, queue, stage)
  {
    hide Step, Project;
    OthersStep(c, ss.server, e, id);
  }

  lemma ServerKeepsAligned(c: Cipher, ss: Session, e: SessionEvent, id: ClientId, queue: seq<seq<byte>>, stage: Stage)
    returns (queue': seq<seq<byte>>, stage': Stage)
    requires e.Server? && SessionEnabled(ss, e, id) && Aligned(c, ss, id, queue, stage)
    ensures Aligned(c, SessionStep(c, ss, e, id), id, queue', stage')
  {
    var v := Project(ss.server, id);
    if Concerns(e.event, id) {
      OwnStep(c, ss.server, e.event, id);
      queue', stage' := OwnEventKeepsAligned(c, v, ss, e.event, id, queue, stage);
    } else {
      OthersKeepAligned(c, ss, e.event, id, queue, stage);
      queue', stage' := queue, stage;
    }
  }

  lemma {:induction false} SessionKeepsAligned(c: Cipher, ss: Session, es: seq<SessionEvent>, id: ClientId,
          queue: seq<seq<byte>>, stage: Stage)
    returns (queue': seq<seq<byte>>, stage': Stage)
    requires SessionRun(c, ss, es, id) && Aligned(c, ss, id, queue, stage)
    ensures Aligned(c, SessionEnd(c, ss, es, id), id, queue', stage')
    decreases es
  {
    queue', stage' := queue, stage;
    if es != [] {
      match es[0] {
        case Request(_, _) => queue', stage' := RequestKeepsAligned(c, ss, es[0], id, queue, stage);
        case SendKeepalive(_) => queue' := KeepaliveKeepsAligned(c, ss, es[0], id, queue, stage);
        case Deliver(_) => DeliverKeepsAligned(c, ss, es[0], id, queue, stage);
        case Response => ResponseKeepsAligned(c, ss, es[0], id, queue, stage); stage' := Nowhere;
        case Server(_) => queue', stage' := ServerKeepsAligned(c, ss, es[0], id, queue, stage);
      }
      queue', stage' := SessionKeepsAligned(c, SessionStep(c, ss, es[0], id), es[1..], id, queue', stage');
    }
  }

  /** The packet is answered with a protocol error, which costs its sender the registration. */
  predicate Refused(p: VpnPacket) {
    p.packetType != Keepalive && AnswerTo(p).None?
  }

  /** The server will come to read the client's stream: the client is registered, the monitor has not
      listed it, and the worker is neither lost nor about to drop it. */
  predicate CanServe(s: State, id: ClientId) {
    && id in s.registry.clients && id !in s.doomed
    && match s.phase
       case Idle => true
       case Received(owner, p) => owner == id ==> !Refused(p)
       case Failing(owner, e) => owner == id ==> !IsFatalError(e)
       case Leaving(owner) => owner != id
       case Crashed(_) => false
  }

  lemma CanServeOfPart(s: State, id: ClientId)
    ensures CanServe(s, id) <==> !s.phase.Crashed? && CanServe(Project(s, id), id)
  {
  }

  // ---- A client that is not served any more

  /** It is not written to either, and stays lost. */
  lemma LostStep(c: Cipher, s: State, e: Event, id: ClientId)
    requires Enabled(s, e) && !CanServe(s, id) && (e.Accept? ==> e.id != id)
    ensures !CanServe(Step(c, s, e), id)
    ensures WireOf(Step(c, s, e).registry, id) == WireOf(s.registry, id)
    ensures Step(c, s, e).phase == Crashed(id) ==> s.phase == Crashed(id)
  {
    hide Dispatched, AfterPoll;
    Eviction.StepCrashes(c, s, e);
    if Concerns(e, id) {
      match e {
        case PollClient(_, peekOk) => LostPoll(c, s, id, peekOk);
        case Dispatch(_, nonce, room) => LostDispatch(c, s, id, nonce, room);
        case _ =>
      }
    } else {
      OthersStep(c, s, e, id);
      CanServeOfPart(s, id);
      CanServeOfPart(Step(c, s, e), id);
      assert WireOf(Project(Step(c, s, e), id).registry, id) == WireOf(Project(s, id).registry, id);
    }
  }

  lemma LostPoll(c: Cipher, s: State, id: ClientId, peekOk: bool)
    requires Enabled(s, PollClient(id, peekOk)) && !CanServe(s, id)
    ensures AfterPoll(c, s, id, peekOk).phase == Failing(id, ClientNotFound)
    ensures AfterPoll(c, s, id, peekOk).registry == s.registry
  {
  }

  lemma LostDispatch(c: Cipher, s: State, id: ClientId, nonce: Nonce, room: nat)
    requires Enabled(s, Dispatch(id, nonce, room)) && !CanServe(s, id)
    ensures !CanServe(Dispatched(c, s, id, s.phase.packet, nonce, room), id)
    ensures Dispatched(c, s, id, s.phase.packet, nonce, room).registry == s.registry
  {
    var p := s.phase.packet;
    var s' := Tabled(s, id, p);
    var reply := ReplyTo(s', id, p);
    if p.packetType != Keepalive && reply.Ok? {
      ReplyOutcome(c, s', id, reply.value, nonce, room, if IsControl(p, Disconnect) then Leaving(id) else Idle);
    }
  }

  /** The client is lost and has nothing to read. */
  predicate Forsaken(ss: Session, id: ClientId) {
    !CanServe(ss.server, id) && ClientRead(WireFrom(ss.server.registry, id, ss.taken)) == Err(Io)
  }

  lemma {:induction false} StaysForsaken(c: Cipher, ss: Session, es: seq<SessionEvent>, id: ClientId)
    requires SessionRun(c, ss, es, id) && Forsaken(ss, id)
    ensures Forsaken(SessionEnd(c, ss, es, id), id)
    ensures SessionEnd(c, ss, es, id).exchanges == ss.exchanges
    ensures SessionEnd(c, ss, es, id).server.phase == Crashed(id) ==> ss.server.phase == Crashed(id)
    decreases es
  {
    hide CanServe, Step, ClientRead;
    if es != [] {
      match es[0] {
        case Deliver(count) => LostStep(c, ss.server, Arrive(id, ss.flight[..count]), id);
        case Server(e) => LostStep(c, ss.server, e, id);
        case _ =>
      }
      StaysForsaken(c, SessionStep(c, ss, es[0], id), es[1..], id);
    }
  }

  function Opening(c: Cipher, s: State, id: ClientId): Session {
    Session(Step(c, s, Accept(id)), [], 0, None, [])
  }

  // ---- Every request gets its own answer, unless the worker holds one of an earlier connection

  /** When a connection is accepted at this address, the worker holds a packet of an earlier one, and
      will answer it. */
  predicate HoldsEarlierRequest(s: State, id: ClientId) {
    s.phase.Received? && s.phase.id == id && AnswerTo(s.phase.packet).Some? && id !in s.doomed
  }

  lemma OpeningAligned(c: Cipher, s: State, id: ClientId)
    requires Replies.OneConfig(s) && !HoldsEarlierRequest(s, id)
    ensures Forsaken(Opening(c, s, id), id) || Aligned(c, Opening(c, s, id), id, [], Nowhere)
  {
    hide AnswerTo;
  }

  /** Every session is aligned, or lost from the beginning. */
  lemma SessionSettles(c: Cipher, before: seq<Event>, id: ClientId, es: seq<SessionEvent>)
    returns (queue: seq<seq<byte>>, stage: Stage)
    requires ValidRun(c, Init(), before) && !HoldsEarlierRequest(Run(c, Init(), before), id)
    requires SessionRun(c, Opening(c, Run(c, Init(), before), id), es, id)
    ensures var s := Run(c, Init(), before);
            var ss := SessionEnd(c, Opening(c, s, id), es, id);
            || Aligned(c, ss, id, queue, stage)
            || (&& Forsaken(ss, id) && ss.exchanges == []
                && (ss.server.phase == Crashed(id) ==> s.phase == Crashed(id)))
  {
    hide Run, ValidRun, Aligned, Forsaken, HoldsEarlierRequest;
    queue, stage := [], Nowhere;
    var s := Run(c, Init(), before);
    Replies.RunKeepsAnswerable(c, Init(), before);
    OpeningAligned(c, s, id);
    if Forsaken(Opening(c, s, id), id) {
      StaysForsaken(c, Opening(c, s, id), es, id);
    } else {
      queue, stage := SessionKeepsAligned(c, Opening(c, s, id), es, id, [], Nowhere);
    }
  }

  /** However the steps of this client, its keepalive thread, the network, the server and all other
      clients interleave: every request that is answered gets the answer to itself, and no packet of
      this connection aborts the worker. */
  lemma RepliesMatchRequests(c: Cipher, before: seq<Event>, id: ClientId, es: seq<SessionEvent>)
    requires ValidRun(c, Init(), before) && !HoldsEarlierRequest(Run(c, Init(), before), id)
    requires SessionRun(c, Opening(c, Run(c, Init(), before), id), es, id)
    ensures var s := Run(c, Init(), before);
            var ss := SessionEnd(c, Opening(c, s, id), es, id);
            && RightAnswers(ss.exchanges)
            && (ss.server.phase == Crashed(id) ==> s.phase == Crashed(id))
  {
    hide Run, ValidRun, AnswerTo, QueueIs, UnheardIs;
    var _, _ := SessionSettles(c, before, id, es);
  }

  lemma SessionCons(c: Cipher, ss: Session, e: SessionEvent, rest: seq<SessionEvent>, id: ClientId)
    requires SessionEnabled(ss, e, id) && SessionRun(c, SessionStep(c, ss, e, id), rest, id)
    ensures SessionRun(c, ss, [e] + rest, id)
    ensures SessionEnd(c, ss, [e] + rest, id) == SessionEnd(c, SessionStep(c, ss, e, id), rest, id)
  {
  }

  /** Handling a packet for a connection nothing was written to yet writes the answer to it. */
  lemma DispatchedAnswer(c: Cipher, s: State, id: ClientId, p: VpnPacket, replyNonce: Nonce)
    requires s.phase == Received(id, Normal(p)) && id in s.registry.clients && WireOf(s.registry, id) == []
    requires Replies.OneConfig(s) && AnswerTo(p).Some? && |p.payload| + BOX_OVERHEAD <= MAX_BODY
    ensures var wire := WireOf(Dispatched(c, s, id, Normal(p), replyNonce, Replies.MAX_FRAME).registry, id);
            ClientRead(wire).Ok? && Unboxed(c, ClientRead(wire).value) == Ok(AnswerTo(p).value)
  {
    hide Unboxed, Frame, AnswerTo, ParsedRoutes;
    var s' := Tabled(s, id, Normal(p));
    ReplyIsAnswer(s, id, p);
    var reply := AnswerTo(p).value;
    ReplyOutcome(c, s', id, reply, replyNonce, Replies.MAX_FRAME,
                 if IsControl(Normal(p), Disconnect) then Leaving(id) else Idle);
    BoxRoundTrip(c, replyNonce, reply);
    var box := Boxed(c, replyNonce, reply).value;
    assert Frame(box)[..|Frame(box)|] == Frame(box) && [] + Frame(box) == Frame(box) + [];
    ClientReadsFrame(box, []);
  }

  /** The server has written nothing to this connection and holds a packet of the earlier one. */
  predicate HeldFor(ss: Session, id: ClientId, first: VpnPacket) {
    && ss.server.phase == Received(id, first) && id in ss.server.registry.clients && id !in ss.server.doomed
    && WireOf(ss.server.registry, id) == [] && ss.taken == 0 && Replies.Answerable(ss.server)
  }

  lemma {:induction false} HeldAnswerIsRead(c: Cipher, ss: Session, id: ClientId, first: VpnPacket, replyNonce: Nonce)
    returns (es: seq<SessionEvent>)
    requires HeldFor(ss, id, first) && AnswerTo(first).Some? && ss.waiting.Some?
    ensures SessionRun(c, ss, es, id)
    ensures SessionEnd(c, ss, es, id).exchanges ==
            ss.exchanges + [Exchange(ss.waiting.value, Ok(AnswerTo(first).value))]
    decreases |ss.server.doomed|
  {
    hide Unboxed, AnswerTo, Dispatched, ClientRead, ClientUnread;
    if ss.server.doomed == {} {
      var dispatch := Server(Dispatch(id, replyNonce, Replies.MAX_FRAME));
      DispatchedAnswer(c, ss.server, id, first, replyNonce);
      SessionCons(c, SessionStep(c, ss, dispatch, id), Response, [], id);
      SessionCons(c, ss, dispatch, [Response] + [], id);
      es := [dispatch] + ([Response] + []);
    } else {
      var x :| x in ss.server.doomed;
      es := HeldAnswerIsRead(c, SessionStep(c, ss, Server(StaleRemove(x)), id), id, first, replyNonce);
      SessionCons(c, ss, Server(StaleRemove(x)), es, id);
      es := [Server(StaleRemove(x))] + es;
    }
  }

  /** `write_packet` finds the stream by the address, so the answer goes to whoever is connected there:
      any request of the new connection can get it. */
  lemma EarlierRequestAnswered(c: Cipher, before: seq<Event>, id: ClientId, second: VpnPacket, nonce: Nonce,
          replyNonce: Nonce)
    returns (es: seq<SessionEvent>)
    requires ValidRun(c, Init(), before) && HoldsEarlierRequest(Run(c, Init(), before), id)
    requires |second.payload| + BOX_OVERHEAD < TWO_TO_THE_32
    ensures var s := Run(c, Init(), before);
            && SessionRun(c, Opening(c, s, id), es, id)
            && SessionEnd(c, Opening(c, s, id), es, id).exchanges
            == [Exchange(second, Ok(AnswerTo(s.phase.packet).value))]
  {
    hide AnswerTo, Run, ValidRun, Frame, BoxOf;
    var s := Run(c, Init(), before);
    Replies.RunKeepsAnswerable(c, Init(), before);
    var request := Request(second, nonce);
    es := HeldAnswerIsRead(c, SessionStep(c, Opening(c, s, id), request, id), id, s.phase.packet, replyNonce);
    SessionCons(c, Opening(c, s, id), request, es, id);
    es := [request] + es;
  }

  /** The worker can hold any packet that fits a frame when the address is accepted again. */
  lemma PacketHeld(c: Cipher, id: ClientId, first: VpnPacket, nonce: Nonce) returns (before: seq<Event>)
    requires |first.payload| + BOX_OVERHEAD <= MAX_BODY
    ensures ValidRun(c, Init(), before)
    ensures Run(c, Init(), before).phase == Received(id, Normal(first)) && Run(c, Init(), before).doomed == {}
  {
    hide Unboxed, Frame, BoxOf, Poll, Unread;
    var box := BoxOf(c, nonce, first);
    NewBox(c, nonce, first);
    var arrive, poll := Arrive(id, Frame(box)), PollClient(id, true);
    var s1 := Step(c, Init(), Accept(id));
    var s2 := Step(c, s1, arrive);
    assert [] + Frame(box) == Frame(box) && Frame(box) + [] == Frame(box);
    HeadPoll(Frame(box), [], box, []);
    ReadBox(c, s2, id, box);
    RunCons(c, s2, poll, []);
    RunCons(c, s1, arrive, [poll] + []);
    RunCons(c, Init(), Accept(id), [arrive] + ([poll] + []));
    before := [Accept(id)] + ([arrive] + ([poll] + []));
  }

  lemma AnswerToNormal(p: VpnPacket)
    ensures AnswerTo(Normal(p)) == AnswerTo(p)
  {
  }

  /** So for any two packets there is a run in which a connection asks the one and reads the answer to
      the other, which an earlier connection at its address had sent. */
  lemma WrongAnswerReachable(c: Cipher, id: ClientId, first: VpnPacket, second: VpnPacket, nonce1: Nonce, nonce2: Nonce,
          replyNonce: Nonce)
    returns (before: seq<Event>, es: seq<SessionEvent>)
    requires AnswerTo(first).Some? && |first.payload| + BOX_OVERHEAD <= MAX_BODY
    requires |second.payload| + BOX_OVERHEAD < TWO_TO_THE_32
    ensures ValidRun(c, Init(), before) && SessionRun(c, Opening(c, Run(c, Init(), before), id), es, id)
    ensures SessionEnd(c, Opening(c, Run(c, Init(), before), id), es, id).exchanges ==
            [Exchange(second, Ok(AnswerTo(first).value))]
  {
    hide AnswerTo, Run, ValidRun;
    before := PacketHeld(c, id, first, nonce1);
    AnswerToNormal(first);
    es := EarlierRequestAnswered(c, before, id, second, nonce2, replyNonce);
  }

  /** Exactly when the worker holds no such packet, every session gives every request its own answer. */
  lemma RepliesMatchRequestsIff(c: Cipher, before: seq<Event>, id: ClientId)
    requires ValidRun(c, Init(), before)
    ensures var s := Run(c, Init(), before);
            (forall es :: SessionRun(c, Opening(c, s, id), es, id) ==>
                            RightAnswers(SessionEnd(c, Opening(c, s, id), es, id).exchanges))
            <==> !HoldsEarlierRequest(s, id)
  {
    hide Run, ValidRun, HoldsEarlierRequest;
    var s := Run(c, Init(), before);
    if HoldsEarlierRequest(s, id) {
      var nonce: Nonce :| true;
      var es := EarlierRequestAnswered(c, before, id, NewKeepalive(), nonce, nonce);
      assert Exchange(NewKeepalive(), SessionEnd(c, Opening(c, s, id), es, id).exchanges[0].answer)
          in SessionEnd(c, Opening(c, s, id), es, id).exchanges;
    } else {
      forall es | SessionRun(c, Opening(c, s, id), es, id)
        ensures RightAnswers(SessionEnd(c, Opening(c, s, id), es, id).exchanges)
      {
        RepliesMatchRequests(c, before, id, es);
      }
    }
  }

  // ---- A request can be answered

  lemma WrittenIsRead(c: Cipher, ss: Session, id: ClientId, queue: seq<seq<byte>>, stage: Stage)
    returns (es: seq<SessionEvent>)
    requires Aligned(c, ss, id, queue, stage) && stage.Written?
    ensures SessionRun(c, ss, es, id)
    ensures SessionEnd(c, ss, es, id).exchanges ==
            ss.exchanges + [Exchange(ss.waiting.value, Ok(AnswerTo(ss.waiting.value).value))]
  {
    assert Frame(stage.box) + [] == Frame(stage.box);
    ClientReadsFrame(stage.box, []);
    SessionCons(c, ss, Response, [], id);
    es := [Response] + [];
  }

  lemma ServedIsRead(c: Cipher, ss: Session, id: ClientId, queue: seq<seq<byte>>, nonce: Nonce)
    returns (es: seq<SessionEvent>)
    requires Aligned(c, ss, id, queue, Serving) && AnswerTo(ss.waiting.value).Some?
    requires ss.server.doomed == {} && id in ss.server.registry.clients
    ensures SessionRun(c, ss, es, id)
    ensures SessionEnd(c, ss, es, id).exchanges ==
            ss.exchanges + [Exchange(ss.waiting.value, Ok(AnswerTo(ss.waiting.value).value))]
  {
    var dispatch := Dispatch(id, nonce, Replies.MAX_FRAME);
    var v := Project(ss.server, id);
    OwnStep(c, ss.server, dispatch, id);
    var queue', stage := DispatchKeepsAligned(c, v, ss, id, nonce, Replies.MAX_FRAME, queue, Serving);
    es := WrittenIsRead(c, SessionStep(c, ss, Server(dispatch), id), id, queue', stage);
    SessionCons(c, ss, Server(dispatch), es, id);
    es := [Server(dispatch)] + es;
  }

  /** The worker is between two turns and the client still registered. */
  predicate Ready(s: State, id: ClientId) {
    s.phase == Idle && s.doomed == {} && id in s.registry.clients
  }

  /** The worker reads the box at the head of a stream that has arrived in full. */
  lemma HeadIsPolled(c: Cipher, ss: Session, id: ClientId, queue: seq<seq<byte>>, stage: Stage)
    requires queue != [] && Aligned(c, ss, id, queue, stage) && |queue[0]| <= MAX_BODY
    requires ss.flight == [] && Ready(ss.server, id)
    ensures SessionEnabled(ss, Server(PollClient(id, true)), id)
    ensures var s' := Step(c, ss.server, PollClient(id, true));
            && Aligned(c, ss.(server := s'), id, queue[1..], Ahead(stage))
            && s'.phase.Received? && s'.phase.id == id && s'.doomed == {} && id in s'.registry.clients
  {
    hide Unboxed, Unread, AnswerTo, Dispatched, Frame, Poll, UnheardIs, ClientRead;
    var v := Project(ss.server, id);
    var inbox := ss.server.registry.clients[id].inbox;
    assert inbox + [] == inbox;
    HeadPoll(inbox, [], queue[0], Encode(queue[1..]));
    OwnStep(c, ss.server, PollClient(id, true), id);
    var queue', stage' := BusyPollKeepsAligned(c, v, ss, id, queue, stage);
  }

  lemma HeadFits(c: Cipher, ss: Session, id: ClientId, queue: seq<seq<byte>>)
    requires queue != [] && Aligned(c, ss, id, queue, Asked(|queue| - 1)) && AnswerTo(ss.waiting.value).Some?
    requires |queue[|queue| - 1]| <= MAX_BODY
    ensures ss.waiting.Some? && |queue[0]| <= MAX_BODY
  {
  }

  /** The worker gets through the keepalives that lie before the request. */
  lemma {:induction false} QueueIsRead(c: Cipher, ss: Session, id: ClientId, queue: seq<seq<byte>>, nonce: Nonce)
    returns (es: seq<SessionEvent>)
    requires queue != [] && Aligned(c, ss, id, queue, Asked(|queue| - 1)) && AnswerTo(ss.waiting.value).Some?
    requires ss.flight == [] && |queue[|queue| - 1]| <= MAX_BODY && Ready(ss.server, id)
    ensures SessionRun(c, ss, es, id)
    ensures SessionEnd(c, ss, es, id).exchanges ==
            ss.exchanges + [Exchange(ss.waiting.value, Ok(AnswerTo(ss.waiting.value).value))]
    decreases |queue|, 0
  {
    hide Aligned, AnswerTo, Step;
    var poll := PollClient(id, true);
    HeadFits(c, ss, id, queue);
    HeadIsPolled(c, ss, id, queue, Asked(|queue| - 1));
    var ss1 := SessionStep(c, ss, Server(poll), id);
    if |queue| == 1 {
      es := ServedIsRead(c, ss1, id, queue[1..], nonce);
    } else {
      es := KeepaliveThenQueue(c, ss1, id, queue[1..], nonce);
    }
    SessionCons(c, ss, Server(poll), es, id);
    es := [Server(poll)] + es;
  }

  lemma {:induction false} KeepaliveThenQueue(c: Cipher, ss: Session, id: ClientId, queue: seq<seq<byte>>,
          nonce: Nonce)
    returns (es: seq<SessionEvent>)
    requires queue != [] && Aligned(c, ss, id, queue, Asked(|queue| - 1)) && AnswerTo(ss.waiting.value).Some?
    requires ss.flight == [] && |queue[|queue| - 1]| <= MAX_BODY
    requires ss.server.phase.Received? && ss.server.phase.id == id && ss.server.doomed == {}
    requires id in ss.server.registry.clients
    ensures SessionRun(c, ss, es, id)
    ensures SessionEnd(c, ss, es, id).exchanges ==
            ss.exchanges + [Exchange(ss.waiting.value, Ok(AnswerTo(ss.waiting.value).value))]
    decreases |queue|, 1
  {
    hide Unboxed, Unread, AnswerTo, Frame, Poll, Encode;
    var dispatch, v := Dispatch(id, nonce, Replies.MAX_FRAME), Project(ss.server, id);
    OwnStep(c, ss.server, dispatch, id);
    var queue', stage := DispatchKeepsAligned(c, v, ss, id, nonce, Replies.MAX_FRAME, queue, Asked(|queue| - 1));
    es := QueueIsRead(c, SessionStep(c, ss, Server(dispatch), id), id, queue, nonce);
    SessionCons(c, ss, Server(dispatch), es, id);
    es := [Server(dispatch)] + es;
  }

  lemma SentIsRead(c: Cipher, ss: Session, id: ClientId, queue: seq<seq<byte>>, nonce: Nonce)
    returns (es: seq<SessionEvent>)
    requires queue != [] && Aligned(c, ss, id, queue, Asked(|queue| - 1)) && AnswerTo(ss.waiting.value).Some?
    requires |queue[|queue| - 1]| <= MAX_BODY && Ready(ss.server, id)
    ensures SessionRun(c, ss, es, id)
    ensures SessionEnd(c, ss, es, id).exchanges ==
            ss.exchanges + [Exchange(ss.waiting.value, Ok(AnswerTo(ss.waiting.value).value))]
  {
    hide Unboxed, AnswerTo, ClientRead, Frame;
    var deliver := Deliver(|ss.flight|);
    DeliverKeepsAligned(c, ss, deliver, id, queue, Asked(|queue| - 1));
    es := QueueIsRead(c, SessionStep(c, ss, deliver, id), id, queue, nonce);
    SessionCons(c, ss, deliver, es, id);
    es := [deliver] + es;
  }

  function Pending(phase: Phase): nat {
    if phase.Received? then 2 else if phase.Idle? then 0 else 1
  }

  lemma OwnReadyingStep(c: Cipher, ss: Session, id: ClientId, queue: seq<seq<byte>>, nonce: Nonce, e: Event)
    requires Aligned(c, ss, id, queue, Nowhere) && CanServe(ss.server, id)
    requires ss.server.doomed == {} && !ss.server.phase.Idle? && ss.server.phase.id == id
    requires e == if ss.server.phase.Received? then Dispatch(id, nonce, Replies.MAX_FRAME) else Finish(id)
    ensures Enabled(ss.server, e)
    ensures Aligned(c, ss.(server := Step(c, ss.server, e)), id, queue, Nowhere)
    ensures CanServe(Step(c, ss.server, e), id)
  {
    hide Service.Replied, Frame, Unboxed, ParsedRoutes, Encode, AnswerTo;
    var v := Project(ss.server, id);
    OwnStep(c, ss.server, e, id);
    if v.phase.Received? {
      var queue', stage := DispatchKeepsAligned(c, v, ss, id, nonce, Replies.MAX_FRAME, queue, Nowhere);
    } else {
      var queue', stage := FinishKeepsAligned(c, v, ss, id, queue, Nowhere);
    }
  }

  lemma OthersReadyingStep(c: Cipher, ss: Session, id: ClientId, queue: seq<seq<byte>>, e: Event)
    requires Aligned(c, ss, id, queue, Nowhere) && CanServe(ss.server, id)
    requires Enabled(ss.server, e) && !Concerns(e, id) && !e.PollClient?
    ensures Aligned(c, ss.(server := Step(c, ss.server, e)), id, queue, Nowhere)
    ensures CanServe(Step(c, ss.server, e), id)
  {
    hide Aligned, CanServe, Step, Eviction.CrashingInbox;
    OthersStep(c, ss.server, e, id);
    OthersKeepAligned(c, ss, e, id, queue, Nowhere);
    Eviction.StepCrashes(c, ss.server, e);
    CanServeOfPart(ss.server, id);
    CanServeOfPart(Step(c, ss.server, e), id);
  }

  /** What brings the server closer to its next turn: the monitor's next removal, or the rest of the
      turn the worker is in. */
  lemma ReadyingStep(c: Cipher, ss: Session, id: ClientId, queue: seq<seq<byte>>, nonce: Nonce) returns (e: Event)
    requires Aligned(c, ss, id, queue, Nowhere) && CanServe(ss.server, id) && !Ready(ss.server, id)
    ensures SessionEnabled(ss, Server(e), id)
    ensures var s, ss' := ss.server, SessionStep(c, ss, Server(e), id);
            && Aligned(c, ss', id, queue, Nowhere) && CanServe(ss'.server, id)
            && (|| |ss'.server.doomed| < |s.doomed|
                || (ss'.server.doomed == s.doomed && Pending(ss'.server.phase) < Pending(s.phase)))
  {
    hide Aligned, Dispatched;
    var s := ss.server;
    if s.doomed != {} {
      var x :| x in s.doomed;
      e := StaleRemove(x);
      OthersReadyingStep(c, ss, id, queue, e);
    } else {
      e := if s.phase.Received? then Dispatch(s.phase.id, nonce, Replies.MAX_FRAME) else Finish(s.phase.id);
      if s.phase.Received? {
        PhaseAfterDispatch(c, s, s.phase.id, s.phase.packet, nonce, Replies.MAX_FRAME);
      }
      if s.phase.id == id {
        OwnReadyingStep(c, ss, id, queue, nonce, e);
      } else {
        OthersReadyingStep(c, ss, id, queue, e);
      }
    }
  }

  lemma {:induction false} MadeReady(c: Cipher, ss: Session, id: ClientId, queue: seq<seq<byte>>, nonce: Nonce)
    returns (es: seq<SessionEvent>)
    requires Aligned(c, ss, id, queue, Nowhere) && CanServe(ss.server, id)
    ensures SessionRun(c, ss, es, id)
    ensures var ss' := SessionEnd(c, ss, es, id);
            && Aligned(c, ss', id, queue, Nowhere) && Ready(ss'.server, id)
            && ss'.waiting == ss.waiting && ss'.exchanges == ss.exchanges
    decreases |ss.server.doomed|, Pending(ss.server.phase)
  {
    hide Aligned;
    es := [];
    if !Ready(ss.server, id) {
      var e := ReadyingStep(c, ss, id, queue, nonce);
      es := MadeReady(c, SessionStep(c, ss, Server(e), id), id, queue, nonce);
      SessionCons(c, ss, Server(e), es, id);
      es := [Server(e)] + es;
    }
  }

  lemma {:induction false} SessionConcatenates(c: Cipher, ss: Session, a: seq<SessionEvent>, b: seq<SessionEvent>,
          id: ClientId)
    requires SessionRun(c, ss, a, id) && SessionRun(c, SessionEnd(c, ss, a, id), b, id)
    ensures SessionRun(c, ss, a + b, id)
    ensures SessionEnd(c, ss, a + b, id) == SessionEnd(c, SessionEnd(c, ss, a, id), b, id)
    decreases a
  {
    hide SessionStep, SessionEnabled;
    if a == [] {
      assert a + b == b;
    } else {
      SessionConcatenates(c, SessionStep(c, ss, a[0], id), a[1..], b, id);
      SessionCons(c, ss, a[0], a[1..] + b, id);
      assert a + b == [a[0]] + (a[1..] + b);
    }
  }

  /** The run gives the client the answer to the packet, and nothing else. */
  predicate Answers(c: Cipher, ss: Session, es: seq<SessionEvent>, id: ClientId, p: VpnPacket)
    requires AnswerTo(p).Some?
  {
    SessionRun(c, ss, es, id) &&
    SessionEnd(c, ss, es, id).exchanges == ss.exchanges + [Exchange(p, Ok(AnswerTo(p).value))]
  }

  lemma ServedRequest(c: Cipher, ss: Session, id: ClientId, queue: seq<seq<byte>>, p: VpnPacket, nonce: Nonce)
    returns (es: seq<SessionEvent>)
    requires Aligned(c, ss, id, queue, Nowhere) && ss.waiting.None? && CanServe(ss.server, id)
    requires AnswerTo(p).Some? && |p.payload| + BOX_OVERHEAD <= MAX_BODY
    ensures Answers(c, ss, es, id, p)
  {
    hide Aligned, CanServe;
    var readying := MadeReady(c, ss, id, queue, nonce);
    var ss1 := SessionEnd(c, ss, readying, id);
    var request := Request(p, nonce);
    var queue', stage := RequestKeepsAligned(c, ss1, request, id, queue, Nowhere);
    NewBox(c, nonce, p);
    es := SentIsRead(c, SessionStep(c, ss1, request, id), id, queue', nonce);
    SessionCons(c, ss1, request, es, id);
    SessionConcatenates(c, ss, readying, [request] + es, id);
    es := readying + ([request] + es);
  }

  /** Nor is the claim empty. With no request outstanding, one that deserves an answer and fits a frame
      has a continuation in which it gets it, keepalives before it or not, if and only if the server
      will still come to read this client. */
  lemma RequestCanBeAnsweredIff(c: Cipher, before: seq<Event>, id: ClientId, es: seq<SessionEvent>, p: VpnPacket)
    requires ValidRun(c, Init(), before) && !HoldsEarlierRequest(Run(c, Init(), before), id)
    requires SessionRun(c, Opening(c, Run(c, Init(), before), id), es, id)
    requires SessionEnd(c, Opening(c, Run(c, Init(), before), id), es, id).waiting.None?
    requires AnswerTo(p).Some? && |p.payload| + BOX_OVERHEAD <= MAX_BODY
    ensures var ss := SessionEnd(c, Opening(c, Run(c, Init(), before), id), es, id);
            (exists more :: Answers(c, ss, more, id, p)) <==> CanServe(ss.server, id)
  {
    hide Run, ValidRun, HoldsEarlierRequest, AnswerTo;
    var ss := SessionEnd(c, Opening(c, Run(c, Init(), before), id), es, id);
    var queue, stage := SessionSettles(c, before, id, es);
    if CanServe(ss.server, id) {
      var nonce: Nonce :| true;
      var more := ServedRequest(c, ss, id, queue, p, nonce);
    } else {
      forall more | SessionRun(c, ss, more, id) ensures !Answers(c, ss, more, id, p) {
        StaysForsaken(c, ss, more, id);
      }
    }
  }

  // ---- The same exchange as one call of the client

  /** What happens between a request and the read of its answer. */
  predicate Between(es: seq<SessionEvent>) {
    forall e | e in es :: e.SendKeepalive? || e.Deliver? || e.Server?
  }

  lemma {:induction false} BetweenKeeps(c: Cipher, ss: Session, es: seq<SessionEvent>, id: ClientId)
    requires SessionRun(c, ss, es, id) && Between(es)
    ensures var ss' := SessionEnd(c, ss, es, id);
            ss'.waiting == ss.waiting && ss'.taken == ss.taken && ss'.exchanges == ss.exchanges
    decreases es
  {
    hide Step;
    if es != [] {
      assert es[0] in es && forall e | e in es[1..] :: e in es;
      BetweenKeeps(c, SessionStep(c, ss, es[0], id), es[1..], id);
    }
  }

  /** A request, what happens meanwhile, and the read of the answer can follow. */
  predicate CanExchange(c: Cipher, ss: Session, p: VpnPacket, nonce: Nonce, meanwhile: seq<SessionEvent>,
                        id: ClientId) {
    && SessionEnabled(ss, Request(p, nonce), id) && Between(meanwhile)
    && SessionRun(c, SessionStep(c, ss, Request(p, nonce), id), meanwhile, id)
    && SessionEnabled(SessionEnd(c, SessionStep(c, ss, Request(p, nonce), id), meanwhile, id), Response, id)
  }

  /** The session when the read of the answer begins. */
  function AtRead(c: Cipher, ss: Session, p: VpnPacket, nonce: Nonce, meanwhile: seq<SessionEvent>,
                 id: ClientId): Session
    requires CanExchange(c, ss, p, nonce, meanwhile, id)
  {
    SessionEnd(c, SessionStep(c, ss, Request(p, nonce), id), meanwhile, id)
  }

  /** A call of the client does its part of the exchange: it adds to its stream what the request adds to
      the bytes in flight, leaves unread what the read of the answer leaves, and nothing else differs. */
  predicate DoesItsPart(c: Cipher, ss: Session, p: VpnPacket, nonce: Nonce, meanwhile: seq<SessionEvent>,
                        id: ClientId, client: Client.ClientState, after: Client.ClientState)
    requires CanExchange(c, ss, p, nonce, meanwhile, id)
  {
    var answered := SessionStep(c, AtRead(c, ss, p, nonce, meanwhile, id), Response, id);
    && AnswerTo(p).Some?
    && answered.exchanges == ss.exchanges + [Exchange(p, Ok(AnswerTo(p).value))]
    && client.outgoing <= after.outgoing
    && SessionStep(c, ss, Request(p, nonce), id).flight == ss.flight + after.outgoing[|client.outgoing|..]
    && after.incoming == WireFrom(answered.server.registry, id, answered.taken)
  }

  lemma AnswerIsReturned(c: Cipher, asked: Session, id: ClientId, queue: seq<seq<byte>>, stage: Stage, p: VpnPacket,
          nonce: Nonce, client: Client.ClientState)
    requires Aligned(c, asked, id, queue, stage) && asked.waiting == Some(p) && SessionEnabled(asked, Response, id)
    requires |p.payload| + BOX_OVERHEAD < TWO_TO_THE_32 && client.incoming == []
    ensures var answered := SessionStep(c, asked, Response, id);
            var arriving := WireFrom(asked.server.registry, id, asked.taken);
            var call := Client.ExchangeCall(c, client, p, nonce, |Frame(BoxOf(c, nonce, p))|, arriving);
            && AnswerTo(p).Some? && call.result == Ok(AnswerTo(p).value)
            && answered.exchanges == asked.exchanges + [Exchange(p, call.result)]
            && call.after == client.(incoming := WireFrom(answered.server.registry, id, answered.taken),
                                     outgoing := client.outgoing + Frame(BoxOf(c, nonce, p)))
  {
    hide Unboxed, Frame, AnswerTo, QueueIs, PhaseIs;
    assert stage.Written?;
    SmallPacketsPack(c, nonce, p);
    var arriving := WireFrom(asked.server.registry, id, asked.taken);
    assert Frame(stage.box) + [] == Frame(stage.box) && [] + arriving == arriving;
    ClientReadsFrame(stage.box, []);
  }

  lemma ExchangeCallIsExchange(c: Cipher, before: seq<Event>, id: ClientId, es: seq<SessionEvent>, p: VpnPacket,
          nonce: Nonce, meanwhile: seq<SessionEvent>, client: Client.ClientState)
    requires ValidRun(c, Init(), before) && !HoldsEarlierRequest(Run(c, Init(), before), id)
    requires SessionRun(c, Opening(c, Run(c, Init(), before), id), es, id)
    requires var ss := SessionEnd(c, Opening(c, Run(c, Init(), before), id), es, id);
             && CanExchange(c, ss, p, nonce, meanwhile, id)
             && client.incoming == WireFrom(ss.server.registry, id, ss.taken)
    ensures var ss := SessionEnd(c, Opening(c, Run(c, Init(), before), id), es, id);
            var asked := AtRead(c, ss, p, nonce, meanwhile, id);
            var call := Client.ExchangeCall(c, client, p, nonce, |Frame(BoxOf(c, nonce, p))|,
                                            WireFrom(asked.server.registry, id, asked.taken));
            && DoesItsPart(c, ss, p, nonce, meanwhile, id, client, call.after)
            && call.result == Ok(AnswerTo(p).value)
            && call.after == client.(outgoing := call.after.outgoing, incoming := call.after.incoming)
  {
    hide Unboxed, Run, ValidRun, Frame, AnswerTo, QueueIs, PhaseIs, ClientRead, Client.ExchangeCall;
    hide HoldsEarlierRequest;
    var queue, stage := SessionSettles(c, before, id, es);
    var ss := SessionEnd(c, Opening(c, Run(c, Init(), before), id), es, id);
    if Forsaken(ss, id) {
      StaysForsaken(c, ss, [Request(p, nonce)] + meanwhile, id);
      assert false;
    }
    assert WireFrom(ss.server.registry, id, ss.taken) == [];
    queue, stage := RequestKeepsAligned(c, ss, Request(p, nonce), id, queue, stage);
    var ss1 := SessionStep(c, ss, Request(p, nonce), id);
    queue, stage := SessionKeepsAligned(c, ss1, meanwhile, id, queue, stage);
    BetweenKeeps(c, ss1, meanwhile, id);
    AnswerIsReturned(c, SessionEnd(c, ss1, meanwhile, id), id, queue, stage, p, nonce, client);
  }

  /** A request, what happens meanwhile, and the read of the answer are one call of `send_packet` on
      the bytes that were written to the client: it returns the answer to its packet and leaves what
      follows in the stream. */
  lemma SendCallIsExchange(c: Cipher, before: seq<Event>, id: ClientId, es: seq<SessionEvent>, p: VpnPacket,
          nonce: Nonce, meanwhile: seq<SessionEvent>, client: Client.ClientState)
    requires ValidRun(c, Init(), before) && !HoldsEarlierRequest(Run(c, Init(), before), id)
    requires SessionRun(c, Opening(c, Run(c, Init(), before), id), es, id)
    requires var ss := SessionEnd(c, Opening(c, Run(c, Init(), before), id), es, id);
             && CanExchange(c, ss, p, nonce, meanwhile, id)
             && client.connected && client.incoming == WireFrom(ss.server.registry, id, ss.taken)
    ensures var ss := SessionEnd(c, Opening(c, Run(c, Init(), before), id), es, id);
            var asked := AtRead(c, ss, p, nonce, meanwhile, id);
            var call := Client.SendCall(c, client, p, nonce, |Frame(BoxOf(c, nonce, p))|,
                                        WireFrom(asked.server.registry, id, asked.taken));
            && DoesItsPart(c, ss, p, nonce, meanwhile, id, client, call.after)
            && call.result == Ok(AnswerTo(p).value)
            && call.after.connected && call.after.keepalive == client.keepalive && call.after.config == client.config
  {
    hide Run, ValidRun, CanExchange, DoesItsPart, AnswerTo, BoxOf, Client.ExchangeCall, HoldsEarlierRequest;
    ExchangeCallIsExchange(c, before, id, es, p, nonce, meanwhile, client);
  }

  /** With a configuration request it is one handshake: it succeeds, and the client then is connected,
      has a keepalive thread and holds (1500, 30 s, 3). */
  lemma HandshakeIsExchange(c: Cipher, before: seq<Event>, id: ClientId, es: seq<SessionEvent>, nonce: Nonce,
          meanwhile: seq<SessionEvent>, client: Client.ClientState)
    requires ValidRun(c, Init(), before) && !HoldsEarlierRequest(Run(c, Init(), before), id)
    requires SessionRun(c, Opening(c, Run(c, Init(), before), id), es, id)
    requires var ss := SessionEnd(c, Opening(c, Run(c, Init(), before), id), es, id);
             && CanExchange(c, ss, NewControl(ConfigRequest), nonce, meanwhile, id)
             && client.incoming == WireFrom(ss.server.registry, id, ss.taken)
    ensures var p := NewControl(ConfigRequest);
            var ss := SessionEnd(c, Opening(c, Run(c, Init(), before), id), es, id);
            var asked := AtRead(c, ss, p, nonce, meanwhile, id);
            var call := Client.HandshakeCall(c, client, nonce, |Frame(BoxOf(c, nonce, p))|,
                                             WireFrom(asked.server.registry, id, asked.taken));
            && DoesItsPart(c, ss, p, nonce, meanwhile, id, client, call.after)
            && call.result == Ok(()) && call.after.connected && call.after.keepalive
            && call.after.config == VpnConfig(1500, Duration(30, 0), 3)
  {
    hide Run, ValidRun, CanExchange, BoxOf, Client.ExchangeCall, HoldsEarlierRequest;
    ExchangeCallIsExchange(c, before, id, es, NewControl(ConfigRequest), nonce, meanwhile, client);
    DefaultBytes();
    ConfigCodec(DefaultConfig(), []);
    assert ConfigBytes(DefaultConfig()) + [] == ConfigBytes(DefaultConfig());
  }

  function Keepalives(nonces: seq<Nonce>): (es: seq<SessionEvent>) {
    if nonces == [] then [] else [SendKeepalive(nonces[0])] + Keepalives(nonces[1..])
  }

  lemma {:induction false} KeepalivesSent(c: Cipher, ss: Session, id: ClientId, nonces: seq<Nonce>)
    ensures SessionRun(c, ss, Keepalives(nonces), id)
    ensures SessionEnd(c, ss, Keepalives(nonces), id) == ss.(flight := ss.flight + Client.Keepalives(c, nonces))
    decreases nonces
  {
    hide Frame, Boxed;
    if nonces == [] {
      assert ss.flight + [] == ss.flight;
    } else {
      var ss1 := SessionStep(c, ss, SendKeepalive(nonces[0]), id);
      SmallPacketsPack(c, nonces[0], NewKeepalive());
      KeepalivesSent(c, ss1, id, nonces[1..]);
      SessionCons(c, ss, SendKeepalive(nonces[0]), Keepalives(nonces[1..]), id);
      Associative(ss.flight, Client.KeepaliveFrame(c, nonces[0]), Client.Keepalives(c, nonces[1..]));
    }
  }

  /** The rounds of the keepalive thread put on the stream what the session's keepalives put in flight. */
  lemma RoundsAreKeepalives(c: Cipher, ss: Session, id: ClientId, nonces: seq<Nonce>, rooms: seq<nat>)
    requires |nonces| == |rooms| && forall i | 0 <= i < |rooms| :: rooms[i] >= 42
    ensures SessionRun(c, ss, Keepalives(nonces), id)
    ensures SessionEnd(c, ss, Keepalives(nonces), id)
         == ss.(flight := ss.flight + Client.KeepaliveOutput(c, nonces, rooms, |rooms|))
  {
    KeepalivesSent(c, ss, id, nonces);
    assert nonces[..|rooms|] == nonces && Client.Keepalives(c, nonces) + [] == Client.Keepalives(c, nonces);
  }

  /** Hence whoever completes the handshake holds the default configuration, whatever either side was
      constructed with. */
  lemma HandshakeYieldsDefault(c: Cipher, before: seq<Event>, id: ClientId, es: seq<SessionEvent>, x: Exchange)
    requires ValidRun(c, Init(), before) && !HoldsEarlierRequest(Run(c, Init(), before), id)
    requires SessionRun(c, Opening(c, Run(c, Init(), before), id), es, id)
    requires x in SessionEnd(c, Opening(c, Run(c, Init(), before), id), es, id).exchanges
    requires x.request == NewControl(ConfigRequest)
    ensures x.answer.Ok? && IsControl(x.answer.value, ConfigResponse)
    ensures x.answer.value.payload == [0, 0, 5, 220, 0, 0, 0, 30, 0, 0, 0, 3]
    ensures ConfigFrom(x.answer.value.payload) == Ok(VpnConfig(1500, Duration(30, 0), 3))
  {
    RepliesMatchRequests(c, before, id, es);
    DefaultBytes();
    ConfigCodec(DefaultConfig(), []);
    assert ConfigBytes(DefaultConfig()) + [] == ConfigBytes(DefaultConfig());
  }

  /** The same seen from the client object: reading whatever part of its stream has arrived, a handshake
      that succeeds sets the default configuration. */
  lemma HandshakeHoldsDefault(c: Cipher, es: seq<Event>, id: ClientId, s: Client.ClientState, nonce: Nonce, room: nat,
                              arriving: seq<byte>)
    requires ValidRun(c, Init(), es) && Replies.NoShortWrite(es, id)
    requires s.incoming + arriving <= WireOf(Run(c, Init(), es).registry, id)
    ensures var h := Client.HandshakeCall(c, s, nonce, room, arriving);
            h.result.Ok? ==>
              && h.after.connected && h.after.config.mtu == 1500
              && h.after.config.keepaliveInterval == Duration(30, 0) && h.after.config.reconnectAttempts == 3
  {
    hide Unboxed, Boxed, Run, ValidRun;
    var bodies := Replies.RepliesReadable(c, es, id);
    var available := s.incoming + arriving;
    Client.HandshakeIff(c, s, nonce, room, arriving);
    if ClientRead(available).Ok? {
      assert bodies != [] && Replies.GoodReply(c, bodies[0]);
      var frame := Frame(bodies[0]);
      if |available| < |frame| {
        assert available == frame[..|available|];
        PartialFrameUnreadable(bodies[0], available);
      } else {
        assert available == frame + available[|frame|..];
        ClientReadsFrame(bodies[0], available[|frame|..]);
        ConfigCodec(DefaultConfig(), []);
        assert ConfigBytes(DefaultConfig()) + [] == ConfigBytes(DefaultConfig());
      }
    }
  }
}
