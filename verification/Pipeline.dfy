/** A client that does not wait: requests may follow each other, as they do after a read that timed
    out. Answers then come in the order of the requests, whichever request is reading. */
module Pipeline {
  import opened Bytes
  import opened Outcomes
  import opened Encryption
  import opened Packets
  import opened Handler
  import opened Configuration
  import opened Routes
  import opened Framing
  import opened Service
  import opened NonInterference
  import opened Session
  import Client
  import Replies

  /** `sent` is all the client has written, its keepalives included, and `heard` all its reads gave.
      `owed` is what the worker held of an earlier connection at the address when this one was accepted. */
  datatype Pipe = Pipe(
    server: State,
    flight: seq<byte>,
    taken: nat,
    owed: seq<VpnPacket>,
    sent: seq<VpnPacket>,
    heard: seq<Outcome<VpnPacket>>)

  datatype PipeEvent =
    | Send(packet: VpnPacket, nonce: Nonce)
    | Carry(count: nat)
    | Receive
    | Serve(event: Event)

  /** Everything the server has to answer, in order. */
  function Due(pipe: Pipe): seq<VpnPacket> {
    pipe.owed + pipe.sent
  }

  /** As in the session, but requests are not held back, a read is left out when it times out before
      its frame, and this client's socket takes whole frames. */
  predicate PipeEnabled(pipe: Pipe, e: PipeEvent, id: ClientId) {
    match e
    case Send(p, _) => |p.payload| + BOX_OVERHEAD < TWO_TO_THE_32
    case Carry(count) => count <= |pipe.flight|
    case Receive => ClientRead(WireFrom(pipe.server.registry, id, pipe.taken)) != Err(Io)
    case Serve(event) =>
      && Enabled(pipe.server, event)
      && (event.Accept? || event.Arrive? ==> event.id != id)
      && (event.PollClient? && event.id == id && id in pipe.server.registry.clients ==>
            WholePoll(pipe.server.registry.clients[id].inbox, event.peekOk))
      && (event.Dispatch? && event.id == id ==> event.room >= Replies.MAX_FRAME)
  }

  function PipeStep(c: Cipher, pipe: Pipe, e: PipeEvent, id: ClientId): Pipe
    requires PipeEnabled(pipe, e, id)
  {
    match e
    case Send(p, nonce) => pipe.(flight := pipe.flight + Frame(BoxOf(c, nonce, p)), sent := pipe.sent + [p])
    case Carry(count) =>
      pipe.(server := Step(c, pipe.server, Arrive(id, pipe.flight[..count])), flight := pipe.flight[count..])
    case Receive =>
      var waiting := WireFrom(pipe.server.registry, id, pipe.taken);
      pipe.(taken := pipe.taken + |waiting| - |ClientUnread(waiting)|,
            heard := pipe.heard + [Answered(c, ClientRead(waiting))])
    case Serve(event) => pipe.(server := Step(c, pipe.server, event))
  }

  predicate PipeRun(c: Cipher, pipe: Pipe, es: seq<PipeEvent>, id: ClientId)
    decreases es
  {
    es == [] || (PipeEnabled(pipe, es[0], id) && PipeRun(c, PipeStep(c, pipe, es[0], id), es[1..], id))
  }

  function PipeEnd(c: Cipher, pipe: Pipe, es: seq<PipeEvent>, id: ClientId): Pipe
    requires PipeRun(c, pipe, es, id)
    decreases es
  {
    if es == [] then pipe else PipeEnd(c, PipeStep(c, pipe, es[0], id), es[1..], id)
  }

  function Deserved(p: VpnPacket): seq<Outcome<VpnPacket>> {
    if AnswerTo(p).Some? then [Ok(AnswerTo(p).value)] else []
  }

  /** The answers a sequence of packets deserves, in order. */
  function AllDeserved(ps: seq<VpnPacket>): seq<Outcome<VpnPacket>> {
    if ps == [] then [] else AllDeserved(ps[..|ps| - 1]) + Deserved(ps[|ps| - 1])
  }

  lemma {:induction false} DeservedGrows(ps: seq<VpnPacket>, n: nat)
    requires n <= |ps|
    ensures AllDeserved(ps[..n]) <= AllDeserved(ps)
    decreases |ps|
  {
    if n == |ps| {
      assert ps[..n] == ps;
    } else {
      DeservedGrows(ps[..|ps| - 1], n);
      assert ps[..|ps| - 1][..n] == ps[..n];
    }
  }

  lemma DeservedSnoc(ps: seq<VpnPacket>, p: VpnPacket)
    ensures AllDeserved(ps + [p]) == AllDeserved(ps) + Deserved(p)
  {
    assert (ps + [p])[..|ps|] == ps;
  }

  // ---- The invariant

  /** `bodies` are the frames written to the client: answers, in order, and the first of them heard. */
  predicate RepliesInOrder(c: Cipher, wire: seq<byte>, taken: nat, sent: seq<VpnPacket>,
                           heard: seq<Outcome<VpnPacket>>, bodies: seq<seq<byte>>) {
    && Encode(bodies) == wire
    && |heard| <= |bodies|
    && GoodAnswers(c, bodies, AllDeserved(sent))
    && heard <= AllDeserved(sent)
    && taken <= |wire|
    && wire[taken..] == Encode(bodies[|heard|..])
  }

  predicate GoodAnswers(c: Cipher, bodies: seq<seq<byte>>, deserved: seq<Outcome<VpnPacket>>) {
    && |bodies| <= |deserved|
    && forall i | 0 <= i < |bodies| :: |bodies[i]| <= MAX_BODY && Unboxed(c, bodies[i]) == deserved[i]
  }

  predicate Queued(c: Cipher, queue: seq<seq<byte>>, packets: seq<VpnPacket>) {
    && |queue| == |packets|
    && forall i | 0 <= i < |queue| :: |queue[i]| < TWO_TO_THE_32 && Unboxed(c, queue[i]) == Ok(Normal(packets[i]))
  }

  /** The server has handled the first `n` packets; the next is in its hands or still in the stream. */
  predicate Live(c: Cipher, v: State, flight: seq<byte>, sent: seq<VpnPacket>, id: ClientId, n: nat,
                 queue: seq<seq<byte>>) {
    && id in v.registry.clients
    && Replies.OneConfig(v)
    && v.registry.clients[id].inbox + flight == Encode(queue)
    && match v.phase
       case Idle => n <= |sent| && Queued(c, queue, sent[n..])
       case Failing(_, e) => !IsFatalError(e) && n <= |sent| && Queued(c, queue, sent[n..])
       case Received(_, p) =>
         && n < |sent| && Queued(c, queue, sent[n + 1..])
         && p == Normal(sent[n]) && |p.payload| + BOX_OVERHEAD <= MAX_BODY
       case _ => false
  }

  predicate InOrder(c: Cipher, pipe: Pipe, id: ClientId, bodies: seq<seq<byte>>, n: nat, queue: seq<seq<byte>>) {
    && RepliesInOrder(c, WireOf(pipe.server.registry, id), pipe.taken, Due(pipe), pipe.heard, bodies)
    && (CanServe(pipe.server, id) ==>
          && Live(c, Project(pipe.server, id), pipe.flight, Due(pipe), id, n, queue)
          && n <= |Due(pipe)| && |bodies| == |AllDeserved(Due(pipe)[..n])|)
  }

  lemma SendKeepsReplies(c: Cipher, wire: seq<byte>, taken: nat, sent: seq<VpnPacket>,
          heard: seq<Outcome<VpnPacket>>, bodies: seq<seq<byte>>, p: VpnPacket)
    requires RepliesInOrder(c, wire, taken, sent, heard, bodies)
    ensures RepliesInOrder(c, wire, taken, sent + [p], heard, bodies)
  {
    hide Encode, Unboxed, Deserved, AllDeserved;
    DeservedSnoc(sent, p);
  }

  lemma QueuedSnoc(c: Cipher, queue: seq<seq<byte>>, sent: seq<VpnPacket>, start: nat, p: VpnPacket, nonce: Nonce)
    requires start <= |sent| && Queued(c, queue, sent[start..]) && |p.payload| + BOX_OVERHEAD < TWO_TO_THE_32
    ensures Queued(c, queue + [BoxOf(c, nonce, p)], (sent + [p])[start..])
  {
    hide BoxOf, Unboxed;
    NewBox(c, nonce, p);
    assert (sent + [p])[start..] == sent[start..] + [p];
  }

  lemma SendKeepsLive(c: Cipher, v: State, flight: seq<byte>, sent: seq<VpnPacket>, id: ClientId, n: nat,
          queue: seq<seq<byte>>, p: VpnPacket, nonce: Nonce)
    requires |p.payload| + BOX_OVERHEAD < TWO_TO_THE_32 && Live(c, v, flight, sent, id, n, queue)
    ensures Live(c, v, flight + Frame(BoxOf(c, nonce, p)), sent + [p], id, n, queue + [BoxOf(c, nonce, p)])
    ensures (sent + [p])[..n] == sent[..n]
  {
    hide Frame, Unboxed, BoxOf, Encode, Queued;
    var box, inbox := BoxOf(c, nonce, p), v.registry.clients[id].inbox;
    EncodeSnoc(queue, box);
    Associative(inbox, flight, Frame(box));
    QueuedSnoc(c, queue, sent, if v.phase.Received? then n + 1 else n, p, nonce);
    assert (sent + [p])[..n] == sent[..n];
  }

  lemma SendKeepsOrder(c: Cipher, pipe: Pipe, e: PipeEvent, id: ClientId, bodies: seq<seq<byte>>, n: nat,
          queue: seq<seq<byte>>)
    returns (queue': seq<seq<byte>>)
    requires e.Send? && PipeEnabled(pipe, e, id) && InOrder(c, pipe, id, bodies, n, queue)
    ensures InOrder(c, PipeStep(c, pipe, e, id), id, bodies, n, queue')
  {
    hide Frame, BoxOf, RepliesInOrder, Live, CanServe, Project;
    assert pipe.owed + (pipe.sent + [e.packet]) == Due(pipe) + [e.packet];
    SendKeepsReplies(c, WireOf(pipe.server.registry, id), pipe.taken, Due(pipe), pipe.heard, bodies, e.packet);
    queue' := queue + [BoxOf(c, e.nonce, e.packet)];
    if CanServe(pipe.server, id) {
      SendKeepsLive(c, Project(pipe.server, id), pipe.flight, Due(pipe), id, n, queue, e.packet, e.nonce);
    }
  }

  lemma CarryKeepsOrder(c: Cipher, pipe: Pipe, e: PipeEvent, id: ClientId, bodies: seq<seq<byte>>, n: nat,
          queue: seq<seq<byte>>)
    requires e.Carry? && PipeEnabled(pipe, e, id) && InOrder(c, pipe, id, bodies, n, queue)
    ensures InOrder(c, PipeStep(c, pipe, e, id), id, bodies, n, queue)
  {
    hide Encode, Queued, AllDeserved, Unboxed;
    var bytes := pipe.flight[..e.count];
    OwnStep(c, pipe.server, Arrive(id, bytes), id);
    if id in pipe.server.registry.clients {
      var inbox := pipe.server.registry.clients[id].inbox;
      assert inbox + bytes + pipe.flight[e.count..] == inbox + pipe.flight;
    }
  }

  lemma HeadWaits(bodies: seq<seq<byte>>, k: nat)
    requires k <= |bodies| && ClientRead(Encode(bodies[k..])) != Err(Io)
    ensures k < |bodies| && Encode(bodies[k..]) == Frame(bodies[k]) + Encode(bodies[k + 1..])
  {
    if k < |bodies| {
      assert bodies[k..][1..] == bodies[k + 1..];
    }
  }

  /** The client reads the next answer off the stream. */
  lemma NextIsRead(c: Cipher, wire: seq<byte>, taken: nat, sent: seq<VpnPacket>, heard: seq<Outcome<VpnPacket>>,
          bodies: seq<seq<byte>>)
    requires RepliesInOrder(c, wire, taken, sent, heard, bodies) && ClientRead(wire[taken..]) != Err(Io)
    ensures var waiting := wire[taken..];
            RepliesInOrder(c, wire, taken + |waiting| - |ClientUnread(waiting)|, sent,
                           heard + [Answered(c, ClientRead(waiting))], bodies)
  {
    hide Unboxed, AllDeserved, Frame, Encode, ClientRead, ClientUnread;
    var k := |heard|;
    HeadWaits(bodies, k);
    var body, rest := bodies[k], Encode(bodies[k + 1..]);
    ClientReadsFrame(body, rest);
    FrameDropped(wire, taken, Frame(body), rest);
    assert heard + [Unboxed(c, body)] <= AllDeserved(sent);
  }

  lemma FrameDropped(wire: seq<byte>, taken: nat, frame: seq<byte>, rest: seq<byte>)
    requires taken <= |wire| && wire[taken..] == frame + rest
    ensures taken + |frame| <= |wire| && wire[taken + |frame|..] == rest
  {
    assert wire[taken + |frame|..] == wire[taken..][|frame|..];
  }

  lemma ReceiveKeepsOrder(c: Cipher, pipe: Pipe, e: PipeEvent, id: ClientId, bodies: seq<seq<byte>>, n: nat,
          queue: seq<seq<byte>>)
    requires e.Receive? && PipeEnabled(pipe, e, id) && InOrder(c, pipe, id, bodies, n, queue)
    ensures InOrder(c, PipeStep(c, pipe, e, id), id, bodies, n, queue)
  {
    hide ClientRead, ClientUnread, Answered, AllDeserved, CanServe, Project, Live;
    NextIsRead(c, WireOf(pipe.server.registry, id), pipe.taken, Due(pipe), pipe.heard, bodies);
  }

  // ---- The server's steps

  lemma PollKeepsLive(c: Cipher, v: State, flight: seq<byte>, sent: seq<VpnPacket>, id: ClientId, peekOk: bool,
          n: nat, queue: seq<seq<byte>>)
    returns (queue': seq<seq<byte>>)
    requires v.phase == Idle && Live(c, v, flight, sent, id, n, queue)
    requires WholePoll(v.registry.clients[id].inbox, peekOk)
    ensures var v' := AfterPoll(c, v, id, peekOk);
            && v'.registry.wire == v.registry.wire
            && (v'.phase == Failing(id, Protocol) || Live(c, v', flight, sent, id, n, queue'))
  {
    hide Unboxed, Frame;
    queue' := queue;
    var inbox := v.registry.clients[id].inbox;
    if peekOk && |inbox| >= PREFIX_LENGTH {
      assert queue != [];
      HeadPoll(inbox, flight, queue[0], Encode(queue[1..]));
      if |queue[0]| <= MAX_BODY {
        ReadBox(c, v, id, queue[0]);
        UnboxedReboxes(c, queue[0]);
        queue' := queue[1..];
        assert sent[n..][1..] == sent[n + 1..];
      }
    }
  }

  /** Handling the packet in hand writes its answer, if it deserves one, and either goes on with the
      next or is the last thing done for this client. */
  lemma DispatchKeepsLive(c: Cipher, v: State, flight: seq<byte>, sent: seq<VpnPacket>, id: ClientId,
          nonce: Nonce, room: nat, n: nat, queue: seq<seq<byte>>)
    returns (written: seq<seq<byte>>)
    requires v.phase.Received? && v.phase.id == id && Live(c, v, flight, sent, id, n, queue)
    requires room >= Replies.MAX_FRAME
    ensures var v', answer := Dispatched(c, v, id, v.phase.packet, nonce, room), AnswerTo(sent[n]);
            && (if answer.None? then written == [] && v'.registry.wire == v.registry.wire
                else
                  && |written| == 1 && |written[0]| <= MAX_BODY && Unboxed(c, written[0]) == Ok(answer.value)
                  && WireOf(v'.registry, id) == WireOf(v.registry, id) + Frame(written[0]))
            && (|| v'.phase == Leaving(id) || v'.phase == Failing(id, Protocol)
                || Live(c, v', flight, sent, id, n + 1, queue))
            && (answer.Some? && !IsControl(v.phase.packet, Disconnect) ==> v'.phase == Idle)
  {
    hide Service.Replied, Frame, Unboxed, ParsedRoutes, Encode, AnswerTo, Queued;
    written := [];
    var p := v.phase.packet;
    if p.packetType == Keepalive {
      KeepaliveUnanswered(sent[n]);
    } else {
      var v' := Tabled(v, id, p);
      ReplyIsAnswer(v, id, sent[n]);
      var reply := ReplyTo(v', id, p);
      if reply.Ok? {
        ReplyOutcome(c, v', id, reply.value, nonce, room, if IsControl(p, Disconnect) then Leaving(id) else Idle);
        BoxRoundTrip(c, nonce, reply.value);
        var box := Boxed(c, nonce, reply.value).value;
        assert Frame(box)[..|Frame(box)|] == Frame(box);
        written := [box];
      }
    }
  }

  lemma KeepaliveUnanswered(p: VpnPacket)
    requires p.packetType == Keepalive
    ensures AnswerTo(p).None?
  {
  }

  lemma WriteKeepsOrder(c: Cipher, wire: seq<byte>, wire': seq<byte>, taken: nat, sent: seq<VpnPacket>,
          heard: seq<Outcome<VpnPacket>>, bodies: seq<seq<byte>>, n: nat, written: seq<seq<byte>>)
    requires n < |sent| && RepliesInOrder(c, wire, taken, sent, heard, bodies) && |bodies| == |AllDeserved(sent[..n])|
    requires var answer := AnswerTo(sent[n]);
             if answer.None? then written == [] && wire' == wire
             else
               && |written| == 1 && |written[0]| <= MAX_BODY && Unboxed(c, written[0]) == Ok(answer.value)
               && wire' == wire + Frame(written[0])
    ensures RepliesInOrder(c, wire', taken, sent, heard, bodies + written)
    ensures |bodies + written| == |AllDeserved(sent[..n + 1])|
  {
    hide Frame, Unboxed, AnswerTo, Encode, AllDeserved;
    assert sent[..n + 1] == sent[..n] + [sent[n]];
    DeservedSnoc(sent[..n], sent[n]);
    DeservedGrows(sent, n);
    DeservedGrows(sent, n + 1);
    if written == [] {
      assert bodies + written == bodies;
    } else {
      var k, body := |heard|, written[0];
      EncodeSnoc(bodies, body);
      EncodeSnoc(bodies[k..], body);
      assert bodies + written == bodies + [body] && (bodies + [body])[k..] == bodies[k..] + [body];
      assert wire'[taken..] == wire[taken..] + Frame(body);
    }
  }

  lemma WireOfPart(s: State, id: ClientId)
    ensures WireOf(s.registry, id) == WireOf(Project(s, id).registry, id)
  {
  }

  lemma OwnServeKeepsOrder(c: Cipher, pipe: Pipe, e: Event, id: ClientId, bodies: seq<seq<byte>>, n: nat,
          queue: seq<seq<byte>>)
    returns (bodies': seq<seq<byte>>, n': nat, queue': seq<seq<byte>>)
    requires PipeEnabled(pipe, Serve(e), id) && Concerns(e, id) && CanServe(pipe.server, id)
    requires InOrder(c, pipe, id, bodies, n, queue)
    ensures InOrder(c, PipeStep(c, pipe, Serve(e), id), id, bodies', n', queue')
    ensures e.PollClient? ==> bodies' == bodies && n' == n
    ensures e.Dispatch? ==>
              bodies <= bodies' && n' == n + 1 <= |Due(pipe)| && |bodies'| == |AllDeserved(Due(pipe)[..n'])|
  {
    hide RepliesInOrder, AnswerTo, Encode, Unboxed, Frame, AfterPoll, Dispatched, Queued, AllDeserved;
    var v := Project(pipe.server, id);
    bodies', n', queue' := bodies, n, queue;
    OwnStep(c, pipe.server, e, id);
    CanServeOfPart(Step(c, pipe.server, e), id);
    WireOfPart(pipe.server, id);
    WireOfPart(Step(c, pipe.server, e), id);
    match e {
      case PollClient(_, peekOk) => queue' := PollKeepsLive(c, v, pipe.flight, Due(pipe), id, peekOk, n, queue);
      case Dispatch(_, nonce, room) =>
        var written := DispatchKeepsLive(c, v, pipe.flight, Due(pipe), id, nonce, room, n, queue);
        WriteKeepsOrder(c, WireOf(v.registry, id), WireOf(Step(c, v, e).registry, id), pipe.taken, Due(pipe),
                        pipe.heard, bodies, n, written);
        bodies', n' := bodies + written, n + 1;
      case _ =>
    }
  }

  lemma ServeKeepsOrder(c: Cipher, pipe: Pipe, e: Event, id: ClientId, bodies: seq<seq<byte>>, n: nat,
          queue: seq<seq<byte>>)
    returns (bodies': seq<seq<byte>>, n': nat, queue': seq<seq<byte>>)
    requires PipeEnabled(pipe, Serve(e), id) && InOrder(c, pipe, id, bodies, n, queue)
    ensures InOrder(c, PipeStep(c, pipe, Serve(e), id), id, bodies', n', queue')
  {
    hide RepliesInOrder, Live, Step, AllDeserved, Project, CanServe;
    bodies', n', queue' := bodies, n, queue;
    if !CanServe(pipe.server, id) {
      LostStep(c, pipe.server, e, id);
    } else if Concerns(e, id) {
      bodies', n', queue' := OwnServeKeepsOrder(c, pipe, e, id, bodies, n, queue);
    } else {
      OthersStep(c, pipe.server, e, id);
      WireOfPart(Step(c, pipe.server, e), id);
      WireOfPart(pipe.server, id);
      assert WireOf(Step(c, pipe.server, e).registry, id) == WireOf(pipe.server.registry, id);
    }
  }

  lemma {:induction false} PipeKeepsOrder(c: Cipher, pipe: Pipe, es: seq<PipeEvent>, id: ClientId,
          bodies: seq<seq<byte>>, n: nat, queue: seq<seq<byte>>)
    returns (bodies': seq<seq<byte>>, n': nat, queue': seq<seq<byte>>)
    requires PipeRun(c, pipe, es, id) && InOrder(c, pipe, id, bodies, n, queue)
    ensures InOrder(c, PipeEnd(c, pipe, es, id), id, bodies', n', queue')
    decreases es
  {
    hide InOrder, PipeStep, PipeEnabled;
    bodies', n', queue' := bodies, n, queue;
    if es != [] {
      match es[0] {
        case Send(_, _) => queue' := SendKeepsOrder(c, pipe, es[0], id, bodies, n, queue);
        case Carry(_) => CarryKeepsOrder(c, pipe, es[0], id, bodies, n, queue);
        case Receive => ReceiveKeepsOrder(c, pipe, es[0], id, bodies, n, queue);
        case Serve(e) => bodies', n', queue' := ServeKeepsOrder(c, pipe, e, id, bodies, n, queue);
      }
      bodies', n', queue' := PipeKeepsOrder(c, PipeStep(c, pipe, es[0], id), es[1..], id, bodies', n', queue');
    }
  }

  /** What the worker holds of a client. */
  function InHand(s: State, id: ClientId): seq<VpnPacket> {
    if s.phase.Received? && s.phase.id == id then [s.phase.packet] else []
  }

  function PipeOpening(c: Cipher, s: State, id: ClientId): Pipe {
    Pipe(Step(c, s, Accept(id)), [], 0, InHand(s, id), [], [])
  }

  /** The server has nothing left to do for the client, nor the client anything to read. */
  predicate Drained(pipe: Pipe, id: ClientId) {
    && CanServe(pipe.server, id)
    && !(pipe.server.phase.Received? && pipe.server.phase.id == id)
    && pipe.server.registry.clients[id].inbox == [] && pipe.flight == []
    && WireFrom(pipe.server.registry, id, pipe.taken) == []
  }

  lemma OpeningInOrder(c: Cipher, s: State, id: ClientId)
    requires Replies.Answerable(s)
    ensures InOrder(c, PipeOpening(c, s, id), id, [], 0, [])
  {
    hide Deserved, Unboxed;
  }

  lemma DrainedHearsAll(c: Cipher, pipe: Pipe, id: ClientId, bodies: seq<seq<byte>>, n: nat, queue: seq<seq<byte>>)
    requires InOrder(c, pipe, id, bodies, n, queue) && Drained(pipe, id)
    ensures pipe.heard == AllDeserved(Due(pipe))
  {
    hide Deserved, Unboxed;
    assert queue == [] && Due(pipe)[..n] == Due(pipe);
    assert bodies[|pipe.heard|..] == [];
  }

  lemma {:induction false} SameOwed(c: Cipher, pipe: Pipe, es: seq<PipeEvent>, id: ClientId)
    requires PipeRun(c, pipe, es, id)
    ensures PipeEnd(c, pipe, es, id).owed == pipe.owed
    decreases es
  {
    if es != [] {
      SameOwed(c, PipeStep(c, pipe, es[0], id), es[1..], id);
    }
  }

  lemma PipeInOrder(c: Cipher, before: seq<Event>, id: ClientId, es: seq<PipeEvent>)
    returns (bodies: seq<seq<byte>>, n: nat, queue: seq<seq<byte>>)
    requires ValidRun(c, Init(), before) && PipeRun(c, PipeOpening(c, Run(c, Init(), before), id), es, id)
    ensures InOrder(c, PipeEnd(c, PipeOpening(c, Run(c, Init(), before), id), es, id), id, bodies, n, queue)
  {
    hide Run, ValidRun, PipeEnd, PipeRun, InOrder;
    var s := Run(c, Init(), before);
    Replies.RunKeepsAnswerable(c, Init(), before);
    OpeningInOrder(c, s, id);
    bodies, n, queue := PipeKeepsOrder(c, PipeOpening(c, s, id), es, id, [], 0, []);
  }

  /** From any reachable server state, however requests, reads, the network and the server with all its
      clients interleave, what is read is the answers to what was sent, in that order, and all of them
      once nothing is left to do. Before them comes the answer to a packet that the worker still held
      of an earlier connection at the address. */
  lemma AnswersInOrder(c: Cipher, before: seq<Event>, id: ClientId, es: seq<PipeEvent>)
    requires ValidRun(c, Init(), before) && PipeRun(c, PipeOpening(c, Run(c, Init(), before), id), es, id)
    ensures var s := Run(c, Init(), before);
            var pipe := PipeEnd(c, PipeOpening(c, s, id), es, id);
            && pipe.heard <= AllDeserved(InHand(s, id) + pipe.sent)
            && (Drained(pipe, id) ==> pipe.heard == AllDeserved(InHand(s, id) + pipe.sent))
  {
    hide Run, ValidRun, PipeEnd, PipeRun, AllDeserved, Live, CanServe;
    var s := Run(c, Init(), before);
    var bodies, n, queue := PipeInOrder(c, before, id, es);
    SameOwed(c, PipeOpening(c, s, id), es, id);
    var pipe := PipeEnd(c, PipeOpening(c, s, id), es, id);
    if Drained(pipe, id) {
      DrainedHearsAll(c, pipe, id, bodies, n, queue);
    }
  }

  // ---- Whose answer a read returns

  /** The packet whose answer is the `k`th. */
  function Owner(ps: seq<VpnPacket>, k: nat): (i: nat)
    requires k < |AllDeserved(ps)|
    ensures i < |ps| && AnswerTo(ps[i]).Some? && AllDeserved(ps)[k] == Ok(AnswerTo(ps[i]).value)
    ensures |AllDeserved(ps[..i])| == k
  {
    var before := ps[..|ps| - 1];
    if k < |AllDeserved(before)| then
      var i := Owner(before, k);
      assert before[..i] == ps[..i];
      i
    else |ps| - 1
  }

  /** A read returns the answer to the packet all of whose predecessors have been answered and heard; so
      it returns the one to the last packet sent exactly if nothing earlier is outstanding. */
  lemma ReadBelongsTo(c: Cipher, before: seq<Event>, id: ClientId, es: seq<PipeEvent>) returns (i: nat)
    requires ValidRun(c, Init(), before) && PipeRun(c, PipeOpening(c, Run(c, Init(), before), id), es, id)
    requires PipeEnabled(PipeEnd(c, PipeOpening(c, Run(c, Init(), before), id), es, id), Receive, id)
    ensures var pipe := PipeEnd(c, PipeOpening(c, Run(c, Init(), before), id), es, id);
            var due := Due(pipe);
            && i < |due| && AnswerTo(due[i]).Some? && pipe.heard == AllDeserved(due[..i])
            && PipeStep(c, pipe, Receive, id).heard == pipe.heard + [Ok(AnswerTo(due[i]).value)]
            && (AnswerTo(due[|due| - 1]).Some? ==>
                  (i == |due| - 1 <==> pipe.heard == AllDeserved(due[..|due| - 1])))
  {
    hide Run, ValidRun, PipeEnd, PipeRun, AnswerTo, Live, CanServe, Unboxed, Encode, Frame;
    var pipe := PipeEnd(c, PipeOpening(c, Run(c, Init(), before), id), es, id);
    var bodies, n, queue := PipeInOrder(c, before, id, es);
    var due, k := Due(pipe), |pipe.heard|;
    NextIsRead(c, WireOf(pipe.server.registry, id), pipe.taken, due, pipe.heard, bodies);
    i := Owner(due, k);
    DeservedGrows(due, i);
  }

  // ---- A late answer

  lemma PipeCons(c: Cipher, pipe: Pipe, e: PipeEvent, rest: seq<PipeEvent>, id: ClientId)
    requires PipeEnabled(pipe, e, id) && PipeRun(c, PipeStep(c, pipe, e, id), rest, id)
    ensures PipeRun(c, pipe, [e] + rest, id)
    ensures PipeEnd(c, pipe, [e] + rest, id) == PipeEnd(c, PipeStep(c, pipe, e, id), rest, id)
  {
  }

  /** The next packet due lies in the stream, deserves an answer and fits a frame. */
  predicate NextFits(pipe: Pipe, n: nat) {
    n < |Due(pipe)| && AnswerTo(Due(pipe)[n]).Some? && |Due(pipe)[n].payload| + BOX_OVERHEAD <= MAX_BODY
  }

  lemma PollNext(c: Cipher, pipe: Pipe, id: ClientId, bodies: seq<seq<byte>>, n: nat, queue: seq<seq<byte>>)
    returns (queue': seq<seq<byte>>)
    requires InOrder(c, pipe, id, bodies, n, queue) && Ready(pipe.server, id) && pipe.flight == [] && NextFits(pipe, n)
    ensures PipeEnabled(pipe, Serve(PollClient(id, true)), id)
    ensures var pipe' := PipeStep(c, pipe, Serve(PollClient(id, true)), id);
            && InOrder(c, pipe', id, bodies, n, queue')
            && pipe'.server.phase == Received(id, Normal(Due(pipe)[n]))
            && pipe'.server.doomed == {} && id in pipe'.server.registry.clients
  {
    hide Unboxed, Frame, AnswerTo, RepliesInOrder, AllDeserved, Poll, Unread;
    var poll, box := PollClient(id, true), queue[0];
    var inbox := pipe.server.registry.clients[id].inbox;
    assert Project(pipe.server, id).registry.clients[id].inbox == inbox && inbox + [] == inbox;
    UnboxedReboxes(c, box);
    HeadPoll(inbox, [], box, Encode(queue[1..]));
    ReadBox(c, pipe.server, id, box);
    var _, _, q := OwnServeKeepsOrder(c, pipe, poll, id, bodies, n, queue);
    queue' := q;
  }

  lemma DispatchNext(c: Cipher, pipe: Pipe, id: ClientId, bodies: seq<seq<byte>>, n: nat, queue: seq<seq<byte>>,
          nonce: Nonce)
    returns (bodies': seq<seq<byte>>, queue': seq<seq<byte>>)
    requires InOrder(c, pipe, id, bodies, n, queue) && NextFits(pipe, n)
    requires pipe.server.phase == Received(id, Normal(Due(pipe)[n])) && pipe.server.doomed == {}
    requires id in pipe.server.registry.clients
    ensures PipeEnabled(pipe, Serve(Dispatch(id, nonce, Replies.MAX_FRAME)), id)
    ensures var pipe' := PipeStep(c, pipe, Serve(Dispatch(id, nonce, Replies.MAX_FRAME)), id);
            && InOrder(c, pipe', id, bodies', n + 1, queue')
            && bodies <= bodies' && |bodies'| == |AllDeserved(Due(pipe)[..n + 1])|
            && (!IsControl(Normal(Due(pipe)[n]), Disconnect) ==> Ready(pipe'.server, id))
  {
    hide RepliesInOrder, Encode, Unboxed, Frame, AllDeserved, Service.Replied;
    var s, p, dispatch := pipe.server, Normal(Due(pipe)[n]), Dispatch(id, nonce, Replies.MAX_FRAME);
    AnswerToNormal(Due(pipe)[n]);
    var n';
    bodies', n', queue' := OwnServeKeepsOrder(c, pipe, dispatch, id, bodies, n, queue);
    AnsweredPhase(c, pipe, id, n, queue, nonce);
  }

  lemma AnsweredPhase(c: Cipher, pipe: Pipe, id: ClientId, n: nat, queue: seq<seq<byte>>, nonce: Nonce)
    requires NextFits(pipe, n) && Live(c, Project(pipe.server, id), pipe.flight, Due(pipe), id, n, queue)
    requires pipe.server.phase == Received(id, Normal(Due(pipe)[n])) && pipe.server.doomed == {}
    ensures var s := Dispatched(c, pipe.server, id, pipe.server.phase.packet, nonce, Replies.MAX_FRAME);
            !IsControl(Normal(Due(pipe)[n]), Disconnect) ==> Ready(s, id)
  {
    hide Encode, Unboxed, Frame, Dispatched, AnswerTo, Queued;
    var dispatch, v := Dispatch(id, nonce, Replies.MAX_FRAME), Project(pipe.server, id);
    OwnStep(c, pipe.server, dispatch, id);
    PhaseAfterDispatch(c, pipe.server, id, pipe.server.phase.packet, nonce, Replies.MAX_FRAME);
    var written := DispatchKeepsLive(c, v, pipe.flight, Due(pipe), id, nonce, Replies.MAX_FRAME, n, queue);
  }

  /** The network, the server and the client with the next packet due. */
  function NextHandled(pipe: Pipe, id: ClientId, nonce: Nonce): seq<PipeEvent> {
    [Carry(|pipe.flight|)] + ([Serve(PollClient(id, true))]
      + ([Serve(Dispatch(id, nonce, Replies.MAX_FRAME))] + ([Receive] + [])))
  }

  lemma HandlesNext(c: Cipher, pipe: Pipe, id: ClientId, bodies: seq<seq<byte>>, n: nat, queue: seq<seq<byte>>,
          nonce: Nonce)
    returns (bodies': seq<seq<byte>>, queue': seq<seq<byte>>)
    requires InOrder(c, pipe, id, bodies, n, queue) && Ready(pipe.server, id) && NextFits(pipe, n)
    requires pipe.heard == AllDeserved(Due(pipe)[..n])
    ensures PipeRun(c, pipe, NextHandled(pipe, id, nonce), id)
    ensures var pipe' := PipeEnd(c, pipe, NextHandled(pipe, id, nonce), id);
            && InOrder(c, pipe', id, bodies', n + 1, queue')
            && pipe'.heard == AllDeserved(Due(pipe)[..n + 1])
            && pipe'.owed == pipe.owed && pipe'.sent == pipe.sent && pipe'.flight == []
            && bodies <= bodies' && |bodies'| == |pipe'.heard|
            && (!IsControl(Normal(Due(pipe)[n]), Disconnect) ==> Ready(pipe'.server, id))
  {
    hide InOrder, Step, AnswerTo;
    var carry, poll, dispatch := Carry(|pipe.flight|), PollClient(id, true), Dispatch(id, nonce, Replies.MAX_FRAME);
    CarryKeepsOrder(c, pipe, carry, id, bodies, n, queue);
    var pipe1 := PipeStep(c, pipe, carry, id);
    assert Ready(pipe1.server, id) by { StepArrive(c, pipe.server, id, pipe.flight[..|pipe.flight|]); }
    queue' := PollNext(c, pipe1, id, bodies, n, queue);
    var pipe2 := PipeStep(c, pipe1, Serve(poll), id);
    bodies', queue' := DispatchNext(c, pipe2, id, bodies, n, queue', nonce);
    var pipe3 := PipeStep(c, pipe2, Serve(dispatch), id);
    AnswerWaits(c, pipe3, id, bodies', n, queue');
    ReceiveKeepsOrder(c, pipe3, Receive, id, bodies', n + 1, queue');
    var pipe4 := PipeStep(c, pipe3, Receive, id);
    HeardSnoc(c, pipe4, id, bodies', n, queue');
    PipeCons(c, pipe3, Receive, [], id);
    PipeCons(c, pipe2, Serve(dispatch), [Receive] + [], id);
    PipeCons(c, pipe1, Serve(poll), [Serve(dispatch)] + ([Receive] + []), id);
    PipeCons(c, pipe, carry, [Serve(poll)] + ([Serve(dispatch)] + ([Receive] + [])), id);
  }

  lemma StepArrive(c: Cipher, s: State, id: ClientId, bytes: seq<byte>)
    requires Ready(s, id)
    ensures Ready(Step(c, s, Arrive(id, bytes)), id)
  {
  }

  lemma AnswerWaits(c: Cipher, pipe: Pipe, id: ClientId, bodies: seq<seq<byte>>, n: nat, queue: seq<seq<byte>>)
    requires InOrder(c, pipe, id, bodies, n + 1, queue) && NextFits(pipe, n)
    requires pipe.heard == AllDeserved(Due(pipe)[..n]) && |bodies| == |AllDeserved(Due(pipe)[..n + 1])|
    ensures PipeEnabled(pipe, Receive, id)
  {
    hide Unboxed, Frame, AnswerTo, Live, AllDeserved, CanServe, Project;
    var k := |pipe.heard|;
    assert Due(pipe)[..n + 1] == Due(pipe)[..n] + [Due(pipe)[n]];
    DeservedSnoc(Due(pipe)[..n], Due(pipe)[n]);
    assert bodies[k..][1..] == bodies[k + 1..];
    ClientReadsFrame(bodies[k], Encode(bodies[k + 1..]));
  }

  lemma HeardSnoc(c: Cipher, pipe: Pipe, id: ClientId, bodies: seq<seq<byte>>, n: nat, queue: seq<seq<byte>>)
    requires InOrder(c, pipe, id, bodies, n + 1, queue) && NextFits(pipe, n)
    requires |pipe.heard| == |AllDeserved(Due(pipe)[..n])| + 1
    ensures pipe.heard == AllDeserved(Due(pipe)[..n + 1])
  {
    hide Unboxed, Frame, AnswerTo, Live, AllDeserved, GoodAnswers, Encode, Project, CanServe;
    assert Due(pipe)[..n + 1] == Due(pipe)[..n] + [Due(pipe)[n]];
    DeservedSnoc(Due(pipe)[..n], Due(pipe)[n]);
    DeservedGrows(Due(pipe), n + 1);
  }

  /** The frame of a lone answer, as the client reads it. */
  lemma LoneAnswer(c: Cipher, pipe: Pipe, id: ClientId, bodies: seq<seq<byte>>, n: nat, queue: seq<seq<byte>>,
          from: nat)
    requires InOrder(c, pipe, id, bodies, n, queue) && |bodies| == |pipe.heard| == from + 1
    ensures var wire := WireOf(pipe.server.registry, id);
            && pipe.taken == |wire| && |Encode(bodies[..from])| <= |wire|
            && var rest := wire[|Encode(bodies[..from])|..];
               ClientRead(rest) == Ok(bodies[from]) && ClientUnread(rest) == []
    ensures Unboxed(c, bodies[from]) == pipe.heard[from]
  {
    hide Unboxed, Frame, AllDeserved, Live;
    assert bodies == bodies[..from] + [bodies[from]] && bodies[from + 1..] == [];
    EncodeSnoc(bodies[..from], bodies[from]);
    assert Frame(bodies[from]) + [] == Frame(bodies[from]);
    ClientReadsFrame(bodies[from], []);
  }

  lemma ConfigDeserved()
    ensures AnswerTo(NewControl(ConfigRequest)).Some? && Normal(NewControl(ConfigRequest)) == NewControl(ConfigRequest)
    ensures AllDeserved([NewControl(ConfigRequest)]) == [Ok(ConfigReply(DefaultConfig()))]
  {
    DefaultBytes();
    assert [NewControl(ConfigRequest)][..0] == [];
  }

  /** The client shakes hands. */
  lemma Shaken(c: Cipher, id: ClientId, nonce: Nonce, replyNonce: Nonce)
    returns (es: seq<PipeEvent>, bodies: seq<seq<byte>>, queue: seq<seq<byte>>)
    ensures PipeRun(c, PipeOpening(c, Init(), id), es, id) && |es| == 5
    ensures es[0] == Send(NewControl(ConfigRequest), nonce)
    ensures var pipe := PipeEnd(c, PipeOpening(c, Init(), id), es, id);
            && InOrder(c, pipe, id, bodies, 1, queue) && Ready(pipe.server, id) && pipe.flight == []
            && pipe.owed == [] && pipe.sent == [NewControl(ConfigRequest)]
            && pipe.heard == AllDeserved(pipe.sent) && |bodies| == 1
  {
    hide InOrder, AnswerTo, Normal;
    ConfigDeserved();
    var opening, send := PipeOpening(c, Init(), id), Send(NewControl(ConfigRequest), nonce);
    OpeningInOrder(c, Init(), id);
    queue := SendKeepsOrder(c, opening, send, id, [], 0, []);
    var pipe := PipeStep(c, opening, send, id);
    assert Due(pipe) == pipe.sent == [NewControl(ConfigRequest)] && Due(pipe)[..0] == [] && Due(pipe)[..1] == pipe.sent;
    bodies, queue := HandlesNext(c, pipe, id, [], 0, queue, replyNonce);
    PipeCons(c, opening, send, NextHandled(pipe, id, replyNonce), id);
    es := [send] + NextHandled(pipe, id, replyNonce);
  }

  /** Two requests are sent before the first is handled. */
  lemma SentTwice(c: Cipher, pipe: Pipe, id: ClientId, bodies: seq<seq<byte>>, queue: seq<seq<byte>>,
          first: VpnPacket, second: VpnPacket, nonce1: Nonce, nonce2: Nonce, replyNonce: Nonce)
    returns (es: seq<PipeEvent>, bodies': seq<seq<byte>>, queue': seq<seq<byte>>)
    requires InOrder(c, pipe, id, bodies, 1, queue) && Ready(pipe.server, id) && |pipe.sent| == 1 && pipe.owed == []
    requires pipe.heard == AllDeserved(pipe.sent) && |pipe.heard| == 1 && AnswerTo(first).Some?
    requires |first.payload| + BOX_OVERHEAD <= MAX_BODY && |second.payload| + BOX_OVERHEAD <= MAX_BODY
    ensures PipeRun(c, pipe, es, id) && |es| == 6 && es[..2] == [Send(first, nonce1), Send(second, nonce2)]
    ensures var pipe' := PipeEnd(c, pipe, es, id);
            && InOrder(c, pipe', id, bodies', 2, queue') && bodies <= bodies' && |bodies'| == 2
            && pipe'.sent == pipe.sent + [first, second] && pipe'.heard == pipe.heard + [Ok(AnswerTo(first).value)]
  {
    hide InOrder, AnswerTo, Step;
    var send1, send2 := Send(first, nonce1), Send(second, nonce2);
    var pipe1 := PipeStep(c, pipe, send1, id);
    queue' := SendKeepsOrder(c, pipe, send1, id, bodies, 1, queue);
    var pipe2 := PipeStep(c, pipe1, send2, id);
    queue' := SendKeepsOrder(c, pipe1, send2, id, bodies, 1, queue');
    assert Due(pipe2) == pipe.sent + [first, second] && Due(pipe2)[..1] == pipe.sent;
    assert Due(pipe2)[..2] == pipe.sent + [first];
    DeservedSnoc(pipe.sent, first);
    bodies', queue' := HandlesNext(c, pipe2, id, bodies, 1, queue', replyNonce);
    var rest := NextHandled(pipe2, id, replyNonce);
    PipeCons(c, pipe1, send2, rest, id);
    PipeCons(c, pipe, send1, [send2] + rest, id);
    es := [send1] + ([send2] + rest);
  }

  /** Without the session's assumption that no read times out, `send_packet` can return the answer to
      another request. A client shakes hands and sends any two requests; if the read of the first
      times out before its answer comes, the call for the second returns it. */
  lemma LateAnswer(c: Cipher, id: ClientId, client: Client.ClientState, first: VpnPacket, second: VpnPacket,
          nonces: (Nonce, Nonce, Nonce), replyNonces: (Nonce, Nonce))
    returns (shaking: seq<PipeEvent>, es: seq<PipeEvent>)
    requires client.incoming == [] && AnswerTo(first).Some?
    requires |first.payload| + BOX_OVERHEAD <= MAX_BODY && |second.payload| + BOX_OVERHEAD <= MAX_BODY
    ensures PipeRun(c, PipeOpening(c, Init(), id), shaking, id)
    ensures shaking != [] && shaking[0] == Send(NewControl(ConfigRequest), nonces.0)
    ensures PipeRun(c, PipeEnd(c, PipeOpening(c, Init(), id), shaking, id), es, id)
    ensures |es| >= 2 && es[..2] == [Send(first, nonces.1), Send(second, nonces.2)]
    ensures var shaken := PipeEnd(c, PipeOpening(c, Init(), id), shaking, id);
            var end := PipeEnd(c, shaken, es, id);
            var handshake := Client.HandshakeCall(c, client, nonces.0, Replies.MAX_FRAME,
                                                  WireOf(shaken.server.registry, id));
            var timedOut := Client.SendCall(c, handshake.after, first, nonces.1, Replies.MAX_FRAME, []);
            var late := Client.SendCall(c, timedOut.after, second, nonces.2, Replies.MAX_FRAME,
                                        WireFrom(end.server.registry, id, shaken.taken));
            && end.sent == [NewControl(ConfigRequest), first, second]
            && handshake.result == Ok(()) && handshake.after.connected
            && timedOut.result == Err(Io)
            && late.result == Ok(AnswerTo(first).value)
  {
    hide Unboxed, Frame, AnswerTo, InOrder, PipeRun, PipeEnd, ClientRead, ClientUnread;
    var bodies, queue;
    shaking, bodies, queue := Shaken(c, id, nonces.0, replyNonces.0);
    var shaken := PipeEnd(c, PipeOpening(c, Init(), id), shaking, id);
    ConfigDeserved();
    LoneAnswer(c, shaken, id, bodies, 1, queue, 0);
    var bodies', queue';
    es, bodies', queue' := SentTwice(c, shaken, id, bodies, queue, first, second, nonces.1, nonces.2, replyNonces.1);
    var end := PipeEnd(c, shaken, es, id);
    LoneAnswer(c, end, id, bodies', 2, queue', 1);
    assert bodies'[..1] == bodies && bodies[..0] == [];
    WireIsEncoded(c, shaken, id, bodies, 1, queue);
    HandshakeAnswered(c, client, nonces.0, WireOf(shaken.server.registry, id), bodies[0]);
    LateRead(c, Client.HandshakeCall(c, client, nonces.0, Replies.MAX_FRAME, WireOf(shaken.server.registry, id)).after,
             first, second, nonces.1, nonces.2, WireFrom(end.server.registry, id, shaken.taken), bodies'[1]);
  }

  lemma WireIsEncoded(c: Cipher, pipe: Pipe, id: ClientId, bodies: seq<seq<byte>>, n: nat, queue: seq<seq<byte>>)
    requires InOrder(c, pipe, id, bodies, n, queue)
    ensures WireOf(pipe.server.registry, id) == Encode(bodies)
  {
  }

  lemma HandshakeAnswered(c: Cipher, client: Client.ClientState, nonce: Nonce, wire: seq<byte>, body: seq<byte>)
    requires client.incoming == [] && ClientRead(wire) == Ok(body) && ClientUnread(wire) == []
    requires Unboxed(c, body) == Ok(ConfigReply(DefaultConfig()))
    ensures var handshake := Client.HandshakeCall(c, client, nonce, Replies.MAX_FRAME, wire);
            handshake.result == Ok(()) && handshake.after.connected && handshake.after.incoming == []
  {
    hide Unboxed, ClientRead, ClientUnread, Frame;
    assert [] + wire == wire;
    Client.HandshakeIff(c, client, nonce, Replies.MAX_FRAME, wire);
  }

  lemma LateRead(c: Cipher, client: Client.ClientState, first: VpnPacket, second: VpnPacket, nonce1: Nonce,
          nonce2: Nonce, wire: seq<byte>, body: seq<byte>)
    requires client.connected && client.incoming == [] && AnswerTo(first).Some?
    requires |first.payload| + BOX_OVERHEAD <= MAX_BODY && |second.payload| + BOX_OVERHEAD <= MAX_BODY
    requires ClientRead(wire) == Ok(body) && Unboxed(c, body) == Ok(AnswerTo(first).value)
    ensures var timedOut := Client.SendCall(c, client, first, nonce1, Replies.MAX_FRAME, []);
            && timedOut.result == Err(Io)
            && Client.SendCall(c, timedOut.after, second, nonce2, Replies.MAX_FRAME, wire).result
            == Ok(AnswerTo(first).value)
  {
    hide Unboxed, Frame, AnswerTo;
    NewBox(c, nonce1, first);
    NewBox(c, nonce2, second);
    SmallPacketsPack(c, nonce1, first);
    SmallPacketsPack(c, nonce2, second);
    assert [] + wire == wire;
  }
}
