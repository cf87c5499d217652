/** What the server writes: frames the client can read, and one configuration for everyone. */
module Replies {
  import opened Bytes
  import opened Outcomes
  import opened Encryption
  import opened Packets
  import opened Handler
  import opened Configuration
  import opened Routes
  import opened Framing
  import opened Service
  import opened NonInterference

  const MAX_FRAME := PREFIX_LENGTH + MAX_BODY

  predicate OneConfig(s: State) {
    forall id | id in s.configs :: s.configs[id] == DefaultConfig()
  }

  /** A reply that fits the client's reader, opens to a packet, and, if it is a configuration,
      carries the twelve default bytes. */
  predicate GoodReply(c: Cipher, body: seq<byte>) {
    && 0 < |body| <= MAX_BODY
    && var r := Unboxed(c, body);
       && r.Ok?
       && (IsControl(r.value, ConfigResponse) ==> r.value.payload == ConfigBytes(DefaultConfig()))
  }

  ghost predicate GoodWire(c: Cipher, wire: seq<byte>) {
    exists bodies :: Encode(bodies) == wire && forall body | body in bodies :: GoodReply(c, body)
  }

  /** Accepted packets are small enough to be answered. */
  predicate Answerable(s: State) {
    && OneConfig(s)
    && (s.phase.Received? ==>
          Normal(s.phase.packet) == s.phase.packet && |s.phase.packet.payload| + BOX_OVERHEAD <= MAX_BODY)
  }

  ghost predicate GoodWires(c: Cipher, g: Registry) {
    forall id | id in g.wire :: GoodWire(c, g.wire[id])
  }

  /** The client's socket takes whole frames. */
  predicate NoShortWrite(es: seq<Event>, id: ClientId) {
    forall e | e in es :: e.Dispatch? && e.id == id ==> e.room >= MAX_FRAME
  }

  lemma ReplyIsGood(c: Cipher, s: State, id: ClientId, p: VpnPacket, nonce: Nonce)
    requires OneConfig(s) && Normal(p) == p && |p.payload| + BOX_OVERHEAD <= MAX_BODY
    requires ReplyTo(s, id, p).Ok?
    ensures Boxed(c, nonce, ReplyTo(s, id, p).value).Ok?
    ensures GoodReply(c, Boxed(c, nonce, ReplyTo(s, id, p).value).value)
  {
    BoxRoundTrip(c, nonce, ReplyTo(s, id, p).value);
  }

  lemma GoodWireGrows(c: Cipher, wire: seq<byte>, body: seq<byte>)
    requires GoodWire(c, wire) && GoodReply(c, body)
    ensures GoodWire(c, wire + Frame(body))
  {
    var bodies :| Encode(bodies) == wire && forall b | b in bodies :: GoodReply(c, b);
    EncodeSnoc(bodies, body);
    assert Encode(bodies + [body]) == wire + Frame(body);
  }

  /** The one write of a dispatch: the start of the frame of a good reply, as far as the socket
      takes it. */
  lemma DispatchWrites(c: Cipher, s: State, e: Event) returns (body: seq<byte>, taken: nat)
    requires e.Dispatch? && Enabled(s, e) && Answerable(s)
    ensures taken <= |Frame(body)|
    ensures var g := Step(c, s, e).registry;
            g.wire != s.registry.wire ==>
              && GoodReply(c, body)
              && taken == (if e.room < |Frame(body)| then e.room else |Frame(body)|)
              && g.wire == s.registry.wire[e.id := WireOf(s.registry, e.id) + Frame(body)[..taken]]
  {
    hide Frame, Unboxed, Boxed, ParsedRoutes, ConfigReply;
    body, taken := [], 0;
    var p := s.phase.packet;
    var s' := Tabled(s, e.id, p);
    var reply := ReplyTo(s', e.id, p);
    if p.packetType != Keepalive && reply.Ok? {
      ReplyOutcome(c, s', e.id, reply.value, e.nonce, e.room, if IsControl(p, Disconnect) then Leaving(e.id) else Idle);
      ReplyIsGood(c, s', e.id, p, e.nonce);
      body := Boxed(c, e.nonce, reply.value).value;
      taken := if e.room < |Frame(body)| then e.room else |Frame(body)|;
    }
  }

  lemma DispatchKeepsAnswerable(c: Cipher, s: State, e: Event)
    requires e.Dispatch? && Enabled(s, e) && Answerable(s)
    ensures Answerable(Step(c, s, e))
  {
    var p := s.phase.packet;
    PhaseAfterDispatch(c, s, e.id, p, e.nonce, e.room);
    var s' := Tabled(s, e.id, p);
    var reply := ReplyTo(s', e.id, p);
    if p.packetType != Keepalive && reply.Ok? {
      ReplyOutcome(c, s', e.id, reply.value, e.nonce, e.room, if IsControl(p, Disconnect) then Leaving(e.id) else Idle);
    }
  }

  lemma StepKeepsAnswerable(c: Cipher, s: State, e: Event)
    requires Enabled(s, e) && Answerable(s)
    ensures Answerable(Step(c, s, e))
  {
    match e {
      case Dispatch(_, _, _) => DispatchKeepsAnswerable(c, s, e);
      case PollClient(id, peekOk) =>
        var read := ReadResult(s.registry, id, peekOk);
        if read.Ok? && Unboxed(c, read.value).Ok? {
          UnboxedReboxes(c, read.value);
        }
      case _ =>
    }
  }

  /** In every reachable state all configurations are the default one and the packet in hand is small
      enough to be answered; so by `DispatchWrites` every write starts a frame the client can read. */
  lemma {:induction false} RunKeepsAnswerable(c: Cipher, s: State, es: seq<Event>)
    requires ValidRun(c, s, es) && Answerable(s)
    ensures Answerable(Run(c, s, es))
    decreases es
  {
    if es != [] {
      StepKeepsAnswerable(c, s, es[0]);
      RunKeepsAnswerable(c, Step(c, s, es[0]), es[1..]);
    }
  }

  lemma StepKeepsGoodWires(c: Cipher, s: State, e: Event)
    requires Enabled(s, e) && Answerable(s) && GoodWires(c, s.registry) && (e.Dispatch? ==> e.room >= MAX_FRAME)
    ensures GoodWires(c, Step(c, s, e).registry)
  {
    assert Encode([]) == [] && GoodWire(c, []);
    if e.Dispatch? {
      var body, taken := DispatchWrites(c, s, e);
      if Step(c, s, e).registry.wire != s.registry.wire {
        assert Frame(body)[..taken] == Frame(body);
        GoodWireGrows(c, WireOf(s.registry, e.id), body);
      }
    }
  }

  lemma {:induction false} RunKeepsGoodWires(c: Cipher, s: State, es: seq<Event>)
    requires ValidRun(c, s, es) && Answerable(s) && GoodWires(c, s.registry)
    requires forall e | e in es :: e.Dispatch? ==> e.room >= MAX_FRAME
    ensures GoodWires(c, Run(c, s, es).registry)
    decreases es
  {
    if es != [] {
      StepKeepsAnswerable(c, s, es[0]);
      StepKeepsGoodWires(c, s, es[0]);
      RunKeepsGoodWires(c, Step(c, s, es[0]), es[1..]);
    }
  }

  lemma {:induction false} FilterConcerns(es: seq<Event>, id: ClientId)
    ensures forall e | e in Filter(es, id) :: e in es && Concerns(e, id)
  {
    if es != [] {
      FilterConcerns(es[1..], id);
    }
  }

  /** Whatever was sent over a run to a client whose socket takes whole frames splits into frames of
      good replies, whatever the other sockets take. */
  lemma RepliesReadable(c: Cipher, es: seq<Event>, id: ClientId) returns (bodies: seq<seq<byte>>)
    requires ValidRun(c, Init(), es) && NoShortWrite(es, id)
    ensures Encode(bodies) == WireOf(Run(c, Init(), es).registry, id)
    ensures forall body | body in bodies :: GoodReply(c, body)
  {
    NonInterference.NonInterference(c, Init(), es, id);
    assert Project(Init(), id) == Init();
    FilterConcerns(es, id);
    RunKeepsGoodWires(c, Init(), Filter(es, id));
    var g := Run(c, Init(), Filter(es, id)).registry;
    bodies := [];
    if id in g.wire {
      bodies :| Encode(bodies) == g.wire[id] && forall body | body in bodies :: GoodReply(c, body);
    }
  }

  /** Nothing takes back what was written to a connection. */
  lemma StepWireGrows(c: Cipher, s: State, e: Event, id: ClientId)
    requires Enabled(s, e) && e != Accept(id)
    ensures WireOf(s.registry, id) <= WireOf(Step(c, s, e).registry, id)
  {
    hide Boxed, Frame, ParsedRoutes;
    if e.Dispatch? {
      var p := s.phase.packet;
      var s' := Tabled(s, e.id, p);
      var reply := ReplyTo(s', e.id, p);
      if p.packetType != Keepalive && reply.Ok? {
        ReplyOutcome(c, s', e.id, reply.value, e.nonce, e.room,
                     if IsControl(p, Disconnect) then Leaving(e.id) else Idle);
      }
    }
  }

  lemma {:induction false} WireGrows(c: Cipher, s: State, es: seq<Event>, id: ClientId)
    requires ValidRun(c, s, es) && Accept(id) !in es
    ensures WireOf(s.registry, id) <= WireOf(Run(c, s, es).registry, id)
    decreases es
  {
    hide Step;
    if es != [] {
      StepWireGrows(c, s, es[0], id);
      WireGrows(c, Step(c, s, es[0]), es[1..], id);
    }
  }

  /** Whatever the sockets take later, what was sent before the first short write remains the beginning
      of the client's stream and splits into frames of good replies. */
  lemma ReadableUntilShortWrite(c: Cipher, before: seq<Event>, after: seq<Event>, id: ClientId)
    returns (bodies: seq<seq<byte>>)
    requires ValidRun(c, Init(), before) && NoShortWrite(before, id)
    requires ValidRun(c, Run(c, Init(), before), after) && Accept(id) !in after
    ensures WireOf(Run(c, Init(), before).registry, id) == Encode(bodies)
    ensures Encode(bodies) <= WireOf(Run(c, Run(c, Init(), before), after).registry, id)
    ensures forall body | body in bodies :: GoodReply(c, body)
  {
    bodies := RepliesReadable(c, before, id);
    WireGrows(c, Run(c, Init(), before), after, id);
  }

  /** The client reads the frames of such a stream one by one, in order. */
  lemma ClientDrains(c: Cipher, bodies: seq<seq<byte>>, k: nat)
    requires k < |bodies| && forall body | body in bodies :: GoodReply(c, body)
    ensures ClientRead(Encode(bodies[k..])) == Ok(bodies[k])
    ensures ClientUnread(Encode(bodies[k..])) == Encode(bodies[k + 1..])
  {
    assert bodies[k..][1..] == bodies[k + 1..] && bodies[k] in bodies;
    ClientReadsFrame(bodies[k], Encode(bodies[k + 1..]));
  }
}
