/** Which frames cost a client its registration, and which cost the worker its thread. */
module Eviction {
  import opened Bytes
  import opened Outcomes
  import opened Encryption
  import opened Packets
  import opened Handler
  import opened Routes
  import opened Framing
  import opened Service

  /** Bytes of a control reply without payload, with its prefix. */
  const ACK_FRAME_LENGTH := PREFIX_LENGTH + BOX_OVERHEAD

  /** A decrypted packet on which the worker drops its sender, read off its bytes. */
  predicate EvictingPlaintext(t: seq<byte>, room: nat) {
    |t| >= HEADER_LENGTH &&
    (t[8] > 2 ||
     (t[8] == 2 &&
      (|| t[9] > 3
       || t[9] == 1
       || (t[9] == 2 && (|t| - HEADER_LENGTH) % ENTRY_LENGTH != 0)
       || (t[9] == 3 && room >= ACK_FRAME_LENGTH))))
  }

  predicate EvictingInbox(c: Cipher, inbox: seq<byte>, peekOk: bool, room: nat) {
    && peekOk
    && |inbox| >= PREFIX_LENGTH
    && (|| Announced(inbox) > MAX_BODY
        || (|inbox| >= PREFIX_LENGTH + Announced(inbox) &&
            var plain := Opened(c, inbox[PREFIX_LENGTH..PREFIX_LENGTH + Announced(inbox)]);
            plain.Ok? && EvictingPlaintext(plain.value, room)))
  }

  predicate CrashingInbox(c: Cipher, inbox: seq<byte>, peekOk: bool) {
    && peekOk
    && |inbox| >= PREFIX_LENGTH
    && Announced(inbox) <= MAX_BODY
    && |inbox| >= PREFIX_LENGTH + Announced(inbox)
    && var plain := Opened(c, inbox[PREFIX_LENGTH..PREFIX_LENGTH + Announced(inbox)]);
       plain.Ok? && 8 <= |plain.value| < HEADER_LENGTH
  }

  /** Handling an accepted packet drops the client exactly on these plaintexts. */
  lemma DispatchEvicts(c: Cipher, s: State, id: ClientId, t: seq<byte>, nonce: Nonce, room: nat)
    requires id in s.registry.clients && Parsed(t).Ok?
    ensures var s1 := Dispatched(c, s, id, Parsed(t).value, nonce, room);
            var s2 := if s1.phase.Leaving? || s1.phase.Failing? then Finished(s1, id) else s1;
            && (id !in s2.registry.clients <==> EvictingPlaintext(t, room))
            && !s1.phase.Crashed? && !s1.phase.Received? && (!s1.phase.Idle? ==> s1.phase.id == id)
  {
    hide Boxed, WholeEntries, ConfigReply, Replied, Echo;
    var p, s' := Parsed(t).value, Tabled(s, id, Parsed(t).value);
    var reply := ReplyTo(s', id, p);
    if p.packetType != Keepalive && reply.Ok? {
      var next := if IsControl(p, Disconnect) then Leaving(id) else Idle;
      ReplyOutcome(c, s', id, reply.value, nonce, room, next);
      if IsControl(p, Disconnect) {
        SmallPacketsPack(c, nonce, NewControl(Disconnect));
        BoxRoundTrip(c, nonce, NewControl(Disconnect));
      }
    }
  }

  /** The exact eviction law: a worker turn drops a registered client if and only if the bytes waiting
      for it say so; every other error leaves it registered. */
  lemma EvictionLaw(c: Cipher, s: State, id: ClientId, peekOk: bool, nonce: Nonce, room: nat)
    requires id in s.registry.clients
    ensures id !in Iterated(c, s, id, peekOk, nonce, room).registry.clients <==>
            EvictingInbox(c, s.registry.clients[id].inbox, peekOk, room)
    ensures Iterated(c, s, id, peekOk, nonce, room).phase ==
            if CrashingInbox(c, s.registry.clients[id].inbox, peekOk) then Crashed(id) else Idle
  {
    var s1 := AfterPoll(c, s, id, peekOk);
    var polled := Poll(s.registry.clients[id].inbox, peekOk);
    if polled.Whole? && s1.phase.Received? {
      var t := Opened(c, polled.body).value;
      DispatchEvicts(c, s1, id, t, nonce, room);
    }
  }

  /** Where every poll leads, whatever runs between it and what follows. */
  lemma PollLeadsTo(c: Cipher, s: State, id: ClientId, peekOk: bool)
    ensures var s' := AfterPoll(c, s, id, peekOk);
            if id !in s.registry.clients then s'.phase == Failing(id, ClientNotFound) && s'.registry == s.registry
            else
              var inbox := s.registry.clients[id].inbox;
              if !peekOk || |inbox| < 4 then s'.phase == Idle && s'.registry.clients[id] == s.registry.clients[id]
              else if Announced(inbox) > 65535 then
                s'.phase == Failing(id, Protocol) && s'.registry.clients[id].inbox == inbox[4..]
              else if |inbox| < 4 + Announced(inbox) then
                s'.phase == Failing(id, Io) && s'.registry.clients[id].inbox == []
              else
                && s'.registry.clients[id] == ClientInfo(inbox[4 + Announced(inbox)..], s.now)
                && match Unboxed(c, inbox[4..4 + Announced(inbox)])
                   case Ok(p) => s'.phase == Received(id, p)
                   case Panic => s'.phase == Crashed(id)
                   case Err(e) =>
                     s'.phase == if Announced(inbox) < 4 then Idle else Failing(id, e)
  {
  }

  /** An error costs the client its registration exactly if it is one of two; whether the client was
      registered when the error arose makes no difference. */
  lemma FinishEvictsIff(s: State, id: ClientId)
    requires s.phase.Failing? && s.phase.id == id && id in s.registry.clients
    ensures id !in Finished(s, id).registry.clients <==>
            s.phase.error == ClientNotFound || s.phase.error == Protocol
    ensures Finished(s, id).routes == s.routes && Finished(s, id).configs == s.configs
    ensures Finished(s, id).phase == Idle
  {
  }

  /** Packets that `Pack` made never abort the worker: whatever was announced and has arrived in
      full opens to at least a header. */
  lemma PackedNeverCrashes(c: Cipher, nonce: Nonce, p: VpnPacket, inbox: seq<byte>, flight: seq<byte>,
          tail: seq<byte>, peekOk: bool)
    requires |p.payload| + BOX_OVERHEAD < TWO_TO_THE_32
    requires inbox + flight == Frame(Boxed(c, nonce, p).value) + tail
    ensures !CrashingInbox(c, inbox, peekOk)
  {
    BoxRoundTrip(c, nonce, p);
    if |inbox| >= PREFIX_LENGTH {
      HeadPoll(inbox, flight, Boxed(c, nonce, p).value, tail);
    }
  }

  /** Some poll of the run finds a whole frame that opens to eight or nine bytes. */
  predicate MeetsShortPlaintext(c: Cipher, s: State, es: seq<Event>)
    requires ValidRun(c, s, es)
    decreases es
  {
    es != [] &&
    var e := es[0];
    (|| (&& e.PollClient? && e.id in s.registry.clients
         && CrashingInbox(c, s.registry.clients[e.id].inbox, e.peekOk))
     || MeetsShortPlaintext(c, Step(c, s, e), es[1..]))
  }

  lemma StepCrashes(c: Cipher, s: State, e: Event)
    requires Enabled(s, e)
    ensures Step(c, s, e).phase.Crashed? <==>
            || s.phase.Crashed?
            || (&& e.PollClient? && e.id in s.registry.clients
                && CrashingInbox(c, s.registry.clients[e.id].inbox, e.peekOk))
  {
    hide Sealed, Replied, ParsedRoutes;
    if e.Dispatch? {
      var p := s.phase.packet;
      var s' := Tabled(s, e.id, p);
      var reply := ReplyTo(s', e.id, p);
      if p.packetType != Keepalive && reply.Ok? {
        ReplyOutcome(c, s', e.id, reply.value, e.nonce, e.room,
                     if IsControl(p, Disconnect) then Leaving(e.id) else Idle);
      }
    }
  }

  /** Over a run, the worker thread is lost if and only if it met such a frame. */
  lemma {:induction false} WorkerLostIff(c: Cipher, s: State, es: seq<Event>)
    requires ValidRun(c, s, es)
    ensures Run(c, s, es).phase.Crashed? <==> s.phase.Crashed? || MeetsShortPlaintext(c, s, es)
    decreases es
  {
    hide Step, CrashingInbox;
    if es != [] {
      StepCrashes(c, s, es[0]);
      WorkerLostIff(c, Step(c, s, es[0]), es[1..]);
    }
  }

  /** And one is met: under every cipher, whoever seals eight or nine bytes of its own ends the worker. */
  lemma ShortPlaintextReachable(c: Cipher, nonce: Nonce, plaintext: seq<byte>, id: ClientId)
    returns (es: seq<Event>)
    requires 8 <= |plaintext| < HEADER_LENGTH
    ensures ValidRun(c, Init(), es) && Run(c, Init(), es).phase == Crashed(id)
  {
    hide Frame, Poll, Unread;
    SealedOpens(c, nonce, plaintext);
    var box := Sealed(c, nonce, plaintext).value;
    var arrive, poll := Arrive(id, Frame(box)), PollClient(id, true);
    var s1 := Step(c, Init(), Accept(id));
    var s2 := Step(c, s1, arrive);
    assert [] + Frame(box) == Frame(box) && Frame(box) + [] == Frame(box);
    HeadPoll(Frame(box), [], box, []);
    RunCons(c, s2, poll, []);
    RunCons(c, s1, arrive, [poll] + []);
    RunCons(c, Init(), Accept(id), [arrive] + ([poll] + []));
    es := [Accept(id)] + ([arrive] + ([poll] + []));
  }
}
