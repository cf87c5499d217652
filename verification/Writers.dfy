/** The two writers of a client: the caller of `send_packet` and the keepalive thread share the socket
    without a lock, and each writes the prefix and the body of a frame separately. */
module Writers {
  import opened Bytes
  import opened Outcomes
  import opened Encryption
  import opened Packets
  import opened Handler
  import opened Framing

  datatype Writer = Caller | Keepaliver

  datatype WriteStep =
    | WritePrefix(writer: Writer, body: seq<byte>)
    | WriteBody(writer: Writer)

  /** `half` holds the frames of which only the prefix is written, `begun` all of them in order. */
  datatype Socket = Socket(stream: seq<byte>, half: map<Writer, seq<byte>>, begun: seq<seq<byte>>)

  function Fresh(): Socket {
    Socket([], map[], [])
  }

  predicate CanWrite(k: Socket, step: WriteStep) {
    match step
    case WritePrefix(w, _) => w !in k.half
    case WriteBody(w) => w in k.half
  }

  function AfterWriteStep(k: Socket, step: WriteStep): Socket
    requires CanWrite(k, step)
  {
    match step
    case WritePrefix(w, body) => Socket(k.stream + Be32(|body|), k.half[w := body], k.begun + [body])
    case WriteBody(w) => k.(stream := k.stream + k.half[w], half := k.half - {w})
  }

  predicate Writes(k: Socket, steps: seq<WriteStep>)
    decreases steps
  {
    steps == [] || (CanWrite(k, steps[0]) && Writes(AfterWriteStep(k, steps[0]), steps[1..]))
  }

  function AfterWrites(k: Socket, steps: seq<WriteStep>): Socket
    requires Writes(k, steps)
    decreases steps
  {
    if steps == [] then k else AfterWrites(AfterWriteStep(k, steps[0]), steps[1..])
  }

  /** No frame is begun while the other writer is within one. */
  predicate Apart(k: Socket, steps: seq<WriteStep>)
    requires Writes(k, steps)
    decreases steps
  {
    steps == [] ||
    ((steps[0].WritePrefix? ==> k.half == map[]) && Apart(AfterWriteStep(k, steps[0]), steps[1..]))
  }

  /** The frames have lengths a prefix can hold, and none begins like the prefix of one of them. Boxes
      begin with their nonces. */
  predicate Telling(bodies: seq<seq<byte>>) {
    && (forall i | 0 <= i < |bodies| :: PREFIX_LENGTH <= |bodies[i]| < TWO_TO_THE_32)
    && forall i, j | 0 <= i < |bodies| && 0 <= j < |bodies| :: bodies[i][..PREFIX_LENGTH] != Be32(|bodies[j]|)
  }

  /** The stream splits into frames that were written. */
  predicate SplitsInto(stream: seq<byte>, bodies: seq<seq<byte>>, begun: seq<seq<byte>>) {
    Encode(bodies) == stream && forall body | body in bodies :: body in begun
  }

  /** At most one frame is unfinished, and everything before it is whole. */
  predicate Framed(k: Socket) {
    || (k.half == map[] && k.stream == Encode(k.begun))
    || (&& k.begun != []
        && var done, last := k.begun[..|k.begun| - 1], k.begun[|k.begun| - 1];
           && k.stream == Encode(done) + Be32(|last|)
           && (k.half == map[Caller := last] || k.half == map[Keepaliver := last]))
  }

  lemma FramedWhole(k: Socket)
    requires Framed(k) && k.half == map[]
    ensures k.stream == Encode(k.begun)
  {
    hide Be32, Encode;
    assert Caller !in k.half && Keepaliver !in k.half;
    assert forall body: seq<byte> :: Caller in map[Caller := body] && Keepaliver in map[Keepaliver := body];
  }

  lemma ApartKeepsFramed(k: Socket, step: WriteStep)
    requires Framed(k) && CanWrite(k, step) && (step.WritePrefix? ==> k.half == map[])
    ensures Framed(AfterWriteStep(k, step))
  {
    hide Be32;
    var k' := AfterWriteStep(k, step);
    match step {
      case WritePrefix(w, body) =>
        FramedWhole(k);
        assert k'.begun[..|k'.begun| - 1] == k.begun && k'.half == map[w := body];
        assert w == Caller || w == Keepaliver;
      case WriteBody(w) =>
        var done, last := k.begun[..|k.begun| - 1], k.begun[|k.begun| - 1];
        assert k.begun == done + [last] && k'.half == map[];
        EncodeSnoc(done, last);
        Associative(Encode(done), Be32(|last|), last);
    }
  }

  lemma {:induction false} ApartInOrder(k: Socket, steps: seq<WriteStep>)
    requires Framed(k) && Writes(k, steps) && Apart(k, steps)
    ensures Framed(AfterWrites(k, steps))
    decreases steps
  {
    if steps != [] {
      ApartKeepsFramed(k, steps[0]);
      ApartInOrder(AfterWriteStep(k, steps[0]), steps[1..]);
    }
  }

  lemma {:induction false} StreamGrows(k: Socket, steps: seq<WriteStep>)
    requires Writes(k, steps)
    ensures k.stream <= AfterWrites(k, steps).stream && k.begun <= AfterWrites(k, steps).begun
    decreases steps
  {
    if steps != [] {
      StreamGrows(AfterWriteStep(k, steps[0]), steps[1..]);
    }
  }

  lemma SameLength(a: nat, b: nat)
    requires a < TWO_TO_THE_32 && b < TWO_TO_THE_32 && Be32(a) == Be32(b)
    ensures a == b
  {
    hide Be32, FromBe32;
    Be32Truncates(a);
    Be32Truncates(b);
  }

  lemma HeadDecodes(body: seq<byte>, tail: seq<byte>, bodies: seq<seq<byte>>)
    requires bodies != [] && Encode(bodies) == Frame(body) + tail
    requires |body| < TWO_TO_THE_32 && |bodies[0]| < TWO_TO_THE_32
    ensures bodies[0] == body && Encode(bodies[1..]) == tail
  {
    hide Be32;
    var stream, n := Encode(bodies), |Frame(body)|;
    assert Be32(|bodies[0]|) == stream[..PREFIX_LENGTH] == Be32(|body|);
    SameLength(|bodies[0]|, |body|);
    assert bodies[0] == stream[PREFIX_LENGTH..n] == body;
    assert Encode(bodies[1..]) == stream[n..] == tail;
  }

  /** A stream decodes in one way only. */
  lemma {:induction false} DecodesPrefix(done: seq<seq<byte>>, rest: seq<byte>, bodies: seq<seq<byte>>)
    requires Encode(bodies) == Encode(done) + rest
    requires (forall i | 0 <= i < |done| :: |done[i]| < TWO_TO_THE_32)
    requires (forall i | 0 <= i < |bodies| :: |bodies[i]| < TWO_TO_THE_32)
    ensures done <= bodies && Encode(bodies[|done|..]) == rest
    decreases |done|
  {
    hide Frame;
    if done == [] {
      assert bodies[0..] == bodies && [] + rest == rest;
    } else {
      Associative(Frame(done[0]), Encode(done[1..]), rest);
      HeadDecodes(done[0], Encode(done[1..]) + rest, bodies);
      DecodesPrefix(done[1..], rest, bodies[1..]);
      assert bodies[1..][|done| - 1..] == bodies[|done|..];
      assert done == [done[0]] + done[1..] && bodies == [bodies[0]] + bodies[1..];
    }
  }

  /** What a reader takes for a frame after two prefixes in a row has the length of the first frame and
      begins with the second prefix. */
  lemma AfterTwoPrefixes(body: seq<byte>, other: seq<byte>, rest: seq<byte>, bodies: seq<seq<byte>>)
    requires Encode(bodies) == Be32(|body|) + Be32(|other|) + rest
    requires PREFIX_LENGTH <= |body| < TWO_TO_THE_32
    requires forall i | 0 <= i < |bodies| :: |bodies[i]| < TWO_TO_THE_32
    ensures bodies != [] && |bodies[0]| == |body| && bodies[0][..PREFIX_LENGTH] == Be32(|other|)
  {
    hide Be32;
    var stream := Encode(bodies);
    assert bodies != [];
    var x := bodies[0];
    assert Be32(|x|) == stream[..PREFIX_LENGTH] == Be32(|body|);
    SameLength(|x|, |body|);
    assert x[..PREFIX_LENGTH] == stream[PREFIX_LENGTH..2 * PREFIX_LENGTH] == Be32(|other|);
  }

  lemma TwoPrefixesUnreadable(done: seq<seq<byte>>, body: seq<byte>, other: seq<byte>, rest: seq<byte>,
          begun: seq<seq<byte>>, bodies: seq<seq<byte>>)
    requires Telling(begun) && done + [body] + [other] <= begun
    ensures !SplitsInto(Encode(done) + (Be32(|body|) + Be32(|other|) + rest), bodies, begun)
  {
    hide Be32, Encode;
    assert begun[|done|] == body && begun[|done| + 1] == other;
    assert forall i | 0 <= i < |done| :: done[i] == begun[i];
    if SplitsInto(Encode(done) + (Be32(|body|) + Be32(|other|) + rest), bodies, begun) {
      assert forall i | 0 <= i < |bodies| :: bodies[i] in begun;
      DecodesPrefix(done, Be32(|body|) + Be32(|other|) + rest, bodies);
      AfterTwoPrefixes(body, other, rest, bodies[|done|..]);
      assert false;
    }
  }

  lemma Regrouped(a: seq<byte>, b: seq<byte>, c: seq<byte>, d: seq<byte>)
    ensures a + b + c + d == a + (b + c + d)
  {
  }

  lemma OverlapUnreadable(k: Socket, steps: seq<WriteStep>, bodies: seq<seq<byte>>)
    requires Framed(k) && Writes(k, steps) && steps != [] && steps[0].WritePrefix? && k.half != map[]
    requires Telling(AfterWrites(k, steps).begun)
    ensures !SplitsInto(AfterWrites(k, steps).stream, bodies, AfterWrites(k, steps).begun)
  {
    hide Be32, Encode, Telling, SplitsInto;
    var k', end := AfterWriteStep(k, steps[0]), AfterWrites(k, steps);
    StreamGrows(k', steps[1..]);
    var done, last, other := k.begun[..|k.begun| - 1], k.begun[|k.begun| - 1], steps[0].body;
    assert k'.begun == done + [last] + [other];
    var rest := end.stream[|k'.stream|..];
    assert end.stream == k'.stream + rest;
    Regrouped(Encode(done), Be32(|last|), Be32(|other|), rest);
    TwoPrefixesUnreadable(done, last, other, rest, end.begun, bodies);
  }

  lemma {:induction false} OverlappingUnreadable(k: Socket, steps: seq<WriteStep>, bodies: seq<seq<byte>>)
    requires Framed(k) && Writes(k, steps) && !Apart(k, steps) && Telling(AfterWrites(k, steps).begun)
    ensures !SplitsInto(AfterWrites(k, steps).stream, bodies, AfterWrites(k, steps).begun)
    decreases steps
  {
    hide Framed, Telling, SplitsInto;
    if steps[0].WritePrefix? && k.half != map[] {
      OverlapUnreadable(k, steps, bodies);
    } else {
      ApartKeepsFramed(k, steps[0]);
      OverlappingUnreadable(AfterWriteStep(k, steps[0]), steps[1..], bodies);
    }
  }

  /** However the two writers interleave, once both have finished: if neither began a frame while the
      other was within one, the stream is the frames in the order they were begun. Otherwise it does not
      split into frames that were written at all, unless one of them happens to begin like a prefix. */
  lemma StreamReadableIff(steps: seq<WriteStep>)
    requires Writes(Fresh(), steps) && AfterWrites(Fresh(), steps).half == map[]
    ensures var end := AfterWrites(Fresh(), steps);
            && (Apart(Fresh(), steps) ==> end.stream == Encode(end.begun))
            && (Telling(end.begun) ==>
                  ((exists bodies :: SplitsInto(end.stream, bodies, end.begun)) <==> Apart(Fresh(), steps)))
  {
    hide Telling;
    var end := AfterWrites(Fresh(), steps);
    if Apart(Fresh(), steps) {
      ApartInOrder(Fresh(), steps);
      FramedWhole(end);
      assert SplitsInto(end.stream, end.begun, end.begun);
    } else if Telling(end.begun) {
      forall bodies ensures !SplitsInto(end.stream, bodies, end.begun) {
        OverlappingUnreadable(Fresh(), steps, bodies);
      }
    }
  }

  /** A request and a keepalive, both prefixes before both bodies. */
  function Torn(box: seq<byte>, keepalive: seq<byte>): seq<WriteStep> {
    [WritePrefix(Caller, box), WritePrefix(Keepaliver, keepalive), WriteBody(Caller), WriteBody(Keepaliver)]
  }

  lemma TornStream(box: seq<byte>, keepalive: seq<byte>)
    ensures Writes(Fresh(), Torn(box, keepalive)) && !Apart(Fresh(), Torn(box, keepalive))
    ensures AfterWrites(Fresh(), Torn(box, keepalive)).stream == Be32(|box|) + Be32(|keepalive|) + box + keepalive
  {
    hide Be32;
    var steps := Torn(box, keepalive);
    assert steps[1..][1..] == [WriteBody(Caller), WriteBody(Keepaliver)];
    assert steps[1..][1..][1..] == [WriteBody(Keepaliver)] && steps[1..][1..][1..][1..] == [];
    var k1 := AfterWriteStep(Fresh(), steps[0]);
    var k2 := AfterWriteStep(k1, steps[1]);
    var k3 := AfterWriteStep(k2, WriteBody(Caller));
    var k4 := AfterWriteStep(k3, WriteBody(Keepaliver));
    assert k4.stream == Be32(|box|) + Be32(|keepalive|) + box + keepalive;
    assert Writes(k3, [WriteBody(Keepaliver)]) && AfterWrites(k3, [WriteBody(Keepaliver)]) == k4;
    assert Writes(k2, steps[1..][1..]) && AfterWrites(k2, steps[1..][1..]) == k4;
    assert Caller in k1.half;
  }

  /** What the server reads first of it: the other prefix, and of the request all but its end. */
  function Forged(box: seq<byte>, keepalive: seq<byte>): (f: seq<byte>)
    requires |box| >= PREFIX_LENGTH
    ensures |f| == |box| && f[..PREFIX_LENGTH] == Be32(|keepalive|)
  {
    Be32(|keepalive|) + box[..|box| - PREFIX_LENGTH]
  }

  lemma TornPolled(box: seq<byte>, keepalive: seq<byte>)
    requires PREFIX_LENGTH <= |box| <= MAX_BODY
    ensures Poll(Be32(|box|) + Be32(|keepalive|) + box + keepalive, true) == Whole(Forged(box, keepalive))
  {
    hide Be32, Poll;
    var forged, rest := Forged(box, keepalive), box[|box| - PREFIX_LENGTH..];
    var stream := Be32(|box|) + Be32(|keepalive|) + box + keepalive;
    assert box == box[..|box| - PREFIX_LENGTH] + rest;
    assert stream + [] == stream == Frame(forged) + (rest + keepalive);
    HeadPoll(stream, [], forged, rest + keepalive);
  }

  /** Sealed packets do not prevent it: unless a nonce happens to begin like the prefix of a keepalive,
      the server reads a frame that neither writer wrote. */
  lemma TornWritesForgeFrame(c: Cipher, p: VpnPacket, nonce: Nonce, keepaliveNonce: Nonce)
    requires |p.payload| + BOX_OVERHEAD <= MAX_BODY
    requires nonce[..PREFIX_LENGTH] != Be32(BOX_OVERHEAD) && keepaliveNonce[..PREFIX_LENGTH] != Be32(BOX_OVERHEAD)
    ensures Boxed(c, nonce, p).Ok? && Boxed(c, keepaliveNonce, NewKeepalive()).Ok?
    ensures var box, keepalive := Boxed(c, nonce, p).value, Boxed(c, keepaliveNonce, NewKeepalive()).value;
            && Writes(Fresh(), Torn(box, keepalive))
            && var polled := Poll(AfterWrites(Fresh(), Torn(box, keepalive)).stream, true);
               polled.Whole? && polled.body != box && polled.body != keepalive
  {
    hide Be32, Poll, Writes, AfterWrites;
    SmallPacketsPack(c, nonce, p);
    SmallPacketsPack(c, keepaliveNonce, NewKeepalive());
    BoxRoundTrip(c, nonce, p);
    BoxRoundTrip(c, keepaliveNonce, NewKeepalive());
    var box, keepalive := Boxed(c, nonce, p).value, Boxed(c, keepaliveNonce, NewKeepalive()).value;
    TornStream(box, keepalive);
    TornPolled(box, keepalive);
    assert box[..PREFIX_LENGTH] == nonce[..PREFIX_LENGTH];
    assert keepalive[..PREFIX_LENGTH] == keepaliveNonce[..PREFIX_LENGTH];
  }
}
