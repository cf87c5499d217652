/** Length-prefixed frames on a byte stream, the server's non-blocking reader and the client's
    blocking one. */
module Framing {
  import opened Bytes
  import opened Outcomes
  import opened Encryption
  import opened Packets
  import opened Handler

  const PREFIX_LENGTH := 4

  /** What `write_packet` puts on the stream; the prefix is a truncating cast of the length. */
  function Frame(body: seq<byte>): (f: seq<byte>)
    ensures |f| == PREFIX_LENGTH + |body|
  {
    Be32(|body|) + body
  }

  function Encode(bodies: seq<seq<byte>>): seq<byte> {
    if bodies == [] then [] else Frame(bodies[0]) + Encode(bodies[1..])
  }

  function Announced(pending: seq<byte>): nat
    requires |pending| >= PREFIX_LENGTH
  {
    FromBe32(pending[..PREFIX_LENGTH])
  }

  // ---- The server's reader

  datatype Polled =
    | Quiet
    | Oversized
    | Torn
    | Whole(body: seq<byte>)

  /** One `service_read_packet` when `pending` bytes are buffered. `peekOk` is false when the peek
      reports an error, which the reader takes for silence. */
  function Poll(pending: seq<byte>, peekOk: bool): Polled {
    if !peekOk || |pending| < PREFIX_LENGTH then Quiet
    else if Announced(pending) > MAX_BODY then Oversized
    else if |pending| < PREFIX_LENGTH + Announced(pending) then Torn
    else Whole(pending[PREFIX_LENGTH..PREFIX_LENGTH + Announced(pending)])
  }

  /** What is left unread. A torn body is consumed, with its prefix, before the read fails. */
  function Unread(pending: seq<byte>, peekOk: bool): seq<byte> {
    match Poll(pending, peekOk)
    case Quiet => pending
    case Oversized => pending[PREFIX_LENGTH..]
    case Torn => []
    case Whole(body) => pending[PREFIX_LENGTH + |body|..]
  }

  function PollResult(polled: Polled): Outcome<seq<byte>> {
    match polled
    case Quiet => Ok([])
    case Oversized => Err(Protocol)
    case Torn => Err(Io)
    case Whole(body) => Ok(body)
  }

  /** The poll will find either less than a prefix or a whole frame. */
  predicate WholePoll(pending: seq<byte>, peekOk: bool) {
    peekOk && |pending| >= PREFIX_LENGTH ==> |pending| >= PREFIX_LENGTH + Announced(pending)
  }

  // ---- The client's reader

  /** `client_read_packet` when `available` bytes come before the read times out. */
  function ClientRead(available: seq<byte>): Outcome<seq<byte>> {
    if |available| < PREFIX_LENGTH then Err(Io)
    else if Announced(available) > MAX_BODY then Err(Protocol)
    else if |available| < PREFIX_LENGTH + Announced(available) then Err(Io)
    else Ok(available[PREFIX_LENGTH..PREFIX_LENGTH + Announced(available)])
  }

  function ClientUnread(available: seq<byte>): seq<byte> {
    if |available| < PREFIX_LENGTH then []
    else if Announced(available) > MAX_BODY then available[PREFIX_LENGTH..]
    else if |available| < PREFIX_LENGTH + Announced(available) then []
    else available[PREFIX_LENGTH + Announced(available)..]
  }

  // ---- One frame

  /** Polling a stream that starts with the frame of `body`, of which `pending` has arrived. */
  lemma HeadPoll(pending: seq<byte>, flight: seq<byte>, body: seq<byte>, tail: seq<byte>)
    requires pending + flight == Frame(body) + tail
    requires |body| < TWO_TO_THE_32 && |pending| >= PREFIX_LENGTH
    ensures Announced(pending) == |body|
    ensures |body| <= MAX_BODY && |pending| >= PREFIX_LENGTH + |body| ==>
              Poll(pending, true) == Whole(body) && Unread(pending, true) + flight == tail
    ensures |body| <= MAX_BODY && |pending| < PREFIX_LENGTH + |body| ==> Poll(pending, true) == Torn
    ensures |body| > MAX_BODY ==> Poll(pending, true) == Oversized
  {
    hide Be32, FromBe32;
    var stream := pending + flight;
    assert pending[..PREFIX_LENGTH] == stream[..PREFIX_LENGTH] == Be32(|body|);
    Be32Truncates(|body|);
    if |body| <= MAX_BODY && |pending| >= PREFIX_LENGTH + |body| {
      assert pending[PREFIX_LENGTH..PREFIX_LENGTH + |body|] == stream[PREFIX_LENGTH..PREFIX_LENGTH + |body|] == body;
      assert pending[PREFIX_LENGTH + |body|..] + flight == stream[PREFIX_LENGTH + |body|..] == tail;
    }
  }

  /** The client reads back what was framed, whatever follows it, exactly up to its size limit. */
  lemma ClientReadsFrame(body: seq<byte>, tail: seq<byte>)
    requires |body| < TWO_TO_THE_32
    ensures ClientRead(Frame(body) + tail) == Ok(body) <==> |body| <= MAX_BODY
    ensures |body| <= MAX_BODY ==> ClientUnread(Frame(body) + tail) == tail
  {
    var stream := Frame(body) + tail;
    assert stream + [] == stream;
    HeadPoll(stream, [], body, tail);
    assert stream[PREFIX_LENGTH + |body|..] == tail;
  }

  /** Both readers take a packed packet's frame if and only if its payload is at most 65497 bytes, as
      long as the prefix does not wrap; and the prefix is exact exactly below the wrap. */
  lemma ReadersAcceptIff(c: Cipher, nonce: Nonce, p: VpnPacket)
    requires Boxed(c, nonce, p).Ok?
    ensures var box := Boxed(c, nonce, p).value;
            && (Announced(Frame(box)) == |box| <==> |p.payload| + BOX_OVERHEAD < TWO_TO_THE_32)
            && (|p.payload| + BOX_OVERHEAD < TWO_TO_THE_32 ==>
                  && (Poll(Frame(box), true) == Whole(box) <==> |p.payload| <= 65497)
                  && (ClientRead(Frame(box)) == Ok(box) <==> |p.payload| <= 65497))
  {
    hide Be32, FromBe32;
    BoxRoundTrip(c, nonce, p);
    var box := Boxed(c, nonce, p).value;
    assert Frame(box)[..PREFIX_LENGTH] == Be32(|box|);
    Be32Truncates(|box|);
    if |box| < TWO_TO_THE_32 {
      assert Frame(box) + [] == Frame(box);
      HeadPoll(Frame(box), [], box, []);
      ClientReadsFrame(box, []);
    }
  }

  /** A frame that has not arrived in full cannot be read by the client. */
  lemma PartialFrameUnreadable(body: seq<byte>, part: seq<byte>)
    requires part < Frame(body) && |body| <= MAX_BODY
    ensures ClientRead(part) == Err(Io)
  {
  }

  /** What every read of the client returns, and what it leaves unread. */
  lemma ClientReadOutcomes(available: seq<byte>)
    ensures var r, rest := ClientRead(available), ClientUnread(available);
            if |available| < 4 then r == Err(Io) && rest == []
            else
              var n := FromBe32(available[..4]);
              if n > 65535 then r == Err(Protocol) && rest == available[4..]
              else if |available| < 4 + n then r == Err(Io) && rest == []
              else r.Ok? && |r.value| == n && available[..4] + r.value + rest == available
  {
  }

  lemma {:induction false} SuffixLength(sent: seq<seq<byte>>, m: nat)
    requires 0 < m <= |sent|
    ensures |Encode(sent[m..])| + |Frame(sent[0])| <= |Encode(sent)|
    decreases m
  {
    if m > 1 {
      SuffixLength(sent[1..], m - 1);
      assert sent[1..][m - 1..] == sent[m..];
    }
  }

  lemma TimedOutReadLosesSync(available: seq<byte>, coming: seq<byte>, sent: seq<seq<byte>>, m: nat)
    requires sent != [] && |sent[0]| <= MAX_BODY && available + coming == Encode(sent) && m <= |sent|
    requires 0 < |available| < |Frame(sent[0])|
    ensures ClientRead(available) == Err(Io) && ClientUnread(available) == []
    ensures coming != Encode(sent[m..])
  {
    hide Frame;
    assert available == (available + coming)[..|available|] == Frame(sent[0])[..|available|];
    PartialFrameUnreadable(sent[0], available);
    if m > 0 {
      SuffixLength(sent, m);
    } else {
      assert sent[0..] == sent;
    }
  }

  lemma WholeReadKeepsSync(available: seq<byte>, coming: seq<byte>, sent: seq<seq<byte>>)
    requires sent != [] && |sent[0]| <= MAX_BODY && available + coming == Encode(sent)
    requires |available| >= |Frame(sent[0])|
    ensures ClientRead(available) == Ok(sent[0]) && ClientUnread(available) + coming == Encode(sent[1..])
  {
    hide Frame, ClientRead, ClientUnread;
    var frame, beyond := Frame(sent[0]), available[|Frame(sent[0])|..];
    assert available[..|frame|] == (available + coming)[..|frame|] == frame;
    assert available == frame + beyond;
    ClientReadsFrame(sent[0], beyond);
    assert beyond + coming == (available + coming)[|frame|..] == Encode(sent[1..]);
  }

  /** The client's reader consumes what it has found of a frame before it times out. It ends at a frame
      boundary if and only if it found nothing or a whole frame. */
  lemma ClientReadKeepsSyncIff(available: seq<byte>, coming: seq<byte>, sent: seq<seq<byte>>)
    requires (forall i | 0 <= i < |sent| :: |sent[i]| <= MAX_BODY) && available + coming == Encode(sent)
    ensures (exists m: nat :: m <= |sent| && ClientUnread(available) + coming == Encode(sent[m..])) <==>
            available == [] || ClientRead(available) != Err(Io)
  {
    hide Frame, Encode, Announced;
    if available == [] {
      assert sent[0..] == sent && [] + coming == coming;
      assert ClientUnread(available) + coming == Encode(sent[0..]);
    } else {
      assert sent != [] by { EmptyEncode(sent); }
      if |available| >= |Frame(sent[0])| {
        WholeReadKeepsSync(available, coming, sent);
      } else {
        forall m: nat | m <= |sent| ensures ClientUnread(available) + coming != Encode(sent[m..]) {
          TimedOutReadLosesSync(available, coming, sent, m);
          assert [] + coming == coming;
        }
        TimedOutReadLosesSync(available, coming, sent, 0);
      }
    }
  }

  lemma EmptyEncode(sent: seq<seq<byte>>)
    ensures Encode(sent) == [] <==> sent == []
  {
  }

  lemma Associative(a: seq<byte>, b: seq<byte>, c: seq<byte>)
    ensures a + (b + c) == a + b + c
  {
  }

  lemma {:induction false} EncodeConcatenates(a: seq<seq<byte>>, b: seq<seq<byte>>)
    ensures Encode(a + b) == Encode(a) + Encode(b)
  {
    hide Frame;
    if a == [] {
      assert a + b == b;
    } else {
      EncodeConcatenates(a[1..], b);
      assert (a + b)[1..] == a[1..] + b && (a + b)[0] == a[0];
      Associative(Frame(a[0]), Encode(a[1..]), Encode(b));
    }
  }

  lemma EncodeSnoc(bodies: seq<seq<byte>>, body: seq<byte>)
    ensures Encode(bodies + [body]) == Encode(bodies) + Frame(body)
  {
    EncodeConcatenates(bodies, [body]);
    assert Encode([body]) == Frame(body) + Encode([]);
  }

  // ---- Any arrivals, any polls

  datatype Link = Link(flight: seq<byte>, inbox: seq<byte>, delivered: seq<seq<byte>>)

  datatype Move = Arrival(count: nat) | PollMove(peekOk: bool)

  function Moved(l: Link, m: Move): Link {
    match m
    case Arrival(count) =>
      var k := if count <= |l.flight| then count else |l.flight|;
      Link(l.flight[k..], l.inbox + l.flight[..k], l.delivered)
    case PollMove(peekOk) =>
      var result := PollResult(Poll(l.inbox, peekOk));
      Link(l.flight, Unread(l.inbox, peekOk),
           if result.Ok? && result.value != [] then l.delivered + [result.value] else l.delivered)
  }

  function MovedAll(l: Link, ms: seq<Move>): Link
    decreases ms
  {
    if ms == [] then l else MovedAll(Moved(l, ms[0]), ms[1..])
  }

  predicate WholeMoves(l: Link, ms: seq<Move>)
    decreases ms
  {
    ms == [] ||
    ((ms[0].PollMove? ==> WholePoll(l.inbox, ms[0].peekOk)) && WholeMoves(Moved(l, ms[0]), ms[1..]))
  }

  predicate Sendable(bodies: seq<seq<byte>>) {
    forall i | 0 <= i < |bodies| :: 0 < |bodies[i]| <= MAX_BODY
  }

  /** The first `n` frames are delivered and the bytes outstanding encode exactly the others. */
  predicate InSync(l: Link, sent: seq<seq<byte>>, n: nat) {
    n <= |sent| && l.delivered == sent[..n] && l.inbox + l.flight == Encode(sent[n..])
  }

  lemma WholeMoveKeepsSync(l: Link, m: Move, sent: seq<seq<byte>>, n: nat) returns (n': nat)
    requires Sendable(sent) && InSync(l, sent, n)
    requires m.PollMove? ==> WholePoll(l.inbox, m.peekOk)
    ensures InSync(Moved(l, m), sent, n') && n <= n' <= n + 1
  {
    n' := n;
    match m {
      case Arrival(count) =>
        assert Moved(l, m).inbox + Moved(l, m).flight == l.inbox + l.flight;
      case PollMove(peekOk) =>
        if peekOk && |l.inbox| >= PREFIX_LENGTH {
          assert n < |sent|;
          HeadPoll(l.inbox, l.flight, sent[n], Encode(sent[n + 1..]));
          n' := n + 1;
          assert sent[n..][1..] == sent[n'..] && sent[..n'] == sent[..n] + [sent[n]];
        }
    }
  }

  /** A poll that is not whole eats the head of a frame whose tail is still in flight, and what is
      then outstanding is the encoding of no suffix of what was sent. */
  lemma TornPollLosesSync(l: Link, sent: seq<seq<byte>>, n: nat, m: nat)
    requires Sendable(sent) && InSync(l, sent, n) && !WholePoll(l.inbox, true)
    ensures !InSync(Moved(l, PollMove(true)), sent, m)
  {
  }

  /** Exactly the whole polls keep the reader in sync. */
  lemma PollKeepsSyncIff(l: Link, peekOk: bool, sent: seq<seq<byte>>, n: nat)
    requires Sendable(sent) && InSync(l, sent, n)
    ensures (exists m: nat :: InSync(Moved(l, PollMove(peekOk)), sent, m)) <==> WholePoll(l.inbox, peekOk)
  {
    if WholePoll(l.inbox, peekOk) {
      var m := WholeMoveKeepsSync(l, PollMove(peekOk), sent, n);
    } else {
      forall m: nat ensures !InSync(Moved(l, PollMove(peekOk)), sent, m) {
        TornPollLosesSync(l, sent, n, m);
      }
    }
  }

  lemma {:induction false} WholeMovesKeepSync(l: Link, ms: seq<Move>, sent: seq<seq<byte>>, n: nat) returns (n': nat)
    requires Sendable(sent) && InSync(l, sent, n) && WholeMoves(l, ms)
    ensures n <= n' && InSync(MovedAll(l, ms), sent, n')
    decreases ms
  {
    n' := n;
    if ms != [] {
      n' := WholeMoveKeepsSync(l, ms[0], sent, n);
      n' := WholeMovesKeepSync(Moved(l, ms[0]), ms[1..], sent, n');
    }
  }

  /** Frames come out as they went in, however arrivals and whole polls are mixed; once fewer
      than four bytes are outstanding, all of them have come out. */
  lemma FramesArriveInOrder(sent: seq<seq<byte>>, ms: seq<Move>)
    requires Sendable(sent) && WholeMoves(Link(Encode(sent), [], []), ms)
    ensures var l := MovedAll(Link(Encode(sent), [], []), ms);
            && l.delivered <= sent
            && l.inbox + l.flight == Encode(sent[|l.delivered|..])
            && (|l.inbox| + |l.flight| < PREFIX_LENGTH ==> l.delivered == sent)
  {
    var l0 := Link(Encode(sent), [], []);
    assert sent[0..] == sent && [] + Encode(sent) == Encode(sent);
    var n := WholeMovesKeepSync(l0, ms, sent, 0);
    if n < |sent| {
      assert |Encode(sent[n..])| >= PREFIX_LENGTH;
    }
  }

  /** Without whole polls the order claim fails: here a frame is delivered that was never sent. */
  lemma TornPollForgesFrame()
    ensures var sent := [[9, 0, 0, 0, 1, 7]];
            var l := MovedAll(Link(Encode(sent), [], []), [Arrival(5), PollMove(true), Arrival(5), PollMove(true)]);
            Sendable(sent) && l.delivered == [[7]]
  {
    var sent: seq<seq<byte>> := [[9, 0, 0, 0, 1, 7]];
    assert sent[1..] == [];
    var stream: seq<byte> := [0, 0, 0, 6, 9, 0, 0, 0, 1, 7];
    assert Encode(sent) == stream;
    var l1 := Moved(Link(stream, [], []), Arrival(5));
    assert l1 == Link([0, 0, 0, 1, 7], [0, 0, 0, 6, 9], []);
    var l2 := Moved(l1, PollMove(true));
    assert l2 == Link([0, 0, 0, 1, 7], [], []);
    var l3 := Moved(l2, Arrival(5));
    assert l3 == Link([], [0, 0, 0, 1, 7], []);
    var l4 := Moved(l3, PollMove(true));
    assert Announced(l3.inbox) == 1 && l3.inbox[4..5] == [7];
    assert Poll(l3.inbox, true) == Whole([7]);
    assert l4.delivered == [[7]];
    var ms := [Arrival(5), PollMove(true), Arrival(5), PollMove(true)];
    assert ms[1..][1..] == [Arrival(5), PollMove(true)] && ms[1..][1..][1..] == [PollMove(true)];
    assert MovedAll(l3, [PollMove(true)]) == MovedAll(l4, []) == l4;
    assert MovedAll(l2, ms[1..][1..]) == l4;
  }
}
