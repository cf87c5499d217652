/** The protocol handler: packets to sealed boxes and back. */
module Handler {
  import opened Bytes
  import opened Outcomes
  import opened Encryption
  import opened Packets

  const BOX_OVERHEAD := HEADER_LENGTH + NONCE_LENGTH + TAG_LENGTH
  /** The largest frame body either reader accepts. */
  const MAX_BODY := 65535

  function Boxed(c: Cipher, nonce: Nonce, p: VpnPacket): Outcome<seq<byte>> {
    Sealed(c, nonce, Plaintext(p))
  }

  /** Reading a decrypted packet: the length guard is 8, but the payload is sliced from 10. */
  function Parsed(plaintext: seq<byte>): Outcome<VpnPacket> {
    if |plaintext| < 8 then Err(GenericError)
    else if |plaintext| < HEADER_LENGTH then Panic
    else ReadPacket(plaintext)
  }

  function Unboxed(c: Cipher, data: seq<byte>): Outcome<VpnPacket> {
    var plaintext :- Opened(c, data);
    Parsed(plaintext)
  }

  method Pack(c: Cipher, nonce: Nonce, packet: VpnPacket) returns (r: Outcome<seq<byte>>)
    ensures r == Boxed(c, nonce, packet)
    ensures r.Ok? ==> Unboxed(c, r.value) == Ok(Normal(packet))
    ensures r.Ok? ==> |r.value| == |packet.payload| + BOX_OVERHEAD
  {
    var data: seq<byte> := [];
    data := data + packet.sourceIp;
    data := data + packet.destIp;
    data := data + [PacketTypeByte(packet.packetType)];
    var controlType := if packet.controlType.Some? then packet.controlType.value else ConfigRequest;
    data := data + [ControlTypeByte(controlType)];
    data := data + packet.payload;
    assert data == Plaintext(packet);
    r := Encrypt(c, nonce, data);
    if r.Ok? {
      BoxRoundTrip(c, nonce, packet);
    }
  }

  method Unpack(c: Cipher, data: seq<byte>) returns (r: Outcome<VpnPacket>)
    ensures r == Unboxed(c, data)
    ensures r.Panic? <==> Opened(c, data).Ok? && 8 <= |Opened(c, data).value| < HEADER_LENGTH
  {
    var decrypted :- Decrypt(c, data);
    if |decrypted| < 8 {
      return Err(GenericError);
    }
    var sourceIp, destIp := decrypted[0..4], decrypted[4..8];
    if |decrypted| < HEADER_LENGTH {
      return Panic;
    }
    var payload := decrypted[10..];
    var packetType :- PacketTypeFrom(decrypted[8]);
    var controlType: Option<ControlType> := None;
    if packetType == Control {
      var ct :- ControlTypeFrom(decrypted[9]);
      controlType := Some(ct);
    }
    r := Ok(VpnPacket(sourceIp, destIp, packetType, controlType, payload));
  }

  /** Packing and unpacking gives the normal form, which is the packet itself exactly when it has
      a control type if and only if it is a Control packet. */
  lemma BoxRoundTrip(c: Cipher, nonce: Nonce, p: VpnPacket)
    requires Boxed(c, nonce, p).Ok?
    ensures Unboxed(c, Boxed(c, nonce, p).value) == Ok(Normal(p))
    ensures Normal(p) == p <==> ControlTypeFits(p)
    ensures |Boxed(c, nonce, p).value| == |p.payload| + BOX_OVERHEAD
    ensures |Opened(c, Boxed(c, nonce, p).value).value| >= HEADER_LENGTH
  {
    SealedOpens(c, nonce, Plaintext(p));
    PlaintextReads(p);
  }

  /** What unpacking makes of any bytes: too short for a nonce, not sealed with the key, too short for a
      packet, too short for a payload, of an unknown type, or a packet. */
  lemma UnboxedOutcomes(c: Cipher, data: seq<byte>)
    ensures var plain := if |data| < 12 then None else c.open(data[..12], data[12..]);
            Unboxed(c, data) ==
            if |data| < 12 then Err(GenericError)
            else if plain.None? then Err(VpnError.Encryption)
            else if |plain.value| < 8 then Err(GenericError)
            else if |plain.value| < 10 then Panic
            else if plain.value[8] > 2 || (plain.value[8] == 2 && plain.value[9] > 3) then Err(Protocol)
            else ReadPacket(plain.value)
  {
    var plain := if |data| < 12 then None else c.open(data[..12], data[12..]);
    if plain.Some? && |plain.value| >= 10 {
      ReadLayout(plain.value);
    }
  }

  /** The other direction: an accepted box is the box of the packet read from it, under its own
      nonce, exactly when no control byte was ignored. */
  lemma UnboxedReboxes(c: Cipher, box: seq<byte>)
    requires Unboxed(c, box).Ok?
    ensures var p := Unboxed(c, box).value;
            && Normal(p) == p
            && |box| == |p.payload| + BOX_OVERHEAD
            && (Boxed(c, box[..NONCE_LENGTH], p) == Ok(box) <==>
                p.packetType == Control || Opened(c, box).value[9] == 0)
  {
    var p, plaintext := Unboxed(c, box).value, Opened(c, box).value;
    OpenedSeals(c, box);
    ReadRewrites(plaintext);
    if Boxed(c, box[..NONCE_LENGTH], p) == Ok(box) {
      SealedOpens(c, box[..NONCE_LENGTH], Plaintext(p));
      assert Plaintext(p) == plaintext;
    }
  }

  lemma SmallPacketsPack(c: Cipher, nonce: Nonce, p: VpnPacket)
    requires |p.payload| + BOX_OVERHEAD < TWO_TO_THE_32
    ensures Boxed(c, nonce, p).Ok?
  {
  }

  /** The two decoders agree on every plaintext of at least ten bytes. On shorter ones the packet
      decoder reports a protocol error where the handler gives a generic one, or aborts. */
  lemma DecodersAgree(b: seq<byte>)
    ensures Parsed(b) == Decoded(b) <==> |b| >= HEADER_LENGTH
  {
  }
}
