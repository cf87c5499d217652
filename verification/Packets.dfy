/** The VPN packet and its plain byte layout: two addresses, a type byte, a control byte, the payload. */
module Packets {
  import opened Bytes
  import opened Outcomes

  type Ip = s: seq<byte> | |s| == 4 witness [0, 0, 0, 0]

  const NO_IP: Ip := [0, 0, 0, 0]
  const HEADER_LENGTH := 10

  datatype PacketType = Data | Keepalive | Control

  datatype ControlType = ConfigRequest | ConfigResponse | RouteUpdate | Disconnect

  datatype VpnPacket = VpnPacket(
    sourceIp: Ip,
    destIp: Ip,
    packetType: PacketType,
    controlType: Option<ControlType>,
    payload: seq<byte>)

  function NewKeepalive(): VpnPacket {
    VpnPacket(NO_IP, NO_IP, Keepalive, None, [])
  }

  function NewControl(controlType: ControlType): VpnPacket {
    VpnPacket(NO_IP, NO_IP, Control, Some(controlType), [])
  }

  function PacketTypeByte(t: PacketType): byte {
    match t
    case Data => 0
    case Keepalive => 1
    case Control => 2
  }

  function PacketTypeFrom(b: byte): Outcome<PacketType> {
    match b
    case 0 => Ok(Data)
    case 1 => Ok(Keepalive)
    case 2 => Ok(Control)
    case _ => Err(Protocol)
  }

  function ControlTypeByte(t: ControlType): byte {
    match t
    case ConfigRequest => 0
    case ConfigResponse => 1
    case RouteUpdate => 2
    case Disconnect => 3
  }

  function ControlTypeFrom(b: byte): Outcome<ControlType> {
    match b
    case 0 => Ok(ConfigRequest)
    case 1 => Ok(ConfigResponse)
    case 2 => Ok(RouteUpdate)
    case 3 => Ok(Disconnect)
    case _ => Err(Protocol)
  }

  /** The layout that `ToBytes` and the protocol handler's `Pack` both write. */
  function Plaintext(p: VpnPacket): (b: seq<byte>)
    ensures |b| == |p.payload| + HEADER_LENGTH
  {
    p.sourceIp + p.destIp + [PacketTypeByte(p.packetType), ControlByte(p)] + p.payload
  }

  function ControlByte(p: VpnPacket): byte {
    if p.controlType.Some? then ControlTypeByte(p.controlType.value) else 0
  }

  /** What survives a trip through bytes: only Control packets have a control type, and a missing
      one reads back as a configuration request. */
  function Normal(p: VpnPacket): VpnPacket {
    p.(controlType :=
       if p.packetType != Control then None
       else if p.controlType.None? then Some(ConfigRequest)
       else p.controlType)
  }

  predicate ControlTypeFits(p: VpnPacket) {
    p.packetType == Control <==> p.controlType.Some?
  }

  function ReadPacket(b: seq<byte>): Outcome<VpnPacket>
    requires |b| >= HEADER_LENGTH
  {
    var packetType :- PacketTypeFrom(b[8]);
    if packetType == Control then
      var controlType :- ControlTypeFrom(b[9]);
      Ok(VpnPacket(b[0..4], b[4..8], packetType, Some(controlType), b[10..]))
    else
      Ok(VpnPacket(b[0..4], b[4..8], packetType, None, b[10..]))
  }

  function Decoded(bytes: seq<byte>): Outcome<VpnPacket> {
    if |bytes| < HEADER_LENGTH then Err(Protocol) else ReadPacket(bytes)
  }

  method ToBytes(p: VpnPacket) returns (bytes: seq<byte>)
    ensures bytes == Plaintext(p)
    ensures ReadPacket(bytes) == Ok(Normal(p))
  {
    bytes := [];
    bytes := bytes + p.sourceIp;
    bytes := bytes + p.destIp;
    bytes := bytes + [PacketTypeByte(p.packetType)];
    match p.controlType {
      case Some(ct) => bytes := bytes + [ControlTypeByte(ct)];
      case None => bytes := bytes + [0];
    }
    bytes := bytes + p.payload;
    PlaintextReads(p);
  }

  method FromBytes(bytes: seq<byte>) returns (r: Outcome<VpnPacket>)
    ensures r == Decoded(bytes)
    ensures r.Ok? ==> (Plaintext(r.value) == bytes <==> r.value.packetType == Control || bytes[9] == 0)
  {
    if |bytes| < HEADER_LENGTH {
      return Err(Protocol);
    }
    var sourceIp, destIp := bytes[0..4], bytes[4..8];
    var packetType :- PacketTypeFrom(bytes[8]);
    var controlType: Option<ControlType> := None;
    if packetType == Control {
      var ct :- ControlTypeFrom(bytes[9]);
      controlType := Some(ct);
    }
    var payload := bytes[10..];
    r := Ok(VpnPacket(sourceIp, destIp, packetType, controlType, payload));
    ReadRewrites(bytes);
  }

  /** The layout byte by byte: source, destination, 0 to 2 for the type, 0 to 3 for the control type,
      then the payload. */
  lemma PlaintextLayout(p: VpnPacket)
    ensures var b := Plaintext(p);
            && |b| == 10 + |p.payload|
            && b[0..4] == p.sourceIp && b[4..8] == p.destIp && b[10..] == p.payload
            && b[8] == (match p.packetType case Data => 0 case Keepalive => 1 case Control => 2)
            && b[9] == (match p.controlType
                        case None => 0
                        case Some(t) =>
                          match t case ConfigRequest => 0 case ConfigResponse => 1 case RouteUpdate => 2
                                  case Disconnect => 3)
    ensures Plaintext(NewKeepalive()) == [0, 0, 0, 0, 0, 0, 0, 0, 1, 0]
    ensures Plaintext(NewControl(ConfigRequest)) == [0, 0, 0, 0, 0, 0, 0, 0, 2, 0]
    ensures Plaintext(NewControl(Disconnect)) == [0, 0, 0, 0, 0, 0, 0, 0, 2, 3]
  {
    var b := Plaintext(p);
    assert b[0..4] == p.sourceIp && b[4..8] == p.destIp && b[10..] == p.payload;
  }

  /** Exactly the bytes with a known type, and a known control type if it is 2, read as a packet, and
      its fields are where the layout has them. */
  lemma ReadLayout(b: seq<byte>)
    requires |b| >= 10
    ensures ReadPacket(b).Ok? <==> b[8] < 2 || (b[8] == 2 && b[9] < 4)
    ensures !ReadPacket(b).Ok? ==> ReadPacket(b) == Err(Protocol)
    ensures ReadPacket(b).Ok? ==>
              var p := ReadPacket(b).value;
              && p.sourceIp == b[0..4] && p.destIp == b[4..8] && p.payload == b[10..]
              && (b[8] == 0 <==> p.packetType == Data) && (b[8] == 1 <==> p.packetType == Keepalive)
              && (p.controlType.Some? <==> b[8] == 2)
              && (b[8] == 2 ==>
                    p.controlType.value == [ConfigRequest, ConfigResponse, RouteUpdate, Disconnect][b[9]])
  {
  }

  lemma PlaintextReads(p: VpnPacket)
    ensures ReadPacket(Plaintext(p)) == Ok(Normal(p))
    ensures Normal(p) == p <==> ControlTypeFits(p)
  {
    var b := Plaintext(p);
    assert b[0..4] == p.sourceIp;
    assert b[4..8] == p.destIp;
    assert b[8] == PacketTypeByte(p.packetType) && b[9] == ControlByte(p);
    assert b[10..] == p.payload;
  }

  /** Writing back what was read gives the same bytes exactly when no control byte was ignored. */
  lemma ReadRewrites(b: seq<byte>)
    requires |b| >= HEADER_LENGTH && ReadPacket(b).Ok?
    ensures var p := ReadPacket(b).value;
            && Normal(p) == p
            && |p.payload| == |b| - HEADER_LENGTH
            && (Plaintext(p) == b <==> p.packetType == Control || b[9] == 0)
  {
  }
}
