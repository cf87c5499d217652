/** The client configuration and its twelve wire bytes. */
module Configuration {
  import opened Bytes
  import opened Outcomes

  type u32 = x: int | 0 <= x < TWO_TO_THE_32
  type u64 = x: int | 0 <= x < TWO_TO_THE_32 * TWO_TO_THE_32
  type Nanos = x: int | 0 <= x < 1_000_000_000

  datatype Duration = Duration(secs: u64, nanos: Nanos)

  datatype VpnConfig = VpnConfig(mtu: u64, keepaliveInterval: Duration, reconnectAttempts: u32)

  const CONFIG_LENGTH := 12

  function DefaultConfig(): VpnConfig {
    VpnConfig(1500, Duration(30, 0), 3)
  }

  /** What the wire can carry: whole seconds, and both wide fields modulo 2^32. */
  function Carried(config: VpnConfig): VpnConfig {
    VpnConfig(config.mtu % TWO_TO_THE_32,
              Duration(config.keepaliveInterval.secs % TWO_TO_THE_32, 0),
              config.reconnectAttempts)
  }

  function ConfigBytes(config: VpnConfig): (b: seq<byte>)
    ensures |b| == CONFIG_LENGTH
  {
    Be32(config.mtu) + Be32(config.keepaliveInterval.secs) + Be32(config.reconnectAttempts)
  }

  function ConfigFrom(bytes: seq<byte>): Outcome<VpnConfig> {
    if |bytes| < CONFIG_LENGTH then Err(Protocol)
    else Ok(VpnConfig(FromBe32(bytes[0..4]), Duration(FromBe32(bytes[4..8]), 0), FromBe32(bytes[8..12])))
  }

  method SerializeConfig(config: VpnConfig) returns (data: seq<byte>)
    ensures data == ConfigBytes(config)
    ensures |data| == 12 && ConfigFrom(data) == Ok(Carried(config))
  {
    data := [];
    data := data + Be32(config.mtu);
    data := data + Be32(config.keepaliveInterval.secs);
    data := data + Be32(config.reconnectAttempts);
    ConfigCodec(config, []);
    assert data + [] == data;
  }

  method FromBytes(bytes: seq<byte>) returns (r: Outcome<VpnConfig>)
    ensures r == ConfigFrom(bytes)
    ensures r.Ok? <==> |bytes| >= 12
    ensures r.Ok? ==> ConfigBytes(r.value) == bytes[..CONFIG_LENGTH] && Carried(r.value) == r.value
  {
    if |bytes| < CONFIG_LENGTH {
      return Err(Protocol);
    }
    var mtuBytes, keepaliveBytes, reconnectBytes := bytes[0..4], bytes[4..8], bytes[8..12];
    r := Ok(VpnConfig(FromBe32(mtuBytes), Duration(FromBe32(keepaliveBytes), 0), FromBe32(reconnectBytes)));
    ConfigRewrites(bytes);
  }

  /** Reading ignores what follows the twelve bytes, and loses exactly what the wire cannot carry. */
  lemma ConfigCodec(config: VpnConfig, suffix: seq<byte>)
    ensures ConfigFrom(ConfigBytes(config) + suffix) == Ok(Carried(config))
    ensures Carried(config) == config <==>
            && config.mtu < TWO_TO_THE_32
            && config.keepaliveInterval.secs < TWO_TO_THE_32
            && config.keepaliveInterval.nanos == 0
  {
    hide Be32, FromBe32;
    var bytes := ConfigBytes(config) + suffix;
    assert bytes[0..4] == Be32(config.mtu);
    assert bytes[4..8] == Be32(config.keepaliveInterval.secs);
    assert bytes[8..12] == Be32(config.reconnectAttempts);
    Be32Truncates(config.mtu);
    Be32Truncates(config.keepaliveInterval.secs);
    Be32Truncates(config.reconnectAttempts);
  }

  /** The twelve bytes every client is sent: 1500, 30 seconds, 3. */
  lemma DefaultBytes()
    ensures ConfigBytes(DefaultConfig()) == [0, 0, 5, 220, 0, 0, 0, 30, 0, 0, 0, 3]
  {
    assert Be32(1500) == [0, 0, 5, 220] && Be32(30) == [0, 0, 0, 30] && Be32(3) == [0, 0, 0, 3];
  }

  lemma ConfigRewrites(bytes: seq<byte>)
    requires |bytes| >= CONFIG_LENGTH
    ensures ConfigBytes(ConfigFrom(bytes).value) == bytes[..CONFIG_LENGTH]
    ensures Carried(ConfigFrom(bytes).value) == ConfigFrom(bytes).value
  {
    hide Be32, FromBe32;
    Be32Inverts(bytes[0..4]);
    Be32Inverts(bytes[4..8]);
    Be32Inverts(bytes[8..12]);
  }
}
