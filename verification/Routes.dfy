/** Route updates: sixteen bytes an entry, big-endian metric last. */
module Routes {
  import opened Bytes
  import opened Outcomes
  import opened Packets
  import opened Configuration

  datatype RouteEntry = RouteEntry(targetNetwork: Ip, networkMask: Ip, nextHop: Ip, metric: u32)

  const ENTRY_LENGTH := 16

  function EntryBytes(e: RouteEntry): (b: seq<byte>)
    ensures |b| == ENTRY_LENGTH
  {
    e.targetNetwork + e.networkMask + e.nextHop + Be32(e.metric)
  }

  function EntryFrom(b: seq<byte>): RouteEntry
    requires |b| >= ENTRY_LENGTH
  {
    RouteEntry(b[0..4], b[4..8], b[8..12], FromBe32(b[12..16]))
  }

  /** The serialiser that the parser inverts. */
  function RouteBytes(rs: seq<RouteEntry>): (b: seq<byte>)
    ensures |b| == ENTRY_LENGTH * |rs|
  {
    if rs == [] then [] else EntryBytes(rs[0]) + RouteBytes(rs[1..])
  }

  /** The entries in the longest part of the payload that divides into whole entries. */
  function WholeEntries(payload: seq<byte>): (rs: seq<RouteEntry>)
    ensures |rs| == |payload| / ENTRY_LENGTH
  {
    if |payload| < ENTRY_LENGTH then [] else [EntryFrom(payload)] + WholeEntries(payload[ENTRY_LENGTH..])
  }

  function ParsedRoutes(payload: seq<byte>): Outcome<seq<RouteEntry>> {
    if |payload| % ENTRY_LENGTH != 0 then Err(Protocol) else Ok(WholeEntries(payload))
  }

  lemma EntryRoundTrip(e: RouteEntry, rest: seq<byte>)
    ensures EntryFrom(EntryBytes(e) + rest) == e
  {
    hide Be32, FromBe32;
    var b := EntryBytes(e) + rest;
    assert b[0..4] == e.targetNetwork && b[4..8] == e.networkMask && b[8..12] == e.nextHop;
    assert b[12..16] == Be32(e.metric);
    Be32Truncates(e.metric);
  }

  lemma EntryRewrites(b: seq<byte>)
    requires |b| >= ENTRY_LENGTH
    ensures EntryBytes(EntryFrom(b)) == b[..ENTRY_LENGTH]
  {
    hide Be32, FromBe32;
    Be32Inverts(b[12..16]);
  }

  lemma {:induction false} SerializedParses(rs: seq<RouteEntry>)
    ensures ParsedRoutes(RouteBytes(rs)) == Ok(rs)
  {
    var b := RouteBytes(rs);
    assert |b| % ENTRY_LENGTH == 0;
    if rs == [] {
      assert WholeEntries(b) == rs;
    } else {
      EntryRoundTrip(rs[0], RouteBytes(rs[1..]));
      assert b[ENTRY_LENGTH..] == RouteBytes(rs[1..]);
      SerializedParses(rs[1..]);
      assert WholeEntries(b) == [rs[0]] + rs[1..] == rs;
    }
  }

  /** The parser forgets exactly the bytes after the last whole entry. */
  lemma {:induction false} ParsedSerializes(payload: seq<byte>)
    ensures RouteBytes(WholeEntries(payload)) == payload[..|payload| - |payload| % ENTRY_LENGTH]
  {
    if |payload| >= ENTRY_LENGTH {
      var rest := payload[ENTRY_LENGTH..];
      ParsedSerializes(rest);
      EntryRewrites(payload);
      assert |rest| % ENTRY_LENGTH == |payload| % ENTRY_LENGTH;
      var rs := WholeEntries(payload);
      assert rs[0] == EntryFrom(payload) && rs[1..] == WholeEntries(rest);
      assert payload[..|payload| - |payload| % ENTRY_LENGTH]
          == payload[..ENTRY_LENGTH] + rest[..|rest| - |rest| % ENTRY_LENGTH];
    }
  }

  lemma EntryOfPrefix(a: seq<byte>, b: seq<byte>)
    requires |a| >= ENTRY_LENGTH
    ensures EntryFrom(a + b) == EntryFrom(a)
  {
  }

  /** Concatenating aligned payloads concatenates their routes; a ragged tail adds nothing. */
  lemma {:induction false} EntriesConcatenate(a: seq<byte>, b: seq<byte>)
    requires |a| % ENTRY_LENGTH == 0
    ensures WholeEntries(a + b) == WholeEntries(a) + WholeEntries(b)
  {
    hide EntryFrom;
    if a == [] {
      assert a + b == b;
    } else {
      var rest := a[ENTRY_LENGTH..];
      EntryOfPrefix(a, b);
      assert (a + b)[ENTRY_LENGTH..] == rest + b;
      assert WholeEntries(a + b) == [EntryFrom(a)] + WholeEntries(rest + b);
      EntriesConcatenate(rest, b);
      assert WholeEntries(a) == [EntryFrom(a)] + WholeEntries(rest);
    }
  }

  /** One turn of either parse loop: the entry at the offset extends what was parsed before it. */
  lemma NextEntry(payload: seq<byte>, offset: nat)
    requires offset % ENTRY_LENGTH == 0 && offset + ENTRY_LENGTH <= |payload|
    ensures WholeEntries(payload[..offset + ENTRY_LENGTH])
         == WholeEntries(payload[..offset]) + [EntryFrom(payload[offset..offset + ENTRY_LENGTH])]
  {
    var entry := payload[offset..offset + ENTRY_LENGTH];
    assert payload[..offset + ENTRY_LENGTH] == payload[..offset] + entry;
    EntriesConcatenate(payload[..offset], entry);
    assert entry[ENTRY_LENGTH..] == [];
    assert WholeEntries(entry) == [EntryFrom(entry)];
  }

  /** Where the fields of the `k`th entry come from. */
  lemma {:induction false} EntryAt(payload: seq<byte>, k: nat)
    requires 16 * k + 16 <= |payload|
    ensures k < |WholeEntries(payload)|
    ensures var e := WholeEntries(payload)[k];
            && e.targetNetwork == payload[16 * k..16 * k + 4]
            && e.networkMask == payload[16 * k + 4..16 * k + 8]
            && e.nextHop == payload[16 * k + 8..16 * k + 12]
            && Be32(e.metric) == payload[16 * k + 12..16 * k + 16]
    decreases k
  {
    if k == 0 {
      Be32Inverts(payload[12..16]);
    } else {
      EntryAt(payload[16..], k - 1);
      assert forall i, j | 0 <= i <= j <= |payload| - 16 :: payload[16..][i..j] == payload[16 + i..16 + j];
    }
  }

  method ReadEntry(payload: seq<byte>, offset: nat) returns (e: RouteEntry)
    requires offset + ENTRY_LENGTH <= |payload|
    ensures EntryBytes(e) == payload[offset..offset + ENTRY_LENGTH]
    ensures e == EntryFrom(payload[offset..offset + ENTRY_LENGTH])
  {
    var network, mask := payload[offset..offset + 4], payload[offset + 4..offset + 8];
    var nextHop, metricBytes := payload[offset + 8..offset + 12], payload[offset + 12..offset + 16];
    e := RouteEntry(network, mask, nextHop, FromBe32(metricBytes));
    var b := payload[offset..offset + ENTRY_LENGTH];
    assert b[0..4] == network && b[4..8] == mask && b[8..12] == nextHop && b[12..16] == metricBytes;
    EntryRewrites(b);
  }

  /** The worker's parser: a ragged payload is refused. */
  method ParseRouteUpdates(payload: seq<byte>) returns (r: Outcome<seq<RouteEntry>>)
    ensures r == ParsedRoutes(payload)
    ensures r.Ok? <==> |payload| % 16 == 0
    ensures r.Ok? ==> RouteBytes(r.value) == payload
  {
    if |payload| % ENTRY_LENGTH != 0 {
      return Err(Protocol);
    }
    var routes: seq<RouteEntry> := [];
    var offset := 0;
    while offset < |payload|
      invariant 0 <= offset <= |payload| && offset % ENTRY_LENGTH == 0
      invariant routes == WholeEntries(payload[..offset])
    {
      var entry := ReadEntry(payload, offset);
      NextEntry(payload, offset);
      routes := routes + [entry];
      offset := offset + ENTRY_LENGTH;
    }
    assert payload[..offset] == payload;
    ParsedSerializes(payload);
    r := Ok(routes);
  }

  /** The connection manager's parser: a ragged tail is ignored. */
  method ParseWholeRoutes(payload: seq<byte>) returns (routes: seq<RouteEntry>)
    ensures ParsedRoutes(payload[..|payload| - |payload| % ENTRY_LENGTH]) == Ok(routes)
    ensures |payload| % ENTRY_LENGTH == 0 ==> ParsedRoutes(payload) == Ok(routes)
  {
    routes := [];
    var offset := 0;
    while offset + ENTRY_LENGTH <= |payload|
      invariant 0 <= offset <= |payload| && offset % ENTRY_LENGTH == 0
      invariant routes == WholeEntries(payload[..offset])
    {
      var entry := ReadEntry(payload, offset);
      NextEntry(payload, offset);
      routes := routes + [entry];
      offset := offset + ENTRY_LENGTH;
    }
    assert offset == |payload| - |payload| % ENTRY_LENGTH;
    if |payload| % ENTRY_LENGTH == 0 {
      assert payload[..offset] == payload;
    }
  }
}
