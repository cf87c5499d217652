/** The keepalive monitor removes exactly the clients that have been silent for over ninety seconds. */
module Staleness {
  import opened Outcomes
  import opened Encryption
  import opened Packets
  import opened Framing
  import opened Service

  /** The client is heard of: it is accepted, a complete frame of it is read, or its keepalive is
      handled. */
  predicate Contact(s: State, e: Event, id: ClientId)
    requires Enabled(s, e)
  {
    match e
    case Accept(owner) => owner == id
    case PollClient(owner, peekOk) =>
      owner == id && id in s.registry.clients && Poll(s.registry.clients[id].inbox, peekOk).Whole?
    case Dispatch(owner, _, _) => owner == id && id in s.registry.clients && s.phase.packet.packetType == Keepalive
    case _ => false
  }

  /** When the client was heard of during a run. */
  function Contacts(c: Cipher, s: State, es: seq<Event>, id: ClientId): seq<nat>
    requires ValidRun(c, s, es)
    decreases es
  {
    if es == [] then []
    else (if Contact(s, es[0], id) then [s.now] else []) + Contacts(c, Step(c, s, es[0]), es[1..], id)
  }

  /** A registered client carries the time of its last contact. */
  predicate Heard(s: State, contacts: seq<nat>, id: ClientId) {
    id in s.registry.clients ==>
      contacts != [] && s.registry.clients[id].lastSeen == contacts[|contacts| - 1] <= s.now
  }

  lemma DispatchClients(c: Cipher, s: State, id: ClientId, nonce: Nonce, room: nat)
    requires s.phase.Received? && s.phase.id == id
    ensures Dispatched(c, s, id, s.phase.packet, nonce, room).registry.clients ==
            (if s.phase.packet.packetType == Keepalive then Touched(s.registry, id, s.now) else s.registry).clients
    ensures Dispatched(c, s, id, s.phase.packet, nonce, room).now == s.now
    ensures Dispatched(c, s, id, s.phase.packet, nonce, room).doomed == s.doomed
  {
    var p := s.phase.packet;
    var s' := Tabled(s, id, p);
    if p.packetType != Keepalive && ReplyTo(s', id, p).Ok? {
      ReplyOutcome(c, s', id, ReplyTo(s', id, p).value, nonce, room, if IsControl(p, Disconnect)
          then Leaving(id) else Idle);
    }
  }

  lemma StepHeard(c: Cipher, s: State, e: Event, id: ClientId, before: seq<nat>)
    requires Enabled(s, e) && Heard(s, before, id)
    ensures Heard(Step(c, s, e), before + (if Contact(s, e, id) then [s.now] else []), id)
  {
    if e.Dispatch? {
      DispatchClients(c, s, e.id, e.nonce, e.room);
    }
  }

  lemma {:induction false} RunHeard(c: Cipher, s: State, es: seq<Event>, id: ClientId, before: seq<nat>)
    requires ValidRun(c, s, es) && Heard(s, before, id)
    ensures Heard(Run(c, s, es), before + Contacts(c, s, es, id), id)
    decreases es
  {
    if es == [] {
      assert before + [] == before;
    } else {
      var first := if Contact(s, es[0], id) then [s.now] else [];
      StepHeard(c, s, es[0], id, before);
      RunHeard(c, Step(c, s, es[0]), es[1..], id, before + first);
      assert before + first + Contacts(c, Step(c, s, es[0]), es[1..], id) == before + Contacts(c, s, es, id);
    }
  }

  /** A check lists a client if and only if it is registered and was last heard of over ninety
      seconds, in nanoseconds, ago. */
  lemma ListedIffSilent(c: Cipher, es: seq<Event>, id: ClientId)
    requires ValidRun(c, Init(), es) && Enabled(Run(c, Init(), es), StaleList)
    ensures var s := Run(c, Init(), es);
            var contacts := Contacts(c, Init(), es, id);
            id in Step(c, s, StaleList).doomed <==>
            && id in s.registry.clients
            && contacts != []
            && s.now - contacts[|contacts| - 1] > 90_000_000_000
  {
    RunHeard(c, Init(), es, id, []);
    assert [] + Contacts(c, Init(), es, id) == Contacts(c, Init(), es, id);
  }

  /** A check that runs to its end removes exactly what it listed: the worker cannot step in between,
      because the monitor holds the server lock. */
  lemma {:induction false} SweepRemovesListed(c: Cipher, s: State, es: seq<Event>, id: ClientId)
    requires ValidRun(c, s, es) && StaleList !in es
    ensures Run(c, s, es).doomed <= s.doomed
    ensures StaleRemove(id) in es ==> id in s.doomed
    ensures id in s.doomed && id !in Run(c, s, es).doomed ==> StaleRemove(id) in es
    decreases es
  {
    if es != [] {
      if es[0].Dispatch? {
        DispatchClients(c, s, es[0].id, es[0].nonce, es[0].room);
      }
      SweepRemovesListed(c, Step(c, s, es[0]), es[1..], id);
      assert forall e :: e in es <==> e == es[0] || e in es[1..];
    }
  }

  lemma CheckIsExact(c: Cipher, s: State, es: seq<Event>, id: ClientId)
    requires Enabled(s, StaleList) && ValidRun(c, Step(c, s, StaleList), es) && StaleList !in es
    requires Run(c, Step(c, s, StaleList), es).doomed == {}
    ensures StaleRemove(id) in es <==> id in Stale(s.registry, s.now)
  {
    SweepRemovesListed(c, Step(c, s, StaleList), es, id);
  }

  // ---- A removal hits the registration that was listed, unless its id was reused

  predicate DoomedAreSilent(s: State) {
    s.doomed <= Stale(s.registry, s.now)
  }

  /** The monitor's list goes wrong in exactly one step: a new connection takes over a listed id. */
  lemma StepDoomedSilentIff(c: Cipher, s: State, e: Event)
    requires Enabled(s, e) && DoomedAreSilent(s)
    ensures DoomedAreSilent(Step(c, s, e)) <==> !(e.Accept? && e.id in s.doomed)
  {
    if e.Dispatch? {
      DispatchClients(c, s, e.id, e.nonce, e.room);
    }
  }

  /** No connection is accepted under an id that a check has listed and not yet removed. */
  predicate NoListedAccept(c: Cipher, s: State, es: seq<Event>)
    requires ValidRun(c, s, es)
    decreases es
  {
    es == [] || (!(es[0].Accept? && es[0].id in s.doomed) && NoListedAccept(c, Step(c, s, es[0]), es[1..]))
  }

  /** At every moment of the run, whatever the monitor is still to remove is silent at that moment. */
  predicate AlwaysSilent(c: Cipher, s: State, es: seq<Event>)
    requires ValidRun(c, s, es)
    decreases es
  {
    DoomedAreSilent(s) && (es == [] || AlwaysSilent(c, Step(c, s, es[0]), es[1..]))
  }

  /** Every removal by the monitor takes a client that is silent at that moment, if and only if no
      listed id is reused before its removal. */
  lemma {:induction false} DoomedSilentIff(c: Cipher, s: State, es: seq<Event>)
    requires ValidRun(c, s, es) && DoomedAreSilent(s)
    ensures AlwaysSilent(c, s, es) <==> NoListedAccept(c, s, es)
    decreases es
  {
    hide Step;
    if es != [] {
      StepDoomedSilentIff(c, s, es[0]);
      if DoomedAreSilent(Step(c, s, es[0])) {
        DoomedSilentIff(c, Step(c, s, es[0]), es[1..]);
      }
    }
  }

  /** Reusing the id of a listed client breaks this: the new registration is removed at once. */
  lemma ReusedIdRemovedFresh(c: Cipher, id: ClientId) returns (es: seq<Event>)
    ensures ValidRun(c, Init(), es)
    ensures var s := Run(c, Init(), es);
            && Enabled(s, StaleRemove(id))
            && id in s.registry.clients && s.registry.clients[id].lastSeen == s.now
  {
    var s1 := Step(c, Init(), Accept(id));
    var s2 := Step(c, s1, Advance(STALE_AFTER + 1));
    var s3 := Step(c, s2, StaleList);
    assert id in s3.doomed;
    RunCons(c, s3, Accept(id), []);
    es := [Accept(id)] + [];
    RunCons(c, s2, StaleList, es);
    es := [StaleList] + es;
    RunCons(c, s1, Advance(STALE_AFTER + 1), es);
    es := [Advance(STALE_AFTER + 1)] + es;
    RunCons(c, Init(), Accept(id), es);
    es := [Accept(id)] + es;
  }

  // ---- A client that keeps in touch

  predicate Recent(last: Option<nat>, now: nat) {
    last.Some? ==> now - last.value <= 90_000_000_000
  }

  /** The worker drops the client, on its own request or after a fatal error. */
  predicate WorkerDrops(s: State, e: Event, id: ClientId)
    requires Enabled(s, e)
  {
    e.Finish? && e.id == id && (s.phase.Leaving? || IsFatalError(s.phase.error))
  }

  /** From its acceptance, or its `last` contact, until the worker drops it or the run ends, the client
      is never out of touch for over ninety seconds. What happens between a drop and the next
      acceptance does not matter, and nothing is asked of the monitor. */
  predicate InTouch(c: Cipher, s: State, es: seq<Event>, id: ClientId, last: Option<nat>)
    requires ValidRun(c, s, es)
    decreases es
  {
    if es == [] then Recent(last, s.now)
    else
      var s' := Step(c, s, es[0]);
      if Contact(s, es[0], id) then Recent(last, s.now) && InTouch(c, s', es[1..], id, Some(s.now))
      else if WorkerDrops(s, es[0], id) then Recent(last, s.now) && InTouch(c, s', es[1..], id, None)
      else InTouch(c, s', es[1..], id, last)
  }

  lemma TimeAdvances(c: Cipher, s: State, e: Event)
    requires Enabled(s, e)
    ensures Step(c, s, e).now >= s.now
  {
    if e.Dispatch? {
      DispatchClients(c, s, e.id, e.nonce, e.room);
    }
  }

  lemma {:induction false} InTouchNow(c: Cipher, s: State, es: seq<Event>, id: ClientId, last: Option<nat>)
    requires ValidRun(c, s, es) && InTouch(c, s, es, id, last)
    ensures Recent(last, s.now)
    decreases es
  {
    hide Step;
    if es != [] {
      TimeAdvances(c, s, es[0]);
      if !Contact(s, es[0], id) && !WorkerDrops(s, es[0], id) {
        InTouchNow(c, Step(c, s, es[0]), es[1..], id, last);
      }
    }
  }

  /** A registered client was last heard of at `last`. */
  predicate LastHeard(s: State, id: ClientId, last: Option<nat>) {
    id in s.registry.clients ==> last == Some(s.registry.clients[id].lastSeen)
  }

  lemma StepLastHeard(c: Cipher, s: State, e: Event, id: ClientId, last: Option<nat>)
    requires Enabled(s, e) && LastHeard(s, id, last)
    ensures LastHeard(Step(c, s, e), id, if Contact(s, e, id) then Some(s.now)
                                         else if WorkerDrops(s, e, id) then None else last)
  {
    if e.Dispatch? {
      DispatchClients(c, s, e.id, e.nonce, e.room);
    }
  }

  lemma StepDoomed(c: Cipher, s: State, e: Event)
    requires Enabled(s, e)
    ensures Step(c, s, e).doomed <= if e.StaleList? then Stale(s.registry, s.now) else s.doomed
  {
    if e.Dispatch? {
      DispatchClients(c, s, e.id, e.nonce, e.room);
    }
  }

  lemma {:induction false} InTouchNeverListed(c: Cipher, s: State, es: seq<Event>, id: ClientId, last: Option<nat>)
    requires ValidRun(c, s, es) && id !in s.doomed
    requires LastHeard(s, id, last) && InTouch(c, s, es, id, last)
    ensures StaleRemove(id) !in es
    decreases es
  {
    hide Step;
    if es != [] {
      InTouchNow(c, s, es, id, last);
      StepDoomed(c, s, es[0]);
      StepLastHeard(c, s, es[0], id, last);
      InTouchNeverListed(c, Step(c, s, es[0]), es[1..], id,
                         if Contact(s, es[0], id) then Some(s.now)
                         else if WorkerDrops(s, es[0], id) then None else last);
    }
  }

  /** A client that keeps in touch while it is registered is never removed by the monitor, in any run. */
  lemma InTouchNeverRemoved(c: Cipher, es: seq<Event>, id: ClientId)
    requires ValidRun(c, Init(), es) && InTouch(c, Init(), es, id, None)
    ensures StaleRemove(id) !in es
  {
    InTouchNeverListed(c, Init(), es, id, None);
  }
}
