/** The threads and their locks: the worker, the keepalive monitor, the accept thread, and whoever
    calls shutdown. A step is one lock operation, flag, join or unpacking; everything in between is
    private. Unpacking is a step of its own because it can abort the worker. */
module Locks {
  datatype Lock = RoutesLock | ConfigsLock | HandlerLock | ServerLock | ClientsLock

  datatype Thread = Worker | Monitor | Acceptor | Shutdown

  datatype Op =
    | Acquire(lock: Lock)
    | Release(lock: Lock)
    | Unpack
    | RaiseServiceFlag
    | RaiseServerFlag
    | Join(thread: Thread)

  /** The order in which every thread takes the locks it holds together. */
  function Rank(l: Lock): nat {
    match l
    case RoutesLock => 0
    case ClientsLock => 2
    case _ => 1
  }

  // ---- What the threads do

  function Take(l: Lock): seq<Op> {
    [Acquire(l), Release(l)]
  }

  /** Unpacking happens under the handler lock. */
  function Unpacking(): seq<Op> {
    [Acquire(HandlerLock), Unpack, Release(HandlerLock)]
  }

  /** A call on the server: its own lock, and inside it the lock of its registry. */
  function ServerCall(): seq<Op> {
    [Acquire(ServerLock), Acquire(ClientsLock), Release(ClientsLock), Release(ServerLock)]
  }

  /** How far the worker gets with one client; `evicts` is the removal after an error. */
  datatype Handling =
    | ReadOnly(evicts: bool)
    | UnpackFails(evicts: bool)
    | HandlesKeepalive(evicts: bool)
    | HandlesData(writes: bool, evicts: bool)
    | HandlesConfig(writes: bool, evicts: bool)
    | HandlesRoutes(writes: bool, evicts: bool)
    | AcknowledgesDisconnect(writes: bool, evicts: bool)
    | HandlesDisconnect

  function Eviction(evicts: bool): seq<Op> {
    if evicts then ServerCall() else []
  }

  function Writing(writes: bool, rest: seq<Op>): seq<Op> {
    if writes then ServerCall() + rest else rest
  }

  /** The lock operations of `handle_client_packet` and of the removal after it. */
  function Script(h: Handling): seq<Op> {
    match h
    case ReadOnly(evicts) => ServerCall() + Eviction(evicts)
    case UnpackFails(evicts) => ServerCall() + (Unpacking() + Eviction(evicts))
    case HandlesKeepalive(evicts) => ServerCall() + (Unpacking() + (ServerCall() + Eviction(evicts)))
    case HandlesData(writes, evicts) =>
      ServerCall() + (Unpacking() + (Take(HandlerLock) + Writing(writes, Eviction(evicts))))
    case HandlesConfig(writes, evicts) =>
      ServerCall() + (Unpacking() + (Take(ConfigsLock) + (Take(HandlerLock) + Writing(writes, Eviction(evicts)))))
    case HandlesRoutes(writes, evicts) =>
      ServerCall() + (Unpacking() +
        ([Acquire(RoutesLock)] + (Take(HandlerLock) + Writing(writes, [Release(RoutesLock)] + Eviction(evicts)))))
    case AcknowledgesDisconnect(writes, evicts) =>
      ServerCall() + (Unpacking() + (Take(HandlerLock) + Writing(writes, Eviction(evicts))))
    case HandlesDisconnect =>
      ServerCall() + (Unpacking() + (Take(HandlerLock) + (ServerCall() + (ServerCall() +
        ([Acquire(RoutesLock)] + (Take(ConfigsLock) + [Release(RoutesLock)]))))))
  }

  const LONGEST := 21

  /** The monitor's check: one listing and `stale` removals under the server lock. */
  function CheckScript(stale: nat): seq<Op> {
    [Acquire(ServerLock)] + (Take(ClientsLock) + Removals(stale))
  }

  function Removals(stale: nat): seq<Op> {
    if stale == 0 then [Release(ServerLock)] else Take(ClientsLock) + Removals(stale - 1)
  }

  const SHUTDOWN_LENGTH := 7

  function ShutdownOp(k: nat): Op {
    match k
    case 0 => RaiseServiceFlag
    case 1 => Join(Worker)
    case 2 => Join(Monitor)
    case 3 => Acquire(ServerLock)
    case 4 => RaiseServerFlag
    case 5 => Join(Acceptor)
    case _ => Release(ServerLock)
  }

  /** Shutdown from its `k`th operation on. The listener is joined while the server lock is held. */
  function ShutdownScript(k: nat): (ops: seq<Op>)
    ensures |ops| == if k < SHUTDOWN_LENGTH then SHUTDOWN_LENGTH - k else 0
    decreases SHUTDOWN_LENGTH - k
  {
    if k < SHUTDOWN_LENGTH then [ShutdownOp(k)] + ShutdownScript(k + 1) else []
  }

  // ---- States and steps

  /** `todo` is what is left of each thread's current turn, `snapshot` how many clients the worker has
      left in its current pass; `aborted` says that the worker ended by a panic. */
  datatype Threads = Threads(
    todo: map<Thread, seq<Op>>,
    done: set<Thread>,
    holder: map<Lock, Thread>,
    serviceFlag: bool,
    serverFlag: bool,
    snapshot: nat,
    aborted: bool)

  /** What a thread finds when it starts a turn, or, for `aborts`, when it unpacks. */
  datatype Choice = Choice(handling: Handling, count: nat, connects: bool, aborts: bool)

  function Start(): Threads {
    Threads(map[Worker := [], Monitor := [], Acceptor := [], Shutdown := ShutdownScript(0)], {}, map[], false, false,
            0, false)
  }

  predicate OpEnabled(s: Threads, op: Op) {
    match op
    case Acquire(l) => l !in s.holder
    case Join(t) => t in s.done
    case _ => true
  }

  predicate CanStep(s: Threads, t: Thread) {
    t !in s.done && t in s.todo && (s.todo[t] == [] || OpEnabled(s, s.todo[t][0]))
  }

  /** A panic ends the thread; unwinding gives back what it holds. */
  function Unwound(s: Threads, t: Thread): Threads {
    s.(todo := s.todo[t := []],
       done := s.done + {t},
       holder := map l | l in s.holder && s.holder[l] != t :: s.holder[l])
  }

  /** Unpacking may panic. Joining a thread that panicked returns an error, which shutdown unwraps in
      the case of the worker. */
  predicate Panics(s: Threads, op: Op, aborts: bool) {
    (op == Unpack && aborts) || (op == Join(Worker) && s.aborted)
  }

  function AfterOp(s: Threads, t: Thread, aborts: bool): Threads
    requires t in s.todo && s.todo[t] != []
  {
    var op := s.todo[t][0];
    if Panics(s, op, aborts) then
      if op == Unpack then Unwound(s, t).(aborted := true, snapshot := 0) else Unwound(s, t)
    else
      var s' := s.(todo := s.todo[t := s.todo[t][1..]]);
      match op
      case Acquire(l) => s'.(holder := s.holder[l := t])
      case Release(l) => s'.(holder := s.holder - {l})
      case RaiseServiceFlag => s'.(serviceFlag := true)
      case RaiseServerFlag => s'.(serverFlag := true)
      case _ => s'
  }

  /** The top of each thread's loop: leave it, or start a turn. */
  function NextTurn(s: Threads, t: Thread, choice: Choice): Threads {
    match t
    case Worker =>
      if s.snapshot > 0 then s.(todo := s.todo[t := Script(choice.handling)], snapshot := s.snapshot - 1)
      else if s.serviceFlag then s.(done := s.done + {t})
      else s.(todo := s.todo[t := ServerCall()], snapshot := choice.count)
    case Monitor =>
      if s.serviceFlag then s.(done := s.done + {t}) else s.(todo := s.todo[t := CheckScript(choice.count)])
    case Acceptor =>
      if s.serverFlag then s.(done := s.done + {t})
      else s.(todo := s.todo[t := if choice.connects then Take(ClientsLock) else []])
    case Shutdown => s.(done := s.done + {t})
  }

  function ThreadStep(s: Threads, t: Thread, choice: Choice): Threads
    requires CanStep(s, t)
  {
    if s.todo[t] == [] then NextTurn(s, t, choice) else AfterOp(s, t, choice.aborts)
  }

  datatype Move = Move(thread: Thread, choice: Choice)

  predicate Schedule(s: Threads, ms: seq<Move>)
    decreases ms
  {
    ms == [] || (CanStep(s, ms[0].thread) && Schedule(ThreadStep(s, ms[0].thread, ms[0].choice), ms[1..]))
  }

  function Scheduled(s: Threads, ms: seq<Move>): Threads
    requires Schedule(s, ms)
    decreases ms
  {
    if ms == [] then s else Scheduled(ThreadStep(s, ms[0].thread, ms[0].choice), ms[1..])
  }

  // ---- The lock discipline

  function Held(s: Threads, t: Thread): set<Lock> {
    set l | l in s.holder && s.holder[l] == t
  }

  /** Locks are taken in rising rank and given back; unpacking holds the handler alone; a join waits
      for the accept thread holding at most the server lock, and for anyone else holding nothing. */
  predicate WellOrdered(held: set<Lock>, ops: seq<Op>)
    decreases ops
  {
    if ops == [] then held == {}
    else
      match ops[0]
      case Acquire(l) => (forall h | h in held :: Rank(h) < Rank(l)) && WellOrdered(held + {l}, ops[1..])
      case Release(l) => l in held && WellOrdered(held - {l}, ops[1..])
      case Unpack => held == {HandlerLock} && WellOrdered(held, ops[1..])
      case Join(t) => (held == {} || (held == {ServerLock} && t == Acceptor)) && WellOrdered(held, ops[1..])
      case _ => WellOrdered(held, ops[1..])
  }

  predicate OnlyLocks(ops: seq<Op>) {
    forall op | op in ops :: op.Acquire? || op.Release?
  }

  predicate OnlyLocksOrUnpack(ops: seq<Op>) {
    forall op | op in ops :: op.Acquire? || op.Release? || op.Unpack?
  }

  predicate OnlyClientsLock(ops: seq<Op>) {
    forall op | op in ops :: op == Acquire(ClientsLock) || op == Release(ClientsLock)
  }

  /** How far shutdown has come, and what that says of the flags and the other threads. After an
      abort it comes no further than the join of the worker. */
  predicate ShutdownAt(s: Threads) {
    && Shutdown in s.todo && |s.todo[Shutdown]| <= SHUTDOWN_LENGTH
    && (Acceptor in s.done ==> s.serverFlag)
    && (s.aborted ==> Worker in s.done)
    && (Worker in s.done ==> s.snapshot == 0 && (s.aborted || s.serviceFlag))
    && (Monitor in s.done ==> s.serviceFlag)
    && if s.aborted && Shutdown in s.done
       then s.serviceFlag && !s.serverFlag
       else
         var k := SHUTDOWN_LENGTH - |s.todo[Shutdown]|;
         && s.todo[Shutdown] == ShutdownScript(k)
         && (s.serviceFlag <==> k >= 1)
         && (s.serverFlag <==> k >= 5)
         && (k >= 2 ==> Worker in s.done && !s.aborted)
         && (k >= 3 ==> Monitor in s.done)
         && (k >= 6 ==> Acceptor in s.done)
  }

  predicate OrderedFor(s: Threads, t: Thread) {
    t in s.todo && WellOrdered(Held(s, t), s.todo[t]) && (t in s.done ==> s.todo[t] == [])
  }

  predicate Ordered(s: Threads) {
    forall t: Thread :: OrderedFor(s, t)
  }

  predicate Shaped(s: Threads) {
    && Worker in s.todo && Monitor in s.todo && Acceptor in s.todo
    && OnlyLocksOrUnpack(s.todo[Worker]) && OnlyLocks(s.todo[Monitor]) && OnlyClientsLock(s.todo[Acceptor])
  }

  predicate Disciplined(s: Threads) {
    Ordered(s) && Shaped(s) && ShutdownAt(s)
  }

  lemma TakeOrdered(held: set<Lock>, l: Lock, rest: seq<Op>)
    requires (forall h | h in held :: Rank(h) < Rank(l)) && WellOrdered(held, rest)
    ensures WellOrdered(held, Take(l) + rest)
  {
  }

  lemma UnpackingOrdered(rest: seq<Op>)
    requires WellOrdered({}, rest)
    ensures WellOrdered({}, Unpacking() + rest)
  {
    var last := [Release(HandlerLock)] + rest;
    assert last[1..] == rest && {} + {HandlerLock} == {HandlerLock} && {HandlerLock} - {HandlerLock} == {};
    assert (Unpacking() + rest)[1..] == [Unpack] + last && ([Unpack] + last)[1..] == last;
  }

  lemma CallOrdered(held: set<Lock>, rest: seq<Op>)
    requires held <= {RoutesLock} && WellOrdered(held, rest)
    ensures WellOrdered(held, ServerCall() + rest)
  {
    var outer := held + {ServerLock};
    var inner := [Release(ServerLock)] + rest;
    assert inner[1..] == rest && outer - {ServerLock} == held;
    TakeOrdered(outer, ClientsLock, inner);
    assert (ServerCall() + rest)[1..] == Take(ClientsLock) + inner;
  }

  lemma EvictionOrdered(evicts: bool)
    ensures WellOrdered({}, Eviction(evicts))
  {
  }

  lemma WritingOrdered(held: set<Lock>, writes: bool, rest: seq<Op>)
    requires held <= {RoutesLock} && WellOrdered(held, rest)
    ensures WellOrdered(held, Writing(writes, rest))
  {
    CallOrdered(held, rest);
  }

  /** Whatever the worker does with a client, it takes its locks in order and gives them all back. */
  lemma ScriptOrdered(h: Handling)
    ensures WellOrdered({}, Script(h))
  {
    match h {
      case ReadOnly(evicts) =>
        EvictionOrdered(evicts);
        CallOrdered({}, Eviction(evicts));
      case UnpackFails(evicts) =>
        EvictionOrdered(evicts);
        AfterUnpack(Eviction(evicts));
      case HandlesKeepalive(evicts) =>
        EvictionOrdered(evicts);
        CallOrdered({}, Eviction(evicts));
        AfterUnpack(ServerCall() + Eviction(evicts));
      case HandlesData(writes, evicts) => PackedReplyOrdered(writes, evicts);
      case HandlesConfig(writes, evicts) =>
        EvictionOrdered(evicts);
        WritingOrdered({}, writes, Eviction(evicts));
        TakeOrdered({}, HandlerLock, Writing(writes, Eviction(evicts)));
        TakeOrdered({}, ConfigsLock, Take(HandlerLock) + Writing(writes, Eviction(evicts)));
        AfterUnpack(Take(ConfigsLock) + (Take(HandlerLock) + Writing(writes, Eviction(evicts))));
      case HandlesRoutes(writes, evicts) =>
        EvictionOrdered(evicts);
        var last := [Release(RoutesLock)] + Eviction(evicts);
        assert last[1..] == Eviction(evicts) && {RoutesLock} - {RoutesLock} == {};
        WritingOrdered({RoutesLock}, writes, last);
        TakeOrdered({RoutesLock}, HandlerLock, Writing(writes, last));
        Enclosed(RoutesLock, Take(HandlerLock) + Writing(writes, last));
      case AcknowledgesDisconnect(writes, evicts) => PackedReplyOrdered(writes, evicts);
      case HandlesDisconnect =>
        var last := [Release(RoutesLock)];
        assert last[1..] == [] && {RoutesLock} - {RoutesLock} == {};
        TakeOrdered({RoutesLock}, ConfigsLock, last);
        var cleanup := [Acquire(RoutesLock)] + (Take(ConfigsLock) + last);
        assert cleanup[1..] == Take(ConfigsLock) + last && {} + {RoutesLock} == {RoutesLock};
        CallOrdered({}, cleanup);
        CallOrdered({}, ServerCall() + cleanup);
        TakeOrdered({}, HandlerLock, ServerCall() + (ServerCall() + cleanup));
        AfterUnpack(Take(HandlerLock) + (ServerCall() + (ServerCall() + cleanup)));
    }
  }

  lemma AfterUnpack(rest: seq<Op>)
    requires WellOrdered({}, rest)
    ensures WellOrdered({}, ServerCall() + (Unpacking() + rest))
  {
    UnpackingOrdered(rest);
    CallOrdered({}, Unpacking() + rest);
  }

  lemma Enclosed(l: Lock, rest: seq<Op>)
    requires WellOrdered({l}, rest)
    ensures WellOrdered({}, ServerCall() + (Unpacking() + ([Acquire(l)] + rest)))
  {
    assert ([Acquire(l)] + rest)[1..] == rest && {} + {l} == {l};
    AfterUnpack([Acquire(l)] + rest);
  }

  lemma PackedReplyOrdered(writes: bool, evicts: bool)
    ensures WellOrdered({}, ServerCall() + (Unpacking() + (Take(HandlerLock)
        + Writing(writes, Eviction(evicts)))))
  {
    EvictionOrdered(evicts);
    WritingOrdered({}, writes, Eviction(evicts));
    TakeOrdered({}, HandlerLock, Writing(writes, Eviction(evicts)));
    AfterUnpack(Take(HandlerLock) + Writing(writes, Eviction(evicts)));
  }

  lemma ScriptLength(h: Handling)
    ensures |Script(h)| <= LONGEST
  {
  }

  lemma CallShape(rest: seq<Op>)
    requires OnlyLocksOrUnpack(rest)
    ensures OnlyLocksOrUnpack(ServerCall() + rest) && OnlyLocksOrUnpack(ServerCall() + (Unpacking() + rest))
  {
  }

  lemma ScriptShape(h: Handling)
    ensures OnlyLocksOrUnpack(Script(h))
  {
    hide ServerCall, Unpacking;
    CallShape([]);
    assert ServerCall() + [] == ServerCall();
    match h {
      case ReadOnly(evicts) => CallShape(Eviction(evicts));
      case UnpackFails(evicts) => CallShape(Eviction(evicts));
      case HandlesKeepalive(evicts) =>
        CallShape(Eviction(evicts));
        CallShape(ServerCall() + Eviction(evicts));
      case HandlesData(writes, evicts) =>
        CallShape(Eviction(evicts));
        CallShape(Take(HandlerLock) + Writing(writes, Eviction(evicts)));
      case HandlesConfig(writes, evicts) =>
        CallShape(Eviction(evicts));
        CallShape(Take(ConfigsLock) + (Take(HandlerLock) + Writing(writes, Eviction(evicts))));
      case HandlesRoutes(writes, evicts) =>
        var last := [Release(RoutesLock)] + Eviction(evicts);
        CallShape(last);
        CallShape([Acquire(RoutesLock)] + (Take(HandlerLock) + Writing(writes, last)));
      case AcknowledgesDisconnect(writes, evicts) =>
        CallShape(Eviction(evicts));
        CallShape(Take(HandlerLock) + Writing(writes, Eviction(evicts)));
      case HandlesDisconnect =>
        var cleanup := [Acquire(RoutesLock)] + (Take(ConfigsLock) + [Release(RoutesLock)]);
        CallShape(cleanup);
        CallShape(ServerCall() + cleanup);
        CallShape(Take(HandlerLock) + (ServerCall() + (ServerCall() + cleanup)));
    }
  }

  lemma {:induction false} RemovalsOrdered(stale: nat)
    ensures WellOrdered({ServerLock}, Removals(stale)) && OnlyLocks(Removals(stale))
  {
    if stale == 0 {
      assert {ServerLock} - {ServerLock} == {} && [Release(ServerLock)][1..] == [];
    } else {
      RemovalsOrdered(stale - 1);
      TakeOrdered({ServerLock}, ClientsLock, Removals(stale - 1));
    }
  }

  lemma CheckOrdered(stale: nat)
    ensures WellOrdered({}, CheckScript(stale)) && OnlyLocks(CheckScript(stale))
  {
    RemovalsOrdered(stale);
    TakeOrdered({ServerLock}, ClientsLock, Removals(stale));
    assert CheckScript(stale)[1..] == Take(ClientsLock) + Removals(stale) && {} + {ServerLock} == {ServerLock};
  }

  lemma ShutdownOrdered()
    ensures WellOrdered({}, ShutdownScript(0))
  {
  }

  // ---- Every reachable state is disciplined

  lemma StartDisciplined()
    ensures Disciplined(Start())
  {
    var s := Start();
    ShutdownOrdered();
    forall t: Thread ensures OrderedFor(s, t) {
      assert Held(s, t) == {};
      assert t == Worker || t == Monitor || t == Acceptor || t == Shutdown;
      assert t != Shutdown ==> s.todo[t] == [];
    }
  }

  lemma OpHeld(s: Threads, t: Thread, aborts: bool, u: Thread)
    requires t in s.todo && s.todo[t] != [] && OpEnabled(s, s.todo[t][0])
    requires s.todo[t][0].Release? ==> s.todo[t][0].lock in Held(s, t)
    ensures Held(AfterOp(s, t, aborts), u) ==
            if u != t then Held(s, u)
            else if Panics(s, s.todo[t][0], aborts) then {}
            else match s.todo[t][0]
                 case Acquire(l) => Held(s, t) + {l}
                 case Release(l) => Held(s, t) - {l}
                 case _ => Held(s, t)
  {
  }

  lemma OpOrdered(s: Threads, t: Thread, aborts: bool)
    requires Ordered(s) && CanStep(s, t) && s.todo[t] != []
    ensures Ordered(AfterOp(s, t, aborts))
  {
    var s' := AfterOp(s, t, aborts);
    assert OrderedFor(s, t);
    forall u: Thread ensures OrderedFor(s', u) {
      assert OrderedFor(s, u);
      OpHeld(s, t, aborts, u);
    }
  }

  lemma OpShaped(s: Threads, t: Thread, aborts: bool)
    requires Ordered(s) && Shaped(s) && CanStep(s, t) && s.todo[t] != []
    ensures Ordered(AfterOp(s, t, aborts)) && Shaped(AfterOp(s, t, aborts))
  {
    hide WellOrdered;
    OpOrdered(s, t, aborts);
    assert forall op | op in s.todo[t][1..] :: op in s.todo[t];
  }

  lemma OthersOpShutdownAt(s: Threads, t: Thread, aborts: bool)
    requires Ordered(s) && Shaped(s) && ShutdownAt(s) && CanStep(s, t) && s.todo[t] != [] && t != Shutdown
    ensures ShutdownAt(AfterOp(s, t, aborts))
  {
    hide ShutdownScript, WellOrdered;
    assert OrderedFor(s, Shutdown);
    assert t == Worker || t == Monitor || t == Acceptor;
    assert s.todo[t][0] in s.todo[t];
  }

  lemma ShutdownOpShutdownAt(s: Threads, aborts: bool)
    requires ShutdownAt(s) && CanStep(s, Shutdown) && s.todo[Shutdown] != []
    ensures ShutdownAt(AfterOp(s, Shutdown, aborts))
  {
    var k := SHUTDOWN_LENGTH - |s.todo[Shutdown]|;
    assert s.todo[Shutdown][0] == ShutdownOp(k) && s.todo[Shutdown][1..] == ShutdownScript(k + 1);
  }

  /** A new turn starts with nothing held, and its script is in order. */
  lemma TurnScript(s: Threads, t: Thread, choice: Choice)
    requires Ordered(s) && CanStep(s, t) && s.todo[t] == []
    ensures var ops := NextTurn(s, t, choice).todo[t];
            && Held(s, t) == {}
            && WellOrdered({}, ops)
            && (t == Worker ==> OnlyLocksOrUnpack(ops))
            && (t == Monitor ==> OnlyLocks(ops))
            && (t == Acceptor ==> OnlyClientsLock(ops))
            && (t == Shutdown ==> ops == [])
  {
    assert OrderedFor(s, t);
    match t {
      case Worker => ScriptOrdered(choice.handling); ScriptShape(choice.handling); EvictionOrdered(true);
      case Monitor => CheckOrdered(choice.count);
      case Acceptor => TakeOrdered({}, ClientsLock, []); assert Take(ClientsLock) + [] == Take(ClientsLock);
      case Shutdown =>
    }
  }

  lemma TurnDisciplined(s: Threads, t: Thread, choice: Choice)
    requires Disciplined(s) && CanStep(s, t) && s.todo[t] == []
    ensures Disciplined(NextTurn(s, t, choice))
  {
    hide WellOrdered, ShutdownScript, Script, CheckScript;
    var s' := NextTurn(s, t, choice);
    TurnScript(s, t, choice);
    assert OrderedFor(s, t) && Held(s, t) == {};
    forall u: Thread ensures OrderedFor(s', u) {
      assert OrderedFor(s, u) && Held(s', u) == Held(s, u);
    }
  }

  lemma StepDisciplined(s: Threads, t: Thread, choice: Choice)
    requires Disciplined(s) && CanStep(s, t)
    ensures Disciplined(ThreadStep(s, t, choice))
  {
    if s.todo[t] == [] {
      TurnDisciplined(s, t, choice);
    } else {
      OpShaped(s, t, choice.aborts);
      if t == Shutdown {
        ShutdownOpShutdownAt(s, choice.aborts);
      } else {
        OthersOpShutdownAt(s, t, choice.aborts);
      }
    }
  }

  lemma {:induction false} ScheduleDisciplined(s: Threads, ms: seq<Move>)
    requires Disciplined(s) && Schedule(s, ms)
    ensures Disciplined(Scheduled(s, ms))
    decreases ms
  {
    if ms != [] {
      StepDisciplined(s, ms[0].thread, ms[0].choice);
      ScheduleDisciplined(ThreadStep(s, ms[0].thread, ms[0].choice), ms[1..]);
    }
  }

  // ---- The monitor keeps the worker out

  predicate ReleasesServerLast(ops: seq<Op>) {
    forall i | 0 <= i < |ops| :: ops[i] == Release(ServerLock) ==> i == |ops| - 1
  }

  /** Within its turn the monitor holds the server lock, except before its first operation. */
  predicate MonitorAt(s: Threads) {
    Monitor in s.todo &&
    (s.todo[Monitor] != [] ==>
       && ReleasesServerLast(s.todo[Monitor])
       && (ServerLock !in Held(s, Monitor) ==> Held(s, Monitor) == {} && s.todo[Monitor][0] == Acquire(ServerLock)))
  }

  lemma {:induction false} RemovalsRelease(stale: nat)
    ensures ReleasesServerLast(Removals(stale))
  {
    if stale > 0 {
      RemovalsRelease(stale - 1);
      assert Removals(stale)[2..] == Removals(stale - 1);
      assert forall i | 2 <= i < |Removals(stale)| :: Removals(stale)[i] == Removals(stale - 1)[i - 2];
    }
  }

  lemma CheckReleases(stale: nat)
    ensures ReleasesServerLast(CheckScript(stale)) && CheckScript(stale)[0] == Acquire(ServerLock)
  {
    RemovalsRelease(stale);
    assert forall i | 3 <= i < |CheckScript(stale)| :: CheckScript(stale)[i] == Removals(stale)[i - 3];
  }

  lemma ReleasesOwn(s: Threads, t: Thread)
    requires Ordered(s) && t in s.todo && s.todo[t] != []
    ensures s.todo[t][0].Release? ==> s.todo[t][0].lock in Held(s, t)
  {
    assert OrderedFor(s, t);
  }

  lemma OwnOpKeepsMonitorAt(s: Threads, aborts: bool)
    requires Ordered(s) && Shaped(s) && MonitorAt(s) && CanStep(s, Monitor) && s.todo[Monitor] != []
    ensures MonitorAt(AfterOp(s, Monitor, aborts))
    ensures AfterOp(s, Monitor, aborts).todo[Monitor] != [] ==> ServerLock in Held(AfterOp(s, Monitor, aborts), Monitor)
  {
    hide Ordered, WellOrdered;
    var ops := s.todo[Monitor];
    assert ops[0] in ops;
    ReleasesOwn(s, Monitor);
    OpHeld(s, Monitor, aborts, Monitor);
    assert forall i | 0 <= i < |ops| - 1 :: ops[1..][i] == ops[i + 1];
  }

  lemma OthersOpKeepsTodo(s: Threads, t: Thread, aborts: bool)
    requires Ordered(s) && CanStep(s, t) && s.todo[t] != [] && t != Monitor && Monitor in s.todo
    ensures var s' := AfterOp(s, t, aborts);
            Held(s', Monitor) == Held(s, Monitor) && Monitor in s'.todo && s'.todo[Monitor] == s.todo[Monitor]
  {
    hide Ordered;
    ReleasesOwn(s, t);
    OpHeld(s, t, aborts, Monitor);
  }

  lemma OthersKeepMonitorAt(s: Threads, t: Thread, choice: Choice)
    requires Ordered(s) && CanStep(s, t) && t != Monitor && Monitor in s.todo
    ensures var s' := ThreadStep(s, t, choice);
            Held(s', Monitor) == Held(s, Monitor) && Monitor in s'.todo && s'.todo[Monitor] == s.todo[Monitor]
  {
    hide WellOrdered, Script, CheckScript, Ordered, AfterOp;
    if s.todo[t] == [] {
      assert Held(NextTurn(s, t, choice), Monitor) == Held(s, Monitor);
    } else {
      OthersOpKeepsTodo(s, t, choice.aborts);
    }
  }

  lemma TurnKeepsMonitorAt(s: Threads, choice: Choice)
    requires Ordered(s) && CanStep(s, Monitor) && s.todo[Monitor] == []
    ensures MonitorAt(NextTurn(s, Monitor, choice)) && Held(NextTurn(s, Monitor, choice), Monitor) == {}
  {
    hide CheckScript;
    assert OrderedFor(s, Monitor);
    CheckReleases(choice.count);
    assert Held(NextTurn(s, Monitor, choice), Monitor) == Held(s, Monitor);
  }

  lemma StepKeepsMonitorAt(s: Threads, t: Thread, choice: Choice)
    requires Disciplined(s) && MonitorAt(s) && CanStep(s, t)
    ensures var s' := ThreadStep(s, t, choice);
            && MonitorAt(s')
            && (Held(s, Monitor) != {} && s'.todo[Monitor] != [] ==> ServerLock in Held(s', Monitor))
  {
    hide Ordered, Shaped, ShutdownAt, NextTurn, AfterOp, ReleasesServerLast;
    if t != Monitor {
      OthersKeepMonitorAt(s, t, choice);
    } else if s.todo[t] == [] {
      TurnKeepsMonitorAt(s, choice);
      NothingHeld(s);
    } else {
      OwnOpKeepsMonitorAt(s, choice.aborts);
    }
  }

  lemma NothingHeld(s: Threads)
    requires Ordered(s) && Monitor in s.todo && s.todo[Monitor] == []
    ensures Held(s, Monitor) == {}
  {
    assert OrderedFor(s, Monitor);
  }

  lemma {:induction false} MonitorAtAlways(s: Threads, ms: seq<Move>)
    requires Disciplined(s) && MonitorAt(s) && Schedule(s, ms)
    ensures MonitorAt(Scheduled(s, ms))
    decreases ms
  {
    hide MonitorAt;
    if ms != [] {
      StepKeepsMonitorAt(s, ms[0].thread, ms[0].choice);
      StepDisciplined(s, ms[0].thread, ms[0].choice);
      MonitorAtAlways(ThreadStep(s, ms[0].thread, ms[0].choice), ms[1..]);
    }
  }

  /** From `s` on and all along the schedule the monitor has something left to do in its turn. */
  predicate WithinTurn(s: Threads, ms: seq<Move>)
    requires Schedule(s, ms)
    decreases ms
  {
    && Monitor in s.todo && s.todo[Monitor] != []
    && (ms == [] || WithinTurn(ThreadStep(s, ms[0].thread, ms[0].choice), ms[1..]))
  }

  /** Somewhere in the schedule the thread acquires the lock. */
  predicate Acquires(s: Threads, ms: seq<Move>, t: Thread, l: Lock)
    requires Schedule(s, ms)
    decreases ms
  {
    ms != [] &&
    (|| (ms[0].thread == t && s.todo[t] != [] && s.todo[t][0] == Acquire(l))
     || Acquires(ThreadStep(s, ms[0].thread, ms[0].choice), ms[1..], t, l))
  }

  lemma {:induction false} HeldWithinTurn(s: Threads, ms: seq<Move>, t: Thread)
    requires Disciplined(s) && MonitorAt(s) && Schedule(s, ms) && WithinTurn(s, ms) && Held(s, Monitor) != {}
    ensures ServerLock in Held(Scheduled(s, ms), Monitor)
    ensures t != Monitor ==> !Acquires(s, ms, t, ServerLock)
    decreases ms
  {
    hide ReleasesServerLast, Disciplined, ThreadStep;
    if ms != [] {
      var m := ms[0];
      StepKeepsMonitorAt(s, m.thread, m.choice);
      StepDisciplined(s, m.thread, m.choice);
      HeldWithinTurn(ThreadStep(s, m.thread, m.choice), ms[1..], t);
    }
  }

  /** In every run, from the first lock the monitor takes in a check until nothing of the check is left,
      it holds the server lock, so that the worker, or anyone else, acquires it neither between the
      listing and the last removal nor between two removals. */
  lemma MonitorExcludesWorker(before: seq<Move>, ms: seq<Move>, t: Thread)
    requires Schedule(Start(), before) && Schedule(Scheduled(Start(), before), ms)
    requires Held(Scheduled(Start(), before), Monitor) != {} && WithinTurn(Scheduled(Start(), before), ms)
    ensures var end := Scheduled(Scheduled(Start(), before), ms);
            ServerLock in end.holder && end.holder[ServerLock] == Monitor
    ensures t != Monitor ==> !Acquires(Scheduled(Start(), before), ms, t, ServerLock)
  {
    StartDisciplined();
    ScheduleDisciplined(Start(), before);
    MonitorAtAlways(Start(), before);
    HeldWithinTurn(Scheduled(Start(), before), ms, t);
  }

  // ---- Who ends when

  /** In every reachable state: the worker has ended only if it aborted or, told to end, was through its
      pass; the monitor only if told to; the accept thread is told to only after both have ended, and
      is waited for under the server lock; and shutdown, if the worker did not abort, ends last. */
  lemma EndsInOrder(before: seq<Move>)
    requires Schedule(Start(), before)
    ensures var s := Scheduled(Start(), before);
            && (Worker in s.done ==> s.aborted || (s.serviceFlag && s.snapshot == 0))
            && (Monitor in s.done ==> s.serviceFlag)
            && (s.serverFlag ==> s.serviceFlag && Worker in s.done && Monitor in s.done && !s.aborted)
            && (Acceptor in s.done ==> s.serverFlag)
            && (Shutdown in s.todo && s.todo[Shutdown] != [] && s.todo[Shutdown][0] == Join(Acceptor) ==>
                  s.serverFlag && ServerLock in s.holder && s.holder[ServerLock] == Shutdown)
            && (Shutdown in s.done && !s.aborted ==> s.done == {Worker, Monitor, Acceptor, Shutdown})
  {
    StartDisciplined();
    ScheduleDisciplined(Start(), before);
    var s := Scheduled(Start(), before);
    assert OrderedFor(s, Shutdown);
    if Shutdown in s.done && !s.aborted {
      forall t | t in s.done ensures t in {Worker, Monitor, Acceptor, Shutdown} {
        match t { case Worker => case Monitor => case Acceptor => case Shutdown => }
      }
    } else if s.todo[Shutdown] != [] && s.todo[Shutdown][0] == Join(Acceptor) {
      JoinsUnderLock(s);
    }
  }

  lemma JoinsUnderLock(s: Threads)
    requires Disciplined(s) && s.todo[Shutdown] != [] && s.todo[Shutdown][0] == Join(Acceptor)
    ensures s.serverFlag && ServerLock in Held(s, Shutdown)
  {
    assert OrderedFor(s, Shutdown);
    var k := SHUTDOWN_LENGTH - |s.todo[Shutdown]|;
    assert s.todo[Shutdown][0] == ShutdownOp(k) && s.todo[Shutdown][1..] == ShutdownScript(k + 1);
    assert k == 5;
    assert ShutdownScript(6)[0] == Release(ServerLock);
    assert WellOrdered(Held(s, Shutdown), s.todo[Shutdown][1..]);
  }

  /** The worker's moves that begin the turn of a client, and the clients it listed. */
  function TurnsBegun(s: Threads, ms: seq<Move>): nat
    requires Schedule(s, ms)
    decreases ms
  {
    if ms == [] then 0
    else
      (if ms[0].thread == Worker && s.todo[Worker] == [] && s.snapshot > 0 then 1 else 0)
      + TurnsBegun(ThreadStep(s, ms[0].thread, ms[0].choice), ms[1..])
  }

  function ClientsListed(s: Threads, ms: seq<Move>): nat
    requires Schedule(s, ms)
    decreases ms
  {
    if ms == [] then 0
    else
      (if ms[0].thread == Worker && s.todo[Worker] == [] && s.snapshot == 0 && !s.serviceFlag
       then ms[0].choice.count else 0)
      + ClientsListed(ThreadStep(s, ms[0].thread, ms[0].choice), ms[1..])
  }

  lemma {:induction false} TurnsConserved(s: Threads, ms: seq<Move>)
    requires Schedule(s, ms) && !Scheduled(s, ms).aborted
    ensures TurnsBegun(s, ms) + Scheduled(s, ms).snapshot == s.snapshot + ClientsListed(s, ms)
    decreases ms
  {
    hide Script, CheckScript, ServerCall, ShutdownScript;
    if ms != [] {
      FlagStays(ThreadStep(s, ms[0].thread, ms[0].choice), ms[1..]);
      TurnsConserved(ThreadStep(s, ms[0].thread, ms[0].choice), ms[1..]);
    }
  }

  /** Every client the worker lists gets its turn: when the worker has ended without aborting, it has
      begun as many turns as it listed clients. */
  lemma EveryListedClientServed(ms: seq<Move>)
    requires Schedule(Start(), ms) && Worker in Scheduled(Start(), ms).done && !Scheduled(Start(), ms).aborted
    ensures TurnsBegun(Start(), ms) == ClientsListed(Start(), ms)
  {
    EndsInOrder(ms);
    TurnsConserved(Start(), ms);
  }

  // ---- Which guards a handling takes

  function Taken(ops: seq<Op>, l: Lock): nat {
    multiset(ops)[Acquire(l)]
  }

  lemma TakenJoined(a: seq<Op>, b: seq<Op>, l: Lock)
    ensures Taken(a + b, l) == Taken(a, l) + Taken(b, l)
  {
  }

  function One(b: bool): nat {
    if b then 1 else 0
  }

  lemma CallTakes(rest: seq<Op>, l: Lock)
    ensures Taken(ServerCall() + rest, l) == One(l == ServerLock || l == ClientsLock) + Taken(rest, l)
  {
    TakenJoined(ServerCall(), rest, l);
  }

  lemma UnpackingTakes(rest: seq<Op>, l: Lock)
    ensures Taken(ServerCall() + (Unpacking() + rest), l)
         == One(l == ServerLock || l == ClientsLock) + One(l == HandlerLock) + Taken(rest, l)
  {
    TakenJoined(Unpacking(), rest, l);
    CallTakes(Unpacking() + rest, l);
  }

  lemma TakeTakes(k: Lock, rest: seq<Op>, l: Lock)
    ensures Taken(Take(k) + rest, l) == One(l == k) + Taken(rest, l)
    ensures Taken([Acquire(k)] + rest, l) == One(l == k) + Taken(rest, l)
    ensures Taken([Release(k)] + rest, l) == Taken(rest, l)
  {
    TakenJoined(Take(k), rest, l);
    TakenJoined([Acquire(k)], rest, l);
    TakenJoined([Release(k)], rest, l);
  }

  lemma WritingTakes(writes: bool, rest: seq<Op>, evicts: bool, l: Lock)
    ensures Taken(Writing(writes, rest), l) == One(writes && (l == ServerLock || l == ClientsLock)) + Taken(rest, l)
    ensures Taken(Eviction(evicts), l) == One(evicts && (l == ServerLock || l == ClientsLock))
  {
    CallTakes(rest, l);
    CallTakes([], l);
    assert ServerCall() + [] == ServerCall();
  }

  predicate Evicts(h: Handling) {
    if h.HandlesDisconnect? then true else h.evicts
  }

  predicate Replies(h: Handling) {
    match h
    case ReadOnly(_) => false
    case UnpackFails(_) => false
    case HandlesKeepalive(_) => false
    case HandlesDisconnect => true
    case _ => h.writes
  }

  /** The worker calls the server once to read, once to answer or to stamp the client, and once to
      remove it, as often as its poll, dispatch and finish touch the registry; it takes the handler to
      unpack and to pack, and each table where the packet changes it. */
  lemma ScriptTakes(h: Handling, l: Lock)
    ensures Taken(Script(h), l) ==
            match l
            case ServerLock => 1 + One(Replies(h) || h.HandlesKeepalive?) + One(Evicts(h))
            case ClientsLock => 1 + One(Replies(h) || h.HandlesKeepalive?) + One(Evicts(h))
            case HandlerLock =>
              if h.ReadOnly? then 0 else if h.UnpackFails? || h.HandlesKeepalive? then 1 else 2
            case RoutesLock => One(h.HandlesRoutes? || h.HandlesDisconnect?)
            case ConfigsLock => One(h.HandlesConfig? || h.HandlesDisconnect?)
  {
    hide ServerCall, Unpacking, Take, Writing, Eviction, Taken;
    match h {
      case ReadOnly(evicts) =>
        CallTakes(Eviction(evicts), l);
        WritingTakes(false, [], evicts, l);
      case UnpackFails(evicts) =>
        UnpackingTakes(Eviction(evicts), l);
        WritingTakes(false, [], evicts, l);
      case HandlesKeepalive(evicts) =>
        UnpackingTakes(ServerCall() + Eviction(evicts), l);
        CallTakes(Eviction(evicts), l);
        WritingTakes(false, [], evicts, l);
      case HandlesData(writes, evicts) => PackedReplyTakes(writes, evicts, l);
      case AcknowledgesDisconnect(writes, evicts) => PackedReplyTakes(writes, evicts, l);
      case HandlesConfig(writes, evicts) =>
        var reply := Take(HandlerLock) + Writing(writes, Eviction(evicts));
        UnpackingTakes(Take(ConfigsLock) + reply, l);
        TakeTakes(ConfigsLock, reply, l);
        TakeTakes(HandlerLock, Writing(writes, Eviction(evicts)), l);
        WritingTakes(writes, Eviction(evicts), evicts, l);
      case HandlesRoutes(writes, evicts) =>
        var last := [Release(RoutesLock)] + Eviction(evicts);
        var reply := Take(HandlerLock) + Writing(writes, last);
        UnpackingTakes([Acquire(RoutesLock)] + reply, l);
        TakeTakes(RoutesLock, reply, l);
        TakeTakes(HandlerLock, Writing(writes, last), l);
        WritingTakes(writes, last, evicts, l);
        TakeTakes(RoutesLock, Eviction(evicts), l);
      case HandlesDisconnect =>
        var last := Take(ConfigsLock) + [Release(RoutesLock)];
        var cleanup := [Acquire(RoutesLock)] + last;
        UnpackingTakes(Take(HandlerLock) + (ServerCall() + (ServerCall() + cleanup)), l);
        TakeTakes(HandlerLock, ServerCall() + (ServerCall() + cleanup), l);
        CallTakes(ServerCall() + cleanup, l);
        CallTakes(cleanup, l);
        TakeTakes(RoutesLock, last, l);
        TakeTakes(ConfigsLock, [Release(RoutesLock)], l);
        TakeTakes(RoutesLock, [], l);
        assert [Release(RoutesLock)] + [] == [Release(RoutesLock)];
        NoneTaken(l);
    }
  }

  lemma NoneTaken(l: Lock)
    ensures Taken([], l) == 0
  {
  }

  lemma PackedReplyTakes(writes: bool, evicts: bool, l: Lock)
    ensures Taken(ServerCall() + (Unpacking() + (Take(HandlerLock) + Writing(writes, Eviction(evicts)))), l)
         == One(l == ServerLock || l == ClientsLock) + 2 * One(l == HandlerLock)
            + One(writes && (l == ServerLock || l == ClientsLock))
            + One(evicts && (l == ServerLock || l == ClientsLock))
  {
    UnpackingTakes(Take(HandlerLock) + Writing(writes, Eviction(evicts)), l);
    TakeTakes(HandlerLock, Writing(writes, Eviction(evicts)), l);
    WritingTakes(writes, Eviction(evicts), evicts, l);
  }

  lemma {:induction false} RemovalsTake(stale: nat, l: Lock)
    ensures Taken(Removals(stale), l) == if l == ClientsLock then stale else 0
  {
    if stale > 0 {
      RemovalsTake(stale - 1, l);
      TakeTakes(ClientsLock, Removals(stale - 1), l);
    }
  }

  /** The monitor takes the server once for a whole check and the registry for the listing and for each
      removal; the accept thread takes the registry for each connection. */
  lemma OthersTake(s: Threads, choice: Choice, l: Lock)
    requires !s.serviceFlag && !s.serverFlag
    ensures Taken(NextTurn(s, Monitor, choice).todo[Monitor], l) ==
            match l case ServerLock => 1 case ClientsLock => 1 + choice.count case _ => 0
    ensures Taken(NextTurn(s, Acceptor, choice).todo[Acceptor], l) == One(l == ClientsLock && choice.connects)
  {
    RemovalsTake(choice.count, l);
    TakeTakes(ClientsLock, Removals(choice.count), l);
    TakenJoined([Acquire(ServerLock)], Take(ClientsLock) + Removals(choice.count), l);
  }

  // ---- Progress

  /** A step that is not merely another round of a loop nobody has asked to end. */
  predicate Useful(s: Threads, t: Thread) {
    && CanStep(s, t)
    && (|| s.todo[t] != []
        || t == Shutdown
        || (t == Acceptor && s.serverFlag)
        || ((t == Worker || t == Monitor) && s.serviceFlag))
  }

  /** A held lock is on its way back: its holder, or whom the holder waits for, can step. */
  lemma HolderProgress(s: Threads, l: Lock) returns (t: Thread)
    requires Disciplined(s) && l in s.holder
    ensures Useful(s, t)
    decreases 3 - Rank(l)
  {
    t := s.holder[l];
    assert OrderedFor(s, t) && l in Held(s, t);
    var op := s.todo[t][0];
    assert op in s.todo[t];
    match op {
      case Acquire(l') =>
        if l' in s.holder {
          t := HolderProgress(s, l');
        }
      case Join(u) =>
        if u !in s.done {
          assert u == Acceptor && l == ServerLock;
          assert t == Shutdown;
          t := AcceptorProgress(s);
        }
      case _ =>
    }
  }

  /** Once shutdown waits for it, the accept thread can step: it only ever takes the last lock. */
  lemma AcceptorProgress(s: Threads) returns (t: Thread)
    requires Disciplined(s) && Acceptor !in s.done && |s.todo[Shutdown]| == 2
    ensures Useful(s, t)
  {
    t := Acceptor;
    assert OrderedFor(s, t) && OrderedFor(s, Shutdown);
    if s.todo[t] != [] {
      assert s.todo[t][0] in s.todo[t];
      if s.todo[t][0].Acquire? && ClientsLock in s.holder {
        t := s.holder[ClientsLock];
        assert OrderedFor(s, t) && ClientsLock in Held(s, t);
      }
    }
  }

  /** An unfinished worker or monitor that cannot step waits for a lock, and that wait ends. */
  lemma LoopProgress(s: Threads, t: Thread) returns (u: Thread)
    requires Disciplined(s) && t !in s.done && (t == Worker || t == Monitor) && s.serviceFlag
    ensures Useful(s, u)
  {
    u := t;
    assert OrderedFor(s, t);
    if s.todo[t] != [] {
      assert s.todo[t][0] in s.todo[t];
      if s.todo[t][0].Acquire? && s.todo[t][0].lock in s.holder {
        u := HolderProgress(s, s.todo[t][0].lock);
      }
    }
  }

  lemma ShutdownProgress(s: Threads) returns (u: Thread)
    requires Disciplined(s) && Shutdown !in s.done
    ensures Useful(s, u)
  {
    u := Shutdown;
    assert OrderedFor(s, Shutdown);
    if s.todo[u] != [] && !OpEnabled(s, s.todo[u][0]) {
      var k := SHUTDOWN_LENGTH - |s.todo[u]|;
      assert s.todo[u][0] == ShutdownOp(k);
      match ShutdownOp(k) {
        case Acquire(l) => u := HolderProgress(s, l);
        case Join(t) => if t == Acceptor { u := AcceptorProgress(s); } else { u := LoopProgress(s, t); }
        case _ =>
      }
    }
  }

  /** In no reachable state is an unfinished thread stuck: it can step, or another thread can take a
      step that is not just one more idle round. */
  lemma DeadlockFreedom(ms: seq<Move>, t: Thread) returns (u: Thread)
    requires Schedule(Start(), ms) && t !in Scheduled(Start(), ms).done
    ensures CanStep(Scheduled(Start(), ms), u) && (u == t || Useful(Scheduled(Start(), ms), u))
    ensures CanStep(Scheduled(Start(), ms), t) ==> u == t
  {
    StartDisciplined();
    ScheduleDisciplined(Start(), ms);
    var s := Scheduled(Start(), ms);
    u := t;
    assert OrderedFor(s, t);
    if !CanStep(s, t) {
      if t == Shutdown {
        u := ShutdownProgress(s);
      } else {
        assert s.todo[t][0] in s.todo[t];
        u := HolderProgress(s, s.todo[t][0].lock);
      }
    }
  }

  // ---- Shutdown ends

  function Unfinished(s: Threads, t: Thread): nat {
    if t in s.done then 0 else 1
  }

  function TurnLeft(s: Threads, t: Thread): nat {
    Unfinished(s, t) + if t in s.todo then |s.todo[t]| else 0
  }

  function WorkerBudget(s: Threads): nat {
    s.snapshot * (LONGEST + 1) + TurnLeft(s, Worker)
  }

  function CoreBudget(s: Threads): nat {
    WorkerBudget(s) + TurnLeft(s, Monitor) + TurnLeft(s, Shutdown)
  }

  function Remaining(s: Threads): nat {
    CoreBudget(s) + TurnLeft(s, Acceptor)
  }

  lemma OpsRemain(s: Threads, t: Thread, aborts: bool)
    requires CanStep(s, t) && s.todo[t] != []
    ensures TurnLeft(AfterOp(s, t, aborts), t) < TurnLeft(s, t)
    ensures forall u | u != t :: TurnLeft(AfterOp(s, t, aborts), u) == TurnLeft(s, u)
    ensures AfterOp(s, t, aborts).snapshot <= s.snapshot
    ensures s.serviceFlag ==> AfterOp(s, t, aborts).serviceFlag
    ensures s.serverFlag ==> AfterOp(s, t, aborts).serverFlag
    ensures s.aborted ==> AfterOp(s, t, aborts).aborted
  {
  }

  lemma TurnRemains(s: Threads, t: Thread, choice: Choice)
    requires CanStep(s, t) && s.todo[t] == [] && s.serviceFlag
    ensures var s' := NextTurn(s, t, choice);
            && s'.serviceFlag && s'.serverFlag == s.serverFlag && s'.aborted == s.aborted && s'.snapshot <= s.snapshot
            && (forall u | u != t :: TurnLeft(s', u) == TurnLeft(s, u))
            && (t != Worker ==> s'.snapshot == s.snapshot)
            && (t == Worker ==> WorkerBudget(s') < WorkerBudget(s))
            && (t == Acceptor && !s.serverFlag ==> TurnLeft(s', t) <= TurnLeft(s, t) + 2)
            && (t == Acceptor && s.serverFlag ==> TurnLeft(s', t) < TurnLeft(s, t))
            && (t == Monitor || t == Shutdown ==> TurnLeft(s', t) < TurnLeft(s, t))
  {
    hide Script, CheckScript;
    ScriptLength(choice.handling);
  }

  /** What a step costs once the service flag is up: nothing but an idle round of the accept thread
      adds work. */
  lemma StepRemains(s: Threads, t: Thread, choice: Choice)
    requires CanStep(s, t) && s.serviceFlag
    ensures var s' := ThreadStep(s, t, choice);
            && s'.serviceFlag && (s.serverFlag ==> s'.serverFlag) && (s.aborted ==> s'.aborted)
            && CoreBudget(s') <= CoreBudget(s) - (if t != Acceptor then 1 else 0)
            && WorkerBudget(s') <= WorkerBudget(s) - (if t == Worker then 1 else 0)
            && s'.snapshot <= s.snapshot
            && Remaining(s') <= if Useful(s, t) then Remaining(s) - 1 else Remaining(s) + 2
  {
    hide NextTurn, AfterOp, TurnLeft;
    assert t == Worker || t == Monitor || t == Acceptor || t == Shutdown;
    if s.todo[t] == [] {
      TurnRemains(s, t, choice);
    } else {
      OpsRemain(s, t, choice.aborts);
    }
  }

  /** All four threads, or, when the worker has aborted, all but the accept thread, which nobody will
      ask to end. */
  function Enders(aborted: bool): set<Thread> {
    if aborted then {Worker, Monitor, Shutdown} else {Worker, Monitor, Acceptor, Shutdown}
  }

  /** Until these have ended, there is a step that is not an idle round. */
  lemma FinishingStep(s: Threads) returns (t: Thread)
    requires Disciplined(s) && s.serviceFlag && s.done != Enders(s.aborted)
    ensures Useful(s, t)
  {
    if Shutdown !in s.done {
      t := ShutdownProgress(s);
    } else {
      assert OrderedFor(s, Shutdown);
      if s.aborted && Monitor !in s.done {
        t := LoopProgress(s, Monitor);
      } else {
        forall u | u in s.done ensures u in Enders(s.aborted) {
          match u { case Worker => case Monitor => case Acceptor => case Shutdown => }
        }
        assert false;
      }
    }
  }

  function MovesOf(ms: seq<Move>, t: Thread): nat {
    if ms == [] then 0 else (if ms[0].thread == t then 1 else 0) + MovesOf(ms[1..], t)
  }

  /** The moves that are not idle rounds. */
  function UsefulMoves(s: Threads, ms: seq<Move>): (n: nat)
    requires Schedule(s, ms)
    ensures n <= |ms|
    decreases ms
  {
    if ms == [] then 0
    else
      (if Useful(s, ms[0].thread) then 1 else 0)
      + UsefulMoves(ThreadStep(s, ms[0].thread, ms[0].choice), ms[1..])
  }

  /** After the service flag is up the worker begins no pass beyond one whose flag test it has passed:
      however the threads interleave, the steps of the worker are bounded by what its turn and snapshot
      leave it to do, those of worker, monitor and shutdown together by what these have left, and all
      steps but the idle rounds of the accept thread, which bring at most two each, by what all have left. */
  lemma {:induction false} StepsBounded(s: Threads, ms: seq<Move>)
    requires Disciplined(s) && s.serviceFlag && Schedule(s, ms)
    ensures Scheduled(s, ms).snapshot <= s.snapshot
    ensures MovesOf(ms, Worker) + WorkerBudget(Scheduled(s, ms)) <= WorkerBudget(s)
    ensures MovesOf(ms, Worker) + MovesOf(ms, Monitor) + MovesOf(ms, Shutdown) + CoreBudget(Scheduled(s, ms))
         <= CoreBudget(s)
    ensures UsefulMoves(s, ms) + Remaining(Scheduled(s, ms)) <= Remaining(s) + 2 * (|ms| - UsefulMoves(s, ms))
    ensures s.serverFlag ==> UsefulMoves(s, ms) == |ms|
    decreases ms
  {
    if ms != [] {
      var t, choice := ms[0].thread, ms[0].choice;
      StepDisciplined(s, t, choice);
      StepRemains(s, t, choice);
      StepsBounded(ThreadStep(s, t, choice), ms[1..]);
    }
  }

  /** Hence every schedule of steps that are not idle rounds is finite, and one that cannot be
      extended has brought the threads to their ends. */
  lemma {:induction false} ShutdownFinishes(s: Threads, ms: seq<Move>)
    requires Disciplined(s) && s.serviceFlag && Schedule(s, ms) && UsefulMoves(s, ms) == |ms|
    ensures |ms| <= Remaining(s)
    ensures (forall t :: !Useful(Scheduled(s, ms), t)) ==>
              Scheduled(s, ms).done == Enders(Scheduled(s, ms).aborted)
  {
    StepsBounded(s, ms);
    ScheduleDisciplined(s, ms);
    FlagStays(s, ms);
    if Scheduled(s, ms).done != Enders(Scheduled(s, ms).aborted) {
      var t := FinishingStep(Scheduled(s, ms));
    }
  }

  lemma {:induction false} FlagStays(s: Threads, ms: seq<Move>)
    requires Schedule(s, ms)
    ensures s.serviceFlag ==> Scheduled(s, ms).serviceFlag
    ensures s.aborted ==> Scheduled(s, ms).aborted
    decreases ms
  {
    if ms != [] {
      FlagStays(ThreadStep(s, ms[0].thread, ms[0].choice), ms[1..]);
    }
  }

  predicate Completes(s: Threads, ms: seq<Move>) {
    Schedule(s, ms) && Scheduled(s, ms).done == {Worker, Monitor, Acceptor, Shutdown}
  }

  lemma ScheduleCons(s: Threads, t: Thread, choice: Choice, rest: seq<Move>)
    requires CanStep(s, t) && Schedule(ThreadStep(s, t, choice), rest)
    ensures Schedule(s, [Move(t, choice)] + rest)
    ensures Scheduled(s, [Move(t, choice)] + rest) == Scheduled(ThreadStep(s, t, choice), rest)
  {
    assert ([Move(t, choice)] + rest)[1..] == rest;
  }

  /** From any state after the service flag is up, without another abort the threads can be brought to
      their ends. */
  lemma {:induction false} FinishFrom(s: Threads) returns (ms: seq<Move>)
    requires Disciplined(s) && s.serviceFlag
    ensures Schedule(s, ms) && Scheduled(s, ms).done == Enders(s.aborted)
    decreases Remaining(s)
  {
    if s.done == Enders(s.aborted) {
      ms := [];
    } else {
      var t := FinishingStep(s);
      var choice := Choice(HandlesDisconnect, 0, false, false);
      StepRemains(s, t, choice);
      StepDisciplined(s, t, choice);
      ms := FinishFrom(ThreadStep(s, t, choice));
      ScheduleCons(s, t, choice, ms);
      ms := [Move(t, choice)] + ms;
    }
  }

  /** From any reachable state shutdown can be called and the threads brought to their ends. */
  lemma Finish(s: Threads) returns (ms: seq<Move>)
    requires Disciplined(s)
    ensures Schedule(s, ms) && Scheduled(s, ms).done == Enders(s.aborted)
  {
    if s.serviceFlag {
      ms := FinishFrom(s);
    } else {
      var choice := Choice(HandlesDisconnect, 0, false, false);
      assert OrderedFor(s, Shutdown);
      assert s.todo[Shutdown][0] == RaiseServiceFlag;
      StepDisciplined(s, Shutdown, choice);
      ms := FinishFrom(ThreadStep(s, Shutdown, choice));
      ScheduleCons(s, Shutdown, choice, ms);
      ms := [Move(Shutdown, choice)] + ms;
    }
  }

  /** Whatever has happened, shutdown can still be completed if and only if the worker has not aborted. */
  lemma ShutdownCompletesIff(before: seq<Move>)
    requires Schedule(Start(), before)
    ensures (exists after :: Completes(Scheduled(Start(), before), after)) <==>
            !Scheduled(Start(), before).aborted
  {
    StartDisciplined();
    ScheduleDisciplined(Start(), before);
    var s := Scheduled(Start(), before);
    if s.aborted {
      forall after | Schedule(s, after) ensures !Completes(s, after) {
        AbortedNeverCompletes(before, after);
      }
    } else {
      var after := Finish(s);
      assert Completes(s, after);
    }
  }

  /** After an abort, the other threads can still be brought to their ends, by `Finish`, but in no
      continuation is the accept thread told to stop: shutdown panics when it joins the worker. */
  lemma AbortedNeverCompletes(before: seq<Move>, after: seq<Move>)
    requires Schedule(Start(), before) && Scheduled(Start(), before).aborted
    requires Schedule(Scheduled(Start(), before), after)
    ensures !Scheduled(Scheduled(Start(), before), after).serverFlag
    ensures Acceptor !in Scheduled(Scheduled(Start(), before), after).done
  {
    StartDisciplined();
    ScheduleDisciplined(Start(), before);
    ScheduleDisciplined(Scheduled(Start(), before), after);
    FlagStays(Scheduled(Start(), before), after);
  }

  /** One lock operation of the thread, prefixed to what it does next. */
  lemma OpRuns(s: Threads, t: Thread, choice: Choice, rest: seq<Op>, ms: seq<Move>)
    requires CanStep(s, t) && s.todo[t] != [] && (s.todo[t][0].Acquire? || s.todo[t][0].Release?)
    requires s.todo[t][1..] == rest
    requires var op := s.todo[t][0];
             var holder := if op.Acquire? then s.holder[op.lock := t] else s.holder - {op.lock};
             Schedule(s.(todo := s.todo[t := rest], holder := holder), ms)
    ensures var op := s.todo[t][0];
            var holder := if op.Acquire? then s.holder[op.lock := t] else s.holder - {op.lock};
            && Schedule(s, [Move(t, choice)] + ms)
            && Scheduled(s, [Move(t, choice)] + ms) == Scheduled(s.(todo := s.todo[t := rest], holder := holder), ms)
  {
    ScheduleCons(s, t, choice, ms);
  }

  lemma TakeRuns(s: Threads, t: Thread, choice: Choice, l: Lock, rest: seq<Op>, ms: seq<Move>)
    requires t in s.todo && t !in s.done && s.todo[t] == Take(l) + rest && l !in s.holder
    requires Schedule(s.(todo := s.todo[t := rest]), ms)
    ensures var m := Move(t, choice);
            && Schedule(s, [m] + ([m] + ms))
            && Scheduled(s, [m] + ([m] + ms)) == Scheduled(s.(todo := s.todo[t := rest]), ms)
  {
    hide Schedule, Scheduled;
    var last, inner := [Release(l)] + rest, s.holder[l := t];
    assert inner - {l} == s.holder && s.todo[t][1..] == last && last[1..] == rest;
    var s1 := s.(todo := s.todo[t := last], holder := inner);
    assert s1.(todo := s1.todo[t := rest], holder := s.holder) == s.(todo := s.todo[t := rest]);
    OpRuns(s1, t, choice, rest, ms);
    OpRuns(s, t, choice, last, [Move(t, choice)] + ms);
  }

  lemma CallRuns(s: Threads, t: Thread, choice: Choice, rest: seq<Op>, ms: seq<Move>)
    requires t in s.todo && t !in s.done && s.todo[t] == ServerCall() + rest
    requires ServerLock !in s.holder && ClientsLock !in s.holder
    requires Schedule(s.(todo := s.todo[t := rest]), ms)
    ensures var m := Move(t, choice);
            && Schedule(s, [m] + ([m] + ([m] + ([m] + ms))))
            && Scheduled(s, [m] + ([m] + ([m] + ([m] + ms)))) == Scheduled(s.(todo := s.todo[t := rest]), ms)
  {
    hide Schedule, Scheduled;
    var m, last, outer := Move(t, choice), [Release(ServerLock)] + rest, s.holder[ServerLock := t];
    assert outer - {ServerLock} == s.holder && last[1..] == rest && s.todo[t][1..] == Take(ClientsLock) + last;
    var s1 := s.(todo := s.todo[t := Take(ClientsLock) + last], holder := outer);
    var s3 := s.(todo := s.todo[t := last], holder := outer);
    assert s1.(todo := s1.todo[t := last]) == s3;
    assert s3.(todo := s3.todo[t := rest], holder := s.holder) == s.(todo := s.todo[t := rest]);
    OpRuns(s3, t, choice, rest, ms);
    TakeRuns(s1, t, choice, ClientsLock, last, [m] + ms);
    OpRuns(s, t, choice, Take(ClientsLock) + last, [m] + ([m] + ([m] + ms)));
  }

  /** The abort is reached: a pass finds a client, and unpacking what it sent panics. */
  lemma AbortReachable() returns (ms: seq<Move>)
    ensures Schedule(Start(), ms) && Scheduled(Start(), ms).aborted
  {
    var s0, choice := Start(), Choice(UnpackFails(false), 1, false, true);
    var m := Move(Worker, choice);
    var s1 := ThreadStep(s0, Worker, choice);
    assert s1.todo[Worker] == ServerCall() + [];
    var s2 := s1.(todo := s1.todo[Worker := []]);
    var s3 := ThreadStep(s2, Worker, choice);
    assert s3.todo[Worker] == ServerCall() + Unpacking() by {
      assert Unpacking() + Eviction(false) == Unpacking();
    }
    var s4 := s3.(todo := s3.todo[Worker := Unpacking()]);
    var s5 := ThreadStep(s4, Worker, choice);
    assert s5.todo[Worker][0] == Unpack;
    ms := [];
    ScheduleCons(s5, Worker, choice, ms);
    ScheduleCons(s4, Worker, choice, [m] + ms);
    ms := [m] + ([m] + ms);
    CallRuns(s3, Worker, choice, Unpacking(), ms);
    ms := [m] + ([m] + ([m] + ([m] + ms)));
    ScheduleCons(s2, Worker, choice, ms);
    ms := [m] + ms;
    CallRuns(s1, Worker, choice, [], ms);
    ms := [m] + ([m] + ([m] + ([m] + ms)));
    ScheduleCons(s0, Worker, choice, ms);
    ms := [m] + ms;
  }
}
