# A verified model of the Oxide VPN protocol

The repository is a small VPN: a client and a server exchange encrypted, length-prefixed packets over
TCP. Its functions are short; what is hard is how they compose. A request is laid out as bytes, sealed
with AES-256-GCM, framed, carried in arbitrary pieces, polled by a non-blocking reader, dispatched by
one worker thread that serves all clients, answered, and read back by a blocking client whose keepalive
thread shares the socket, while an accept thread and a staleness monitor change the registry underneath.
This project models that path and proves what holds over all runs of it.

## How the model is built

* **Codecs** (`Bytes`, `Packets`, `Handler`, `Configuration`, `Routes`, `Encryption`). Methods that build
  and take apart buffers step by step, each proved against a specification function; round trips are
  lemmas about those functions. The cipher is any pair of functions that satisfies sections 5.1 and 5.2
  of RFC 5116 as stated in `Encryption.Lawful`; `Encryption.ToyCipher` shows that the laws are consistent.
  Nonces are inputs. An out-of-range slice is the outcome `Panic`, different from every error.
* **Framing** (`Framing`, `Writers`). Bytes arrive in any pieces; a poll reads what is there. A torn body is
  consumed and lost, as in the source. One poll is atomic, which loses nothing: bytes that arrive while it
  runs are bytes that arrived before the read that saw them. `Writers` has the two unlocked writers of a
  client.
* **The server** (`Service`). A state machine over the registry, the bytes written to each connection, the
  routing and configuration tables, the worker's position and the monitor's list. Time is a number of
  nanoseconds that only advances. A worker step is what runs between two acquisitions of the registry lock
  (poll and unpack; dispatch and write; clean up or evict), so accepts, arrivals, time and the monitor
  interleave with a half-handled packet. The monitor lists, then removes one client at a time, while it
  holds the server lock that the worker needs. How much of a reply the socket takes is an input.
* **The objects** (`Network`, `Worker`, `Client`, `Connections`). Classes with the source's fields whose
  methods update them in place; every method's new state and result are proved equal to the step of the
  state machine it stands for, and one pass of the worker's main loop is proved to be a run of it.
* **The session** (`Session`, `Pipeline`). One client, its keepalive thread, the network, and the server
  with all its other clients, freely interleaved: in `Session` each request waits for its answer, in
  `Pipeline` requests follow each other as they like.
* **Threads and locks** (`Locks`). The worker, monitor, accept and shutdown threads at the granularity of
  one lock operation, flag, join or unpacking. Unpacking may panic: the worker's thread ends, unwinding
  gives back its locks, and shutdown panics when it unwraps the join of that thread.

Where a claim one would expect is false of the code, the code is kept and the exact condition is proved:
polls keep a stream in sync if and only if they are whole (`Framing.PollKeepsSyncIff`); routes outlive
their registration after exactly three kinds of step (`RouteHistory.OrphanedByIff`); plaintexts of eight
or nine bytes abort the worker and no others do (`Handler.Unpack`, `Eviction.EvictionLaw`,
`Eviction.ShortPlaintextReachable`); shutdown can be completed if and only if the worker has not aborted
(`Locks.ShutdownCompletesIff`); a request reads the answer to itself as long as no read times out and the
worker holds no packet of an earlier connection at the address (`Session.RepliesMatchRequestsIff`,
`Session.WrongAnswerReachable`), and otherwise the answers come in order, so that a late one is read by the
next request (`Pipeline.AnswersInOrder`, `Pipeline.LateAnswer`); the monitor removes a client that is not
silent exactly after a listed id was reused (`Staleness.DoomedSilentIff`); the stream of a client is readable
if and only if its two writers keep apart (`Writers.StreamReadableIff`); the length prefix is exact exactly
below the 32-bit wrap (`Framing.ReadersAcceptIff`); the configured server values never reach a client
(`Replies.RunKeepsAnswerable`, `Session.HandshakeHoldsDefault`).

A comment beside the stale limit says one minute (src/network/tcp_server.rs:190); the code says 90 seconds, and so does the model.

## Assumptions of the session theorems

`Session.SessionEnabled` lists them: a client frame is written in one piece even though the keepalive
thread and the caller share a socket without a lock (src/vpn/vpn_client.rs:106, src/vpn/vpn_client.rs:115),
which `Writers` shows to be needed; a request's box is shorter than 2^32 bytes; the blocking read does not
time out; the server polls this client when less than a prefix or a whole frame has arrived; its address is
not accepted again while the session lasts. The session begins with an acceptance in any reachable state,
also while the address is still registered, in which the worker holds no answerable packet of an earlier
connection there (`Session.HoldsEarlierRequest`). Short and failed writes by the server are allowed, and so
is anything the other clients do. `Pipeline.PipeEnabled` drops the assumption on time-outs, as long as
nothing of the awaited frame was read, and asks instead that this client's socket takes whole frames; the
theorems of `Pipeline` hold from every reachable state.

## Model

| member | source | states |
|---|---|---|
| Session.RepliesMatchRequests | src/vpn/vpn_client.rs:80-96 | for a connection accepted in any reachable server state in which the worker holds no packet of an earlier connection at the address that it will answer: over every interleaving each answered request got the answer to itself, and the connection's packets never abort the worker |
| Session.RepliesMatchRequestsIff | src/vpn/vpn_worker.rs:79-105 | that condition is exact: every session from a reachable state gives every request its own answer if and only if the worker holds no answerable packet received under this id, or the id is listed as stale |
| Session.EarlierRequestAnswered | src/network/tcp_server.rs:156-159 | otherwise any request of the new connection can get the answer to that packet |
| Session.WrongAnswerReachable | src/network/tcp_server.rs:90-90 | for any answerable packet and any request there is a run from the start in which this happens |
| Session.RequestCanBeAnsweredIff | src/vpn/vpn_client.rs:80-96 | in every state of such a session with no request outstanding, unread keepalives included, a request that deserves an answer and fits a frame has a continuation that delivers it if and only if the client is registered, not listed as stale, and the worker neither lost nor about to drop it |
| Session.SendCallIsExchange | src/vpn/vpn_client.rs:80-96 | in every such session a request, what happens meanwhile and the read of its answer are one call of `send_packet`: it adds to the stream what the request adds to the bytes in flight, returns the answer to its packet, leaves what follows in the stream, and changes nothing else of the client |
| Session.HandshakeIsExchange | src/vpn/vpn_client.rs:49-78 | with a configuration request they are one handshake, which succeeds and leaves the client connected, with a keepalive thread and (1500, 30 s, 3) |
| Session.RoundsAreKeepalives | src/vpn/vpn_client.rs:111-121 | the rounds of the keepalive thread add to the stream what the session's keepalives add to the bytes in flight |
| Pipeline.AnswersInOrder | src/network/tcp_client.rs:23-42 | from every reachable server state, without waiting for answers and after reads that timed out: what is read is the answers to what was sent, in order, after the one to a packet the worker still held of an earlier connection, and all of them once nothing is left to do |
| Pipeline.ReadBelongsTo | src/vpn/vpn_client.rs:91-95 | a read returns the answer to the packet all of whose predecessors' answers have been heard, so to the last one sent exactly if no earlier answer is outstanding |
| Pipeline.LateAnswer | src/network/tcp_client.rs:17-26 | there is a run in which a client shakes hands and sends any two requests, the read of the first times out, and `send_packet` returns the answer to the first for the second |
| Session.HandshakeYieldsDefault | src/vpn/vpn_client.rs:49-78 | in every such session an answered configuration request carries the bytes 0 0 5 220, 0 0 0 30, 0 0 0 3, which read as (1500, 30 s, 3) |
| Session.HandshakeHoldsDefault | src/vpn/vpn_client.rs:98-103 | if this client's own socket takes whole frames, a handshake that succeeds on any part of what the server wrote to it leaves it connected with (1500, 30 s, 3), whatever it held before |
| Session.ReplyIsAnswer | src/vpn/vpn_worker.rs:149-176 | the worker's reply to the packet as received is the answer its sender deserves, or a protocol error when it deserves none |
| Session.ServerKeepsAligned | src/vpn/vpn_worker.rs:79-105 | every server step, this client's or another's, keeps the stream, the worker's position and the unread reply aligned with the pending request |
| NonInterference.NonInterference | src/vpn/vpn_worker.rs:42-73 | for every run, the part of the registry, tables, streams and worker position belonging to one client is what its own events alone produce |
| NonInterference.OrderOfClientsIrrelevant | src/vpn/vpn_worker.rs:44-48 | runs giving every client the same events in the same order end in the same state |
| NonInterference.OwnStep | src/vpn/vpn_worker.rs:79-202 | a client's event does to its part what it does to the whole |
| NonInterference.OthersStep | src/vpn/vpn_worker.rs:79-202 | another client's event leaves a client's part untouched |
| Worker.SnapshotOrderIrrelevant | src/vpn/vpn_worker.rs:44-48 | two passes over the same ids in different orders end in the same state, if no listed client has a frame waiting that opens to eight or nine bytes |
| Worker.PassServesEachAlone | src/vpn/vpn_worker.rs:48-68 | a pass comes to its end if and only if no listed client has such a frame waiting; it then does to each listed client one turn on its own part, and nothing to the others |
| Worker.PassIsRun | src/vpn/vpn_worker.rs:42-73 | a pass of the main loop is a run of the state machine |
| Locks.DeadlockFreedom | src/vpn/vpn_worker.rs:42-73 | in every reachable state, the worker aborted or not, an unfinished thread can step or another can take a step that is not an idle round |
| Locks.ShutdownCompletesIff | src/vpn/vpn_service.rs:138-168 | from a reachable state some schedule brings all four threads to their ends, the join made while holding the server lock included, if and only if the worker has not aborted |
| Locks.AbortedNeverCompletes | src/vpn/vpn_service.rs:142-144 | after an abort no continuation raises the server's flag or ends the accept thread, because shutdown panics when it joins the worker |
| Locks.AbortReachable | src/protocol/handler.rs:31-39 | an abort is reached |
| Locks.FinishFrom | src/vpn/vpn_service.rs:138-168 | from any state after the service flag is up the threads, except the accept thread after an abort, can be brought to their ends |
| Locks.StepsBounded | src/vpn/vpn_worker.rs:43-48 | after the service flag is up, in every schedule: the worker begins no pass beyond one whose flag test it has passed, its steps and those of worker, monitor and shutdown together are bounded, and so are all steps but the accept thread's idle rounds, which end with the server's flag |
| Locks.ShutdownFinishes | src/vpn/vpn_service.rs:138-168 | hence a schedule without idle rounds is finite, and one that cannot be extended has ended every thread, or after an abort all but the accept thread |
| Locks.ScheduleDisciplined | src/network/tcp_server.rs:105-119 | every schedule keeps locks in rising rank and the flags and finished threads in step with shutdown |
| Locks.ScriptOrdered | src/vpn/vpn_worker.rs:116-202 | whatever the worker does with a packet, it takes routes before configs, handler and server, those before the registry, and returns them all |
| Locks.CheckOrdered | src/vpn/vpn_service.rs:96-103 | so does a monitor's check that removes any number of clients under the server lock |
| Locks.MonitorExcludesWorker | src/vpn/vpn_service.rs:96-103 | in every schedule, from the first lock of a check until nothing of it is left the monitor holds the server lock and no other thread acquires it, so the worker runs neither between the listing and the removals nor between two of these |
| Locks.EndsInOrder | src/vpn/vpn_service.rs:138-168 | in every reachable state: the worker has ended only by aborting or, told to end, after its whole pass, the monitor only when told to, the accept thread is told to only after both, and it is waited for under the server lock |
| Locks.EveryListedClientServed | src/vpn/vpn_worker.rs:43-48 | a worker that has ended without aborting has begun as many turns as it listed clients |
| Locks.ScriptTakes | src/vpn/vpn_worker.rs:79-202 | how often a handling takes each guard: the server once for each registry step of the state machine, the handler to unpack and to pack, each table where the packet changes it |
| Locks.OthersTake | src/vpn/vpn_service.rs:170-176 | a check takes the server once and the registry once more than it removes clients; the accept thread takes the registry for each connection |
| Locks.HolderProgress | src/vpn/vpn_worker.rs:137-143 | whoever holds a lock, or whom that holder waits for, can step |
| Framing.FramesArriveInOrder | src/network/tcp_server.rs:121-154 | under whole polls and any arrivals, delivered frames are a prefix of sent frames, the outstanding bytes encode exactly the rest, and nothing outstanding means all delivered |
| Framing.PollKeepsSyncIff | src/network/tcp_server.rs:127-148 | a poll keeps the reader at a frame boundary if and only if it sees less than a prefix or a whole frame |
| Framing.TornPollForgesFrame | src/network/tcp_server.rs:139-148 | without that, a frame is delivered that was never sent |
| Framing.HeadPoll | src/network/tcp_server.rs:139-153 | what a poll of a stream that starts with a given frame finds, and what it leaves, for every amount that has arrived |
| Framing.ReadersAcceptIff | src/network/tcp_server.rs:143-145 | below the prefix wrap the server's and the client's reader accept a packed packet if and only if its payload is at most 65497 bytes; the prefix is exact exactly below the wrap |
| Framing.ClientReadKeepsSyncIff | src/network/tcp_client.rs:23-42 | a read of the client ends at a frame boundary if and only if it found nothing or a whole frame before it timed out |
| Framing.ClientReadsFrame | src/network/tcp_client.rs:23-42 | the client reads a framed body back, whatever follows it, if and only if it is at most 65535 bytes |
| Framing.ClientReadOutcomes | src/network/tcp_client.rs:23-42 | result and rest of every read: a frame of at most 65535 bytes is taken off, an announcement above that costs the prefix, anything incomplete costs what is there |
| Framing.PartialFrameUnreadable | src/network/tcp_client.rs:23-42 | no proper part of a frame reads as anything but a timeout |
| Framing.EncodeConcatenates | src/network/tcp_client.rs:44-51 | the stream of a concatenation is the concatenation of the streams |
| Writers.StreamReadableIff | src/network/tcp_client.rs:44-51 | however the caller and the keepalive thread interleave prefixes and bodies: the stream is the frames in the order they were begun if neither begins one within a frame of the other, and otherwise does not split into written frames at all, unless a frame begins like a prefix |
| Writers.TornWritesForgeFrame | src/vpn/vpn_client.rs:105-117 | with both prefixes before both bodies the server reads a frame that neither wrote, for every cipher and packet, unless a nonce begins like a prefix |
| RouteHistory.RoutesEqualHistory | src/vpn/vpn_worker.rs:178-202 | in every reachable state a client has routes exactly if its latest route action is an aligned update, and they are the parse of it |
| RouteHistory.LeavingIffAcknowledged | src/vpn/vpn_worker.rs:116-143 | the cleanup of a disconnect is reached exactly for a registered client whose acknowledgment was written in full |
| RouteHistory.OrphanedByIff | src/vpn/vpn_worker.rs:51-65 | exactly a stale removal, a fatal eviction, or an update handled after removal leaves routes without a registration |
| RouteHistory.ConfigOrphanedByIff | src/vpn/vpn_worker.rs:241-251 | and likewise for configurations |
| RouteHistory.OrphanReachable | src/vpn/vpn_service.rs:170-176 | such a state is reached |
| Eviction.EvictionLaw | src/vpn/vpn_worker.rs:48-77 | a worker turn drops a registered client if and only if the bytes waiting for it satisfy the stated condition on prefix, type byte, control byte, length and acknowledgment; it aborts the worker exactly on a whole frame opening to eight or nine bytes |
| Eviction.PollLeadsTo | src/network/tcp_server.rs:121-154 | where every poll leads and what it leaves, for a missing client, silence, an announcement over 65535, a torn frame, and each outcome of unpacking |
| Eviction.FinishEvictsIff | src/vpn/vpn_worker.rs:51-77 | an error drops the client exactly if it is a protocol error or a missing client, also one registered since, and leaves the tables alone |
| Eviction.DispatchEvicts | src/vpn/vpn_worker.rs:149-160 | handling an accepted packet drops its sender exactly on the stated plaintexts |
| Eviction.WorkerLostIff | src/protocol/handler.rs:31-39 | over every run the worker thread is lost if and only if a poll met a whole frame opening to eight or nine bytes |
| Eviction.ShortPlaintextReachable | src/protocol/handler.rs:31-39 | under every cipher such a frame can be sent: an accepted client's sealed eight or nine bytes end the worker at the first poll |
| Eviction.PackedNeverCrashes | src/protocol/handler.rs:28-39 | a stream that starts with the frame of a packed packet never aborts the worker |
| Replies.DispatchWrites | src/vpn/vpn_worker.rs:162-176 | the one write of a dispatch starts the frame of a body of at most 65535 bytes that unpacks, cut only where the socket failed |
| Replies.RunKeepsAnswerable | src/vpn/vpn_worker.rs:239-251 | in every reachable state all client configurations are the default and the packet in hand is small enough to echo |
| Replies.RepliesReadable | src/network/tcp_server.rs:156-166 | over every run, all bytes sent to a client whose own socket takes whole frames split into frames it can read and unpack, with one configuration among them, whatever the other sockets take |
| Replies.ReadableUntilShortWrite | src/network/tcp_server.rs:156-166 | and in every run what was sent to a client before its first short write stays such a beginning of its stream, whatever is written later |
| Replies.ClientDrains | src/network/tcp_client.rs:23-42 | the client reads the frames of such a stream one by one, in order |
| Staleness.ListedIffSilent | src/network/tcp_server.rs:188-197 | in every reachable state a check lists a client if and only if it is registered and its last acceptance, complete read or handled keepalive is over 90 s ago |
| Staleness.CheckIsExact | src/vpn/vpn_service.rs:170-176 | a check that runs to its end removes exactly what it listed |
| Staleness.DoomedSilentIff | src/vpn/vpn_service.rs:98-100 | over a run, whatever a check is still to remove is always silent at that moment too if and only if no connection is accepted under a listed id |
| Staleness.StepDoomedSilentIff | src/network/tcp_server.rs:90-90 | the one step that breaks this is such an acceptance |
| Staleness.ReusedIdRemovedFresh | src/network/tcp_server.rs:90-90 | reusing a listed id gets the new registration removed at once |
| Staleness.InTouchNeverRemoved | src/network/tcp_server.rs:150-151 | in every run, a client that is never out of touch for over 90 s between its acceptance and its drop by the worker or the end of the run is never removed by the monitor |
| Connections.RunKeepsConsistent | src/network/connection.rs:84-139 | with atomic steps every key of the manager's connections is registered with the server, in every reachable state |
| Connections.CleanupWhileServing | src/network/connection.rs:121-129 | a cleanup between reading and counting a packet breaks this exactly if it removed that client |
| Connections.CleanupBreaksReachable | src/network/connection.rs:121-129 | that case is reached: a client idle for 90 s sends a keepalive, and a cleanup comes between the read and the count |
| Connections.ServeAnswers | src/network/connection.rs:121-164 | a served packet gets the frame of a box that opens to the worker's answer, except that ragged route updates are acknowledged too; who is dropped for it; and what is counted |
| Connections.ServeWithoutPacket | src/network/connection.rs:103-117 | a turn without a packet writes and counts nothing, and drops exactly a missing client, one that announces over 65535 bytes, or one whose packet is of an unknown type |
| Connections.ConnectionManager.Drop | src/network/connection.rs:310-318 | dropping the manager empties the server's registry, and its own if and only if every connection was registered |
| Connections.ConnectionManager.CleanupStaleConnections | src/network/connection.rs:84-99 | cleanup removes exactly the connections idle for at least 90 s, from both registries; one nanosecond less keeps them |
| Connections.ConnectionManager.ServeClient | src/network/connection.rs:103-117 | one turn of the manager's loop, keeping the registries consistent |
| Connections.ConnectionManager.HandleClientPackets | src/network/connection.rs:121-139 | reading, unpacking, counting and answering one packet, with every error path |
| Connections.ConnectionManager.UpdateConnectionStats | src/network/connection.rs:190-197 | the first packet opens an entry with zero counters, later ones add to each counter |
| Connections.ConnectionManager.UpdateRoutes | src/network/connection.rs:243-285 | a ragged tail is ignored and the acknowledgment is sent in any case |
| Connections.ConnectionManager.HandleDisconnect | src/network/connection.rs:287-307 | both registries forget the client if and only if the acknowledgment was written |
| Client.Lifecycle | src/vpn/vpn_client.rs:126-144 | over any calls at most one Disconnect is written by `disconnect` or by dropping, and the client ends connected exactly if it began so and none was written by these |
| Client.SentDisconnectStaysConnected | src/vpn/vpn_client.rs:80-96 | a Disconnect sent with `send_packet` is on the stream, leaves the client as connected as it was, and `disconnect` then writes another |
| Client.NoRequestAfterDisconnect | src/vpn/vpn_client.rs:80-83 | after a Disconnect written by `disconnect` or by dropping every request fails and changes nothing |
| Client.HandshakeIff | src/vpn/vpn_client.rs:49-78 | a handshake writes the frame of a configuration request, as far as the socket takes it; it succeeds exactly if all 42 bytes are taken and a configuration of at least twelve bytes comes back, which the client then holds, connected and with a keepalive thread; otherwise these three are as before |
| Client.ExchangeEffect | src/vpn/vpn_client.rs:85-95 | writing a packet and reading an answer: the frame or the part the socket takes is written, only after the whole frame is anything read, and nothing else changes |
| Client.DisconnectIff | src/vpn/vpn_client.rs:126-137 | a connected client writes a Disconnect, as far as the socket takes it, and exactly if all of it is taken is disconnected and has no keepalive thread |
| Client.VpnClient.Handshake | src/vpn/vpn_client.rs:49-78 | result and new state for every failure of the write, the read, the unpacking, the type and the length |
| Client.VpnClient.SendPacket | src/vpn/vpn_client.rs:80-96 | result and new state of a request |
| Client.VpnClient.Disconnect | src/vpn/vpn_client.rs:126-137 | the client is disconnected exactly if the result is Ok; with a keepalive thread to join the call then returns if and only if some round of that thread fails to write, and the keepalives written meanwhile follow the Disconnect on the stream |
| Client.VpnClient.Drop | src/vpn/vpn_client.rs:140-144 | dropping is disconnecting, the same wait included, result ignored |
| Client.VpnClient.KeepaliveLoop | src/vpn/vpn_client.rs:111-121 | all the loop writes is frames that unpack to a keepalive, one for each round up to the first failing write, and a proper part of one more if a write fails; it ends there only |
| Client.TurnIsRound | src/vpn/vpn_client.rs:111-117 | a round that runs between the caller's calls writes what a round of the loop writes |
| Client.TcpClient.ClientReadPacket | src/network/tcp_client.rs:23-42 | the frame read and the bytes left, including what a failed read consumes |
| Client.TcpClient.WritePacket | src/network/tcp_client.rs:44-51 | the frame, or as much of it as the socket took |
| Network.TcpServer.ServiceReadPacket | src/network/tcp_server.rs:121-154 | result, bytes consumed and time stamp of a poll, for every state of the stream |
| Network.TcpServer.WritePacket | src/network/tcp_server.rs:156-166 | the frame, or as much of it as the socket took, to a registered client only |
| Network.TcpServer.AcceptClient | src/network/tcp_server.rs:79-91 | a new registration with an empty stream, stamped now, others untouched |
| Network.TcpServer.GetClientIds | src/network/tcp_server.rs:173-176 | the registered ids, each once, in some order |
| Network.TcpServer.UpdateClientTimestamp | src/network/tcp_server.rs:178-186 | only the time stamp of a registered client changes |
| Network.TcpServer.GetStaleClients | src/network/tcp_server.rs:188-197 | exactly the clients last seen over 90 s ago |
| Network.CheckClientKeepalive | src/vpn/vpn_service.rs:170-176 | exactly those are removed; a client last seen exactly 90 s ago stays |
| Worker.VpnWorker.MainLoopPass | src/vpn/vpn_worker.rs:44-68 | a pass gives every registered client one turn, in the snapshot's order |
| Worker.VpnWorker.ServeClient | src/vpn/vpn_worker.rs:49-67 | one turn is the state machine's uninterrupted turn, evictions included |
| Worker.VpnWorker.HandleClientPacket | src/vpn/vpn_worker.rs:79-105 | result and new state of handling one packet, for every outcome |
| Worker.VpnWorker.HandleControlPacket | src/vpn/vpn_worker.rs:149-160 | which handler a control type reaches, and the error for the others |
| Worker.VpnWorker.HandleDisconnect | src/vpn/vpn_worker.rs:116-147 | client, routes and configuration go exactly if the acknowledgment was written |
| Worker.VpnWorker.UpdateRoutes | src/vpn/vpn_worker.rs:178-202 | a ragged update changes nothing; an aligned one replaces the routes before the acknowledgment is tried |
| Worker.VpnWorker.SendConfig | src/vpn/vpn_worker.rs:239-273 | a missing configuration becomes the default one and is sent |
| Worker.VpnWorker.HandleDataPacket | src/vpn/vpn_worker.rs:162-176 | the echo with swapped addresses is sent |
| Worker.VpnWorker.HandleKeepalive | src/vpn/vpn_worker.rs:107-114 | the time stamp moves and nothing is sent |
| Service.IterationIsRun | src/vpn/vpn_worker.rs:48-68 | an uninterrupted turn is a run of poll, dispatch and cleanup steps |
| Service.ReplyOutcome | src/vpn/vpn_worker.rs:162-176 | a reply changes no registration or table, and how it fails decides whether its client is kept |
| Handler.BoxRoundTrip | src/protocol/handler.rs:17-62 | unpacking a packed packet gives its normal form, which is the packet itself exactly when it has a control type if and only if it is a Control packet; the box is 38 bytes longer than the payload |
| Handler.UnboxedReboxes | src/protocol/handler.rs:28-62 | an accepted box is the box of the packet read from it exactly when no control byte was ignored |
| Handler.Pack | src/protocol/handler.rs:17-26 | the box of the packet's plaintext, which unpacks to its normal form |
| Handler.Unpack | src/protocol/handler.rs:28-62 | every outcome; it aborts exactly on plaintexts of eight or nine bytes |
| Handler.UnboxedOutcomes | src/protocol/handler.rs:28-62 | the outcome for any bytes: under twelve, not opening, opening to under eight, under ten, to an unknown type, or to a packet |
| Handler.DecodersAgree | src/protocol/handler.rs:31-53 | the handler and the packet decoder agree on a plaintext if and only if it has at least ten bytes |
| Packets.ToBytes | src/protocol/packet.rs:96-116 | the same plaintext that packing seals, which decodes to the packet's normal form |
| Packets.PlaintextLayout | src/protocol/packet.rs:96-116 | the plaintext byte by byte: source, destination, type code, control code, payload |
| Packets.ReadLayout | src/protocol/packet.rs:118-144 | exactly type bytes below two, or two with a control byte below four, are accepted, and the fields are read from where the layout has them |
| Packets.FromBytes | src/protocol/packet.rs:118-144 | what it accepts writes back to the same bytes if and only if it is Control or its control byte is zero |
| Encryption.Encrypt | src/crypto/encryption.rs:20-37 | nonce then ciphertext, 28 bytes longer than the data, opened again by decryption |
| Encryption.Decrypt | src/crypto/encryption.rs:39-61 | only what sealing under the same nonce produced is opened |
| Encryption.ToyCipher | src/crypto/encryption.rs:10-12 | a cipher satisfying the laws exists |
| Routes.ParseRouteUpdates | src/vpn/vpn_worker.rs:205-237 | accepts exactly the aligned payloads, whose serialisation it inverts |
| Routes.ParseWholeRoutes | src/network/connection.rs:244-268 | is the worker's parser on the longest aligned prefix |
| Routes.SerializedParses | src/vpn/vpn_worker.rs:205-237 | serialised routes parse back to themselves |
| Routes.ParsedSerializes | src/vpn/vpn_worker.rs:205-237 | parsed routes serialise to the aligned part of the payload |
| Routes.EntryAt | src/vpn/vpn_worker.rs:215-234 | the k-th entry's network, mask, next hop and big-endian metric are bytes 16k to 16k+15, four each |
| Routes.EntriesConcatenate | src/vpn/vpn_worker.rs:215-234 | parsing maps concatenation of aligned payloads to concatenation of routes |
| Configuration.ConfigCodec | src/vpn/vpn_worker.rs:276-289 | reading what was serialised, with any suffix, reduces mtu and seconds mod 2^32 and drops fractions, and is the identity exactly when nothing is lost |
| Configuration.SerializeConfig | src/vpn/vpn_worker.rs:276-289 | twelve bytes that read back as what the wire can carry |
| Configuration.FromBytes | src/vpn/vpn_service.rs:180-198 | accepts exactly inputs of at least twelve bytes, and its result serialises to the first twelve |
| Bytes.Be32Truncates | src/network/tcp_server.rs:160-160 | a written length reads back modulo 2^32 |

## Left out

- Sockets, operating-system errors and timeouts: byte sequences, the room the socket has, and a failing peek stand for them; a read error after a successful peek other than a torn body is not modelled.
- AES-GCM itself, nonce generation and key secrecy: only the laws of the cipher are used.
- src/crypto/key_exchange.rs, src/config/settings.rs, src/main.rs, the example programs and all printing.
- Error texts: only the variant of an error is kept, since it decides evictions.
- Memory ordering, spawning, sleeping and the start-up calls.
- Mutex poisoning: an aborting worker holds only the handler lock, which no other thread takes. A second call of shutdown after one that panicked is not modelled.
- The worker's `while` over its shutdown flag: a pass is a method, the flag and the repetition are in `Locks`.
- Fair schedules: `Locks` proves that no thread is stuck and bounds every schedule of steps that are not idle rounds, not that a scheduler keeps from idle rounds.
- Worker.VpnWorker.MainLoopPass: one time stamp serves the whole pass and nothing arrives while it runs; accepts, arrivals, time and the monitor between and within turns are the interleavings of the runs in `Service`.
- `ClientInfo` and `ConnectionInfo` are values in a map that is reassigned, so aliasing of one entry is not captured; their 64-bit counters are unbounded.
- Writers.StreamReadableIff: that an overlap leaves an unreadable stream is shown for frames none of which begins like the prefix of one of them; the first twelve bytes of a frame's body are a random nonce, and a coincidence can make the pieces fit.
- Replies.RepliesReadable: assumes that this client's socket takes whole frames, because after a short write the server goes on writing in mid-frame; `Replies.ReadableUntilShortWrite` and `Replies.DispatchWrites` say what holds without that assumption.
