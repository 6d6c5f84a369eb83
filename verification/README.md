# Verified models of the daemon client and the daemon front

The repository holds a TypeScript client that keeps one WebSocket session with a daemon, and a Rust
front that supervises the daemon's worker, relays client frames to it, holds the PID lock and
answers authentication from files other processes write. This project models the parts of both
that keep state across events, and a few kernels with a clean specification, and proves what they
promise over every run.

- **The client** (`ClientState.dfy`) is a total step function over calls, transport callbacks and
  timers. Each property is proved over every run of it: queued sends (`ClientSends`), waiters
  (`ClientWaiters`), terminal subscriptions (`ClientSubscriptions`), liveness (`ClientLiveness`),
  reconnecting and disposal (`ClientReconnect`), the promises `connect` returns (`ClientPromises`).
  `ClientLimits` and `ClientPromises` also state where the client stops short of what one might
  expect, with the exact conditions. `DaemonClient.dfy` is the object itself: fields updated in
  place, with the source's loops, each method proved to be the machine's step.
  `ClientSendResponses`, `ClientWaitResponses`, `ClientProbeResponses`, `ClientResponses` and
  `ClientEffects` say what each event must do, in the event's own fields.
- **File transfers** (`FileTransfers.dfy`): the inbound tables, the buffer loop and the upload loop.
- **The front**: `Relay` (pending, up or absent link), `Supervisor` (worker loop; `SupervisorGuide`
  says what is due from its history alone), `LogRotation`
  (size-rotated log). `select!` is a script of choices; a loop with the source's locals is proved to
  compute the machine's run on that script.
- **Shared files**: `PidLock` and `AuthCache`, with other processes acting between any two file
  operations.
- **Metrics**: `RuntimeMetrics` says what the rolling window adds up to; `RuntimeMetricsRecorder` is
  the object with its mutable timing records, which must not be shared.
- **Kernels**: `Calendar`, `Base64Url`, `HashedAsset`, `ProviderPolicy`.

Where the code differs from what one would expect, the model follows the code:

- A reconnect timer left armed by an earlier loss may fire in a later session and replace its
  transport; waiters, the probe and the failure count then span two transports.
- A transport factory that throws inside `connect` leaves a settled promise behind, because the
  promise is stored after its executor ran; later calls return it and do not attempt to connect.
- `close` drops the connect promise without settling it, so a pending `connect` that is closed never
  settles.
- A `*` in a model pattern does not match a line terminator.
- A write between the auth store's load and its first stamps is answered from the replaced contents until
  some file is written again.
- Agent-stream activity alone is not moved into a metrics bucket; it waits for a message or frame.
- A read whose chunks fall short of the declared size completes with zero bytes at its end.
- Clearing the PID lock can remove the lock of a process that has just published its own: after a dead
  owner's lock, and also on an empty home, because a process that read no lock looks for the file
  again and removes what it finds.
- A file created between its stamp and its read, and deleted later, escapes the auth cache's stamps.

## Model

| member | source | states |
|---|---|---|
| ClientSends.SendsSettleOnceInOrder | packages/client/src/daemon-client.ts:1785-1855 | Over every run from a new client: an accepted send is settled exactly once unless it is still queued, and queued only while connecting, with its timer armed; one accepted while connecting and not sent was rejected by timeout, connection loss, close or its schema, and only one never queued was turned away as not connected; only invalid messages are rejected by the schema and none of them is sent; a send is on the wire of transport t exactly when it settled as sent on t; over all transports the wire carries caller sends in acceptance order, none twice, each after its transport's handshake |
| ClientSends.SendsInvStep | packages/client/src/daemon-client.ts:7510-7519 | Every callback, timer and call keeps the queue, its timers, the settlements and the wire consistent |
| ClientSendResponses.HandshakeSendsTheQueue | packages/client/src/daemon-client.ts:1821-1845 | The handshake sends every valid queued message on the transport it completed and rejects exactly the invalid ones, which are on no wire |
| ClientSendResponses.SendGoesWhereItMust | packages/client/src/daemon-client.ts:1785-1819 | A message goes out at once on a connected client if it is valid, waits with a timer on a connecting one, and is turned away otherwise |
| ClientSendResponses.SendTimeoutTakesItsOwn | packages/client/src/daemon-client.ts:1800-1819 | A queued send's timeout rejects it and no other |
| ClientWaiters.WaitersSettleOnce | packages/client/src/daemon-client.ts:1857-1935 | Over every run: a waiter is settled never or once and is in the set exactly while unsettled; its timer is armed exactly while it is unsettled and has one; a correlated waiter resolves only on its own request id |
| ClientWaiters.WaitsInvStep | packages/client/src/daemon-client.ts:7565-7599 | Every step keeps that, and never undoes a settlement, whichever of match, timeout, cancel, protocol error, loss or close comes first |
| ClientWaitResponses.MessageSettlesExactly | packages/client/src/daemon-client.ts:7565-7576 | Every session or file-reply message, but for a stranger's introduction, settles exactly the open waiters it is for, in the message's own fields: an error of their request, their select, or a response of their type and request that their caller keeps; every other waiter stays |
| ClientWaitResponses.BrokenFrameFailsExactly | packages/client/src/daemon-client.ts:7110-7128 | A frame that fails validation fails exactly the open waiters of the request it names |
| ClientWaitResponses.TimeoutSettlesItsOwn | packages/client/src/daemon-client.ts:7659-7730 | A timeout settles its own open, timed waiter and no other |
| ClientWaitResponses.CancelSettlesItsOwn | packages/client/src/daemon-client.ts:7659-7730 | A cancellation settles its own open waiter and no other |
| ClientWaitResponses.AwaitOpens | packages/client/src/daemon-client.ts:7659-7730 | Waiting opens one waiter, with its timer if it has one, and disturbs no other |
| ClientWaitResponses.CallWaits | packages/client/src/daemon-client.ts:1857-1899 | A request's waiter is open unless its message is sent at once and turned away by the schema, which cancels it |
| ClientSubscriptions.SubscriptionsAgree | packages/client/src/daemon-client.ts:6690-6717 | Over every run: while connected, replaying the subscribe and unsubscribe messages of the current transport gives exactly the client's subscription map; while connecting it gives the empty map |
| ClientSubscriptions.SubscriptionsInvStep | packages/client/src/daemon-client.ts:2830-2843 | Every step keeps the agreement, the handshake by re-sending the map on the new transport before the queued messages |
| ClientSubscriptions.EnlistEntries | packages/client/src/daemon-client.ts:6690-6694 | Setting a key in the insertion-ordered map is setting it in the table it stands for |
| ClientSubscriptions.DelistEntries | packages/client/src/daemon-client.ts:6705-6708 | Deleting a key from the ordered map is deleting it from the table, given one entry per key |
| ClientEffects.SubscriptionsFollowCalls | packages/client/src/daemon-client.ts:6690-6717 | The subscription map changes by the two calls alone, and as they say |
| ClientLiveness.TeardownNeedsTwoFailures | packages/client/src/daemon-client.ts:7485-7498 | Over every run: the failure counter is 0 or 1 between callbacks and at most one probe is outstanding; a teardown directly follows the second of two counted failures with no valid inbound traffic or other teardown between them, and two such failures always tear down; a failure counts exactly when the heartbeat started that very probe, so a latency measurement never counts |
| ClientLiveness.LivenessInvStep | packages/client/src/daemon-client.ts:2151-2233 | Every step keeps the counter, the probe and their history consistent |
| ClientProbeResponses.ProbesStartExactly | packages/client/src/daemon-client.ts:2151-2233 | A probe starts exactly when the heartbeat fires or a latency is measured on a connected client with none outstanding, marked as the heartbeat's exactly in the first case, with its ping on the wire; inbound traffic is marked, and the failure count cleared, exactly by a valid frame |
| ClientProbeResponses.ProbeTimeoutFails | packages/client/src/daemon-client.ts:2178-2187 | The outstanding probe's timeout fails it, counted exactly if it was the heartbeat's; the second counted failure disconnects and a first does not; any other probe timeout does nothing |
| ClientProbeResponses.PongEndsTheProbe | packages/client/src/daemon-client.ts:7130-7140 | A pong ends the outstanding probe without failing it |
| ClientProbeResponses.HeartbeatGoesOn | packages/client/src/daemon-client.ts:2221-2233 | A heartbeat that has run its course arms the next one exactly while connected |
| ClientReconnect.BackoffAndRefusal | packages/client/src/daemon-client.ts:7321-7388 | Over every run: the k-th arming since the last handshake waits min(base * 2^(k-1), max); after an authentication refusal no timer is armed and no transport created until connect or ensureConnected is called |
| ClientReconnect.ReconnectInvStep | packages/client/src/daemon-client.ts:7452-7483 | Every step keeps the backoff counter and the refusal latch in agreement with the history |
| ClientReconnect.DisposedIsAbsorbing | packages/client/src/daemon-client.ts:1529-1559 | From any disposed client, every run stays disposed, with no transport, queue, probe or connection timer, and creates no transport |
| ClientResponses.RefusalLatchesExactly | packages/client/src/daemon-client.ts:7452-7483 | A close with the authentication code, unless already latched, and an unauthorized handshake, and no other event, report that pairing is required; they leave the client disconnected with reconnecting off and no timer |
| ClientResponses.RefusedClientsStayQuiet | packages/client/src/daemon-client.ts:7452-7483 | In every run after such an event no timer is armed and no transport created until connect or ensureConnected is called |
| ClientEffects.HandshakeExactly | packages/client/src/daemon-client.ts:7500-7520 | A connecting client becomes connected exactly when the server it expects introduces itself, on the transport it has, and then arms its heartbeat |
| ClientEffects.StrangersAreRejected | packages/client/src/daemon-client.ts:7419-7450 | Another server's introduction disconnects the client, whenever it comes |
| ClientEffects.BreaksReconnect | packages/client/src/daemon-client.ts:1425-1496 | A close, a detailed error, an unsendable hello, a connect timeout and a generic error's timeout disconnect the client, and the reconnect timer is then armed exactly if reconnecting is wanted |
| ClientEffects.LossSettlesEverything | packages/client/src/daemon-client.ts:7321-7356 | Every step that ends an attempt or a session settles each open waiter and each queued send, as closed by close and as lost otherwise |
| ClientEffects.ReconnectTimerAttempts | packages/client/src/daemon-client.ts:7381-7387 | The reconnect timer's firing attempts, with a new transport or a new arming, unless reconnecting was turned off or an attempt is under way |
| ClientEffects.AskingAttempts | packages/client/src/daemon-client.ts:1319-1352 | Outside a session, asking to connect attempts unless an earlier promise is still remembered |
| ClientConnection.ConnectionInvStep | packages/client/src/daemon-client.ts:1340-1496 | Every step keeps what ties the status to the transport, the timers and the queue |
| ClientTraffic.StepSummary | packages/client/src/daemon-client.ts:1340-1496 | Every step does one of eight things to the queue, the subscriptions and the wire; a session is entered only by a handshake and an attempt begins only on a new transport |
| ClientLimits.LossLeavesNothing | packages/client/src/daemon-client.ts:7321-7356 | A step that ends an attempt or a session leaves no open waiter, no queued send and no probe |
| ClientLimits.SessionIsReplacedExactly | packages/client/src/daemon-client.ts:1340-1352 | Within a session the transport is replaced exactly when a left-over reconnect timer fires while reconnecting is on; waiters, probe and failure count then survive |
| ClientLimits.WaiterOutlivesItsTransport | packages/client/src/daemon-client.ts:7381-7387 | A run in which a waiter created on one transport is still open on the next |
| ClientPromises.PromisesSettleOnce | packages/client/src/daemon-client.ts:1319-1338 | Over every run: each promise connect made is settled at most once; it is unsettled exactly while its resolvers are held or when close dropped them, which leaves the client disposed; it is remembered exactly until it is forgotten; and a remembered one is already settled exactly when the factory threw in the call that made it |
| ClientPromises.PromiseInvStep | packages/client/src/daemon-client.ts:1511-1527 | Every step keeps that account and only extends the history |
| ClientPromises.CloseStrandsExactly | packages/client/src/daemon-client.ts:1529-1536 | Whatever follows close, the promise that was pending then is never settled, and every other one has been |
| ClientPromises.ConnectThenCloseNeverSettles | packages/client/src/daemon-client.ts:1529-1536 | A connect that close follows at once never settles, in no run |
| ClientPromises.ConnectAttemptsExactly | packages/client/src/daemon-client.ts:1319-1338 | After any run that is outside a session, connect starts an attempt exactly when every promise made so far has been forgotten; otherwise it changes nothing and hands out the remembered one, settled exactly when the factory threw in the call that made it |
| ClientPromises.ThrowingFactoryStrandsConnect | packages/client/src/daemon-client.ts:1498-1508 | After a transport factory threw inside connect with reconnecting off, no number of further connect calls creates a transport, and each gets the settled promise |
| DaemonClients.CoherentStep | packages/client/src/daemon-client.ts:1319-1575 | All seven invariants together are kept by every step |
| DaemonClients.DaemonClient.ClearWaiters | packages/client/src/daemon-client.ts:7591-7599 | The loop rejects every open waiter once, in order, and leaves none, as the machine's step says |
| DaemonClients.DaemonClient.ResolveWaiters | packages/client/src/daemon-client.ts:7565-7576 | The loop settles exactly the waiters whose predicate accepts the message and keeps the others in order |
| DaemonClients.DaemonClient.RejectWaitersFor | packages/client/src/daemon-client.ts:7578-7589 | The loop rejects exactly the waiters of one request id |
| DaemonClients.DaemonClient.FlushPendingSendQueue | packages/client/src/daemon-client.ts:1821-1845 | The loop sends and settles the queue in order |
| DaemonClients.DaemonClient.RejectPendingSendQueue | packages/client/src/daemon-client.ts:1847-1855 | The loop settles every queued send as rejected and disarms its timer |
| DaemonClients.DaemonClient.ResubscribeTerminals | packages/client/src/daemon-client.ts:2830-2843 | The loop sends one subscribe per entry, in the map's order |
| DaemonClients.DaemonClient.Connect | packages/client/src/daemon-client.ts:1319-1338 | Performs the machine's step on the object's fields and keeps every invariant |
| DaemonClients.DaemonClient.EnsureConnected | packages/client/src/daemon-client.ts:1561-1575 | Performs the machine's step and keeps every invariant |
| DaemonClients.DaemonClient.Close | packages/client/src/daemon-client.ts:1529-1559 | Performs the machine's step, dropping the resolvers of a pending promise instead of settling it, and keeps every invariant |
| DaemonClients.DaemonClient.Send | packages/client/src/daemon-client.ts:1785-1819 | Performs the machine's step and keeps every invariant |
| DaemonClients.DaemonClient.Call | packages/client/src/daemon-client.ts:1857-1899 | A waiter and its message; a send that fails cancels the waiter |
| DaemonClients.DaemonClient.CancelWaiter | packages/client/src/daemon-client.ts:7659-7730 | Performs the machine's step and keeps every invariant |
| DaemonClients.DaemonClient.OnClose | packages/client/src/daemon-client.ts:1425-1448 | Refusal, latched refusal or reconnect, keeping every invariant |
| DaemonClients.DaemonClient.OnError | packages/client/src/daemon-client.ts:1449-1495 | Unauthorized handshake, generic error with its 250 ms timer, or reconnect, keeping every invariant |
| DaemonClients.DaemonClient.OnMessage | packages/client/src/daemon-client.ts:7094-7194 | Valid inbound frames reset the failure count before they are handled, keeping every invariant |
| DaemonClients.DaemonClient.OnReconnectFire | packages/client/src/daemon-client.ts:7381-7387 | The timer's attempt, also while connected, keeping every invariant |
| DaemonClients.DaemonClient.OnHeartbeat | packages/client/src/daemon-client.ts:2221-2233 | The heartbeat's ping, keeping every invariant |
| DaemonClients.DaemonClient.OnProbeTimeout | packages/client/src/daemon-client.ts:2178-2187 | Only the outstanding probe's own timeout fails it, keeping every invariant |
| FileTransfers.TransfersAreIndependent | packages/client/src/daemon-client.ts:7196-7257 | What one request id sees after any interleaving is what its own frames alone would leave |
| FileTransfers.CompletedReadsAreWhole | packages/client/src/daemon-client.ts:7196-7257 | In every run, with repeated begins, stray chunks and any interleaving: a read is completed exactly when some delivery of its id (registered, begun within budget, ended with no more bytes than declared) has not been followed by its finish; it then holds the concatenation of the id's chunks between the begin and the end of the last delivery, zero-filled to the size that begin declared |
| FileTransfers.WholeTransferCompletes | packages/client/src/daemon-client.ts:7196-7257 | From any tables, one begin, its chunks and one end, among any other ids' events, complete with exactly the chunks' concatenation when it has the declared size; fewer bytes are zero-filled; more do not complete |
| FileTransfers.OverBudgetHoldsNothing | packages/client/src/daemon-client.ts:7196-7257 | Over every run, a transfer over its budget holds no byte |
| FileTransfers.ConcatByteChunks | packages/client/src/daemon-client.ts:1128-1136 | The buffer loop yields the concatenation, zero-filled to the size, and fails exactly when the chunks do not fit |
| FileTransfers.UploadFrames | packages/client/src/daemon-client.ts:5403-5412 | For any positive chunk size, the chunks concatenate to the bytes, none is empty or too long, and all but the last are full |
| FileTransfers.UploadRoundTrip | packages/client/src/daemon-client.ts:5403-5412 | What an upload cuts, the transfer tables put together again, whatever arrives in between |
| FileTransfers.TransferTables.OnFrame | packages/client/src/daemon-client.ts:7196-7257 | The in-place tables move as the machine does, and the handler throws exactly when the chunks exceed the declared size |
| Relay.RelayKeepsOrder | apps/daemon-rs/src/main.rs:744-830 | For every interleaving: the upstream has received a prefix of the frames chosen for forwarding, and all of them while the link is up and the connection open; while the link is pending all of them are queued, in order and at most 1024; the link's state is decided by the dial's outcome; the connection is open exactly while no cutting choice occurred; and the client has been sent a prefix of what is due to it, all of it while open |
| Relay.StepKeeps | apps/daemon-rs/src/main.rs:744-830 | Every enabled branch keeps that relation between the connection and its script |
| Relay.RoutesByKind | apps/daemon-rs/src/main.rs:865-1010 | By kind: a text is answered natively exactly if it is a known client's ping or a session message a native terminal replies to; a binary frame is dropped exactly if it cannot be decoded, or a native terminal takes it or refuses a viewer's writing; all else is forwarded as it came |
| Relay.FlushQueue | apps/daemon-rs/src/main.rs:748-762 | The flush loop hands over the queue frame by frame up to the first failed send |
| Relay.HandleSocket | apps/daemon-rs/src/main.rs:744-830 | The connection loop with its locals computes the run the theorem is about |
| Supervisor.SupervisorIsSafe | apps/daemon-rs/src/supervisor.rs:249-359 | Over every run: at every point at most one worker is alive; the published upstream is what the current worker announced itself, and nothing once it exited; after an accepted stop nothing is spawned and only Requested is returned; the kill deadline is 10 s after the first request the worker has yet to obey, and no kill comes earlier; each backoff counts one more crash of the streak since the last ready worker (a new streak after a minute up) and waits its delay |
| SupervisorGuide.SupervisorDoesWhatIsDue | apps/daemon-rs/src/supervisor.rs:249-359 | At every point of every run, whatever is chosen next, the supervisor does exactly what its history alone makes due: it publishes, accepts, kills, spawns, waits out a crash or returns, with the times, codes and signals of the source; and its result is the one it returned |
| SupervisorGuide.ExitsAreAnswered | apps/daemon-rs/src/supervisor.rs:314-357 | Over every run: the exit of a worker asked to stop returns Requested; of one asked to restart leads to the next spawn; otherwise it is backed off exactly when its code is there and not 0 or its signal is there and not 15, and else returns its code, or 1 |
| Supervisor.StepKeeps | apps/daemon-rs/src/supervisor.rs:253-357 | Every select branch keeps the state in agreement with the trace |
| Supervisor.CrashDelayDoubles | apps/daemon-rs/src/supervisor.rs:84-90 | The delay is min(2^(n-1), 30) seconds for every crash count, and the 32-bit saturation never shows |
| Supervisor.Supervise | apps/daemon-rs/src/supervisor.rs:267-313 | The inner loop, with its locals, is the machine's run up to the worker's exit |
| Supervisor.WaitOut | apps/daemon-rs/src/supervisor.rs:351-357 | The backoff wait ends by its delay or by a stop, as the machine says |
| Supervisor.Run | apps/daemon-rs/src/supervisor.rs:249-359 | The whole loop returns the trace, upstream and exit of the machine's run on the same script |
| LogRotation.LogIsRecentHistory | apps/daemon-rs/src/supervisor.rs:124-168 | After any writes from an empty directory: the files oldest to newest are a suffix of what was written, cut at a write; at most max(max_files, 1) rotated files, and exactly that many once anything is lost; a new file was begun only for a chunk that no longer fitted; every file fits max_bytes or holds one chunk; without a limit nothing is lost |
| LogRotation.LogFile.RotateFiles | apps/daemon-rs/src/supervisor.rs:157-168 | The renames leave exactly .1 to .k, the higher the older, as the rotation of the abstract log |
| LogRotation.LogFile.WriteChunk | apps/daemon-rs/src/supervisor.rs:124-138 | Rotates first exactly when the chunk would exceed the limit, then appends |
| PidLock.CoarseLockIsExclusive | apps/daemon-rs/src/pidlock.rs:91-171 | With acquire's inspecting and clearing as one step and every other operation its own (the link, and release's read and removal), from any file and any processes of which none holds, over every run with crashes and reused pids: at most one live process holds, and the file names it |
| PidLock.SafeExactlyUnlessOvertaken | apps/daemon-rs/src/pidlock.rs:91-171 | With every read, look, probe, removal and link its own step, from any file and idle processes, over crashes, releases and reused pids: throughout a run the file names every live holder exactly when no process removes the file after another got the lock behind its inspection |
| PidLock.NamedExactlyWithoutStray | apps/daemon-rs/src/pidlock.rs:91-171 | The same in terms of the file: exactly when no step removes a live holder's lock |
| PidLock.MovesKeep | apps/daemon-rs/src/pidlock.rs:91-171 | Every step keeps the account of who got the lock behind whose inspection |
| PidLock.EmptyHomeRace | apps/daemon-rs/src/pidlock.rs:96-99 | For any two processes and no readable lock (an empty home or a corrupt file): when both read, one looks again and links, and the other then looks, removes and links, in this order, both end up holding |
| PidLock.TwoHoldersRace | apps/daemon-rs/src/pidlock.rs:100-131 | For any two processes and a dead owner's lock: when both read and probe it, one removes and links, and the other then removes and links, in this order, both end up holding |
| PidLock.RemovalBehindHolderBreaksExclusion | apps/daemon-rs/src/pidlock.rs:91-131 | In every schedule in which a process removes the file while another holds, and then links: whatever third processes do in between, two hold at once before its link is over |
| PidLock.HeartbeatsAreExclusive | apps/daemon-rs/src/pidlock.rs:150-164 | In every fine-grained run, two heartbeats that pass between the same two changes of the file are one process's |
| PidLock.DisplacedHolderStops | apps/daemon-rs/src/main.rs:299-310 | A holder whose lock was taken away never passes another heartbeat, whatever others do; its next one makes it stop |
| PidLock.Home.Acquire | apps/daemon-rs/src/pidlock.rs:91-147 | Its own steps, in the source's order (read; then look again, or probe; remove if there is something to clear; link) and with any others in between, lead to the new state; it returns the lock exactly when the process then holds, and a foreign brand is an error |
| PidLock.Home.Heartbeat | apps/daemon-rs/src/pidlock.rs:150-164 | Passes exactly when the file names the process, and leaves the file alone |
| PidLock.Home.Release | apps/daemon-rs/src/pidlock.rs:167-171 | Removes what is there exactly when the file it read named the process |
| PidLock.UndisturbedAcquire | apps/daemon-rs/src/pidlock.rs:91-147 | With nobody interfering, acquire gets the lock exactly when there is none to read, it is the process's own, or its owner is not alive; a foreign product's lock and a live owner's stay |
| PidLock.UndisturbedRelease | apps/daemon-rs/src/pidlock.rs:167-171 | With nobody interfering, release removes the file exactly when it names the process |
| AuthCache.CacheIsCoherent | apps/daemon-rs/src/daemon_config.rs:253-288 | Where files are replaced and never deleted, with writes anywhere inside the calls: whenever the cached stamps are the files' stamps the cached config is build_auth of the present files, and an undisturbed call returns that, with every field as the files say |
| AuthCache.CacheIsCoherentExactly | apps/daemon-rs/src/daemon_config.rs:265-288 | Deletions included: under equal stamps the cached readings are the files' contents exactly when no file missing at its stamp had been created by its read |
| AuthCache.AnswerIsRecent | apps/daemon-rs/src/daemon_config.rs:265-288 | Even an overlapped call answers, file by file, from contents the file had during that call |
| AuthCache.StartsCoherent | apps/daemon-rs/src/daemon_config.rs:232-242 | A store whose load and stamps no write separates starts coherent |
| AuthCache.GapIsNeverNoticed | apps/daemon-rs/src/daemon_config.rs:232-242 | After writes between load and stamps, undisturbed calls, however many, change nothing and answer from the replaced contents |
| AuthCache.GapEndsAtReload | apps/daemon-rs/src/daemon_config.rs:232-288 | After such writes, over every run: until some call finds a stamp changed the cache is the initial one; from that call on it is coherent, so that an undisturbed call answers from the present files where files are only replaced |
| AuthCache.GapEndsAtNextWrite | apps/daemon-rs/src/daemon_config.rs:232-288 | After any run from such a start, the first call after a file is replaced finds its stamp changed, whatever else is replaced during it |
| AuthCache.DeletionEscapesTheStamps | apps/daemon-rs/src/daemon_config.rs:265-288 | A token created after its stamp, read and then deleted is still answered while the stamps match |
| AuthCache.TokenIsTrimmed | apps/daemon-rs/src/daemon_config.rs:205-208 | There is no local token exactly when the file is missing or all whitespace, and otherwise it is the text between the outer whitespace |
| AuthCache.FieldsOfTheFiles | apps/daemon-rs/src/daemon_config.rs:186-222 | Field by field from the files: claimed exactly when the principals file says so; the environment's password, else the section's; trustLan from the section, else the legacy value, else the brand's default; claimMode exactly when the section says true; the trimmed token; one device per credential, a missing role reading as owner |
| AuthCache.Devices | apps/daemon-rs/src/daemon_config.rs:196-204 | One device per credential over all principals, in order, a missing role reading as owner |
| AuthCache.AuthStore.Current | apps/daemon-rs/src/daemon_config.rs:265-288 | The in-place cache moves as the machine does and stays coherent; without a home it never changes; undisturbed, it returns build_auth of the files, every field as they say |
| AuthCache.AuthStore.constructor | apps/daemon-rs/src/daemon_config.rs:232-242 | Starts coherent with the config it was given and keeps the environment's password |
| RuntimeMetrics.EveryRecordIsInOnePlace | packages/client/src/daemon-client-runtime-metrics.ts:57-160 | Over every run: the history of records is, in order, that of the pruned buckets, the retained buckets and the current maps, each holding exactly the totals of its part; with a clock that never goes back the retained buckets are exactly those ended within the window before the last flush |
| RuntimeMetrics.FlushMovesExactly | packages/client/src/daemon-client-runtime-metrics.ts:113-137 | The current maps move into a bucket exactly when a message or binary frame was recorded in them; agent-stream records alone stay |
| RuntimeMetrics.AggregateIsTheWindow | packages/client/src/daemon-client-runtime-metrics.ts:146-160 | The aggregate is the total of exactly the records of the retained buckets |
| RuntimeMetrics.TotalByKey | packages/client/src/daemon-client-runtime-metrics.ts:175-196 | Totals read back key by key: number of records, bytes, handler time and its maximum; a key is present exactly when it has a record |
| RuntimeMetrics.CountsByKey | packages/client/src/daemon-client-runtime-metrics.ts:57-78 | Each count is the number of records of its kind and key |
| RuntimeMetricsRecorder.MergeCounts | packages/client/src/daemon-client-runtime-metrics.ts:209-213 | The loop yields the key-wise sum |
| RuntimeMetricsRecorder.CloneTimings | packages/client/src/daemon-client-runtime-metrics.ts:198-207 | New objects that say the same, none shared |
| RuntimeMetricsRecorder.MergeTimings | packages/client/src/daemon-client-runtime-metrics.ts:215-233 | The key-wise sum, maximum for the longest time, in the target's or new objects; the source's objects are unchanged |
| RuntimeMetricsRecorder.DaemonClientRuntimeMetrics.RecordMessage | packages/client/src/daemon-client-runtime-metrics.ts:57-61 | Adds the record to the current maps and touches no bucket |
| RuntimeMetricsRecorder.DaemonClientRuntimeMetrics.RecordAgentStream | packages/client/src/daemon-client-runtime-metrics.ts:63-70 | Adds the record to the current maps and touches no bucket |
| RuntimeMetricsRecorder.DaemonClientRuntimeMetrics.RecordBinaryFrame | packages/client/src/daemon-client-runtime-metrics.ts:72-76 | Adds the record to the current maps and touches no bucket |
| RuntimeMetricsRecorder.DaemonClientRuntimeMetrics.ConsumeCurrentBucket | packages/client/src/daemon-client-runtime-metrics.ts:113-137 | A bucket with its own timing objects exactly when a message or frame was counted; the maps are then empty |
| RuntimeMetricsRecorder.DaemonClientRuntimeMetrics.PruneBuckets | packages/client/src/daemon-client-runtime-metrics.ts:139-144 | Drops exactly the leading buckets that ended before the cutoff |
| RuntimeMetricsRecorder.DaemonClientRuntimeMetrics.AggregateBuckets | packages/client/src/daemon-client-runtime-metrics.ts:146-160 | The sum of the buckets in fresh objects; nothing that existed is modified |
| RuntimeMetricsRecorder.DaemonClientRuntimeMetrics.Flush | packages/client/src/daemon-client-runtime-metrics.ts:78-109 | The window moves as the machine says, and a report, made exactly when final or active, carries the sum of the retained buckets |
| Calendar.CivilFollowsCalendar | apps/daemon-rs/src/main.rs:1064-1075 | Day 0 is 1970-01-01 and, for every integer day, the next day is the calendar successor |
| Calendar.CivilIsDate | apps/daemon-rs/src/main.rs:1064-1075 | For every integer day the result is a real date under the leap rule, and counting its days gives the day back |
| Calendar.CivilUndoesCounting | apps/daemon-rs/src/main.rs:1064-1075 | For every real date, converting its day count gives the date back |
| Base64Url.RoundTrip | apps/daemon-rs/src/local_token.rs:44-57 | For every byte sequence a decoder recovers it, the length is ceil(4n/3), and only the alphabet of section 5 of RFC 4648 occurs |
| Base64Url.TextRoundTrip | apps/daemon-rs/src/local_token.rs:44-57 | A text decodes exactly when it is some encoding, and then encodes back to itself |
| Base64Url.Injective | apps/daemon-rs/src/local_token.rs:44-57 | Different bytes have different texts |
| Base64Url.LettersAreTheAlphabet | apps/daemon-rs/src/local_token.rs:45 | The letters are the source's table |
| Base64Url.AppendChunk | apps/daemon-rs/src/local_token.rs:47-55 | The shifts and masks of the inner loop spell the sextets of the chunk |
| Base64Url.Base64 | apps/daemon-rs/src/local_token.rs:44-57 | The nested loops compute the encoding, which decodes to the input |
| HashedAsset.IsHashedAsset | apps/daemon-rs/src/web_ui.rs:18-46 | The one-pass scan is true exactly when some two separators enclose at least 16 characters, all hexadecimal |
| HashedAsset.ClassesAreLetters | apps/daemon-rs/src/web_ui.rs:27-28 | The two character classes, letter by letter |
| ProviderPolicy.EscapingPreservesMeaning | packages/branding/src/provider-policy.ts:5-8 | For every pattern and value: the escaped source parses, and matches exactly what the glob accepts with stars that stay on one line |
| ProviderPolicy.ParseEscape | packages/branding/src/provider-policy.ts:5-8 | The escaped text parses to the glob's compiled form |
| ProviderPolicy.GlobOnOneLine | packages/branding/src/provider-policy.ts:5-8 | For values without line terminators the expression accepts exactly what the glob accepts |
| ProviderPolicy.StarStopsAtNewline | packages/branding/src/provider-policy.ts:5-8 | All patterns match a value as globs do exactly when it has no line terminator; the bare star, as an expression, refuses every other value |
| ProviderPolicy.SomeMatch | packages/branding/src/provider-policy.ts:29-32 | The search finds a match exactly when one exists |
| ProviderPolicy.IsModelAllowed | packages/branding/src/provider-policy.ts:21-35 | Allowed exactly when every provider with rules has an empty or matching allow list and no matching deny pattern |

## Left out

- ClientSends.SendsSettleOnceInOrder: is about messages callers send; the checkout-diff and file subscription replays, which the handshake puts between the terminal resubscription and the flush, are not modelled.
- DaemonClients.DaemonClient.HandleSession: user listeners and event emitters are not modelled; they are taken not to call back into the client.
- ClientReconnect.BackoffAndRefusal: delays are integers; the floating-point overflow of `2 ** attempt` after about a thousand attempts, where the maximum applies anyway, is not modelled.
- Fire-and-forget sends other than terminal subscriptions, and sends that throw on a live transport other than the hello and the ping.
- The several hundred RPC wrappers around the one request function: each only builds a message.
- JSON parsing and schema validation: a frame is valid or not and carries an abstract message; file frames reach the client machine only as liveness, and their tables are the model of `FileTransfers`.
- The fields of the client are grouped into records by concern; the terminal stream router, the agent stores and tracing are not modelled.
- Real clocks, scheduling and progress: only safety is stated, and times never decrease.
- Relay.HandleSocket: what an envelope's kind is, what a binary frame decodes to and how the native terminals answer come with the message; their formats are not modelled.
- Supervisor.Run: log lines, the listen-failure text and the IPC with the worker are not modelled.
- LogRotation.LogFile.WriteChunk: file-system failures and reopening an existing log are not modelled.
- PidLock.Home.Acquire: the read is the one that decides; those retried before it change nothing and are not modelled, nor are file-system failures and the modification time that `touch` refreshes; the lock a Node daemon rewrites in place is not modelled.
- AuthCache.AuthStore.Current: the mutex is a call at a time; parsing is what each file's data gives.
- RuntimeMetricsRecorder.DaemonClientRuntimeMetrics.Flush: sorting the aggregate and cutting it to its largest entries for the log line is not modelled; milliseconds are reals.
- Base64Url.Base64: the alphabet is given by a function rather than by the source's table; characters are code points.
- ProviderPolicy.IsModelAllowed: characters stand for the code units a regular expression without flags works on.
- Calendar.CivilIsDate: integers are unbounded, so the overflow of days near the ends of 64 bits is not modelled.
- Cryptography, role decisions, network classification, host names and frame codecs: finite case splits or foreign code.
- Brand resolution, the user interface, the command line and the benchmarks.
