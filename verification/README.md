# wsrpc: verified model

wsrpc multiplexes RPC calls in both directions over a websocket that reconnects. This project models
the parts of it where goroutines, mutexes, unbuffered channels, one-shot closes and contexts meet,
and proves what they promise. Protocols are step machines: one step is one critical section, one
channel operation, or one event between them, and every promise is a statement about every sequence
of steps (`Exec(Step, INIT, run) == Some(s)`). Objects that one goroutine at a time updates under a
lock are classes, proved against the values and functions the machines use. `dafny verify
dfyconfig.toml` checks the whole project.

## The models

- `Connectivity.dfy`: `connectivityStateManager` (client.go:660-701) as a class over the value
  `Manager`; the machine `Waiting` of any number of `WaitForStateChange` and `WaitForReady` calls
  (client.go:122-155). Channels are generation numbers; a ghost history says what each has missed.
- `AddrConn.dfy`: the client connection. `DialStep` is `connect` (client.go:494-518), `Update` is
  `updateConnectivityState` up to its select (client.go:521-525), `LoopStep` is `resetTransport`
  (client.go:537-608), `CallbackStep` the `afterWritePump` of each transport (client.go:619-628),
  `TeardownStep` is `teardown` (client.go:636-657), `PublishStep` the select (client.go:526-531), the
  listener (client.go:191-201) and cancellation. `AddrConnSafety.dfy` holds the invariants,
  `AddrConnTheorems.dfy` and `AddrConnRecovery.dfy` the promises, `AddrConnOutcomes.dfy` and
  `AddrConnTeardown.dfy` what must follow a loss, a cancellation and a teardown.
- `Calls.dfy`: both `Invoke`s (client.go:372-445, server.go:333-382), both request handlers
  (client.go:285-318, server.go:247-277), both response handlers (client.go:322-333 with
  client.go:450-460, server.go:281-294), reading (client.go:258-280, server.go:220-241) and
  connections that come, go and lose frames. `CallerStep`, `CalledStep`, `ResponseStep` and
  `NetworkStep` are its four groups of steps. `CallsSafety.dfy` and `CallsSteps.dfy` hold the
  invariants and their preservation, `CallsTheorems.dfy` the promises, `CallsProgress.dfy` what calls
  can do, `CallsOutcomes.dfy` and `CallsDelivery.dfy` how calls, requests and responses end.
- `MethodCalls.dfy`: the server's nested maps of pending calls as classes; the flat table they keep
  as ghost state is the `serverTable` of `Calls`.
- `Pumps.dfy`: the pumps of one websocket transport, on either side; `PumpsOutcomes.dfy`: how its
  operations end.
- `ServerConnections.dfy`, `Credentials.dfy`: the connection table, the key list and
  `UpdatePublicKeys` as classes.
- `Shutdown.dfy`: `wshandler`, its callback, `UpdatePublicKeys` and `Stop` around `s.mu` and the wait
  group; `ShutdownOutcomes.dfy` and `ShutdownCompletes.dfy`: how handlers and Stop end.
- `UniClient.dfy`, `UniInvoke.dfy`: the unidirectional client's wait between attempts, and its calls.
- `Runs.dfy`, `Subsequences.dfy`: runs of a machine, and subsequences.

Assumptions, each visible in the model: call ids are fresh (version 4 UUIDs, section 5.4 of RFC
9562); frames stand for their encodings, so the codec is injective; a connection belongs to the key
that authenticated it and delivers a frame at most once; dialling, reads, writes, pings and timers end
with either result at any time; contexts stay done, and cancelling a context cancels its children in
the same step. In `Calls` only the clients in `honest` run this library; the others send anything.
In `UniInvoke` the peer answers each request once and in order, and failures of a connection are
permanent; a call that is still in its loop at the end of a script is reported as `Running`.

## Where code and promise part

- With call timeouts the server can hold `s.mu` for ever: `handleMessageResponse` sends under the
  lock (server.go:292) while the timeout branch of `Invoke` waits for it (server.go:374).
  `CallsProgress.TimeoutCanLockServer` gives the run. `CallsTheorems.LockComesFreeIff` says exactly
  when the lock comes free, whoever the peer is: when the call is in its select, or has its connection
  already and so reaches it without the lock. For a peer that runs this library that means the call
  has not timed out (`CallsTheorems.HonestLockComesFreeIff`).
- Two handlers for one key can both pass `ensureSingleClientConnection` before either registers
  (server.go:134-179); the first transport is then live and missing from the table, and `Stop` leaves
  it open and waits for its peer. `Shutdown.RaceLeavesOneOpen` gives the run, `Shutdown.ListedIff`
  says exactly when a transport is missing, and `Shutdown.ClosedIff` exactly which transports `Stop`
  and `UpdatePublicKeys` close.
- The client transport's `Close` has no guard: it panics exactly on a second call
  (`Pumps.ClientLifecycle`), which `Pumps.ClientCanCloseTwice` makes. `teardown` never makes one
  (`AddrConnTheorems.ClosedAtMostOnce`).
- `max` makes one minute the floor of the unidirectional client's wait, not its cap, and absorbs the
  overflow of the doubling (`UniClient.WaitStep`); the wait is within a minute only once in 28
  attempts (`UniClient.WaitWithinMinuteIff`).
- `UniClientConn.Invoke` does not look at a response's error text: no outcome depends on it
  (`UniInvoke.ErrorTextsDoNotMatter`), and a call that reads an error succeeds exactly if the response
  has a payload that decodes (`UniInvoke.ErrorSurfacesIff`; `UniInvoke.ErrorCanBeLost` gives one).

The filter of `removeConnectionsToDeletedKeys` truncates long keys and the verifier does not
(`Credentials.FilterAgreesWithVerifier`, with `Credentials.LongKeyDisagrees` a failing list). This is
no fault of the code: its one caller validates the list first (server.go:390), and on validated lists
the two agree (`Credentials.ValidListsAgree`).

## Model

| member | source | states |
|---|---|---|
| Connectivity.ConnectivityStateManager.UpdateState | client.go:669-683 | A new state joins the history and closes every channel handed out before; the same state changes nothing; no channel is closed twice. |
| Connectivity.ConnectivityStateManager.GetNotifyChan | client.go:692-701 | The channel handed out is open and has missed nothing, and stays open exactly until the next change of state. |
| Connectivity.ConnectivityStateManager.GetState | client.go:685-690 | The state is the last of the history. |
| Waiting.NoLostWakeups | client.go:122-155 | Over every run a caller asleep on an open channel has missed no change since it sampled the state, so it still sees its source, or neither Ready nor Shutdown. |
| Waiting.VerdictsAreTrue | client.go:122-155 | true from WaitForStateChange means the state did differ from the source during the call; the verdict of WaitForReady means the state was Ready, or Shutdown, during the call. |
| Waiting.CancelledByOwnContext | client.go:127-152 | A call ends as cancelled only if its own context was done while it slept. |
| Waiting.SleepersCanLeave | client.go:127-152 | A sleeper can always be cancelled; one whose channel is closed can wake, and then WaitForStateChange returns true and WaitForReady starts over. |
| Waiting.CallsSettle | client.go:122-155 | From every reachable state a call gets by its own steps to the verdict the present state asks for, or to sleep on an open channel because it asks for none. |
| Waiting.VerdictsStand | client.go:122-155 | A verdict stands in every continuation. |
| Waiting.HistoryIsTheUpdates | client.go:669-690 | The history is that of the updates, each that differs from the one before, and the state is the last. |
| AddrConnTheorems.OneLiveTransport | client.go:537-633 | When a newer transport exists, the callback of every older one has run to its end. |
| AddrConnTheorems.CallbackActsOnOwnTransport | client.go:619-628 | A callback changes the state only from Ready to Idle, and only while its own transport is the current and newest one. |
| AddrConnOutcomes.LossIsSeen | client.go:614-628 | Ready on a transport whose callback has not had its turn: unless shut down, the state stays until that turn, the next one is then Idle, and Ready again means a newer transport. |
| AddrConnTheorems.StateMatchesTransport | client.go:482-608 | Ready comes with a transport, a transport only with Ready or Idle and is the newest, Shutdown has none. |
| AddrConnTheorems.ShutdownIsFinal | client.go:541-590 | After Shutdown no run leaves it or attaches a transport. |
| AddrConnTheorems.ClosedAtMostOnce | client.go:636-657 | However many teardowns run, each transport is closed once at most, and only after Shutdown. |
| AddrConnOutcomes.TeardownCloses | client.go:636-657 | The teardown that finds the connection open closes the transport it took exactly once, and returns only after that one's callback has run and the loop is over, or had not begun. |
| AddrConnTeardown.TeardownCanReturn | client.go:636-657 | From every reachable state every teardown under way can return, without new calls or cancellations. |
| AddrConnOutcomes.CancelledIff | client.go:636-639 | The connection's context is done exactly after its own cancellation, its parent's or a teardown; the parent's exactly after its own. |
| AddrConnOutcomes.ConnectCanReturn | client.go:494-518 | From every reachable state connect can come to its end, without a cancellation, a teardown or a loss. |
| AddrConnOutcomes.ListenerCanStop | client.go:191-201 | After the parent's cancellation the listener can stop, with at most its present update to finish. |
| AddrConnTheorems.PublicationRefines | client.go:191-201 | Until cancellation the connection's states are the published ones, then at most one held by the listener, then at most one being sent; later the published ones are a subsequence without equal neighbours. |
| AddrConnTheorems.PublishingNeverDeadlocks | client.go:521-533 | From every reachable state ac.mu comes free in at most three steps of the listener and the lock's holder alone. |
| AddrConnTheorems.LoopNeverStranded | client.go:599-606 | Once the write pump of the awaited transport has ended, also before Ready was set, the loop gets back to dialling without new calls, cancellations or losses. |
| AddrConnRecovery.AlwaysRecovers | client.go:537-608 | From every reachable state before cancellation the connection can become Ready with a live transport, without cancelling, tearing down or losing anything. |
| CallsTheorems.EndToEndCorrelation | client.go:372-445 | A call that took a response took one the called peer's handler gave to a request with exactly its id, method and arguments, in either direction. |
| CallsProgress.AnyAnswerCanComeBack | server.go:333-382 | For every direction, request and answer, errors included, some run has the call return exactly that answer. |
| CallsTheorems.ResponsesStayWithTheirPeer | server.go:281-294 | A response read from one peer never completes a call addressed to another or with another id, whatever any client sends. |
| CallsTheorems.AtMostOnce | server.go:220-294 | A call causes at most one run of a handler and none before its request is sent; a call that took a response used up the only copy of the only one. |
| CallsOutcomes.OnlyUuidsAreHandled | server.go:247-308 | The server's handlers run only on requests with a version 4 UUID for their id, whatever any client sends. |
| CallsOutcomes.RequestsTakeLatestConnection | server.go:194-204 | A request goes out on the connection of its peer opened last and not closed since; without one the call fails. |
| CallsOutcomes.CallsCanEnd | client.go:395-445 | From every reachable state a call can end by its own steps: an unsent one by failing with nothing sent, a sent one by its timeout once its context is done; only the server's calls need s.mu free. |
| CallsDelivery.ReadResponsesAreKept | client.go:322-333 | A response read for a call in its select stays at hand in every continuation until the call has an answer or its own context is done, in either direction and whatever any client sends. |
| CallsDelivery.AtHandCanBeTaken | client.go:450-460 | A response at hand can be taken by its call while that is in its select, if s.mu is not held for another. |
| CallsDelivery.HeldLockFreezes | server.go:281-294 | While s.mu is held for a response no call of the server registers, routes or is removed, no connection comes or goes at the server, and no reply finds its connection. |
| CallsTheorems.ClientTableIsExact | client.go:395-405 | methodCalls holds exactly the calls between registration and deferred removal. |
| CallsTheorems.ClientHandlersEnd | client.go:450-460 | A response handler of a client at its send always has its receiver in the select or the call's context done. |
| CallsTheorems.ServerEntriesAreUndelivered | server.go:281-294 | Every entry of the server's table is of a call to that key that has taken no response. |
| CallsTheorems.DuplicatesAreDropped | server.go:286-290 | The lookup of a second response for an answered call can go on whenever s.mu is free, drops it and changes nothing else. |
| CallsTheorems.HeldResponseMeetsItsCall | server.go:281-294 | While the server holds s.mu at its send to an honest peer's call, that call has sent its request, and the send is possible if and only if the call is still in its select. |
| CallsTheorems.LockComesFreeIff | server.go:281-376 | For any peer, the held lock can ever come free if and only if the call it is held for is in its select, or already has the connection it will write to. |
| CallsTheorems.HonestLockComesFreeIff | server.go:292-376 | For a peer that runs this library, the held lock can ever come free if and only if the call has not entered its timeout branch. |
| CallsProgress.TimeoutCanLockServer | server.go:372-376 | For every call to an honest client some run with one timeout leaves s.mu held for good. |
| CallsTheorems.NoTimeoutNoDeadlock | server.go:352-381 | If no server call's context is done, the send completes at once and frees the lock. |
| MethodCalls.MethodCalls.PutMethodCallForPublicKey | internal/methods/methods.go:20-28 | Adds exactly one entry to the flat table, for that key and id. |
| MethodCalls.MethodCalls.GetMessageResponseChannelForPublicKey | internal/methods/methods.go:30-36 | Finds an entry exactly when the flat table has one for that key and id, and returns its channel. |
| MethodCalls.MethodCalls.DeleteMethodCall | internal/methods/methods.go:38-42 | Removes exactly that entry of the flat table, and nothing for another key. |
| Pumps.ServerLifecycle | internal/transport/websocket_server.go:90-121 | Each channel is closed once at most for any number of Close calls; the callback runs once at most, after the write pump ended and closeConn was closed. |
| Pumps.NoWriteAfterCallback | internal/transport/websocket_server.go:77-88 | Once the callback has run no Write succeeds in any continuation, and every blocked Write can return. |
| PumpsOutcomes.RefusedForAReason | internal/transport/websocket_server.go:77-88 | On both sides Write fails only if the reader has ended, the transport was closed or its own context is done. |
| PumpsOutcomes.BlockedWriteCanEnd | internal/transport/websocket_client.go:101-112 | A blocked Write can fail as soon as there is a reason, its context's end being one, and with the pump idle it can succeed, its message being the next frame. |
| PumpsOutcomes.MessagesCanPass | internal/transport/websocket_client.go:101-218 | With the pump idle a new Write can succeed, and a frame read can be passed on, as they are. |
| PumpsOutcomes.PumpEndsIff | internal/transport/websocket_server.go:153-198 | The write pump has ended exactly if one of its five returns was taken; the reader's end comes before the first, and a call of Close before the close message. |
| PumpsOutcomes.ClosingCompletes | internal/transport/websocket_server.go:112-198 | Once the transport is closed, its reader has ended or its pump failed, the pump can run to its end, the callback included. |
| PumpsOutcomes.CloseCanReturn | internal/transport/websocket_client.go:115-144 | On both sides and from every reachable state a call of Close can return. |
| PumpsOutcomes.CloseActsOnce | internal/transport/websocket_server.go:92-109 | As many calls of Close have acted as have got past their first step. |
| Pumps.ClientLifecycle | internal/transport/websocket_client.go:115-119 | closeConn is closed more than once exactly when Close is called more than once; the callback runs once at most, after the write pump ended. |
| Pumps.ClientCanCloseTwice | internal/transport/websocket_client.go:115-119 | A run of two Close calls closes closeConn twice. |
| Pumps.ClientCloseJoins | internal/transport/websocket_client.go:115-144 | Close returns only after both pumps have ended and the callback has run. |
| Pumps.WritesAreConserved | internal/transport/websocket_server.go:153-172 | On both sides the frames handed to the connection are the messages of exactly the successful Writes, in order and once each, but for one the pump may hold. |
| Pumps.EndedForGood | internal/transport/websocket_client.go:165-218 | After the write pump has returned nothing is accepted again, on either side. |
| Shutdown.WaitGroupCountsTransports | server.go:153-176 | serveWG is the number of transports counted whose callback has not called Done, so never negative, and zero exactly when all have finished. |
| Shutdown.NothingAddedAfterClear | server.go:167-171 | Once Stop has cleared the manager no run adds a transport, raises the count or changes the table it took. |
| Shutdown.DoneMeansAllFinished | server.go:423-438 | When done has fired every transport ever made has finished, and the ones registered at the clearing are closed. |
| Shutdown.TableMatchesPeers | server.go:134-180 | Every registered transport is for its own key, and a handler that counted a transport can go on to make it. |
| ShutdownOutcomes.SecondConnectionIsRefused | server.go:466-482 | While a key stays connected no further handler for it gets past the check, in any run. |
| ShutdownOutcomes.NobodyEntersAfterQuit | server.go:128-132 | Once quit has fired no handler that has not passed the first check gets any further. |
| ShutdownOutcomes.NobodyPassesAfterClear | server.go:134-137 | Once the manager is cleared no handler gets past the second check. |
| ShutdownOutcomes.FailedUpgradeEnds | server.go:139-143 | A handler whose upgrade failed has ended. |
| ShutdownOutcomes.ServesUntilDone | server.go:185-190 | A handler serves until its own transport has finished or the server is stopped, and then can end. |
| ShutdownOutcomes.HandlersCanEnd | server.go:128-190 | After Stop was called every handler can end by its own steps. |
| ShutdownOutcomes.StopKeepsOrder | server.go:423-438 | The five steps of Stop come in their order and once each in every run. |
| ShutdownOutcomes.SectionKeepsWritersOut | server.go:167-180 | While a handler is between counting and having registered its transport, the manager is not cleared and nothing is closed by Stop or an update. |
| ShutdownOutcomes.CallbackKeepsWritersOut | server.go:153-165 | While a callback is inside its section the manager is not cleared, and no update closes anything. |
| ShutdownCompletes.StopCanComplete | server.go:423-438 | From every reachable state Stop can complete once the connections have ended, without new connections, updates or calls. |
| ShutdownCompletes.UpdateCanComplete | server.go:386-398 | From every reachable state before the clearing UpdatePublicKeys can take its turn after the present sections, and leaves only kept keys. |
| Shutdown.ListedIff | server.go:155-180 | A transport found under its key is missing later if and only if since then another registration for its key, the end of a transport of its key, or an update dropping the key took place. |
| Shutdown.RegisteringLists | server.go:179 | A registration makes its own transport, not closed before, the one found under its peer's key. |
| Shutdown.ClosedIff | server.go:432-461 | A transport once found under its key is closed by Stop, or by an update dropping its key, if and only if nothing displaced it before. |
| Shutdown.RaceLeavesOneOpen | server.go:128-180 | Two handlers for one key can both register, and then Stop leaves the first transport running and open. |
| ServerConnections.ConnectionsManager.RegisterConnection | server.go:530-540 | The table gains the transport under its key, and every channel handed out before is closed, once. |
| ServerConnections.ConnectionsManager.RemoveConnection | server.go:545-553 | The table loses that key, and every channel handed out before is closed, once. |
| ServerConnections.ConnectionsManager.GetNotifyChan | server.go:570-578 | The channel handed out is open exactly while no registration or removal follows. |
| ServerConnections.ConnectionsManager.GetTransport | server.go:517-527 | What it finds for a registered key is a transport made for that key's own peer, registered under no other key. |
| ServerConnections.Server.SendMsg | server.go:194-204 | A message is taken by the transport of its key's own peer alone, and of all registered transports nothing else changes. |
| ServerConnections.ConnectionsManager.GetConnectionPublicKeys | server.go:557-566 | Lists exactly the registered keys, once each. |
| ServerConnections.ConnectionsManager.CloseAll | server.go:581-587 | Every registered transport is closed and the table is unchanged. |
| ServerConnections.ConnectionsManager.RemoveAllBut | server.go:454-463 | The table keeps exactly the kept keys with their transports untouched, closes every other transport, and wakes the watchers if there is one. |
| ServerConnections.WebsocketServer.Close | internal/transport/websocket_server.go:92-109 | Any number of calls closes the channel once. |
| ServerConnections.Server.RemoveConnectionsToDeletedKeys | server.go:442-464 | Restricts the table to the keys some listed key converts to. |
| ServerConnections.Server.UpdatePublicKeys | server.go:386-398 | Refuses a list with a wrongly sized key and changes nothing, or leaves exactly the connections whose keys the verifier now accepts, the others closed. |
| Credentials.PublicKeys.IsValidPublicKey | credentials/tls.go:179-189 | The scan accepts exactly the listed keys. |
| Credentials.PublicKeys.Replace | credentials/tls.go:172-176 | The accepted keys become those of the argument. |
| Credentials.ValidPublicKeysFromEd25519 | credentials/tls.go:129-139 | Succeeds exactly when every key has 32 bytes, keeping the list. |
| Credentials.FilterAgreesWithVerifier | credentials/tls.go:218-226 | Filter and verifier agree on all keys if and only if every longer listed key has its first 32 bytes listed too. |
| Credentials.LongKeyDisagrees | credentials/tls.go:218-226 | With one over-long key listed, the filter keeps a key the verifier refuses. |
| Credentials.ValidListsAgree | server.go:445-452 | On a validated list the filter keeps exactly the keys the verifier accepts. |
| UniClient.RetryConnectWithBackoff | uni_client.go:104-123 | Waits the closed form's times, one for each failure, and ends at the first success or cancellation. |
| UniClient.WaitStep | uni_client.go:95-118 | Doubling with 64-bit wraparound and a floor of one minute is the next wait of the closed form, 60 * 2^((k-1) mod 28) seconds after the first second. |
| UniClient.WaitIsLongEnough | uni_client.go:104-118 | Every wait is positive and fits in 64 bits, and after the first none is under a minute. |
| UniClient.WaitWithinMinuteIff | uni_client.go:118 | A wait stays within a minute if and only if it is the first or the first of a period of 28. |
| UniInvoke.UniClientConn.Invoke | uni_client.go:127-192 | The first turn that reads a message, or fails without reconnecting, ends the call with that turn's outcome; a success returns the payload of the peer's answer to the request this very call wrote on that connection, after any calls, failures and reconnects before. |
| UniInvoke.SucceedsIff | uni_client.go:143-191 | A call succeeds with a payload if and only if some turn reads a response with it that decodes, and every turn before failed and reconnected. |
| UniInvoke.RunningIff | uni_client.go:143-177 | A call is still in its loop if and only if every turn so far failed and reconnected. |
| UniInvoke.ErrorTextsDoNotMatter | uni_client.go:183-188 | Whatever error texts the responses carry, the outcome of the call is the same. |
| UniInvoke.ErrorSurfacesIff | uni_client.go:183-188 | A call that reads a response with an error text fails if and only if the payload is missing or does not decode. |

## Left out

- TLS, certificate parsing, HTTP serving, the health check, dialling and the websocket library, whose results are chosen freely; close frames are sent and forgotten.
- Protobuf encoding, code generators, loggers, options, mocks and examples: no hard invariant.
- internal/backoff and internal/wsrpcsync: the delay is a free choice of the timer, and an event is the fired state of its transport or of Stop.
- addrConn, the transports' pumps, Server and the calls' goroutines as mutable objects: their steps interleave, so they are values changed by step functions; update in place and aliasing are not captured there. Readers of ac.mu and cc.mu, which change nothing, are not steps of the client connection.
- A second call of addrConn.connect: Dial makes one, and the model has one.
- The blocking variant of Dial, and the readers that listenForRead starts: delivery of a frame to a handler is always possible and never promised.
- After Stop several server methods dereference the cleared manager and panic: a handler that does ends there, and UpdatePublicKeys is taken to be called before Stop. Stop and ClientConn.Close are called once.
- A client's request handler that finds no transport, or no registered service, dereferences nil and panics (client.go:288-314); the model drops its reply.
- UpdatePublicKeys keeps the caller's slice: later writes through it are not modelled.
- UniInvoke.UniClientConn.Invoke: write and read deadlines, and that the old connection is not closed on reconnecting, are not modelled; a loop that never ends is seen through its finite beginnings.
- Memory and goroutine leaks on the server: entries of calls whose send failed stay in the table, and nothing is claimed about them beyond being undelivered.
