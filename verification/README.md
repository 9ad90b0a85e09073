# Verification of tcpquic-proxy

A Dafny model of the parts of tcpquic-proxy whose correctness is hardest to see, with proofs. `dafny verify dfyconfig.toml`
checks everything.

Code that updates state in place is modelled as classes whose methods are proved equal to functions on values and keep the
class invariant. Where several
threads interleave, the lock-sized blocks of the source are the steps of a step system, and results hold at every point of every
run of it, for every interleaving and every result of the calls into foreign code.

- **Client slots** (`ClientSlots`, `SlotConsistency`, `ClientSession`, `StartOperation`, `SlotWorld`, `SlotFrames`, `SlotInvariants`,
  `NoStranding`, `StrandedSlot`, `StaleIdentity`, `RetryLatch`, `TerminalShutdown`, `LateShutdown`, `GateCount`, `SessionStop`): the
  reconnect machine of `QuicClientSession`. A run is any interleaving of the blocks of concurrent `StartSlot` calls, retry
  tickets, connection callbacks, reconnects, growing, shrinking, terminal shutdown requests and `Stop`, which waits for the
  gate's counter. A slot whose start is cut off by removing the slot between claim and publication can be stranded; the
  project shows the run, shows that every such cut can lead there, and proves that without one no slot is ever stranded. A
  deferred terminal shutdown touches the connection it was granted for if and only if none was published in the slot in
  between; the project shows the run in which one was, and proves that a connection it touches is always one that a shutdown was
  granted for.
- **Server cleanup** (`CleanupWorld`, `CleanupProofs`, `CleanupQueue`, `ServerTerminal`): the linked queue of dead server
  connections, its watermark drain and final stop, and the one terminal shutdown per server connection.
- **Ingress reactor** (`TunnelOpen`, `TunnelLedger`, `TunnelOnce`, `IngressReactor`, `TaskQueue`): accept, reject and cancel racing for
  each tunnel-open handle, and the life of posted and delayed tasks. A completion callback that finds the reactor stopping may
  make its one call after `Stop` has returned; the project shows that run and proves that nothing else delays a call.
- **Handshake** (`Bytes`, `Finding`, `Base64`, `ProxyAuth`, `Handshake`, `HandshakeProofs`, `Socks5Requests`, `HttpLogin`, `IngressState`): SOCKS5
  (RFC 1928 sections 3 and 4, RFC 1929 section 2) and HTTP CONNECT with Basic credentials (RFC 7617 section 2, RFC 4648 section 4).
- **Preprocessor analysis** (`ConditionSyntax`, `ConditionValues`, `PreprocessorExpression`, `BranchLines`, `BranchProofs`, `PhysicalLines`,
  `PhysicalProofs`, `JointSpacing`, `LibuvChecker`, `LibuvLimits`): the libuv checker's three-valued conditions, branch stack and joining of
  continued lines against a real preprocessor, in which a macro can be undefined, or defined with any value. The checker reads
  every literal in decimal, so `010 == 8` misleads it; soundness is proved exactly for literals that read the same both ways.
  The checker yields only the first physical line of a continued line that starts with `#`, so a kept physical line is yielded
  if and only if it is the first or its line does not start with `#`. Agreement of an environment with the checker's symbol
  table, in definedness and value, is proved to be exactly what soundness needs.
- **Addresses, layout and wire format** (`Division`, `OctetMasks`, `Cidr`, `Endpoints`, `EndpointText`, `PeerLists`, `LocalAddresses`, `SlotLayout`, `Picks`,
  `WireCodec`, `WireBijection`). An endpoint such as `[[a]:1` parses and is written back as text that does not parse, and a peer
  list such as `a:1,` passes the configuration check and cannot be built; the exact conditions are proved.

## Model

| member | source | states |
|---|---|---|
| NoStranding.NoSlotStranded | src/protocol/quic_session.cpp:2163-2701 | at every point of every run without a cut start, while the gate is open, each slot holds a connection of its identity, holds a token whose ticket is pending, is being started at its identity, is owed a start, or is latched |
| NoStranding.StepKeepsInv | src/protocol/quic_session.cpp:2163-2701 | every step that does not cut a start keeps the coverage invariant, from any state that has it |
| StrandedSlot.CutStrandsSlot | src/protocol/quic_session.cpp:1620-1659 | from any state with the basic invariants, which every reachable state has, the gate open and start claims to spare, removing a slot between the claim and the publication of a start on it can be continued to an uncovered slot with the gate open |
| StrandedSlot.SomeRunStrands | src/protocol/quic_session.cpp:2430-2431 | a complete run from a fresh session that strands a slot |
| StaleIdentity.RetiredKeyNeverFits | src/protocol/quic_session.cpp:1661-1679 | an identity a slot had before it was reconnected or removed never fits that slot index again in any continuation |
| StaleIdentity.StaleNeverActs | src/protocol/quic_session.cpp:2504-2540 | a stale ticket or terminal key claims no start, latches nothing, reserves and performs no shutdown |
| StaleIdentity.TokenClaimedOnce | src/protocol/quic_session.cpp:2257-2278 | over any run no retry token becomes more than one start |
| StaleIdentity.RunKeepsTokensOk | src/protocol/quic_session.cpp:2514-2531 | in every reachable state live tokens are distinct, unspent and below the next to be issued, and spent ones are distinct: no token is issued twice |
| StaleIdentity.TicketInOnePlace | src/protocol/quic_session.cpp:2586-2672 | over any run a retry ticket is filed or carried by one retry call, never both, never twice |
| RetryLatch.LatchedStaysDown | src/protocol/quic_session.cpp:2656-2660 | from the latch until removal of the slot no token is minted, no retry or idle start is granted and no reconnect succeeds |
| RetryLatch.RunKeepsLatchOk | src/protocol/quic_session.cpp:2258-2288 | in every reachable state a latched slot has a live token only if start claims have run out |
| TerminalShutdown.GrantedOncePerEpoch | src/protocol/quic_session.cpp:1442-1524 | between two grants for one slot lies a publication, a reconnect or a removal of it |
| TerminalShutdown.DeferredRechecks | src/protocol/quic_session.cpp:1442-1524 | whenever a deferred shutdown of a grant finds a connection to touch, it is the connection of that very grant if and only if none was published in the slot in between, and in any case one that a shutdown of the slot was granted for, then or later; it touches nothing once the slot was reconnected or removed in between |
| TerminalShutdown.SameConnIff | src/protocol/quic_session.cpp:2427-2444 | over any run, a slot that holds a connection holds the one it held before if and only if none was published in it in between |
| LateShutdown.OperationMeetsLaterConnection | src/protocol/quic_session.cpp:1494-1520 | a complete run in which the operation of a first grant, run late, meets the connection of a second grant under the same identity |
| SessionStop.StopIsFinal | src/protocol/quic_session.cpp:1316-1370 | after the last block of Stop, which ran when the gate was closed and its counter zero, in every continuation no slot exists and nothing is published |
| GateCount.RunCounts | src/protocol/quic_session.cpp:2120-2144 | in every reachable state the gate's counter equals the entries outstanding: one for each activation inside StartSlot, one more for each retry task, one for each shutdown callback submitting a ticket, one for each connect callback sending its hello |
| GateCount.ZeroIsDrained | src/protocol/quic_session.cpp:1326-1332 | in every such state the counter is zero if and only if no activation, retry task, shutdown callback or connect callback is inside and no ticket is being submitted |
| GateCount.HelloKeepsGate | src/protocol/quic_session.cpp:2802-2812 | the connect callback's entry around SendClientHello, made exactly while the gate is open, and its leaving keep the count |
| SlotInvariants.StepKeepsBasics | src/protocol/quic_session.cpp:1573-2750 | every step keeps counters ahead of everything issued, slots consistent and tickets distinct |
| ClientSession.ClientSharedState.constructor | src/protocol/quic_session.cpp:1255-1268 | a started session: fresh consecutive identities, generation 1, nothing connected, and the class invariant: identities, tokens, claims and connections were issued and belong to one slot each |
| ClientSession.ClientSharedState.ReserveRetryLocked | src/protocol/quic_session.cpp:2514-2540 | in place, the retry reservation the step system uses, with its whole effect |
| ClientSession.ClientSharedState.RefuseRetryLocked | src/protocol/quic_session.cpp:2650-2664 | in place, a refused ticket invalidates and latches only its own matching slot |
| ClientSession.ClientSharedState.ClaimStartLocked | src/protocol/quic_session.cpp:2245-2300 | in place, the start claim with its four results and the connection it takes out; keeps the class invariant |
| ClientSession.ClientSharedState.PublishLocked | src/protocol/quic_session.cpp:2427-2444 | in place, publication under the generation guard |
| ClientSession.ClientSharedState.FinishStartLocked | src/protocol/quic_session.cpp:2466-2489 | in place, what a start does after ConnectionStart, and whether it must retry |
| ClientSession.ClientSharedState.ReleaseClaimLocked | src/protocol/quic_session.cpp:2186-2200 | in place, a claim is released only by its owner |
| ClientSession.ClientSharedState.CompleteSlotShutdownLocked | src/protocol/quic_session.cpp:2675-2701 | in place, shutdown-complete clears only a slot it owns and reserves its retry |
| ClientSession.ClientSharedState.OnSlotConnected | src/protocol/quic_session.cpp:2703-2727 | in place, a connect event of the slot's own connection and identity |
| ClientSession.ClientSharedState.OnSlotDisconnected | src/protocol/quic_session.cpp:2729-2750 | in place, a disconnect event of the slot's own connection |
| ClientSession.ClientSharedState.ReconnectSlot | src/protocol/quic_session.cpp:1661-1683 | in place, a new identity and generation, refused for slots that are latched or not live; keeps the class invariant |
| ClientSession.ClientSharedState.SetDesiredConnectionCount | src/protocol/quic_session.cpp:1573-1618 | in place, growing adds fresh slots and changes no old one |
| ClientSession.ClientSharedState.StopHighestConnection | src/protocol/quic_session.cpp:1620-1659 | in place, only the highest slot goes, and its connection is handed back |
| ClientSession.ClientSharedState.RequestTerminalShutdown | src/protocol/quic_session.cpp:1442-1524 | in place, the terminal reservation |
| ClientSession.ClientSharedState.StopAllLocked | src/protocol/quic_session.cpp:1335-1353 | in place, Stop clears all slots and hands back exactly the connections they held |
| ClientSession.ClientSharedState.ConnectedCountLocked | src/protocol/quic_session.cpp:1728-1736 | the loop counts exactly the pickable slots |
| StartOperation.StartSlot | src/protocol/quic_session.cpp:2163-2494 | the whole start, undisturbed: the gate is entered and left, no other slot changes and no claim stays; a start let in ends up or published, or with its ticket at the scheduler, or latched, decided exactly by what the outside answers, and hands back the connection it replaced; one not let in changes nothing unless claims have run out |
| StartOperation.ScheduleStartRetry | src/protocol/quic_session.cpp:2542-2584 | a retry is at the scheduler under a fresh token of the slot's identity, or the slot is latched: the latter exactly if it was, the scheduler refuses or tokens have run out |
| SlotConsistency.ClaimFits | src/protocol/quic_session.cpp:2245-2300 | a claim keeps identities, tokens, claims and connections issued and shared by no two slots |
| SlotConsistency.GrowFits | src/protocol/quic_session.cpp:1573-1618 | so does growing |
| ClientSession.ClientSessionGate.Acquire | src/protocol/quic_session.cpp:2120-2131 | a caller gets in exactly while the gate is live, and is counted |
| ClientSession.ClientSessionGate.Release | src/protocol/quic_session.cpp:2133-2144 | exactly that caller leaves, and the count goes down by one as in the step system |
| ClientSession.ClientSessionGate.Close | src/protocol/quic_session.cpp:1326-1332 | the gate closes with the callers inside unchanged |
| ClientSession.ClientSessionGate.Drained | src/protocol/quic_session.cpp:1329-1331 | the count is zero exactly when nobody is inside |
| CleanupProofs.DrainIsExact | src/protocol/quic_session.cpp:443-451 | when Completed has reached the watermark every context numbered up to it has been released and all others are numbered above it |
| CleanupProofs.DrainWaits | src/protocol/quic_session.cpp:443-451 | while Completed is below a watermark some context numbered up to it is still unreleased |
| CleanupProofs.EnqueueNeverRefused | src/protocol/quic_session.cpp:414-441 | in every run the first enqueue of a registered context finds the service running and appends it with the next ordinal |
| CleanupProofs.ProducersKeepServiceRunning | src/protocol/quic_session.cpp:395-405 | in every reachable state an outstanding producer implies the service is running |
| CleanupProofs.AfterFinalStop | src/protocol/quic_session.cpp:453-480 | from the return of any FinalStop on, nothing is registered, queued or held and no registration succeeds |
| CleanupProofs.OneWorker | src/protocol/quic_session.cpp:540-551 | in every run an enqueue that starts a worker thread finds none running |
| CleanupQueue.Queue.Enqueue | src/protocol/quic_session.cpp:414-441 | the linked list appends, numbers and refuses as a sequence would, and renumbers nothing else |
| CleanupQueue.Queue.Pop | src/protocol/quic_session.cpp:570-578 | the linked list gives its first element and keeps the rest in order |
| CleanupQueue.Queue.RegisterProducer | src/protocol/quic_session.cpp:395-400 | admitted and counted exactly while admission is open |
| CleanupQueue.Queue.UnregisterProducer | src/protocol/quic_session.cpp:402-406 | the count goes down and never below zero |
| CleanupQueue.CleanupTracker.TryEnterCallback | src/protocol/quic_session.cpp:32-37 | a callback enters exactly while admission is open |
| CleanupQueue.CleanupTracker.LeaveCallback | src/protocol/quic_session.cpp:38-42 | exactly that callback leaves |
| CleanupQueue.CleanupTracker.CloseCallbackAdmission | src/protocol/quic_session.cpp:43-47 | admission closes, and the wait is over exactly when no callback is inside |
| ServerTerminal.ServerGrantedOnce | src/protocol/quic_session.cpp:649-698 | over any history no server connection is granted a terminal shutdown twice |
| ServerTerminal.ServerConnections.RegisterConnection | src/protocol/quic_session.cpp:629-701 | in place, a new row with a new numeric id; ids stay distinct |
| ServerTerminal.ServerConnections.UnregisterConnection | src/protocol/quic_session.cpp:723-733 | in place, exactly that row goes; ids stay distinct |
| ServerTerminal.ServerConnections.RequestShutdown | src/protocol/quic_session.cpp:649-698 | in place, the search over the registry grants as the specification does, and shuts down only an owned connection |
| TunnelOnce.OneTerminalCall | src/ingress/client_ingress_reactor.cpp:213-244 | over every interleaving a handle gets at most one of accept, reject and cancel; when Stop has returned it has had exactly one if and only if no callback still holds its claim, and at most one callback can |
| TunnelOnce.CallCanTrailStop | src/ingress/client_ingress_reactor.cpp:1137-1156 | a run in which Stop has returned and the callback's reject is still to come |
| TunnelOnce.LateEventsChangeNoClient | src/ingress/client_ingress_reactor.cpp:1190-1300 | once the client of an open is closed, no completion or timeout of that open changes any client, in particular none that reuses the descriptor |
| TunnelOnce.OpeningHasHandle | src/ingress/client_ingress_reactor.cpp:1158-1184 | between reactor steps a client in phase Opening has a handle and that handle's completion state |
| TunnelOnce.StepKeeps | src/ingress/client_ingress_reactor.cpp:919-1417 | every step keeps custody: each unmarked handle is with a client or with the reactor thread |
| TunnelOnce.StepKeepsLedger | src/ingress/client_ingress_reactor.cpp:919-1417 | every step keeps the ledger: a marked handle has its one call, or one claimant |
| TunnelLedger.OnceKeepsLedger | src/ingress/client_ingress_reactor.cpp:226-244 | the once-only reject and cancel keep the ledger and leave the handle marked |
| TunnelLedger.AcceptKeepsLedger | src/ingress/client_ingress_reactor.cpp:1017-1033 | a successful accept is the one call, and the reset after a failed accept frees the handle for exactly one reject |
| IngressReactor.Reactor.constructor | src/ingress/client_ingress_reactor.cpp:246-248 | an empty running reactor; it has the class invariant: custody, mail and ledger of the tunnel-open protocol |
| IngressReactor.Reactor.MarkOpenCompletionTerminal | src/ingress/client_ingress_reactor.cpp:213-224 | in place, true exactly for the first caller and for a null state |
| IngressReactor.Reactor.EndHandleOnce | src/ingress/client_ingress_reactor.cpp:226-244 | in place, at most one call, none for a null handle |
| IngressReactor.Reactor.CloseClientLocked | src/ingress/client_ingress_reactor.cpp:1327-1350 | in place, the entry goes and its handle is cancelled once |
| IngressReactor.Reactor.CloseAllLocked | src/ingress/client_ingress_reactor.cpp:1393-1417 | in place, every client is closed, in any order of the table; keeps the class invariant |
| IngressReactor.Reactor.BeginClientOpen | src/ingress/client_ingress_reactor.cpp:1082-1100 | in place, phase, completion state and token before StartTunnel |
| IngressReactor.Reactor.EndClientOpen | src/ingress/client_ingress_reactor.cpp:1158-1184 | in place, a returned handle is stored, rejected if the client is gone, and null completes as failed; keeps the class invariant |
| IngressReactor.Reactor.CompleteClientOpen | src/ingress/client_ingress_reactor.cpp:1256-1320 | in place, a completion of another phase or handle only rejects |
| IngressReactor.Reactor.TimeoutClientOpen | src/ingress/client_ingress_reactor.cpp:1190-1223 | in place, only a client still opening on this completion state is timed out; keeps the class invariant |
| IngressReactor.Reactor.FinishClientWrite | src/ingress/client_ingress_reactor.cpp:939-1051 | in place, the end of the response write is the write steps run through, and they keep the class invariant |
| IngressReactor.Reactor.EnqueueOpenCompletion | src/ingress/client_ingress_reactor.cpp:1225-1254 | in place, queued exactly while running |
| IngressReactor.Reactor.RunNextCompletion | src/ingress/client_ingress_reactor.cpp:1238-1252 | in place, a completion of a dead token only rejects; keeps the class invariant |
| IngressReactor.Reactor.Stop | src/ingress/client_ingress_reactor.cpp:302-366 | the whole stop of a running reactor whose worker is joined: afterwards no client and no task is left, and every handle that was returned has had exactly one terminal call unless a callback has claimed it |
| TaskQueue.AcceptedTasksRunInOrder | src/ingress/client_ingress_reactor.cpp:302-366 | in every run what was executed is a prefix of what was accepted, and all of it once the reactor is stopped |
| TaskQueue.DelayedTasksRunOnceNotEarly | src/ingress/client_ingress_reactor.cpp:716-759 | in every run no delayed task runs before it is due and none runs twice |
| TaskQueue.ScanSplits | src/ingress/client_ingress_reactor.cpp:720-733 | the due tasks and the later ones partition the list, each in its old order |
| TaskQueue.CompactDue | src/ingress/client_ingress_reactor.cpp:720-733 | the in-place loop collects the due tasks and moves the later ones to the front in order |
| TaskQueue.ReactorTasks.EnqueueAsync | src/ingress/client_ingress_reactor.cpp:691-702 | in place, appended exactly while running |
| TaskQueue.ReactorTasks.EnqueueDelayed | src/ingress/client_ingress_reactor.cpp:609-633 | in place, appended with its due time and the next order exactly while running |
| TaskQueue.ReactorTasks.ProcessPendingTasks | src/ingress/client_ingress_reactor.cpp:704-714 | in place, the whole batch runs in order and the queue is empty |
| TaskQueue.ReactorTasks.TakeDue | src/ingress/client_ingress_reactor.cpp:716-733 | in place, due tasks out, later ones kept |
| HandshakeProofs.ChunkingDoesNotMatter | src/ingress/client_ingress_state.cpp:63-258 | for every stream and every way of cutting it the end, the bytes written, the request and the leftover equal those of feeding it whole |
| HandshakeProofs.SettleInTwo | src/ingress/client_ingress_state.cpp:63-258 | settling on part of the input and going on is settling on all of it, from any stage |
| HandshakeProofs.VerdictStable | src/ingress/client_ingress_state.cpp:97-258 | a stage's verdict once reached does not change when bytes arrive, including the 16 KiB header cap |
| HandshakeProofs.VerdictLocal | src/ingress/client_ingress_state.cpp:97-258 | a verdict that leads on depends only on the bytes it uses |
| HandshakeProofs.ByteWiseReadsNoPayload | src/ingress/client_ingress_reactor.cpp:28-29 | fed byte by byte, a stream that opens leaves the read buffer empty |
| HandshakeProofs.SocksOpenCarriesLogin | src/ingress/client_ingress_state.cpp:97-218 | a SOCKS5 stream that opens consists of a greeting with the required method, a login from the table if there is one, a valid request and the leftover |
| HandshakeProofs.SocksLoginOpens | src/ingress/client_ingress_state.cpp:97-218 | every such stream opens, with exactly these replies |
| HandshakeProofs.HttpOpenCarriesLogin | src/ingress/client_ingress_state.cpp:220-258 | an HTTP CONNECT stream that opens against a table has, in the header it uses and after its first line, a whole line that is a Proxy-Authorization header with a pair from the table |
| HttpLogin.HttpLoginOpens | src/ingress/client_ingress_state.cpp:220-258 | every CONNECT request within the cap whose first authorization line carries Basic credentials of a user of the table opens to its target and leaves what follows: any other header lines before and after, names and scheme in any letter case, any blanks, whitespace in the encoded part or not |
| Socks5Requests.ParseIsExact | src/ingress/socks5_server.cpp:37-108 | bytes parse to a request if and only if they are its RFC 1928 wire form |
| IngressState.Ingress.constructor | src/ingress/client_ingress_state.cpp:53-61 | a fresh handshake in its first stage |
| IngressState.Ingress.Feed | src/ingress/client_ingress_state.cpp:63-76 | in place, result, buffers, request and next stage follow the verdict on the buffered bytes |
| IngressState.Ingress.FeedGreeting | src/ingress/client_ingress_state.cpp:146-194 | in place, the greeting stage |
| IngressState.Ingress.ScanMethods | src/ingress/client_ingress_state.cpp:159-164 | the loop finds exactly which of the two methods are offered |
| IngressState.Ingress.FeedAuth | src/ingress/client_ingress_state.cpp:105-145 | in place, the username and password stage |
| IngressState.Ingress.FeedRequest | src/ingress/client_ingress_state.cpp:197-217 | in place, the request stage |
| IngressState.Ingress.FeedHttpConnect | src/ingress/client_ingress_state.cpp:220-258 | in place, the header stage with its cap and its 407 reply |
| IngressState.Ingress.MarkWriteComplete | src/ingress/client_ingress_state.cpp:82-85 | in place, written bytes leave the buffer, never more than there are |
| IngressState.Ingress.FeedAndDrain | src/ingress/client_ingress_reactor.cpp:970-1013 | feeding and draining replies ends where settling says |
| IngressState.Ingress.ReadHandshake | src/ingress/client_ingress_reactor.cpp:879-917 | the one-byte read loop ends as the whole input settles, and when it opens the read buffer is empty |
| ProxyAuth.Validate | src/ingress/proxy_auth.cpp:198-213 | accepts everything with an empty table, otherwise exactly the non-empty pairs in it |
| ProxyAuth.ConstantTimeEquals | src/ingress/proxy_auth.cpp:58-67 | the difference accumulated over all bytes is zero exactly for equal strings |
| ProxyAuth.FindHeaderValue | src/ingress/proxy_auth.cpp:130-165 | the loop returns the value on the first line for the header |
| ProxyAuth.BasicRoundTrip | src/ingress/proxy_auth.cpp:167-196 | for every non-empty colon-free user and any password of at most 255 bytes, parsing Basic credentials, the scheme in any letter case and whitespace inserted or not, returns the pair |
| Base64.DecodeInput | src/ingress/proxy_auth.cpp:69-128 | the two loops compute the decoding function |
| Base64.DecodeUndoesEncode | src/ingress/proxy_auth.cpp:69-128 | decoding any whitespace-padded RFC 4648 encoding of non-empty data returns the data |
| Bytes.ParsePort | src/ingress/http_connect_server.cpp:16-38 | the early-exit digit loop accepts exactly the texts denoting 1 to 65535 |
| Bytes.FindStable | src/ingress/client_ingress_state.cpp:228-235 | where the header end is found does not change when bytes arrive behind it |
| ConditionSyntax.ParseIsExact | scripts/check-libuv-backend-api.py:110-199 | the parser accepts exactly the token lists written from a syntax tree and returns that tree, with its precedence and associativity |
| ConditionValues.KnownIsKept | scripts/check-libuv-backend-api.py:129-199 | refining the symbol table never changes a known value |
| ConditionValues.KnownIsReal | scripts/check-libuv-backend-api.py:129-199 | a known value is the value in every environment that agrees with the table, where macros may be undefined or have any value and defined() asks for definedness, given plain literals |
| ConditionValues.LiteralsAgree | scripts/check-libuv-backend-api.py:194-196 | decimal and preprocessor readings of a literal agree if and only if it has no leading zero or denotes a single digit |
| ConditionValues.PlainSpelling | scripts/check-libuv-backend-api.py:194-196 | every number has a spelling without a leading zero, and it reads the same both ways |
| ConditionValues.OctalMisleads | scripts/check-libuv-backend-api.py:194-196 | 010 == 8 is known false to the checker and true to the preprocessor |
| PreprocessorExpression.Expression.ParseWhole | scripts/check-libuv-backend-api.py:110-114 | succeeds exactly on whole conditions of the grammar, with the three-valued value of their tree |
| PreprocessorExpression.Expression.ParseDisjunction | scripts/check-libuv-backend-api.py:149-154 | the position loop computes the value of the longest disjunction ahead |
| PreprocessorExpression.Expression.ParseConjunction | scripts/check-libuv-backend-api.py:156-161 | the position loop computes the value of the longest conjunction ahead |
| PreprocessorExpression.Expression.ParseComparison | scripts/check-libuv-backend-api.py:163-172 | the position loop computes the value of the longest comparison ahead |
| PreprocessorExpression.Expression.ParsePrimary | scripts/check-libuv-backend-api.py:174-199 | computes the value of the unary expression ahead, or fails as the grammar does |
| LibuvChecker.EvaluateCondition | scripts/check-libuv-backend-api.py:209-219 | every kind of condition gets its three-valued value, and what does not parse is unknown |
| PhysicalLines.SelectLines | scripts/check-libuv-backend-api.py:262-304 | the loop over physical lines, with its joining of continuations, active flag and stack, yields what its scan function says |
| PhysicalLines.TakeLine | scripts/check-libuv-backend-api.py:268-274 | the inner loop joins exactly the continuations of a line that starts with a hash |
| BranchLines.OnLine | scripts/check-libuv-backend-api.py:277-304 | one turn of the loop moves flag and stack and yields as the line machine does |
| PhysicalProofs.ScanInOrder | scripts/check-libuv-backend-api.py:262-304 | for any text, lines are yielded in order and at most once |
| PhysicalProofs.YieldsFollow | scripts/check-libuv-backend-api.py:262-304 | on a text whose continuations the checker joins as a preprocessor splices, a physical line is yielded if and only if the machine finds its logical line and it is the first of it or the line does not start with a hash |
| BranchProofs.MachineShows | scripts/check-libuv-backend-api.py:262-304 | on any well-nested file the stack machine ends as it began and keeps the lines its nesting says |
| LibuvChecker.SelectionIsSound | scripts/check-libuv-backend-api.py:262-304 | for every environment agreeing with the known symbols and every text of a well-nested file with plain literals, a physical line a real preprocessor keeps is yielded if and only if it is the first of its logical line or that line does not start with a hash |
| LibuvChecker.SelectionIsExact | scripts/check-libuv-backend-api.py:262-304 | when every condition is known to be 0 or 1, the physical lines yielded are exactly those kept, less the continuations of lines that start with a hash |
| LibuvLimits.OctalLosesALine | scripts/check-libuv-backend-api.py:194-196 | for every literal outside the agreement condition the line inside `#if d == e`, e spelling the value of d plainly, is kept in every environment and yielded in no text |
| LibuvLimits.OtherValuesKeepBoth | scripts/check-libuv-backend-api.py:284-298 | a known value other than 0 and 1 makes both branches come out |
| LibuvLimits.AgreeingInValueLosesALine | scripts/check-libuv-backend-api.py:209-219 | with _WIN32 defined as 0, which agrees with every known value, the line inside `#ifdef _WIN32` is kept and yielded in no text |
| LibuvLimits.AgreementIsExact | scripts/check-libuv-backend-api.py:209-219 | an environment agrees with the symbol table, in definedness and value, if and only if every condition with plain literals known to be 0 is really false in it |
| LibuvLimits.DisagreeingLosesALine | scripts/check-libuv-backend-api.py:209-219 | for every environment and every known macro it disagrees on, the line inside a condition on that macro is kept and yielded in no text |
| LibuvLimits.MacroContinuationIsLost | scripts/check-libuv-backend-api.py:271-274 | the second physical line of a macro definition is kept and not yielded |
| LibuvLimits.HashInsideCodeLosesALine | scripts/check-libuv-backend-api.py:271-276 | a hash line that continues a line of code is taken for a directive, and the code line after it is lost |
| LibuvLimits.BlankAfterTwoBackslashesLosesALine | scripts/check-libuv-backend-api.py:272-274 | after two backslashes a blank line does not end the checker's line, and the code line after it is lost |
| LibuvLimits.SplitWordLosesALine | scripts/check-libuv-backend-api.py:272-276 | an `#else` split by a backslash is joined with a space and no longer a directive, and the kept line after it is lost |
| JointSpacing.SpacedTextReadsAlike | scripts/check-libuv-backend-api.py:271-276 | on every text whose joints have white space on one side, joined and spliced lines are read alike by any reading that takes a run of white space for one space, so the selection theorems apply |
| Cidr.IpMatchesCidr | src/acl/acl_matcher.h:87-117 | the byte-and-mask loop says yes exactly when families agree, the prefix fits and the numbers agree after division by two to the remaining bits |
| Cidr.NumbersByOctets | src/acl/acl_matcher.h:98-116 | numbers agree after that division exactly when the whole octets and the masked octet do |
| OctetMasks.MaskClearsLowBits | src/acl/acl_matcher.h:115-116 | the bit operation on an octet, for every octet and every shift from 1 to 7, rounds it down to a multiple of the dropped part |
| Cidr.MatchesAny | src/acl/acl_matcher.h:182-188 | the loop finds whether some network of the list contains the address |
| Cidr.EvaluateCandidates | src/acl/acl_matcher.h:191-227 | succeeds if and only if no recognised candidate is denied and some is allowed, and returns exactly the allowed ones in order |
| Cidr.ParsePrefix | src/acl/acl_matcher.h:19-35 | accepts exactly digit strings denoting at most 128 |
| Endpoints.IsHostPort | src/config/config.cpp:246-274 | the configuration test accepts exactly the strings the endpoint parser accepts |
| Endpoints.IsPort | src/config/config.cpp:262-273 | the loop with its overflow test accepts exactly 1 to 65535 |
| EndpointText.FormatRoundTrip | src/protocol/quic_address.cpp:340-345 | writing a parsed endpoint and parsing it again gives it back if and only if its host has a colon or does not start with a bracket |
| EndpointText.DoubleBracketIsLost | src/protocol/quic_address.cpp:340-345 | the text [[a]:1 parses and is not read back |
| EndpointText.HostPortIsEndpoint | src/ingress/http_connect_server.cpp:40-74 | the CONNECT target parser accepts exactly the endpoints without a scheme, with the same host and port |
| PeerLists.IsHostPortList | src/config/config.cpp:276-288 | the check accepts exactly the lists with an item that is not blank and all such items endpoints |
| PeerLists.SplitCommaList | src/config/config.cpp:220-236 | the loop gives the trimmed items between commas that are not blank, in order |
| PeerLists.ParseEndpointList | src/protocol/quic_address.cpp:313-338 | the loop gives the endpoints of all items in order, or fails if one of them is none |
| PeerLists.ListsAgree | src/protocol/quic_address.cpp:313-338 | what parses is accepted, and what is accepted parses if and only if no item is blank |
| PeerLists.TrailingCommaFails | src/protocol/quic_address.cpp:313-338 | the list a:1, is accepted and does not parse |
| LocalAddresses.IsLocalAddress | src/config/config.cpp:290-318 | the one-pass loop accepts exactly four octets of at most 255 with dots between |
| SlotLayout.ValidatePaths | src/config/config.cpp:2148-2163 | the loop accepts exactly paths that are each valid, distinctly named and have at most 128 connections in total |
| SlotLayout.ValidatedPathsBuild | src/protocol/quic_address.cpp:495-525 | every validated path-mode peer builds to between 1 and 128 slots |
| SlotLayout.AcceptedListBuilds | src/protocol/quic_address.cpp:527-557 | a peer list the configuration check accepts builds one slot for each connection if and only if no item between its commas is blank |
| SlotLayout.BuildClientSlotPaths | src/protocol/quic_address.cpp:491-557 | the loops build the layout function, with its failures: for each slot its name, local address, endpoint and peer text |
| SlotLayout.LayoutStaysInStep | src/protocol/quic_session.cpp:1573-1659 | after any sequence of grows, shrinks and stops that leaves a slot, the slot paths equal a fresh build from the configuration |
| SlotLayout.SlotPaths.constructor | src/protocol/quic_session.cpp:1199-1253 | a started session holds a fresh build |
| SlotLayout.SlotPaths.SetDesiredConnectionCount | src/protocol/quic_session.cpp:1573-1605 | in place, grown exactly when allowed, configuration and paths together |
| SlotLayout.SlotPaths.StopHighestConnection | src/protocol/quic_session.cpp:1637-1650 | in place, shrunk exactly when allowed, configuration and paths together |
| Picks.Pick | src/protocol/quic_session.cpp:1380-1405 | a pick succeeds if and only if some slot is pickable, and takes the first pickable position from the counter on |
| Picks.PicksAreFair | src/protocol/quic_session.cpp:1380-1405 | k consecutive picks over k pickable slots take each of them exactly once |
| WireBijection.DecodeUndoesEncode | src/protocol/control_protocol.cpp:102-506 | encoding succeeds exactly on valid messages of all eight types and decoding returns the message |
| WireBijection.EncodeUndoesDecode | src/protocol/control_protocol.cpp:102-506 | whatever a decoder accepts is the encoding of the valid message it returns |
| WireBijection.AcceptedIsPrefixFree | src/protocol/control_protocol.cpp:102-506 | no accepted frame of any type is a proper prefix of another and no bytes are accepted by two decoders |
| WireCodec.PutGet | src/protocol/control_protocol.cpp:7-50 | writing what was read big-endian gives the bytes back |
| WireCodec.GetPut | src/protocol/control_protocol.cpp:7-50 | reading what was written big-endian gives the number back |

## Left out

- msquic, TLS, sockets, the event loop and clocks: their results are choices of the step systems or parameters.
- Diagnostics, tracing, last-error texts, test hooks, and the life of orphaned connections after they are handed over.
- Liveness: nothing is said about when a waiting thread goes on.
- Numeric ids, generations and the pick counter are unbounded; retry tokens and start claims run out at the 64-bit limit as in the source.
- The scheduler is taken to run or keep each retry ticket it accepted; a dropped one would be a stranded slot of its making.
- Growing issues the new slots' numeric ids without other sessions' ids in between.
- The short window of Start in which slots exist and the gate is not yet open.
- Cleanup contexts without an owner, which are freed without being counted.
- Completion callbacks are taken to carry the handle that StartTunnel returns, and StartTunnel to return that handle once its callback has run; accept, reject and cancel functions are taken to be set, as the peer runtime sets them.
- Closing of descriptors after reject and cancel belongs to the tunnel code, which is not part of this model.
- HTTP hosts are kept as text and SOCKS5 addresses as octets: the textual form of addresses and their classification are foreign calls.
- The checker's tokenizer and directive pattern: what a joined line reads as is a parameter, and its condition is given as tokens or as unreadable. Comments and string literals that span lines are not modelled.
- LibuvChecker.SelectionIsSound: stated for texts whose continuations the checker joins as a preprocessor splices them, because a hash line inside continued code, a blank line after two backslashes or a directive word split by a backslash makes it read other lines, as LibuvLimits shows; JointSpacing gives the condition on the text.
- LibuvChecker.SelectionIsExact: stated for the same texts, for the same reason.
- PhysicalProofs.YieldsFollow: stated for the same texts, for the same reason.
- StrandedSlot.CutStrandsSlot: needs start claims to spare, because a start that finds none latches the slot, which then counts as covered.
- IngressReactor.Reactor.Stop: the wait of a second caller for the first is a step of the protocol model, not of this method.
- Whether a condition's text mentions a platform macro is given, not searched for.
- WireBijection.DecodeUndoesEncode: output records that a failing decoder has partly filled are not modelled, because callers must not read them.
