# Verified models of the Pi agent repository's protocols

Dafny models of the stateful cores of this repository, with proofs of what they keep on every run.
`dafny verify dfyconfig.toml` checks everything.

Asynchronous code is modelled at the grain of its awaits: one step is the stretch of code up to the next
await, and an arbitrary scheduler picks the order of steps. Hosts, tools, listeners, transports and timers are
parameters that may answer anything at any time. The protocols are state machines over values; beside each
stands a class whose methods assign the fields the source assigns, and each of those methods is proved to be
exactly the machine's step, so that what is proved of every run holds of the object.

| modules | what they model |
|---|---|
| `Framing`, `MessageCodec` | the incremental frame decoder with its block buffer, as a refinement of a one-shot parser, and the validated message decoder on top of it |
| `RpcProtocol`, `RpcServer`, `RpcClient`, `RpcGate` | the two ends of the RPC protocol, each facing an arbitrary peer |
| `RpcSystem`, `RpcServerSteps`, `RpcClientSteps`, `RpcDelivery`, `RpcSafety` | both ends over two FIFO wires with reconnects: the invariant, its preservation, and the end-to-end theorems |
| `RpcAnswers`, `RpcPromises`, `RpcExamples` | what a request comes to: responses say what the service did, and promises settle with it; a run in which everything arrives |
| `ClientObject`, `ServerObject` | client and server connection as objects |
| `PromiseChain`, `SessionRouter`, `RouterSafety`, `RouterFlow`, `RouterSteps`, `RouterTheorems`, `RouterOrder`, `RouterCalls`, `RouterReleases`, `RouterOutcomes`, `RouterProgress`, `RouterShutdown`, `RouterExamples`, `RouterObject` | the session router: operation chains and their order, single-flight opening, leases and the calls under them, attachment fences, what each operation comes to, shutdown |
| `AgentEvents`, `AgentLedger`, `AgentTools`, `Agent` | the agent loop and the agent: event grammar, the record of its decisions, tool batches, queues, the reducer, whole runs |
| `ModelCatalog`, `ModelEffects`, `ModelData` | generation-checked publication of provider models and its effects; overlay, header merge, tier choice |
| `Connection` | the client connection's lifecycle and attempt fencing |
| `JsonGraph` | the cycle and depth check on shared, possibly cyclic object graphs |
| `Search`, `SearchMeaning` | the transcript search: run-at-a-time corpus, moving span pointer, cache; what a match shows |
| `StableSort` | the stable sort that hit-testing and filtering use |
| `Layout`, `LayoutGeometry`, `LayoutObject` | where boxes are put, recursive clipping, pruned hit-testing, scrollbar arithmetic |
| `Fuzzy` | greedy subsequence matching and stable filtering |

## What turned out false, and exactly when

* With queues drained one at a time, a turn can still take in two queued messages: `Agent.continue()` passes a
  drained follow-up as the prompt without skipping the initial steering poll (`packages/agent/src/agent.ts:378-382`),
  although the comment in `packages/agent/src/agent-loop.ts:191-193` rules this out. `Agent.CrowdedTurn` is a run
  in which it happens; `Agent.Agent.Continue` says it happens if and only if a follow-up is the prompt and a steering
  message arrives before the first poll. `Agent.Agent.Prompt` never does it.
* A session hosted under an id can be displaced by an open whose resolution returns that id although another was
  asked for: `RouterExamples.DisplacedSession` is such a run. `RouterTheorems.HostingOver` gives the exact condition for
  one open; `RouterTheorems.SingleFlight` is the promise on runs in which every id resolves to itself.
* `close()` forgets the chains (`packages/server/src/session-router.ts:142`) while operations submitted during the
  shutdown may still run, and a later operation can then overtake them: `RouterExamples.OvertakenAfterClose`. Until
  shutdown has finished the order is always kept (`RouterTheorems.OperationsInOrder`, `RouterOrder.OrderBeforeClose`).
  On every run, what comes after shutdown included, it is kept if and only if the operations that found no tail in the
  map when they were submitted begin after all earlier ones of their client have settled (`RouterOrder.OrderKeptIff`);
  those that found a tail never break it. A single submission that finds no tail and begins at once keeps the order if
  and only if its client has no unsettled operation (`RouterOrder.SubmittedWithoutTail`), and a run without any
  submission that breaks this rule keeps the order throughout (`RouterOrder.ClearSubmissionsKeepOrder`).
* After an unexpected termination an attachment stays current while its release waits, so a call admitted meanwhile
  can still run when the lease is released: `RouterExamples.ReleasedUnderACall`. On every run a lease is released under
  a running call if and only if a call admitted since the release began is unsettled at that moment
  (`RouterCalls.ReleasedWithCalls`, `RouterCalls.ReleasedUnderLateCalls`), and such calls exist only in sessions that
  have been removed or have ended by themselves (`RouterCalls.LateCallsAreDisturbed`); in every other session it never
  happens (`RouterTheorems.NoReleaseUnderACall`).

## Model

| member | source | states |
|---|---|---|
| Framing.LengthBytes | packages/protocol/src/framing.ts:33-36 | every length up to 2^32-1 becomes four bytes, and reading that header gives the length back |
| Framing.LengthBytesOfLength | packages/protocol/src/framing.ts:74-75 | every header is the header of exactly one length |
| Framing.EncodeFrame | packages/protocol/src/framing.ts:28-39 | refuses exactly the payloads longer than 2^32-1; otherwise a new array holding header and payload |
| Framing.ResolveMaxFrameLength | packages/protocol/src/framing.ts:19-25 | the default when absent; refused exactly outside 0 .. 2^32-1 |
| Framing.ParseStreamAppend | packages/protocol/src/framing.ts:59-130 | one-shot parsing of two pieces equals parsing the second behind what the first left over |
| Framing.ParseWire | packages/protocol/src/framing.ts:28-130 | parsing the encodings of any payload list under the limit returns that list, empty payloads included, and no rest |
| Framing.WireOfParse | packages/protocol/src/framing.ts:59-130 | parsing loses nothing: the stream is its frames re-encoded and an unfinished rest |
| Framing.AcceptedIffWire | packages/protocol/src/framing.ts:59-139 | a stream may be ended without an error if and only if it is the encoding of some payload list under the limit |
| Framing.ChunkingIrrelevant | packages/protocol/src/framing.ts:59-130 | frames, refusal and rest depend only on the concatenated bytes, never on the chunks |
| Framing.JoinBlocks | packages/protocol/src/framing.ts:114-120 | a new array holding the blocks' bytes in order |
| Framing.FrameDecoder.constructor | packages/protocol/src/framing.ts:55-57 | a decoder that has received nothing, with its limit |
| Framing.FrameDecoder.EnsureBlock | packages/protocol/src/framing.ts:94-100 | a block with room, of at most 64 KiB and never more than the payload still needs, no byte moved |
| Framing.FrameDecoder.FillBlock | packages/protocol/src/framing.ts:101-108 | takes exactly as many bytes as fit block and chunk |
| Framing.FrameDecoder.ReadPayload | packages/protocol/src/framing.ts:93-109 | the buffered bytes grow by the bytes read, until frame or chunk is exhausted |
| Framing.FrameDecoder.ReadHeader | packages/protocol/src/framing.ts:67-76 | the header bytes read so far, and the length once there are four |
| Framing.FrameDecoder.TakeFrame | packages/protocol/src/framing.ts:110-126 | hands out the payload as one array and empties the buffers |
| Framing.FrameDecoder.Fail | packages/protocol/src/framing.ts:141-150 | latches the failure and forgets every buffer |
| Framing.FrameDecoder.Advance | packages/protocol/src/framing.ts:66-128 | one round of the loop: at most one frame, or the refusal the one-shot parser makes |
| Framing.FrameDecoder.Push | packages/protocol/src/framing.ts:59-130 | refines the one-shot parser: returns exactly the frames this chunk completes, refuses exactly when a length above the limit is complete, and refuses every later call |
| Framing.FrameDecoder.End | packages/protocol/src/framing.ts:132-139 | succeeds exactly if the bytes received end between frames |
| Framing.FrameDecoder.AllocationBound | packages/protocol/src/framing.ts:93-109 | between pushes all blocks but the last are full, and allocated bytes stay under received payload bytes plus 64 KiB |
| MessageCodec.RoundTrip | packages/protocol/src/codec.ts:39-103 | for an inverse codec pair, messages encoded under a limit decode to the same list, and the stream may be ended there |
| MessageCodec.GoodPrefix | packages/protocol/src/codec.ts:79-92 | cutting a good stream anywhere leaves a good stream whose messages are a prefix |
| MessageCodec.BadForGood | packages/protocol/src/codec.ts:79-92 | no continuation of a bad stream yields a message |
| MessageCodec.AnyChunking | packages/protocol/src/codec.ts:79-92 | however the encoded messages are cut into chunks, every push succeeds and the outputs are the messages in order |
| MessageCodec.MessageDecoder.constructor | packages/protocol/src/codec.ts:72-77 | a decoder that has received nothing |
| MessageCodec.MessageDecoder.DecodeAll | packages/protocol/src/codec.ts:83-85 | decodes the frames of one push, abandoned at the first bad one |
| MessageCodec.MessageDecoder.Push | packages/protocol/src/codec.ts:79-92 | returns the messages this chunk completes exactly if the whole stream so far is good; fails and stays failed otherwise |
| MessageCodec.MessageDecoder.End | packages/protocol/src/codec.ts:94-102 | succeeds exactly if the decoder has neither failed nor ended and the bytes received end between frames; any other call throws, and leaves the decoder failed |
| MessageCodec.SpoiledList | packages/protocol/src/codec.ts:83-91 | one undecodable frame makes the whole push fail |
| PromiseChain.SubmitSerial | packages/server/src/session-router.ts:146-158 | a new job behind the tail found in the map keeps the chain serial |
| PromiseChain.StartSerial | packages/server/src/session-router.ts:146-149 | a job can start only when all earlier jobs have settled and all later ones still wait |
| PromiseChain.CleanupSerial | packages/server/src/session-router.ts:154-156 | removing a settled tail from the map keeps the chain serial |
| PromiseChain.OneAtATime | packages/server/src/session-router.ts:146-158 | while one job runs no other runs or may start |
| PromiseChain.NextCanStart | packages/server/src/session-router.ts:146-158 | a chain never gets stuck: the first job that has not settled is running, or may start |
| RpcProtocol.EncodedAt | packages/server/src/server.ts:438-450 | the piece behind those a decoder has seen is the next update, encoded against exactly that history |
| RpcServer.StepAnswers | packages/server/src/server.ts:223-404 | whatever the client sends and however steps interleave, each response belongs to one handler answered for the first time, the greeting is sent once, and no request is handled before it |
| RpcServer.AtMostOneResponse | packages/server/src/server.ts:223-404 | on every run of a connection against an arbitrary client: for each id no more responses are sent than request envelopes with it have come in, repeated ids and deferred messages counted, and nothing is handled before the greeting |
| RpcGate.HandlerEffect | packages/server/src/server.ts:334-450 | each step of a handler extends its encoder's stream by exactly the pieces it sends, and accounts for every published update as encoded, held, or dropped behind a removed encoder |
| RpcGate.DrainEffect | packages/server/src/server.ts:375-382 | one round of the drain loop encodes the oldest held update; the gate opens only when nothing is held |
| RpcGate.PublishEffect | packages/server/src/server.ts:338-344 | a publication is held while the gate is closed, and otherwise encoded behind everything before it |
| RpcAnswers.AnsweredAsServed | packages/server/src/server.ts:350-404 | on every run against an arbitrary client: when the service has settled a request's call, the request is answered for good with a success if and only if the service did not throw (for a subscription, returned a snapshot), carrying exactly the value returned or none, and while the transport can send that response is sent |
| RpcAnswers.ResponsesAreAnswers | packages/server/src/server.ts:306-404 | and every response ever sent is such an answer, or the failure of a request refused before |
| RpcAnswers.RefusedIff | packages/server/src/server.ts:306-350 | a request is handed to the service if and only if it can be parsed, no other request of its id is being handled and it does not subscribe to a stream that is open; any other is answered with a failure at once |
| RpcAnswers.CancelMarks | packages/server/src/server.ts:298-304 | a cancel handled while the request it names is being handled marks that request's handler, for good |
| RpcAnswers.UnsubscribedIsSilent | packages/server/src/server.ts:358-450 | after a successful unsubscribe nothing more is sent for the subscription, on any continuation that does not subscribe it again |
| RpcAnswers.HelloDecides | packages/server/src/server.ts:208-260 | a connection is refused exactly by a first message that is not a hello and by a later one that is; what comes before the handshake has finished waits in order |
| RpcClient.ClientStepOk | packages/client/src/client.ts:180-377 | against an arbitrary server: ids stay unused ahead, a request leaves the table exactly when settled (aborts apart), and every subscription's decoded updates are delivered, scheduled or queued in order |
| RpcClient.NothingIsForgotten | packages/client/src/client.ts:238-377 | request ids never repeat across reconnects and a settled promise never changes its outcome |
| RpcClient.ReceiveUpdateOk | packages/client/src/client.ts:313-331 | an update waits undecoded before the snapshot, decoded before start(), and is scheduled behind earlier ones after it |
| RpcClient.HydratedOk | packages/client/src/client.ts:197-204 | the snapshot is decoded before the updates queued on the wire, in their order, or the connection fails |
| RpcPromises.ReceivingDecides | packages/client/src/client.ts:304-351 | against an arbitrary server: the connection is given up if and only if a message is not allowed at this point or does not decode; then every pending promise is rejected and every listener dropped |
| RpcSafety.StepKeeps | packages/server/src/server.ts:223-450 | every step of client, server, wires or reconnect keeps the invariant of the composed system |
| RpcServerSteps.HandlerKeeps | packages/server/src/server.ts:306-404 | a handler's step keeps the conservation of requests and the link between encoder, wire and decoder |
| RpcServerSteps.ReceiveKeeps | packages/server/src/server.ts:208-260 | so does taking any message off the wire, at any stage |
| RpcServerSteps.RunDeferredKeeps | packages/server/src/server.ts:252-259 | so does running a message that waited for the handshake |
| RpcClientSteps.IssuedKeeps | packages/client/src/client.ts:238-302 | a new request has an id and a subscription that left no trace anywhere |
| RpcClientSteps.ClientKeeps | packages/client/src/client.ts:210-235 | calls, aborts, start(), deliveries, disposal and loss of the connection keep the invariant |
| RpcDelivery.ReceiveResponse | packages/client/src/client.ts:333-343 | a response answers a pending request, and a snapshot starts the decoder where the encoder started |
| RpcDelivery.ReceiveUpdate | packages/client/src/client.ts:313-331 | the next update on the wire decodes to exactly what the encoder was given |
| RpcDelivery.DeliveryKeeps | packages/client/src/client.ts:304-343 | taking any message the server has sent keeps the invariant |
| RpcSafety.ReconnectKeeps | packages/client/src/client.ts:345-377 | a new connection starts with empty wires; what listeners have seen stays |
| RpcSafety.PendingIsUnanswered | packages/client/src/client.ts:238-377 | on every run the pending table holds exactly the ids sent and not yet answered, each once, while the server can serve; otherwise nothing is on its way that is not in the table |
| RpcSafety.NoViolation | packages/client/src/client.ts:195-343 | on every run no response lacks its request, no stream fails to decode, and the first message is the greeting |
| RpcSafety.PromisesSettle | packages/client/src/client.ts:238-377 | a promise settles once its request has left the table, by an answer or the end of the connection; outcomes never change and ids never repeat |
| RpcSafety.ListenerSeesPrefix | packages/client/src/client.ts:180-331 | a listener has seen a prefix of the published updates, and only after snapshot and start() |
| RpcSafety.NothingIsLost | packages/server/src/server.ts:334-450 | every published update is, in order, delivered, scheduled, waiting for start(), on the wire, dropped behind a removed encoder, or held by the gate; the wire holds exactly the encodings not yet decoded |
| RpcSafety.DeliveredInFull | packages/server/src/server.ts:334-450 | with the gate open, the wire drained and deliveries run, the listener has seen everything published |
| RpcPromises.PromiseTellsService | packages/client/src/client.ts:238-343 | over any run with reconnects: a promise that resolved, or was rejected by the server, belongs to exactly one handler, whose service call was the request's own; it resolved if and only if the service returned (a snapshot, for a subscription), with exactly the value it returned |
| RpcPromises.WhySettled | packages/client/src/client.ts:238-377 | every settled promise settled in one step with one cause: its response taken off the wire, by success or failure; its abort; a frame that could not be encoded; or the end of its connection |
| RpcPromises.ResponseDecides | packages/client/src/client.ts:333-343 | the response to a request settles its promise for good, by success or failure, unless an abort came first |
| RpcPromises.AbortDecides | packages/client/src/client.ts:262-270 | an abort rejects a promise that has not settled, for good |
| RpcExamples.Exchange | packages/client/src/client.ts:172-343 | a concrete run: a subscription and a call, one update published before the snapshot is sent and one after; the call resolves with the service's value and the listener hears both updates in order |
| ClientObject.Client.constructor | packages/client/src/client.ts:62-91 | a client with no requests and no listeners |
| ClientObject.Client.TakePendingRequest | packages/client/src/client.ts:361-368 | returns and removes the entry, if there is one |
| ClientObject.Client.RejectPendingRequests | packages/client/src/client.ts:370-377 | empties the table and rejects every promise not yet settled |
| ClientObject.Client.HandleDisconnected | packages/client/src/client.ts:345-351 | the whole new state of a disconnect |
| ClientObject.Client.LoseConnection | packages/client/src/client.ts:345-351 | the machine's step when the connection goes, invariant kept |
| ClientObject.Client.Request | packages/client/src/client.ts:238-302 | takes the next id, enters the request, and takes it out again when its frame cannot be encoded |
| ClientObject.Client.SubscribeService | packages/client/src/client.ts:180-197 | registers the listener, then sends the subscribe call; keeps the client's invariant |
| ClientObject.Client.PlainRequest | packages/client/src/client.ts:155-157 | the machine's step, invariant kept |
| ClientObject.Client.Resume | packages/client/src/client.ts:206-210 | a listener is dropped when its request failed, and handed out when it is still registered |
| ClientObject.Client.DecodeQueued | packages/client/src/client.ts:200-202 | the loop decodes the queue in order up to the first failure |
| ClientObject.Client.HydrateListener | packages/client/src/client.ts:197-204 | the transform of a subscribe response |
| ClientObject.Client.HandleResponse | packages/client/src/client.ts:333-342 | takes the entry, then settles it by error, decoded snapshot or result, the machine's step of `RpcPromises.ResponseDecides`; an unknown id fails the connection |
| ClientObject.Client.HandleServiceUpdate | packages/client/src/client.ts:313-331 | ignored, queued undecoded, queued decoded, scheduled, or fatal |
| ClientObject.Client.HandleMessage | packages/client/src/client.ts:304-343 | the machine's step for any message in any phase, invariant kept |
| ClientObject.Client.Abort | packages/client/src/client.ts:252-269 | rejects at once and sends a cancel; the entry stays until its response |
| ClientObject.Client.Start | packages/client/src/client.ts:216-220 | schedules what has waited, once, in order |
| ClientObject.Client.Deliver | packages/client/src/client.ts:216-220 | the listener is called with the oldest scheduled update |
| ClientObject.Client.Dispose | packages/client/src/client.ts:221-224 | unregisters the listener |
| ClientObject.Client.ClearQueues | packages/client/src/client.ts:230-233 | empties both queues |
| ServerObject.ServerConnection.constructor | packages/server/src/server.ts:154-162 | a connection that awaits its hello |
| ServerObject.ServerConnection.DispatchMessage | packages/server/src/server.ts:223-260 | the machine's step for any message at any stage |
| ServerObject.ServerConnection.Greet | packages/server/src/server.ts:262-291 | the greeting, unless the connection has gone meanwhile |
| ServerObject.ServerConnection.FinishHandshake | packages/server/src/server.ts:292-295 | ready only if still handshaking |
| ServerObject.ServerConnection.RunDeferred | packages/server/src/server.ts:255-259 | runs the oldest deferred message, or forgets it when not ready |
| ServerObject.ServerConnection.HandleCancel | packages/server/src/server.ts:298-304 | marks the active handler of the id |
| ServerObject.ServerConnection.HandleRequest | packages/server/src/server.ts:306-350 | refused at once for an active id, an unparsable call or a duplicate subscription; otherwise in the table and handed over |
| ServerObject.ServerConnection.InvokeSettled | packages/server/src/server.ts:358-400 | the machine's step of `RpcAnswers.AnsweredAsServed`: a subscription's encoder is installed before its snapshot is sent; a call that threw becomes one failure response |
| ServerObject.ServerConnection.SendSettled | packages/server/src/server.ts:374-403 | one round of the drain loop; the gate opens and the handler leaves the table when nothing is held |
| ServerObject.ServerConnection.Publish | packages/server/src/server.ts:338-344 | held behind the closed gate, else sent |
| ServerObject.ServerConnection.SendServiceUpdate | packages/server/src/server.ts:438-450 | encoded against the encoder's history and sent, or dropped without an encoder |
| ServerObject.ServerConnection.Leave | packages/server/src/server.ts:401-403 | the entry is removed unless its id has been taken over |
| ServerObject.ServerConnection.Disconnect | packages/server/src/server.ts:417-426 | once: table and encoders are cleared |
| ServerObject.ServerConnection.FailProtocol | packages/server/src/server.ts:474-487 | a refusal is the last message, once |
| RouterSteps.StepKeeps | packages/server/src/session-router.ts:47-311 | every step of the router keeps the invariant about leases, current attachments, chains and fences |
| RouterFlow.StartKeeps | packages/server/src/session-router.ts:146-232 | so does an operation whose turn has come |
| RouterFlow.ContinueKeeps | packages/server/src/session-router.ts:164-260 | so does an operation resumed after any of its awaits |
| RouterTheorems.LeasesReleasedOnce | packages/server/src/session-router.ts:234-260 | on every run each lease is released at most once, and one not released belongs to an attachment in its session's set |
| RouterTheorems.NoReleaseUnderACall | packages/server/src/session-router.ts:216-252 | unless its own session has been removed or has ended by itself, no call admitted through an attachment is still running when its lease is being or has been released |
| RouterTheorems.RetiredForever | packages/server/src/session-router.ts:160-260 | an attachment id replaced or cleared is never accepted again on any continuation of a run |
| RouterTheorems.CallsThroughCurrent | packages/server/src/session-router.ts:199-232 | a call is forwarded only through its client's current attachment, naming that session and that attachment id |
| RouterTheorems.OperationsInOrder | packages/server/src/session-router.ts:146-158 | until shutdown has finished, a client's operations run one at a time in submission order |
| RouterTheorems.SingleFlight | packages/server/src/session-router.ts:262-300 | if every id resolves to itself, at most one open per id runs, and none while a session is hosted under it |
| RouterTheorems.HostingOver | packages/server/src/session-router.ts:276-300 | settling an open keeps every hosted session hosted if and only if none is hosted under the id it resolves to |
| RouterProgress.OpenHostsIff | packages/server/src/session-router.ts:276-300 | on every run: an open that settles hosts a new, empty session under the id it resolves to if and only if it succeeded and the router is not closing; otherwise nothing is hosted |
| RouterReleases.LeavingReleases | packages/server/src/session-router.ts:65-101 | on every run: when a disconnect or detach has settled, the attachment its client had when its turn came is over, nobody's current one and in no session's set, and its lease, if granted, has been released exactly once |
| RouterReleases.SwitchingReleases | packages/server/src/session-router.ts:160-173 | and an attach operation makes an attachment only when the same is true of the one its client had when its turn came |
| RouterProgress.AttachSettlesForAReason | packages/server/src/session-router.ts:160-197 | on every run: an attach operation settles only because it is refused or already attached when its turn comes, because its attachment has become the client's own and its notice has settled, or because it is refused by then, the open, the previous release or the lease failed, or the attachment was undone |
| RouterProgress.GoesOnWhenReady | packages/server/src/session-router.ts:160-252 | a suspended operation goes on if and only if what it waits for has settled, and then settles or comes further, so it never waits in a circle |
| RouterProgress.ReleaseGoesOn | packages/server/src/session-router.ts:234-252 | a release goes on if and only if the calls it found have settled and the host has answered: to releasing the lease once, or, without one, to its end |
| RouterOutcomes.LeaseAsAnswered | packages/server/src/session-router.ts:174-181 | the host's first answer decides for good whether a lease is held |
| RouterOutcomes.InstalledIff | packages/server/src/session-router.ts:182-196 | once its lease is granted an attachment becomes the client's own if and only if its session is still hosted, it is still in the session's set, the client is not leaving and the router not closing; otherwise its release has begun |
| RouterOutcomes.AttachesToTheSession | packages/server/src/session-router.ts:160-274 | if every id resolves to itself, every attachment is in the session that its attach operation asked for |
| RouterOutcomes.ToldIff | packages/server/src/session-router.ts:234-260 | when a release ends the client is told if and only if the attachment is still its current one and the release was not begun by its leaving or switching |
| RouterOutcomes.CallAdmittedIff | packages/server/src/session-router.ts:199-232 | a call is admitted, and counted among the running calls of its client's attachment, if and only if it names that attachment and its session, the client is not leaving and the router not closing |
| RouterOutcomes.TerminatedReleases | packages/server/src/session-router.ts:302-311 | a session that ends by itself is hosted no more, and all attachments in it are being released from then on |
| RouterOutcomes.RemovalReleases | packages/server/src/session-router.ts:72-80 | so for a session that is removed, which stays hosted meanwhile |
| RouterOutcomes.RemovalEnds | packages/server/src/session-router.ts:76-86 | it is unhosted if and only if all attachments the removal found are gone |
| RouterShutdown.ShutdownReleasesAll | packages/server/src/session-router.ts:103-144 | when close() has settled, every lease granted in a session hosted after the drain has been released exactly once |
| RouterShutdown.StepClose | packages/server/src/session-router.ts:103-144 | what the drain has waited for stays true: no attach is left, so no attachment is added any more |
| RouterProgress.CloseMovesOn | packages/server/src/session-router.ts:108-142 | close() moves from draining to emptying to closing handles to finished exactly when the operations and opens it found have settled, all attachments it waits for are over, and the handles have answered; then exactly the sessions whose handle failed stay hosted |
| RouterOrder.ChainStep | packages/server/src/session-router.ts:47-158 | every step changes a client's chain only by submitting an operation, by beginning the one whose turn it is, or by settling running ones and forgetting the tail |
| RouterOrder.OrderKeptIff | packages/server/src/session-router.ts:134-158 | on every run, after shutdown has finished too: the operations of a client begin one at a time in submission order if and only if those that found no tail in the map begin after all earlier ones have settled |
| RouterOrder.ClearSubmissionsKeepOrder | packages/server/src/session-router.ts:134-158 | so the order is kept on every run on which no submission finds the tail gone while an operation of its client is unsettled |
| RouterOrder.SubmittedWithoutTail | packages/server/src/session-router.ts:146-158 | a submission that finds no tail and begins at once keeps the order if and only if all its client's earlier operations have settled |
| RouterOrder.OrderBeforeClose | packages/server/src/session-router.ts:141-158 | until shutdown has finished the order is always kept |
| RouterExamples.OvertakenAfterClose | packages/server/src/session-router.ts:103-158 | a concrete run in which, after close(), a second detach overtakes the first |
| RouterExamples.DisplacedSession | packages/server/src/session-router.ts:276-300 | a concrete run in which a hosted session is displaced by another resolved to its id |
| RouterExamples.ReleasedUnderACall | packages/server/src/session-router.ts:234-252 | a concrete run in which a terminated session's lease is released while a call admitted through it runs |
| RouterCalls.ReleasedUnderLateCalls | packages/server/src/session-router.ts:216-252 | on every run: once a lease is being or has been released, a call of its attachment is still running if and only if one is that was admitted after the release had begun |
| RouterCalls.ReleasedWithCalls | packages/server/src/session-router.ts:234-252 | on every run: the release of a lease goes ahead under a running call if and only if a call admitted since the release began is unsettled at that moment |
| RouterCalls.LateCallsAreDisturbed | packages/server/src/session-router.ts:199-252 | calls are admitted after the release has begun only in sessions that have been removed or have ended by themselves |
| RouterObject.SessionRouter.constructor | packages/server/src/session-router.ts:34-45 | the empty router, in which the invariant holds |
| RouterObject.SessionRouter.RunForClient | packages/server/src/session-router.ts:146-158 | the operation behind the client's tail, and the new tail; attaching refused while closing |
| RouterObject.SessionRouter.ForgetTail | packages/server/src/session-router.ts:154-156 | a settled operation leaves the map only if it is still the tail |
| RouterObject.SessionRouter.ForgetLeaving | packages/server/src/session-router.ts:98-100 | a client that has left may come back |
| RouterObject.SessionRouter.TakeTurn | packages/server/src/session-router.ts:47-101 | an operation up to its first await is the machine's step, invariant kept; `RouterReleases` and `RouterProgress` say what the operations come to |
| RouterObject.SessionRouter.Resume | packages/server/src/session-router.ts:164-197 | an operation from one await to the next is the machine's step, invariant kept |
| RouterObject.SessionRouter.AttachClientNow | packages/server/src/session-router.ts:160-164 | refused while draining or disconnecting, done when already attached, else the session is acquired |
| RouterObject.SessionRouter.AfterAcquire | packages/server/src/session-router.ts:165-175 | refused by now, or the old attachment is released first, or a new one enters the session's set |
| RouterObject.SessionRouter.AfterLease | packages/server/src/session-router.ts:175-197 | the attachment is given up, undone, or made the client's own |
| RouterObject.SessionRouter.Install | packages/server/src/session-router.ts:191-196 | the attachment becomes the client's current one, and the operation waits for the notice |
| RouterObject.SessionRouter.Acquire | packages/server/src/session-router.ts:262-274 | the hosted session, or the open in progress, or a new open |
| RouterObject.SessionRouter.RequireAttachment | packages/server/src/session-router.ts:224-232 | accepts exactly the client's current attachment with matching session and attachment ids |
| RouterObject.SessionRouter.TrackOperation | packages/server/src/session-router.ts:216-222 | the call joins its attachment's set |
| RouterObject.SessionRouter.RemoveOperation | packages/server/src/session-router.ts:218-221 | a settled call leaves its attachment's set |
| RouterObject.SessionRouter.ReleaseAttachment | packages/server/src/session-router.ts:234-252 | only the first call begins the release, with the calls running now |
| RouterObject.SessionRouter.ReleaseAll | packages/server/src/session-router.ts:121-125 | the loop begins the release of each attachment of the set |
| RouterObject.SessionRouter.ReleaseLease | packages/server/src/session-router.ts:238-246 | the lease is released once the calls found have settled; a refused lease is skipped |
| RouterObject.SessionRouter.LeaseAnswered | packages/server/src/session-router.ts:174-181 | the host grants or refuses the lease, once |
| RouterObject.SessionRouter.LeaseReleased | packages/server/src/session-router.ts:247-249 | the attachment is cleared, whatever the outcome |
| RouterObject.SessionRouter.ClearAttachment | packages/server/src/session-router.ts:254-260 | leaves the session's set, and the client's entry only if it is still its own |
| RouterObject.SessionRouter.NoticeSent | packages/server/src/session-router.ts:254-260 | with its notice sent the release is over |
| RouterObject.SessionRouter.OpenSettled | packages/server/src/session-router.ts:276-300 | hosted under the resolved id, or closed again while draining |
| RouterObject.SessionRouter.ForgetOpening | packages/server/src/session-router.ts:271-273 | removed only if it is still the open in the map |
| RouterObject.SessionRouter.Invalidate | packages/server/src/session-router.ts:302-311 | unhosted and all its attachments released, unless it has been displaced |
| RouterObject.SessionRouter.RemoveSession | packages/server/src/session-router.ts:72-79 | releases the attachments found now |
| RouterObject.SessionRouter.FinishRemoval | packages/server/src/session-router.ts:81-86 | unhosted unless displaced meanwhile |
| RouterObject.SessionRouter.BeginClose | packages/server/src/session-router.ts:108-114 | waits for the operations and opens there are now |
| RouterObject.SessionRouter.AttachmentsOf | packages/server/src/session-router.ts:121-125 | the loop finds exactly the attachments in the sets of the given sessions |
| RouterObject.SessionRouter.ReleaseHosted | packages/server/src/session-router.ts:121-125 | after the drain, all attachments of hosted sessions begin their release |
| RouterObject.SessionRouter.CloseHandles | packages/server/src/session-router.ts:129-130 | the handles are closed only after all these releases are over |
| RouterObject.SessionRouter.FinishClose | packages/server/src/session-router.ts:131-142 | sessions whose handle failed stay hosted; clients and chains are forgotten |
| AgentEvents.Balanced | packages/agent/src/agent-loop.ts:96-370 | in every prefix of a run: one agent_start, at most one agent_end, turns alternate with their ends, messages never nest, each finished turn holds exactly one assistant message |
| AgentEvents.RunIsWellFormed | packages/agent/src/agent-loop.ts:96-370 | so in a finished run, in every stretch from its start, with message pairs never crossing a turn |
| AgentEvents.ToolEndsOnce | packages/agent/src/agent-loop.ts:431-561 | in a finished run each tool start event has exactly one later end event, in the same turn, with only its own updates between and none after |
| AgentEvents.ToolHeardAfterStart | packages/agent/src/agent-loop.ts:431-718 | no update or end event without an earlier start in the same turn, and no update after the end |
| AgentEvents.ReportsCounted | packages/agent/src/agent-loop.ts:677-718 | within a turn the reader counts, for each call, its update events since the turn began |
| AgentEvents.PrefixUnbroken | packages/agent/src/agent-loop.ts:96-144 | a prefix of a well-formed run is well-formed |
| AgentTools.PendingStep | packages/agent/src/agent-loop.ts:443-540 | the set of pending tool-call ids follows start and end events |
| AgentTools.UndisturbedHonours | packages/agent/src/agent-loop.ts:607-765 | a call no abort disturbs: an error if there is no such tool, its arguments are invalid or the hook before it blocks it, with the hook's content and terminate flag when blocked; otherwise an error if and only if the run threw, with the run's content and flag, except for what the hook after it replaces; and it is run if and only if it is not refused |
| AgentTools.Results | packages/agent/src/agent-loop.ts:784-798 | one result message per call, with its id, its outcome and the calls in their order |
| AgentTools.ReduceOk | packages/agent/src/agent.ts:544-582 | reducing one more event keeps the state equal to its old messages followed by the message_end projection, with the running tool calls pending |
| Agent.PendingMessageQueue.Enqueue | packages/agent/src/agent.ts:133-135 | behind what is queued |
| Agent.PendingMessageQueue.Drain | packages/agent/src/agent.ts:141-154 | everything, or only the oldest, by mode; nothing lost or reordered |
| Agent.Agent.Emit | packages/agent/src/agent.ts:544-591 | the event is reduced, then time passes; the state follows the trace |
| Agent.Agent.Reduce | packages/agent/src/agent.ts:545-582 | the event switch |
| Agent.Agent.StreamAssistantResponse | packages/agent/src/agent-loop.ts:279-370 | one message pair, the result at the end of the context in place of the partial one, for any stream that follows the event protocol |
| Agent.Agent.ExecuteCall | packages/agent/src/agent-loop.ts:443-470 | one start, its updates, one end; unless aborted, the outcome of `AgentTools.UndisturbedHonours`, with all of the run's updates if it is run; a refused call is never run and reports nothing |
| Agent.Agent.ExecuteSequential | packages/agent/src/agent-loop.ts:431-485 | results in the calls' order for a prefix of the calls, all of them unless aborted, and then each outcome as arguments, hooks and run call for; a refused call reports nothing, any other as often as its run, or never after an abort; terminate exactly if there are calls and all of them ask for it |
| Agent.Agent.FailTruncated | packages/agent/src/agent-loop.ts:379-404 | every call answered by an error, none executed |
| Agent.Agent.StartAll | packages/agent/src/agent-loop.ts:497-545 | every call started in order until an abort; those that end at once have ended |
| Agent.Agent.BeginAll | packages/agent/src/agent-loop.ts:520-549 | the prepared calls begin in order, each running to its first await, where it may report, enqueue and abort, before the next begins; those that come after an abort, also by a call of the same sweep, end at once as aborted |
| Agent.Agent.Fly | packages/agent/src/agent-loop.ts:677-718 | one call in flight takes one step; an update after its run has returned is dropped |
| Agent.Agent.LandAll | packages/agent/src/agent-loop.ts:547-549 | whatever the interleaving, every call in flight ends exactly once |
| Agent.Agent.TellResults | packages/agent/src/agent-loop.ts:550-555 | one message per outcome, in the calls' order |
| Agent.Agent.ExecuteParallel | packages/agent/src/agent-loop.ts:487-561 | for every interleaving, the same contract as the sequential mode, the calls' outcomes and reports included |
| Agent.Agent.ExecuteToolCalls | packages/agent/src/agent-loop.ts:409-424 | failed, sequential or parallel, with that contract |
| Agent.ModesAgree | packages/agent/src/agent-loop.ts:431-561 | if nothing aborts and outcomes depend only on the call, both modes return the same messages and the same flag, one message per call with the outcome its arguments, hooks and run call for |
| Agent.Agent.InjectPending | packages/agent/src/agent-loop.ts:200-209 | pending messages are told, and enter context and new messages, in order |
| Agent.Agent.PollSteering | packages/agent/src/agent-loop.ts:257-257 | takes from the queue only when nothing is pending |
| AgentLedger.FollowUpsComeLast | packages/agent/src/agent-loop.ts:156-273 | in every run: follow-ups are asked for only right after a turn that has not failed and whose calls want no further turn, when the hook does not stop the run and the steering poll just before was empty |
| AgentLedger.EndsForAReason | packages/agent/src/agent-loop.ts:211-273 | a completed run ends because its last turn failed, because the hook stops it, or after such a turn with both polls empty |
| AgentLedger.TurnsHaveReasons | packages/agent/src/agent-loop.ts:169-269 | every turn but the first comes after one that has not failed and a stop hook that does not stop, and for a reason: tool results that want it, or a poll since then that found messages; before it the preparation hook has been asked exactly once, with nothing told since the last turn ended |
| AgentLedger.OwedTurnFollows | packages/agent/src/agent-loop.ts:217-257 | when tool results want another turn and the hook does not stop the run, the next event is the start of a turn, with only its preparation and polls of steering before it and no poll of follow-ups |
| AgentLedger.ContextAtTurnEnd | packages/agent/src/agent-loop.ts:176-250 | in every record that follows the rules: at each turn's end the context is what the run began with followed by everything told so far, if no answer of the preparation hook has replaced it; otherwise the last replacement followed by what has been told since |
| Agent.Agent.TurnEndContext | packages/agent/src/agent-loop.ts:176-250 | so at each turn_end of every run of the agent, finished or cut off, with the transcript before the run and the answers the hook gave when it was asked |
| Agent.Agent.PollFollowUps | packages/agent/src/agent-loop.ts:260-266 | takes what the queue hands out and records it; allowed only when the record ends in a turn with nothing owed and an empty steering poll |
| Agent.Agent.AskStop | packages/agent/src/agent-loop.ts:245-255 | the stop hook is asked once after each turn that has not failed, and its answer recorded |
| Agent.Agent.PickUp | packages/agent/src/agent-loop.ts:190-197 | steering is polled again before a turn only if the earlier poll returned nothing |
| Agent.Agent.AskPrepare | packages/agent/src/agent-loop.ts:176-189 | asked when another turn is wanted, with nothing told since the last one ended; an answer replaces the context, and is recorded with the time it was asked for |
| Agent.Agent.PrepareTurn | packages/agent/src/agent-loop.ts:176-198 | the new context is the hook's answer if it gives one and the old context otherwise; the record grows by that answer, by a steering poll exactly if nothing was pending, and by the turn's start |
| Agent.Agent.TakeTurn | packages/agent/src/agent-loop.ts:200-243 | returned messages, told messages and context stay in agreement, and the context goes on record with the turn's end; no tool call stays pending; unless the run is aborted or the response failed, every call is answered with the outcome its arguments, hooks and run call for, and with an error if the response was cut off; another turn is owed exactly if the response did not fail, it has calls, and not all their results ask to terminate |
| Agent.Agent.Round | packages/agent/src/agent-loop.ts:175-257 | a turn, the ways a run can end after it, and the steering poll keep the loop's invariant; `hasMoreToolCalls` is what the response and its results call for, and a response that has not failed gets for every call the result it calls for unless the run is aborted |
| Agent.Agent.RunTurns | packages/agent/src/agent-loop.ts:171-258 | the inner loop goes on exactly while tool results want a turn or messages are pending; every decision is recorded as the rules of the record ask |
| Agent.Agent.RunOuter | packages/agent/src/agent-loop.ts:168-270 | the outer loop goes on exactly while follow-ups are found |
| Agent.Agent.RunLoop | packages/agent/src/agent-loop.ts:156-273 | a completed run has one last agent_end carrying exactly the told messages, and a complete record; a run cut off by the bound on turns keeps event grammar, transcripts, queues and record so far; the record says with which context each turn ended; turns are crowded only as the first poll allows |
| Agent.Agent.RunAgentLoop | packages/agent/src/agent-loop.ts:96-144 | the same from agent_start on, for a prompted run and for a continuation |
| Agent.Agent.FinishRun | packages/agent/src/agent.ts:529-535 | idle again; each queue's history is what has been told from it followed by what is still queued |
| Agent.Agent.RunWithLifecycle | packages/agent/src/agent.ts:486-509 | state messages grow by exactly the returned messages; what a completed run has told from each queue is added to that queue's told history, and an interrupted run adds nothing |
| Agent.Agent.Prompt | packages/agent/src/agent.ts:350-423 | the finished run's guarantees, with each queue's told history grown by exactly what this run told from it, and with queues drained one at a time no turn takes in two queued messages |
| Agent.Agent.Continue | packages/agent/src/agent.ts:361-388 | refused exactly without messages or with nothing queued behind an assistant message, and then messages and told histories stay; each queue's told history grows by exactly what a completed run told from it; with queues drained one at a time a turn takes in two queued messages if and only if a follow-up is the prompt and steering arrives before the first poll |
| Agent.CrowdedTurn | packages/agent/src/agent.ts:378-382 | a concrete run of continue(), with both queues drained one at a time, in which one turn takes in two queued messages |
| ModelCatalog.StepKeeps | packages/ai/src/models.ts:325-458 | every step keeps the invariant of a provider's publications |
| ModelCatalog.EveryRun | packages/ai/src/models.ts:343-370 | on every run store writes never overlap, and writes and memory updates come in non-decreasing generations |
| ModelCatalog.StaleForGood | packages/ai/src/models.ts:350-363 | a publication superseded or aborted before its turn does nothing on any continuation; one superseded in mid-write never updates memory |
| ModelCatalog.SupersededForGood | packages/ai/src/models.ts:325-370 | after a supersede or an abort, on every continuation: no publication of that time updates memory, and one whose turn had not come does nothing |
| ModelCatalog.UpdateAgreesWithStore | packages/ai/src/models.ts:354-363 | a memory update that came with a write leaves store and memory agreeing |
| ModelEffects.StoreAndMemory | packages/ai/src/models.ts:343-363 | on every run the store is what the last successful write or deletion asked for, and memory what the last update brought |
| ModelEffects.TurnDecides | packages/ai/src/models.ts:350-361 | when its turn comes a publication writes, or with nothing to store updates memory, if and only if its refresh has been neither superseded nor aborted by then |
| ModelEffects.WriteDecides | packages/ai/src/models.ts:354-363 | when its write ends it updates memory if and only if the write succeeded and the refresh has still been neither superseded nor aborted |
| ModelEffects.CurrentMeans | packages/ai/src/models.ts:325-341 | neither superseded nor aborted: the refresh is the last one begun, and its caller has not aborted it |
| ModelEffects.SomeoneGoesOn | packages/ai/src/models.ts:343-370 | no publication is stuck: the first one not settled is writing, or its turn has come |
| ModelCatalog.ModelsImpl.constructor | packages/ai/src/models.ts:268-272 | no provider has a generation |
| ModelCatalog.ModelsImpl.SupersedeProviderRefresh | packages/ai/src/models.ts:325-334 | the next generation; the refresh in progress is aborted; other providers untouched |
| ModelCatalog.ModelsImpl.BeginProviderRefresh | packages/ai/src/models.ts:336-341 | a new generation with a controller of its own |
| ModelCatalog.ModelsImpl.FinishProviderRefresh | packages/ai/src/models.ts:436-440 | the controller is given up only if it is still the refresh's own |
| ModelCatalog.ModelsImpl.AbortRefresh | packages/ai/src/models.ts:405-405 | the combined signal of the refresh is aborted |
| ModelCatalog.ModelsImpl.ClearProviders | packages/ai/src/models.ts:284-289 | the loop supersedes exactly the providers known or being refreshed |
| ModelCatalog.ModelsImpl.PublishProviderModels | packages/ai/src/models.ts:343-370 | queued behind the tail in the map, and the new tail |
| ModelCatalog.ModelsImpl.TakeTurn | packages/ai/src/models.ts:350-361 | dropped when superseded or aborted; otherwise the write starts, or memory is updated at once |
| ModelCatalog.ModelsImpl.ResumeAfterWrite | packages/ai/src/models.ts:354-363 | the machine's step of `ModelEffects.WriteDecides`: the store after a successful write, and memory only if still current |
| ModelCatalog.ModelsImpl.ForgetTail | packages/ai/src/models.ts:366-368 | removed only if it is still the tail |
| ModelData.CurrentModels | packages/ai/src/models.ts:779-786 | the overlay of the dynamic models over the baseline |
| ModelData.OverlayFind | packages/ai/src/models.ts:779-786 | a lookup finds the last dynamic model of the id, and the first baseline model only if there is none |
| ModelData.OverlayIds | packages/ai/src/models.ts:779-786 | the baseline's ids in order, duplicates included, then each new id once in order of first appearance |
| ModelData.DuplicatesStay | packages/ai/src/models.ts:779-786 | a later duplicate in the baseline is never replaced |
| ModelData.MergeHeaders | packages/ai/src/models.ts:243-257 | absent exactly if both are; otherwise the merged headers |
| ModelData.DeleteVariants | packages/ai/src/models.ts:251-254 | the inner loop removes exactly the spellings of the name |
| ModelData.OverrideWins | packages/ai/src/models.ts:243-257 | names ignore case (section 5.1 of RFC 9110): an overridden name keeps its last override alone, every other name keeps what base had |
| ModelData.MergeAssociates | packages/ai/src/models.ts:243-257 | merging in two steps or in one gives the same headers in the same order |
| ModelData.ChooseRates | packages/ai/src/models.ts:891-900 | the rates of the highest tier exceeded, the first of several equal ones, or the base rates |
| ModelData.ApplicableUnique | packages/ai/src/models.ts:891-900 | that determines the rates |
| ModelData.CalculateCost | packages/ai/src/models.ts:891-911 | each kind of token at its rate per million, one-hour cache writes at twice the input rate, and their sum |
| Connection.MessagesWhileOn | packages/client/src/connection.ts:163-213 | a message notice comes after its attempt's handshake and connected notices, with no disconnect notice between |
| Connection.Connection.constructor | packages/client/src/connection.ts:47-57 | disconnected, nothing told |
| Connection.Connection.Fail | packages/client/src/connection.ts:234-240 | a pending promise is rejected, then the disconnect is told, once; nothing happens when already disconnected |
| Connection.Connection.Disconnect | packages/client/src/connection.ts:93-96 | the same on request |
| Connection.Connection.Connect | packages/client/src/connection.ts:67-91 | an attempt with a number of its own, or none when not disconnected |
| Connection.Connection.TransportOpened | packages/client/src/connection.ts:120-141 | the attempt still being made gets its transport, or ends when the factory fails; a transport for any other attempt changes nothing |
| Connection.Connection.TransportEnded | packages/client/src/connection.ts:82-87 | ends the attempt it belongs to and no other |
| Connection.HeardInOrder | packages/client/src/connection.ts:143-213 | of the messages of a chunk the callbacks hear the first ones in their order, none left out, and all of them while the connection stays |
| Connection.ChunkDecides | packages/client/src/connection.ts:143-213 | a connection survives a chunk if and only if it consists of messages to pass on, behind this server's own hello while connecting, and no callback gives it up; otherwise it ends with the first message that breaks this rule, all before it passed on; the promise resolves if and only if the hello established the connection, whatever came later |
| Connection.Connection.HandleData | packages/client/src/connection.ts:143-161 | data tagged with another attempt changes nothing; a chunk that is early or rejected ends the attempt; otherwise the attempt takes exactly the course its messages and callbacks set, and survives exactly under the rule of `ChunkDecides` |
| Connection.Connection.HandleMessages | packages/client/src/connection.ts:157-160 | the loop over a chunk's messages |
| Connection.Connection.HandleMessage | packages/client/src/connection.ts:163-213 | lifecycle, callbacks and promise afterwards: the hello establishes, anything else before it and a second hello end the attempt, everything else is passed on; a callback may give the connection up |
| Connection.Connection.Establish | packages/client/src/connection.ts:186-205 | connected first, then both callbacks, and the promise resolves only if neither gave the connection up |
| JsonGraph.CycleRejected | packages/chord/src/json.ts:8-50 | no value on a cycle is accepted, so the ancestor test changes no answer |
| JsonGraph.AcceptsIffUnfolds | packages/chord/src/json.ts:8-50 | accepted if and only if the value unfolds to a well-formed tree of height at most 512, on any shared or cyclic graph |
| JsonGraph.Checker.Check | packages/chord/src/json.ts:8-50 | answers what the check without ancestors answers, and restores the ancestor set, which is the current path |
| JsonGraph.Checker.CheckSlots | packages/chord/src/json.ts:18-45 | the loop over the slots, stopping at the first refusal |
| JsonGraph.IsJsonValue | packages/chord/src/json.ts:4-6 | true if and only if the value unfolds to a well-formed tree of height at most 512 |
| Search.AddAsciiLine | packages/tui/src/alt-screen-search.ts:53-78 | a run at a time gives the text and, condensed, the spans of one character at a time |
| Search.AddWideLine | packages/tui/src/alt-screen-search.ts:79-101 | one span per grapheme |
| Search.BuildSearchCorpus | packages/tui/src/alt-screen-search.ts:34-106 | for any lines: the plain corpus's text, and spans that expand to its spans, in text order |
| Search.ExpandAdds | packages/tui/src/alt-screen-search.ts:127-142 | the condensed spans show every match where the one-character spans do |
| Search.SegmentsOf | packages/tui/src/alt-screen-search.ts:125-143 | scanning from the moving pointer to the first span behind the match gives the segments of all spans |
| Search.FindSearchCorpusMatches | packages/tui/src/alt-screen-search.ts:116-148 | for every increasing list of matches, the moving pointer yields the segments that filtering all spans yields |
| Search.SameMatches | packages/tui/src/alt-screen-search.ts:116-148 | the condensed and the plain corpus give the same matches |
| Search.FindAltScreenSearchMatches | packages/tui/src/alt-screen-search.ts:186-189 | the plain definition |
| Search.AltScreenSearchIndex.Search | packages/tui/src/alt-screen-search.ts:162-183 | after any history of calls, what the uncached function returns; changed exactly when the rendered lines or the normalised query differ from the last call's |
| SearchMeaning.CorpusReads | packages/tui/src/alt-screen-search.ts:34-106 | the corpus holds the text of every visible cell once, in reading order, with exactly one space wherever a blank cell or a line end lies between two of them, and a span with the cell's row and columns for each |
| SearchMeaning.SegmentsShow | packages/tui/src/alt-screen-search.ts:125-143 | a match lights up exactly the columns of the cells it meets, in segments in reading order with a column between any two on a row |
| SearchMeaning.MatchesShow | packages/tui/src/alt-screen-search.ts:116-148 | one entry for each match that meets a cell, in the order of the matches, each showing exactly its match |
| SearchMeaning.SearchShows | packages/tui/src/alt-screen-search.ts:186-189 | so a search shows exactly the matches of the normalised query in the text of the visible cells, and nothing for an empty query |
| Layout.IntersectIs | packages/tui/src/layout.ts:60-66 | the intersection of the two point sets, empty ones included |
| Layout.LayoutClips | packages/tui/src/layout.ts:106-247 | in every laid-out tree a box shows exactly the points of its rectangle that its parent shows |
| Layout.UpdatedClips | packages/tui/src/layout.ts:101-104 | so after re-clipping, whatever the clips were |
| Layout.ClipMeansCovered | packages/tui/src/layout.ts:101-104 | a clip contains exactly the points that the box and all its ancestors cover |
| LayoutGeometry.LayoutArranges | packages/tui/src/layout.ts:106-247 | in every laid-out tree: a box sits where it was put with the width it was given, as tall as it was told or exactly as its content; children of a vertical stack are below each other a gap apart, of a horizontal one beside each other a gap apart, stretched or with no space above, below, or equal space up to a row; scrolled content begins its offset above its view, whatever the offset before, and its arrangement does not depend on the offset |
| Layout.Visit | packages/tui/src/layout.ts:417-422 | the pruned visit finds what looking at every box finds, in the same order |
| Layout.VisitScrollViews | packages/tui/src/layout.ts:441-446 | so for scroll views, where the rectangle test changes nothing |
| StableSort.Sort | packages/tui/src/layout.ts:423-446 | the same hits in order, equals in the order of the visit, for any comparison |
| StableSort.OrderedIsUnique | packages/tui/src/layout.ts:423-446 | there is only one such list |
| Layout.GetLayoutBoxesAt | packages/tui/src/layout.ts:415-425 | exactly the boxes whose clip contains the point, by layer and then deepest first |
| Layout.GetScrollViewsAt | packages/tui/src/layout.ts:439-449 | exactly the scroll views covering the point with all their ancestors, deepest first |
| Layout.ScrollbarOf | packages/tui/src/layout.ts:288-306 | the thumb is not empty, lies inside the track under any rounding, sits at its ends when the content does, and otherwise within half a row of the share of the content scrolled past |
| Layout.ThumbHeight | packages/tui/src/layout.ts:288-292 | between one row and the track; the whole track when the content fits, otherwise within half a row of the share of the content shown, or two rows |
| LayoutObject.LayoutBox.TranslateBox | packages/tui/src/layout.ts:96-99 | moves the whole subtree, clips and shape untouched |
| LayoutObject.LayoutBox.UpdateClipsBelow | packages/tui/src/layout.ts:101-104 | recomputes every clip below from the one above, in place |
| Fuzzy.LeftmostIsFirst | packages/tui/src/fuzzy.ts:25-57 | no embedding of the query is ahead of the greedy one at any character |
| Fuzzy.Stuck | packages/tui/src/fuzzy.ts:59-61 | when the next character is not found behind the greedy prefix there is no embedding at all |
| Fuzzy.MatchQuery | packages/tui/src/fuzzy.ts:16-68 | succeeds if and only if the query is a subsequence of the text, and then scores the leftmost embedding |
| Fuzzy.Credit | packages/tui/src/fuzzy.ts:32-52 | the points of one more match: rows, gaps, word starts after any whitespace or separator, late places |
| Fuzzy.ScoreIsUnique | packages/tui/src/fuzzy.ts:63-67 | the score is a function of query and text |
| Fuzzy.TotalIs | packages/tui/src/fuzzy.ts:32-52 | what the points add up to: two for every character skipped between first and last match, a tenth for every character before each match, ten less for every word start, five less for every pair of matches with nothing skipped between, the start of the text counted as one |
| Fuzzy.ScoreIs | packages/tui/src/fuzzy.ts:16-68 | so the score of a query that matches, a hundred less when query and text are the same |
| Fuzzy.SwapQuery | packages/tui/src/fuzzy.ts:75-81 | letters then digits, or digits then letters, the other way round; nothing otherwise |
| Fuzzy.FuzzyMatch | packages/tui/src/fuzzy.ts:12-93 | matches if and only if the query or its swap is a subsequence, with the score of the first that does, plus 5 for the swap |
| Fuzzy.MatchScoreIsUnique | packages/tui/src/fuzzy.ts:70-92 | the score is a function of query and text |
| Fuzzy.ScoreItem | packages/tui/src/fuzzy.ts:115-128 | every token matches, or it stops; the scores add up |
| Fuzzy.FilterIsUnique | packages/tui/src/fuzzy.ts:99-137 | that determines the answer: one list of results satisfies it |
| Fuzzy.FuzzyFilter | packages/tui/src/fuzzy.ts:99-137 | exactly the items on which every token matches, by non-decreasing total score, ties in input order; all items when there is no token |

## Left out

- CBOR (RFC 8949), the message schemas and the service state codec: any functions with the stated inverse laws; a codec that has seen the same history decodes what the encoder encodes.
- Message contents: requests carry an id and the kind of call. Targets, error codes and versions are not kept apart; a wrong version or server id is the step in which the server refuses the connection.
- Frames that cannot be encoded or sent by the server: the transport is gone from then on, which is a step of its own.
- Low-level `Client.request` used to send a hand-made subscribe call, and publications to another subscription than the handler's own.
- `Client.dispose`, attachment notices' contents, and the old server connection after a reconnect, whose further messages reach nobody.
- Callbacks and listeners that throw, and a state listener that connects while a chunk is being dispatched.
- Aliasing: subscriptions, handlers, attachments, sessions and opens are values in maps and sequences under a number; the closures that share them are represented by that number.
- Promise internals: a promise is its first outcome; the order of microtasks is an arbitrary schedule.
- RouterTheorems.NoReleaseUnderACall: stated for attachments of sessions that have neither been removed nor ended by themselves, for the reason given above; `RouterCalls` says what holds for the others.
- RouterTheorems.OperationsInOrder: stated until shutdown has finished, for the reason given above; `RouterOrder.OrderKeptIff` covers what follows.
- RouterTheorems.SingleFlight: stated for hosts that resolve every id to itself, for the reason given above.
- RouterOutcomes.AttachesToTheSession: stated for hosts that resolve every id to itself, for the same reason.
- RouterShutdown.ShutdownReleasesAll: says nothing about sessions whose removal or termination is still under way when the drain ends.
- Errors collected by the router's shutdown and removal, and their reporting.
- Agent.Agent.RunLoop: `fuel` bounds the number of turns; a run that needs more is cut off and returned as not completed. Its contract holds for the part so far, hence for every prefix of a run that never ends.
- Streams without the event protocol's single start, `handleRunFailure`, `clear()` and changes of the queue mode during a run, prompt normalisation, model settings and tool arguments. Messages from outside may have any role, so responses are recognised by where they came from.
- Hooks that change the context or the message lists they are given in place: `prepareNextTurn` replaces the context by its answer only.
- Credentials, the network and the provider's own `refreshModels`: publications arrive from any refresh at any time.
- ModelData.CalculateCost: over reals, so floating-point rounding is not modelled, and the cost is returned instead of being written into the usage record.
- ModelData.MergeHeaders: headers are a list in insertion order; property names that look like array indices, which JavaScript moves to the front, are not set apart.
- Connection: a chunk is given as the messages its decoder made of it; `send` and transport closing leave no trace. Whether a callback gives the connection up is a function of how many callbacks there have been.
- JsonGraph: property descriptors are slots that are valid or not; strings, numbers and prototypes are reduced to what the check asks of them.
- Search: terminal sequences, grapheme segmentation, whitespace folding and the regular expression; a rendered line is read as cells by any function, and a matcher is any function that yields non-empty matches in increasing order.
- Layout.LayoutClips: the tree is built as a value and only scrolling and re-clipping work in place; painting, line offsets, the render cache, parent pointers and the allocation of stack sizes are not modelled. Every box laid out has layer 0, yet hit-testing is stated for any layers.
- Sorting: JavaScript's stable sort is an insertion sort with the same result.
- Fuzzy: lower-casing and splitting into tokens; scores are reals.
- Sockets, files, timers, processes, command-line entry points, painting and data tables.
