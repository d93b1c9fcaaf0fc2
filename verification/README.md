# A verified model of the JSON-RPC engine

This project models the websocket JSON-RPC engine of hggutils (`jsonrpc/websocket.go`,
`client.go`, `handler.go`, `server.go`, `util.go`) and its reader parameters
(`jsonrpc/httpio/reader.go`), and proves what the engine promises: streamed values arrive
complete and in order, every call is answered once, cancellation hits only its own call,
streams close once, retries follow connection loss only, and a slow reader blocks nobody.

## How it is built

One step of the central state machine (`Engine`) is one iteration of a select loop or one
action of a goroutine, on a client and a server joined by a connection that can be lost and
redialled. Any number of calls, streams, pings and cancellations interleave freely. The
theorems hold in every state that any sequence of steps reaches.

| file | models |
|---|---|
| `basics.dfy`, `wire.dfy` | requests, responses and frames as JSON objects; encoding, decoding, routing |
| `pipes.dfy` | one direction of a connection: `writeChan`, `keepAliveChan`, the wire, `frameChan` |
| `sinks.dfy` | the buffering goroutine and the sink of a streamed result |
| `handler.dfy` | the method table, `handle`, `rpcError`, `doCall` |
| `outchans.dfy` | `handleOutChans` and its two arrays |
| `clientconn.dfy`, `serverconn.dfy` | each end of a connection, against an arbitrary other end |
| `engine.dfy` | both ends joined, callers, retries, cancellations, loss and redial |
| `invariants.dfy`, `preservation.dfy`, `transit.dfy`, `streams.dfy` | the inductive invariant of the joined system and why each step keeps it |
| `theorems.dfy` | what follows in every reachable state |
| `cancellation.dfy` | a cancellation reaches its call or its stream |
| `answers.dfy` | a caller gets what the server's handler answered to its call |
| `progress.dfy` | runs that take a call, a value or a lost call all the way |
| `rpccall.dfy`, `lifecycle.dfy`, `rendezvous.dfy`, `backoff.dfy` | one client call, connect and redial, reader parameters, back-off |

Code that updates fields or arrays step by step is a class or a method with loops; its
contract equates the new state with a step of the specification, and the theorems are proved
about the specification. Ghost records (values read from a handler's channel, values
accepted and delivered, answers sent to `ready`) carry the statements about whole runs.

## Assumptions

The Go code relies on these without enforcing them; the model states them as the
enabledness of steps or as preconditions.

- One iteration of the select loop is one step. Teardown runs on the reader goroutine; here
  it happens when that connection's loop is between two iterations, and before the
  redialled connection starts.
- Within one connection the wire is reliable and first-in first-out.
- Response frames carry an id, and builtin frames carry their parameters.
- Client stub and server method agree on whether the result is a channel, and a stub that
  returns a channel takes a context. Method names are neither empty nor reserved.
- Streamed values decode, and results marshal.
- Counters stay inside 64 bits.

Clocks, random jitter, decoding outcomes, what a method returns, dial outcomes and the
choices of every select are inputs: the statements hold for all of them.

## Where the code falls short

- Back-off: from attempt 63 on, the float-to-int64 conversion of the client's retry delay
  overflows, so its bounds hold exactly for attempts up to 62 (`Backoff.MethodRetryExact`);
  for any settings they hold exactly while the grown delay fits (`Backoff.NextWithinIff`).
- Reader parameters: `wait` is closed a second time exactly when more than one use of the body
  is a failing read or a Close (`Rendezvous.WaitReadCloser.UseAll`).
- Reader parameters: a push whose id does not parse goes on after its 400 and still offers
  its body (`Rendezvous.UnparsedPushGoesOn`). Parsed or not, it meets a decoder if and only
  if their ids are equal (`Rendezvous.MeetIffSameId`), and once released its status is 200 if
  and only if its id parsed (`Rendezvous.ReleasedStatus`).
- A response to a stream call whose result is not a channel id is dropped and its entry stays
  in `inflight`, even when the response carries an error; `null` reads as 0, and a number of
  2^64 or more is not an id. With a channel id and an error the sink is installed all the
  same. `ClientConn.ReplySettlesIff` gives the exact condition, `ClientConn.ErrorNotPassedOn`
  and `ClientConn.TooLargeForStream` inputs; between agreeing ends no such response arrives (`Theorems.NoOrphans`).
- Section 5 of the JSON-RPC 2.0 Specification wants a result or an error in every response;
  the code writes one with neither exactly when the method ran and returned no error, no
  stream and no value (`Handler.BareAnswerIff`).
- A closed client waits for ever if and only if the context of its newest connection is done
  and ended both loops before either failed or saw `stop` (`Lifecycle.StopCanFinish`,
  `Lifecycle.StuckForGood`); `Lifecycle.ContextCanStick` is a run that gets there.
- A call whose method name is empty is taken for a response, and one with a reserved name
  for a builtin (`Wire.ReadBack`, `Wire.RoutesApart`).

## Model

| member | source | states |
|---|---|---|
| Decimal.ParseIntText | jsonrpc/websocket.go:220-224 | a call id comes back from its JSON text as itself, negative ids included |
| Decimal.ReadText | jsonrpc/websocket.go:234-238 | reading an integer's text into an int64 or uint64 gives it back if and only if it fits |
| Decimal.ParseDigits | jsonrpc/websocket.go:294-299 | a channel id comes back from its JSON text as itself |
| Wire.RequestFields | jsonrpc/handler.go:37-43 | exactly which fields a request has on the wire, and with what |
| Wire.ResponseFields | jsonrpc/handler.go:63-68 | exactly which fields a response has on the wire, and with what |
| Wire.RequestRoundTrip | jsonrpc/handler.go:37-43 | every request is read back as a frame with its version, id or absence of one, meta, method and raw parameters intact and no result or error; an id that is no int64 is unreadable |
| Wire.ResponseRoundTrip | jsonrpc/handler.go:63-68 | every response is read back as a frame with its id, result and error intact, absent ones absent, and an empty method |
| Wire.RoutesApart | jsonrpc/websocket.go:364-392 | a readable response only ever reaches handleResponse; a readable request reaches it if and only if its method is empty, and reaches handleCall if and only if its method is neither empty nor reserved |
| Wire.ReadBack | jsonrpc/websocket.go:364-392 | every message the two ends exchange is read by the handler it is routed to as itself, if and only if its ids fit their types and it is not a call with an empty or reserved method |
| Pipes.PickConcat | jsonrpc/websocket.go:467-518 | selecting the messages of one call or stream respects the order of a queue |
| Pipes.SendKeepAliveKeeps | jsonrpc/websocket.go:485-492 | pings and pongs, which overtake queued messages, leave the order of every call's and stream's messages as it is |
| Pipes.PopTakes | jsonrpc/websocket.go:506-507 | handling a frame takes exactly the oldest message under way of its call or stream |
| Sinks.TurnKeepsGood | jsonrpc/client.go:326-400 | every turn of goroutine or sink keeps delivered, buffered and queued values equal to the accepted ones, and closes the caller's channel once, at its exit |
| Sinks.EveryRun | jsonrpc/client.go:326-377 | over every interleaving nothing accepted is lost, repeated or reordered; the caller's channel is closed at most once, and without cancellation only after the input was closed and everything accepted was delivered |
| Sinks.Terminates | jsonrpc/client.go:326-377 | after its input closes the goroutine takes at most a computable number of turns, and until it exits it can always receive or hand over a value |
| Sinks.OutChan.Accept | jsonrpc/client.go:379-400 | the sink queues one value or closes the input; using it after its close would panic |
| Sinks.OutChan.Iterate | jsonrpc/client.go:350-375 | one select choice with the end-of-turn check is one turn of the specification |
| Sinks.OutChan.Run | jsonrpc/client.go:326-377 | the loop under any schedule keeps delivered ++ buf ++ incoming equal to the accepted values |
| Handler.ProcessFuncOut | jsonrpc/util.go:32-58 | each result is the value or the error, never both, an error position holds an error type, and it panics exactly on more than two results or a second one that is no error |
| Handler.MethodOfIs | jsonrpc/handler.go:72-106 | of a registered signature: its parameters after the context if its first is one, its value the first result unless that is a lone error, its error the last result if that is one, a stream exactly when the first result is a channel |
| Handler.LookupIs | jsonrpc/handler.go:198-213 | a name stands for the method registered under it, else for the target of its alias, else for none |
| Handler.RegisteredLast | jsonrpc/handler.go:72-106 | the last method registered under a name is the one found |
| Handler.RegisteredOther | jsonrpc/handler.go:94 | registering other names leaves an entry, present or absent, as it was |
| Handler.RpcServer.Register | jsonrpc/handler.go:72-106 | the table after registering a receiver, entry by entry, up to the first signature that panics |
| Handler.RpcServer.AliasMethod | jsonrpc/server.go:119-121 | an alias finds the original method unless a method of that name exists |
| Handler.RpcServer.RpcError | jsonrpc/server.go:93-110 | an error answer for a request with an id, nothing for a notification |
| Handler.RpcServer.BuildCallParams | jsonrpc/handler.go:228-258 | the argument array is receiver, context if taken, then each decoded parameter in its place; otherwise the first failure |
| Handler.CallParamsAre | jsonrpc/handler.go:228-258 | the receiver comes first, then the context if the method takes one, then each argument in its place |
| Handler.RpcServer.Respond | jsonrpc/handler.go:262-327 | what follows the call: error, panic, value, nothing for a notification, or the hand-over of the channel |
| Handler.RpcServer.Handle | jsonrpc/handler.go:192-328 | every path of handle does what the specification's trace says, in order; the only method ever invoked is the one registered under the request's name, or else under its alias |
| Handler.DecodeAllPointwise | jsonrpc/handler.go:234-258 | decoding succeeds if and only if each parameter decodes to the type in its place |
| Handler.ExactlyOneReply | jsonrpc/handler.go:192-328 | section 4.1 of the JSON-RPC 2.0 Specification, and of section 5 that no response has both result and error: a request with an id is answered exactly once, written or delegated, never both; a notification never; no answer has code 2; done runs once, last, and keeps the context exactly for a stream method called with the right arity |
| Handler.RefusalTable | jsonrpc/handler.go:198-258 | method-not-found, wrong arity and decode error each answer exactly their own case, and the method runs, once, exactly when none applies |
| Handler.CallTable | jsonrpc/handler.go:157-167 | after the call of the method the name stands for, with each parameter decoded: code 0 with the panic's message exactly on panic, code 1 with the error or the refusal exactly on a returned error or a refused stream, delegation of the returned channel exactly for an accepted stream, else the value under the request's id |
| Handler.RefusalMessages | jsonrpc/handler.go:234-258 | a decode error tells why the first parameter that does not decode does not |
| Handler.BareAnswerIff | jsonrpc/handler.go:289-327 | of section 5, that a response has a result or an error: the one written has neither if and only if the method ran and returned no error, is no stream, and has no value or a nil one |
| OutChans.Emits | jsonrpc/websocket.go:124-183 | each event of the goroutine appends its frame to its own stream and to no other |
| OutChans.ValuesOfEmitted | jsonrpc/websocket.go:176-183 | the value frames of a stream are exactly the values read from its channel, in order |
| OutChans.AgreeWithout | jsonrpc/websocket.go:152-163 | swap-with-last removal leaves the two arrays agreeing with the id-to-channel map without the closed stream, the last slot included |
| OutChans.AgreeWith | jsonrpc/websocket.go:124-128 | a registered channel appended to both arrays keeps them agreeing with the map that has it |
| OutChans.OutChanLoop.Remove | jsonrpc/websocket.go:155-163 | the removed slot takes the last one's content in both arrays, all others stay |
| OutChans.OutChanLoop.Turn | jsonrpc/websocket.go:111-184 | slot 0 registers or stops, slot 1 stops or is passed over, any other slot writes the value read, or a close, under the id its channel was registered with; the arrays keep agreeing with the map and every stream's frames are its history |
| OutChans.OutChanLoop.AddCase | jsonrpc/websocket.go:122-138 | a registration extends both arrays and answers its call with the stream's id |
| OutChans.OutChanLoop.CloseCase | jsonrpc/websocket.go:152-174 | a closed channel's slot goes from both arrays and the client is told under its id |
| OutChans.OutChanLoop.HandleOutChans | jsonrpc/websocket.go:94-185 | through any sequence of registrations, values and closes: turn by turn the arrays agree with the map, the frames written are the turns' reports in order, the values written for a stream are those read each time its slot was picked, and no turn is skipped before the one that stops the loop |
| ClientConn.WsConn.TakeRequest | jsonrpc/websocket.go:500-505 | a request with an id enters inflight with an unused ready slot; the connection's invariant is kept |
| ClientConn.WsConn.HandleResponse | jsonrpc/websocket.go:286-313 | unknown ids change nothing; the result decides about the sink, whatever the error; then one answer goes to ready and the entry leaves inflight; the connection's invariant is kept |
| ClientConn.WsConn.HandleChanMessage | jsonrpc/websocket.go:252-266 | a value goes to its stream's sink unless that is unknown or its context is done; the connection's invariant is kept |
| ClientConn.WsConn.HandleChanClose | jsonrpc/websocket.go:268-284 | the handler is removed and then told once that its stream closed; the connection's invariant is kept |
| ClientConn.WsConn.HandleFrame | jsonrpc/websocket.go:364-392 | the client's dispatch is the specification's step for that frame |
| ClientConn.WsConn.CloseChans | jsonrpc/websocket.go:416-422 | in whatever order the map is visited, every handler's sink is closed once and no other changes |
| ClientConn.WsConn.CloseInFlight | jsonrpc/websocket.go:394-414 | in whatever order, every attempt in flight and no other is answered with code 2, without blocking, and none is left |
| ClientConn.WsConn.TearDown | jsonrpc/websocket.go:460-464 | both together are the specification's teardown |
| ClientConn.ReplySettlesIff | jsonrpc/websocket.go:286-313 | a response frame to a request in flight is answered and its entry removed if and only if it does not bring a result without a channel id to a caller that expects a stream, whatever error it carries; a result with one installs the sink; otherwise nothing changes |
| ClientConn.TooLargeForStream | jsonrpc/websocket.go:295-299 | a result of 2^64 is not a channel id |
| ClientConn.ErrorNotPassedOn | jsonrpc/websocket.go:293-299 | a concrete response whose error never reaches its caller |
| ClientConn.StepKeepsInv | jsonrpc/websocket.go:252-313 | the client's invariant survives every event whatever the server sends |
| ClientConn.AnyFrames | jsonrpc/websocket.go:286-313 | for every sequence of frames, unknown and duplicate ids and results together with errors included, with losses and cancellations in between: attempts taken are those answered exactly once, under their own id, plus those in flight; no ready send blocks; no sink is closed twice or used once closed; an answer given never changes |
| ClientConn.TeardownAnswersAll | jsonrpc/websocket.go:394-422 | losing the connection answers exactly the unanswered attempts with code 2, leaves none, and closes each open sink once |
| ServerConn.Serving.HandleCall | jsonrpc/websocket.go:315-361 | every call gets a handler for its own request; one with an id enters the cancel-function table and runs, one without leaves the table as it is; the invariant is kept |
| ServerConn.Serving.CancelCtx | jsonrpc/websocket.go:228-246 | a cancel ends the context of a call in the table and changes nothing else; the invariant is kept |
| ServerConn.Serving.HandleFrame | jsonrpc/websocket.go:364-392 | the server's dispatch is the specification's step for that frame |
| ServerConn.Serving.Done | jsonrpc/websocket.go:349-357 | done removes the call from the table unless its context is kept; the table stays exact |
| ServerConn.Serving.HandleChanOut | jsonrpc/websocket.go:188-205 | the channel is offered for registration under the next id, which no stream has had |
| ServerConn.ResultSound | jsonrpc/handler.go:192-328 | each path of handle ends in one answer or one registration, under the call's id, without code 2; the context is kept exactly for a stream method called with the right arity |
| ServerConn.OutputIsHistory | jsonrpc/websocket.go:130-183 | what an event writes about a stream is what it adds to that stream's history |
| ServerConn.OutputIsReply | jsonrpc/websocket.go:119-136 | an event writes an answer to a call exactly when it marks that call answered |
| ServerConn.StepKeepsInv | jsonrpc/websocket.go:188-205 | the server's invariant survives every event: exact table, stream ids never reused |
| ServerConn.AnyClient | jsonrpc/websocket.go:329-360 | for every run with distinct call ids: one answer per call; each stream leaves as one registration response, its values, at most one close, nothing more; the table holds exactly the calls still running plus the finished ones found with the right arity whose method returns a channel |
| ServerConn.AfterExit | jsonrpc/websocket.go:404-413 | after exiting is closed the table stays empty, no stream is opened, forwarded or closed, and no call is taken |
| Streams.StepKeepsInv | jsonrpc/websocket.go:424-550 | every step of the joined system keeps its invariant |
| Theorems.RunKeepsInv | jsonrpc/websocket.go:424-550 | so does every run |
| Theorems.StreamFidelity | jsonrpc/websocket.go:252-266 | while the stream's context lives: received ++ buf ++ incoming ++ in hand ++ frameChan ++ wire ++ writeChan is exactly what the server read from the handler's channel, however much else interleaves |
| Theorems.DeliveredIsPrefix | jsonrpc/client.go:323-400 | on every connection, lost ones included, cancelled or not, a caller has received a prefix of what the server read for its own call |
| Theorems.ClosedMeansComplete | jsonrpc/client.go:372-375 | a caller's channel closed without cancellation on a live connection: it received everything, and the handler had closed its channel after that |
| Theorems.NoOrphans | jsonrpc/websocket.go:259-263 | a response that arrives finds its request in flight, a value or close finds its handler installed; the not-found branches are never taken |
| Theorems.SinkDiscipline | jsonrpc/websocket.go:275-283 | every sink gets the close signal exactly once by the end of its connection, by remote close or teardown, and nothing after it |
| Theorems.NeverWedged | jsonrpc/client.go:396-399 | whenever the loop waits to push a value, it can push, or give up because the context is done, or the buffer goroutine can make room whatever the caller does |
| Theorems.CallConservation | jsonrpc/websocket.go:500-505 | attempts sent are those answered once plus those in flight; each call and each answer of a connection is under way or arrived, once |
| Theorems.RetryOnlyAfterLoss | jsonrpc/client.go:531-562 | no server answer has code 2; only marked calls are sent again, each earlier attempt having ended in connection loss; an answered call is never sent again; the caller gets the response to its last attempt |
| Theorems.CallIsAsIssued | jsonrpc/client.go:463-519 | a new call takes an id no call had, and keeps its name, parameters, stream mark and retry mark through every later run |
| Answers.StepKeepsAnswers | jsonrpc/websocket.go:300-312 | every step keeps each answer, from the handler through the wire to ready, the one given to its own call |
| Answers.BodyKeepsResponse | jsonrpc/websocket.go:306-311 | a response keeps its result, its error and its id on the way to its caller |
| Answers.EndSays | jsonrpc/handler.go:192-328 | however handling a request ends, the answer says what happened: the value or channel its method returned, its error or panic with the message, or why it was not called |
| Answers.CallerGetsHandlersAnswer | jsonrpc/client.go:531-562 | what a caller gets is the answer a server gave to that very call, and it says how that handling of its own name and parameters went, with what they decoded to and what the method returned; a stream id is the one registered for this call over the channel returned; or it is the loss of the connection |
| Answers.CallerGetsMethodsValue | jsonrpc/handler.go:301-327 | a value a caller gets is the one returned by the method its name stands for, called with its own parameters decoded |
| Theorems.CancelsOnlyItsOwn | jsonrpc/client.go:236-251 | only calls whose caller's context is done have a cancel under way or are cancelled at the server |
| Theorems.CancelFindsItsCall | jsonrpc/websocket.go:228-246 | a cancel that arrives finds its call at the server if and only if that call was sent over this connection and is not still under way; one found is in the table, or finished without keeping its context; one not found changes nothing |
| Theorems.LateCancelHitsNothing | jsonrpc/websocket.go:217-225 | a cancel for a call not sent over this connection, such as one answered over an earlier connection, changes nothing at the server |
| Cancellation.PopKeeps | jsonrpc/websocket.go:228-246 | a cancel that is the last message about its call finds the call in the table, or finished: it never overtakes its call |
| Cancellation.StepKeepsCancelInv | jsonrpc/client.go:236-251 | every step keeps cancels under way behind their calls until they have done their work |
| Cancellation.CancelReachesCall | jsonrpc/client.go:236-251 | once a waiting caller saw its context done and the loop took its cancel: the cancel is under way, or the call's context at the server has ended, or the call finished there without keeping one |
| Cancellation.CancelReachesStream | jsonrpc/websocket.go:217-246 | once a stream's watcher fired: the cancel is under way over the stream's connection, or the context its handler was given has ended |
| Cancellation.CancelProceeds | jsonrpc/client.go:236-251 | when a waiting caller's context ends it can notice it, the loop can then take the cancel, and it is under way |
| Cancellation.WatcherProceeds | jsonrpc/websocket.go:217-225 | when a stream's context ends its watcher can put the cancel under way |
| Progress.CallCompletes | jsonrpc/client.go:216-256 | from a quiet state some run takes a call to its server and its handler's answer back to its caller, whatever it decodes to and returns |
| Progress.StreamOpens | jsonrpc/websocket.go:119-138 | some run opens a stream for a call whose handler returns a channel: a new id, that channel, and a sink at the client |
| Progress.ValueArrives | jsonrpc/websocket.go:176-183 | some run takes a value read from the handler's channel to the caller of an open, idle stream |
| Progress.LostCallGoesOut | jsonrpc/client.go:531-562 | some run sends a marked call that lost its connection over the next one, as it was |
| Progress.StopReleases | jsonrpc/client.go:217-251 | a stopping client lets go of callers whose request or cancel waits to be taken |
| Progress.PingAnswered | jsonrpc/websocket.go:374-380 | a ping is answered with one pong |
| Theorems.MessagesSurviveTheWire | jsonrpc/websocket.go:544-548 | while the call and stream counters fit in 64 bits, every message under way in any reachable state comes back from its encoding as itself |
| Theorems.HandlingTable | jsonrpc/websocket.go:329-360 | the exact contents of the cancel-function table in every reachable state, each entry a call this client made |
| Backoff.NextWithinIff | jsonrpc/util.go:66-81 | the delay lies between minDelay and maxDelay whatever an overflowing conversion gives, if and only if the attempt is negative or the grown delay is below 2^63 |
| Backoff.NextIs | jsonrpc/util.go:66-81 | below the cap the delay is minDelay times 1.5 per attempt plus the jitter's share of minDelay, cut to whole nanoseconds; at and above it maxDelay; for negative attempts minDelay |
| Backoff.EnvelopeGrows | jsonrpc/util.go:72 | without jitter the delay never shrinks from one attempt to a later one that fits |
| Backoff.FirstCapped | jsonrpc/util.go:76-78 | computes the first attempt whose grown minimum reaches the cap |
| Backoff.CappedForGood | jsonrpc/util.go:76-78 | from that attempt on every delay that fits is maxDelay, and that attempt itself fits whenever 1.5 * maxDelay + minDelay does |
| Backoff.MethodRetryExact | jsonrpc/client.go:24-27 | the client's retry delays stay within 100 ms and 10 minutes if and only if the attempt is at most 62, and are 10 minutes from attempt 22 to 62 |
| RpcCall.RpcClient.EncodeParams | jsonrpc/client.go:465-481 | every argument but the context is sent in order, through its type's encoder if there is one; one that fails stops the call |
| RpcCall.EncodeAllPointwise | jsonrpc/client.go:465-481 | encoding succeeds if and only if each argument encodes, and each lands in its own place |
| RpcCall.RpcClient.DoRequest | jsonrpc/client.go:216-256 | a request is answered with the id and body of the first response; at most one cancel follows it, for its own id, exactly when its context ended first and the loop took the cancel |
| RpcCall.RpcClient.HandleRpcCall | jsonrpc/client.go:463-563 | a new id per call; a call whose parameters encode is sent, the same request each time, going on exactly while a marked call loses its connection; the outcome is that of the first attempt that does not, with the decoded value or, for a stream, the channel made for the last attempt that announced one |
| RpcCall.RpcClient.Digest | jsonrpc/client.go:533-558 | one attempt is tried again exactly when it is a marked call's lost connection; otherwise its results are those of its ending |
| RpcCall.FinalIs | jsonrpc/client.go:433-461 | the results: a client error for a request not sent, a foreign id or an undecodable result; else the server's error if there is one, with the decoded result, nothing, or the last announced channel |
| RpcCall.SameDecision | jsonrpc/client.go:534-559 | the joined system's callers retry, or fail on a foreign id, exactly when this loop does, unless the loop stops at a result it cannot decode |
| Lifecycle.StepKeepsInv | jsonrpc/websocket.go:434-456 | exactly one of: newest connection not exited, one redial goroutine pending, exiting closed |
| Lifecycle.AnyChain | jsonrpc/websocket.go:434-456 | over every chain of connect, failure, redial, normal close and stop: exitfun runs at most once per connection, exiting is closed at most once, at most one redial is pending, nothing is dialled after exiting is closed, a server or no-reconnect client never redials |
| Lifecycle.ExitIsFinal | jsonrpc/websocket.go:450 | once exiting is closed no step dials, connects or closes it again |
| Lifecycle.FirstEndDecides | jsonrpc/websocket.go:434-456 | in every reached state the first loop of a connection to end decides: stop, normal close, a server or a no-reconnect client end everything for good; any other failure leaves exiting open and one redial pending |
| Lifecycle.StopCanFinish | jsonrpc/client.go:281-285 | after the closer ran, exiting can be closed if and only if the newest connection is not stuck: not exited, both loops ended by its context |
| Lifecycle.CanClose | jsonrpc/websocket.go:434-456 | unless stuck, at most two enabled steps close exiting |
| Lifecycle.StuckForGood | jsonrpc/websocket.go:522-526 | a stuck client's context is done, and no later run closes exiting |
| Lifecycle.ContextCanStick | jsonrpc/websocket.go:474-477 | a run in which a client gets stuck and is then closed |
| Lifecycle.RedialLoop | jsonrpc/websocket.go:438-450 | dials until one succeeds or isStoped is seen, pausing one second longer each time; closes exiting exactly when it stops without a connection |
| Rendezvous.ReaderTable.Channel | jsonrpc/httpio/reader.go:81-87 | the locked lookup gives an id its channel, making a new one the first time |
| Rendezvous.WaitReadCloser.UseAll | jsonrpc/httpio/reader.go:52-68 | for every use of the body: the push is released exactly when a read failed or the body was closed, and wait is closed twice exactly when that happened more than once |
| Rendezvous.ReadToEndThenClose | jsonrpc/httpio/reader.go:57-68 | reading a body to the end and then closing it closes wait twice, which panics |
| Rendezvous.UnparsedPushGoesOn | jsonrpc/httpio/reader.go:76-110 | a push whose id does not parse still hands its body over and ends with status 400 |
| Rendezvous.ReleasedStatus | jsonrpc/httpio/reader.go:76-110 | a push released after its body was used up ends with 200 if and only if its id parsed, with 400 otherwise, for good |
| Rendezvous.CancelledStatus | jsonrpc/httpio/reader.go:94-107 | a push whose context ends first ends with 500 if its id parsed, with 400 otherwise, for good |
| Rendezvous.StepKeepsInv | jsonrpc/httpio/reader.go:74-138 | every arrival, meeting, cancellation and use keeps the rendezvous invariant |
| Rendezvous.AnyInterleaving | jsonrpc/httpio/reader.go:74-138 | an id keeps one channel for ever, matched sides have equal ids, each body goes to at most one decoder and each decoder gets at most one; a push answered 200 parsed its id and its body was handed over and then closed or failed a read |
| Rendezvous.MeetIffSameId | jsonrpc/httpio/reader.go:94-101 | whichever side came first, a waiting push and a waiting decoder can meet if and only if their ids are equal |

## Left out

- After a connection is lost its server is not followed further; what it had read of each stream is kept for the statements about that connection.
- The server's half of closeInFlight (cancelling every call) is part of the server's exit step.
- HTTP requests: only the refusal of channel methods is modelled (a transport without channel support); body reading and its size limit, status 500 and header handling are not.
- Sockets, TLS, dialling, read deadlines and the gorilla library: a connection is queues and a loss event.
- Tracing, Meta contents, metrics and logging, which do not affect results.
- Reflection, general JSON and gob: values are their JSON text; only the fields of messages, integers and ids are concrete.
- Rounding of float64 in the back-off: exact reals with truncation at the end.
- Eventual answers: the loop can block on its own full writeChan (jsonrpc/websocket.go:505), so what is stated is safety, enabledness and that completing runs exist, not that they are taken.
- Lifecycle and Engine are separate: in Lifecycle old goroutines may outlive their connection; in Engine connections follow one another.
- Go channels of the client connection are sequences in maps; a send to a full ready slot is recorded as blocking and proved absent, the aliasing of channel values is not modelled.
- Loops that run until something happens take their events as a finite sequence (handleOutChans, the buffering goroutine, the redial and retry loops); statements hold for every such sequence.
- reconnectBackoff is configured but unused by the redial loop, so it has no counterpart.
- Decoding a reader id that does not parse returns an error before the rendezvous and is an instance of a failing parameter decoder.
- jsonrpc/auth (permission checks around handlers), rockfmw (wrappers over HTTP and websocket libraries) and the conversion helpers at the repository's root take no part in the engine.
- Handlers of notifications are not followed after their start: they write nothing (Handler.ExactlyOneReply) and no cancel reaches them.
- When writeChan is full, messages of blocked goroutines stand behind it in the order the runtime queues them; that such a goroutine does nothing else meanwhile is not enforced.
