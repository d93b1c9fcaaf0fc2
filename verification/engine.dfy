/**
 A client and a server joined by a connection that can be lost and redialled:
 callers (doRequest, handleRpcCall), the client loop, two pipes, the server.
 One step is one iteration of a loop or one action of a goroutine
 (jsonrpc/websocket.go:424-550, jsonrpc/client.go:216-256, 463-563).
 */
module Engine {
  import opened Basics
  import opened Wire
  import opened Pipes
  import H = Handler
  import O = OutChans
  import S = Sinks
  import C = ClientConn
  import V = ServerConn

  datatype CallPhase =
    | Sending                 // offering the request to the loop
    | Waiting                 // waiting for the response
    | Backoff                 // sleeping before the next attempt
    | Returned(body: Body)
    | Failed                  // the client is exiting, or the response had another id

  /** One call of an RPC function; nth counts its earlier attempts. */
  datatype ClientCall = ClientCall(
    name: string, params: seq<Raw>, stream: bool, retry: bool,
    nth: nat, phase: CallPhase,
    sawDone: bool,            // this attempt has noticed that the context is done
    offering: bool)           // and is offering the cancel request to the loop

  /** What the client has handled of one stream of this connection. */
  datatype Heard = Heard(tok: C.Tok, vals: seq<Raw>, closed: bool)

  /**
   The record of one connection: the streams as both ends know them, what the server
   answered, and for each call what its parameters decoded to and its method returned.
   */
  datatype ConnLog = ConnLog(
    heard: map<nat, Heard>, outs: O.Outs, given: map<int, Body>, envs: map<int, H.Env>)

  datatype State = State(
    calls: map<int, ClientCall>,
    idCtr: nat,
    exiting: bool,
    live: bool,               // a connection is up
    client: C.Client,
    up: Pipe,                 // client to server
    down: Pipe,               // server to client
    server: V.Server,
    taken: set<int>,          // calls sent over this connection
    answered: set<int>,       // calls a server has answered, ever
    before: set<int>,         // those answered over earlier connections
    heard: map<nat, Heard>,
    lost: seq<ConnLog>,       // earlier connections, oldest first
    given: map<int, Body>,    // what the server answered over this connection
    envs: map<int, H.Env>)    // and what its handlers met

  const INIT := State(map[], 0, false, true, C.FRESH, EMPTY, EMPTY, V.FRESH, {}, {}, {}, map[], [], map[], map[])

  datatype Step =
    // callers
    | Issue(name: string, params: seq<Raw>, stream: bool, retry: bool)
    | Expire(x: int)
    | SeeDone(x: int)
    | DropCancel(x: int)
    | Collect(x: int)
    | Resend(x: int)
    | GiveUp(x: int)
    // client loop, reader and stream goroutines
    | TakeCall(x: int)
    | TakeCancel(x: int)
    | Tick(at: Raw)
    | ClientSend
    | ClientSendKeepAlive
    | ClientReceive
    | ClientHandle
    | FinishPush
    | AbandonPush
    | SinkTurn(tok: C.Tok, turn: S.Event)
    | WatcherFires(tok: C.Tok)
    // server
    | ServerSend
    | ServerSendKeepAlive
    | ServerReceive
    | ServerHandle(at: Raw)
    | ServerAct(e: V.Event)
    // connection
    | Lose
    | Redial
    | Stop

  // ---- helpers ----

  function TokOf(s: State, x: int): C.Tok
    requires x in s.calls
  {
    C.Tok(x, s.calls[x].nth)
  }

  predicate InPhase(s: State, x: int, p: CallPhase) {
    x in s.calls && s.calls[x].phase == p
  }

  predicate Lost(body: Body) {
    body.error.Some? && body.error.value.code == 2
  }

  function RequestMsg(s: State, x: int): Msg
    requires x in s.calls
  {
    Call(Some(x), s.calls[x].name, s.calls[x].params)
  }

  /** Stub and method agree on whether the result is a channel. */
  predicate StubAgrees(reg: H.Registry, name: string, stream: bool) {
    var m := H.Lookup(reg, name);
    m.Some? ==> stream == H.IsStream(m.value)
  }

  /** A name that reaches the server as a call. */
  predicate Callable(name: string) {
    name != "" && !Builtin(name)
  }

  /** The client's loop runs and is between two iterations. */
  predicate LoopFree(s: State) {
    s.live && !s.exiting && s.client.loop.Idle?
  }

  predicate Room(q: seq<Msg>) {
    |q| < CAPACITY
  }

  // ---- when a step is possible ----

  predicate Enabled(reg: H.Registry, s: State, e: Step) {
    match e
    case Issue(name, _, stream, _) => Callable(name) && StubAgrees(reg, name, stream)
    case Expire(_) => true
    case SeeDone(x) => InPhase(s, x, Waiting) && x in s.client.ctxDone && !s.calls[x].sawDone
    case DropCancel(x) => s.exiting && x in s.calls && s.calls[x].offering
    case Collect(x) =>
      && InPhase(s, x, Waiting) && !s.calls[x].offering
      && TokOf(s, x) in s.client.ready && s.client.ready[TokOf(s, x)] != []
    case Resend(x) => InPhase(s, x, Backoff)
    case GiveUp(x) => s.exiting && InPhase(s, x, Sending)
    case TakeCall(x) => LoopFree(s) && InPhase(s, x, Sending) && Room(s.up.write)
    case TakeCancel(x) => LoopFree(s) && x in s.calls && s.calls[x].offering && Room(s.up.write)
    case Tick(_) => LoopFree(s) && Room(s.up.keepAlive)
    case ClientSend => LoopFree(s) && s.up.write != []
    case ClientSendKeepAlive => LoopFree(s) && s.up.keepAlive != []
    case ClientReceive => s.live && s.down.wire != [] && Room(s.down.frames)
    case ClientHandle => LoopFree(s) && s.down.frames != [] && (s.down.frames[0].Ping? ==> Room(s.up.keepAlive))
    case FinishPush => s.live && C.Enabled(s.client, C.FinishPush)
    case AbandonPush => s.live && C.Enabled(s.client, C.AbandonPush)
    case SinkTurn(tok, turn) => C.Enabled(s.client, C.SinkTurn(tok, turn))
    case WatcherFires(tok) => C.Enabled(s.client, C.WatcherFires(tok))
    case ServerSend => s.live && !s.server.exiting && s.down.write != []
    case ServerSendKeepAlive => s.live && !s.server.exiting && s.down.keepAlive != []
    case ServerReceive => s.live && !s.server.exiting && s.up.wire != [] && Room(s.up.frames)
    case ServerHandle(_) =>
      s.live && !s.server.exiting && s.up.frames != [] && (s.up.frames[0].Ping? ==> Room(s.down.keepAlive))
    case ServerAct(e) =>
      s.live && !e.Incoming? && V.Enabled(s.server, e)
    case Lose => s.live && s.client.loop.Idle?
    case Redial => !s.live && !s.exiting
    case Stop => !s.exiting && (s.live ==> s.client.loop.Idle?)
  }

  // ---- what a step does ----

  function WithCall(s: State, x: int, c: ClientCall): State {
    s.(calls := s.calls[x := c])
  }

  function OnClient(s: State, e: C.Event): State
    requires C.Enabled(s.client, e)
  {
    s.(client := C.Apply(s.client, e))
  }

  /** doRequest has the response: return it, or go round again when the call is marked for retry. */
  function AfterResponse(c: ClientCall, x: int, a: C.Answer): CallPhase {
    if a.id != x then Failed
    else if c.retry && Lost(a.body) then Backoff
    else Returned(a.body)
  }

  /** The calls a frame settles: known ids whose response is usable. */
  function Settles(c: C.Client, m: Msg): set<int> {
    if m.Reply? && m.id in c.inflight && m.id !in C.OnFrame(c, m).inflight then {m.id} else {}
  }

  function HeardAfter(c: C.Client, heard: map<nat, Heard>, m: Msg): map<nat, Heard> {
    match m
    case Reply(x, Chan(ch, _)) =>
      if x in c.inflight && c.inflight[x].stream then heard[ch := Heard(c.inflight[x].tok, [], false)] else heard
    case ChanValue(ch, v) =>
      if ch in c.chanHandlers && ch in heard then heard[ch := heard[ch].(vals := heard[ch].vals + [v])] else heard
    case ChanClose(ch) =>
      if ch in c.chanHandlers && ch in heard then heard[ch := heard[ch].(closed := true)] else heard
    case _ => heard
  }

  function Recorded(given: map<int, Body>, out: seq<Msg>): map<int, Body> {
    if out != [] && out[0].Reply? then given[out[0].id := out[0].body] else given
  }

  function Met(envs: map<int, H.Env>, e: V.Event): map<int, H.Env> {
    if e.Return? then envs[e.call := e.env] else envs
  }

  function LogOf(s: State): ConnLog {
    ConnLog(s.heard, s.server.outs, s.given, s.envs)
  }

  function Pongs(p: Pipe, m: Msg, at: Raw): Pipe {
    if m.Ping? then PutKeepAlive(p, Pong(at)) else p
  }

  function Apply(reg: H.Registry, s: State, e: Step): State
    requires Enabled(reg, s, e)
  {
    match e
    case Issue(name, params, stream, retry) =>
      WithCall(s.(idCtr := s.idCtr + 1), s.idCtr + 1,
               ClientCall(name, params, stream, retry, 0, Sending, false, false))
    case Expire(x) => OnClient(s, C.Expire(x))
    case SeeDone(x) => WithCall(s, x, s.calls[x].(sawDone := true, offering := true))
    case DropCancel(x) => WithCall(s, x, s.calls[x].(offering := false))
    case Collect(x) =>
      WithCall(s, x, s.calls[x].(phase := AfterResponse(s.calls[x], x, s.client.ready[TokOf(s, x)][0])))
    case Resend(x) =>
      WithCall(s, x, s.calls[x].(phase := Sending, nth := s.calls[x].nth + 1, sawDone := false))
    case GiveUp(x) => WithCall(s, x, s.calls[x].(phase := Failed))
    case TakeCall(x) =>
      WithCall(
        OnClient(s, C.Take(C.Attempt(TokOf(s, x), s.calls[x].stream)))
          .(up := Put(s.up, [RequestMsg(s, x)]), taken := s.taken + {x}),
        x, s.calls[x].(phase := Waiting))
    case TakeCancel(x) =>
      WithCall(s.(up := Put(s.up, [Cancel(x)])), x, s.calls[x].(offering := false))
    case Tick(at) => s.(up := PutKeepAlive(s.up, Ping(at)))
    case ClientSend => s.(up := Send(s.up))
    case ClientSendKeepAlive => s.(up := SendKeepAlive(s.up))
    case ClientReceive => s.(down := Receive(s.down))
    case ClientHandle =>
      var m := s.down.frames[0];
      OnClient(s, C.Incoming(m))
        .(down := Pop(s.down), up := Pongs(s.up, m, ""),
          answered := s.answered + Settles(s.client, m),
          heard := HeardAfter(s.client, s.heard, m))
    case FinishPush => OnClient(s, C.FinishPush)
    case AbandonPush => OnClient(s, C.AbandonPush)
    case SinkTurn(tok, turn) => OnClient(s, C.SinkTurn(tok, turn))
    case WatcherFires(tok) =>
      OnClient(s, C.WatcherFires(tok)).(up := if s.live then Put(s.up, [Cancel(tok.call)]) else s.up)
    case ServerSend => s.(down := Send(s.down))
    case ServerSendKeepAlive => s.(down := SendKeepAlive(s.down))
    case ServerReceive => s.(up := Receive(s.up))
    case ServerHandle(at) =>
      var m := s.up.frames[0];
      s.(server := V.Apply(reg, s.server, V.Incoming(m)), up := Pop(s.up), down := Pongs(s.down, m, at))
    case ServerAct(e) =>
      var out := V.Output(reg, s.server, e);
      s.(server := V.Apply(reg, s.server, e), down := Put(s.down, out),
          given := Recorded(s.given, out), envs := Met(s.envs, e))
    case Lose =>
      OnClient(s, C.Teardown)
        .(live := false, up := EMPTY, down := EMPTY, server := V.FRESH,
          taken := {}, before := s.answered, heard := map[],
          lost := s.lost + [LogOf(s)], given := map[], envs := map[])
    case Redial => s.(live := true)
    case Stop => s.(exiting := true)
  }

  // ---- runs ----

  function StepOnce(reg: H.Registry, s: State, e: Step): State {
    if Enabled(reg, s, e) then Apply(reg, s, e) else s
  }

  function Run(reg: H.Registry, s: State, es: seq<Step>): State
    decreases |es|
  {
    if es == [] then s else Run(reg, StepOnce(reg, s, es[0]), es[1..])
  }

  /** Some sequence of steps leads from the start to this state. */
  ghost predicate Reachable(reg: H.Registry, s: State) {
    exists es :: Run(reg, INIT, es) == s
  }
}
