/**
 What can happen: from a state with nothing under way, a call goes all the way to its
 answer, a value all the way to its caller, a lost call out again over the next connection.
 Steps are enabled one after the other; nothing is said of when they are taken.
 */
module Progress {
  import opened Basics
  import opened Wire
  import opened Pipes
  import opened Engine
  import opened Invariants
  import R = Theorems
  import H = Handler
  import O = OutChans
  import S = Sinks
  import C = ClientConn
  import V = ServerConn

  predicate Clear(p: Pipe) {
    p.write == [] && p.wire == [] && p.frames == []
  }

  /** Connected, both loops free, and no message but keep-alives under way. */
  predicate Quiet(s: State) {
    LoopFree(s) && !s.server.exiting && Clear(s.up) && Clear(s.down)
  }

  // ---- runs step by step ----

  ghost predicate Does(reg: H.Registry, s: State, e: Step, t: State) {
    Enabled(reg, s, e) && t == Apply(reg, s, e)
  }

  ghost predicate Leads(reg: H.Registry, s: State, t: State) {
    exists es :: Run(reg, s, es) == t
  }

  lemma {:induction false} RunThen(reg: H.Registry, s: State, es: seq<Step>, e: Step)
    ensures Run(reg, s, es + [e]) == StepOnce(reg, Run(reg, s, es), e)
    decreases |es|
  {
    if es == [] {
      assert es + [e] == [e] && [e][1..] == [];
      assert Run(reg, StepOnce(reg, s, e), []) == StepOnce(reg, s, e);
    } else {
      assert (es + [e])[1..] == es[1..] + [e];
      RunThen(reg, StepOnce(reg, s, es[0]), es[1..], e);
    }
  }

  lemma Here(reg: H.Registry, s: State)
    ensures Leads(reg, s, s)
  {
    assert Run(reg, s, []) == s;
  }

  lemma Onward(reg: H.Registry, s: State, t: State, e: Step, u: State)
    requires Leads(reg, s, t) && Does(reg, t, e, u)
    ensures Leads(reg, s, u)
  {
    var es :| Run(reg, s, es) == t;
    RunThen(reg, s, es, e);
  }

  // ---- a message crosses ----

  /** What crossing leaves alone. */
  ghost predicate SameEnds(s: State, t: State) {
    && t.calls == s.calls && t.client == s.client && t.server == s.server
    && t.live == s.live && t.exiting == s.exiting && t.taken == s.taken
  }

  lemma CrossUp(reg: H.Registry, s: State, m: Msg) returns (t: State)
    requires LoopFree(s) && !s.server.exiting && s.up.write == [m] && s.up.wire == [] && s.up.frames == []
    ensures Leads(reg, s, t) && SameEnds(s, t) && t.down == s.down
    ensures t.up.frames == [m] && t.up.wire == [] && t.up.write == []
  {
    Here(reg, s);
    t := Apply(reg, s, ClientSend);
    Onward(reg, s, s, ClientSend, t);
    var u := Apply(reg, t, ServerReceive);
    Onward(reg, s, t, ServerReceive, u);
    t := u;
  }

  lemma CrossDown(reg: H.Registry, s: State, m: Msg) returns (t: State)
    requires s.live && !s.server.exiting && s.down.write == [m] && s.down.wire == [] && s.down.frames == []
    ensures Leads(reg, s, t) && SameEnds(s, t) && t.up == s.up
    ensures t.down.frames == [m] && t.down.wire == [] && t.down.write == []
  {
    Here(reg, s);
    t := Apply(reg, s, ServerSend);
    Onward(reg, s, s, ServerSend, t);
    var u := Apply(reg, t, ClientReceive);
    Onward(reg, s, t, ClientReceive, u);
    t := u;
  }

  lemma Chain(reg: H.Registry, s: State, t: State, u: State)
    requires Leads(reg, s, t) && Leads(reg, t, u)
    ensures Leads(reg, s, u)
  {
    var es, fs :| Run(reg, s, es) == t && Run(reg, t, fs) == u;
    RunBoth(reg, s, es, fs);
  }

  lemma {:induction false} RunBoth(reg: H.Registry, s: State, es: seq<Step>, fs: seq<Step>)
    ensures Run(reg, s, es + fs) == Run(reg, Run(reg, s, es), fs)
    decreases |es|
  {
    if es == [] {
      assert es + fs == fs;
    } else {
      assert (es + fs)[1..] == es[1..] + fs;
      RunBoth(reg, StepOnce(reg, s, es[0]), es[1..], fs);
    }
  }

  // ---- a call ----

  lemma TakeEffect(reg: H.Registry, s: State, x: int) returns (t: State)
    requires Quiet(s) && InPhase(s, x, Sending)
    ensures Does(reg, s, TakeCall(x), t) && LoopFree(t) && !t.server.exiting
    ensures t.up.write == [RequestMsg(s, x)] && t.up.wire == [] && t.up.frames == [] && Clear(t.down)
    ensures t.calls == s.calls[x := s.calls[x].(phase := Waiting)] && t.server == s.server
    ensures t.client == C.Apply(s.client, C.Take(C.Attempt(TokOf(s, x), s.calls[x].stream)))
  {
    t := Apply(reg, s, TakeCall(x));
  }

  lemma ServeEffect(reg: H.Registry, s: State, m: Msg) returns (t: State)
    requires LoopFree(s) && !s.server.exiting && s.up.frames == [m] && s.up.wire == [] && s.up.write == []
    requires Clear(s.down) && m.Call?
    ensures Does(reg, s, ServerHandle(""), t) && Quiet(t)
    ensures t.calls == s.calls && t.client == s.client && t.server == V.OnFrame(s.server, m)
  {
    t := Apply(reg, s, ServerHandle(""));
  }

  /** A call that waits to be sent reaches the server, as it was made. */
  lemma CallArrives(reg: H.Registry, s: State, x: int) returns (t: State)
    requires Quiet(s) && InPhase(s, x, Sending)
    ensures Leads(reg, s, t) && Quiet(t)
    ensures t.calls == s.calls[x := s.calls[x].(phase := Waiting)]
    ensures t.client == C.Apply(s.client, C.Take(C.Attempt(TokOf(s, x), s.calls[x].stream)))
    ensures t.server == V.OnFrame(s.server, Call(Some(x), s.calls[x].name, s.calls[x].params))
  {
    Here(reg, s);
    var a := TakeEffect(reg, s, x);
    Onward(reg, s, s, TakeCall(x), a);
    var b := CrossUp(reg, a, RequestMsg(s, x));
    Chain(reg, s, a, b);
    t := ServeEffect(reg, b, RequestMsg(s, x));
    Onward(reg, s, b, ServerHandle(""), t);
  }

  lemma ActEffect(reg: H.Registry, s: State, e: V.Event, m: Msg) returns (t: State)
    requires Quiet(s) && V.Enabled(s.server, e) && !e.Incoming? && !e.Exit? && V.Output(reg, s.server, e) == [m]
    ensures Does(reg, s, ServerAct(e), t) && LoopFree(t) && !t.server.exiting && Clear(t.up)
    ensures t.down.write == [m] && t.down.wire == [] && t.down.frames == []
    ensures t.calls == s.calls && t.client == s.client && t.server == V.Apply(reg, s.server, e)
  {
    t := Apply(reg, s, ServerAct(e));
  }

  lemma HearEffect(reg: H.Registry, s: State, m: Msg) returns (t: State)
    requires LoopFree(s) && !s.server.exiting && Clear(s.up) && !m.Ping?
    requires s.down.frames == [m] && s.down.wire == [] && s.down.write == []
    ensures Does(reg, s, ClientHandle, t) && t.calls == s.calls && t.client == C.OnFrame(s.client, m)
    ensures t.server == s.server && t.live && !t.exiting && Clear(t.up) && Clear(t.down)
  {
    t := Apply(reg, s, ClientHandle);
  }

  /** What the server writes reaches the client. */
  lemma MessageArrives(reg: H.Registry, s: State, e: V.Event, m: Msg) returns (t: State)
    requires Quiet(s) && V.Enabled(s.server, e) && !e.Incoming? && !e.Exit? && V.Output(reg, s.server, e) == [m] && !m.Ping?
    ensures Leads(reg, s, t)
    ensures t.calls == s.calls && t.client == C.OnFrame(s.client, m) && t.server == V.Apply(reg, s.server, e)
    ensures t.live && !t.exiting && !t.server.exiting && Clear(t.up) && Clear(t.down)
  {
    Here(reg, s);
    var a := ActEffect(reg, s, e, m);
    Onward(reg, s, s, ServerAct(e), a);
    var b := CrossDown(reg, a, m);
    Chain(reg, s, a, b);
    t := HearEffect(reg, b, m);
    Onward(reg, s, b, ClientHandle, t);
  }

  lemma CollectEffect(reg: H.Registry, s: State, x: int, body: Body) returns (t: State)
    requires InPhase(s, x, Waiting) && !s.calls[x].offering && !Lost(body)
    requires TokOf(s, x) in s.client.ready && s.client.ready[TokOf(s, x)] == [C.Answer(x, body)]
    ensures Does(reg, s, Collect(x), t) && x in t.calls && t.calls[x].phase == Returned(body)
  {
    t := Apply(reg, s, Collect(x));
  }

  /** The answer of the handler's own run is usable to the caller. */
  lemma AnswerFits(reg: H.Registry, s: State, x: int, env: H.Env)
    requires Reachable(reg, s) && x in s.calls
    ensures var end := H.Process(reg, Request("2.0", Some(x), s.calls[x].name, s.calls[x].params, map[]), env, true).end;
            && (end.Answer? ==> !Lost(V.BodyOfResponse(end.resp)) && end.resp.id == x)
            && (end.Answer? ==> !(s.calls[x].stream && V.BodyOfResponse(end.resp).Value?))
            && (end.Register? ==> s.calls[x].stream)
  {
    R.KnowServer(reg, s);
    V.ResultSound(reg, Request("2.0", Some(x), s.calls[x].name, s.calls[x].params, map[]), env);
  }

  /**
   A call completes: sent from a quiet state, it returns what its handler answers, for
   whatever its parameters decode to and its method returns.
   */
  lemma CallCompletes(reg: H.Registry, s: State, x: int, env: H.Env) returns (t: State)
    requires Reachable(reg, s) && Quiet(s) && InPhase(s, x, Sending) && !s.calls[x].offering
    requires H.Process(reg, Request("2.0", Some(x), s.calls[x].name, s.calls[x].params, map[]), env, true).end.Answer?
    ensures Leads(reg, s, t) && x in t.calls
    ensures var end := H.Process(reg, Request("2.0", Some(x), s.calls[x].name, s.calls[x].params, map[]), env, true).end;
            t.calls[x].phase == Returned(V.BodyOfResponse(end.resp))
  {
    var req := Request("2.0", Some(x), s.calls[x].name, s.calls[x].params, map[]);
    var body := V.BodyOfResponse(H.Process(reg, req, env, true).end.resp);
    AnswerFits(reg, s, x, env);
    var a := CallArrives(reg, s, x);
    assert a.server.calls[x] == V.SrvCall(req, V.Executing);
    var b := MessageArrives(reg, a, V.Return(x, env), Reply(x, body));
    Chain(reg, s, a, b);
    t := CollectEffect(reg, b, x, body);
    Onward(reg, s, b, Collect(x), t);
  }

  lemma HandOverEffect(reg: H.Registry, s: State, x: int, env: H.Env) returns (t: State)
    requires Quiet(s) && V.Enabled(s.server, V.Return(x, env)) && V.Result(reg, s.server, x, env).end.Register?
    ensures Does(reg, s, ServerAct(V.Return(x, env)), t) && Quiet(t) && t.calls == s.calls && t.client == s.client
    ensures t.server == V.Apply(reg, s.server, V.Return(x, env))
  {
    t := Apply(reg, s, ServerAct(V.Return(x, env)));
  }

  lemma RegistrationArrives(reg: H.Registry, s: State, x: int, ch: nat, source: nat) returns (t: State)
    requires Quiet(s) && x in s.server.calls && s.server.calls[x].phase == V.Registering(ch, source) && ch !in s.server.outs
    requires x in s.client.inflight && s.client.inflight[x].stream
    requires var tok := s.client.inflight[x].tok; tok in s.client.ready && s.client.ready[tok] == []
    ensures Leads(reg, s, t) && StreamOpen(t, x, s.client.inflight[x].tok, ch, source)
  {
    t := MessageArrives(reg, s, V.Register(x), Reply(x, Chan(ch, None)));
  }

  /** The server forwards this channel under this id, and the client has answered the call and its sink ready. */
  predicate StreamOpen(t: State, x: int, tok: C.Tok, ch: nat, source: nat) {
    && ch in t.server.outs && t.server.outs[ch] == O.Out(x, source, [], true)
    && ch in t.client.chanHandlers && t.client.chanHandlers[ch] == tok
    && tok in t.client.sinks && t.client.sinks[tok] == S.FRESH
    && tok in t.client.ready && t.client.ready[tok] == [C.Answer(x, Chan(ch, None))]
  }

  lemma NextIdFresh(reg: H.Registry, s: State)
    requires Reachable(reg, s)
    ensures s.server.chanCtr + 1 !in s.server.outs
  {
    R.KnowServer(reg, s);
  }

  /**
   A stream opens: a call whose handler returns a channel is answered with a new id, under
   which the server forwards that channel and the client has its sink ready.
   */
  lemma StreamOpens(reg: H.Registry, s: State, x: int, env: H.Env) returns (t: State)
    requires Reachable(reg, s) && Quiet(s) && InPhase(s, x, Sending)
    requires H.Process(reg, Request("2.0", Some(x), s.calls[x].name, s.calls[x].params, map[]), env, true).end.Register?
    ensures Leads(reg, s, t)
    ensures var end := H.Process(reg, Request("2.0", Some(x), s.calls[x].name, s.calls[x].params, map[]), env, true).end;
            StreamOpen(t, x, C.Tok(x, s.calls[x].nth), s.server.chanCtr + 1, end.source)
  {
    var req := Request("2.0", Some(x), s.calls[x].name, s.calls[x].params, map[]);
    AnswerFits(reg, s, x, env);
    NextIdFresh(reg, s);
    var a := CallArrives(reg, s, x);
    assert a.server.calls[x] == V.SrvCall(req, V.Executing);
    var b := HandOverEffect(reg, a, x, env);
    Onward(reg, s, a, ServerAct(V.Return(x, env)), b);
    t := RegistrationArrives(reg, b, x, s.server.chanCtr + 1, H.Process(reg, req, env, true).end.source);
    Chain(reg, s, b, t);
  }

  // ---- a value ----

  lemma SinkEffect(reg: H.Registry, s: State, e: Step, ce: C.Event) returns (t: State)
    requires s.live && C.Enabled(s.client, ce)
    requires (e == FinishPush && ce == C.FinishPush) || (e.SinkTurn? && ce == C.SinkTurn(e.tok, e.turn))
    ensures Does(reg, s, e, t) && t.client == C.Apply(s.client, ce) && t.live && t.server == s.server
  {
    t := Apply(reg, s, e);
  }

  lemma PushLands(reg: H.Registry, s: State, tok: C.Tok, v: Raw) returns (t: State)
    requires s.live && s.client.loop == C.Pushing(tok, v) && tok in s.client.sinks
    requires var k := s.client.sinks[tok]; k.incoming == [] && !k.inClosed && !k.drained
    ensures Leads(reg, s, t) && t.live && tok in t.client.sinks
    ensures var k := s.client.sinks[tok]; t.client.sinks[tok] == k.(incoming := [v], accepted := k.accepted + [v])
  {
    Here(reg, s);
    t := SinkEffect(reg, s, FinishPush, C.FinishPush);
    Onward(reg, s, s, FinishPush, t);
    assert [] + [v] == [v];
  }

  lemma BufferDelivers(reg: H.Registry, s: State, tok: C.Tok, v: Raw) returns (t: State)
    requires s.live && tok in s.client.sinks
    requires var k := s.client.sinks[tok]; k.incoming == [v] && k.buf == [] && !k.drained && !k.exited
    ensures Leads(reg, s, t) && tok in t.client.sinks
    ensures t.client.sinks[tok].delivered == s.client.sinks[tok].delivered + [v]
  {
    Here(reg, s);
    var c := SinkEffect(reg, s, SinkTurn(tok, S.TakeIn), C.SinkTurn(tok, S.TakeIn));
    Onward(reg, s, s, SinkTurn(tok, S.TakeIn), c);
    assert c.client.sinks[tok].buf == [v];
    t := SinkEffect(reg, c, SinkTurn(tok, S.Deliver), C.SinkTurn(tok, S.Deliver));
    Onward(reg, s, c, SinkTurn(tok, S.Deliver), t);
  }

  /** A value read from the handler's channel reaches a caller whose stream is open and idle. */
  lemma ValueArrives(reg: H.Registry, s: State, ch: nat, v: Raw) returns (t: State)
    requires Reachable(reg, s) && Quiet(s) && ch in s.server.outs && s.server.outs[ch].open && ch in s.heard
    requires s.heard[ch].tok in s.client.sinks && s.heard[ch].tok.call !in s.client.ctxDone
    requires var k := s.client.sinks[s.heard[ch].tok]; k.incoming == [] && k.buf == []
    ensures Leads(reg, s, t) && s.heard[ch].tok in t.client.sinks
    ensures t.client.sinks[s.heard[ch].tok].delivered == s.client.sinks[s.heard[ch].tok].delivered + [v]
  {
    OpenStream(reg, s, ch);
    var a := MessageArrives(reg, s, V.Forward(O.ReadValue(ch, v)), ChanValue(ch, v));
    var b := PushLands(reg, a, s.heard[ch].tok, v);
    Chain(reg, s, a, b);
    t := BufferDelivers(reg, b, s.heard[ch].tok, v);
    Chain(reg, s, b, t);
  }

  /** An open stream with nothing under way is registered at the client, and its sink is open. */
  lemma OpenStream(reg: H.Registry, s: State, ch: nat)
    requires Reachable(reg, s) && Quiet(s) && ch in s.server.outs && s.server.outs[ch].open && ch in s.heard
    requires s.heard[ch].tok in s.client.sinks && s.heard[ch].tok.call !in s.client.ctxDone
    ensures ch in s.client.chanHandlers && s.client.chanHandlers[ch] == s.heard[ch].tok
    ensures var k := s.client.sinks[s.heard[ch].tok]; !k.inClosed && !k.drained && !k.exited
  {
    R.KnowStreams(reg, s);
    R.HeardStream(s, ch);
    assert !s.heard[ch].closed;
    assert C.Handled(s.client.chanHandlers, s.heard[ch].tok);
    assert S.Good(s.client.sinks[s.heard[ch].tok]);
  }

  // ---- after a loss ----

  /** A marked call that lost its connection goes out again over the next one, as it was. */
  lemma LostCallGoesOut(reg: H.Registry, s: State, x: int) returns (t: State)
    requires !s.live && !s.exiting && !s.server.exiting && s.client.loop.Idle? && Clear(s.up) && Clear(s.down)
    requires InPhase(s, x, Waiting) && !s.calls[x].offering && s.calls[x].retry
    requires TokOf(s, x) in s.client.ready && s.client.ready[TokOf(s, x)] == [C.Answer(x, C.CONNECTION_LOST)]
    ensures Leads(reg, s, t) && Quiet(t)
    ensures InPhase(t, x, Waiting) && t.calls[x].nth == s.calls[x].nth + 1
    ensures t.server == V.OnFrame(s.server, Call(Some(x), s.calls[x].name, s.calls[x].params))
  {
    Here(reg, s);
    var a := BackOff(reg, s, x);
    Onward(reg, s, s, Collect(x), a);
    var b := SendAgain(reg, a, x);
    Onward(reg, s, a, Resend(x), b);
    var c := Apply(reg, b, Redial);
    Onward(reg, s, b, Redial, c);
    t := CallArrives(reg, c, x);
    Chain(reg, s, c, t);
  }

  lemma BackOff(reg: H.Registry, s: State, x: int) returns (t: State)
    requires InPhase(s, x, Waiting) && !s.calls[x].offering && s.calls[x].retry
    requires TokOf(s, x) in s.client.ready && s.client.ready[TokOf(s, x)] == [C.Answer(x, C.CONNECTION_LOST)]
    ensures Does(reg, s, Collect(x), t) && t == s.(calls := s.calls[x := s.calls[x].(phase := Backoff)])
  {
    t := Apply(reg, s, Collect(x));
  }

  lemma SendAgain(reg: H.Registry, s: State, x: int) returns (t: State)
    requires InPhase(s, x, Backoff)
    ensures Does(reg, s, Resend(x), t)
    ensures t == s.(calls := s.calls[x := s.calls[x].(phase := Sending, nth := s.calls[x].nth + 1, sawDone := false)])
  {
    t := Apply(reg, s, Resend(x));
  }

  /** A client that stops lets go of the callers whose requests or cancels nobody takes any more. */
  lemma StopReleases(reg: H.Registry, s: State, x: int)
    requires !s.exiting && s.client.loop.Idle? && x in s.calls
    ensures Enabled(reg, s, Stop)
    ensures var t := Apply(reg, s, Stop);
            && (s.calls[x].phase.Sending? ==> Enabled(reg, t, GiveUp(x)) && Apply(reg, t, GiveUp(x)).calls[x].phase == Failed)
            && (s.calls[x].offering ==> Enabled(reg, t, DropCancel(x)) && !Apply(reg, t, DropCancel(x)).calls[x].offering)
  {
  }

  /** A ping is answered with a pong, which waits on its own queue. */
  lemma PingAnswered(reg: H.Registry, s: State, at: Raw)
    requires Enabled(reg, s, ServerHandle(at)) && s.up.frames[0].Ping?
    ensures var t := Apply(reg, s, ServerHandle(at));
            t.down.keepAlive == s.down.keepAlive + [Pong(at)] && t.down.write == s.down.write && t.server == s.server
  {
  }
}
