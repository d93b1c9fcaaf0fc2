/**
 What callers get is what the server's handler answered, for the same call
 (jsonrpc/handler.go:192-328, jsonrpc/websocket.go:286-313, jsonrpc/client.go:531-562).
 */
module Answers {
  import opened Basics
  import opened Wire
  import opened Pipes
  import opened Engine
  import opened Invariants
  import Streams
  import R = Theorems
  import T = Transit
  import K = Cancellation
  import P = Preservation
  import H = Handler
  import O = OutChans
  import C = ClientConn
  import V = ServerConn

  type Given = map<int, Body>
  type Envs = map<int, H.Env>

  // ---- what a server may answer ----

  predicate Succeeds(m: H.Method, r: H.CallResult) {
    r.Returned? && !H.Failed(m, r)
  }

  /** The request's method ran, with its decoded parameters, and returned this channel. */
  ghost predicate HandedOver(reg: H.Registry, req: Request, env: H.Env, source: nat) {
    exists m, args, r ::
      H.Called(reg, req, env, m, args, r) && Succeeds(m, r) && H.IsStream(m) && r.source == source
  }

  /** It ran and returned this value: its own, if it has one and it is not a nil interface. */
  ghost predicate Gave(reg: H.Registry, req: Request, env: H.Env, value: Option<Raw>) {
    exists m, args, r ::
      H.Called(reg, req, env, m, args, r) && Succeeds(m, r) && !H.IsStream(m)
      && value == if m.valOut != -1 then r.plain else None
  }

  /** It ran and panicked, or returned an error. */
  ghost predicate Broke(reg: H.Registry, req: Request, env: H.Env, err: RespError) {
    exists m, args, r ::
      H.Called(reg, req, env, m, args, r)
      && ((r.Panicked? && err == RespError(0, r.why)) || (H.Failed(m, r) && err == RespError(1, r.err.value)))
  }

  /** There is no such method, or it does not take these parameters. */
  ghost predicate Unfit(reg: H.Registry, req: Request, env: H.Env, err: RespError) {
    || (err.code == H.METHOD_NOT_FOUND && forall m :: !H.Named(reg, req.name, m))
    || (err.code == H.INVALID_PARAMS && exists m :: H.Named(reg, req.name, m) && |m.paramTypes| != |req.params|)
    || (err.code == H.PARSE_ERROR && exists m ::
          H.Named(reg, req.name, m) && |m.paramTypes| == |req.params|
          && exists i :: H.FirstBad(env, m.paramTypes, req.params, i, err.message))
  }

  /**
   What the answer to call x says of its handling, given what its parameters decoded to and
   what its method returned: its value; a stream registered for x over the channel returned;
   its error or panic; why it could not be called; or that the connection was closing when
   its channel was handed over.
   */
  ghost predicate Said(reg: H.Registry, req: Request, x: int, env: H.Env, body: Body, outs: O.Outs) {
    match body
    case Value(v, e) => e.None? && Gave(reg, req, env, Some(v))
    case Chan(ch, e) => e.None? && ch in outs && outs[ch].req == x && HandedOver(reg, req, env, outs[ch].source)
    case Empty(e) =>
      if e.None? then Gave(reg, req, env, None)
      else
        || Broke(reg, req, env, e.value) || Unfit(reg, req, env, e.value)
        || (e.value == RespError(1, V.CLOSING) && exists source :: HandedOver(reg, req, env, source))
  }

  function RequestOf(calls: Calls, x: int): Request
    requires x in calls
  {
    Request("2.0", Some(x), calls[x].name, calls[x].params, map[])
  }

  /** A response is the body it was made from: result and error both, and its id. */
  lemma BodyKeepsResponse(r: Response)
    requires r.jsonrpc == "2.0"
    ensures ResponseOf(r.id, V.BodyOfResponse(r)) == r
  {
  }

  lemma RunSays(reg: H.Registry, req: Request, x: int, env: H.Env, m: H.Method, args: seq<string>, outs: O.Outs)
    requires req.id.Some? && H.Lookup(reg, req.name) == Some(m) && |req.params| == |m.paramTypes|
    requires H.DecodeAll(env, m.paramTypes, req.params) == H.Args(args)
    ensures var end := H.Process(reg, req, env, true).end;
            && (end.Answer? ==> Said(reg, req, x, env, V.BodyOfResponse(end.resp), outs))
            && (end.Register? ==> HandedOver(reg, req, env, end.source))
  {
    H.LookupIs(reg, req.name);
    H.DecodeAllPointwise(env, m.paramTypes, req.params);
    var r := env.call(m.name, H.CallParams(m, args));
    assert H.Called(reg, req, env, m, args, r);
  }

  /** How handling a request ends says what happened to it. */
  lemma EndSays(reg: H.Registry, req: Request, x: int, env: H.Env, outs: O.Outs)
    requires req.id.Some?
    ensures var end := H.Process(reg, req, env, true).end;
            && (end.Answer? ==> Said(reg, req, x, env, V.BodyOfResponse(end.resp), outs))
            && (end.Register? ==> HandedOver(reg, req, env, end.source))
  {
    H.LookupIs(reg, req.name);
    var found := H.Lookup(reg, req.name);
    if found.Some? && |req.params| == |found.value.paramTypes| {
      var m := found.value;
      var d := H.DecodeAll(env, m.paramTypes, req.params);
      if d.Args? {
        RunSays(reg, req, x, env, m, d.args, outs);
      } else {
        var i := H.FirstBadStops(env, m.paramTypes, req.params);
        assert H.Named(reg, req.name, m) && H.FirstBad(env, m.paramTypes, req.params, i, d.why);
        assert Unfit(reg, req, env, RespError(H.PARSE_ERROR, d.why));
      }
    } else if found.Some? {
      assert H.Named(reg, req.name, found.value);
    }
  }

  /** What the handler of each call that has run met is on record. */
  ghost predicate MetOnce(calls: map<int, V.SrvCall>, envs: Envs) {
    forall x :: x in envs <==> x in calls && !calls[x].phase.Executing?
  }

  /** Every channel offered or registered is the one that the handler of its call returned. */
  ghost predicate SourcesReturned(reg: H.Registry, calls: map<int, V.SrvCall>, outs: O.Outs, envs: Envs) {
    && (forall x :: x in calls && calls[x].phase.Registering? ==>
          x in envs && HandedOver(reg, calls[x].req, envs[x], calls[x].phase.source))
    && (forall ch :: ch in outs ==>
          && outs[ch].req in calls && outs[ch].req in envs
          && HandedOver(reg, calls[outs[ch].req].req, envs[outs[ch].req], outs[ch].source))
  }

  lemma MetKept(reg: H.Registry, s: V.Server, e: V.Event, envs: Envs)
    requires MetOnce(s.calls, envs) && V.Enabled(s, e) && V.Fresh(s, e)
    ensures MetOnce(V.Apply(reg, s, e).calls, Met(envs, e))
  {
  }

  lemma ReturnSources(reg: H.Registry, s: V.Server, x: int, env: H.Env, envs: Envs)
    requires SourcesReturned(reg, s.calls, s.outs, envs) && MetOnce(s.calls, envs)
    requires V.CallsSound(reg, s.calls) && V.Enabled(s, V.Return(x, env))
    ensures var t := V.Apply(reg, s, V.Return(x, env)); SourcesReturned(reg, t.calls, t.outs, envs[x := env])
  {
    assert x !in envs;
    EndSays(reg, s.calls[x].req, x, env, s.outs);
  }

  lemma FrameSources(reg: H.Registry, s: V.Server, m: Msg, envs: Envs)
    requires SourcesReturned(reg, s.calls, s.outs, envs) && V.Fresh(s, V.Incoming(m))
    ensures SourcesReturned(reg, V.OnFrame(s, m).calls, V.OnFrame(s, m).outs, envs)
  {
  }

  lemma ActSources(reg: H.Registry, s: V.Server, e: V.Event, envs: Envs)
    requires SourcesReturned(reg, s.calls, s.outs, envs) && V.Enabled(s, e) && !e.Return? && !e.Incoming?
    ensures SourcesReturned(reg, V.Apply(reg, s, e).calls, V.Apply(reg, s, e).outs, envs)
  {
    if e.Register? { RegisterSources(reg, s, e.call, envs); }
  }

  lemma RegisterSources(reg: H.Registry, s: V.Server, x: int, envs: Envs)
    requires SourcesReturned(reg, s.calls, s.outs, envs) && V.Enabled(s, V.Register(x))
    ensures var t := V.Apply(reg, s, V.Register(x)); SourcesReturned(reg, t.calls, t.outs, envs)
  {
  }

  lemma SourcesKept(reg: H.Registry, s: V.Server, e: V.Event, envs: Envs)
    requires SourcesReturned(reg, s.calls, s.outs, envs) && MetOnce(s.calls, envs)
    requires V.CallsSound(reg, s.calls) && V.Enabled(s, e) && V.Fresh(s, e)
    ensures SourcesReturned(reg, V.Apply(reg, s, e).calls, V.Apply(reg, s, e).outs, Met(envs, e))
  {
    if e.Return? { ReturnSources(reg, s, e.call, e.env, envs); }
    else if e.Incoming? { FrameSources(reg, s, e.m, envs); }
    else { ActSources(reg, s, e, envs); }
  }

  /** Streams go on belonging to the same call and channel. */
  ghost predicate SameStreams(a: O.Outs, b: O.Outs) {
    forall ch :: ch in a ==> ch in b && b[ch].req == a[ch].req && b[ch].source == a[ch].source
  }

  lemma StreamsStay(reg: H.Registry, s: V.Server, e: V.Event)
    requires V.Enabled(s, e)
    ensures SameStreams(s.outs, V.Apply(reg, s, e).outs)
  {
  }

  lemma OutputSaid(reg: H.Registry, s: V.Server, e: V.Event, envs: Envs)
    requires V.Inv(reg, s) && SourcesReturned(reg, s.calls, s.outs, envs) && MetOnce(s.calls, envs) && V.Enabled(s, e)
    ensures var out := V.Output(reg, s, e);
            |out| <= 1 && (out != [] && out[0].Reply? ==>
              var x := out[0].id;
              && x in s.calls && x in Met(envs, e)
              && Said(reg, s.calls[x].req, x, Met(envs, e)[x], out[0].body, V.Apply(reg, s, e).outs))
  {
    if e.Return? {
      V.ResultSound(reg, s.calls[e.call].req, e.env);
      EndSays(reg, s.calls[e.call].req, e.call, e.env, V.Apply(reg, s, e).outs);
    }
  }

  // ---- the invariant ----

  ghost predicate GivenIffReplied(given: Given, server: V.Server) {
    forall x :: x in given <==> V.HasReplied(server, x)
  }

  predicate GivenAs(given: Given, x: int, body: Body) {
    x in given && given[x] == body
  }

  ghost predicate CarriesGiven(down: Pipe, given: Given) {
    forall m :: Carries(down, m) && m.Reply? ==> GivenAs(given, m.id, m.body)
  }

  ghost predicate AllSaid(reg: H.Registry, calls: Calls, log: ConnLog) {
    forall x :: x in log.given ==>
      && x in calls && x in log.envs
      && Said(reg, RequestOf(calls, x), x, log.envs[x], log.given[x], log.outs)
  }

  ghost predicate PastSaid(reg: H.Registry, calls: Calls, lost: seq<ConnLog>) {
    forall k :: 0 <= k < |lost| ==> AllSaid(reg, calls, lost[k])
  }

  /** Some server, this one or an earlier one, answered the call like that. */
  ghost predicate GivenEver(given: Given, past: seq<ConnLog>, x: int, body: Body) {
    GivenAs(given, x, body) || exists k :: 0 <= k < |past| && GivenAs(past[k].given, x, body)
  }

  ghost predicate ReadyGiven(ready: Ready, given: Given, past: seq<ConnLog>) {
    forall tok :: tok in ready && ready[tok] != [] && !Lost(ready[tok][0].body) ==>
      GivenEver(given, past, tok.call, ready[tok][0].body)
  }

  ghost predicate AnswerInv(reg: H.Registry, s: State) {
    && GivenIffReplied(s.given, s.server)
    && CarriesGiven(s.down, s.given)
    && MetOnce(s.server.calls, s.envs)
    && SourcesReturned(reg, s.server.calls, s.server.outs, s.envs)
    && AllSaid(reg, s.calls, LogOf(s))
    && PastSaid(reg, s.calls, s.lost)
    && ReadyGiven(s.client.ready, s.given, s.lost)
  }

  // ---- steps ----

  lemma SaidStays(reg: H.Registry, s: State, t: State, log: ConnLog)
    requires T.Extends(s, t) && AllSaid(reg, s.calls, log)
    ensures AllSaid(reg, t.calls, log)
  {
    forall x | x in log.given
      ensures x in t.calls && x in log.envs
      ensures Said(reg, RequestOf(t.calls, x), x, log.envs[x], log.given[x], log.outs)
    {
      assert RequestOf(t.calls, x) == RequestOf(s.calls, x);
    }
  }

  lemma ReadyStays(ready: Ready, given: Given, past: seq<ConnLog>, given': Given)
    requires ReadyGiven(ready, given, past)
    requires forall x, body :: GivenAs(given, x, body) ==> GivenAs(given', x, body)
    ensures ReadyGiven(ready, given', past)
  {
  }

  lemma Counted(out: seq<Msg>, x: int)
    requires |out| <= 1
    ensures |Pick(out, Replies(x))| == Bit(out != [] && out[0].Reply? && out[0].id == x)
  {
    if out != [] {
      assert out == [out[0]];
      O.PickOne(out[0], Replies(x));
    }
  }

  /** An answer is recorded when it is written, and no call is answered twice. */
  lemma RecordedOnce(reg: H.Registry, s: V.Server, e: V.Event, given: Given)
    requires V.Inv(reg, s) && V.Enabled(s, e) && !e.Incoming? && GivenIffReplied(given, s)
    requires |V.Output(reg, s, e)| <= 1
    ensures var out := V.Output(reg, s, e);
            && GivenIffReplied(Recorded(given, out), V.Apply(reg, s, e))
            && (out != [] && out[0].Reply? ==> out[0].id !in given)
  {
    var out := V.Output(reg, s, e);
    forall x
      ensures x in Recorded(given, out) <==> V.HasReplied(V.Apply(reg, s, e), x)
      ensures out != [] && out[0].Reply? && out[0].id == x ==> x !in given
    {
      V.OutputIsReply(reg, s, e, x);
      Counted(out, x);
    }
  }

  lemma CarriesRecorded(down: Pipe, given: Given, out: seq<Msg>)
    requires CarriesGiven(down, given) && |out| <= 1
    requires out != [] && out[0].Reply? ==> out[0].id !in given
    ensures CarriesGiven(Put(down, out), Recorded(given, out))
  {
    forall m | Carries(Put(down, out), m) && m.Reply? ensures GivenAs(Recorded(given, out), m.id, m.body) {
      if Carries(down, m) { assert GivenAs(given, m.id, m.body); }
    }
  }

  lemma SaidRecorded(reg: H.Registry, s: State, e: V.Event, t: State)
    requires AllSaid(reg, s.calls, LogOf(s)) && V.Inv(reg, s.server) && V.Enabled(s.server, e)
    requires SourcesReturned(reg, s.server.calls, s.server.outs, s.envs) && MetOnce(s.server.calls, s.envs)
    requires ServerKnows(reg, s.calls, s.server, s.client.ctxDone)
    requires GivenIffReplied(s.given, s.server) && t.calls == s.calls && t.server == V.Apply(reg, s.server, e)
    requires t.given == Recorded(s.given, V.Output(reg, s.server, e)) && t.envs == Met(s.envs, e)
    ensures AllSaid(reg, t.calls, LogOf(t))
  {
    OutputSaid(reg, s.server, e, s.envs);
    var out := V.Output(reg, s.server, e);
    forall x | x in t.given
      ensures x in t.calls && x in t.envs && Said(reg, RequestOf(t.calls, x), x, t.envs[x], t.given[x], t.server.outs)
    {
      if !(out != [] && out[0].Reply? && out[0].id == x) { EarlierStays(reg, s, e, t, x); }
    }
  }

  lemma EarlierStays(reg: H.Registry, s: State, e: V.Event, t: State, x: int)
    requires AllSaid(reg, s.calls, LogOf(s)) && V.Enabled(s.server, e) && GivenIffReplied(s.given, s.server)
    requires x in s.given && t.calls == s.calls && t.server == V.Apply(reg, s.server, e) && t.envs == Met(s.envs, e)
    ensures x in t.calls && x in t.envs && Said(reg, RequestOf(t.calls, x), x, t.envs[x], s.given[x], t.server.outs)
  {
    StreamsStay(reg, s.server, e);
    assert x in LogOf(s).given && V.HasReplied(s.server, x);
    EarlierSaid(reg, RequestOf(s.calls, x), x, s.envs[x], s.given[x], s.server.outs, t.server.outs);
  }

  lemma EarlierSaid(reg: H.Registry, req: Request, x: int, env: H.Env, body: Body, outs: O.Outs, outs': O.Outs)
    requires Said(reg, req, x, env, body, outs) && SameStreams(outs, outs')
    ensures Said(reg, req, x, env, body, outs')
  {
  }

  lemma ActEffect(reg: H.Registry, s: State, e: V.Event, t: State)
    requires Enabled(reg, s, ServerAct(e)) && t == Apply(reg, s, ServerAct(e))
    ensures V.Enabled(s.server, e) && !e.Incoming? && t.server == V.Apply(reg, s.server, e)
    ensures t.down == Put(s.down, V.Output(reg, s.server, e))
    ensures t.given == Recorded(s.given, V.Output(reg, s.server, e)) && t.envs == Met(s.envs, e)
    ensures t.calls == s.calls && t.client == s.client && t.lost == s.lost
  {
  }

  lemma ActGiven(reg: H.Registry, s: V.Server, e: V.Event, down: Pipe, given: Given)
    requires GivenIffReplied(given, s) && CarriesGiven(down, given)
    requires V.Inv(reg, s) && V.Enabled(s, e) && !e.Incoming? && |V.Output(reg, s, e)| <= 1
    ensures GivenIffReplied(Recorded(given, V.Output(reg, s, e)), V.Apply(reg, s, e))
    ensures CarriesGiven(Put(down, V.Output(reg, s, e)), Recorded(given, V.Output(reg, s, e)))
    ensures forall x, body :: GivenAs(given, x, body) ==> GivenAs(Recorded(given, V.Output(reg, s, e)), x, body)
  {
    RecordedOnce(reg, s, e, given);
    CarriesRecorded(down, given, V.Output(reg, s, e));
  }

  lemma ActKeeps(reg: H.Registry, s: State, e: V.Event, t: State)
    requires AnswerInv(reg, s) && V.Inv(reg, s.server) && ServerKnows(reg, s.calls, s.server, s.client.ctxDone)
    requires Enabled(reg, s, ServerAct(e)) && t == Apply(reg, s, ServerAct(e))
    ensures AnswerInv(reg, t)
  {
    ActEffect(reg, s, e, t);
    OneOutput(reg, s.server, e);
    ActGiven(reg, s.server, e, s.down, s.given);
    SaidRecorded(reg, s, e, t);
    SourcesKept(reg, s.server, e, s.envs);
    MetKept(reg, s.server, e, s.envs);
    ReadyStays(s.client.ready, s.given, s.lost, t.given);
  }

  lemma OneOutput(reg: H.Registry, s: V.Server, e: V.Event)
    requires V.Enabled(s, e)
    ensures |V.Output(reg, s, e)| <= 1
  {
  }

  /** A response handled carries what the server gave. */
  lemma HandleKeeps(reg: H.Registry, s: State, t: State)
    requires AnswerInv(reg, s) && C.Conserved(s.client.inflight, s.client.ready) && s.down.frames != []
    requires P.Usable(s, s.down.frames[0])
    requires Enabled(reg, s, ClientHandle) && t == Apply(reg, s, ClientHandle)
    ensures AnswerInv(reg, t)
  {
    P.HandleEffect(reg, s, t);
    HandleSame(reg, s, t);
    var m := s.down.frames[0];
    assert Carries(s.down, m);
    forall r | Carries(t.down, r) && r.Reply? ensures GivenAs(t.given, r.id, r.body) { assert Carries(s.down, r); }
    if m.Reply? { ReadyAnswered(s.client, s.given, s.lost, m.id, m.body); }
  }

  lemma HandleSame(reg: H.Registry, s: State, t: State)
    requires Enabled(reg, s, ClientHandle) && t == Apply(reg, s, ClientHandle)
    ensures t.given == s.given && t.lost == s.lost && t.server == s.server && t.envs == s.envs && t.down == Pop(s.down)
  {
  }

  lemma ReadyAnswered(c: C.Client, given: Given, past: seq<ConnLog>, x: int, body: Body)
    requires ReadyGiven(c.ready, given, past) && GivenAs(given, x, body)
    requires x in c.inflight && c.inflight[x].tok.call == x
    ensures ReadyGiven(c.ready[c.inflight[x].tok := [C.Answer(x, body)]], given, past)
  {
  }

  /** The answers of a lost connection stay on record; what its callers get instead is its loss. */
  lemma LoseKeeps(reg: H.Registry, s: State, t: State)
    requires AnswerInv(reg, s) && Enabled(reg, s, Lose) && t == Apply(reg, s, Lose)
    ensures AnswerInv(reg, t)
  {
    LoseSame(reg, s, t);
    assert AllSaid(reg, t.calls, LogOf(t));
    assert PastSaid(reg, t.calls, t.lost);
    LoseReady(s.client, s.given, s.lost, LogOf(s));
  }

  lemma LoseReady(c: C.Client, given: Given, past: seq<ConnLog>, log: ConnLog)
    requires ReadyGiven(c.ready, given, past) && log.given == given
    ensures ReadyGiven(C.AnsweredExcept(c, {}), map[], past + [log])
  {
    var past' := past + [log];
    forall x, body | GivenEver(given, past, x, body) ensures GivenEver(map[], past', x, body) {
      if GivenAs(given, x, body) {
        assert GivenAs(past'[|past|].given, x, body);
      } else {
        var k :| 0 <= k < |past| && GivenAs(past[k].given, x, body);
        assert GivenAs(past'[k].given, x, body);
      }
    }
  }

  lemma LoseSame(reg: H.Registry, s: State, t: State)
    requires Enabled(reg, s, Lose) && t == Apply(reg, s, Lose)
    ensures t.given == map[] && t.envs == map[] && t.server == V.FRESH && t.down == EMPTY && t.calls == s.calls
    ensures t.lost == s.lost + [LogOf(s)]
    ensures t.client.ready == C.AnsweredExcept(s.client, {})
  {
  }

  /** The other steps only move messages, start calls, or send attempts not yet answered. */
  lemma QuietEffect(reg: H.Registry, s: State, e: Step, t: State)
    requires Enabled(reg, s, e) && t == Apply(reg, s, e) && !e.ServerAct? && !e.ClientHandle? && !e.Lose?
    ensures t.given == s.given && t.envs == s.envs && t.lost == s.lost && t.server.outs == s.server.outs
    ensures forall tok :: tok in t.client.ready && t.client.ready[tok] != [] ==>
      tok in s.client.ready && s.client.ready[tok] == t.client.ready[tok]
  {
  }

  lemma RepliedStays(reg: H.Registry, s: State, e: Step, t: State, x: int)
    requires Enabled(reg, s, e) && t == Apply(reg, s, e) && !e.ServerAct? && !e.Lose?
    requires e.ServerHandle? ==> V.Fresh(s.server, V.Incoming(s.up.frames[0]))
    ensures V.HasReplied(t.server, x) == V.HasReplied(s.server, x)
  {
  }

  lemma QuietSaid(reg: H.Registry, s: State, e: Step, t: State)
    requires AllSaid(reg, s.calls, LogOf(s)) && PastSaid(reg, s.calls, s.lost) && Numbered(s.calls, s.idCtr)
    requires Enabled(reg, s, e) && t == Apply(reg, s, e) && !e.ServerAct? && !e.ClientHandle? && !e.Lose?
    ensures AllSaid(reg, t.calls, LogOf(t)) && PastSaid(reg, t.calls, t.lost)
  {
    QuietEffect(reg, s, e, t);
    T.CallsExtend(reg, s, e, t);
    SaidStays(reg, s, t, LogOf(s));
    forall k | 0 <= k < |s.lost| ensures AllSaid(reg, t.calls, s.lost[k]) { SaidStays(reg, s, t, s.lost[k]); }
  }

  lemma QuietServer(reg: H.Registry, s: State, e: Step, t: State)
    requires MetOnce(s.server.calls, s.envs) && SourcesReturned(reg, s.server.calls, s.server.outs, s.envs)
    requires Enabled(reg, s, e) && t == Apply(reg, s, e) && !e.ServerAct? && !e.ClientHandle? && !e.Lose?
    requires K.Orderly(s, e)
    ensures MetOnce(t.server.calls, t.envs) && SourcesReturned(reg, t.server.calls, t.server.outs, t.envs)
  {
    QuietEffect(reg, s, e, t);
    if e.ServerHandle? {
      FrameSources(reg, s.server, s.up.frames[0], s.envs);
      MetKept(reg, s.server, V.Incoming(s.up.frames[0]), s.envs);
    } else {
      T.ServerUntouched(reg, s, e, t);
    }
  }

  lemma QuietKeeps(reg: H.Registry, s: State, e: Step, t: State)
    requires AnswerInv(reg, s) && Numbered(s.calls, s.idCtr) && KeepAlivesOnly(s.down)
    requires Enabled(reg, s, e) && t == Apply(reg, s, e) && !e.ServerAct? && !e.ClientHandle? && !e.Lose?
    requires K.Orderly(s, e)
    ensures AnswerInv(reg, t)
  {
    QuietEffect(reg, s, e, t);
    QuietSaid(reg, s, e, t);
    QuietServer(reg, s, e, t);
    T.DownGrows(reg, s, e, t);
    forall x ensures x in t.given <==> V.HasReplied(t.server, x) { RepliedStays(reg, s, e, t, x); }
  }

  lemma AnswersKept(reg: H.Registry, s: State, e: Step, t: State)
    requires AnswerInv(reg, s) && V.Inv(reg, s.server) && ServerKnows(reg, s.calls, s.server, s.client.ctxDone)
    requires C.Conserved(s.client.inflight, s.client.ready) && Numbered(s.calls, s.idCtr) && KeepAlivesOnly(s.down)
    requires Enabled(reg, s, e) && t == Apply(reg, s, e) && K.Orderly(s, e)
    requires e.ClientHandle? ==> P.Usable(s, s.down.frames[0])
    ensures AnswerInv(reg, t)
  {
    if e.ServerAct? { ActKeeps(reg, s, e.e, t); }
    else if e.ClientHandle? { HandleKeeps(reg, s, t); }
    else if e.Lose? { LoseKeeps(reg, s, t); }
    else { QuietKeeps(reg, s, e, t); }
  }

  lemma StepKeepsAnswers(reg: H.Registry, s: State, e: Step)
    requires Enabled(reg, s, e) && AnswerInv(reg, s) && Inv(reg, s)
    ensures AnswerInv(reg, Apply(reg, s, e))
  {
    K.StepOrderly(reg, s, e);
    AnswersKept(reg, s, e, Apply(reg, s, e));
  }

  lemma {:induction false} RunKeepsAnswers(reg: H.Registry, s: State, es: seq<Step>)
    requires Inv(reg, s) && AnswerInv(reg, s)
    ensures Inv(reg, Run(reg, s, es)) && AnswerInv(reg, Run(reg, s, es))
    decreases |es|
  {
    if es != [] {
      if Enabled(reg, s, es[0]) {
        StepKeepsAnswers(reg, s, es[0]);
        Streams.StepKeepsInv(reg, s, es[0]);
      }
      RunKeepsAnswers(reg, StepOnce(reg, s, es[0]), es[1..]);
    }
  }

  lemma ReachableAnswers(reg: H.Registry, s: State)
    requires Reachable(reg, s)
    ensures AnswerInv(reg, s)
  {
    var es :| Run(reg, INIT, es) == s;
    InitInv(reg);
    InitAnswers(reg);
    RunKeepsAnswers(reg, INIT, es);
  }

  lemma InitAnswers(reg: H.Registry)
    ensures AnswerInv(reg, INIT)
  {
  }

  /** Over this connection the server answered call x like that, as its handling went. */
  ghost predicate Answered(reg: H.Registry, calls: Calls, log: ConnLog, x: int, body: Body) {
    && GivenAs(log.given, x, body) && x in calls && x in log.envs
    && Said(reg, RequestOf(calls, x), x, log.envs[x], body, log.outs)
  }

  /**
   What a caller gets is what a server answered to that very call, over this connection or
   a lost one, and the answer says how handling the call's own name and parameters went:
   the value or channel its method returned, its error or panic, or why it was not called.
   Or else it is the loss of the connection.
   */
  lemma CallerGetsHandlersAnswer(reg: H.Registry, s: State, x: int) returns (log: ConnLog)
    requires Reachable(reg, s) && x in s.calls && s.calls[x].phase.Returned?
    ensures log == LogOf(s) || log in s.lost
    ensures Lost(s.calls[x].phase.body) || Answered(reg, s.calls, log, x, s.calls[x].phase.body)
  {
    ReachableAnswers(reg, s);
    R.RetryOnlyAfterLoss(reg, s);
    log := LogOf(s);
    var body := s.calls[x].phase.body;
    if !Lost(body) {
      var tok := C.Tok(x, s.calls[x].nth);
      assert s.client.ready[tok] == [C.Answer(x, body)];
      assert GivenEver(s.given, s.lost, tok.call, body);
      if !GivenAs(s.given, x, body) {
        var k :| 0 <= k < |s.lost| && GivenAs(s.lost[k].given, x, body);
        log := s.lost[k];
        assert AllSaid(reg, s.calls, log);
      }
    }
  }

  /**
   A value that a caller gets is the one its method returned: the method registered under
   the call's name, or else its alias's, called with the caller's own parameters decoded.
   */
  lemma CallerGetsMethodsValue(reg: H.Registry, s: State, x: int)
    returns (log: ConnLog, m: H.Method, args: seq<string>, r: H.CallResult)
    requires Reachable(reg, s) && x in s.calls && s.calls[x].phase.Returned? && s.calls[x].phase.body.Value?
    requires !Lost(s.calls[x].phase.body)
    ensures (log == LogOf(s) || log in s.lost) && x in log.envs
    ensures H.Named(reg, s.calls[x].name, m) && |args| == |s.calls[x].params| == |m.paramTypes|
    ensures forall i :: 0 <= i < |args| ==> log.envs[x].decode(m.paramTypes[i], s.calls[x].params[i]) == H.Good(args[i])
    ensures r == log.envs[x].call(m.name, H.CallParams(m, args))
    ensures r.Returned? && r.plain == Some(s.calls[x].phase.body.raw) && s.calls[x].phase.body.error == None
  {
    log := CallerGetsHandlersAnswer(reg, s, x);
    var req, env := RequestOf(s.calls, x), log.envs[x];
    assert Gave(reg, req, env, Some(s.calls[x].phase.body.raw));
    m, args, r :| H.Called(reg, req, env, m, args, r) && Succeeds(m, r) && !H.IsStream(m)
      && Some(s.calls[x].phase.body.raw) == if m.valOut != -1 then r.plain else None;
  }
}
