/** Each step keeps what is known about the messages under way. */
module Transit {
  import opened Basics
  import opened Wire
  import opened Pipes
  import opened Engine
  import opened Invariants
  import opened Preservation
  import H = Handler
  import O = OutChans
  import C = ClientConn
  import V = ServerConn

  // ---- steps that only move messages along ----

  predicate UpMove(e: Step) {
    e.ClientSend? || e.ClientSendKeepAlive? || e.ServerReceive?
  }

  predicate DownMove(e: Step) {
    e.ServerSend? || e.ServerSendKeepAlive? || e.ClientReceive?
  }

  lemma MovedAlong(p: Pipe, q: Pipe, sel: Sel)
    requires KeepAlivesOnly(p)
    requires || (p.write != [] && q == Send(p))
             || (p.keepAlive != [] && q == SendKeepAlive(p))
             || (p.wire != [] && q == Receive(p))
    ensures InTransit(q, sel) == InTransit(p, sel)
  {
    if p.write != [] && q == Send(p) { SendKeeps(p, sel); }
    else if p.keepAlive != [] && q == SendKeepAlive(p) { SendKeepAliveKeeps(p, sel); }
    else { ReceiveKeeps(p, sel); }
  }

  // ---- calls on their way to the server ----

  lemma PutOther(p: Pipe, m: Msg, sel: Sel)
    ensures InTransit(Put(p, [m]), sel) == InTransit(p, sel) + if Matches(sel, m) then [m] else []
  {
    PutAdds(p, [m], sel);
    O.PickOne(m, sel);
  }

  lemma TakenGoesUp(up: Pipe, arrived: set<int>, taken: set<int>, x: int, m: Msg)
    requires CallsOnce(up, arrived, taken) && x !in taken && m.Call? && m.callId == Some(x)
    ensures CallsOnce(Put(up, [m]), arrived, taken + {x})
  {
    forall y ensures |InTransit(Put(up, [m]), Calls(y))| + Bit(y in arrived) == Bit(y in taken + {x}) {
      PutOther(up, m, Calls(y));
      assert |InTransit(up, Calls(y))| + Bit(y in arrived) == Bit(y in taken);
    }
  }

  lemma CancelGoesUp(up: Pipe, arrived: set<int>, taken: set<int>, x: int)
    requires CallsOnce(up, arrived, taken)
    ensures CallsOnce(Put(up, [Cancel(x)]), arrived, taken)
  {
    forall y ensures InTransit(Put(up, [Cancel(x)]), Calls(y)) == InTransit(up, Calls(y)) {
      PutOther(up, Cancel(x), Calls(y));
    }
  }

  lemma FrameArrives(up: Pipe, server: V.Server, taken: set<int>)
    requires CallsOnce(up, server.calls.Keys, taken) && up.frames != []
    requires V.Fresh(server, V.Incoming(up.frames[0]))
    ensures CallsOnce(Pop(up), V.OnFrame(server, up.frames[0]).calls.Keys, taken)
  {
    var after := V.OnFrame(server, up.frames[0]).calls.Keys;
    forall y ensures |InTransit(Pop(up), Calls(y))| + Bit(y in after) == Bit(y in taken) {
      OldestFirst(up, Calls(y));
      assert |InTransit(up, Calls(y))| + Bit(y in server.calls.Keys) == Bit(y in taken);
    }
  }

  predicate TouchesCalls(e: Step) {
    e.TakeCall? || e.TakeCancel? || e.WatcherFires? || e.ServerHandle? || e.Lose? || UpMove(e)
  }

  lemma OtherStepsUp(reg: H.Registry, s: State, e: Step, t: State)
    requires Enabled(reg, s, e) && t == Apply(reg, s, e) && !TouchesCalls(e)
    ensures t.taken == s.taken && t.server.calls.Keys == s.server.calls.Keys
    ensures t.up == s.up.(keepAlive := t.up.keepAlive)
  {
  }

  lemma QuietCalls(reg: H.Registry, s: State, e: Step, t: State)
    requires CallsOnce(s.up, s.server.calls.Keys, s.taken) && KeepAlivesOnly(s.up)
    requires Enabled(reg, s, e) && t == Apply(reg, s, e) && (!TouchesCalls(e) || UpMove(e))
    ensures CallsOnce(t.up, t.server.calls.Keys, t.taken)
  {
    if !TouchesCalls(e) {
      OtherStepsUp(reg, s, e, t);
      forall y ensures InTransit(t.up, Calls(y)) == InTransit(s.up, Calls(y)) { }
    } else {
      forall y ensures InTransit(t.up, Calls(y)) == InTransit(s.up, Calls(y)) { MovedAlong(s.up, t.up, Calls(y)); }
    }
  }

  lemma PutCalls(reg: H.Registry, s: State, e: Step, t: State)
    requires CallsOnce(s.up, s.server.calls.Keys, s.taken)
    requires Enabled(reg, s, e) && t == Apply(reg, s, e)
    requires e.TakeCall? || e.TakeCancel? || e.WatcherFires?
    requires e.TakeCall? ==> e.x !in s.taken
    ensures CallsOnce(t.up, t.server.calls.Keys, t.taken)
  {
    if e.TakeCall? { TakenGoesUp(s.up, s.server.calls.Keys, s.taken, e.x, RequestMsg(s, e.x)); }
    else if e.TakeCancel? { CancelGoesUp(s.up, s.server.calls.Keys, s.taken, e.x); }
    else { CancelGoesUp(s.up, s.server.calls.Keys, s.taken, e.tok.call); }
  }

  lemma ArriveCalls(reg: H.Registry, s: State, at: Raw, t: State)
    requires CallsOnce(s.up, s.server.calls.Keys, s.taken)
    requires Enabled(reg, s, ServerHandle(at)) && t == Apply(reg, s, ServerHandle(at))
    requires V.Fresh(s.server, V.Incoming(s.up.frames[0]))
    ensures CallsOnce(t.up, t.server.calls.Keys, t.taken)
  {
    FrameArrives(s.up, s.server, s.taken);
  }

  lemma LoseCalls(reg: H.Registry, s: State, t: State)
    requires Enabled(reg, s, Lose) && t == Apply(reg, s, Lose)
    ensures CallsOnce(t.up, t.server.calls.Keys, t.taken)
  {
  }

  lemma CallsOnceKept(reg: H.Registry, s: State, e: Step, t: State)
    requires CallsOnce(s.up, s.server.calls.Keys, s.taken) && KeepAlivesOnly(s.up)
    requires Enabled(reg, s, e) && t == Apply(reg, s, e)
    requires e.TakeCall? ==> e.x !in s.taken
    requires e.ServerHandle? ==> V.Fresh(s.server, V.Incoming(s.up.frames[0]))
    ensures CallsOnce(t.up, t.server.calls.Keys, t.taken)
  {
    if !TouchesCalls(e) || UpMove(e) { QuietCalls(reg, s, e, t); }
    else if e.ServerHandle? { ArriveCalls(reg, s, e.at, t); }
    else if e.Lose? { LoseCalls(reg, s, t); }
    else { PutCalls(reg, s, e, t); }
  }

  // ---- answers on their way to the client ----

  lemma ServerAnswers(reg: H.Registry, s: State, e: V.Event, t: State)
    requires RepliesOnce(s) && V.Inv(reg, s.server) && V.Enabled(s.server, e) && V.Fresh(s.server, e)
    requires t.server == V.Apply(reg, s.server, e) && t.down == Put(s.down, V.Output(reg, s.server, e))
    requires t.taken == s.taken && t.client.inflight == s.client.inflight
    ensures RepliesOnce(t)
  {
    forall x ensures |InTransit(t.down, Replies(x))| + Bit(Settled(t, x)) == Bit(V.HasReplied(t.server, x)) {
      PutAdds(s.down, V.Output(reg, s.server, e), Replies(x));
      V.OutputIsReply(reg, s.server, e, x);
      assert |InTransit(s.down, Replies(x))| + Bit(Settled(s, x)) == Bit(V.HasReplied(s.server, x));
    }
  }

  lemma ClientHears(reg: H.Registry, s: State, t: State)
    requires RepliesOnce(s) && C.Conserved(s.client.inflight, s.client.ready)
    requires s.client.inflight.Keys <= s.taken
    requires Enabled(reg, s, ClientHandle) && t == Apply(reg, s, ClientHandle) && Usable(s, s.down.frames[0])
    ensures RepliesOnce(t)
  {
    HandleEffect(reg, s, t);
    forall x ensures |InTransit(t.down, Replies(x))| + Bit(Settled(t, x)) == Bit(V.HasReplied(t.server, x)) {
      OldestFirst(s.down, Replies(x));
      assert |InTransit(s.down, Replies(x))| + Bit(Settled(s, x)) == Bit(V.HasReplied(s.server, x));
    }
  }

  lemma SameReplies(s: State, t: State)
    requires RepliesOnce(s)
    requires forall x :: InTransit(t.down, Replies(x)) == InTransit(s.down, Replies(x))
    requires forall x :: Settled(t, x) == Settled(s, x) && V.HasReplied(t.server, x) == V.HasReplied(s.server, x)
    ensures RepliesOnce(t)
  {
    forall x ensures |InTransit(t.down, Replies(x))| + Bit(Settled(t, x)) == Bit(V.HasReplied(t.server, x)) {
      assert |InTransit(s.down, Replies(x))| + Bit(Settled(s, x)) == Bit(V.HasReplied(s.server, x));
    }
  }

  predicate TouchesReplies(e: Step) {
    e.TakeCall? || e.ClientHandle? || e.ServerHandle? || e.ServerAct? || e.Lose? || DownMove(e)
  }

  lemma OtherStepsDown(reg: H.Registry, s: State, e: Step, t: State)
    requires Enabled(reg, s, e) && t == Apply(reg, s, e) && !TouchesReplies(e)
    ensures t.taken == s.taken && t.client.inflight == s.client.inflight
    ensures t.server == s.server && t.down == s.down && t.heard == s.heard
  {
  }

  lemma QuietReplies(reg: H.Registry, s: State, e: Step, t: State)
    requires RepliesOnce(s) && KeepAlivesOnly(s.down)
    requires Enabled(reg, s, e) && t == Apply(reg, s, e)
    requires !TouchesReplies(e) || DownMove(e)
    ensures RepliesOnce(t)
  {
    if !TouchesReplies(e) {
      OtherStepsDown(reg, s, e, t);
    } else {
      forall x ensures InTransit(t.down, Replies(x)) == InTransit(s.down, Replies(x)) {
        MovedAlong(s.down, t.down, Replies(x));
      }
    }
    SameReplies(s, t);
  }

  lemma TakeReplies(reg: H.Registry, s: State, x: int, t: State)
    requires RepliesOnce(s) && x !in s.taken
    requires Enabled(reg, s, TakeCall(x)) && t == Apply(reg, s, TakeCall(x))
    ensures RepliesOnce(t)
  {
    SameReplies(s, t);
  }

  lemma HandleReplies(reg: H.Registry, s: State, at: Raw, t: State)
    requires RepliesOnce(s)
    requires Enabled(reg, s, ServerHandle(at)) && t == Apply(reg, s, ServerHandle(at))
    requires V.Fresh(s.server, V.Incoming(s.up.frames[0]))
    ensures RepliesOnce(t)
  {
    forall x ensures V.HasReplied(t.server, x) == V.HasReplied(s.server, x) { }
    SameReplies(s, t);
  }

  lemma LoseReplies(reg: H.Registry, s: State, t: State)
    requires Enabled(reg, s, Lose) && t == Apply(reg, s, Lose)
    ensures RepliesOnce(t)
  {
  }

  lemma ActReplies(reg: H.Registry, s: State, e: V.Event, t: State)
    requires RepliesOnce(s) && V.Inv(reg, s.server)
    requires Enabled(reg, s, ServerAct(e)) && t == Apply(reg, s, ServerAct(e))
    ensures RepliesOnce(t)
  {
    ServerAnswers(reg, s, e, t);
  }

  lemma RepliesOnceKept(reg: H.Registry, s: State, e: Step, t: State)
    requires RepliesOnce(s) && KeepAlivesOnly(s.down) && V.Inv(reg, s.server)
    requires C.Conserved(s.client.inflight, s.client.ready) && s.client.inflight.Keys <= s.taken
    requires Enabled(reg, s, e) && t == Apply(reg, s, e)
    requires e.TakeCall? ==> e.x !in s.taken
    requires e.ServerHandle? ==> V.Fresh(s.server, V.Incoming(s.up.frames[0]))
    requires e.ClientHandle? ==> Usable(s, s.down.frames[0])
    ensures RepliesOnce(t)
  {
    if e.TakeCall? { TakeReplies(reg, s, e.x, t); }
    else if e.ServerHandle? { HandleReplies(reg, s, e.at, t); }
    else if e.ServerAct? { ActReplies(reg, s, e.e, t); }
    else if e.ClientHandle? { ClientHears(reg, s, t); }
    else if e.Lose? { LoseReplies(reg, s, t); }
    else { QuietReplies(reg, s, e, t); }
  }

  // ---- streams ----

  lemma StreamsFlow(reg: H.Registry, s: State, e: V.Event, down': Pipe)
    requires StreamsWhole(s.heard, s.down, s.server.outs) && V.Inv(reg, s.server) && V.Enabled(s.server, e)
    requires down' == Put(s.down, V.Output(reg, s.server, e))
    ensures StreamsWhole(s.heard, down', V.Apply(reg, s.server, e).outs)
  {
    var out := V.Output(reg, s.server, e);
    forall ch ensures Consumed(s.heard, ch) + InTransit(down', Stream(ch)) == O.History(V.Apply(reg, s.server, e).outs, ch) {
      PutAdds(s.down, out, Stream(ch));
      V.OutputIsHistory(reg, s.server, e, ch);
      Assoc(Consumed(s.heard, ch), InTransit(s.down, Stream(ch)), Pick(out, Stream(ch)));
    }
  }

  /** Only a call whose stub returns a channel is answered with a stream. */
  predicate Expected(s: State, m: Msg)
    requires Usable(s, m)
  {
    m.Reply? && m.body.Chan? ==> s.client.inflight[m.id].stream
  }

  /** What the client consumed grows by the frame it handles, for the one stream it belongs to. */
  lemma ConsumedGrows(c: C.Client, heard: map<nat, Heard>, outs: O.Outs, m: Msg, ch: nat, rest: seq<Msg>)
    requires Matches(Stream(ch), m) && Consumed(heard, ch) + ([m] + rest) == O.History(outs, ch)
    requires HandlersHeard(c.chanHandlers, heard)
    requires m.Reply? ==> m.id in c.inflight && c.inflight[m.id].stream && c.inflight[m.id].tok.call == m.id
    ensures Consumed(HeardAfter(c, heard, m), ch) == Consumed(heard, ch) + [m]
  {
    NextOfStream(heard, outs, ch, m, rest);
    match m
    case Reply(x, _) => assert O.Emitted(ch, x, [], true) == [m];
    case ChanValue(_, v) =>
      assert O.ValueMsgs(ch, heard[ch].vals + [v]) == O.ValueMsgs(ch, heard[ch].vals) + [m];
    case ChanClose(_) =>
  }

  lemma ConsumedStays(c: C.Client, heard: map<nat, Heard>, m: Msg, ch: nat)
    requires !Matches(Stream(ch), m)
    ensures Consumed(HeardAfter(c, heard, m), ch) == Consumed(heard, ch)
  {
  }

  /** Handling the oldest frame moves it from under way to consumed. */
  lemma HeardGrows(s: State, heard': map<nat, Heard>, ch: nat)
    requires StreamsWhole(s.heard, s.down, s.server.outs) && s.down.frames != []
    requires HandlersHeard(s.client.chanHandlers, s.heard) && Usable(s, s.down.frames[0])
    requires forall x :: x in s.client.inflight ==> s.client.inflight[x].tok.call == x
    requires Expected(s, s.down.frames[0])
    requires heard' == HeardAfter(s.client, s.heard, s.down.frames[0])
    ensures Consumed(heard', ch) + InTransit(Pop(s.down), Stream(ch)) == O.History(s.server.outs, ch)
  {
    var m := s.down.frames[0];
    var rest := InTransit(Pop(s.down), Stream(ch));
    OldestFirst(s.down, Stream(ch));
    assert Consumed(s.heard, ch) + InTransit(s.down, Stream(ch)) == O.History(s.server.outs, ch);
    if Matches(Stream(ch), m) {
      ConsumedGrows(s.client, s.heard, s.server.outs, m, ch, rest);
      Assoc(Consumed(s.heard, ch), [m], rest);
    } else {
      ConsumedStays(s.client, s.heard, m, ch);
      assert [] + rest == rest;
    }
  }

  lemma SameStreams(s: State, t: State)
    requires StreamsWhole(s.heard, s.down, s.server.outs) && t.heard == s.heard && t.server.outs == s.server.outs
    requires forall ch :: InTransit(t.down, Stream(ch)) == InTransit(s.down, Stream(ch))
    ensures StreamsWhole(t.heard, t.down, t.server.outs)
  {
    forall ch ensures Consumed(t.heard, ch) + InTransit(t.down, Stream(ch)) == O.History(t.server.outs, ch) {
      assert Consumed(s.heard, ch) + InTransit(s.down, Stream(ch)) == O.History(s.server.outs, ch);
    }
  }

  lemma QuietStreams(reg: H.Registry, s: State, e: Step, t: State)
    requires StreamsWhole(s.heard, s.down, s.server.outs) && KeepAlivesOnly(s.down)
    requires Enabled(reg, s, e) && t == Apply(reg, s, e)
    requires !TouchesReplies(e) || DownMove(e)
    ensures StreamsWhole(t.heard, t.down, t.server.outs)
  {
    if !TouchesReplies(e) {
      OtherStepsDown(reg, s, e, t);
    } else {
      forall ch ensures InTransit(t.down, Stream(ch)) == InTransit(s.down, Stream(ch)) {
        MovedAlong(s.down, t.down, Stream(ch));
      }
      SameStreams(s, t);
    }
  }

  lemma TakeStreams(reg: H.Registry, s: State, e: Step, t: State)
    requires StreamsWhole(s.heard, s.down, s.server.outs)
    requires Enabled(reg, s, e) && t == Apply(reg, s, e) && (e.TakeCall? || e.ServerHandle?)
    ensures StreamsWhole(t.heard, t.down, t.server.outs)
  {
    forall ch ensures InTransit(t.down, Stream(ch)) == InTransit(s.down, Stream(ch)) { }
    SameStreams(s, t);
  }

  lemma HandleStreams(reg: H.Registry, s: State, t: State)
    requires StreamsWhole(s.heard, s.down, s.server.outs)
    requires HandlersHeard(s.client.chanHandlers, s.heard)
    requires forall x :: x in s.client.inflight ==> s.client.inflight[x].tok.call == x
    requires Enabled(reg, s, ClientHandle) && t == Apply(reg, s, ClientHandle)
    requires Usable(s, s.down.frames[0]) && Expected(s, s.down.frames[0])
    ensures StreamsWhole(t.heard, t.down, t.server.outs)
  {
    forall ch ensures Consumed(t.heard, ch) + InTransit(t.down, Stream(ch)) == O.History(t.server.outs, ch) {
      HeardGrows(s, t.heard, ch);
    }
  }

  lemma LoseStreams(reg: H.Registry, s: State, t: State)
    requires Enabled(reg, s, Lose) && t == Apply(reg, s, Lose)
    ensures StreamsWhole(t.heard, t.down, t.server.outs)
  {
  }

  lemma ActStreams(reg: H.Registry, s: State, e: V.Event, t: State)
    requires StreamsWhole(s.heard, s.down, s.server.outs) && V.Inv(reg, s.server)
    requires Enabled(reg, s, ServerAct(e)) && t == Apply(reg, s, ServerAct(e))
    ensures StreamsWhole(t.heard, t.down, t.server.outs)
  {
    StreamsFlow(reg, s, e, t.down);
  }

  lemma StreamsWholeKept(reg: H.Registry, s: State, e: Step, t: State)
    requires StreamsWhole(s.heard, s.down, s.server.outs) && KeepAlivesOnly(s.down) && V.Inv(reg, s.server)
    requires HandlersHeard(s.client.chanHandlers, s.heard)
    requires forall x :: x in s.client.inflight ==> s.client.inflight[x].tok.call == x
    requires Enabled(reg, s, e) && t == Apply(reg, s, e)
    requires e.ClientHandle? ==> Usable(s, s.down.frames[0]) && Expected(s, s.down.frames[0])
    ensures StreamsWhole(t.heard, t.down, t.server.outs)
  {
    if e.ServerAct? { ActStreams(reg, s, e.e, t); }
    else if e.ClientHandle? { HandleStreams(reg, s, t); }
    else if e.Lose? { LoseStreams(reg, s, t); }
    else if e.TakeCall? || e.ServerHandle? { TakeStreams(reg, s, e, t); }
    else { QuietStreams(reg, s, e, t); }
  }

  // ---- what the messages say ----

  /** Calls are added, never dropped or renamed. */
  predicate Extends(a: State, b: State) {
    forall x :: x in a.calls ==>
      && x in b.calls && b.calls[x].name == a.calls[x].name
      && b.calls[x].params == a.calls[x].params && b.calls[x].stream == a.calls[x].stream
      && b.calls[x].retry == a.calls[x].retry
  }

  /** The call a step changes, if it changes one that exists. */
  function Touched(e: Step): Option<int> {
    match e
    case SeeDone(x) => Some(x)
    case DropCancel(x) => Some(x)
    case Collect(x) => Some(x)
    case Resend(x) => Some(x)
    case GiveUp(x) => Some(x)
    case TakeCall(x) => Some(x)
    case TakeCancel(x) => Some(x)
    case _ => None
  }

  lemma OneCallChanges(reg: H.Registry, s: State, e: Step, t: State)
    requires Enabled(reg, s, e) && t == Apply(reg, s, e) && !e.Issue?
    ensures Touched(e).None? ==> t.calls == s.calls
    ensures Touched(e).Some? ==>
      var x := Touched(e).value;
      && x in s.calls && x in t.calls && t.calls == s.calls[x := t.calls[x]]
      && t.calls[x].name == s.calls[x].name && t.calls[x].params == s.calls[x].params
      && t.calls[x].stream == s.calls[x].stream
    ensures s.client.ctxDone <= t.client.ctxDone
  {
  }

  lemma OtherStepsExtend(reg: H.Registry, s: State, e: Step, t: State)
    requires Enabled(reg, s, e) && t == Apply(reg, s, e) && !e.Issue?
    ensures t.calls.Keys == s.calls.Keys && Extends(s, t) && s.client.ctxDone <= t.client.ctxDone
  {
    OneCallChanges(reg, s, e, t);
  }

  lemma IssueExtends(reg: H.Registry, s: State, e: Step, t: State)
    requires Numbered(s.calls, s.idCtr) && Enabled(reg, s, e) && t == Apply(reg, s, e) && e.Issue?
    ensures Extends(s, t) && t.client == s.client
    ensures forall x :: x in t.calls && x !in s.calls ==>
      Callable(t.calls[x].name) && StubAgrees(reg, t.calls[x].name, t.calls[x].stream)
  {
    assert s.idCtr + 1 !in s.calls;
  }

  lemma CallsExtend(reg: H.Registry, s: State, e: Step, t: State)
    requires Numbered(s.calls, s.idCtr) && Enabled(reg, s, e) && t == Apply(reg, s, e)
    ensures Extends(s, t) && s.client.ctxDone <= t.client.ctxDone
    ensures forall x :: x in t.calls && x !in s.calls ==>
      Callable(t.calls[x].name) && StubAgrees(reg, t.calls[x].name, t.calls[x].stream)
  {
    if e.Issue? { IssueExtends(reg, s, e, t); } else { OtherStepsExtend(reg, s, e, t); }
  }

  lemma MoveGrows(p: Pipe, q: Pipe)
    requires KeepAlivesOnly(p)
    requires || (p.write != [] && q == Send(p))
             || (p.keepAlive != [] && q == SendKeepAlive(p))
             || (p.wire != [] && q == Receive(p))
             || (p.frames != [] && q == Pop(p))
    ensures KeepAlivesOnly(q) && forall m :: Carries(q, m) ==> Carries(p, m) || m.Ping? || m.Pong?
  {
  }

  /** What a step adds to the client's side of the upward pipe. */
  function AddsUp(s: State, e: Step): seq<Msg> {
    match e
    case TakeCall(x) => if x in s.calls then [RequestMsg(s, x)] else []
    case TakeCancel(x) => [Cancel(x)]
    case WatcherFires(tok) => if s.live then [Cancel(tok.call)] else []
    case _ => []
  }

  lemma UpGrows(reg: H.Registry, s: State, e: Step, t: State)
    requires Enabled(reg, s, e) && t == Apply(reg, s, e) && KeepAlivesOnly(s.up)
    ensures KeepAlivesOnly(t.up)
    ensures forall m :: Carries(t.up, m) ==> Carries(s.up, m) || m.Ping? || m.Pong? || m in AddsUp(s, e)
  {
    if UpMove(e) || (e.ServerHandle? && t.up == Pop(s.up)) { MoveGrows(s.up, t.up); }
  }

  lemma AddsUpOK(reg: H.Registry, s: State, e: Step)
    requires forall x :: x in s.calls && s.calls[x].offering ==> x in s.client.ctxDone
    requires forall tok :: tok in s.client.watchers ==> tok.call in s.calls
    requires Enabled(reg, s, e)
    ensures forall m :: m in AddsUp(s, e) ==> UpOK(s.calls, s.client.ctxDone, m)
  {
  }

  lemma UpOKExtends(s: State, t: State, m: Msg)
    requires Extends(s, t) && s.client.ctxDone <= t.client.ctxDone && UpOK(s.calls, s.client.ctxDone, m)
    ensures UpOK(t.calls, t.client.ctxDone, m)
  {
    if m.Call? {
      var x := m.callId.value;
      assert x in s.calls;
      assert x in t.calls && t.calls[x].name == s.calls[x].name && t.calls[x].params == s.calls[x].params;
    } else if m.Cancel? {
      assert m.id in t.calls;
    }
  }

  lemma UpSoundKept(reg: H.Registry, s: State, e: Step, t: State)
    requires UpSound(s.calls, s.client.ctxDone, s.up) && Numbered(s.calls, s.idCtr)
    requires forall x :: x in s.calls && s.calls[x].offering ==> x in s.client.ctxDone
    requires forall tok :: tok in s.client.watchers ==> tok.call in s.calls
    requires Enabled(reg, s, e) && t == Apply(reg, s, e)
    ensures UpSound(t.calls, t.client.ctxDone, t.up)
  {
    CallsExtend(reg, s, e, t);
    UpGrows(reg, s, e, t);
    AddsUpOK(reg, s, e);
    forall m | Carries(t.up, m) ensures UpOK(t.calls, t.client.ctxDone, m) {
      if m.Ping? || m.Pong? { } else { UpOKExtends(s, t, m); }
    }
  }

  /** Every answer the server writes is what the caller's stub expects, and none has code 2. */
  lemma OutputsOK(reg: H.Registry, s: State, e: V.Event)
    requires V.Inv(reg, s.server) && V.Enabled(s.server, e)
    requires ServerKnows(reg, s.calls, s.server, s.client.ctxDone)
    ensures forall m :: m in V.Output(reg, s.server, e) ==> DownOK(s.calls, m)
  {
    match e
    case Return(x, env) => V.ResultSound(reg, s.server.calls[x].req, env);
    case Register(x) => assert V.Keeps(reg, s.server.calls[x].req);
    case _ =>
  }

  lemma DownGrows(reg: H.Registry, s: State, e: Step, t: State)
    requires Enabled(reg, s, e) && t == Apply(reg, s, e) && KeepAlivesOnly(s.down)
    ensures KeepAlivesOnly(t.down)
    ensures forall m :: Carries(t.down, m) ==>
      Carries(s.down, m) || m.Ping? || m.Pong? || (e.ServerAct? && m in V.Output(reg, s.server, e.e))
  {
    if DownMove(e) || (e.ClientHandle? && t.down == Pop(s.down)) { MoveGrows(s.down, t.down); }
  }

  lemma DownSoundKept(reg: H.Registry, s: State, e: Step, t: State)
    requires DownSound(s.calls, s.down) && Numbered(s.calls, s.idCtr) && V.Inv(reg, s.server)
    requires ServerKnows(reg, s.calls, s.server, s.client.ctxDone)
    requires Enabled(reg, s, e) && t == Apply(reg, s, e)
    ensures DownSound(t.calls, t.down)
  {
    CallsExtend(reg, s, e, t);
    DownGrows(reg, s, e, t);
    if e.ServerAct? { OutputsOK(reg, s, e.e); }
    forall m | Carries(t.down, m) ensures DownOK(t.calls, m) {
      if Carries(s.down, m) { assert DownOK(s.calls, m); }
    }
  }

  lemma ActKeepsRequests(reg: H.Registry, s: V.Server, e: V.Event)
    requires V.Enabled(s, e) && !e.Incoming?
    ensures var t := V.Apply(reg, s, e);
            && t.calls.Keys == s.calls.Keys && t.cancelled == s.cancelled
            && forall x :: x in s.calls ==> t.calls[x].req == s.calls[x].req
  {
  }

  lemma ServerUntouched(reg: H.Registry, s: State, e: Step, t: State)
    requires Enabled(reg, s, e) && t == Apply(reg, s, e) && !e.ServerHandle? && !e.ServerAct? && !e.Lose?
    ensures t.server == s.server
  {
  }

  lemma ServerCallsEffect(reg: H.Registry, s: State, e: Step, t: State)
    requires Enabled(reg, s, e) && t == Apply(reg, s, e) && !e.ServerHandle? && !e.Lose?
    ensures t.server.calls.Keys == s.server.calls.Keys && t.server.cancelled == s.server.cancelled
    ensures forall x :: x in s.server.calls ==> t.server.calls[x].req == s.server.calls[x].req
  {
    if e.ServerAct? { ActKeepsRequests(reg, s.server, e.e); } else { ServerUntouched(reg, s, e, t); }
  }

  lemma ServerKnowsMore(reg: H.Registry, s: State, t: State)
    requires ServerKnows(reg, s.calls, s.server, s.client.ctxDone)
    requires Extends(s, t) && s.client.ctxDone <= t.client.ctxDone
    requires forall x :: x in t.calls && x !in s.calls ==>
      Callable(t.calls[x].name) && StubAgrees(reg, t.calls[x].name, t.calls[x].stream)
    requires t.server.calls.Keys == s.server.calls.Keys && t.server.cancelled == s.server.cancelled
    requires forall x :: x in s.server.calls ==> t.server.calls[x].req == s.server.calls[x].req
    ensures ServerKnows(reg, t.calls, t.server, t.client.ctxDone)
  {
  }

  lemma ServerLearns(reg: H.Registry, s: State, at: Raw, t: State)
    requires ServerKnows(reg, s.calls, s.server, s.client.ctxDone)
    requires UpSound(s.calls, s.client.ctxDone, s.up)
    requires Enabled(reg, s, ServerHandle(at)) && t == Apply(reg, s, ServerHandle(at))
    ensures ServerKnows(reg, t.calls, t.server, t.client.ctxDone)
  {
    assert Carries(s.up, s.up.frames[0]);
    assert UpOK(s.calls, s.client.ctxDone, s.up.frames[0]);
  }

  lemma ServerKnowsKept(reg: H.Registry, s: State, e: Step, t: State)
    requires ServerKnows(reg, s.calls, s.server, s.client.ctxDone) && Numbered(s.calls, s.idCtr)
    requires UpSound(s.calls, s.client.ctxDone, s.up)
    requires Enabled(reg, s, e) && t == Apply(reg, s, e)
    ensures ServerKnows(reg, t.calls, t.server, t.client.ctxDone)
  {
    if e.ServerHandle? { ServerLearns(reg, s, e.at, t); }
    else if !e.Lose? {
      CallsExtend(reg, s, e, t);
      ServerCallsEffect(reg, s, e, t);
      ServerKnowsMore(reg, s, t);
    }
  }
}
