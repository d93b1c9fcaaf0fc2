/** Each step keeps the client's streams in agreement with what it has heard. */
module Streams {
  import opened Wire
  import opened Pipes
  import opened Engine
  import opened Invariants
  import opened Preservation
  import opened Transit
  import H = Handler
  import O = OutChans
  import S = Sinks
  import C = ClientConn
  import V = ServerConn

  type Handlers = map<nat, C.Tok>
  type SinkMap = map<C.Tok, S.Sink>

  /** The client with its streams replaced. */
  function WithStreams(c: C.Client, handlers: Handlers, sinks: SinkMap, loop: C.Loop): C.Client {
    c.(chanHandlers := handlers, sinks := sinks, loop := loop)
  }

  ghost predicate Agreement(heard: map<nat, Heard>, c: C.Client) {
    && HandlersHeard(c.chanHandlers, heard)
    && OpenIffHandled(c.chanHandlers, c.sinks, c.ctxDone)
    && Faithful(heard, c)
  }

  /** A new stream: installed before its first value, with an empty sink. */
  lemma Install(heard: map<nat, Heard>, c: C.Client, ch: nat, tok: C.Tok)
    requires Agreement(heard, c) && ch !in heard && tok !in c.sinks && c.loop.Idle?
    ensures Agreement(heard[ch := Heard(tok, [], false)],
                      WithStreams(c, c.chanHandlers[ch := tok], c.sinks[tok := S.FRESH], c.loop))
  {
    forall a | a in heard ensures heard[a].tok in c.sinks { assert GotAll(heard[a], c); }
    InstallFaithful(heard, c, ch, tok);
    InstallHeard(c.chanHandlers, heard, ch, tok, c.sinks.Keys);
    InstallOpen(c.chanHandlers, c.sinks, c.ctxDone, ch, tok);
  }

  lemma InstallHeard(handlers: Handlers, heard: map<nat, Heard>, ch: nat, tok: C.Tok, toks: set<C.Tok>)
    requires HandlersHeard(handlers, heard) && ch !in heard && tok !in toks
    requires forall a :: a in heard ==> heard[a].tok in toks
    ensures HandlersHeard(handlers[ch := tok], heard[ch := Heard(tok, [], false)])
  {
  }

  lemma InstallFaithful(heard: map<nat, Heard>, c: C.Client, ch: nat, tok: C.Tok)
    requires Faithful(heard, c) && ch !in heard && tok !in c.sinks && c.loop.Idle?
    ensures Faithful(heard[ch := Heard(tok, [], false)],
                     WithStreams(c, c.chanHandlers[ch := tok], c.sinks[tok := S.FRESH], c.loop))
  {
    var c' := WithStreams(c, c.chanHandlers[ch := tok], c.sinks[tok := S.FRESH], c.loop);
    forall a | a in heard ensures GotAll(heard[a], c') { assert GotAll(heard[a], c); }
    assert GotAll(Heard(tok, [], false), c');
  }

  lemma InstallOpen(handlers: Handlers, sinks: SinkMap, ctxDone: set<int>, ch: nat, tok: C.Tok)
    requires OpenIffHandled(handlers, sinks, ctxDone) && ch !in handlers && tok !in sinks
    ensures OpenIffHandled(handlers[ch := tok], sinks[tok := S.FRESH], ctxDone)
  {
    var more := handlers[ch := tok];
    assert more[ch] == tok;
    forall t ensures C.Handled(more, t) <==> C.Handled(handlers, t) || t == tok {
      if C.Handled(handlers, t) {
        var a :| a in handlers && handlers[a] == t;
        assert a in more && more[a] == t;
      }
    }
  }

  /** A value: the loop goes to push it, or drops it when the stream's context is done. */
  lemma Value(heard: map<nat, Heard>, c: C.Client, ch: nat, v: Raw)
    requires Agreement(heard, c) && ch in heard && !heard[ch].closed && c.loop.Idle?
    ensures ch in c.chanHandlers
    ensures Agreement(heard[ch := heard[ch].(vals := heard[ch].vals + [v])], C.OnValue(c, ch, v))
  {
    ValueHeard(c.chanHandlers, heard, ch, v);
    ValueFaithful(heard, c, ch, v);
  }

  lemma ValueHeard(handlers: Handlers, heard: map<nat, Heard>, ch: nat, v: Raw)
    requires HandlersHeard(handlers, heard) && ch in heard
    ensures HandlersHeard(handlers, heard[ch := heard[ch].(vals := heard[ch].vals + [v])])
  {
  }

  lemma ValueFaithful(heard: map<nat, Heard>, c: C.Client, ch: nat, v: Raw)
    requires Faithful(heard, c) && ch in heard && ch in c.chanHandlers && c.loop.Idle?
    requires c.chanHandlers[ch] == heard[ch].tok && forall a :: a in heard && a != ch ==> heard[a].tok != heard[ch].tok
    ensures Faithful(heard[ch := heard[ch].(vals := heard[ch].vals + [v])], C.OnValue(c, ch, v))
  {
    var heard' := heard[ch := heard[ch].(vals := heard[ch].vals + [v])];
    var c' := C.OnValue(c, ch, v);
    forall a | a in heard' ensures GotAll(heard'[a], c') {
      assert GotAll(heard[a], c);
      if a != ch { assert heard[a].tok != heard[ch].tok; }
    }
  }

  /** A close: the handler goes and its sink is closed. */
  lemma Close(heard: map<nat, Heard>, c: C.Client, ch: nat)
    requires Agreement(heard, c) && C.HandlersOpen(c.chanHandlers, c.sinks)
    requires ch in heard && !heard[ch].closed && c.loop.Idle?
    ensures ch in c.chanHandlers
    ensures Agreement(heard[ch := heard[ch].(closed := true)], C.OnClose(c, ch))
  {
    CloseHeard(c.chanHandlers, heard, ch);
    CloseOpen(c.chanHandlers, c.sinks, c.ctxDone, ch);
    CloseFaithful(heard, c, ch);
  }

  lemma CloseHeard(handlers: Handlers, heard: map<nat, Heard>, ch: nat)
    requires HandlersHeard(handlers, heard) && ch in heard
    ensures HandlersHeard(handlers - {ch}, heard[ch := heard[ch].(closed := true)])
  {
  }

  lemma CloseOpen(handlers: Handlers, sinks: SinkMap, ctxDone: set<int>, ch: nat)
    requires OpenIffHandled(handlers, sinks, ctxDone) && C.HandlersOpen(handlers, sinks) && ch in handlers
    ensures OpenIffHandled(handlers - {ch}, C.CloseSink(sinks, handlers[ch]), ctxDone)
  {
    CloseHandled(handlers, ch);
  }

  lemma CloseFaithful(heard: map<nat, Heard>, c: C.Client, ch: nat)
    requires Faithful(heard, c) && C.HandlersOpen(c.chanHandlers, c.sinks) && ch in c.chanHandlers && ch in heard
    ensures Faithful(heard[ch := heard[ch].(closed := true)], C.OnClose(c, ch))
  {
    var heard' := heard[ch := heard[ch].(closed := true)];
    var c' := C.OnClose(c, ch);
    forall a | a in heard' ensures GotAll(heard'[a], c') {
      assert GotAll(heard[a], c);
      assert c'.sinks[heard[a].tok].accepted == c.sinks[heard[a].tok].accepted;
    }
  }

  lemma CloseHandled(handlers: Handlers, ch: nat)
    requires ch in handlers
    requires forall a, b :: a in handlers && b in handlers && a != b ==> handlers[a] != handlers[b]
    ensures forall t :: C.Handled(handlers - {ch}, t) <==> C.Handled(handlers, t) && t != handlers[ch]
  {
    var rest := handlers - {ch};
    forall t ensures C.Handled(rest, t) <==> C.Handled(handlers, t) && t != handlers[ch] {
      if C.Handled(handlers, t) && t != handlers[ch] {
        var a :| a in handlers && handlers[a] == t;
        assert a in rest && rest[a] == t;
      }
    }
  }

  /** A sink's own turn, or the push of the value in hand. */
  lemma TurnOf(heard: map<nat, Heard>, c: C.Client, tok: C.Tok, turn: S.Event, loop: C.Loop)
    requires Agreement(heard, c) && tok in c.sinks
    requires S.Enabled(c.sinks[tok], turn, tok.call in c.ctxDone)
    requires || (S.Goroutine(turn) && loop == c.loop)
             || (c.loop.Pushing? && c.loop.tok == tok && turn == S.Push(c.loop.v)
                 && !c.sinks[tok].inClosed && loop == C.Idle)
    ensures Agreement(heard, WithStreams(c, c.chanHandlers, c.sinks[tok := S.Apply(c.sinks[tok], turn)], loop))
  {
    var before, after := c.sinks[tok], S.Apply(c.sinks[tok], turn);
    TurnEffect(before, turn);
    TurnFaithful(heard, c, tok, after, loop);
    TurnOpen(c.chanHandlers, c.sinks, c.ctxDone, tok, after);
  }

  lemma TurnOpen(handlers: Handlers, sinks: SinkMap, ctxDone: set<int>, tok: C.Tok, after: S.Sink)
    requires OpenIffHandled(handlers, sinks, ctxDone) && tok in sinks && after.inClosed == sinks[tok].inClosed
    requires after.cancelled ==> sinks[tok].cancelled || tok.call in ctxDone
    ensures OpenIffHandled(handlers, sinks[tok := after], ctxDone)
  {
  }

  lemma TurnEffect(s: S.Sink, turn: S.Event)
    requires S.Enabled(s, turn, true) && (S.Goroutine(turn) || (turn.Push? && !s.inClosed))
    ensures var t := S.Apply(s, turn);
            && t.inClosed == s.inClosed
            && t.accepted == s.accepted + (if turn.Push? then [turn.v] else [])
            && (t.cancelled ==> s.cancelled || turn.SeeCancel?)
  {
  }

  lemma TurnFaithful(heard: map<nat, Heard>, c: C.Client, tok: C.Tok, after: S.Sink, loop: C.Loop)
    requires Faithful(heard, c) && tok in c.sinks && (loop == c.loop || loop == C.Idle)
    requires after.accepted + Hand(loop, tok) == c.sinks[tok].accepted + Hand(c.loop, tok)
    requires loop != c.loop ==> c.loop.tok == tok
    ensures Faithful(heard, WithStreams(c, c.chanHandlers, c.sinks[tok := after], loop))
  {
    var c' := WithStreams(c, c.chanHandlers, c.sinks[tok := after], loop);
    forall a | a in heard ensures GotAll(heard[a], c') {
      assert GotAll(heard[a], c);
    }
  }

  lemma HandleEffectOnStreams(reg: H.Registry, s: State, t: State)
    requires Enabled(reg, s, ClientHandle) && t == Apply(reg, s, ClientHandle)
    ensures s.client.loop.Idle? && t.client == C.OnFrame(s.client, s.down.frames[0])
    ensures t.heard == HeardAfter(s.client, s.heard, s.down.frames[0])
  {
  }

  lemma FrameOfStream(c: C.Client, heard: map<nat, Heard>, m: Msg, ch: nat)
    requires C.Inv(c) && Agreement(heard, c) && c.loop.Idle? && Matches(Stream(ch), m)
    requires m.Reply? <==> ch !in heard
    requires m.Reply? ==> m.id in c.inflight && c.inflight[m.id].stream
    requires !m.Reply? ==> !heard[ch].closed
    ensures Agreement(HeardAfter(c, heard, m), C.OnFrame(c, m))
  {
    if m.ChanValue? {
      Value(heard, c, ch, m.v);
    } else if m.ChanClose? {
      Close(heard, c, ch);
    } else {
      var tok := c.inflight[m.id].tok;
      assert C.Pending(c.inflight, tok);
      Install(heard, c, ch, tok);
      var d := WithStreams(c, c.chanHandlers[ch := tok], c.sinks[tok := S.FRESH], c.loop);
      SameStreamsOf(C.OnFrame(c, m), d, HeardAfter(c, heard, m));
    }
  }

  lemma FrameOfNoStream(c: C.Client, heard: map<nat, Heard>, m: Msg)
    requires Agreement(heard, c) && !m.ChanValue? && !m.ChanClose? && !(m.Reply? && m.body.Chan?)
    ensures Agreement(HeardAfter(c, heard, m), C.OnFrame(c, m))
  {
    SameStreamsOf(C.OnFrame(c, m), c, heard);
  }

  lemma HandleStream(reg: H.Registry, s: State, t: State)
    requires C.Inv(s.client) && Agreement(s.heard, s.client)
    requires Enabled(reg, s, ClientHandle) && t == Apply(reg, s, ClientHandle)
    requires Usable(s, s.down.frames[0]) && Expected(s, s.down.frames[0])
    requires StreamsWhole(s.heard, s.down, s.server.outs)
    ensures Agreement(t.heard, t.client)
  {
    HandleEffectOnStreams(reg, s, t);
    var m := s.down.frames[0];
    if m.ChanValue? || m.ChanClose? || (m.Reply? && m.body.Chan?) {
      var ch := if m.Reply? then m.body.ch else m.ch;
      ArrivesInOrder(s, ch);
      FrameOfStream(s.client, s.heard, m, ch);
    } else {
      FrameOfNoStream(s.client, s.heard, m);
    }
  }

  /** The oldest frame, when it belongs to a stream, is the next one of that stream. */
  lemma ArrivesInOrder(s: State, ch: nat)
    requires StreamsWhole(s.heard, s.down, s.server.outs) && s.down.frames != []
    requires Matches(Stream(ch), s.down.frames[0])
    ensures s.down.frames[0].Reply? <==> ch !in s.heard
    ensures !s.down.frames[0].Reply? ==> !s.heard[ch].closed
  {
    OldestFirst(s.down, Stream(ch));
    assert Consumed(s.heard, ch) + InTransit(s.down, Stream(ch)) == O.History(s.server.outs, ch);
    NextOfStream(s.heard, s.server.outs, ch, s.down.frames[0], InTransit(Pop(s.down), Stream(ch)));
  }

  lemma SameStreamsOf(c: C.Client, d: C.Client, heard: map<nat, Heard>)
    requires Agreement(heard, d) && c.chanHandlers == d.chanHandlers && c.sinks == d.sinks && c.loop == d.loop
    requires d.ctxDone <= c.ctxDone
    ensures Agreement(heard, c)
  {
  }

  lemma LoseEffect(reg: H.Registry, s: State, t: State)
    requires Enabled(reg, s, Lose) && t == Apply(reg, s, Lose)
    ensures s.client.loop.Idle? && t.client == C.AfterTeardown(s.client)
    ensures t.heard == map[] && t.lost == s.lost + [LogOf(s)]
  {
  }

  lemma LoseStream(c: C.Client)
    requires OpenIffHandled(c.chanHandlers, c.sinks, c.ctxDone)
    ensures Agreement(map[], C.AfterTeardown(c))
    ensures forall tok :: tok in C.AfterTeardown(c).sinks ==> C.AfterTeardown(c).sinks[tok].inClosed
  {
    assert c.chanHandlers - {} == c.chanHandlers;
    var d := C.AfterTeardown(c);
    forall tok | tok in d.sinks ensures d.sinks[tok].inClosed && d.sinks[tok].cancelled == c.sinks[tok].cancelled {
      assert c.sinks[tok].inClosed <==> !C.Handled(c.chanHandlers, tok);
    }
  }

  predicate TouchesStreams(e: Step) {
    e.ClientHandle? || e.FinishPush? || e.AbandonPush? || e.SinkTurn? || e.Lose?
  }

  lemma OtherStepsStreams(reg: H.Registry, s: State, e: Step, t: State)
    requires Enabled(reg, s, e) && t == Apply(reg, s, e) && !TouchesStreams(e)
    ensures t.client.chanHandlers == s.client.chanHandlers && t.client.sinks == s.client.sinks
    ensures t.client.loop == s.client.loop && t.heard == s.heard && s.client.ctxDone <= t.client.ctxDone
  {
  }

  lemma PushEffect(reg: H.Registry, s: State, e: Step, t: State)
    requires Enabled(reg, s, e) && t == Apply(reg, s, e)
    ensures e.FinishPush? ==>
      && C.Enabled(s.client, C.FinishPush) && t.heard == s.heard
      && t.client == WithStreams(s.client, s.client.chanHandlers,
           s.client.sinks[s.client.loop.tok := S.Apply(s.client.sinks[s.client.loop.tok], S.Push(s.client.loop.v))], C.Idle)
    ensures e.SinkTurn? ==>
      && C.Enabled(s.client, C.SinkTurn(e.tok, e.turn)) && t.heard == s.heard
      && t.client == WithStreams(s.client, s.client.chanHandlers,
           s.client.sinks[e.tok := S.Apply(s.client.sinks[e.tok], e.turn)], s.client.loop)
    ensures e.AbandonPush? ==>
      C.Enabled(s.client, C.AbandonPush) && t.heard == s.heard && t.client == s.client.(loop := C.Idle)
  {
  }

  /** The blocked loop waits to push into an open sink. */
  lemma PushTarget(c: C.Client)
    requires C.HandlersOpen(c.chanHandlers, c.sinks) && c.loop.Pushing? && C.Handled(c.chanHandlers, c.loop.tok)
    ensures c.loop.tok in c.sinks && !c.sinks[c.loop.tok].inClosed
  {
  }

  lemma AbandonFaithful(heard: map<nat, Heard>, c: C.Client)
    requires Agreement(heard, c) && C.Enabled(c, C.AbandonPush)
    ensures Agreement(heard, c.(loop := C.Idle))
  {
    forall a | a in heard ensures GotAll(heard[a], c.(loop := C.Idle)) { assert GotAll(heard[a], c); }
  }

  lemma PushStreams(reg: H.Registry, s: State, e: Step, t: State)
    requires C.HandlersOpen(s.client.chanHandlers, s.client.sinks) && Agreement(s.heard, s.client)
    requires s.client.loop.Pushing? ==> C.Handled(s.client.chanHandlers, s.client.loop.tok)
    requires Enabled(reg, s, e) && t == Apply(reg, s, e)
    requires e.FinishPush? || e.AbandonPush? || e.SinkTurn?
    ensures Agreement(t.heard, t.client)
  {
    PushEffect(reg, s, e, t);
    var c := s.client;
    if e.FinishPush? {
      PushTarget(c);
      TurnOf(s.heard, c, c.loop.tok, S.Push(c.loop.v), C.Idle);
    } else if e.SinkTurn? {
      TurnOf(s.heard, c, e.tok, e.turn, c.loop);
    } else {
      AbandonFaithful(s.heard, c);
    }
  }

  lemma AgreementKept(reg: H.Registry, s: State, e: Step, t: State)
    requires C.Inv(s.client) && Agreement(s.heard, s.client)
    requires StreamsWhole(s.heard, s.down, s.server.outs)
    requires Enabled(reg, s, e) && t == Apply(reg, s, e)
    requires e.ClientHandle? ==> Usable(s, s.down.frames[0]) && Expected(s, s.down.frames[0])
    ensures Agreement(t.heard, t.client)
  {
    if !TouchesStreams(e) {
      OtherStepsStreams(reg, s, e, t);
      SameStreamsOf(t.client, s.client, s.heard);
    }
    else if e.ClientHandle? { HandleStream(reg, s, t); }
    else if e.Lose? { LoseEffect(reg, s, t); LoseStream(s.client); }
    else { PushStreams(reg, s, e, t); }
  }

  lemma WatchersHeard(reg: H.Registry, s: State, t: State)
    requires C.Inv(s.client) && forall tok :: tok in s.client.watchers ==> tok.call in s.answered
    requires Enabled(reg, s, ClientHandle) && t == Apply(reg, s, ClientHandle) && Usable(s, s.down.frames[0])
    ensures forall tok :: tok in t.client.watchers ==> tok.call in t.answered
  {
    HandleEffect(reg, s, t);
  }

  lemma OnlyFramesWatch(reg: H.Registry, s: State, e: Step, t: State)
    requires Enabled(reg, s, e) && t == Apply(reg, s, e) && !e.ClientHandle?
    ensures t.client.watchers <= s.client.watchers && t.answered == s.answered
  {
  }

  lemma WatchersKept(reg: H.Registry, s: State, e: Step, t: State)
    requires C.Inv(s.client) && forall tok :: tok in s.client.watchers ==> tok.call in s.answered
    requires Enabled(reg, s, e) && t == Apply(reg, s, e)
    requires e.ClientHandle? ==> Usable(s, s.down.frames[0])
    ensures forall tok :: tok in t.client.watchers ==> tok.call in t.answered
  {
    if e.ClientHandle? { WatchersHeard(reg, s, t); } else { OnlyFramesWatch(reg, s, e, t); }
  }

  // ---- streams of earlier connections ----

  /** Sinks only grow in number, and a closed one accepts nothing more. */
  ghost predicate SinksGrow(a: SinkMap, b: SinkMap) {
    forall tok :: tok in a ==>
      && tok in b && a[tok].accepted <= b[tok].accepted
      && (a[tok].inClosed ==> b[tok].inClosed && b[tok].accepted == a[tok].accepted)
  }

  lemma TurnGrows(s: S.Sink, e: S.Event)
    requires S.Enabled(s, e, true)
    ensures s.accepted <= S.Apply(s, e).accepted
    ensures s.inClosed ==> S.Apply(s, e).inClosed && S.Apply(s, e).accepted == s.accepted
  {
  }

  lemma ReplySinksGrow(c: C.Client, m: Msg)
    requires C.SinksOfAnswered(c.inflight, c.ready, c.sinks.Keys)
    requires forall x :: x in c.inflight ==> c.inflight[x].tok.call == x
    ensures SinksGrow(c.sinks, C.OnFrame(c, m).sinks)
  {
    if m.Reply? && m.id in c.inflight { assert C.Pending(c.inflight, c.inflight[m.id].tok); }
  }

  lemma TeardownSinksGrow(c: C.Client)
    ensures SinksGrow(c.sinks, C.AfterTeardown(c).sinks)
  {
  }

  lemma TurnOfGrows(sinks: SinkMap, tok: C.Tok, turn: S.Event)
    requires tok in sinks && S.Enabled(sinks[tok], turn, true)
    ensures SinksGrow(sinks, sinks[tok := S.Apply(sinks[tok], turn)])
  {
    TurnGrows(sinks[tok], turn);
  }

  lemma SinksGrowKept(reg: H.Registry, s: State, e: Step, t: State)
    requires C.SinksOfAnswered(s.client.inflight, s.client.ready, s.client.sinks.Keys)
    requires forall x :: x in s.client.inflight ==> s.client.inflight[x].tok.call == x
    requires Enabled(reg, s, e) && t == Apply(reg, s, e) && !e.Lose?
    ensures SinksGrow(s.client.sinks, t.client.sinks)
  {
    var c := s.client;
    if !TouchesStreams(e) {
      OtherStepsStreams(reg, s, e, t);
    } else if e.ClientHandle? {
      ReplySinksGrow(c, s.down.frames[0]);
    } else {
      PushEffect(reg, s, e, t);
      if e.FinishPush? { TurnOfGrows(c.sinks, c.loop.tok, S.Push(c.loop.v)); }
      else if e.SinkTurn? { TurnOfGrows(c.sinks, e.tok, e.turn); }
    }
  }

  lemma LosePast(s: State, sinks: SinkMap)
    requires PastPrefix(s.lost, s.client.sinks) && SinksGrow(s.client.sinks, sinks)
    requires StreamsWhole(s.heard, s.down, s.server.outs) && Faithful(s.heard, s.client)
    requires s.client.loop.Idle? && forall tok :: tok in sinks ==> sinks[tok].inClosed
    requires forall tok :: tok in s.client.sinks ==> sinks[tok].accepted == s.client.sinks[tok].accepted
    ensures PastPrefix(s.lost + [LogOf(s)], sinks)
  {
    PastKept(s.lost, s.client.sinks, sinks);
    forall ch | ch in s.heard
      ensures ch in s.server.outs && s.server.outs[ch].req == s.heard[ch].tok.call
      ensures s.heard[ch].tok in s.client.sinks
      ensures s.client.sinks[s.heard[ch].tok].accepted <= s.server.outs[ch].read
    {
      assert Consumed(s.heard, ch) + InTransit(s.down, Stream(ch)) == O.History(s.server.outs, ch);
      HeardIsPrefix(s.heard, s.server.outs, ch, InTransit(s.down, Stream(ch)));
      assert GotAll(s.heard[ch], s.client);
    }
  }

  lemma LoseKeepsAccepted(c: C.Client)
    ensures forall tok :: tok in c.sinks ==>
      tok in C.AfterTeardown(c).sinks && C.AfterTeardown(c).sinks[tok].accepted == c.sinks[tok].accepted
  {
  }

  lemma OriginKept(reg: H.Registry, s: State, e: Step, t: State, tok: C.Tok)
    requires HasOrigin(s, tok) && !e.Lose? && Enabled(reg, s, e) && t == Apply(reg, s, e)
    requires e.ClientHandle? && s.down.frames[0].Reply? && s.down.frames[0].body.Chan? ==> s.down.frames[0].body.ch !in s.heard
    ensures HasOrigin(t, tok)
  {
    assert t.lost == s.lost;
    if ch :| HeardAs(s.heard, ch, tok) {
      assert HeardAs(t.heard, ch, tok);
    } else {
      var k, ch :| 0 <= k < |s.lost| && HeardAs(s.lost[k].heard, ch, tok);
      assert HeardAs(t.lost[k].heard, ch, tok);
    }
  }

  /** Only handling a frame makes a sink. */
  lemma SinksOnlyFromFrames(reg: H.Registry, s: State, e: Step, t: State)
    requires Enabled(reg, s, e) && t == Apply(reg, s, e) && !e.Lose? && !e.ClientHandle?
    ensures t.client.sinks.Keys == s.client.sinks.Keys
  {
    if TouchesStreams(e) { PushEffect(reg, s, e, t); } else { OtherStepsStreams(reg, s, e, t); }
  }

  lemma NewSinkHeard(reg: H.Registry, s: State, t: State, tok: C.Tok)
    requires Enabled(reg, s, ClientHandle) && t == Apply(reg, s, ClientHandle)
    requires Usable(s, s.down.frames[0])
    requires tok in t.client.sinks && tok !in s.client.sinks
    ensures HasOrigin(t, tok)
  {
    assert s.down.frames[0].Reply? && s.down.frames[0].body.Chan?;
    assert HeardAs(t.heard, s.down.frames[0].body.ch, tok);
  }

  lemma LoseOrigin(s: State, t: State, tok: C.Tok)
    requires HasOrigin(s, tok) && t.lost == s.lost + [LogOf(s)]
    ensures HasOrigin(t, tok)
  {
    if ch :| HeardAs(s.heard, ch, tok) {
      assert HeardAs(t.lost[|s.lost|].heard, ch, tok);
    } else {
      var k, ch :| 0 <= k < |s.lost| && HeardAs(s.lost[k].heard, ch, tok);
      assert HeardAs(t.lost[k].heard, ch, tok);
    }
  }

  lemma PastKept(lost: seq<ConnLog>, a: SinkMap, b: SinkMap)
    requires PastPrefix(lost, a) && SinksGrow(a, b)
    ensures PastPrefix(lost, b)
  {
  }

  lemma LoseOrigins(reg: H.Registry, s: State, t: State)
    requires OpenIffHandled(s.client.chanHandlers, s.client.sinks, s.client.ctxDone)
    requires Faithful(s.heard, s.client) && OriginsInv(s)
    requires StreamsWhole(s.heard, s.down, s.server.outs)
    requires Enabled(reg, s, Lose) && t == Apply(reg, s, Lose)
    ensures OriginsInv(t)
  {
    LoseEffect(reg, s, t);
    LoseSinks(s);
    forall tok | tok in t.client.sinks ensures HasOrigin(t, tok) { LoseOrigin(s, t, tok); }
  }

  lemma LoseSinks(s: State)
    requires OpenIffHandled(s.client.chanHandlers, s.client.sinks, s.client.ctxDone)
    requires Faithful(s.heard, s.client) && PastPrefix(s.lost, s.client.sinks) && s.client.loop.Idle?
    requires StreamsWhole(s.heard, s.down, s.server.outs)
    ensures PastPrefix(s.lost + [LogOf(s)], C.AfterTeardown(s.client).sinks)
  {
    LoseStream(s.client);
    TeardownSinksGrow(s.client);
    LoseKeepsAccepted(s.client);
    LosePast(s, C.AfterTeardown(s.client).sinks);
  }

  lemma OriginsKept(reg: H.Registry, s: State, e: Step, t: State)
    requires C.Inv(s.client) && OriginsInv(s) && StreamsWhole(s.heard, s.down, s.server.outs)
    requires Enabled(reg, s, e) && t == Apply(reg, s, e) && !e.Lose?
    requires e.ClientHandle? ==> Usable(s, s.down.frames[0])
    ensures OriginsInv(t)
  {
    SinksGrowKept(reg, s, e, t);
    PastKept(s.lost, s.client.sinks, t.client.sinks);
    if e.ClientHandle? && s.down.frames[0].Reply? && s.down.frames[0].body.Chan? { ArrivesInOrder(s, s.down.frames[0].body.ch); }
    if !e.ClientHandle? { SinksOnlyFromFrames(reg, s, e, t); }
    forall tok | tok in t.client.sinks ensures HasOrigin(t, tok) {
      if tok in s.client.sinks { OriginKept(reg, s, e, t, tok); } else { NewSinkHeard(reg, s, t, tok); }
    }
  }

  lemma DownKept(reg: H.Registry, s: State, e: Step, t: State)
    requires Enabled(reg, s, e) && t == Apply(reg, s, e)
    requires !s.live ==> s.up == EMPTY && s.down == EMPTY && s.server == V.FRESH
                         && s.client.inflight == map[] && s.client.chanHandlers == map[]
    ensures !t.live ==> t.up == EMPTY && t.down == EMPTY && t.server == V.FRESH
                        && t.client.inflight == map[] && t.client.chanHandlers == map[]
  {
  }

  /** Every step keeps the whole invariant. */
  lemma StepKeepsInv(reg: H.Registry, s: State, e: Step)
    requires Inv(reg, s) && Enabled(reg, s, e)
    ensures Inv(reg, Apply(reg, s, e))
  {
    var t := Apply(reg, s, e);
    if e.TakeCall? { TakeIsFresh(s, e.x); }
    if e.ServerHandle? { CallArrives(reg, s); }
    if e.ClientHandle? && s.down.frames[0].Reply? { ReplyArrives(reg, s); }
    AllKept(reg, s, e, t);
  }

  lemma EndsKept(reg: H.Registry, s: State, e: Step, t: State)
    requires C.Inv(s.client) && V.Inv(reg, s.server) && CallersInv(s)
    requires Enabled(reg, s, e) && t == Apply(reg, s, e)
    requires e.TakeCall? ==> C.Fresh(s.client, C.Take(C.Attempt(TokOf(s, e.x), s.calls[e.x].stream)))
    requires e.ServerHandle? ==> V.Fresh(s.server, V.Incoming(s.up.frames[0]))
    requires e.ClientHandle? ==> Usable(s, s.down.frames[0])
    ensures C.Inv(t.client) && V.Inv(reg, t.server) && CallersInv(t)
  {
    ClientKept(reg, s, e);
    ServerKept(reg, s, e);
    CallersKept(reg, s, e, t);
  }

  /** A watcher belongs to a call that was sent. */
  lemma WatchersKnown(s: State)
    requires C.Inv(s.client) && SentAttempts(s.calls, s.client.ready)
    ensures forall tok :: tok in s.client.watchers ==> tok.call in s.calls
  {
  }

  lemma TransitKept(reg: H.Registry, s: State, e: Step, t: State)
    requires C.Inv(s.client) && V.Inv(reg, s.server) && CallersInv(s) && TransitInv(reg, s)
    requires HandlersHeard(s.client.chanHandlers, s.heard)
    requires Enabled(reg, s, e) && t == Apply(reg, s, e)
    requires e.TakeCall? ==> e.x !in s.taken
    requires e.ServerHandle? ==> V.Fresh(s.server, V.Incoming(s.up.frames[0]))
    requires e.ClientHandle? ==> Usable(s, s.down.frames[0]) && Expected(s, s.down.frames[0])
    ensures TransitInv(reg, t)
  {
    CallsOnceKept(reg, s, e, t);
    RepliesOnceKept(reg, s, e, t);
    StreamsWholeKept(reg, s, e, t);
    WatchersKnown(s);
    UpSoundKept(reg, s, e, t);
    DownSoundKept(reg, s, e, t);
    ServerKnowsKept(reg, s, e, t);
  }

  lemma StreamsKept(reg: H.Registry, s: State, e: Step, t: State)
    requires C.Inv(s.client) && StreamsInv(s) && OriginsInv(s) && StreamsWhole(s.heard, s.down, s.server.outs)
    requires Enabled(reg, s, e) && t == Apply(reg, s, e)
    requires e.ClientHandle? ==> Usable(s, s.down.frames[0]) && Expected(s, s.down.frames[0])
    ensures StreamsInv(t) && OriginsInv(t)
  {
    AgreementKept(reg, s, e, t);
    WatchersKept(reg, s, e, t);
    if e.Lose? { LoseOrigins(reg, s, t); } else { OriginsKept(reg, s, e, t); }
  }

  lemma AllKept(reg: H.Registry, s: State, e: Step, t: State)
    requires Inv(reg, s) && Enabled(reg, s, e) && t == Apply(reg, s, e)
    requires e.TakeCall? ==> e.x !in s.taken && C.Fresh(s.client, C.Take(C.Attempt(TokOf(s, e.x), s.calls[e.x].stream)))
    requires e.ServerHandle? ==> V.Fresh(s.server, V.Incoming(s.up.frames[0]))
    requires e.ClientHandle? ==> Usable(s, s.down.frames[0]) && Expected(s, s.down.frames[0])
    ensures Inv(reg, t)
  {
    EndsKept(reg, s, e, t);
    TransitKept(reg, s, e, t);
    StreamsKept(reg, s, e, t);
    DownKept(reg, s, e, t);
  }
}
