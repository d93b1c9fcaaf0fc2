/**
 The client end of a connection: requests in flight, handlers of incoming streams,
 and what each incoming frame does to them (jsonrpc/websocket.go:217-313, 394-422, 500-507).
 */
module ClientConn {
  import opened Basics
  import opened Decimal
  import opened Wire
  import S = Sinks

  const CONNECTION_LOST := Failure(RespError(2, "handler: websocket connection closed"))

  /** One sending of a call: call id and how often the call was sent before. */
  datatype Tok = Tok(call: int, nth: nat)

  datatype Attempt = Attempt(tok: Tok, stream: bool)

  datatype Answer = Answer(id: int, body: Body)

  /** The loop is free, or blocked in a sink that waits to push a value. */
  datatype Loop = Idle | Pushing(tok: Tok, v: Raw)

  datatype Client = Client(
    inflight: map<int, Attempt>,
    ready: map<Tok, seq<Answer>>,     // all that was ever sent to an attempt's ready channel
    chanHandlers: map<nat, Tok>,      // the sink of each incoming stream
    sinks: map<Tok, S.Sink>,
    watchers: set<Tok>,               // handleCtxAsync goroutines
    loop: Loop,
    ctxDone: set<int>,                // calls whose context is done
    blocked: bool)                    // a send to a ready channel that was already used

  const FRESH := Client(map[], map[], map[], map[], {}, Idle, {}, false)

  datatype Event =
    | Take(att: Attempt)              // the loop takes a request
    | Incoming(m: Msg)                // handleFrame
    | FinishPush
    | AbandonPush
    | SinkTurn(tok: Tok, turn: S.Event)
    | WatcherFires(wtok: Tok)
    | Expire(call: int)               // a call's context is done
    | Teardown                        // closeChans, closeInFlight

  // ---- what each event does ----

  function SendReady(c: Client, tok: Tok, a: Answer): Client {
    if tok in c.ready && c.ready[tok] == [] then c.(ready := c.ready[tok := [a]])
    else c.(blocked := true)
  }

  function OnReply(c: Client, id: int, body: Body): Client {
    if id !in c.inflight then c
    else
      var att := c.inflight[id];
      if att.stream && body.Value? then c
      else
        var c1 := if att.stream && body.Chan?
          then c.(chanHandlers := c.chanHandlers[body.ch := att.tok],
                  sinks := c.sinks[att.tok := S.FRESH],
                  watchers := c.watchers + {att.tok})
          else c;
        var c2 := SendReady(c1, att.tok, Answer(id, body));
        c2.(inflight := c2.inflight - {id})
  }

  function OnValue(c: Client, ch: nat, v: Raw): Client {
    if ch !in c.chanHandlers then c
    else if c.chanHandlers[ch].call in c.ctxDone then c
    else c.(loop := Pushing(c.chanHandlers[ch], v))
  }

  function CloseSink(sinks: map<Tok, S.Sink>, tok: Tok): map<Tok, S.Sink> {
    if tok in sinks then sinks[tok := S.Apply(sinks[tok], S.CloseIn)] else sinks
  }

  function OnClose(c: Client, ch: nat): Client {
    if ch !in c.chanHandlers then c
    else c.(chanHandlers := c.chanHandlers - {ch}, sinks := CloseSink(c.sinks, c.chanHandlers[ch]))
  }

  function OnFrame(c: Client, m: Msg): Client {
    match m
    case Reply(id, body) => OnReply(c, id, body)
    case ChanValue(ch, v) => OnValue(c, ch, v)
    case ChanClose(ch) => OnClose(c, ch)
    case _ => c
  }

  /** The attempt has been taken and not yet answered. */
  predicate Pending(inflight: map<int, Attempt>, tok: Tok) {
    tok.call in inflight && inflight[tok.call].tok == tok
  }

  predicate Handled(handlers: map<nat, Tok>, tok: Tok) {
    exists ch :: ch in handlers && handlers[ch] == tok
  }

  function AfterTeardown(c: Client): Client {
    c.(chanHandlers := map[],
       sinks := ClosedExcept(c, {}),
       ready := AnsweredExcept(c, {}),
       inflight := map[])
  }

  /** The sinks when every handler outside todo has been told its stream closed. */
  function ClosedExcept(c: Client, todo: set<nat>): map<Tok, S.Sink> {
    map tok | tok in c.sinks ::
      if Handled(c.chanHandlers - todo, tok) then S.Apply(c.sinks[tok], S.CloseIn) else c.sinks[tok]
  }

  function Only(handlers: map<nat, Tok>, todo: set<nat>): map<nat, Tok> {
    map ch | ch in handlers && ch in todo :: handlers[ch]
  }

  lemma AllOpen(c: Client)
    ensures ClosedExcept(c, c.chanHandlers.Keys) == c.sinks
    ensures Only(c.chanHandlers, c.chanHandlers.Keys) == c.chanHandlers
    ensures Only(c.chanHandlers, {}) == map[]
  {
    assert c.chanHandlers - c.chanHandlers.Keys == map[];
  }

  lemma CloseOne(c: Client, todo: set<nat>, ch: nat)
    requires HandlersOpen(c.chanHandlers, c.sinks) && ch in todo && todo <= c.chanHandlers.Keys
    ensures CloseSink(ClosedExcept(c, todo), c.chanHandlers[ch]) == ClosedExcept(c, todo - {ch})
    ensures Only(c.chanHandlers, todo) - {ch} == Only(c.chanHandlers, todo - {ch})
  {
    var was, now := c.chanHandlers - todo, c.chanHandlers - (todo - {ch});
    var hnd := c.chanHandlers[ch];
    assert ch in now && now[ch] == hnd;
    forall tok ensures Handled(now, tok) <==> Handled(was, tok) || tok == hnd {
      if Handled(was, tok) {
        var a :| a in was && was[a] == tok;
        assert a in now && now[a] == tok;
      }
      if Handled(now, tok) && tok != hnd {
        var a :| a in now && now[a] == tok;
        assert a in was && was[a] == tok;
      }
    }
    assert !Handled(was, hnd);
  }

  /** The ready channels when every attempt in flight outside todo has been told the connection is lost. */
  function AnsweredExcept(c: Client, todo: set<int>): map<Tok, seq<Answer>> {
    map tok | tok in c.ready ::
      if Pending(c.inflight, tok) && tok.call !in todo then [Answer(tok.call, CONNECTION_LOST)]
      else c.ready[tok]
  }

  /** Closing streams has no part in the answers. */
  lemma AnsweredSame(c: Client, d: Client)
    requires d.inflight == c.inflight && d.ready == c.ready
    ensures AnsweredExcept(d, {}) == AnsweredExcept(c, {})
  {
  }

  lemma AnswerOne(c: Client, todo: set<int>, id: int)
    requires Conserved(c.inflight, c.ready) && id in todo && todo <= c.inflight.Keys
    ensures var tok := c.inflight[id].tok;
            && tok in AnsweredExcept(c, todo) && AnsweredExcept(c, todo)[tok] == []
            && AnsweredExcept(c, todo)[tok := [Answer(id, CONNECTION_LOST)]] == AnsweredExcept(c, todo - {id})
  {
    assert Pending(c.inflight, c.inflight[id].tok);
  }

  predicate Enabled(c: Client, e: Event) {
    match e
    case Take(_) => c.loop.Idle?
    case Incoming(_) => c.loop.Idle?
    case FinishPush => c.loop.Pushing? && c.loop.tok in c.sinks
                       && S.Enabled(c.sinks[c.loop.tok], S.Push(c.loop.v), false)
    case AbandonPush => c.loop.Pushing? && c.loop.tok.call in c.ctxDone
    case SinkTurn(tok, turn) => tok in c.sinks && S.Goroutine(turn)
                                && S.Enabled(c.sinks[tok], turn, tok.call in c.ctxDone)
    case WatcherFires(tok) => tok in c.watchers && tok.call in c.ctxDone
    case Expire(_) => true
    case Teardown => c.loop.Idle?
  }

  function Apply(c: Client, e: Event): Client
    requires Enabled(c, e)
  {
    match e
    case Take(att) => c.(inflight := c.inflight[att.tok.call := att], ready := c.ready[att.tok := []])
    case Incoming(m) => OnFrame(c, m)
    case FinishPush =>
      c.(sinks := c.sinks[c.loop.tok := S.Apply(c.sinks[c.loop.tok], S.Push(c.loop.v))], loop := Idle)
    case AbandonPush => c.(loop := Idle)
    case SinkTurn(tok, turn) => c.(sinks := c.sinks[tok := S.Apply(c.sinks[tok], turn)])
    case WatcherFires(tok) => c.(watchers := c.watchers - {tok})
    case Expire(x) => c.(ctxDone := c.ctxDone + {x})
    case Teardown => AfterTeardown(c)
  }

  /** What callers guarantee: an attempt is new, and no other attempt of its call is in flight. */
  predicate Fresh(c: Client, e: Event) {
    e.Take? ==> e.att.tok !in c.ready && e.att.tok.call !in c.inflight
  }

  // ---- what holds whatever frames arrive ----

  /** Every attempt taken is either in flight and unanswered, or answered exactly once under its own id. */
  ghost predicate Conserved(inflight: map<int, Attempt>, ready: map<Tok, seq<Answer>>) {
    && (forall tok :: tok in ready ==>
          if Pending(inflight, tok) then ready[tok] == []
          else |ready[tok]| == 1 && ready[tok][0].id == tok.call)
    && (forall x :: x in inflight ==> inflight[x].tok.call == x && inflight[x].tok in ready)
  }

  /** Only an answered attempt has a sink. */
  ghost predicate SinksOfAnswered(inflight: map<int, Attempt>, ready: map<Tok, seq<Answer>>, toks: set<Tok>) {
    forall tok :: tok in toks ==> tok in ready && !Pending(inflight, tok)
  }

  ghost predicate AllGood(sinks: map<Tok, S.Sink>) {
    forall tok :: tok in sinks ==> S.Good(sinks[tok])
  }

  /** Registered sinks are open, and no sink belongs to two streams. */
  ghost predicate HandlersOpen(handlers: map<nat, Tok>, sinks: map<Tok, S.Sink>) {
    && (forall ch :: ch in handlers ==> handlers[ch] in sinks && !sinks[handlers[ch]].inClosed)
    && (forall a, b :: a in handlers && b in handlers && a != b ==> handlers[a] != handlers[b])
  }

  ghost predicate Inv(c: Client) {
    && !c.blocked
    && Conserved(c.inflight, c.ready)
    && SinksOfAnswered(c.inflight, c.ready, c.sinks.Keys)
    && AllGood(c.sinks)
    && HandlersOpen(c.chanHandlers, c.sinks)
    && c.watchers <= c.sinks.Keys
    && (c.loop.Pushing? ==> Handled(c.chanHandlers, c.loop.tok))
  }

  lemma AnswerKeepsConserved(inflight: map<int, Attempt>, ready: map<Tok, seq<Answer>>, id: int, body: Body)
    requires Conserved(inflight, ready) && id in inflight
    ensures var tok := inflight[id].tok;
            tok in ready && ready[tok] == []
            && Conserved(inflight - {id}, ready[tok := [Answer(id, body)]])
            && !Pending(inflight - {id}, tok)
  {
    var tok := inflight[id].tok;
    assert Pending(inflight, tok);
    forall t ensures Pending(inflight - {id}, t) <==> Pending(inflight, t) && t != tok { }
  }

  lemma InstallKeepsSinks(handlers: map<nat, Tok>, sinks: map<Tok, S.Sink>, ch: nat, tok: Tok)
    requires HandlersOpen(handlers, sinks) && AllGood(sinks) && tok !in sinks
    ensures HandlersOpen(handlers[ch := tok], sinks[tok := S.FRESH]) && AllGood(sinks[tok := S.FRESH])
  {
    assert S.Good(S.FRESH);
  }

  lemma ReplyKeepsInv(c: Client, id: int, body: Body)
    requires Inv(c) && c.loop.Idle?
    ensures Inv(OnReply(c, id, body))
  {
    if id in c.inflight && !(c.inflight[id].stream && body.Value?) {
      var tok := c.inflight[id].tok;
      assert Pending(c.inflight, tok);
      AnswerKeepsConserved(c.inflight, c.ready, id, body);
      if c.inflight[id].stream && body.Chan? {
        InstallKeepsSinks(c.chanHandlers, c.sinks, body.ch, tok);
      }
      var c' := OnReply(c, id, body);
      assert SinksOfAnswered(c'.inflight, c'.ready, c'.sinks.Keys);
    }
  }

  function StreamCalls(c: Client): set<int> {
    set x | x in c.inflight && c.inflight[x].stream
  }

  /** A result that a caller waiting for a stream cannot read a stream id from. */
  predicate NoStreamId(f: Frame) {
    f.result.Some? && ReadNat(f.result.value).None?
  }

  /**
   A response to a request in flight answers it unless its caller expects a stream and the
   result holds no stream id; then nothing changes, whatever error comes with it. A result
   that holds one (null stands for 0) installs the sink, again whatever error comes with it.
   */
  lemma ReplySettlesIff(c: Client, f: Frame)
    requires Inv(c) && RouteOf(f) == ToResponse && f.id.Some? && f.id.value in c.inflight
    ensures var id := f.id.value;
            var att := c.inflight[id];
            var m := Unpack(f, StreamCalls(c));
            m.Some? &&
            var d := OnFrame(c, m.value);
            && (id in d.inflight <==> att.stream && NoStreamId(f))
            && (id in d.inflight ==> d == c)
            && (id !in d.inflight ==> d.ready == c.ready[att.tok := [Answer(id, BodyOf(f, att.stream))]])
            && (id !in d.inflight && att.stream && f.result.Some? ==>
                  && d.chanHandlers == c.chanHandlers[ReadNat(f.result.value).value := att.tok]
                  && d.sinks == c.sinks[att.tok := S.FRESH] && att.tok in d.watchers)
            && (!att.stream || f.result.None? ==> d.chanHandlers == c.chanHandlers && d.sinks == c.sinks)
  {
    var id: int := f.id.value;
    assert id in c.inflight;
    assert Pending(c.inflight, c.inflight[id].tok);
  }

  /** The first number that does not fit in a uint64 is no stream id. */
  lemma TooLargeForStream(id: int, e: Option<RespError>)
    ensures NoStreamId(Frame("2.0", Some(id), map[], "", [], Some(Digits(0x1_0000_0000_0000_0000)), e))
  {
    ReadText(0x1_0000_0000_0000_0000);
  }

  /** An error that comes with an unreadable result never reaches the caller of a stream. */
  lemma ErrorNotPassedOn(e: RespError)
    ensures var att := Attempt(Tok(1, 0), true);
            var c := Apply(FRESH, Take(att));
            var f := Frame("2.0", Some(1), map[], "", [], Some("x"), Some(e));
            Unpack(f, StreamCalls(c)) == Some(Reply(1, Value("x", Some(e))))
            && OnFrame(c, Reply(1, Value("x", Some(e)))) == c && c.ready[att.tok] == []
  {
    assert "x"[0] == 'x';
  }

  lemma CloseKeepsInv(c: Client, ch: nat)
    requires Inv(c) && c.loop.Idle?
    ensures Inv(OnClose(c, ch))
  {
    if ch in c.chanHandlers {
      S.TurnKeepsGood(c.sinks[c.chanHandlers[ch]], S.CloseIn);
    }
  }

  lemma TeardownKeepsInv(c: Client)
    requires Inv(c) && c.loop.Idle?
    ensures Inv(AfterTeardown(c))
  {
    var d := AfterTeardown(c);
    forall tok | tok in c.sinks ensures S.Good(d.sinks[tok]) {
      if Handled(c.chanHandlers, tok) {
        var ch :| ch in c.chanHandlers && c.chanHandlers[ch] == tok;
        S.TurnKeepsGood(c.sinks[tok], S.CloseIn);
      }
    }
    assert AllGood(d.sinks);
    forall tok | tok in d.ready ensures |d.ready[tok]| == 1 && d.ready[tok][0].id == tok.call { }
    assert Conserved(d.inflight, d.ready);
  }

  lemma TakeKeepsInv(c: Client, att: Attempt)
    requires Inv(c) && Enabled(c, Take(att)) && Fresh(c, Take(att))
    ensures Inv(Apply(c, Take(att)))
  {
    var c' := Apply(c, Take(att));
    forall tok ensures Pending(c'.inflight, tok) <==> Pending(c.inflight, tok) || tok == att.tok { }
  }

  lemma SinkTurnKeepsInv(c: Client, tok: Tok, turn: S.Event, loop: Loop)
    requires Inv(c) && tok in c.sinks && S.Enabled(c.sinks[tok], turn, true)
    requires S.Goroutine(turn) || (turn.Push? && !c.sinks[tok].inClosed)
    requires loop == c.loop || loop == Idle
    ensures Inv(c.(sinks := c.sinks[tok := S.Apply(c.sinks[tok], turn)], loop := loop))
  {
    S.TurnKeepsGood(c.sinks[tok], turn);
    assert S.Apply(c.sinks[tok], turn).inClosed == c.sinks[tok].inClosed;
    var sinks' := c.sinks[tok := S.Apply(c.sinks[tok], turn)];
    assert sinks'.Keys == c.sinks.Keys;
    assert AllGood(sinks');
    assert HandlersOpen(c.chanHandlers, sinks');
  }

  lemma StepKeepsInv(c: Client, e: Event)
    requires Inv(c) && Enabled(c, e) && Fresh(c, e)
    ensures Inv(Apply(c, e))
  {
    match e
    case Take(att) => TakeKeepsInv(c, att);
    case Incoming(m) =>
      if m.Reply? { ReplyKeepsInv(c, m.id, m.body); }
      else if m.ChanClose? { CloseKeepsInv(c, m.ch); }
      else if m.ChanValue? && m.ch in c.chanHandlers {
        assert Handled(c.chanHandlers, c.chanHandlers[m.ch]);
      }
    case FinishPush =>
      var ch :| ch in c.chanHandlers && c.chanHandlers[ch] == c.loop.tok;
      SinkTurnKeepsInv(c, c.loop.tok, S.Push(c.loop.v), Idle);
    case AbandonPush =>
    case SinkTurn(tok, turn) => SinkTurnKeepsInv(c, tok, turn, c.loop);
    case WatcherFires(_) =>
    case Expire(_) =>
    case Teardown => TeardownKeepsInv(c);
  }

  // ---- whole runs against an arbitrary server ----

  function Step(c: Client, e: Event): Client {
    if Enabled(c, e) then Apply(c, e) else c
  }

  function Run(c: Client, es: seq<Event>): Client
    decreases |es|
  {
    if es == [] then c else Run(Step(c, es[0]), es[1..])
  }

  predicate AllFresh(c: Client, es: seq<Event>)
    decreases |es|
  {
    es == [] || (Fresh(c, es[0]) && AllFresh(Step(c, es[0]), es[1..]))
  }

  /**
   For every sequence of incoming frames, unknown and duplicate ids included, interleaved
   with requests, cancellations, stream turns and connection losses: each attempt taken is
   answered at most once, under its own id; attempts taken are those answered plus those in
   flight; no send to a ready channel blocks; no sink is closed twice or used once closed.
   */
  lemma {:induction false} AnyFrames(c: Client, es: seq<Event>)
    requires Inv(c) && AllFresh(c, es)
    ensures var d := Run(c, es);
            && Inv(d)
            && (forall tok :: tok in d.ready ==> |d.ready[tok]| == Bit(!Pending(d.inflight, tok)))
            && (forall tok :: tok in d.sinks ==> !d.sinks[tok].panicked && d.sinks[tok].closeCalls <= 1)
            && (forall tok :: tok in c.ready && !Pending(c.inflight, tok) ==> tok in d.ready && d.ready[tok] == c.ready[tok])
    decreases |es|
  {
    if es != [] {
      if Enabled(c, es[0]) { StepKeepsInv(c, es[0]); }
      AnyFrames(Step(c, es[0]), es[1..]);
      AnswersStay(c, es[0]);
    }
  }

  lemma AnswerStays(c: Client, e: Event, tok: Tok)
    requires Inv(c) && Enabled(c, e) && Fresh(c, e) && tok in c.ready && !Pending(c.inflight, tok)
    ensures var d := Apply(c, e); tok in d.ready && d.ready[tok] == c.ready[tok] && !Pending(d.inflight, tok)
  {
    if e.Incoming? {
      if e.m.Reply? && e.m.id in c.inflight { assert c.inflight[e.m.id].tok != tok; }
    } else if e.Teardown? {
      assert AnsweredExcept(c, {})[tok] == c.ready[tok];
    }
  }

  lemma AnswersStay(c: Client, e: Event)
    requires Inv(c) && Fresh(c, e)
    ensures forall tok :: tok in c.ready && !Pending(c.inflight, tok) ==>
      tok in Step(c, e).ready && Step(c, e).ready[tok] == c.ready[tok] && !Pending(Step(c, e).inflight, tok)
  {
    forall tok | tok in c.ready && !Pending(c.inflight, tok)
      ensures tok in Step(c, e).ready && Step(c, e).ready[tok] == c.ready[tok] && !Pending(Step(c, e).inflight, tok)
    {
      if Enabled(c, e) { AnswerStays(c, e, tok); }
    }
  }

  /** Losing the connection answers every attempt in flight with code 2, leaves none, and closes every open sink. */
  lemma TeardownAnswersAll(c: Client)
    requires Inv(c) && Enabled(c, Teardown)
    ensures var d := Apply(c, Teardown);
            && Inv(d) && d.inflight == map[] && d.chanHandlers == map[]
            && (forall tok :: tok in c.ready ==>
                  d.ready[tok] == if Pending(c.inflight, tok) then [Answer(tok.call, CONNECTION_LOST)] else c.ready[tok])
            && (forall ch :: ch in c.chanHandlers ==> d.sinks[c.chanHandlers[ch]].closeCalls == 1)
  {
    TeardownKeepsInv(c);
    assert c.chanHandlers - {} == c.chanHandlers;
    forall ch | ch in c.chanHandlers ensures AfterTeardown(c).sinks[c.chanHandlers[ch]].closeCalls == 1 {
      assert Handled(c.chanHandlers, c.chanHandlers[ch]);
    }
  }

  // ---- the code ----

  /** Iteration over a Go map visits the keys in any order. */
  method NextKey<K(==)>(todo: set<K>) returns (k: K)
    requires todo != {}
    ensures k in todo
  {
    k :| k in todo;
  }

  class WsConn {
    var inflight: map<int, Attempt>
    var ready: map<Tok, seq<Answer>>
    var chanHandlers: map<nat, Tok>
    var sinks: map<Tok, S.Sink>
    var watchers: set<Tok>
    var loop: Loop
    var ctxDone: set<int>
    var blocked: bool

    ghost function View(): Client
      reads this
    {
      Client(inflight, ready, chanHandlers, sinks, watchers, loop, ctxDone, blocked)
    }

    constructor ()
      ensures View() == FRESH && Inv(View())
    {
      inflight, ready, chanHandlers, sinks := map[], map[], map[], map[];
      watchers, loop, ctxDone, blocked := {}, Idle, {}, false;
    }

    /** The loop receives a request; only one with an id is remembered. */
    method TakeRequest(att: Attempt)
      requires Enabled(View(), Take(att))
      modifies this
      ensures View() == Apply(old(View()), Take(att))
      ensures old(Inv(View()) && Fresh(View(), Take(att))) ==> Inv(View())
    {
      ghost var c := View();
      if Inv(c) && Fresh(c, Take(att)) { StepKeepsInv(c, Take(att)); }
      ready := ready[att.tok := []];
      inflight := inflight[att.tok.call := att];
    }

    method SendToReady(tok: Tok, a: Answer)
      modifies this`ready, this`blocked
      ensures View() == SendReady(old(View()), tok, a)
    {
      if tok in ready && ready[tok] == [] {
        ready := ready[tok := [a]];
      } else {
        blocked := true;
      }
    }

    method HandleResponse(id: int, body: Body)
      modifies this
      ensures View() == OnReply(old(View()), id, body)
      ensures old(Inv(View()) && loop.Idle?) ==> Inv(View())
    {
      if Inv(View()) && loop.Idle? { ReplyKeepsInv(View(), id, body); }
      if id !in inflight { return; }
      var req := inflight[id];
      if req.stream && !body.Empty? {
        if body.Value? { return; }
        sinks := sinks[req.tok := S.FRESH];
        chanHandlers := chanHandlers[body.ch := req.tok];
        watchers := watchers + {req.tok};
      }
      SendToReady(req.tok, Answer(id, body));
      inflight := inflight - {id};
    }

    method HandleChanMessage(ch: nat, v: Raw)
      requires loop.Idle?
      modifies this
      ensures View() == OnValue(old(View()), ch, v)
      ensures old(Inv(View())) ==> Inv(View())
    {
      if Inv(View()) { StepKeepsInv(View(), Incoming(ChanValue(ch, v))); }
      if ch !in chanHandlers { return; }
      var tok := chanHandlers[ch];
      if tok.call in ctxDone { return; }
      loop := Pushing(tok, v);
    }

    method CallSinkClosed(tok: Tok)
      modifies this`sinks
      ensures sinks == CloseSink(old(sinks), tok)
    {
      if tok in sinks {
        sinks := sinks[tok := S.Apply(sinks[tok], S.CloseIn)];
      }
    }

    method HandleChanClose(ch: nat)
      modifies this
      ensures View() == OnClose(old(View()), ch)
      ensures old(Inv(View()) && loop.Idle?) ==> Inv(View())
    {
      if Inv(View()) && loop.Idle? { CloseKeepsInv(View(), ch); }
      if ch !in chanHandlers { return; }
      var hnd := chanHandlers[ch];
      chanHandlers := chanHandlers - {ch};
      CallSinkClosed(hnd);
    }

    /** Every frame goes to its handler; calls are not served on the client, cancels find nothing. */
    method HandleFrame(m: Msg)
      requires Enabled(View(), Incoming(m))
      modifies this
      ensures View() == Apply(old(View()), Incoming(m))
      ensures old(Inv(View())) ==> Inv(View())
    {
      match m {
        case Reply(id, body) => HandleResponse(id, body);
        case ChanValue(ch, v) => HandleChanMessage(ch, v);
        case ChanClose(ch) => HandleChanClose(ch);
        case _ =>
      }
    }

    method CloseChans()
      requires HandlersOpen(chanHandlers, sinks)
      modifies this`chanHandlers, this`sinks
      ensures chanHandlers == map[] && sinks == AfterTeardown(old(View())).sinks
    {
      ghost var c := View();
      var todo: set<nat> := chanHandlers.Keys;
      AllOpen(c);
      while todo != {}
        invariant todo <= c.chanHandlers.Keys
        invariant chanHandlers == Only(c.chanHandlers, todo)
        invariant sinks == ClosedExcept(c, todo)
        decreases |todo|
      {
        var chid := NextKey(todo);
        var hnd := chanHandlers[chid];
        CloseOne(c, todo, chid);
        chanHandlers := chanHandlers - {chid};
        CallSinkClosed(hnd);
        todo := todo - {chid};
      }
    }

    method CloseInFlight()
      requires Conserved(inflight, ready) && !blocked
      modifies this`ready, this`inflight, this`blocked
      ensures inflight == map[] && ready == AfterTeardown(old(View())).ready && !blocked
    {
      ghost var c := View();
      var todo: set<int> := inflight.Keys;
      while todo != {}
        invariant todo <= inflight.Keys && inflight == c.inflight && !blocked
        invariant ready == AnsweredExcept(c, todo)
        decreases |todo|
      {
        var id := NextKey(todo);
        AnswerOne(c, todo, id);
        SendToReady(inflight[id].tok, Answer(id, CONNECTION_LOST));
        todo := todo - {id};
      }
      inflight := map[];
    }

    /** What the deferred calls do when a connection's reader returns. */
    method TearDown()
      requires Inv(View()) && Enabled(View(), Teardown)
      modifies this
      ensures View() == Apply(old(View()), Teardown) && Inv(View())
    {
      ghost var c := View();
      TeardownKeepsInv(c);
      CloseChans();
      AnsweredSame(c, View());
      CloseInFlight();
      assert View() == AfterTeardown(c);
    }
  }
}
