/** What every step of the two-endpoint system keeps. */
module Invariants {
  import opened Basics
  import opened Wire
  import opened Pipes
  import opened Engine
  import H = Handler
  import O = OutChans
  import S = Sinks
  import C = ClientConn
  import V = ServerConn

  type Ready = map<C.Tok, seq<C.Answer>>
  type Calls = map<int, ClientCall>

  // ---- callers and attempts ----

  ghost predicate Numbered(calls: Calls, idCtr: nat) {
    forall x :: x in calls ==> 0 < x <= idCtr
  }

  function Current(calls: Calls, x: int): C.Tok
    requires x in calls
  {
    C.Tok(x, calls[x].nth)
  }

  predicate GotLost(ready: Ready, tok: C.Tok) {
    tok in ready && ready[tok] != [] && Lost(ready[tok][0].body)
  }

  /** An attempt in flight is its call's current one, and the caller waits for it. */
  ghost predicate InflightCurrent(calls: Calls, inflight: map<int, C.Attempt>) {
    forall x :: x in inflight ==>
      && x in calls && calls[x].phase.Waiting?
      && inflight[x] == C.Attempt(Current(calls, x), calls[x].stream)
  }

  /** Attempts that were sent: all but the current one of a retried call ended in connection loss. */
  ghost predicate SentAttempts(calls: Calls, ready: Ready) {
    forall tok :: tok in ready ==>
      && tok.call in calls && tok.nth <= calls[tok.call].nth
      && (tok.nth == calls[tok.call].nth ==> !calls[tok.call].phase.Sending?)
      && (tok.nth < calls[tok.call].nth ==> calls[tok.call].retry && GotLost(ready, tok))
  }

  /** Every earlier attempt was sent and ended in connection loss. */
  ghost predicate EarlierLost(calls: Calls, ready: Ready) {
    forall x, n: nat :: x in calls && n < calls[x].nth ==> GotLost(ready, C.Tok(x, n))
  }

  /** What a caller does next is decided by the response of its current attempt. */
  ghost predicate PhasesJustified(calls: Calls, ready: Ready) {
    forall x :: x in calls ==>
      && (calls[x].nth > 0 ==> calls[x].retry)
      && (calls[x].phase.Waiting? ==> Current(calls, x) in ready)
      && (calls[x].phase.Backoff? ==> calls[x].retry && GotLost(ready, Current(calls, x)))
      && (calls[x].phase.Returned? ==>
            && Current(calls, x) in ready
            && ready[Current(calls, x)] == [C.Answer(x, calls[x].phase.body)]
            && !(calls[x].retry && Lost(calls[x].phase.body)))
  }

  /** A call some server answered: its current attempt carries that answer. */
  ghost predicate AnsweredCurrent(calls: Calls, ready: Ready, answered: set<int>) {
    forall x :: x in answered ==>
      x in calls && Current(calls, x) in ready && ready[Current(calls, x)] != []
      && !Lost(ready[Current(calls, x)][0].body)
  }

  ghost predicate TakenOnce(inflight: map<int, C.Attempt>, taken: set<int>, answered: set<int>, before: set<int>) {
    && inflight.Keys <= taken
    && (forall x :: x in taken ==> x in inflight || x in answered)
    && before <= answered && before !! taken
  }

  ghost predicate CallersInv(s: State) {
    && Numbered(s.calls, s.idCtr)
    && InflightCurrent(s.calls, s.client.inflight)
    && SentAttempts(s.calls, s.client.ready)
    && PhasesJustified(s.calls, s.client.ready)
    && EarlierLost(s.calls, s.client.ready)
    && AnsweredCurrent(s.calls, s.client.ready, s.answered)
    && TakenOnce(s.client.inflight, s.taken, s.answered, s.before)
    && (forall x :: x in s.calls && s.calls[x].offering ==> x in s.client.ctxDone)
  }

  // ---- messages under way ----

  /** Each call sent over this connection is under way to the server or has arrived, once. */
  ghost predicate CallsOnce(up: Pipe, arrived: set<int>, taken: set<int>) {
    forall x :: |InTransit(up, Calls(x))| + Bit(x in arrived) == Bit(x in taken)
  }

  predicate Settled(s: State, x: int) {
    x in s.taken && x !in s.client.inflight
  }

  /** Each answer the server gave is under way to the client or has arrived, once. */
  ghost predicate RepliesOnce(s: State) {
    forall x :: |InTransit(s.down, Replies(x))| + Bit(Settled(s, x)) == Bit(V.HasReplied(s.server, x))
  }

  function Consumed(heard: map<nat, Heard>, ch: nat): seq<Msg> {
    if ch in heard then O.Emitted(ch, heard[ch].tok.call, heard[ch].vals, !heard[ch].closed) else []
  }

  /** What the client handled of a stream, and what is under way, make up the stream's history. */
  ghost predicate StreamsWhole(heard: map<nat, Heard>, down: Pipe, outs: O.Outs) {
    forall ch :: Consumed(heard, ch) + InTransit(down, Stream(ch)) == O.History(outs, ch)
  }

  predicate UpOK(calls: Calls, ctxDone: set<int>, m: Msg) {
    match m
    case Call(id, name, params) =>
      id.Some? && id.value in calls && name == calls[id.value].name && params == calls[id.value].params
    case Cancel(x) => x in calls && x in ctxDone
    case _ => m.Ping? || m.Pong?
  }

  predicate DownOK(calls: Calls, m: Msg) {
    match m
    case Reply(id, body) =>
      && id in calls && !Lost(body)
      && (body.Chan? ==> calls[id].stream)
      && (body.Value? || body == Empty(None) ==> !calls[id].stream)
    case _ => !m.Call? && !m.Cancel?
  }

  ghost predicate UpSound(calls: Calls, ctxDone: set<int>, up: Pipe) {
    KeepAlivesOnly(up) && forall m :: Carries(up, m) ==> UpOK(calls, ctxDone, m)
  }

  ghost predicate DownSound(calls: Calls, down: Pipe) {
    KeepAlivesOnly(down) && forall m :: Carries(down, m) ==> DownOK(calls, m)
  }

  /** The server runs the calls the client made, as the client's stubs expect. */
  ghost predicate ServerKnows(reg: H.Registry, calls: Calls, server: V.Server, ctxDone: set<int>) {
    && (forall x :: x in server.calls ==>
          && x in calls
          && server.calls[x].req == Request("2.0", Some(x), calls[x].name, calls[x].params, map[]))
    && (forall x :: x in calls ==> Callable(calls[x].name) && StubAgrees(reg, calls[x].name, calls[x].stream))
    && server.cancelled <= ctxDone
  }

  ghost predicate TransitInv(reg: H.Registry, s: State) {
    && CallsOnce(s.up, s.server.calls.Keys, s.taken)
    && RepliesOnce(s)
    && StreamsWhole(s.heard, s.down, s.server.outs)
    && UpSound(s.calls, s.client.ctxDone, s.up)
    && DownSound(s.calls, s.down)
    && ServerKnows(reg, s.calls, s.server, s.client.ctxDone)
  }

  // ---- the client's streams ----

  /** The value the blocked loop is about to push into this sink. */
  function Hand(loop: C.Loop, tok: C.Tok): seq<Raw> {
    if loop.Pushing? && loop.tok == tok then [loop.v] else []
  }

  ghost predicate HandlersHeard(handlers: map<nat, C.Tok>, heard: map<nat, Heard>) {
    && (forall ch :: ch in handlers ==> ch in heard && !heard[ch].closed && handlers[ch] == heard[ch].tok)
    && (forall ch :: ch in heard && !heard[ch].closed ==> ch in handlers)
    && (forall a, b :: a in heard && b in heard && a != b ==> heard[a].tok != heard[b].tok)
  }

  /** A sink is open exactly while it is registered. */
  ghost predicate OpenIffHandled(handlers: map<nat, C.Tok>, sinks: map<C.Tok, S.Sink>, ctxDone: set<int>) {
    && (forall tok :: tok in sinks ==> (sinks[tok].inClosed <==> !C.Handled(handlers, tok)))
    && (forall tok :: tok in sinks && sinks[tok].cancelled ==> tok.call in ctxDone)
  }

  /** A stream's sink got a prefix of the values the client has handled: all, while the context lives. */
  predicate GotAll(h: Heard, client: C.Client) {
    && h.tok in client.sinks
    && var got := client.sinks[h.tok].accepted + Hand(client.loop, h.tok);
       got <= h.vals && (h.tok.call !in client.ctxDone ==> got == h.vals)
  }

  ghost predicate Faithful(heard: map<nat, Heard>, client: C.Client) {
    forall ch :: ch in heard ==> GotAll(heard[ch], client)
  }

  /** The sinks of lost connections: closed, with a prefix of what the server read from the channel. */
  ghost predicate PastPrefix(lost: seq<ConnLog>, sinks: map<C.Tok, S.Sink>) {
    forall k, ch :: 0 <= k < |lost| && ch in lost[k].heard ==>
      && lost[k].heard[ch].tok in sinks && sinks[lost[k].heard[ch].tok].inClosed
      && ch in lost[k].outs && lost[k].outs[ch].req == lost[k].heard[ch].tok.call
      && sinks[lost[k].heard[ch].tok].accepted <= lost[k].outs[ch].read
  }

  predicate HeardAs(heard: map<nat, Heard>, ch: nat, tok: C.Tok) {
    ch in heard && heard[ch].tok == tok
  }

  /** The sink was made for a stream of this connection or of a lost one. */
  ghost predicate HasOrigin(s: State, tok: C.Tok) {
    || (exists ch :: HeardAs(s.heard, ch, tok))
    || (exists k, ch :: 0 <= k < |s.lost| && HeardAs(s.lost[k].heard, ch, tok))
  }

  ghost predicate OriginsInv(s: State) {
    PastPrefix(s.lost, s.client.sinks) && forall tok :: tok in s.client.sinks ==> HasOrigin(s, tok)
  }

  ghost predicate StreamsInv(s: State) {
    && HandlersHeard(s.client.chanHandlers, s.heard)
    && OpenIffHandled(s.client.chanHandlers, s.client.sinks, s.client.ctxDone)
    && Faithful(s.heard, s.client)
    && (forall tok :: tok in s.client.watchers ==> tok.call in s.answered)
  }

  ghost predicate Inv(reg: H.Registry, s: State) {
    && C.Inv(s.client)
    && V.Inv(reg, s.server)
    && CallersInv(s)
    && TransitInv(reg, s)
    && StreamsInv(s)
    && OriginsInv(s)
    && (!s.live ==> s.up == EMPTY && s.down == EMPTY && s.server == V.FRESH
                    && s.client.inflight == map[] && s.client.chanHandlers == map[])
  }

  // ---- the start ----

  lemma InitClient()
    ensures C.Inv(C.FRESH) && StreamsInv(INIT) && OriginsInv(INIT)
  {
  }

  lemma InitCallers()
    ensures CallersInv(INIT)
  {
  }

  lemma InitTransit(reg: H.Registry)
    ensures V.Inv(reg, V.FRESH) && TransitInv(reg, INIT)
  {
  }

  lemma InitInv(reg: H.Registry)
    ensures Inv(reg, INIT)
  {
    InitClient();
    InitCallers();
    InitTransit(reg);
  }

  // ---- the next message to arrive ----

  /** The oldest frame: everything selected that is under way starts with it, if it is selected. */
  lemma OldestFirst(p: Pipe, sel: Sel)
    requires p.frames != []
    ensures InTransit(p, sel) == (if Matches(sel, p.frames[0]) then [p.frames[0]] else []) + InTransit(Pop(p), sel)
  {
    PopTakes(p, sel);
    O.PickOne(p.frames[0], sel);
  }

  /** A response that arrives is for an attempt in flight, the only one under way for it, and of the right kind. */
  lemma ReplyArrives(reg: H.Registry, s: State)
    requires Inv(reg, s) && s.down.frames != [] && s.down.frames[0].Reply?
    ensures var m := s.down.frames[0];
            && m.id in s.client.inflight
            && InTransit(Pop(s.down), Replies(m.id)) == []
            && DownOK(s.calls, m)
            && s.client.inflight[m.id].stream == s.calls[m.id].stream
  {
    var m := s.down.frames[0];
    OldestFirst(s.down, Replies(m.id));
    assert |InTransit(s.down, Replies(m.id))| + Bit(Settled(s, m.id)) == Bit(V.HasReplied(s.server, m.id));
    assert |InTransit(s.up, Calls(m.id))| + Bit(m.id in s.server.calls.Keys) == Bit(m.id in s.taken);
    assert Carries(s.down, m);
  }

  /** What can come next of a stream, given what was already handled of it. */
  lemma NextOfStream(heard: map<nat, Heard>, outs: O.Outs, ch: nat, m: Msg, rest: seq<Msg>)
    requires Consumed(heard, ch) + ([m] + rest) == O.History(outs, ch)
    ensures ch in outs
    ensures m.Reply? <==> ch !in heard
    ensures m.Reply? ==> m == Reply(outs[ch].req, Chan(ch, None))
    ensures !m.Reply? ==> !heard[ch].closed && heard[ch].tok.call == outs[ch].req
    ensures !m.Reply? ==> heard[ch].vals <= outs[ch].read
    ensures m.ChanValue? ==> |heard[ch].vals| < |outs[ch].read| && m == ChanValue(ch, outs[ch].read[|heard[ch].vals|])
    ensures m.ChanClose? ==> heard[ch].vals == outs[ch].read && !outs[ch].open && rest == []
  {
    var c := Consumed(heard, ch);
    var h := O.History(outs, ch);
    assert h[|c|] == m;
    var o := outs[ch];
    assert forall i :: 0 < i <= |o.read| ==> h[i] == ChanValue(ch, o.read[i - 1]);
    if ch in heard {
      assert c[0] == h[0] == Reply(o.req, Chan(ch, None));
      assert c[0] == Reply(heard[ch].tok.call, Chan(ch, None));
      HeardIsPrefix(heard, outs, ch, [m] + rest);
      assert |c| == |heard[ch].vals| + 1;
      if m.ChanClose? { assert |c| == |h| - 1; }
    }
  }

  /** What was handled of a stream is the beginning of its history. */
  lemma HeardIsPrefix(heard: map<nat, Heard>, outs: O.Outs, ch: nat, rest: seq<Msg>)
    requires Consumed(heard, ch) + rest == O.History(outs, ch) && ch in heard
    ensures ch in outs && outs[ch].req == heard[ch].tok.call && heard[ch].vals <= outs[ch].read
    ensures heard[ch].closed ==> heard[ch].vals == outs[ch].read && !outs[ch].open && rest == []
  {
    var c, h := Consumed(heard, ch), O.History(outs, ch);
    var k := |heard[ch].vals|;
    assert c[0] == h[0];
    if k > 0 { ValueOfHistory(heard, outs, ch, rest, k - 1); }
    forall i | 0 <= i < k ensures heard[ch].vals[i] == outs[ch].read[i] {
      ValueOfHistory(heard, outs, ch, rest, i);
    }
    if heard[ch].closed {
      assert c[k + 1] == h[k + 1] == ChanClose(ch);
    }
  }

  lemma ValueOfHistory(heard: map<nat, Heard>, outs: O.Outs, ch: nat, rest: seq<Msg>, i: nat)
    requires Consumed(heard, ch) + rest == O.History(outs, ch) && ch in heard && i < |heard[ch].vals|
    ensures ch in outs && i < |outs[ch].read| && heard[ch].vals[i] == outs[ch].read[i]
  {
    var c, h := Consumed(heard, ch), O.History(outs, ch);
    assert c[i + 1] == h[i + 1] == ChanValue(ch, heard[ch].vals[i]);
  }
}
