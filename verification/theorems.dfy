/**
 What holds in every state that a client and a server can reach, through any
 interleaving of callers, loops, handlers, streams, cancellations and lost connections.
 */
module Theorems {
  import opened Basics
  import opened Decimal
  import opened Wire
  import opened Pipes
  import opened Engine
  import opened Invariants
  import Streams
  import T = Transit
  import H = Handler
  import O = OutChans
  import S = Sinks
  import C = ClientConn
  import V = ServerConn

  lemma {:induction false} RunKeepsInv(reg: H.Registry, s: State, es: seq<Step>)
    requires Inv(reg, s)
    ensures Inv(reg, Run(reg, s, es))
    decreases |es|
  {
    if es != [] {
      if Enabled(reg, s, es[0]) { Streams.StepKeepsInv(reg, s, es[0]); }
      RunKeepsInv(reg, StepOnce(reg, s, es[0]), es[1..]);
    }
  }

  lemma ReachableInv(reg: H.Registry, s: State)
    requires Reachable(reg, s)
    ensures Inv(reg, s)
  {
    var es :| Run(reg, INIT, es) == s;
    InitInv(reg);
    RunKeepsInv(reg, INIT, es);
  }

  /** The parts of the invariant, so that each theorem uses only what it needs. */
  lemma KnowClient(reg: H.Registry, s: State)
    requires Reachable(reg, s)
    ensures C.Inv(s.client)
  {
    ReachableInv(reg, s);
  }

  lemma KnowStreams(reg: H.Registry, s: State)
    requires Reachable(reg, s)
    ensures StreamsWhole(s.heard, s.down, s.server.outs) && C.AllGood(s.client.sinks)
    ensures StreamsInv(s) && OriginsInv(s)
    ensures s.client.loop.Pushing? ==> C.Handled(s.client.chanHandlers, s.client.loop.tok)
  {
    ReachableInv(reg, s);
  }

  lemma KnowTransit(reg: H.Registry, s: State)
    requires Reachable(reg, s)
    ensures CallsOnce(s.up, s.server.calls.Keys, s.taken) && RepliesOnce(s)
  {
    ReachableInv(reg, s);
  }

  /** A stream the client has heard of is one the server announced, up to what has arrived. */
  lemma HeardStream(s: State, ch: nat)
    requires StreamsWhole(s.heard, s.down, s.server.outs) && Faithful(s.heard, s.client) && ch in s.heard
    ensures ch in s.server.outs && s.server.outs[ch].req == s.heard[ch].tok.call
    ensures s.heard[ch].vals <= s.server.outs[ch].read && GotAll(s.heard[ch], s.client)
    ensures s.heard[ch].closed ==> s.heard[ch].vals == s.server.outs[ch].read && !s.server.outs[ch].open
  {
    assert Consumed(s.heard, ch) + InTransit(s.down, Stream(ch)) == O.History(s.server.outs, ch);
    HeardIsPrefix(s.heard, s.server.outs, ch, InTransit(s.down, Stream(ch)));
  }

  // ---- streams ----

  /** Everything of a stream that has reached the client: delivered, buffered, queued, in hand. */
  function AtClient(s: State, ch: nat): seq<Raw> {
    if ch in s.heard && s.heard[ch].tok in s.client.sinks then
      var k := s.client.sinks[s.heard[ch].tok];
      k.delivered + k.buf + k.incoming + Hand(s.client.loop, s.heard[ch].tok)
    else []
  }

  function UnderWay(p: Pipe, ch: nat): seq<Raw> {
    Values(p.frames, ch) + Values(p.wire, ch) + Values(p.write, ch)
  }

  lemma UnderWayPicked(p: Pipe, ch: nat)
    ensures Values(InTransit(p, Stream(ch)), ch) == UnderWay(p, ch)
  {
    var f, w, q := Pick(p.frames, Stream(ch)), Pick(p.wire, Stream(ch)), Pick(p.write, Stream(ch));
    ValuesConcat(f + w, q, ch);
    ValuesConcat(f, w, ch);
    ValuesOfPick(p.frames, ch);
    ValuesOfPick(p.wire, ch);
    ValuesOfPick(p.write, ch);
  }

  lemma ConsumedValues(heard: map<nat, Heard>, ch: nat)
    ensures Values(Consumed(heard, ch), ch) == if ch in heard then heard[ch].vals else []
  {
    if ch in heard { O.ValuesOfEmitted(ch, heard[ch].tok.call, heard[ch].vals, !heard[ch].closed); }
  }

  /** Values handled plus values under way are the values read. */
  lemma ValuesAddUp(s: State, ch: nat)
    requires StreamsWhole(s.heard, s.down, s.server.outs) && ch in s.server.outs
    ensures (if ch in s.heard then s.heard[ch].vals else []) + UnderWay(s.down, ch) == s.server.outs[ch].read
  {
    var o := s.server.outs[ch];
    ConsumedValues(s.heard, ch);
    UnderWayPicked(s.down, ch);
    ValuesConcat(Consumed(s.heard, ch), InTransit(s.down, Stream(ch)), ch);
    O.ValuesOfEmitted(ch, o.req, o.read, o.open);
  }

  /**
   End-to-end fidelity: while the stream's context lives, what the caller received, then
   what is buffered at the client, then what is on its way, oldest first, is exactly the
   sequence the server read from the handler's channel.
   */
  lemma StreamFidelity(reg: H.Registry, s: State, ch: nat)
    requires Reachable(reg, s) && ch in s.server.outs && s.server.outs[ch].req !in s.client.ctxDone
    ensures AtClient(s, ch) + UnderWay(s.down, ch) == s.server.outs[ch].read
  {
    KnowStreams(reg, s);
    ValuesAddUp(s, ch);
    if ch in s.heard {
      HeardStream(s, ch);
      assert S.Good(s.client.sinks[s.heard[ch].tok]);
    }
  }

  /** The stream with this id, fed into this sink, is this one at the server. */
  predicate StreamOf(heard: map<nat, Heard>, outs: O.Outs, ch: nat, tok: C.Tok, o: O.Out) {
    HeardAs(heard, ch, tok) && ch in outs && outs[ch] == o
  }

  /**
   On every connection, lost ones included and cancelled or not: each sink belongs to a
   stream of its own call, and its caller has received a prefix of what the server read.
   */
  lemma DeliveredIsPrefix(reg: H.Registry, s: State, tok: C.Tok) returns (o: O.Out)
    requires Reachable(reg, s) && tok in s.client.sinks
    ensures o.req == tok.call && s.client.sinks[tok].delivered <= o.read
    ensures (exists ch :: StreamOf(s.heard, s.server.outs, ch, tok, o))
         || (exists k, ch :: 0 <= k < |s.lost| && StreamOf(s.lost[k].heard, s.lost[k].outs, ch, tok, o))
  {
    KnowStreams(reg, s);
    assert HasOrigin(s, tok);
    o := OutOf(s, tok);
  }

  lemma OutOf(s: State, tok: C.Tok) returns (o: O.Out)
    requires PastPrefix(s.lost, s.client.sinks) && HasOrigin(s, tok)
    requires tok in s.client.sinks && S.Good(s.client.sinks[tok])
    requires StreamsWhole(s.heard, s.down, s.server.outs) && Faithful(s.heard, s.client)
    ensures o.req == tok.call && s.client.sinks[tok].delivered <= o.read
    ensures (exists ch :: StreamOf(s.heard, s.server.outs, ch, tok, o))
         || (exists k, ch :: 0 <= k < |s.lost| && StreamOf(s.lost[k].heard, s.lost[k].outs, ch, tok, o))
  {
    DeliveredAccepted(s.client.sinks[tok]);
    if ch :| HeardAs(s.heard, ch, tok) {
      HeardStream(s, ch);
      o := s.server.outs[ch];
      assert StreamOf(s.heard, s.server.outs, ch, tok, o);
    } else {
      var k, ch :| 0 <= k < |s.lost| && HeardAs(s.lost[k].heard, ch, tok);
      PastStream(s.lost, s.client.sinks, k, ch);
      o := s.lost[k].outs[ch];
      assert StreamOf(s.lost[k].heard, s.lost[k].outs, ch, tok, o);
    }
  }

  lemma PastStream(lost: seq<ConnLog>, sinks: map<C.Tok, S.Sink>, k: nat, ch: nat)
    requires PastPrefix(lost, sinks) && k < |lost| && ch in lost[k].heard
    ensures ch in lost[k].outs && lost[k].outs[ch].req == lost[k].heard[ch].tok.call
    ensures lost[k].heard[ch].tok in sinks && sinks[lost[k].heard[ch].tok].accepted <= lost[k].outs[ch].read
  {
  }

  lemma DeliveredAccepted(sink: S.Sink)
    requires S.Good(sink)
    ensures sink.delivered <= sink.accepted
  {
  }

  /**
   A caller whose channel was closed without cancellation, on a connection still up, has
   received everything: the server saw the handler's channel closed after those values.
   */
  lemma ClosedMeansComplete(reg: H.Registry, s: State, ch: nat)
    requires Reachable(reg, s) && ch in s.heard
    ensures var tok := s.heard[ch].tok;
            && tok in s.client.sinks && ch in s.server.outs
            && (s.client.sinks[tok].exited && tok.call !in s.client.ctxDone ==>
                  s.client.sinks[tok].delivered == s.server.outs[ch].read && !s.server.outs[ch].open)
  {
    KnowStreams(reg, s);
    var tok := s.heard[ch].tok;
    HeardStream(s, ch);
    if s.client.sinks[tok].exited && tok.call !in s.client.ctxDone {
      assert S.Good(s.client.sinks[tok]);
      assert s.client.sinks[tok].inClosed && !C.Handled(s.client.chanHandlers, tok);
      assert s.heard[ch].closed;
    }
  }

  /**
   No orphan frames: a response that arrives is for a request in flight and of the kind its
   caller expects; a value or close that arrives finds its handler installed. The "unknown
   id" and "handler not found" branches are never taken.
   */
  lemma NoOrphans(reg: H.Registry, s: State)
    requires Reachable(reg, s) && Enabled(reg, s, ClientHandle)
    ensures var m := s.down.frames[0];
            && (m.Reply? ==> m.id in s.client.inflight && m.id !in C.OnFrame(s.client, m).inflight)
            && (m.Reply? && m.body.Chan? ==> m.body.ch !in s.client.chanHandlers)
            && (m.ChanValue? || m.ChanClose? ==> m.ch in s.client.chanHandlers)
  {
    var m := s.down.frames[0];
    if m.Reply? { KnownReply(reg, s); }
    KnowStreams(reg, s);
    if m.ChanValue? || m.ChanClose? { Streams.ArrivesInOrder(s, m.ch); }
    if m.Reply? && m.body.Chan? { Streams.ArrivesInOrder(s, m.body.ch); }
  }

  lemma KnownReply(reg: H.Registry, s: State)
    requires Reachable(reg, s) && s.down.frames != [] && s.down.frames[0].Reply?
    ensures var m := s.down.frames[0];
            m.id in s.client.inflight && m.id !in C.OnFrame(s.client, m).inflight
  {
    ReachableInv(reg, s);
    ReplyArrives(reg, s);
  }

  /**
   Every sink gets the close signal exactly once by the end of its connection and no value
   after it: it is open exactly while its stream is registered, and when no connection is
   up every sink has been closed, once.
   */
  lemma SinkDiscipline(reg: H.Registry, s: State)
    requires Reachable(reg, s)
    ensures forall tok :: tok in s.client.sinks ==>
      && !s.client.sinks[tok].panicked
      && s.client.sinks[tok].closeCalls == Bit(!C.Handled(s.client.chanHandlers, tok))
      && (!s.live ==> s.client.sinks[tok].closeCalls == 1)
      && s.client.sinks[tok].outCloses <= 1
  {
    ReachableInv(reg, s);
    forall tok | tok in s.client.sinks
      ensures s.client.sinks[tok].closeCalls == Bit(!C.Handled(s.client.chanHandlers, tok))
      ensures !s.client.sinks[tok].panicked && s.client.sinks[tok].outCloses <= 1
    {
      assert S.Good(s.client.sinks[tok]);
    }
  }

  /**
   A slow reader never wedges the loop: while the loop waits to push a value, it can push,
   or give up because the stream's context is done, or the buffer goroutine can take a
   value off the full channel, whatever the caller does, after which the push goes through.
   */
  lemma NeverWedged(reg: H.Registry, s: State)
    requires Reachable(reg, s) && s.live && s.client.loop.Pushing?
    ensures var drain := SinkTurn(s.client.loop.tok, S.TakeIn);
            || Enabled(reg, s, FinishPush)
            || Enabled(reg, s, AbandonPush)
            || (Enabled(reg, s, drain) && Enabled(reg, Apply(reg, s, drain), FinishPush))
  {
    DrainReachable(reg, s);
  }

  lemma DrainReachable(reg: H.Registry, s: State)
    requires Reachable(reg, s) && s.client.loop.Pushing?
    ensures var drain := C.SinkTurn(s.client.loop.tok, S.TakeIn);
            || C.Enabled(s.client, C.FinishPush)
            || C.Enabled(s.client, C.AbandonPush)
            || (C.Enabled(s.client, drain) && C.Enabled(C.Apply(s.client, drain), C.FinishPush))
  {
    KnowClient(reg, s);
    KnowStreams(reg, s);
    DrainFirst(s.client);
  }

  lemma DrainFirst(c: C.Client)
    requires C.Inv(c) && OpenIffHandled(c.chanHandlers, c.sinks, c.ctxDone) && c.loop.Pushing?
    ensures var drain := C.SinkTurn(c.loop.tok, S.TakeIn);
            || C.Enabled(c, C.FinishPush)
            || C.Enabled(c, C.AbandonPush)
            || (C.Enabled(c, drain) && C.Enabled(C.Apply(c, drain), C.FinishPush))
  {
    Streams.PushTarget(c);
    var tok := c.loop.tok;
    assert S.Good(c.sinks[tok]);
    assert c.sinks[tok].cancelled ==> tok.call in c.ctxDone;
    if !C.Enabled(c, C.FinishPush) && !C.Enabled(c, C.AbandonPush) {
      var t := S.Apply(c.sinks[tok], S.TakeIn);
      assert |t.incoming| == |c.sinks[tok].incoming| - 1 && !t.drained;
      assert C.Apply(c, C.SinkTurn(tok, S.TakeIn)).sinks[tok] == t;
    }
  }

  // ---- calls ----

  /**
   Attempts sent are those answered, once each and under their own id, plus those in
   flight; no send to a ready channel blocks. Each request id that is answered on a
   connection was sent over it.
   */
  lemma CallConservation(reg: H.Registry, s: State)
    requires Reachable(reg, s)
    ensures !s.client.blocked
    ensures forall tok :: tok in s.client.ready ==>
      && |s.client.ready[tok]| == Bit(!C.Pending(s.client.inflight, tok))
      && (forall a :: a in s.client.ready[tok] ==> a.id == tok.call)
    ensures !s.live ==> s.client.inflight == map[]
    ensures forall x :: |InTransit(s.down, Replies(x))| + Bit(Settled(s, x)) == Bit(V.HasReplied(s.server, x))
    ensures forall x :: |InTransit(s.up, Calls(x))| + Bit(x in s.server.calls) == Bit(x in s.taken)
  {
    KnowClient(reg, s);
    KnowTransit(reg, s);
    forall x ensures |InTransit(s.up, Calls(x))| + Bit(x in s.server.calls) == Bit(x in s.taken) {
      assert |InTransit(s.up, Calls(x))| + Bit(x in s.server.calls.Keys) == Bit(x in s.taken);
    }
    KnowDown(reg, s);
  }

  lemma KnowDown(reg: H.Registry, s: State)
    requires Reachable(reg, s)
    ensures !s.live ==> s.client.inflight == map[] && s.client.chanHandlers == map[]
  {
    ReachableInv(reg, s);
  }

  /**
   Only connection loss drives a retry: no answer a server writes has code 2; a call was
   sent again only if it is marked, and then each earlier attempt ended in connection loss;
   a call some server answered is never sent again; what the caller gets is the response to
   its last attempt, and never a connection loss when the call is marked.
   */
  lemma RetryOnlyAfterLoss(reg: H.Registry, s: State)
    requires Reachable(reg, s)
    ensures forall m :: Carries(s.down, m) && m.Reply? ==> !Lost(m.body)
    ensures forall x :: x in s.calls && s.calls[x].nth > 0 ==> s.calls[x].retry
    ensures forall x, n: nat :: x in s.calls && n < s.calls[x].nth ==> GotLost(s.client.ready, C.Tok(x, n))
    ensures forall tok :: tok in s.client.ready && tok.call in s.calls && tok.nth < s.calls[tok.call].nth ==>
      |s.client.ready[tok]| == 1 && s.client.ready[tok][0].body.error.Some? && s.client.ready[tok][0].body.error.value.code == 2
    ensures forall x :: x in s.answered ==>
      x in s.calls && !s.calls[x].phase.Sending? && !s.calls[x].phase.Backoff?
    ensures forall x :: x in s.calls && s.calls[x].phase.Returned? ==>
      && C.Tok(x, s.calls[x].nth) in s.client.ready
      && s.client.ready[C.Tok(x, s.calls[x].nth)] == [C.Answer(x, s.calls[x].phase.body)]
      && !(s.calls[x].retry && Lost(s.calls[x].phase.body))
  {
    ReachableInv(reg, s);
    forall m | Carries(s.down, m) && m.Reply? ensures !Lost(m.body) { assert DownOK(s.calls, m); }
  }

  predicate IssuedAs(calls: Calls, x: int, name: string, params: seq<Raw>, stream: bool, retry: bool) {
    && x in calls && calls[x].name == name && calls[x].params == params
    && calls[x].stream == stream && calls[x].retry == retry
  }

  /**
   A new call takes an id no call has had, and keeps the name, parameters and marks it was
   made with through every later run: whatever is sent, sent again or answered under that
   id is for them.
   */
  lemma {:induction false} CallIsAsIssued(reg: H.Registry, s: State, e: Step, es: seq<Step>)
    requires Reachable(reg, s) && e.Issue? && Enabled(reg, s, e)
    ensures s.idCtr + 1 !in s.calls
    ensures IssuedAs(Run(reg, Apply(reg, s, e), es).calls, s.idCtr + 1, e.name, e.params, e.stream, e.retry)
  {
    KnowNumbers(reg, s);
    IssueEffect(reg, s, e);
    ReachableStep(reg, s, e);
    StaysIssued(reg, Apply(reg, s, e), s.idCtr + 1, e.name, e.params, e.stream, e.retry, es);
  }

  lemma KnowNumbers(reg: H.Registry, s: State)
    requires Reachable(reg, s)
    ensures Numbered(s.calls, s.idCtr)
  {
    ReachableInv(reg, s);
  }

  lemma ReachableStep(reg: H.Registry, s: State, e: Step)
    requires Reachable(reg, s) && Enabled(reg, s, e)
    ensures Inv(reg, Apply(reg, s, e))
  {
    ReachableInv(reg, s);
    Streams.StepKeepsInv(reg, s, e);
  }

  lemma IssueEffect(reg: H.Registry, s: State, e: Step)
    requires e.Issue? && Enabled(reg, s, e)
    ensures IssuedAs(Apply(reg, s, e).calls, s.idCtr + 1, e.name, e.params, e.stream, e.retry)
  {
  }

  lemma {:induction false} StaysIssued(reg: H.Registry, s: State, x: int,
                                       name: string, params: seq<Raw>, stream: bool, retry: bool, es: seq<Step>)
    requires Inv(reg, s) && IssuedAs(s.calls, x, name, params, stream, retry)
    ensures IssuedAs(Run(reg, s, es).calls, x, name, params, stream, retry)
    decreases |es|
  {
    if es != [] {
      if Enabled(reg, s, es[0]) {
        Streams.StepKeepsInv(reg, s, es[0]);
        StepIssued(reg, s, es[0], x, name, params, stream, retry);
      }
      StaysIssued(reg, StepOnce(reg, s, es[0]), x, name, params, stream, retry, es[1..]);
    }
  }

  lemma StepIssued(reg: H.Registry, s: State, e: Step, x: int, name: string, params: seq<Raw>, stream: bool, retry: bool)
    requires Numbered(s.calls, s.idCtr) && Enabled(reg, s, e) && IssuedAs(s.calls, x, name, params, stream, retry)
    ensures IssuedAs(Apply(reg, s, e).calls, x, name, params, stream, retry)
  {
    T.CallsExtend(reg, s, e, Apply(reg, s, e));
  }

  // ---- cancellation ----

  lemma KnowServer(reg: H.Registry, s: State)
    requires Reachable(reg, s)
    ensures V.Inv(reg, s.server) && UpSound(s.calls, s.client.ctxDone, s.up)
    ensures ServerKnows(reg, s.calls, s.server, s.client.ctxDone)
  {
    ReachableInv(reg, s);
  }

  /** A cancel frame ends only contexts whose caller's context is done. */
  lemma CancelsOnlyItsOwn(reg: H.Registry, s: State)
    requires Reachable(reg, s)
    ensures s.server.cancelled <= s.client.ctxDone
    ensures forall x :: Carries(s.up, Cancel(x)) ==> x in s.client.ctxDone
  {
    KnowServer(reg, s);
    forall x | Carries(s.up, Cancel(x)) ensures x in s.client.ctxDone {
      assert UpOK(s.calls, s.client.ctxDone, Cancel(x));
    }
  }

  /**
   A cancel that arrives finds its call at the server if and only if the call was sent over
   this connection and is not still behind it; one found is in the table, or has finished
   without keeping its context.
   */
  lemma CancelFindsItsCall(reg: H.Registry, s: State, x: int)
    requires Reachable(reg, s) && s.live && !s.server.exiting
    requires s.up.frames != [] && s.up.frames[0] == Cancel(x)
    ensures x in s.server.calls <==> x in s.taken && InTransit(s.up, Calls(x)) == []
    ensures x in s.server.calls ==> x in s.server.handling || s.server.calls[x].phase == V.Finished(false)
    ensures x !in s.server.calls ==> V.OnFrame(s.server, Cancel(x)) == s.server
  {
    ReachableInv(reg, s);
    assert |InTransit(s.up, Calls(x))| + Bit(x in s.server.calls.Keys) == Bit(x in s.taken);
  }

  /**
   A late cancel hits nothing: a call not sent over this connection is neither under way
   nor run here, so a cancel for it, left over from an answered call or from a lost attempt,
   changes nothing; once a server has answered a call no later connection sends it. The
   watchers that send such cancels belong to answered calls.
   */
  lemma LateCancelHitsNothing(reg: H.Registry, s: State, x: int)
    requires Reachable(reg, s)
    ensures x in s.before ==> x !in s.taken
    ensures x !in s.taken ==> InTransit(s.up, Calls(x)) == [] && x !in s.server.calls
    ensures x !in s.taken && !s.server.exiting ==>
      x !in s.server.handling && V.OnFrame(s.server, Cancel(x)) == s.server
    ensures forall tok :: tok in s.client.watchers ==> tok.call in s.answered
  {
    ReachableInv(reg, s);
    assert |InTransit(s.up, Calls(x))| + Bit(x in s.server.calls.Keys) == Bit(x in s.taken);
  }

  // ---- the wire ----

  /** The call and stream ids handed out so far fit in the counters' types. */
  predicate CountersFit(s: State) {
    IsInt64(s.idCtr) && IsUint64(s.server.chanCtr)
  }

  /**
   While the counters have not overflowed, every message under way comes back from its
   encoding as itself, routed to its own handler.
   */
  lemma MessagesSurviveTheWire(reg: H.Registry, s: State, m: Msg)
    requires Reachable(reg, s) && CountersFit(s) && (Carries(s.up, m) || Carries(s.down, m))
    ensures Read(Pack(m), set x | x in s.calls && s.calls[x].stream) == Some(m)
  {
    KnowMessages(reg, s);
    if Carries(s.up, m) {
      assert UpOK(s.calls, s.client.ctxDone, m);
    } else {
      assert DownOK(s.calls, m);
      if (m.Reply? && m.body.Chan?) || m.ChanValue? || m.ChanClose? {
        StreamNumbered(s, m, if m.Reply? then m.body.ch else m.ch);
      }
    }
    ReadBack(m, set x | x in s.calls && s.calls[x].stream);
  }

  lemma KnowMessages(reg: H.Registry, s: State)
    requires Reachable(reg, s)
    ensures UpSound(s.calls, s.client.ctxDone, s.up) && DownSound(s.calls, s.down)
    ensures forall x :: x in s.calls ==> Callable(s.calls[x].name)
    ensures Numbered(s.calls, s.idCtr)
    ensures StreamsWhole(s.heard, s.down, s.server.outs) && V.ChansSound(s.server.calls, s.server.chanCtr, s.server.outs)
  {
    ReachableInv(reg, s);
  }

  /** A message about a stream is about one the server registered. */
  lemma StreamNumbered(s: State, m: Msg, ch: nat)
    requires StreamsWhole(s.heard, s.down, s.server.outs) && V.ChansSound(s.server.calls, s.server.chanCtr, s.server.outs)
    requires Carries(s.down, m) && Matches(Stream(ch), m)
    ensures ch in s.server.outs && ch <= s.server.chanCtr
  {
    if m in s.down.frames { Picked(s.down.frames, Stream(ch), m); }
    else if m in s.down.wire { Picked(s.down.wire, Stream(ch), m); }
    else { Picked(s.down.write, Stream(ch), m); }
    assert m in InTransit(s.down, Stream(ch));
    assert Consumed(s.heard, ch) + InTransit(s.down, Stream(ch)) == O.History(s.server.outs, ch);
  }

  lemma {:induction false} Picked(q: seq<Msg>, sel: Sel, m: Msg)
    requires m in q && Matches(sel, m)
    ensures m in Pick(q, sel)
  {
    if m != q[0] { Picked(q[1..], sel, m); }
  }

  // ---- the server's table ----

  /**
   The cancel-function table of a live connection holds exactly the calls whose handler has
   not called done, and the finished ones that were found with the right arity and return a
   channel; every call in it was made by this client.
   */
  lemma HandlingTable(reg: H.Registry, s: State)
    requires Reachable(reg, s) && !s.server.exiting
    ensures forall x :: x in s.server.handling <==>
      x in s.server.calls && (!s.server.calls[x].phase.Finished? || V.Keeps(reg, s.server.calls[x].req))
    ensures forall x :: x in s.server.calls ==>
      x in s.calls && s.server.calls[x].req == Request("2.0", Some(x), s.calls[x].name, s.calls[x].params, map[])
  {
    ReachableInv(reg, s);
  }
}
