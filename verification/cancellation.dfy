/**
 A cancellation reaches its call: what follows the end of a caller's context, from
 doRequest or the stream's watcher to the server's cancel-function table
 (jsonrpc/client.go:236-251, jsonrpc/websocket.go:217-246).
 */
module Cancellation {
  import opened Basics
  import opened Wire
  import opened Pipes
  import opened Engine
  import opened Invariants
  import Streams
  import T = Transit
  import R = Theorems
  import P = Preservation
  import H = Handler
  import C = ClientConn
  import V = ServerConn

  /** The server ended the call's context, or had no more use for it. */
  predicate Ended(server: V.Server, x: int) {
    x in server.cancelled || (x in server.calls && server.calls[x].phase == V.Finished(false))
  }

  predicate CancelLast(q: seq<Msg>) {
    q != [] && q[|q| - 1].Cancel?
  }

  /** A cancel is under way behind the call it belongs to, or has done its work. */
  predicate Arranged(up: Pipe, server: V.Server, x: int) {
    CancelLast(InTransit(up, Orders(x))) || Ended(server, x)
  }

  // ---- queues ----

  lemma {:induction false} PickFewer(q: seq<Msg>, x: int)
    ensures |Pick(q, Calls(x))| <= |Pick(q, Orders(x))|
  {
    if q != [] { PickFewer(q[1..], x); }
  }

  lemma NoOrdersNoCalls(p: Pipe, x: int)
    requires InTransit(p, Orders(x)) == []
    ensures InTransit(p, Calls(x)) == []
  {
    PickFewer(p.frames, x);
    PickFewer(p.wire, x);
    PickFewer(p.write, x);
  }

  lemma {:induction false} PickedFrom(q: seq<Msg>, sel: Sel, m: Msg)
    requires m in Pick(q, sel)
    ensures m in q && Matches(sel, m)
  {
    if !(Matches(sel, q[0]) && m == q[0]) { PickedFrom(q[1..], sel, m); }
  }

  lemma CancelCarried(p: Pipe, x: int)
    requires CancelLast(InTransit(p, Orders(x)))
    ensures Carries(p, Cancel(x))
  {
    var q := InTransit(p, Orders(x));
    var m := q[|q| - 1];
    if m in Pick(p.frames, Orders(x)) { PickedFrom(p.frames, Orders(x), m); }
    else if m in Pick(p.wire, Orders(x)) { PickedFrom(p.wire, Orders(x), m); }
    else { PickedFrom(p.write, Orders(x), m); }
  }

  lemma PutKeeps(up: Pipe, server: V.Server, m: Msg, x: int)
    requires Arranged(up, server, x) && (m.Call? ==> m.callId != Some(x))
    ensures Arranged(Put(up, [m]), server, x)
  {
    T.PutOther(up, m, Orders(x));
  }

  lemma OfferArranges(up: Pipe, server: V.Server, x: int)
    ensures Arranged(Put(up, [Cancel(x)]), server, x)
  {
    T.PutOther(up, Cancel(x), Orders(x));
  }

  lemma CallBefore(up: Pipe, server: V.Server, taken: set<int>, x: int)
    requires CallsOnce(up, server.calls.Keys, taken) && x in taken
    requires up.frames != [] && up.frames[0] == Cancel(x) && InTransit(Pop(up), Orders(x)) == []
    ensures x in server.calls
  {
    NoOrdersNoCalls(Pop(up), x);
    OldestFirst(up, Calls(x));
    assert |InTransit(up, Calls(x))| + Bit(x in server.calls.Keys) == Bit(x in taken);
  }

  /** The server handles its oldest frame: if that is the last cancel, its call came before. */
  lemma PopKeeps(up: Pipe, server: V.Server, taken: set<int>, x: int)
    requires CallsOnce(up, server.calls.Keys, taken) && x in taken && up.frames != []
    requires V.HandlingExact(server.calls, server.handling) && V.Fresh(server, V.Incoming(up.frames[0]))
    requires Arranged(up, server, x)
    ensures Arranged(Pop(up), V.OnFrame(server, up.frames[0]), x)
  {
    OldestFirst(up, Orders(x));
    var rest := InTransit(Pop(up), Orders(x));
    if Ended(server, x) {
    } else if rest == [] {
      assert up.frames[0] == Cancel(x);
      CallBefore(up, server, taken, x);
    } else {
      assert rest[|rest| - 1] == InTransit(up, Orders(x))[|InTransit(up, Orders(x))| - 1];
    }
  }

  lemma ActKeeps(reg: H.Registry, s: V.Server, e: V.Event, x: int)
    requires V.Enabled(s, e) && !e.Incoming? && Ended(s, x)
    ensures Ended(V.Apply(reg, s, e), x)
  {
  }

  // ---- steps ----

  predicate Puts(e: Step) {
    e.TakeCall? || e.TakeCancel? || e.WatcherFires?
  }

  lemma QuietKeeps(reg: H.Registry, s: State, e: Step, t: State, x: int)
    requires KeepAlivesOnly(s.up) && Arranged(s.up, s.server, x)
    requires Enabled(reg, s, e) && t == Apply(reg, s, e) && !T.TouchesCalls(e)
    ensures Arranged(t.up, t.server, x)
  {
    T.OtherStepsUp(reg, s, e, t);
    assert InTransit(t.up, Orders(x)) == InTransit(s.up, Orders(x));
    if Ended(s.server, x) {
      if e.ServerAct? { ActKeeps(reg, s.server, e.e, x); } else { T.ServerUntouched(reg, s, e, t); }
    }
  }

  lemma MoveKeeps(reg: H.Registry, s: State, e: Step, t: State, x: int)
    requires KeepAlivesOnly(s.up) && Arranged(s.up, s.server, x)
    requires Enabled(reg, s, e) && t == Apply(reg, s, e) && T.UpMove(e)
    ensures Arranged(t.up, t.server, x)
  {
    T.MovedAlong(s.up, t.up, Orders(x));
  }

  lemma PutsKeep(reg: H.Registry, s: State, e: Step, t: State, x: int)
    requires Arranged(s.up, s.server, x) && x in s.taken && s.live
    requires Enabled(reg, s, e) && t == Apply(reg, s, e) && Puts(e)
    requires e.TakeCall? ==> e.x !in s.taken
    ensures Arranged(t.up, t.server, x)
  {
    if e.TakeCall? { PutKeeps(s.up, s.server, RequestMsg(s, e.x), x); }
    else if e.TakeCancel? { PutKeeps(s.up, s.server, Cancel(e.x), x); }
    else { PutKeeps(s.up, s.server, Cancel(e.tok.call), x); }
  }

  /** The loop takes a call not yet sent over this connection; a call that arrives is new. */
  predicate Orderly(s: State, e: Step) {
    && (e.TakeCall? ==> e.x !in s.taken)
    && (e.ServerHandle? && s.up.frames != [] ==> V.Fresh(s.server, V.Incoming(s.up.frames[0])))
  }

  lemma HandleKeeps(reg: H.Registry, s: State, at: Raw, t: State, x: int)
    requires CallsOnce(s.up, s.server.calls.Keys, s.taken) && x in s.taken && Arranged(s.up, s.server, x)
    requires Enabled(reg, s, ServerHandle(at)) && t == Apply(reg, s, ServerHandle(at))
    requires V.HandlingExact(s.server.calls, s.server.handling) && Orderly(s, ServerHandle(at))
    ensures Arranged(t.up, t.server, x)
  {
    PopKeeps(s.up, s.server, s.taken, x);
  }

  lemma ArrangedStays(reg: H.Registry, s: State, e: Step, t: State, x: int)
    requires CallsOnce(s.up, s.server.calls.Keys, s.taken) && KeepAlivesOnly(s.up) && V.Inv(reg, s.server)
    requires s.live && x in s.taken && Arranged(s.up, s.server, x)
    requires Enabled(reg, s, e) && t == Apply(reg, s, e) && !e.Lose? && Orderly(s, e)
    ensures Arranged(t.up, t.server, x)
  {
    if e.ServerHandle? {
      HandleKeeps(reg, s, e.at, t, x);
    } else if Puts(e) {
      PutsKeep(reg, s, e, t, x);
    } else if T.UpMove(e) {
      MoveKeeps(reg, s, e, t, x);
    } else {
      QuietKeeps(reg, s, e, t, x);
    }
  }

  // ---- the invariant ----

  /** This attempt's caller saw its context done, and the loop has taken its cancel. */
  predicate Cancelling(calls: Calls, x: int) {
    x in calls && calls[x].sawDone && !calls[x].offering
  }

  ghost predicate CallersArranged(s: State) {
    && (forall x :: x in s.client.inflight && Cancelling(s.calls, x) ==> s.exiting || Arranged(s.up, s.server, x))
    && (forall x :: x in s.calls && s.calls[x].phase.Sending? ==> !s.calls[x].sawDone)
  }

  ghost predicate StreamsArranged(s: State) {
    && (forall ch :: ch in s.heard ==> s.live && s.heard[ch].tok.call in s.taken)
    && (forall ch :: ch in s.heard ==>
          s.heard[ch].tok in s.client.watchers || Arranged(s.up, s.server, s.heard[ch].tok.call))
  }

  /** A call whose stream was registered keeps its context. */
  ghost predicate StreamsKeep(server: V.Server) {
    forall ch :: ch in server.outs ==>
      && server.outs[ch].req in server.calls
      && V.Answered(server.calls[server.outs[ch].req].phase)
      && server.calls[server.outs[ch].req].phase.keep
  }

  ghost predicate CancelInv(s: State) {
    CallersArranged(s) && StreamsArranged(s) && StreamsKeep(s.server)
  }

  // ---- callers ----

  /** A caller is cancelling after a step only if it was before, or the loop just took its cancel, or nobody will. */
  lemma CancellingBefore(reg: H.Registry, s: State, e: Step, t: State, x: int)
    requires CallersArranged(s) && Numbered(s.calls, s.idCtr) && InflightCurrent(s.calls, s.client.inflight)
    requires Enabled(reg, s, e) && t == Apply(reg, s, e) && !e.Lose? && !e.ClientHandle?
    requires x in t.client.inflight && Cancelling(t.calls, x)
    ensures x in s.client.inflight
    ensures Cancelling(s.calls, x) || e == TakeCancel(x) || s.exiting
    ensures s.exiting ==> t.exiting
  {
  }

  lemma SendingFresh(reg: H.Registry, s: State, e: Step, t: State)
    requires CallersArranged(s) && Enabled(reg, s, e) && t == Apply(reg, s, e)
    ensures forall x :: x in t.calls && t.calls[x].phase.Sending? ==> !t.calls[x].sawDone
  {
  }

  lemma HandleCancelling(reg: H.Registry, s: State, t: State, x: int)
    requires Enabled(reg, s, ClientHandle) && t == Apply(reg, s, ClientHandle)
    requires C.Conserved(s.client.inflight, s.client.ready) && P.Usable(s, s.down.frames[0])
    requires x in t.client.inflight
    ensures x in s.client.inflight && t.calls == s.calls && t.exiting == s.exiting
  {
    P.HandleEffect(reg, s, t);
  }

  lemma CallersKept(reg: H.Registry, s: State, e: Step, t: State)
    requires CallsOnce(s.up, s.server.calls.Keys, s.taken) && KeepAlivesOnly(s.up) && V.Inv(reg, s.server)
    requires CallersInv(s) && C.Conserved(s.client.inflight, s.client.ready)
    requires s.client.inflight != map[] ==> s.live
    requires CallersArranged(s) && Orderly(s, e)
    requires Enabled(reg, s, e) && t == Apply(reg, s, e) && !e.Lose?
    requires e.ClientHandle? ==> P.Usable(s, s.down.frames[0])
    ensures CallersArranged(t)
  {
    SendingFresh(reg, s, e, t);
    forall x | x in t.client.inflight && Cancelling(t.calls, x)
      ensures t.exiting || Arranged(t.up, t.server, x)
    {
      if e.ClientHandle? { HandleCancelling(reg, s, t, x); } else { CancellingBefore(reg, s, e, t, x); }
      if e == TakeCancel(x) { OfferArranges(s.up, s.server, x); }
      else if !s.exiting { ArrangedStays(reg, s, e, t, x); }
    }
  }

  // ---- streams ----

  /** A stream of before the step, whose watcher still waits unless it fires now. */
  predicate OldStream(s: State, e: Step, t: State, ch: nat) {
    && ch in s.heard && ch in t.heard && s.heard[ch].tok == t.heard[ch].tok
    && (t.heard[ch].tok in s.client.watchers ==> t.heard[ch].tok in t.client.watchers || e == WatcherFires(t.heard[ch].tok))
  }

  lemma QuietHeard(reg: H.Registry, s: State, e: Step, t: State, ch: nat)
    requires Enabled(reg, s, e) && t == Apply(reg, s, e) && !e.Lose? && !e.ClientHandle? && ch in t.heard
    ensures OldStream(s, e, t, ch) && (s.live ==> t.live) && s.taken <= t.taken
  {
  }

  /** The stream is one of before the step, or it has just been announced and is watched. */
  lemma FrameHeard(c: C.Client, heard: map<nat, Heard>, m: Msg, ch: nat)
    requires ch in HeardAfter(c, heard, m)
    requires m.Reply? && m.body.Chan? && m.id in c.inflight ==> c.inflight[m.id].tok.call == m.id
    ensures var tok := HeardAfter(c, heard, m)[ch].tok;
            && c.watchers <= C.OnFrame(c, m).watchers
            && ((ch in heard && heard[ch].tok == tok) || (tok.call in c.inflight && tok in C.OnFrame(c, m).watchers))
  {
  }

  lemma HandleHeard(reg: H.Registry, s: State, t: State, ch: nat)
    requires Enabled(reg, s, ClientHandle) && t == Apply(reg, s, ClientHandle) && ch in t.heard
    requires forall x :: x in s.client.inflight ==> s.client.inflight[x].tok.call == x
    ensures t.live && t.taken == s.taken
    ensures || OldStream(s, ClientHandle, t, ch)
            || (t.heard[ch].tok.call in s.client.inflight && t.heard[ch].tok in t.client.watchers)
  {
    FrameHeard(s.client, s.heard, s.down.frames[0], ch);
  }

  lemma StreamKept(reg: H.Registry, s: State, e: Step, t: State, ch: nat)
    requires CallsOnce(s.up, s.server.calls.Keys, s.taken) && KeepAlivesOnly(s.up) && V.Inv(reg, s.server)
    requires s.live && Enabled(reg, s, e) && t == Apply(reg, s, e) && !e.Lose? && Orderly(s, e)
    requires OldStream(s, e, t, ch) && s.heard[ch].tok.call in s.taken
    requires s.heard[ch].tok in s.client.watchers || Arranged(s.up, s.server, s.heard[ch].tok.call)
    ensures t.heard[ch].tok in t.client.watchers || Arranged(t.up, t.server, t.heard[ch].tok.call)
  {
    var tok := s.heard[ch].tok;
    if tok !in t.client.watchers {
      if e == WatcherFires(tok) { OfferArranges(s.up, s.server, tok.call); }
      else { ArrangedStays(reg, s, e, t, tok.call); }
    }
  }

  lemma StreamsKept(reg: H.Registry, s: State, e: Step, t: State)
    requires CallsOnce(s.up, s.server.calls.Keys, s.taken) && KeepAlivesOnly(s.up) && V.Inv(reg, s.server)
    requires forall x :: x in s.client.inflight ==> s.client.inflight[x].tok.call == x && x in s.taken
    requires StreamsArranged(s) && Orderly(s, e)
    requires Enabled(reg, s, e) && t == Apply(reg, s, e) && !e.Lose?
    ensures StreamsArranged(t)
  {
    forall ch | ch in t.heard
      ensures t.live && t.heard[ch].tok.call in t.taken
      ensures t.heard[ch].tok in t.client.watchers || Arranged(t.up, t.server, t.heard[ch].tok.call)
    {
      if e.ClientHandle? { HandleHeard(reg, s, t, ch); } else { QuietHeard(reg, s, e, t, ch); }
      if OldStream(s, e, t, ch) { StreamKept(reg, s, e, t, ch); }
    }
  }

  lemma RegisteredKeep(reg: H.Registry, s: V.Server, e: V.Event)
    requires StreamsKeep(s) && V.Enabled(s, e) && V.Fresh(s, e)
    ensures StreamsKeep(V.Apply(reg, s, e))
  {
  }

  lemma ServerKept(reg: H.Registry, s: State, e: Step, t: State)
    requires StreamsKeep(s.server) && Orderly(s, e)
    requires Enabled(reg, s, e) && t == Apply(reg, s, e)
    ensures StreamsKeep(t.server)
  {
    if e.ServerHandle? { RegisteredKeep(reg, s.server, V.Incoming(s.up.frames[0])); }
    else if e.ServerAct? { RegisteredKeep(reg, s.server, e.e); }
  }

  // ---- runs ----

  lemma LoseForgets(reg: H.Registry, s: State, t: State)
    requires CallersArranged(s) && Enabled(reg, s, Lose) && t == Apply(reg, s, Lose)
    ensures CallersArranged(t) && StreamsArranged(t)
  {
  }

  /** What the invariant says about the step. */
  lemma StepOrderly(reg: H.Registry, s: State, e: Step)
    requires Inv(reg, s) && Enabled(reg, s, e)
    ensures Orderly(s, e)
    ensures e.ClientHandle? ==> P.Usable(s, s.down.frames[0])
  {
    if e.TakeCall? { P.TakeIsFresh(s, e.x); }
    if e.ServerHandle? { P.CallArrives(reg, s); }
    if e.ClientHandle? && s.down.frames[0].Reply? { ReplyArrives(reg, s); }
  }

  lemma ArrangementsKept(reg: H.Registry, s: State, e: Step, t: State)
    requires Enabled(reg, s, e) && t == Apply(reg, s, e) && !e.Lose?
    requires e.ClientHandle? ==> P.Usable(s, s.down.frames[0])
    requires Inv(reg, s) && CallersArranged(s) && StreamsArranged(s) && Orderly(s, e)
    ensures CallersArranged(t) && StreamsArranged(t)
  {
    CallersKept(reg, s, e, t);
    StreamsKept(reg, s, e, t);
  }

  lemma StepKeepsCancelInv(reg: H.Registry, s: State, e: Step)
    requires Inv(reg, s) && CancelInv(s) && Enabled(reg, s, e)
    ensures CancelInv(Apply(reg, s, e))
  {
    var t := Apply(reg, s, e);
    StepOrderly(reg, s, e);
    ServerKept(reg, s, e, t);
    if e.Lose? { LoseForgets(reg, s, t); } else { ArrangementsKept(reg, s, e, t); }
  }

  lemma {:induction false} RunKeepsCancelInv(reg: H.Registry, s: State, es: seq<Step>)
    requires Inv(reg, s) && CancelInv(s)
    ensures Inv(reg, Run(reg, s, es)) && CancelInv(Run(reg, s, es))
    decreases |es|
  {
    if es != [] {
      if Enabled(reg, s, es[0]) {
        StepKeepsCancelInv(reg, s, es[0]);
        Streams.StepKeepsInv(reg, s, es[0]);
      }
      RunKeepsCancelInv(reg, StepOnce(reg, s, es[0]), es[1..]);
    }
  }

  lemma ReachableCancelInv(reg: H.Registry, s: State)
    requires Reachable(reg, s)
    ensures CancelInv(s)
  {
    var es :| Run(reg, INIT, es) == s;
    InitInv(reg);
    RunKeepsCancelInv(reg, INIT, es);
  }

  /**
   The end of a waiting caller's context sets its cancellation going, and nothing but a busy
   loop or a full queue can hold it up: the caller can notice it, then the loop can take the
   cancel, and then it is under way.
   */
  lemma CancelProceeds(reg: H.Registry, s: State, x: int)
    requires x in s.calls && s.calls[x].phase.Waiting? && !s.calls[x].sawDone && LoopFree(s) && Room(s.up.write)
    ensures Enabled(reg, s, Expire(x))
    ensures var s1 := Apply(reg, s, Expire(x));
            Enabled(reg, s1, SeeDone(x)) &&
            var s2 := Apply(reg, s1, SeeDone(x));
            Enabled(reg, s2, TakeCancel(x)) &&
            var s3 := Apply(reg, s2, TakeCancel(x));
            Carries(s3.up, Cancel(x)) && Cancelling(s3.calls, x)
  {
    var s2 := Apply(reg, Apply(reg, s, Expire(x)), SeeDone(x));
    assert s2.up == s.up && LoopFree(s2);
    var s3 := Apply(reg, s2, TakeCancel(x));
    assert s3.up.write[|s2.up.write|] == Cancel(x);
  }

  /** So does the end of a stream's context while its watcher waits. */
  lemma WatcherProceeds(reg: H.Registry, s: State, tok: C.Tok)
    requires s.live && tok in s.client.watchers
    ensures var s1 := Apply(reg, s, Expire(tok.call));
            Enabled(reg, s1, WatcherFires(tok)) &&
            var s2 := Apply(reg, s1, WatcherFires(tok));
            Carries(s2.up, Cancel(tok.call)) && tok !in s2.client.watchers
  {
    var s1 := Apply(reg, s, Expire(tok.call));
    var s2 := Apply(reg, s1, WatcherFires(tok));
    assert s2.up.write[|s1.up.write|] == Cancel(tok.call);
  }

  /**
   A cancelled call is cancelled: once a caller that still waits for its answer has seen its
   context done and the loop has taken its cancel, that cancel is under way, or the call's
   context at the server has ended, or the call has finished there and needs none. Only a
   client that is exiting drops the cancel.
   */
  lemma CancelReachesCall(reg: H.Registry, s: State, x: int)
    requires Reachable(reg, s) && x in s.client.inflight && Cancelling(s.calls, x) && !s.exiting
    ensures || Carries(s.up, Cancel(x))
            || x in s.server.cancelled
            || (x in s.server.calls && s.server.calls[x].phase == V.Finished(false))
  {
    ReachableCancelInv(reg, s);
    if CancelLast(InTransit(s.up, Orders(x))) { CancelCarried(s.up, x); }
  }

  /**
   A cancelled stream is cancelled: once its watcher has fired, the cancel of its call is
   under way over the connection the stream runs on, or the context its handler was given
   has ended; that context is kept for as long as the stream's connection.
   */
  lemma CancelReachesStream(reg: H.Registry, s: State, ch: nat)
    requires Reachable(reg, s) && ch in s.heard && s.heard[ch].tok !in s.client.watchers
    ensures var x := s.heard[ch].tok.call;
            Carries(s.up, Cancel(x)) || x in s.server.cancelled
  {
    ReachableCancelInv(reg, s);
    var x := s.heard[ch].tok.call;
    if CancelLast(InTransit(s.up, Orders(x))) { CancelCarried(s.up, x); }
    StreamCallKept(reg, s, ch);
  }

  lemma StreamCallKept(reg: H.Registry, s: State, ch: nat)
    requires Reachable(reg, s) && ch in s.heard
    ensures var x := s.heard[ch].tok.call;
            x in s.server.calls && s.server.calls[x].phase != V.Finished(false)
  {
    ReachableCancelInv(reg, s);
    R.KnowStreams(reg, s);
    R.HeardStream(s, ch);
  }
}
