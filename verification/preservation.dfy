/** Each step of the two-endpoint system keeps each part of the invariant. */
module Preservation {
  import opened Basics
  import opened Wire
  import opened Pipes
  import opened Engine
  import opened Invariants
  import H = Handler
  import C = ClientConn
  import V = ServerConn

  /** An attempt the loop takes is new, and no other attempt of its call is in flight. */
  lemma TakeIsFresh(s: State, x: int)
    requires CallersInv(s) && InPhase(s, x, Sending)
    ensures C.Fresh(s.client, C.Take(C.Attempt(TokOf(s, x), s.calls[x].stream)))
    ensures x !in s.taken
  {
  }

  /** The client's part of a step, if it has one. */
  lemma ClientKept(reg: H.Registry, s: State, e: Step)
    requires C.Inv(s.client) && Enabled(reg, s, e)
    requires e.TakeCall? ==> C.Fresh(s.client, C.Take(C.Attempt(TokOf(s, e.x), s.calls[e.x].stream)))
    ensures C.Inv(Apply(reg, s, e).client)
  {
    match e
    case Expire(x) => C.StepKeepsInv(s.client, C.Expire(x));
    case TakeCall(x) => C.StepKeepsInv(s.client, C.Take(C.Attempt(TokOf(s, x), s.calls[x].stream)));
    case ClientHandle => C.StepKeepsInv(s.client, C.Incoming(s.down.frames[0]));
    case FinishPush => C.StepKeepsInv(s.client, C.FinishPush);
    case AbandonPush => C.StepKeepsInv(s.client, C.AbandonPush);
    case SinkTurn(tok, turn) => C.StepKeepsInv(s.client, C.SinkTurn(tok, turn));
    case WatcherFires(tok) => C.StepKeepsInv(s.client, C.WatcherFires(tok));
    case Lose => C.StepKeepsInv(s.client, C.Teardown);
    case _ =>
  }

  /** A call that reaches the server is new to it. */
  lemma CallArrives(reg: H.Registry, s: State)
    requires Inv(reg, s) && s.up.frames != []
    ensures V.Fresh(s.server, V.Incoming(s.up.frames[0]))
    ensures forall x :: s.up.frames[0].Call? && s.up.frames[0].callId == Some(x) ==>
              x in s.taken && InTransit(Pop(s.up), Calls(x)) == []
  {
    var m := s.up.frames[0];
    if m.Call? && m.callId.Some? {
      var x := m.callId.value;
      OldestFirst(s.up, Calls(x));
      assert |InTransit(s.up, Calls(x))| + Bit(x in s.server.calls.Keys) == Bit(x in s.taken);
    }
  }

  lemma ServerKept(reg: H.Registry, s: State, e: Step)
    requires V.Inv(reg, s.server) && Enabled(reg, s, e)
    requires e.ServerHandle? ==> V.Fresh(s.server, V.Incoming(s.up.frames[0]))
    ensures V.Inv(reg, Apply(reg, s, e).server)
  {
    if e.ServerHandle? { V.StepKeepsInv(reg, s.server, V.Incoming(s.up.frames[0])); }
    else if e.ServerAct? { V.StepKeepsInv(reg, s.server, e.e); }
  }

  // ---- callers ----

  /** Nothing the callers depend on changes, except that more contexts may be done. */
  predicate SameCallers(s: State, t: State) {
    && t.calls == s.calls && t.idCtr == s.idCtr
    && t.client.inflight == s.client.inflight && t.client.ready == s.client.ready
    && t.taken == s.taken && t.answered == s.answered && t.before == s.before
    && s.client.ctxDone <= t.client.ctxDone
  }

  lemma FrameCallers(s: State, t: State)
    requires CallersInv(s) && SameCallers(s, t)
    ensures CallersInv(t)
  {
  }

  lemma IssueSent(calls: Calls, inflight: map<int, C.Attempt>, ready: Ready, x: int, c: ClientCall)
    requires InflightCurrent(calls, inflight) && SentAttempts(calls, ready) && x !in calls
    ensures InflightCurrent(calls[x := c], inflight) && SentAttempts(calls[x := c], ready)
  {
  }

  lemma IssuePhases(calls: Calls, ready: Ready, answered: set<int>, x: int, c: ClientCall)
    requires PhasesJustified(calls, ready) && EarlierLost(calls, ready) && AnsweredCurrent(calls, ready, answered)
    requires x !in calls && c.phase == Sending && c.nth == 0
    ensures PhasesJustified(calls[x := c], ready) && EarlierLost(calls[x := c], ready)
    ensures AnsweredCurrent(calls[x := c], ready, answered)
  {
  }

  lemma IssueCallers(s: State, c: ClientCall)
    requires CallersInv(s) && c.phase == Sending && c.nth == 0 && !c.offering
    ensures CallersInv(WithCall(s.(idCtr := s.idCtr + 1), s.idCtr + 1, c))
  {
    assert s.idCtr + 1 !in s.calls;
    IssueSent(s.calls, s.client.inflight, s.client.ready, s.idCtr + 1, c);
    IssuePhases(s.calls, s.client.ready, s.answered, s.idCtr + 1, c);
  }

  /** Marks of the cancel request do not matter to the attempts. */
  lemma MarkCallers(s: State, x: int, sawDone: bool, offering: bool)
    requires CallersInv(s) && x in s.calls && (offering ==> x in s.client.ctxDone)
    ensures CallersInv(WithCall(s, x, s.calls[x].(sawDone := sawDone, offering := offering)))
  {
    var t := WithCall(s, x, s.calls[x].(sawDone := sawDone, offering := offering));
    assert InflightCurrent(t.calls, t.client.inflight);
    assert SentAttempts(t.calls, t.client.ready);
    assert PhasesJustified(t.calls, t.client.ready);
    assert EarlierLost(t.calls, t.client.ready);
  }

  /** Only the phase of one call changes, and it stays sent. */
  lemma PhaseSent(calls: Calls, inflight: map<int, C.Attempt>, ready: Ready, x: int, p: CallPhase)
    requires InflightCurrent(calls, inflight) && SentAttempts(calls, ready) && EarlierLost(calls, ready)
    requires x in calls && x !in inflight && !p.Sending?
    ensures InflightCurrent(calls[x := calls[x].(phase := p)], inflight)
    ensures SentAttempts(calls[x := calls[x].(phase := p)], ready)
    ensures EarlierLost(calls[x := calls[x].(phase := p)], ready)
  {
  }

  lemma CollectPhases(calls: Calls, ready: Ready, x: int)
    requires PhasesJustified(calls, ready) && x in calls
    requires Current(calls, x) in ready && |ready[Current(calls, x)]| == 1 && ready[Current(calls, x)][0].id == x
    ensures PhasesJustified(calls[x := calls[x].(phase := AfterResponse(calls[x], x, ready[Current(calls, x)][0]))], ready)
  {
  }

  lemma CollectCallers(s: State, x: int)
    requires CallersInv(s) && C.Conserved(s.client.inflight, s.client.ready)
    requires InPhase(s, x, Waiting) && TokOf(s, x) in s.client.ready && s.client.ready[TokOf(s, x)] != []
    ensures CallersInv(WithCall(s, x, s.calls[x].(phase := AfterResponse(s.calls[x], x, s.client.ready[TokOf(s, x)][0]))))
  {
    var p := AfterResponse(s.calls[x], x, s.client.ready[TokOf(s, x)][0]);
    assert !C.Pending(s.client.inflight, TokOf(s, x)) && x !in s.client.inflight;
    PhaseSent(s.calls, s.client.inflight, s.client.ready, x, p);
    CollectPhases(s.calls, s.client.ready, x);
    PhaseAnswered(s.calls, s.client.ready, s.answered, x, p);
    assert WithCall(s, x, s.calls[x].(phase := p)).calls == s.calls[x := s.calls[x].(phase := p)];
  }

  lemma PhaseAnswered(calls: Calls, ready: Ready, answered: set<int>, x: int, p: CallPhase)
    requires AnsweredCurrent(calls, ready, answered) && x in calls
    ensures AnsweredCurrent(calls[x := calls[x].(phase := p)], ready, answered)
  {
  }

  lemma ResendSent(calls: Calls, inflight: map<int, C.Attempt>, ready: Ready, x: int, c: ClientCall)
    requires InflightCurrent(calls, inflight) && SentAttempts(calls, ready) && PhasesJustified(calls, ready)
    requires x in calls && calls[x].phase.Backoff?
    requires c == calls[x].(phase := Sending, nth := calls[x].nth + 1, sawDone := false)
    ensures InflightCurrent(calls[x := c], inflight) && SentAttempts(calls[x := c], ready)
  {
  }

  lemma ResendPhases(calls: Calls, ready: Ready, x: int, c: ClientCall)
    requires PhasesJustified(calls, ready) && EarlierLost(calls, ready)
    requires x in calls && calls[x].phase.Backoff?
    requires c == calls[x].(phase := Sending, nth := calls[x].nth + 1, sawDone := false)
    ensures PhasesJustified(calls[x := c], ready) && EarlierLost(calls[x := c], ready)
  {
    forall y, n: nat | y in calls[x := c] && n < calls[x := c][y].nth ensures GotLost(ready, C.Tok(y, n)) {
      if y == x && n == calls[x].nth { assert C.Tok(y, n) == Current(calls, x); }
    }
  }

  lemma ResendCallers(s: State, x: int)
    requires CallersInv(s) && InPhase(s, x, Backoff)
    ensures CallersInv(WithCall(s, x, s.calls[x].(phase := Sending, nth := s.calls[x].nth + 1, sawDone := false)))
  {
    var c := s.calls[x].(phase := Sending, nth := s.calls[x].nth + 1, sawDone := false);
    assert GotLost(s.client.ready, Current(s.calls, x)) && x !in s.answered;
    ResendSent(s.calls, s.client.inflight, s.client.ready, x, c);
    ResendPhases(s.calls, s.client.ready, x, c);
  }

  lemma GiveUpCallers(s: State, x: int)
    requires CallersInv(s) && InPhase(s, x, Sending)
    ensures CallersInv(WithCall(s, x, s.calls[x].(phase := Failed)))
  {
    var t := WithCall(s, x, s.calls[x].(phase := Failed));
    assert InflightCurrent(t.calls, t.client.inflight);
    assert SentAttempts(t.calls, t.client.ready);
    assert PhasesJustified(t.calls, t.client.ready);
    assert EarlierLost(t.calls, t.client.ready);
  }

  lemma TakeSent(calls: Calls, inflight: map<int, C.Attempt>, ready: Ready, x: int)
    requires InflightCurrent(calls, inflight) && SentAttempts(calls, ready)
    requires x in calls && calls[x].phase.Sending?
    ensures InflightCurrent(calls[x := calls[x].(phase := Waiting)],
                            inflight[x := C.Attempt(Current(calls, x), calls[x].stream)])
    ensures SentAttempts(calls[x := calls[x].(phase := Waiting)], ready[Current(calls, x) := []])
  {
  }

  lemma TakePhases(calls: Calls, ready: Ready, x: int)
    requires PhasesJustified(calls, ready) && EarlierLost(calls, ready)
    requires x in calls && calls[x].phase.Sending? && Current(calls, x) !in ready
    ensures PhasesJustified(calls[x := calls[x].(phase := Waiting)], ready[Current(calls, x) := []])
    ensures EarlierLost(calls[x := calls[x].(phase := Waiting)], ready[Current(calls, x) := []])
  {
    forall y, n: nat | y in calls && n < calls[y].nth
      ensures GotLost(ready[Current(calls, x) := []], C.Tok(y, n))
    {
      assert GotLost(ready, C.Tok(y, n));
    }
  }

  lemma TakeCallers(s: State, x: int, t: State)
    requires CallersInv(s) && InPhase(s, x, Sending)
    requires t.calls == s.calls[x := s.calls[x].(phase := Waiting)] && t.idCtr == s.idCtr
    requires t.client.inflight == s.client.inflight[x := C.Attempt(TokOf(s, x), s.calls[x].stream)]
    requires t.client.ready == s.client.ready[TokOf(s, x) := []]
    requires t.taken == s.taken + {x} && t.answered == s.answered && t.before == s.before
    requires t.client.ctxDone == s.client.ctxDone
    ensures CallersInv(t)
  {
    TakeIsFresh(s, x);
    TakeSent(s.calls, s.client.inflight, s.client.ready, x);
    TakePhases(s.calls, s.client.ready, x);
    assert AnsweredCurrent(t.calls, t.client.ready, t.answered);
  }

  lemma SettleSent(calls: Calls, inflight: map<int, C.Attempt>, ready: Ready, x: int, body: Body)
    requires InflightCurrent(calls, inflight) && SentAttempts(calls, ready) && x in inflight
    requires Current(calls, x) in ready && ready[Current(calls, x)] == []
    ensures InflightCurrent(calls, inflight - {x})
    ensures SentAttempts(calls, ready[Current(calls, x) := [C.Answer(x, body)]])
  {
  }

  lemma SettlePhases(calls: Calls, ready: Ready, answered: set<int>, x: int, body: Body)
    requires PhasesJustified(calls, ready) && EarlierLost(calls, ready) && AnsweredCurrent(calls, ready, answered)
    requires x in calls && calls[x].phase.Waiting? && Current(calls, x) in ready && ready[Current(calls, x)] == []
    requires !Lost(body)
    ensures var ready' := ready[Current(calls, x) := [C.Answer(x, body)]];
            PhasesJustified(calls, ready') && EarlierLost(calls, ready') && AnsweredCurrent(calls, ready', answered + {x})
  {
    forall y, n: nat | y in calls && n < calls[y].nth
      ensures GotLost(ready[Current(calls, x) := [C.Answer(x, body)]], C.Tok(y, n))
    {
      assert GotLost(ready, C.Tok(y, n));
    }
  }

  /** A server's answer settles the current attempt of its call. */
  lemma SettleCallers(s: State, x: int, body: Body, t: State)
    requires CallersInv(s) && C.Conserved(s.client.inflight, s.client.ready)
    requires x in s.client.inflight && !Lost(body)
    requires t.calls == s.calls && t.idCtr == s.idCtr && t.taken == s.taken && t.before == s.before
    requires t.client.inflight == s.client.inflight - {x}
    requires t.client.ready == s.client.ready[s.client.inflight[x].tok := [C.Answer(x, body)]]
    requires t.answered == s.answered + {x} && t.client.ctxDone == s.client.ctxDone
    ensures CallersInv(t)
  {
    assert s.client.inflight[x].tok == Current(s.calls, x);
    assert C.Pending(s.client.inflight, Current(s.calls, x));
    SettleSent(s.calls, s.client.inflight, s.client.ready, x, body);
    SettlePhases(s.calls, s.client.ready, s.answered, x, body);
    assert x in s.taken && x !in s.before;
  }

  lemma LoseCallers(s: State, t: State)
    requires CallersInv(s) && C.Conserved(s.client.inflight, s.client.ready)
    requires t.calls == s.calls && t.idCtr == s.idCtr && t.client.ctxDone == s.client.ctxDone
    requires t.client.inflight == map[] && t.client.ready == C.AnsweredExcept(s.client, {})
    requires t.taken == {} && t.answered == s.answered && t.before == s.answered
    ensures CallersInv(t)
  {
    forall tok | tok in t.client.ready
      ensures t.client.ready[tok] == if C.Pending(s.client.inflight, tok)
                                     then [C.Answer(tok.call, C.CONNECTION_LOST)] else s.client.ready[tok]
    { }
    assert SentAttempts(t.calls, t.client.ready);
    assert PhasesJustified(t.calls, t.client.ready);
    assert EarlierLost(t.calls, t.client.ready);
    assert AnsweredCurrent(t.calls, t.client.ready, t.answered);
  }

  /** The frame at hand, when it is a response, is one the client can use. */
  predicate Usable(s: State, m: Msg) {
    m.Reply? ==>
      && m.id in s.client.inflight
      && !Lost(m.body) && (s.client.inflight[m.id].stream ==> !m.body.Value?)
  }

  lemma HandleEffect(reg: H.Registry, s: State, t: State)
    requires Enabled(reg, s, ClientHandle) && t == Apply(reg, s, ClientHandle)
    requires C.Conserved(s.client.inflight, s.client.ready) && Usable(s, s.down.frames[0])
    ensures var m := s.down.frames[0];
            && t.calls == s.calls && t.idCtr == s.idCtr && t.taken == s.taken && t.before == s.before
            && t.client.ctxDone == s.client.ctxDone
            && (!m.Reply? ==> SameCallers(s, t))
            && (m.Reply? ==>
                  && t.client.inflight == s.client.inflight - {m.id}
                  && t.client.ready == s.client.ready[s.client.inflight[m.id].tok := [C.Answer(m.id, m.body)]]
                  && t.answered == s.answered + {m.id})
  {
    var m := s.down.frames[0];
    if m.Reply? { assert C.Pending(s.client.inflight, s.client.inflight[m.id].tok); }
  }

  lemma HandleCallers(reg: H.Registry, s: State, t: State)
    requires CallersInv(s) && C.Conserved(s.client.inflight, s.client.ready)
    requires Enabled(reg, s, ClientHandle) && t == Apply(reg, s, ClientHandle) && Usable(s, s.down.frames[0])
    ensures CallersInv(t)
  {
    HandleEffect(reg, s, t);
    var m := s.down.frames[0];
    if m.Reply? { SettleCallers(s, m.id, m.body, t); } else { FrameCallers(s, t); }
  }

  predicate QuietForCallers(e: Step) {
    !(e.Issue? || e.SeeDone? || e.DropCancel? || e.Collect? || e.Resend? || e.GiveUp?
      || e.TakeCall? || e.TakeCancel? || e.ClientHandle? || e.Lose?)
  }

  /** Steps that touch the client, but none of what callers depend on. */
  predicate ForStreams(e: Step) {
    e.Expire? || e.FinishPush? || e.AbandonPush? || e.SinkTurn? || e.WatcherFires?
  }

  lemma StreamSteps(reg: H.Registry, s: State, e: Step)
    requires Enabled(reg, s, e) && ForStreams(e)
    ensures SameCallers(s, Apply(reg, s, e))
  {
  }

  lemma QuietSteps(reg: H.Registry, s: State, e: Step)
    requires Enabled(reg, s, e) && QuietForCallers(e)
    ensures SameCallers(s, Apply(reg, s, e))
  {
    if ForStreams(e) { StreamSteps(reg, s, e); }
  }

  lemma IssueSteps(reg: H.Registry, s: State, e: Step, t: State)
    requires CallersInv(s) && Enabled(reg, s, e) && t == Apply(reg, s, e) && e.Issue?
    ensures CallersInv(t)
  {
    IssueCallers(s, ClientCall(e.name, e.params, e.stream, e.retry, 0, Sending, false, false));
  }

  lemma MarkSteps(reg: H.Registry, s: State, e: Step, t: State)
    requires CallersInv(s) && Enabled(reg, s, e) && t == Apply(reg, s, e)
    requires e.SeeDone? || e.DropCancel?
    ensures CallersInv(t)
  {
    if e.SeeDone? { MarkCallers(s, e.x, true, true); }
    else { MarkCallers(s, e.x, s.calls[e.x].sawDone, false); }
  }

  lemma CollectSteps(reg: H.Registry, s: State, x: int, t: State)
    requires CallersInv(s) && C.Conserved(s.client.inflight, s.client.ready)
    requires Enabled(reg, s, Collect(x)) && t == Apply(reg, s, Collect(x))
    ensures CallersInv(t)
  {
    CollectCallers(s, x);
  }

  lemma ResendSteps(reg: H.Registry, s: State, e: Step, t: State)
    requires CallersInv(s) && Enabled(reg, s, e) && t == Apply(reg, s, e)
    requires e.Resend? || e.GiveUp?
    ensures CallersInv(t)
  {
    if e.Resend? { ResendCallers(s, e.x); } else { GiveUpCallers(s, e.x); }
  }

  lemma LoopSteps(reg: H.Registry, s: State, e: Step, t: State)
    requires CallersInv(s) && C.Conserved(s.client.inflight, s.client.ready)
    requires Enabled(reg, s, e) && t == Apply(reg, s, e)
    requires e.TakeCall? || e.TakeCancel? || e.Lose?
    ensures CallersInv(t)
  {
    match e
    case TakeCall(x) => TakeCallers(s, x, t);
    case TakeCancel(x) =>
      MarkCallers(s, x, s.calls[x].sawDone, false);
      FrameCallers(WithCall(s, x, s.calls[x].(offering := false)), t);
    case Lose => LoseCallers(s, t);
  }

  lemma CallersKept(reg: H.Registry, s: State, e: Step, t: State)
    requires CallersInv(s) && C.Conserved(s.client.inflight, s.client.ready)
    requires Enabled(reg, s, e) && t == Apply(reg, s, e)
    requires e.ClientHandle? ==> Usable(s, s.down.frames[0])
    ensures CallersInv(t)
  {
    if QuietForCallers(e) {
      QuietSteps(reg, s, e);
      FrameCallers(s, t);
    } else if e.ClientHandle? {
      HandleCallers(reg, s, t);
    } else if e.TakeCall? || e.TakeCancel? || e.Lose? {
      LoopSteps(reg, s, e, t);
    } else if e.Collect? {
      CollectSteps(reg, s, e.x, t);
    } else if e.Resend? || e.GiveUp? {
      ResendSteps(reg, s, e, t);
    } else if e.Issue? {
      IssueSteps(reg, s, e, t);
    } else {
      MarkSteps(reg, s, e, t);
    }
  }
}
