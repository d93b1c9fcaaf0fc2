/**
 The server end of a connection: the calls it runs, the table of their cancel
 functions, and the streams it forwards (jsonrpc/websocket.go:187-246, 315-361;
 the paths of handle come from Handler, the stream goroutine from OutChans).
 */
module ServerConn {
  import opened Basics
  import opened Wire
  import opened Pipes
  import H = Handler
  import O = OutChans

  /** Where the goroutine that handles a call stands. */
  datatype Phase =
    | Executing
    | Registering(ch: nat, source: nat)   // in handleChanOut, offering the channel
    | Replied(keep: bool)                 // answered, done not yet called
    | Finished(keep: bool)

  datatype SrvCall = SrvCall(req: Request, phase: Phase)

  datatype Server = Server(
    calls: map<int, SrvCall>,
    handling: set<int>,       // keys of the cancel-function table
    cancelled: set<int>,      // calls whose context a cancel frame ended
    chanCtr: nat,
    outs: O.Outs,
    exiting: bool)

  const FRESH := Server(map[], {}, {}, 0, map[], false)

  datatype Event =
    | Incoming(m: Msg)                 // handleFrame
    | Return(call: int, env: H.Env)    // handle ran up to its reply or to handleChanOut
    | Register(call: int)              // the stream goroutine receives the registration
    | Refuse(call: int)                // handleChanOut sees the connection closing
    | CallDone(call: int)              // done
    | Forward(e: O.Event)              // the stream goroutine reads a value or a close
    | Exit                             // exiting closed; cancels every call

  const CLOSING := "connection closing"

  predicate Enabled(s: Server, e: Event) {
    match e
    case Incoming(_) => !s.exiting
    case Return(x, _) => x in s.calls && s.calls[x].phase.Executing?
    case Register(x) => !s.exiting && x in s.calls && s.calls[x].phase.Registering?
    case Refuse(x) => s.exiting && x in s.calls && s.calls[x].phase.Registering?
    case CallDone(x) => x in s.calls && s.calls[x].phase.Replied?
    case Forward(oe) => !s.exiting && !oe.Register? && O.Enabled(s.outs, oe)
    case Exit => !s.exiting
  }

  function SetPhase(s: Server, x: int, p: Phase): Server
    requires x in s.calls
  {
    s.(calls := s.calls[x := s.calls[x].(phase := p)])
  }

  function OnFrame(s: Server, m: Msg): Server {
    match m
    case Call(Some(x), name, params) =>
      s.(calls := s.calls[x := SrvCall(Request("2.0", Some(x), name, params, map[]), Executing)],
         handling := s.handling + {x})
    case Cancel(x) => if x in s.handling then s.(cancelled := s.cancelled + {x}) else s
    case _ => s
  }

  function Result(reg: H.Registry, s: Server, x: int, env: H.Env): H.Outcome
    requires x in s.calls
  {
    H.Process(reg, s.calls[x].req, env, true)
  }

  function RegistrationOf(s: Server, x: int): O.Event
    requires x in s.calls && s.calls[x].phase.Registering?
  {
    O.Register(s.calls[x].phase.ch, x, s.calls[x].phase.source)
  }

  function Apply(reg: H.Registry, s: Server, e: Event): Server
    requires Enabled(s, e)
  {
    match e
    case Incoming(m) => OnFrame(s, m)
    case Return(x, env) =>
      var o := Result(reg, s, x, env);
      if o.end.Register? then SetPhase(s.(chanCtr := s.chanCtr + 1), x, Registering(s.chanCtr + 1, o.end.source))
      else SetPhase(s, x, Replied(o.keep))
    case Register(x) =>
      var r := RegistrationOf(s, x);
      SetPhase(s.(outs := if O.Enabled(s.outs, r) then O.Apply(s.outs, r) else s.outs), x, Replied(true))
    case Refuse(x) => SetPhase(s, x, Replied(true))
    case CallDone(x) =>
      var keep := s.calls[x].phase.keep;
      SetPhase(s.(handling := if keep then s.handling else s.handling - {x}), x, Finished(keep))
    case Forward(oe) => s.(outs := O.Apply(s.outs, oe))
    case Exit => s.(exiting := true, handling := {})
  }

  function BodyOfResponse(r: Response): Body {
    if r.result.Some? then Value(r.result.value, r.error) else Empty(r.error)
  }

  /** What the event puts on writeChan. */
  function Output(reg: H.Registry, s: Server, e: Event): seq<Msg>
    requires Enabled(s, e)
  {
    match e
    case Return(x, env) =>
      var o := Result(reg, s, x, env);
      if o.end.Answer? then [Reply(o.end.resp.id, BodyOfResponse(o.end.resp))] else []
    case Register(x) => [O.Message(RegistrationOf(s, x))]
    case Refuse(x) => [Reply(x, Failure(RespError(1, CLOSING)))]
    case Forward(oe) => [O.Message(oe)]
    case _ => []
  }

  /** Calls of one connection have distinct ids. */
  predicate Fresh(s: Server, e: Event) {
    e.Incoming? && e.m.Call? && e.m.callId.Some? ==> e.m.callId.value !in s.calls
  }

  // ---- invariants ----

  /** The call was found with the right arity and its method returns a channel. */
  predicate Keeps(reg: H.Registry, req: Request) {
    H.RightArity(reg, req) && H.Streams(reg, req)
  }

  predicate Answered(p: Phase) {
    p.Replied? || p.Finished?
  }

  ghost predicate CallsSound(reg: H.Registry, calls: map<int, SrvCall>) {
    forall x :: x in calls ==>
      && calls[x].req.id == Some(x)
      && (Answered(calls[x].phase) ==> calls[x].phase.keep == Keeps(reg, calls[x].req))
      && (calls[x].phase.Registering? ==> Keeps(reg, calls[x].req))
  }

  /** The exact contents of the cancel-function table of a live connection. */
  ghost predicate HandlingExact(calls: map<int, SrvCall>, handling: set<int>) {
    forall x :: x in handling <==> x in calls && calls[x].phase != Finished(false)
  }

  /** Stream ids are handed out once. */
  ghost predicate ChansSound(calls: map<int, SrvCall>, ctr: nat, outs: O.Outs) {
    && (forall ch :: ch in outs ==> ch <= ctr)
    && (forall ch :: ch in outs ==> outs[ch].req in calls && Answered(calls[outs[ch].req].phase))
    && (forall x :: x in calls && calls[x].phase.Registering? ==>
          calls[x].phase.ch <= ctr && calls[x].phase.ch !in outs)
    && (forall x, y :: x in calls && calls[x].phase.Registering? && y in calls && calls[y].phase.Registering? ==>
          x == y || calls[x].phase.ch != calls[y].phase.ch)
  }

  ghost predicate Inv(reg: H.Registry, s: Server) {
    && CallsSound(reg, s.calls)
    && (!s.exiting ==> HandlingExact(s.calls, s.handling))
    && ChansSound(s.calls, s.chanCtr, s.outs)
  }

  /** How the paths of handle end for a call with an id. */
  lemma ResultSound(reg: H.Registry, req: Request, env: H.Env)
    requires req.id.Some?
    ensures var o := H.Process(reg, req, env, true);
            && o.keep == Keeps(reg, req)
            && !o.end.Silent?
            && (o.end.Register? ==> o.keep && o.end.id == req.id.value)
            && (o.end.Answer? ==>
                  && o.end.resp.id == req.id.value
                  && (o.end.resp.result.Some? ==> o.end.resp.error.None?)
                  && (o.end.resp.error.Some? ==> o.end.resp.error.value.code != 2)
                  && (o.keep ==> o.end.resp.error.Some?)
                  && (o.end.resp.error.None? ==> H.Found(reg, req) && !H.Streams(reg, req)))
  {
  }

  lemma ReturnKeepsCalls(reg: H.Registry, s: Server, x: int, env: H.Env)
    requires CallsSound(reg, s.calls) && Enabled(s, Return(x, env))
    ensures CallsSound(reg, Apply(reg, s, Return(x, env)).calls)
  {
    ResultSound(reg, s.calls[x].req, env);
  }

  lemma StepKeepsCalls(reg: H.Registry, s: Server, e: Event)
    requires CallsSound(reg, s.calls) && Enabled(s, e)
    ensures CallsSound(reg, Apply(reg, s, e).calls)
  {
    if e.Return? { ReturnKeepsCalls(reg, s, e.call, e.env); }
  }

  lemma StepKeepsHandling(reg: H.Registry, s: Server, e: Event)
    requires Inv(reg, s) && Enabled(s, e) && Fresh(s, e) && !Apply(reg, s, e).exiting
    ensures HandlingExact(Apply(reg, s, e).calls, Apply(reg, s, e).handling)
  {
  }

  lemma AllocateKeepsChans(calls: map<int, SrvCall>, ctr: nat, outs: O.Outs, x: int, source: nat)
    requires ChansSound(calls, ctr, outs) && x in calls && calls[x].phase.Executing?
    ensures ChansSound(calls[x := calls[x].(phase := Registering(ctr + 1, source))], ctr + 1, outs)
  {
  }

  lemma RegisterKeepsChans(calls: map<int, SrvCall>, ctr: nat, outs: O.Outs, x: int)
    requires ChansSound(calls, ctr, outs) && x in calls && calls[x].phase.Registering?
    ensures ChansSound(calls[x := calls[x].(phase := Replied(true))], ctr,
                       outs[calls[x].phase.ch := O.Out(x, calls[x].phase.source, [], true)])
  {
  }

  /** A phase change that takes no stream id and un-answers nothing. */
  lemma PhaseKeepsChans(calls: map<int, SrvCall>, ctr: nat, outs: O.Outs, x: int, c: SrvCall)
    requires ChansSound(calls, ctr, outs) && !c.phase.Registering?
    requires Answered(c.phase) || x !in calls || !Answered(calls[x].phase)
    ensures ChansSound(calls[x := c], ctr, outs)
  {
  }

  lemma StepKeepsChans(reg: H.Registry, s: Server, e: Event)
    requires ChansSound(s.calls, s.chanCtr, s.outs) && Enabled(s, e) && Fresh(s, e)
    ensures ChansSound(Apply(reg, s, e).calls, Apply(reg, s, e).chanCtr, Apply(reg, s, e).outs)
  {
    if e.Return? {
      ReturnKeepsChans(reg, s, e);
    } else if e.Register? {
      RegisterKeepsChans(s.calls, s.chanCtr, s.outs, e.call);
    } else {
      var t := Apply(reg, s, e);
      if e.Refuse? || e.CallDone? {
        PhaseKeepsChans(s.calls, s.chanCtr, s.outs, e.call, t.calls[e.call]);
      } else if e.Incoming? && e.m.Call? && e.m.callId.Some? {
        PhaseKeepsChans(s.calls, s.chanCtr, s.outs, e.m.callId.value, t.calls[e.m.callId.value]);
      }
    }
  }

  lemma ReturnKeepsChans(reg: H.Registry, s: Server, e: Event)
    requires ChansSound(s.calls, s.chanCtr, s.outs) && e.Return? && Enabled(s, e)
    ensures ChansSound(Apply(reg, s, e).calls, Apply(reg, s, e).chanCtr, Apply(reg, s, e).outs)
  {
    var o := Result(reg, s, e.call, e.env);
    if o.end.Register? { AllocateKeepsChans(s.calls, s.chanCtr, s.outs, e.call, o.end.source); }
    else { PhaseKeepsChans(s.calls, s.chanCtr, s.outs, e.call, Apply(reg, s, e).calls[e.call]); }
  }

  lemma StepKeepsInv(reg: H.Registry, s: Server, e: Event)
    requires Inv(reg, s) && Enabled(s, e) && Fresh(s, e)
    ensures Inv(reg, Apply(reg, s, e))
  {
    StepKeepsCalls(reg, s, e);
    if !Apply(reg, s, e).exiting { StepKeepsHandling(reg, s, e); }
    StepKeepsChans(reg, s, e);
  }

  /** What an event puts on the wire is what it adds to the histories of its streams. */
  lemma OutputIsHistory(reg: H.Registry, s: Server, e: Event, ch: nat)
    requires Inv(reg, s) && Enabled(s, e)
    ensures O.History(Apply(reg, s, e).outs, ch)
         == O.History(s.outs, ch) + Pick(Output(reg, s, e), Stream(ch))
  {
    match e
    case Register(x) => O.Emits(s.outs, RegistrationOf(s, x), ch);
    case Forward(oe) => O.Emits(s.outs, oe, ch);
    case Return(x, env) =>
      if Output(reg, s, e) != [] { O.PickOne(Output(reg, s, e)[0], Stream(ch)); }
    case Refuse(x) => O.PickOne(Output(reg, s, e)[0], Stream(ch));
    case _ =>
  }

  predicate HasReplied(s: Server, x: int) {
    x in s.calls && Answered(s.calls[x].phase)
  }

  /** An event answers a call exactly when it marks it answered. */
  lemma OutputIsReply(reg: H.Registry, s: Server, e: Event, x: int)
    requires Inv(reg, s) && Enabled(s, e) && Fresh(s, e)
    ensures Bit(HasReplied(Apply(reg, s, e), x))
         == Bit(HasReplied(s, x)) + |Pick(Output(reg, s, e), Replies(x))|
  {
    if Output(reg, s, e) != [] { O.PickOne(Output(reg, s, e)[0], Replies(x)); }
    if e.Return? { ResultSound(reg, s.calls[e.call].req, e.env); }
  }

  // ---- whole runs against an arbitrary client ----

  function Step(reg: H.Registry, s: Server, e: Event): (Server, seq<Msg>) {
    if Enabled(s, e) then (Apply(reg, s, e), Output(reg, s, e)) else (s, [])
  }

  /** The state after a run, and everything it put on writeChan. */
  function Run(reg: H.Registry, s: Server, es: seq<Event>): (Server, seq<Msg>)
    decreases |es|
  {
    if es == [] then (s, [])
    else
      var (t, out) := Step(reg, s, es[0]);
      var (u, rest) := Run(reg, t, es[1..]);
      (u, out + rest)
  }

  predicate AllFresh(reg: H.Registry, s: Server, es: seq<Event>)
    decreases |es|
  {
    es == [] || (Fresh(s, es[0]) && AllFresh(reg, Step(reg, s, es[0]).0, es[1..]))
  }

  /**
   For every run of a live connection with distinct call ids: each call is answered once,
   when it is marked answered, and never again; the frames of each stream leave as one
   registration response, then its values in order, then at most one close and nothing
   after it; the cancel-function table holds exactly the calls still running and the
   finished calls that were found with the right arity and return a channel.
   */
  lemma {:induction false} AnyClient(reg: H.Registry, s: Server, es: seq<Event>)
    requires Inv(reg, s) && AllFresh(reg, s, es)
    ensures var (t, out) := Run(reg, s, es);
            && Inv(reg, t)
            && (forall x :: Bit(HasReplied(t, x)) == Bit(HasReplied(s, x)) + |Pick(out, Replies(x))|)
            && (forall ch :: O.History(t.outs, ch) == O.History(s.outs, ch) + Pick(out, Stream(ch)))
            && (!t.exiting ==> forall x :: x in t.handling <==>
                  x in t.calls && (!t.calls[x].phase.Finished? || Keeps(reg, t.calls[x].req)))
    decreases |es|
  {
    if es != [] {
      var (t, out) := Step(reg, s, es[0]);
      if Enabled(s, es[0]) { StepKeepsInv(reg, s, es[0]); }
      var (u, rest) := Run(reg, t, es[1..]);
      AnyClient(reg, t, es[1..]);
      forall x ensures Bit(HasReplied(u, x)) == Bit(HasReplied(s, x)) + |Pick(out + rest, Replies(x))| {
        PickConcat(out, rest, Replies(x));
        if Enabled(s, es[0]) { OutputIsReply(reg, s, es[0], x); }
      }
      forall ch ensures O.History(u.outs, ch) == O.History(s.outs, ch) + Pick(out + rest, Stream(ch)) {
        PickConcat(out, rest, Stream(ch));
        if Enabled(s, es[0]) { OutputIsHistory(reg, s, es[0], ch); }
        Assoc(O.History(s.outs, ch), Pick(out, Stream(ch)), Pick(rest, Stream(ch)));
      }
    }
  }

  /**
   Once the connection's exiting is closed, no call is in the table, no stream is opened,
   forwarded or closed any more, and no frame is handled.
   */
  lemma {:induction false} AfterExit(reg: H.Registry, s: Server, es: seq<Event>)
    requires s.exiting && s.handling == {}
    ensures var (t, out) := Run(reg, s, es);
            && t.exiting && t.handling == {} && t.outs == s.outs && t.calls.Keys == s.calls.Keys
            && forall ch :: Pick(out, Stream(ch)) == []
    decreases |es|
  {
    if es != [] {
      var (t, out) := Step(reg, s, es[0]);
      StepAfterExit(reg, s, es[0]);
      var (u, rest) := Run(reg, t, es[1..]);
      AfterExit(reg, t, es[1..]);
      forall ch ensures Pick(out + rest, Stream(ch)) == [] { PickConcat(out, rest, Stream(ch)); }
    }
  }

  lemma StepAfterExit(reg: H.Registry, s: Server, e: Event)
    requires s.exiting && s.handling == {}
    ensures var (t, out) := Step(reg, s, e);
            && t.exiting && t.handling == {} && t.outs == s.outs && t.calls.Keys == s.calls.Keys
            && forall ch :: Pick(out, Stream(ch)) == []
  {
    if Enabled(s, e) && Output(reg, s, e) != [] {
      forall ch ensures Pick(Output(reg, s, e), Stream(ch)) == [] { O.PickOne(Output(reg, s, e)[0], Stream(ch)); }
    }
  }

  lemma ExitLeads(reg: H.Registry, s: Server)
    requires Enabled(s, Exit)
    ensures var t := Apply(reg, s, Exit); t.exiting && t.handling == {} && t.calls == s.calls && t.outs == s.outs
  {
  }

  // ---- the code ----

  lemma KeptByFrame(s: Server, m: Msg)
    ensures forall reg :: Inv(reg, s) && !s.exiting && Fresh(s, Incoming(m)) ==> Inv(reg, OnFrame(s, m))
  {
    forall reg | Inv(reg, s) && !s.exiting && Fresh(s, Incoming(m)) ensures Inv(reg, OnFrame(s, m)) {
      StepKeepsInv(reg, s, Incoming(m));
    }
  }

  class Serving {
    var calls: map<int, SrvCall>
    var handling: set<int>
    var cancelled: set<int>
    var chanCtr: nat
    var outs: O.Outs
    var exiting: bool

    ghost function View(): Server
      reads this
    {
      Server(calls, handling, cancelled, chanCtr, outs, exiting)
    }

    constructor ()
      ensures View() == FRESH
    {
      calls, handling, cancelled, chanCtr, outs, exiting := map[], {}, {}, 0, map[], false;
    }

    /**
     Every call gets a handler for its request; only a call with an id gets into the table.
     The handler of a notification is not followed further: it writes nothing.
     */
    method HandleCall(id: Option<int>, name: string, params: seq<Raw>) returns (handled: Request)
      modifies this`calls, this`handling
      ensures handled == Request("2.0", id, name, params, map[])
      ensures View() == OnFrame(old(View()), Call(id, name, params))
      ensures id.Some? ==> id.value in handling && calls[id.value] == SrvCall(handled, Executing)
      ensures forall reg :: old(Inv(reg, View()) && !exiting && Fresh(View(), Incoming(Call(id, name, params)))) ==> Inv(reg, View())
    {
      KeptByFrame(View(), Call(id, name, params));
      handled := Request("2.0", id, name, params, map[]);
      if id.Some? {
        handling := handling + {id.value};
        calls := calls[id.value := SrvCall(handled, Executing)];
      }
    }

    method CancelCtx(id: int)
      modifies this`cancelled
      ensures View() == OnFrame(old(View()), Cancel(id))
      ensures forall reg :: old(Inv(reg, View()) && !exiting) ==> Inv(reg, View())
    {
      KeptByFrame(View(), Cancel(id));
      if id in handling { cancelled := cancelled + {id}; }
    }

    method HandleFrame(m: Msg)
      requires Enabled(View(), Incoming(m))
      modifies this
      ensures View() == OnFrame(old(View()), m)
      ensures forall reg :: old(Inv(reg, View()) && Fresh(View(), Incoming(m))) ==> Inv(reg, View())
    {
      KeptByFrame(View(), m);
      match m {
        case Call(id, name, params) => var _ := HandleCall(id, name, params);
        case Cancel(id) => CancelCtx(id);
        case _ =>
      }
    }

    /** The done callback of a call with an id. */
    method Done(reg: H.Registry, id: int)
      requires Enabled(View(), CallDone(id))
      modifies this`calls, this`handling
      ensures View() == Apply(reg, old(View()), CallDone(id))
      ensures old(Inv(reg, View())) ==> Inv(reg, View())
    {
      if Inv(reg, View()) { StepKeepsInv(reg, View(), CallDone(id)); }
      var keep := calls[id].phase.keep;
      if !keep { handling := handling - {id}; }
      calls := calls[id := calls[id].(phase := Finished(keep))];
    }

    /** Allocates the next stream id and offers the channel for registration. */
    method HandleChanOut(source: nat, id: int) returns (ch: nat)
      requires id in calls
      modifies this`calls, this`chanCtr
      ensures ch == old(chanCtr) + 1
      ensures View() == SetPhase(old(View()).(chanCtr := ch), id, Registering(ch, source))
      ensures old(ChansSound(calls, chanCtr, outs) && calls[id].phase.Executing?) ==>
        ch !in outs && ChansSound(calls, chanCtr, outs)
    {
      if ChansSound(calls, chanCtr, outs) && calls[id].phase.Executing? {
        AllocateKeepsChans(calls, chanCtr, outs, id, source);
      }
      chanCtr := chanCtr + 1;
      ch := chanCtr;
      calls := calls[id := calls[id].(phase := Registering(ch, source))];
    }
  }
}
