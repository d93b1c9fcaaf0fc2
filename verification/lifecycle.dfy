/**
 Connecting, failing, redialling and stopping (handleWsConn's exitfun, its two loops,
 the redial goroutine and the closer; jsonrpc/websocket.go:432-456, 472-550,
 jsonrpc/client.go:205-207, 262-285). Every connection keeps its own goroutines, so an
 old reader or writer may still run beside a newer connection.
 */
module Lifecycle {
  import opened Basics

  /** One run of handleWsConn. */
  datatype Conn = Conn(
    writer: bool,        // the select loop still runs
    reader: bool,        // the reading loop still runs
    retry: bool,         // bretry
    exitRuns: nat)       // how often exitfun ran for this connection

  datatype State = State(
    isClient: bool,
    noReConnect: bool,
    conns: seq<Conn>,    // every connection so far, oldest first
    testing: nat,        // redial goroutines about to test isStoped
    dialling: nat,       // redial goroutines past the test, sleeping and dialling
    ctxDone: bool,       // the context handleWsConn was given is done
    stopClosed: bool,
    isStoped: bool,
    exitingClosed: nat,  // how often exiting was closed
    redials: nat,        // connection attempts after the first connection
    lateDials: nat)      // those made after exiting was closed

  datatype Step =
    | WriteFails(i: nat)                  // the select loop fails to write
    | SeesStop(i: nat)                    // the select loop sees stop closed
    | WriterLeaves(i: nat)                // sees exitCh closed, or its context done
    | ReadFails(i: nat, normal: bool)     // the reading loop fails, on a normal close or not
    | ReaderLeaves(i: nat)                // sees exitCh closed, or its context done
    | TestsStopped                        // the redial goroutine tests isStoped
    | DialFails
    | DialSucceeds
    | ContextDone
    | CloseStop                           // the closer closes stop
    | SetStopped                          // and then sets isStoped

  function Start(isClient: bool, noReConnect: bool): State {
    State(isClient, noReConnect, [NewConn(noReConnect)], 0, 0, false, false, false, 0, 0, 0)
  }

  function NewConn(noReConnect: bool): Conn {
    Conn(true, true, !noReConnect, 0)
  }

  predicate Enabled(s: State, e: Step) {
    match e
    case WriteFails(i) => i < |s.conns| && s.conns[i].writer
    case SeesStop(i) => i < |s.conns| && s.conns[i].writer && s.stopClosed
    case WriterLeaves(i) => i < |s.conns| && s.conns[i].writer && (s.conns[i].exitRuns > 0 || s.ctxDone)
    case ReadFails(i, _) => i < |s.conns| && s.conns[i].reader
    case ReaderLeaves(i) => i < |s.conns| && s.conns[i].reader && (s.conns[i].exitRuns > 0 || s.ctxDone)
    case TestsStopped => s.testing > 0
    case DialFails => s.dialling > 0
    case DialSucceeds => s.dialling > 0
    case ContextDone => true
    case CloseStop => !s.stopClosed
    case SetStopped => s.stopClosed
  }

  function WithConn(s: State, i: nat, c: Conn): State
    requires i < |s.conns|
  {
    s.(conns := s.conns[i := c])
  }

  /** once.Do(exitfun): the first time, hand over to a redial goroutine or close exiting. */
  function OnceExit(s: State, i: nat): State
    requires i < |s.conns|
  {
    if s.conns[i].exitRuns > 0 then s
    else
      var t := WithConn(s, i, s.conns[i].(exitRuns := s.conns[i].exitRuns + 1));
      if s.conns[i].retry && s.isClient then t.(testing := s.testing + 1)
      else t.(exitingClosed := s.exitingClosed + 1)
  }

  function Dialled(s: State): State {
    s.(redials := s.redials + 1, lateDials := s.lateDials + Bit(s.exitingClosed > 0))
  }

  function Apply(s: State, e: Step): State
    requires Enabled(s, e)
  {
    match e
    case WriteFails(i) => OnceExit(WithConn(s, i, s.conns[i].(writer := false)), i)
    case SeesStop(i) => OnceExit(WithConn(s, i, s.conns[i].(writer := false, retry := false)), i)
    case WriterLeaves(i) => WithConn(s, i, s.conns[i].(writer := false))
    case ReadFails(i, normal) =>
      OnceExit(WithConn(s, i, s.conns[i].(reader := false, retry := s.conns[i].retry && !normal)), i)
    case ReaderLeaves(i) => WithConn(s, i, s.conns[i].(reader := false))
    case TestsStopped =>
      if s.isStoped then s.(testing := s.testing - 1, exitingClosed := s.exitingClosed + 1)
      else s.(testing := s.testing - 1, dialling := s.dialling + 1)
    case DialFails => Dialled(s).(dialling := s.dialling - 1, testing := s.testing + 1)
    case DialSucceeds => Dialled(s).(dialling := s.dialling - 1, conns := s.conns + [NewConn(s.noReConnect)])
    case ContextDone => s.(ctxDone := true)
    case CloseStop => s.(stopClosed := true)
    case SetStopped => s.(isStoped := true)
  }

  /** Redial goroutines there are. */
  function Redials(s: State): nat {
    s.testing + s.dialling
  }

  function StepOnce(s: State, e: Step): State {
    if Enabled(s, e) then Apply(s, e) else s
  }

  function Run(s: State, es: seq<Step>): State
    decreases |es|
  {
    if es == [] then s else Run(StepOnce(s, es[0]), es[1..])
  }

  predicate StartOf(s: State, isClient: bool, noReConnect: bool) {
    s == Start(isClient, noReConnect)
  }

  /** Some chain of events leads from a new connection to this state. */
  ghost predicate Reached(isClient: bool, noReConnect: bool, s: State) {
    exists start, es :: StartOf(start, isClient, noReConnect) && Run(start, es) == s
  }

  // ---- one token: the newest connection, or its redial goroutine, or the closed exiting ----

  predicate Token(last: Conn, pending: nat, closed: nat) {
    Bit(last.exitRuns == 0) + pending + closed == 1
  }

  /** Every connection but the newest has exited, once; a loop ends only with its connection or its context. */
  ghost predicate ConnsOnce(conns: seq<Conn>, ctxDone: bool) {
    && (forall i :: 0 <= i < |conns| ==> conns[i].exitRuns <= 1)
    && (forall i :: 0 <= i < |conns| - 1 ==> conns[i].exitRuns == 1)
    && (forall i :: 0 <= i < |conns| && conns[i].exitRuns == 0 ==>
          (conns[i].writer && conns[i].reader) || ctxDone)
  }

  /** A connection that has not exited would be redialled, unless the client is told not to. */
  ghost predicate RetryKept(conns: seq<Conn>, noReConnect: bool) {
    forall i :: 0 <= i < |conns| && conns[i].exitRuns == 0 ==> (conns[i].retry <==> !noReConnect)
  }

  ghost predicate Inv(s: State) {
    && s.conns != []
    && ConnsOnce(s.conns, s.ctxDone)
    && Token(s.conns[|s.conns| - 1], Redials(s), s.exitingClosed)
    && s.lateDials == 0
    && (s.isStoped ==> s.stopClosed)
    && (s.noReConnect || !s.isClient ==> Redials(s) == 0 && s.redials == 0 && |s.conns| == 1)
    && RetryKept(s.conns, s.noReConnect)
    && |s.conns| <= 1 + s.redials
  }

  /** One running connection, and nothing has happened to it yet. */
  predicate Initial(s: State) {
    && |s.conns| == 1 && s.conns[0].writer && s.conns[0].reader && s.conns[0].exitRuns == 0
    && (s.conns[0].retry <==> !s.noReConnect)
    && Redials(s) == 0 && s.exitingClosed == 0 && s.redials == 0 && s.lateDials == 0 && !s.isStoped
  }

  lemma InitialInv(s: State)
    requires Initial(s)
    ensures Inv(s)
  {
  }

  lemma StartInv(start: State, isClient: bool, noReConnect: bool)
    requires StartOf(start, isClient, noReConnect)
    ensures Inv(start)
  {
    InitialInv(start);
  }

  /** A loop ends: its connection has exited or exits now, or the context is done. */
  lemma LeaveKeepsInv(s: State, i: nat, c: Conn)
    requires Inv(s) && i < |s.conns| && c.exitRuns == s.conns[i].exitRuns
    requires c.exitRuns > 0 || c.retry == s.conns[i].retry
    requires s.conns[i].exitRuns > 0 || s.ctxDone
    ensures Inv(WithConn(s, i, c))
  {
    assert ConnsOnce(WithConn(s, i, c).conns, s.ctxDone);
  }

  lemma ExitKeepsInv(s: State, i: nat, c: Conn)
    requires Inv(s) && i < |s.conns| && c.exitRuns == s.conns[i].exitRuns && (c.retry ==> s.conns[i].retry)
    ensures Inv(OnceExit(WithConn(s, i, c), i))
  {
    if s.conns[i].exitRuns > 0 {
      LeaveKeepsInv(s, i, c);
    } else {
      assert i == |s.conns| - 1;
      assert ConnsOnce(OnceExit(WithConn(s, i, c), i).conns, s.ctxDone);
    }
  }

  /** A step of the redial goroutine, which is the only one and has exiting still open. */
  lemma RedialKeepsInv(s: State, e: Step)
    requires Inv(s) && Enabled(s, e) && (e.TestsStopped? || e.DialFails? || e.DialSucceeds?)
    ensures Inv(Apply(s, e))
  {
    var t := Apply(s, e);
    assert Redials(s) == 1 && s.exitingClosed == 0;
    assert ConnsOnce(t.conns, t.ctxDone);
  }

  lemma FlagKeepsInv(s: State, e: Step)
    requires Inv(s) && Enabled(s, e) && (e.ContextDone? || e.CloseStop? || e.SetStopped?)
    ensures Inv(Apply(s, e))
  {
    assert ConnsOnce(s.conns, Apply(s, e).ctxDone);
  }

  lemma LoopKeepsInv(s: State, e: Step)
    requires Inv(s) && Enabled(s, e)
    requires e.WriteFails? || e.SeesStop? || e.WriterLeaves? || e.ReadFails? || e.ReaderLeaves?
    ensures Inv(Apply(s, e))
  {
    var c := s.conns[e.i];
    match e
    case WriteFails(i) => ExitKeepsInv(s, i, c.(writer := false));
    case SeesStop(i) => ExitKeepsInv(s, i, c.(writer := false, retry := false));
    case WriterLeaves(i) => LeaveKeepsInv(s, i, c.(writer := false));
    case ReadFails(i, normal) => ExitKeepsInv(s, i, c.(reader := false, retry := c.retry && !normal));
    case ReaderLeaves(i) => LeaveKeepsInv(s, i, c.(reader := false));
  }

  lemma StepKeepsInv(s: State, e: Step)
    requires Inv(s) && Enabled(s, e)
    ensures Inv(Apply(s, e))
  {
    if e.TestsStopped? || e.DialFails? || e.DialSucceeds? { RedialKeepsInv(s, e); }
    else if e.ContextDone? || e.CloseStop? || e.SetStopped? { FlagKeepsInv(s, e); }
    else { LoopKeepsInv(s, e); }
  }

  predicate SameKind(s: State, t: State) {
    t.isClient == s.isClient && t.noReConnect == s.noReConnect
  }

  lemma ExitStaysKind(s: State, i: nat, c: Conn)
    requires i < |s.conns|
    ensures SameKind(s, WithConn(s, i, c)) && SameKind(s, OnceExit(WithConn(s, i, c), i))
  {
  }

  lemma KindStays(s: State, e: Step)
    requires Enabled(s, e)
    ensures SameKind(s, Apply(s, e))
  {
    match e
    case WriteFails(i) => ExitStaysKind(s, i, s.conns[i].(writer := false));
    case SeesStop(i) => ExitStaysKind(s, i, s.conns[i].(writer := false, retry := false));
    case ReadFails(i, normal) =>
      ExitStaysKind(s, i, s.conns[i].(reader := false, retry := s.conns[i].retry && !normal));
    case _ =>
  }

  lemma StepOnceKeepsInv(s: State, e: Step)
    requires Inv(s)
    ensures Inv(StepOnce(s, e)) && SameKind(s, StepOnce(s, e))
  {
    if Enabled(s, e) {
      StepKeepsInv(s, e);
      KindStays(s, e);
    }
  }

  lemma {:induction false} RunKeepsInv(s: State, es: seq<Step>)
    requires Inv(s)
    ensures Inv(Run(s, es)) && SameKind(s, Run(s, es))
    decreases |es|
  {
    if es != [] {
      StepOnceKeepsInv(s, es[0]);
      RunKeepsInv(StepOnce(s, es[0]), es[1..]);
    }
  }

  /**
   Over every chain of connections, failures, redials, normal closes and stops: exitfun
   runs at most once per connection, exiting is closed at most once in all, nothing is
   dialled after that, and a server or a no-reconnect client never dials again. There is at
   most one redial goroutine, and only while every connection has exited and exiting is open.
   */
  lemma AnyChain(isClient: bool, noReConnect: bool, s: State)
    requires Reached(isClient, noReConnect, s)
    ensures forall i :: 0 <= i < |s.conns| ==> s.conns[i].exitRuns <= 1
    ensures s.exitingClosed <= 1 && Redials(s) <= 1 && s.lateDials == 0
    ensures noReConnect || !isClient ==> s.redials == 0 && |s.conns| == 1
    ensures Redials(s) == 1 || s.exitingClosed == 1 ==>
      Redials(s) + s.exitingClosed == 1 && forall i :: 0 <= i < |s.conns| ==> s.conns[i].exitRuns == 1
    ensures s.exitingClosed == 1 ==>
      !Enabled(s, TestsStopped) && !Enabled(s, DialFails) && !Enabled(s, DialSucceeds)
  {
    ReachedInv(isClient, noReConnect, s);
    OneToken(s);
  }

  lemma ReachedInv(isClient: bool, noReConnect: bool, s: State)
    requires Reached(isClient, noReConnect, s)
    ensures Inv(s) && s.isClient == isClient && s.noReConnect == noReConnect
  {
    var start, es :| StartOf(start, isClient, noReConnect) && Run(start, es) == s;
    StartInv(start, isClient, noReConnect);
    RunKeepsInv(start, es);
  }

  lemma OneToken(s: State)
    requires Inv(s)
    ensures s.exitingClosed <= 1 && Redials(s) <= 1 && s.lateDials == 0
    ensures forall i :: 0 <= i < |s.conns| ==> s.conns[i].exitRuns <= 1
    ensures Redials(s) == 1 || s.exitingClosed == 1 ==>
      Redials(s) + s.exitingClosed == 1 && forall i :: 0 <= i < |s.conns| ==> s.conns[i].exitRuns == 1
    ensures s.noReConnect || !s.isClient ==> s.redials == 0 && |s.conns| == 1
  {
  }

  lemma ExitStays(s: State, e: Step)
    requires Inv(s) && s.exitingClosed == 1
    ensures var t := StepOnce(s, e);
            t.exitingClosed == 1 && t.redials == s.redials && |t.conns| == |s.conns|
  {
    assert Redials(s) == 0;
  }

  /**
   Once exiting is closed it stays so: no later step dials, starts a connection or a redial.
   */
  lemma {:induction false} ExitIsFinal(s: State, es: seq<Step>)
    requires Inv(s) && s.exitingClosed == 1
    ensures var t := Run(s, es);
            t.exitingClosed == 1 && t.redials == s.redials && |t.conns| == |s.conns| && Redials(t) == 0
    decreases |es|
  {
    if es != [] {
      StepOnceKeepsInv(s, es[0]);
      ExitStays(s, es[0]);
      ExitIsFinal(StepOnce(s, es[0]), es[1..]);
    }
  }

  /** The peer closed normally, or the closer asked to stop. */
  predicate Ends(e: Step) {
    e.SeesStop? || (e.ReadFails? && e.normal)
  }

  /**
   The first loop of a connection to end decides: a stop, a normal close, a server's or a
   no-reconnect client's connection ends everything, and no later run dials or connects
   again; any other failure leaves exiting open and a redial pending.
   */
  lemma FirstEndDecides(isClient: bool, noReConnect: bool, s: State, e: Step, es: seq<Step>)
    requires Reached(isClient, noReConnect, s)
    requires Enabled(s, e) && (e.WriteFails? || e.SeesStop? || e.ReadFails?) && s.conns[e.i].exitRuns == 0
    ensures var t := Apply(s, e);
            var u := Run(t, es);
            && (t.exitingClosed == 1 <==> Ends(e) || !isClient || noReConnect)
            && (t.exitingClosed == 1 ==> u.exitingClosed == 1 && u.redials == s.redials && |u.conns| == |s.conns|)
            && (t.exitingClosed == 0 ==> t.testing == 1 && t.dialling == 0)
  {
    ReachedInv(isClient, noReConnect, s);
    var t := Apply(s, e);
    StepKeepsInv(s, e);
    FirstEndEffect(s, e);
    if t.exitingClosed == 1 { ExitIsFinal(t, es); }
  }

  lemma FirstEndEffect(s: State, e: Step)
    requires Inv(s) && Enabled(s, e) && (e.WriteFails? || e.SeesStop? || e.ReadFails?) && s.conns[e.i].exitRuns == 0
    ensures var t := Apply(s, e);
            && (t.exitingClosed == 1 <==> Ends(e) || !s.isClient || s.noReConnect)
            && (t.exitingClosed == 0 ==> t.testing == 1 && t.dialling == 0)
            && t.redials == s.redials && |t.conns| == |s.conns|
  {
    assert e.i == |s.conns| - 1;
  }

  /** The newest connection never exited, and both its loops are gone. */
  predicate Stuck(s: State)
    requires s.conns != []
  {
    var last := s.conns[|s.conns| - 1];
    last.exitRuns == 0 && !last.writer && !last.reader
  }

  lemma StuckStays(s: State, e: Step)
    requires Inv(s) && Stuck(s)
    ensures StepOnce(s, e).conns != [] && Stuck(StepOnce(s, e))
  {
    assert s.exitingClosed == 0 && Redials(s) == 0;
  }

  /** A stuck client stays stuck: its context is done, and no later run closes exiting. */
  lemma {:induction false} StuckForGood(s: State, es: seq<Step>)
    requires Inv(s) && Stuck(s)
    ensures s.ctxDone && Inv(Run(s, es)) && Stuck(Run(s, es)) && Run(s, es).exitingClosed == 0
    decreases |es|
  {
    if es != [] {
      StepOnceKeepsInv(s, es[0]);
      StuckStays(s, es[0]);
      StuckForGood(StepOnce(s, es[0]), es[1..]);
    }
  }

  predicate AllEnabled(s: State, es: seq<Step>)
    decreases |es|
  {
    es == [] || (Enabled(s, es[0]) && AllEnabled(Apply(s, es[0]), es[1..]))
  }

  lemma RunCons(s: State, e: Step, es: seq<Step>)
    ensures Run(s, [e] + es) == Run(StepOnce(s, e), es)
  {
    assert ([e] + es)[1..] == es;
  }

  /** Otherwise at most two steps close it: seeing stop, a normal close, or the end of the redial. */
  lemma CanClose(s: State) returns (es: seq<Step>)
    requires Inv(s) && s.stopClosed && s.isStoped && s.exitingClosed == 0 && !Stuck(s)
    ensures |es| <= 2 && AllEnabled(s, es) && Run(s, es).exitingClosed == 1
  {
    var last := |s.conns| - 1;
    if s.conns[last].exitRuns == 0 {
      var e := if s.conns[last].writer then SeesStop(last) else ReadFails(last, true);
      RunCons(s, e, []);
      es := [e] + [];
    } else if s.testing > 0 {
      RunCons(s, TestsStopped, []);
      es := [TestsStopped] + [];
    } else {
      RunCons(s, DialFails, [TestsStopped]);
      RunCons(Apply(s, DialFails), TestsStopped, []);
      es := [DialFails] + [TestsStopped];
      assert es[1..] == [TestsStopped];
    }
  }

  /**
   After the closer ran, exiting can still be closed if and only if the newest connection
   is not stuck, that is, unless its context ended both its loops before either one failed
   or saw stop.
   */
  lemma StopCanFinish(s: State)
    requires Inv(s) && s.stopClosed && s.isStoped
    ensures (exists es :: Run(s, es).exitingClosed == 1) <==> !Stuck(s)
  {
    if Stuck(s) {
      forall es ensures Run(s, es).exitingClosed == 0 { StuckForGood(s, es); }
    } else if s.exitingClosed == 1 {
      assert Run(s, []) == s;
    } else {
      var es := CanClose(s);
    }
  }

  /** A client gets stuck: its context ends, both loops see that, and then it is closed. */
  lemma ContextCanStick()
    ensures var s := Run(Start(true, false), [ContextDone, WriterLeaves(0), ReaderLeaves(0), CloseStop, SetStopped]);
            s.stopClosed && s.isStoped && s.conns != [] && Stuck(s)
  {
    var s1 := Apply(Start(true, false), ContextDone);
    var s2 := Apply(s1, WriterLeaves(0));
    var s3 := Apply(s2, ReaderLeaves(0));
    var s4 := Apply(s3, CloseStop);
    RunCons(Start(true, false), ContextDone, [WriterLeaves(0), ReaderLeaves(0), CloseStop, SetStopped]);
    RunCons(s1, WriterLeaves(0), [ReaderLeaves(0), CloseStop, SetStopped]);
    RunCons(s2, ReaderLeaves(0), [CloseStop, SetStopped]);
    RunCons(s3, CloseStop, [SetStopped]);
    RunCons(s4, SetStopped, []);
  }

  // ---- the code of the redial goroutine ----

  /** What one dial comes to, and whether isStoped is set when it is next tested. */
  datatype Dial = Dial(ok: bool, stoppedAfter: bool)

  /**
   The goroutine's loop: dials until one succeeds or isStoped is seen. The pause before
   each dial grows by one second. Returns whether it connected; otherwise it closed exiting.
   */
  method RedialLoop(stoppedFirst: bool, dials: seq<Dial>) returns (used: nat, pauses: seq<nat>, connected: bool, closedExiting: bool)
    ensures used <= |dials| && |pauses| == used
    ensures forall k :: 0 <= k < used ==> pauses[k] == k + 1
    ensures forall k :: 0 <= k < used - 1 ==> !dials[k].ok && !dials[k].stoppedAfter
    ensures used > 0 ==> !stoppedFirst
    ensures connected <==> used > 0 && dials[used - 1].ok
    ensures closedExiting <==> if used == 0 then stoppedFirst else !dials[used - 1].ok && dials[used - 1].stoppedAfter
    ensures !connected && !closedExiting ==> used == |dials|
  {
    used, pauses, connected, closedExiting := 0, [], false, false;
    var isStoped := stoppedFirst;
    while used < |dials| && !isStoped
      invariant used <= |dials| && |pauses| == used
      invariant forall k :: 0 <= k < used ==> pauses[k] == k + 1 && !dials[k].ok
      invariant forall k :: 0 <= k < used - 1 ==> !dials[k].stoppedAfter
      invariant isStoped == if used == 0 then stoppedFirst else dials[used - 1].stoppedAfter
      invariant used > 0 ==> !stoppedFirst
    {
      pauses := pauses + [used + 1];
      var dial := dials[used];
      used := used + 1;
      if dial.ok { return used, pauses, true, false; }
      isStoped := dial.stoppedAfter;
    }
    closedExiting := isStoped;
  }
}
