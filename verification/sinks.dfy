/**
 The client end of one stream: the sink that the connection loop pushes values
 into, and the goroutine that buffers them for the caller (jsonrpc/client.go:314-404).
 */
module Sinks {
  import opened Basics
  import opened Wire

  const INCOMING := 32

  datatype Sink = Sink(
    incoming: seq<Raw>,    // contents of the channel between sink and goroutine
    inClosed: bool,        // the sink has closed it
    drained: bool,         // the goroutine has seen it closed and set it to nil
    buf: seq<Raw>,
    delivered: seq<Raw>,   // values the caller has received
    exited: bool,
    cancelled: bool,       // exited because the context was done
    outCloses: nat,        // how often the caller's channel was closed
    accepted: seq<Raw>,    // every value ever pushed
    closeCalls: nat,       // how often the sink got the close signal
    panicked: bool)        // a send on, or second close of, the closed channel

  const FRESH := Sink([], false, false, [], [], false, false, 0, [], 0, false)

  datatype Event =
    | Push(v: Raw)      // sink, value
    | CloseIn           // sink, close signal
    | TakeIn            // goroutine, receives from incoming
    | Deliver           // goroutine, hands the front of buf to the caller
    | SeeCancel         // goroutine, sees the context done

  predicate Goroutine(e: Event) {
    e.TakeIn? || e.Deliver? || e.SeeCancel?
  }

  predicate Enabled(s: Sink, e: Event, ctxDone: bool) {
    match e
    case Push(_) => !s.drained && (s.inClosed || |s.incoming| < INCOMING)
    case CloseIn => true
    case TakeIn => !s.exited && !s.drained && (s.incoming != [] || s.inClosed)
    case Deliver => !s.exited && s.buf != []
    case SeeCancel => !s.exited && ctxDone
  }

  function Apply(s: Sink, e: Event): Sink
    requires Enabled(s, e, true)
  {
    match e
    case Push(v) =>
      if s.inClosed then s.(panicked := true)
      else s.(incoming := s.incoming + [v], accepted := s.accepted + [v])
    case CloseIn =>
      if s.inClosed then s.(panicked := true, closeCalls := s.closeCalls + 1)
      else s.(inClosed := true, closeCalls := s.closeCalls + 1)
    case TakeIn =>
      EndOfTurn(
        if s.incoming != [] then s.(incoming := s.incoming[1..], buf := s.buf + [s.incoming[0]])
        else s.(drained := true))
    case Deliver =>
      EndOfTurn(s.(buf := s.buf[1..], delivered := s.delivered + [s.buf[0]]))
    case SeeCancel =>
      s.(exited := true, cancelled := true, outCloses := s.outCloses + 1)
  }

  function EndOfTurn(s: Sink): Sink {
    if s.drained && s.buf == [] then s.(exited := true, outCloses := s.outCloses + 1) else s
  }

  // ---- what every turn keeps ----

  predicate Good(s: Sink) {
    && !s.panicked
    && s.closeCalls == Bit(s.inClosed)
    && |s.incoming| <= INCOMING
    && (s.drained ==> s.inClosed && s.incoming == [])
    && s.delivered + s.buf + s.incoming == s.accepted
    && s.outCloses == Bit(s.exited)
    && (s.cancelled ==> s.exited)
    && (s.exited && !s.cancelled ==> s.drained && s.buf == [])
    && (s.drained && s.buf == [] ==> s.exited)
  }

  /** The sink is used after its close signal. */
  predicate Misuse(s: Sink, e: Event) {
    (e.Push? || e.CloseIn?) && s.inClosed
  }

  lemma TurnKeepsGood(s: Sink, e: Event)
    requires Good(s) && Enabled(s, e, true) && !Misuse(s, e)
    ensures Good(Apply(s, e))
    ensures s.accepted <= Apply(s, e).accepted && s.delivered <= Apply(s, e).delivered
  {
    if e.TakeIn? && s.incoming != [] {
      assert s.incoming == [s.incoming[0]] + s.incoming[1..];
      assert s.delivered + (s.buf + [s.incoming[0]]) + s.incoming[1..] == s.delivered + s.buf + s.incoming;
    } else if e.Deliver? {
      assert s.buf == [s.buf[0]] + s.buf[1..];
      assert (s.delivered + [s.buf[0]]) + s.buf[1..] + s.incoming == s.delivered + s.buf + s.incoming;
    } else if e.Push? {
      assert s.delivered + s.buf + (s.incoming + [e.v]) == (s.delivered + s.buf + s.incoming) + [e.v];
    }
  }

  // ---- whole runs ----

  function Turn(s: Sink, e: Event): Sink {
    if Enabled(s, e, true) then Apply(s, e) else s
  }

  /** Any interleaving of sink and goroutine; choices that are not possible are passed over. */
  function Play(s: Sink, es: seq<Event>): Sink
    decreases |es|
  {
    if es == [] then s else Play(Turn(s, es[0]), es[1..])
  }

  predicate Disciplined(s: Sink, es: seq<Event>)
    decreases |es|
  {
    es == [] || (!Misuse(s, es[0]) && Disciplined(Turn(s, es[0]), es[1..]))
  }

  /**
   Every interleaving: nothing accepted is lost, repeated or reordered, the caller's
   channel is closed at most once, and without cancellation it is closed only after
   the input was closed and every accepted value was delivered.
   */
  lemma {:induction false} EveryRun(s: Sink, es: seq<Event>)
    requires Good(s) && Disciplined(s, es)
    ensures var t := Play(s, es);
            && Good(t)
            && t.delivered + t.buf + t.incoming == t.accepted
            && t.outCloses == Bit(t.exited)
            && (t.exited && !t.cancelled ==> t.inClosed && t.delivered == t.accepted)
            && s.delivered <= t.delivered && s.accepted <= t.accepted
    decreases |es|
  {
    if es != [] {
      if Enabled(s, es[0], true) { TurnKeepsGood(s, es[0]); }
      EveryRun(Turn(s, es[0]), es[1..]);
    }
  }

  /** Turns the goroutine can still take once its input is closed. */
  function Remaining(s: Sink): nat {
    2 * |s.incoming| + |s.buf| + Bit(!s.drained) + Bit(!s.exited)
  }

  predicate AllEnabled(s: Sink, es: seq<Event>)
    decreases |es|
  {
    es == [] || (Goroutine(es[0]) && Enabled(s, es[0], true) && AllEnabled(Apply(s, es[0]), es[1..]))
  }

  /**
   After its input is closed the goroutine takes at most Remaining(s) turns, and
   as long as it has not exited it has a turn to take: receive, or hand over a value.
   */
  lemma {:induction false} Terminates(s: Sink, es: seq<Event>)
    requires Good(s) && s.inClosed && AllEnabled(s, es)
    ensures |es| + Remaining(Play(s, es)) <= Remaining(s)
    ensures var t := Play(s, es);
            !t.exited ==> Enabled(t, TakeIn, false) || Enabled(t, Deliver, false)
    decreases |es|
  {
    if es != [] {
      TurnKeepsGood(s, es[0]);
      Terminates(Apply(s, es[0]), es[1..]);
    }
  }

  // ---- the code ----

  class OutChan {
    var incoming: seq<Raw>
    var inClosed: bool
    var drained: bool
    var buf: seq<Raw>
    var delivered: seq<Raw>
    var exited: bool
    var cancelled: bool
    var outCloses: nat
    ghost var accepted: seq<Raw>
    ghost var closeCalls: nat
    var panicked: bool

    ghost function View(): Sink
      reads this
    {
      Sink(incoming, inClosed, drained, buf, delivered, exited, cancelled, outCloses,
           accepted, closeCalls, panicked)
    }

    constructor ()
      ensures View() == FRESH
    {
      incoming, inClosed, drained, buf, delivered := [], false, false, [], [];
      exited, cancelled, outCloses, panicked := false, false, 0, false;
      accepted, closeCalls := [], 0;
    }

    /** The sink: a value when ok, the close signal otherwise. Called when the push does not block. */
    method Accept(v: Raw, ok: bool)
      requires Enabled(View(), if ok then Push(v) else CloseIn, true)
      modifies this
      ensures View() == Apply(old(View()), if ok then Push(v) else CloseIn)
    {
      if !ok {
        if inClosed { panicked := true; } else { inClosed := true; }
        closeCalls := closeCalls + 1;
        return;
      }
      if inClosed {
        panicked := true;
      } else {
        incoming := incoming + [v];
        accepted := accepted + [v];
      }
    }

    /** One choice of the goroutine's select, with the loop's end-of-turn check. */
    method Iterate(e: Event)
      requires Goroutine(e) && Enabled(View(), e, true)
      modifies this
      ensures View() == Apply(old(View()), e)
    {
      match e {
        case SeeCancel =>
          outCloses := outCloses + 1;
          exited, cancelled := true, true;
          return;
        case TakeIn =>
          if incoming != [] {
            var v := incoming[0];
            incoming := incoming[1..];
            buf := buf + [v];
          } else {
            drained := true;
          }
        case Deliver =>
          delivered := delivered + [buf[0]];
          buf := buf[1..];
      }
      if drained && buf == [] {
        outCloses := outCloses + 1;
        exited := true;
      }
    }

    /** The goroutine's loop under a schedule of sink calls and select choices. */
    method Run(schedule: seq<Event>)
      requires Good(View()) && Disciplined(View(), schedule)
      modifies this
      ensures View() == Play(old(View()), schedule)
      ensures Good(View()) && delivered + buf + incoming == accepted
    {
      EveryRun(View(), schedule);
      var k := 0;
      while k < |schedule|
        invariant 0 <= k <= |schedule|
        invariant Play(View(), schedule[k..]) == Play(old(View()), schedule)
      {
        var e := schedule[k];
        assert schedule[k..][0] == e && schedule[k..][1..] == schedule[k + 1..];
        match e {
          case Push(v) => if !drained && (inClosed || |incoming| < INCOMING) { Accept(v, true); }
          case CloseIn => Accept("", false);
          case TakeIn => if !exited && !drained && (incoming != [] || inClosed) { Iterate(e); }
          case Deliver => if !exited && buf != [] { Iterate(e); }
          case SeeCancel => if !exited { Iterate(e); }
        }
        k := k + 1;
      }
      assert schedule[k..] == [];
    }
  }
}
