/**
 Reader parameters: the body arrives in one HTTP request, the call that reads it in
 another, and they meet through a table of channels (jsonrpc/httpio/reader.go:52-141).
 */
module Rendezvous {
  import opened Basics

  type Uuid = string

  // ---- the handed-over body (waitReadCloser) ----

  /** What the method does with a body: a read that fails (end of input included) or not, or Close. */
  datatype Use = Read(fails: bool) | Close

  predicate Closes(u: Use) {
    u.Close? || u.fails
  }

  function CloseCount(us: seq<Use>): nat {
    if us == [] then 0 else Bit(Closes(us[0])) + CloseCount(us[1..])
  }

  class WaitReadCloser {
    var waitClosed: bool
    var panicked: bool    // wait was closed a second time

    constructor ()
      ensures !waitClosed && !panicked
    {
      waitClosed, panicked := false, false;
    }

    method CloseWait()
      modifies this
      ensures waitClosed && panicked == (old(panicked) || old(waitClosed))
    {
      if waitClosed { panicked := true; }
      waitClosed := true;
    }

    method Apply(u: Use)
      modifies this
      ensures waitClosed == (old(waitClosed) || Closes(u))
      ensures panicked == (old(panicked) || (Closes(u) && old(waitClosed)))
    {
      match u {
        case Read(fails) => if fails { CloseWait(); }
        case Close => CloseWait();
      }
    }

    /**
     The push is released exactly when the body hit a read error or was closed, and wait is
     closed twice exactly when that happened more than once.
     */
    method UseAll(us: seq<Use>)
      requires !waitClosed && !panicked
      modifies this
      ensures waitClosed <==> CloseCount(us) >= 1
      ensures panicked <==> CloseCount(us) >= 2
    {
      var i := 0;
      while i < |us|
        invariant 0 <= i <= |us|
        invariant Bit(waitClosed) + CloseCount(us[i..]) >= 1 <==> CloseCount(us) >= 1
        invariant panicked || Bit(waitClosed) + CloseCount(us[i..]) >= 2 <==> CloseCount(us) >= 2
        invariant panicked ==> waitClosed
      {
        assert us[i..][0] == us[i] && us[i..][1..] == us[i + 1..];
        Apply(us[i]);
        i := i + 1;
      }
      assert us[i..] == [];
    }
  }

  lemma CarefulUse()
    ensures CloseCount([Read(false), Read(true), Close]) == 2
  {
    var us := [Read(false), Read(true), Close];
    assert us[1..] == [Read(true), Close] && us[1..][1..] == [Close] && us[1..][1..][1..] == [];
  }

  /** Reading to the end and then closing, as a careful reader does, panics: wait is closed twice. */
  method ReadToEndThenClose() returns (w: WaitReadCloser)
    ensures w.waitClosed && w.panicked
  {
    w := new WaitReadCloser();
    CarefulUse();
    w.UseAll([Read(false), Read(true), Close]);
  }

  // ---- the table and both sides ----

  /** The HTTP handler of one push. The id is what uuid.Parse returned, whether or not it complained. */
  datatype PushPhase =
    | Offering                 // waits to hand its body over
    | HandedOver(decode: nat)  // waits for the body to be used up
    | Answered(status: int)

  datatype Push = Push(u: Uuid, parsed: bool, ch: nat, phase: PushPhase, closes: nat)

  /** One decoding of a reader parameter. */
  datatype DecodePhase = Awaiting | Has(push: nat) | Cancelled

  datatype Decode = Decode(u: Uuid, ch: nat, phase: DecodePhase)

  datatype State = State(
    readers: map<Uuid, nat>,   // the channel of each id
    nextCh: nat,
    pushes: seq<Push>,
    decodes: seq<Decode>)

  const INIT := State(map[], 0, [], [])

  datatype Step =
    | PushArrives(u: Uuid, parsed: bool)
    | DecodeArrives(u: Uuid)
    | Meet(p: nat, d: nat)        // the send and the receive on one channel
    | PushCancelled(p: nat)
    | DecodeCancelled(d: nat)
    | BodyUsed(p: nat, use: Use)  // by the call that holds it
    | PushReleased(p: nat)

  /** Both sides look the channel up, or make it, under the lock. */
  function ChannelFor(s: State, u: Uuid): (nat, State) {
    if u in s.readers then (s.readers[u], s)
    else (s.nextCh, s.(readers := s.readers[u := s.nextCh], nextCh := s.nextCh + 1))
  }

  /** The first status written stands: a push whose id did not parse was already answered 400. */
  function Status(p: Push, code: int): int {
    if p.parsed then code else 400
  }

  predicate Enabled(s: State, e: Step) {
    match e
    case PushArrives(_, _) => true
    case DecodeArrives(_) => true
    case Meet(p, d) =>
      && p < |s.pushes| && d < |s.decodes|
      && s.pushes[p].phase.Offering? && s.decodes[d].phase.Awaiting?
      && s.pushes[p].ch == s.decodes[d].ch
    case PushCancelled(p) => p < |s.pushes| && !s.pushes[p].phase.Answered?
    case DecodeCancelled(d) => d < |s.decodes| && s.decodes[d].phase.Awaiting?
    case BodyUsed(p, _) => p < |s.pushes| && exists d :: 0 <= d < |s.decodes| && s.decodes[d].phase == Has(p)
    case PushReleased(p) => p < |s.pushes| && s.pushes[p].phase.HandedOver? && s.pushes[p].closes > 0
  }

  function SetPush(s: State, p: nat, phase: PushPhase): State
    requires p < |s.pushes|
  {
    s.(pushes := s.pushes[p := s.pushes[p].(phase := phase)])
  }

  function SetDecode(s: State, d: nat, phase: DecodePhase): State
    requires d < |s.decodes|
  {
    s.(decodes := s.decodes[d := s.decodes[d].(phase := phase)])
  }

  function Apply(s: State, e: Step): State
    requires Enabled(s, e)
  {
    match e
    case PushArrives(u, parsed) =>
      var (ch, t) := ChannelFor(s, u);
      t.(pushes := t.pushes + [Push(u, parsed, ch, Offering, 0)])
    case DecodeArrives(u) =>
      var (ch, t) := ChannelFor(s, u);
      t.(decodes := t.decodes + [Decode(u, ch, Awaiting)])
    case Meet(p, d) => SetDecode(SetPush(s, p, HandedOver(d)), d, Has(p))
    case PushCancelled(p) => SetPush(s, p, Answered(Status(s.pushes[p], 500)))
    case DecodeCancelled(d) => SetDecode(s, d, Cancelled)
    case BodyUsed(p, use) =>
      s.(pushes := s.pushes[p := s.pushes[p].(closes := s.pushes[p].closes + Bit(Closes(use)))])
    case PushReleased(p) => SetPush(s, p, Answered(Status(s.pushes[p], 200)))
  }

  function StepOnce(s: State, e: Step): State {
    if Enabled(s, e) then Apply(s, e) else s
  }

  function Run(s: State, es: seq<Step>): State
    decreases |es|
  {
    if es == [] then s else Run(StepOnce(s, es[0]), es[1..])
  }

  // ---- what every interleaving keeps ----

  /** One channel for each id, and one id for each channel. */
  ghost predicate OneChannel(readers: map<Uuid, nat>, nextCh: nat) {
    && (forall u :: u in readers ==> readers[u] < nextCh)
    && (forall u, v :: u in readers && v in readers && u != v ==> readers[u] != readers[v])
  }

  ghost predicate OnChannels(s: State) {
    && (forall p :: 0 <= p < |s.pushes| ==> s.pushes[p].u in s.readers && s.readers[s.pushes[p].u] == s.pushes[p].ch)
    && (forall d :: 0 <= d < |s.decodes| ==> s.decodes[d].u in s.readers && s.readers[s.decodes[d].u] == s.decodes[d].ch)
  }

  /** A decoder holds the body of a push with its own id, and is the only one that does. */
  ghost predicate Matched(pushes: seq<Push>, decodes: seq<Decode>) {
    && (forall d :: 0 <= d < |decodes| && decodes[d].phase.Has? ==>
          && decodes[d].phase.push < |pushes|
          && !pushes[decodes[d].phase.push].phase.Offering?
          && pushes[decodes[d].phase.push].u == decodes[d].u)
    && (forall c, d :: 0 <= c < d < |decodes| && decodes[c].phase.Has? && decodes[d].phase.Has? ==>
          decodes[c].phase.push != decodes[d].phase.push)
    && (forall p :: 0 <= p < |pushes| && pushes[p].phase.HandedOver? ==>
          pushes[p].phase.decode < |decodes| && decodes[pushes[p].phase.decode].phase == Has(p))
  }

  predicate HeldBySome(decodes: seq<Decode>, p: nat) {
    exists d :: 0 <= d < |decodes| && decodes[d].phase == Has(p)
  }

  /** A push is answered 200 only when its id parsed, its body was handed over and then used up. */
  ghost predicate HonestStatus(pushes: seq<Push>, decodes: seq<Decode>) {
    forall p :: 0 <= p < |pushes| ==>
      && (pushes[p].closes > 0 ==> HeldBySome(decodes, p))
      && (pushes[p].phase == Answered(200) ==> pushes[p].parsed && pushes[p].closes > 0)
      && (pushes[p].phase.Answered? ==> pushes[p].phase.status in {200, 400, 500})
      && (pushes[p].phase.Answered? && !pushes[p].parsed ==> pushes[p].phase.status == 400)
  }

  ghost predicate Inv(s: State) {
    && OneChannel(s.readers, s.nextCh)
    && OnChannels(s)
    && Matched(s.pushes, s.decodes)
    && HonestStatus(s.pushes, s.decodes)
  }

  lemma ChannelKeeps(s: State, u: Uuid)
    requires Inv(s)
    ensures var (ch, t) := ChannelFor(s, u);
            && OneChannel(t.readers, t.nextCh) && u in t.readers && t.readers[u] == ch
            && t.pushes == s.pushes && t.decodes == s.decodes && OnChannels(t)
            && forall v :: v in s.readers ==> v in t.readers && t.readers[v] == s.readers[v]
  {
  }

  lemma MeetKeeps(s: State, p: nat, d: nat)
    requires Inv(s) && Enabled(s, Meet(p, d))
    ensures Inv(Apply(s, Meet(p, d)))
  {
    var t := Apply(s, Meet(p, d));
    assert s.pushes[p].u == s.decodes[d].u;
    assert Matched(t.pushes, t.decodes);
    HeldKept(s.decodes, t.decodes);
  }

  /** Decoders that hold a body go on holding it. */
  lemma HeldKept(before: seq<Decode>, after: seq<Decode>)
    requires |before| <= |after|
    requires forall d :: 0 <= d < |before| && before[d].phase.Has? ==> after[d].phase == before[d].phase
    ensures forall p: nat :: HeldBySome(before, p) ==> HeldBySome(after, p)
  {
    forall p: nat | HeldBySome(before, p) ensures HeldBySome(after, p) {
      var d :| 0 <= d < |before| && before[d].phase == Has(p);
      assert after[d].phase == Has(p);
    }
  }

  lemma PushArrivalKeeps(s: State, u: Uuid, parsed: bool)
    requires Inv(s)
    ensures Inv(Apply(s, PushArrives(u, parsed)))
  {
    ChannelKeeps(s, u);
    var t := Apply(s, PushArrives(u, parsed));
    assert t.decodes == s.decodes;
    assert Matched(t.pushes, t.decodes);
  }

  lemma DecodeArrivalKeeps(s: State, u: Uuid)
    requires Inv(s)
    ensures Inv(Apply(s, DecodeArrives(u)))
  {
    ChannelKeeps(s, u);
    var t := Apply(s, DecodeArrives(u));
    assert t.pushes == s.pushes;
    assert Matched(t.pushes, t.decodes);
    HeldKept(s.decodes, t.decodes);
  }

  /** An answered push was parsed and used up when it says 200, and says 400 when it was not parsed. */
  lemma AnswerKeeps(s: State, p: nat, code: int)
    requires Inv(s) && p < |s.pushes| && code in {200, 500} && !s.pushes[p].phase.Answered?
    requires code == 200 ==> s.pushes[p].closes > 0
    ensures Inv(SetPush(s, p, Answered(Status(s.pushes[p], code))))
  {
    var t := SetPush(s, p, Answered(Status(s.pushes[p], code)));
    assert OnChannels(t);
    assert Matched(t.pushes, t.decodes);
  }

  lemma UseKeeps(s: State, p: nat, use: Use)
    requires Inv(s) && Enabled(s, BodyUsed(p, use))
    ensures Inv(Apply(s, BodyUsed(p, use)))
  {
    var t := Apply(s, BodyUsed(p, use));
    assert OnChannels(t);
    assert Matched(t.pushes, t.decodes);
    assert HeldBySome(s.decodes, p);
  }

  lemma StepKeepsInv(s: State, e: Step)
    requires Inv(s) && Enabled(s, e)
    ensures Inv(Apply(s, e))
  {
    if e.PushArrives? { PushArrivalKeeps(s, e.u, e.parsed); }
    else if e.DecodeArrives? { DecodeArrivalKeeps(s, e.u); }
    else if e.Meet? { MeetKeeps(s, e.p, e.d); }
    else if e.DecodeCancelled? { HeldKept(s.decodes, Apply(s, e).decodes); }
    else if e.PushCancelled? { AnswerKeeps(s, e.p, 500); }
    else if e.PushReleased? { AnswerKeeps(s, e.p, 200); }
    else { UseKeeps(s, e.p, e.use); }
  }

  lemma ReadersGrow(s: State, e: Step)
    ensures forall u :: u in s.readers ==> u in StepOnce(s, e).readers && StepOnce(s, e).readers[u] == s.readers[u]
  {
  }

  lemma {:induction false} RunKeepsInv(s: State, es: seq<Step>)
    requires Inv(s)
    ensures Inv(Run(s, es))
    ensures forall u :: u in s.readers ==> u in Run(s, es).readers && Run(s, es).readers[u] == s.readers[u]
    decreases |es|
  {
    if es != [] {
      if Enabled(s, es[0]) { StepKeepsInv(s, es[0]); }
      ReadersGrow(s, es[0]);
      RunKeepsInv(StepOnce(s, es[0]), es[1..]);
    }
  }

  /**
   Every interleaving of pushes, decodes and cancellations, from any state reached: an id
   keeps its channel for ever; a decoder that got a body got it from a push with its own
   id, and no other decoder got that body; a push answered 200 parsed its id, and some
   decoder held its body and saw a read error or closed it.
   */
  lemma AnyInterleaving(before: seq<Step>, after: seq<Step>)
    ensures var s := Run(INIT, before);
            var t := Run(s, after);
            && (forall u :: u in s.readers ==> u in t.readers && t.readers[u] == s.readers[u])
            && (forall u, v :: u in t.readers && v in t.readers && u != v ==> t.readers[u] != t.readers[v])
            && (forall d :: 0 <= d < |t.decodes| && t.decodes[d].phase.Has? ==>
                  t.decodes[d].phase.push < |t.pushes| && t.pushes[t.decodes[d].phase.push].u == t.decodes[d].u)
            && (forall c, d :: 0 <= c < d < |t.decodes| && t.decodes[c].phase.Has? && t.decodes[d].phase.Has? ==>
                  t.decodes[c].phase.push != t.decodes[d].phase.push)
            && (forall p :: 0 <= p < |t.pushes| && t.pushes[p].phase == Answered(200) ==>
                  t.pushes[p].parsed && t.pushes[p].closes > 0 && HeldBySome(t.decodes, p))
  {
    RunKeepsInv(INIT, before);
    RunKeepsInv(Run(INIT, before), after);
  }

  /**
   Whichever side came first: a push still offering its body and a decoder still waiting
   can meet exactly when their ids are equal.
   */
  lemma MeetIffSameId(es: seq<Step>, p: nat, d: nat)
    requires var s := Run(INIT, es);
             p < |s.pushes| && d < |s.decodes| && s.pushes[p].phase.Offering? && s.decodes[d].phase.Awaiting?
    ensures var s := Run(INIT, es); Enabled(s, Meet(p, d)) <==> s.pushes[p].u == s.decodes[d].u
  {
    RunKeepsInv(INIT, es);
  }

  lemma {:induction false} AnsweredStays(s: State, p: nat, es: seq<Step>)
    requires p < |s.pushes| && s.pushes[p].phase.Answered?
    ensures var t := Run(s, es); p < |t.pushes| && t.pushes[p].phase == s.pushes[p].phase
    decreases |es|
  {
    if es != [] {
      StepKeepsAnswer(s, p, es[0]);
      AnsweredStays(StepOnce(s, es[0]), p, es[1..]);
    }
  }

  lemma StepKeepsAnswer(s: State, p: nat, e: Step)
    requires p < |s.pushes| && s.pushes[p].phase.Answered?
    ensures var t := StepOnce(s, e); p < |t.pushes| && t.pushes[p].phase == s.pushes[p].phase
  {
  }

  /**
   A push whose body was handed over and used up is released with 200 if and only if its
   id parsed, and with 400 otherwise; nothing changes that later.
   */
  lemma ReleasedStatus(s: State, p: nat, later: seq<Step>)
    requires Enabled(s, PushReleased(p))
    ensures var t := Run(Apply(s, PushReleased(p)), later);
            p < |t.pushes| && t.pushes[p].phase == Answered(if s.pushes[p].parsed then 200 else 400)
  {
    AnsweredStays(Apply(s, PushReleased(p)), p, later);
  }

  /** A push whose context ends first is answered 500, or stays at 400, for good. */
  lemma CancelledStatus(s: State, p: nat, later: seq<Step>)
    requires Enabled(s, PushCancelled(p))
    ensures var t := Run(Apply(s, PushCancelled(p)), later);
            p < |t.pushes| && t.pushes[p].phase == Answered(if s.pushes[p].parsed then 500 else 400)
  {
    AnsweredStays(Apply(s, PushCancelled(p)), p, later);
  }

  /** A push whose id did not parse goes on: it can still hand its body to a decoder, and stays at 400. */
  lemma UnparsedPushGoesOn(u: Uuid)
    ensures var s := Run(INIT, [PushArrives(u, false), DecodeArrives(u), Meet(0, 0), BodyUsed(0, Close), PushReleased(0)]);
            && |s.decodes| == 1 && s.decodes[0].phase == Has(0)
            && |s.pushes| == 1 && s.pushes[0].phase == Answered(400)
  {
    var meet := [Meet(0, 0), BodyUsed(0, Close), PushReleased(0)];
    var s2 := Apply(Apply(INIT, PushArrives(u, false)), DecodeArrives(u));
    var s3 := Apply(s2, Meet(0, 0));
    assert s3.decodes[0].phase == Has(0);
    RunCons(INIT, PushArrives(u, false), [DecodeArrives(u)] + meet);
    RunCons(Apply(INIT, PushArrives(u, false)), DecodeArrives(u), meet);
    RunCons(s2, Meet(0, 0), meet[1..]);
    RunCons(s3, BodyUsed(0, Close), [PushReleased(0)]);
    RunCons(Apply(s3, BodyUsed(0, Close)), PushReleased(0), []);
    assert [PushArrives(u, false)] + ([DecodeArrives(u)] + meet)
        == [PushArrives(u, false), DecodeArrives(u), Meet(0, 0), BodyUsed(0, Close), PushReleased(0)];
  }

  lemma RunCons(s: State, e: Step, es: seq<Step>)
    ensures Run(s, [e] + es) == Run(StepOnce(s, e), es)
  {
    assert ([e] + es)[1..] == es;
  }

  // ---- the code of both sides ----

  class ReaderTable {
    var readers: map<Uuid, nat>
    var nextCh: nat

    constructor ()
      ensures readers == map[] && nextCh == 0
    {
      readers, nextCh := map[], 0;
    }

    /** The locked section both sides run. */
    method Channel(u: Uuid) returns (ch: nat)
      requires OneChannel(readers, nextCh)
      modifies this
      ensures OneChannel(readers, nextCh)
      ensures readers == old(readers)[u := ch] && (u in old(readers) ==> ch == old(readers)[u])
      ensures u !in old(readers) ==> forall v :: v in old(readers) ==> old(readers)[v] != ch
      ensures forall s: State :: s.readers == old(readers) && s.nextCh == old(nextCh) ==>
        ChannelFor(s, u) == (ch, s.(readers := readers, nextCh := nextCh))
    {
      if u in readers {
        ch := readers[u];
        return;
      }
      ch := nextCh;
      nextCh := nextCh + 1;
      readers := readers[u := ch];
    }
  }
}
