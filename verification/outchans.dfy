/**
 The server end of the streams: one goroutine waits on every registered channel
 at once and forwards what it reads (handleOutChans, jsonrpc/websocket.go:92-185).
 */
module OutChans {
  import opened Basics
  import opened Wire
  import opened Pipes

  /** A registered channel: the request it answers, the channel, what was read from it. */
  datatype Out = Out(req: int, source: nat, read: seq<Raw>, open: bool)

  type Outs = map<nat, Out>

  datatype Event =
    | Register(ch: nat, req: int, source: nat)
    | ReadValue(ch: nat, v: Raw)
    | ReadClosed(ch: nat)

  predicate Enabled(outs: Outs, e: Event) {
    if e.Register? then e.ch !in outs else e.ch in outs && outs[e.ch].open
  }

  function Apply(outs: Outs, e: Event): Outs
    requires Enabled(outs, e)
  {
    match e
    case Register(ch, req, source) => outs[ch := Out(req, source, [], true)]
    case ReadValue(ch, v) => outs[ch := outs[ch].(read := outs[ch].read + [v])]
    case ReadClosed(ch) => outs[ch := outs[ch].(open := false)]
  }

  function Message(e: Event): Msg {
    match e
    case Register(ch, req, _) => Reply(req, Chan(ch, None))
    case ReadValue(ch, v) => ChanValue(ch, v)
    case ReadClosed(ch) => ChanClose(ch)
  }

  // ---- the shape of a stream ----

  function ValueMsgs(ch: nat, vs: seq<Raw>): seq<Msg> {
    seq(|vs|, i requires 0 <= i < |vs| => ChanValue(ch, vs[i]))
  }

  /** One registration response, the values in order, at most one close, nothing after it. */
  function Emitted(ch: nat, req: int, vs: seq<Raw>, open: bool): seq<Msg> {
    [Reply(req, Chan(ch, None))] + ValueMsgs(ch, vs) + (if open then [] else [ChanClose(ch)])
  }

  function History(outs: Outs, ch: nat): seq<Msg> {
    if ch in outs then Emitted(ch, outs[ch].req, outs[ch].read, outs[ch].open) else []
  }

  lemma PickOne(m: Msg, sel: Sel)
    ensures Pick([m], sel) == if Matches(sel, m) then [m] else []
  {
    assert [m][1..] == [];
  }

  /** Each event appends its message to its own stream's history and leaves the others alone. */
  lemma Emits(outs: Outs, e: Event, ch: nat)
    requires Enabled(outs, e)
    ensures History(Apply(outs, e), ch) == History(outs, ch) + Pick([Message(e)], Stream(ch))
  {
    PickOne(Message(e), Stream(ch));
    if ch == e.ch {
      match e
      case Register(_, req, _) =>
        assert Emitted(ch, req, [], true) == [Reply(req, Chan(ch, None))];
      case ReadValue(_, v) =>
        var o := outs[ch];
        assert ValueMsgs(ch, o.read + [v]) == ValueMsgs(ch, o.read) + [ChanValue(ch, v)];
      case ReadClosed(_) =>
    }
  }

  lemma {:induction false} ValuesOfMsgs(ch: nat, vs: seq<Raw>)
    ensures Values(ValueMsgs(ch, vs), ch) == vs
  {
    if vs != [] {
      assert ValueMsgs(ch, vs)[1..] == ValueMsgs(ch, vs[1..]);
      ValuesOfMsgs(ch, vs[1..]);
    }
  }

  /** The values of a stream's history are what was read from its channel. */
  lemma ValuesOfEmitted(ch: nat, req: int, vs: seq<Raw>, open: bool)
    ensures Values(Emitted(ch, req, vs, open), ch) == vs
  {
    var first := [Reply(req, Chan(ch, None))];
    var last := if open then [] else [ChanClose(ch)];
    ValuesConcat(first + ValueMsgs(ch, vs), last, ch);
    ValuesConcat(first, ValueMsgs(ch, vs), ch);
    ValuesOfMsgs(ch, vs);
    assert first[1..] == [] && last[|last|..] == [];
    assert last != [] ==> last[1..] == [];
  }

  // ---- the code ----

  datatype Case = Registrations | Exiting | Source(source: nat)

  const INTERNAL := 2

  /** One result of the select: which case, whether the channel is still open, and the value. */
  datatype Selected = Selected(chosen: nat, ok: bool, val: Raw, reg: Event)

  /** The two arrays are one map from the ids of the open streams to their channels. */
  ghost predicate Agree(cases: seq<Case>, ids: seq<nat>, outs: Outs) {
    && |cases| == |ids| + INTERNAL
    && cases[0] == Registrations && cases[1] == Exiting
    && (forall k :: 0 <= k < |ids| ==>
          ids[k] in outs && outs[ids[k]].open && cases[k + INTERNAL] == Source(outs[ids[k]].source))
    && (forall j, k :: 0 <= j < k < |ids| ==> ids[j] != ids[k])
    && (forall id :: id in outs && outs[id].open ==> id in ids)
  }

  /** The swapped arrays agree with the map without the closed stream, the last slot included. */
  lemma AgreeWithout(cases: seq<Case>, ids: seq<nat>, outs: Outs, k: nat, cases': seq<Case>, ids': seq<nat>)
    requires Agree(cases, ids, outs) && k < |ids|
    requires Swapped(cases, cases', k + INTERNAL) && Swapped(ids, ids', k)
    ensures Agree(cases', ids', Apply(outs, ReadClosed(ids[k])))
  {
    var last := |ids| - 1;
    var outs' := Apply(outs, ReadClosed(ids[k]));
    forall id | id in outs' && outs'[id].open ensures id in ids' {
      var j :| 0 <= j < |ids| && ids[j] == id;
      if j == last { assert ids'[k] == id; } else { assert ids'[j] == id; }
    }
  }

  /** A registered channel goes to the end of both arrays. */
  lemma AgreeWith(cases: seq<Case>, ids: seq<nat>, outs: Outs, reg: Event)
    requires Agree(cases, ids, outs) && reg.Register? && Enabled(outs, reg)
    ensures Agree(cases + [Source(reg.source)], ids + [reg.ch], Apply(outs, reg))
  {
    var ids' := ids + [reg.ch];
    assert ids'[|ids|] == reg.ch;
    assert forall k :: 0 <= k < |ids| ==> ids'[k] == ids[k];
  }

  ghost predicate Swapped<T(!new)>(before: seq<T>, after: seq<T>, k: nat) {
    && |after| == |before| - 1 && k < |before|
    && forall j :: 0 <= j < |after| ==> after[j] == if j == k then before[|after|] else before[j]
  }

  /** The loop's state between two turns. */
  datatype Moment = Moment(cases: seq<Case>, ids: seq<nat>, outs: Outs)

  /** The slot a select picks; any number stands for one of the slots there are. */
  function Slot(m: Moment, s: Selected): nat
    requires m.cases != []
  {
    s.chosen % |m.cases|
  }

  /** A closed control channel ends the loop. */
  predicate Stops(s: Selected, m: Moment) {
    m.cases != [] && Slot(m, s) < INTERNAL && !s.ok
  }

  /** The turn reports what the select picked, under the id that channel was registered with. */
  ghost predicate TurnOf(before: Moment, s: Selected, e: Option<Event>, after: Moment) {
    && Agree(before.cases, before.ids, before.outs) && Agree(after.cases, after.ids, after.outs)
    && var k := Slot(before, s);
       if k >= INTERNAL then
         var id := before.ids[k - INTERNAL];
         && before.cases[k] == Source(before.outs[id].source)
         && e == Some(if s.ok then ReadValue(id, s.val) else ReadClosed(id))
         && Enabled(before.outs, e.value) && after.outs == Apply(before.outs, e.value)
       else if k == 0 && s.ok then
         && e == Some(s.reg)
         && Enabled(before.outs, e.value) && after.outs == Apply(before.outs, e.value)
       else e == None && after == before
  }

  /** Turn by turn along the schedule, from the first moment to the last; only the last turn may stop. */
  ghost predicate Followed(schedule: seq<Selected>, turns: seq<Option<Event>>, log: seq<Moment>) {
    && |turns| <= |schedule| && |log| == |turns| + 1
    && (forall k :: 0 <= k < |turns| ==> TurnOf(log[k], schedule[k], turns[k], log[k + 1]))
    && (forall k :: 0 <= k < |turns| - 1 ==> !Stops(schedule[k], log[k]))
  }

  predicate StoppedLast(schedule: seq<Selected>, log: seq<Moment>)
    requires 1 <= |log| <= |schedule| + 1
  {
    |log| > 1 && Stops(schedule[|log| - 2], log[|log| - 2])
  }

  lemma FollowOn(schedule: seq<Selected>, turns: seq<Option<Event>>, log: seq<Moment>, e: Option<Event>, after: Moment)
    requires Followed(schedule, turns, log) && |turns| < |schedule| && !StoppedLast(schedule, log)
    requires TurnOf(log[|turns|], schedule[|turns|], e, after)
    ensures Followed(schedule, turns + [e], log + [after])
  {
  }

  /** Streams keep their channels, and what was read of them only grows. */
  ghost predicate Grown(a: Outs, b: Outs) {
    forall id :: id in a ==> id in b && b[id].source == a[id].source && a[id].read <= b[id].read
  }

  lemma {:induction false} FollowedGrows(schedule: seq<Selected>, turns: seq<Option<Event>>, log: seq<Moment>, k: nat)
    requires Followed(schedule, turns, log) && k < |log|
    ensures Grown(log[0].outs, log[k].outs)
  {
    if k > 0 {
      FollowedGrows(schedule, turns, log, k - 1);
      assert TurnOf(log[k - 1], schedule[k - 1], turns[k - 1], log[k]);
    }
  }

  /** The values of the schedule entries that picked this stream's slot, in order. */
  function SeenOf(schedule: seq<Selected>, log: seq<Moment>, ch: nat): seq<Raw>
    requires |log| <= |schedule| + 1
    decreases |log|
  {
    if |log| <= 1 then []
    else
      var k := |log| - 2;
      SeenOf(schedule, log[..k + 1], ch) + Seen(log[k], schedule[k], ch)
  }

  function Seen(m: Moment, s: Selected, ch: nat): seq<Raw> {
    if m.cases != [] && INTERNAL <= Slot(m, s) < |m.ids| + INTERNAL && m.ids[Slot(m, s) - INTERNAL] == ch && s.ok
    then [s.val] else []
  }

  lemma TurnSeen(before: Moment, s: Selected, e: Option<Event>, after: Moment, ch: nat)
    requires TurnOf(before, s, e, after) && s.reg.Register?
    ensures Values(Report(e), ch) == Seen(before, s, ch)
  {
    if e.Some? { assert Report(e)[1..] == []; }
  }

  lemma {:induction false} FollowedSeen(schedule: seq<Selected>, turns: seq<Option<Event>>, log: seq<Moment>, ch: nat)
    requires Followed(schedule, turns, log) && forall k :: 0 <= k < |schedule| ==> schedule[k].reg.Register?
    ensures Values(Messages(turns), ch) == SeenOf(schedule, log, ch)
    decreases |turns|
  {
    if turns != [] {
      var k := |turns| - 1;
      assert turns == turns[..k] + [turns[k]];
      FollowedSeen(schedule, turns[..k], log[..k + 1], ch);
      MessagesAppend(turns[..k], turns[k]);
      ValuesConcat(Messages(turns[..k]), Report(turns[k]), ch);
      TurnSeen(log[k], schedule[k], turns[k], log[k + 1], ch);
    }
  }

  function Messages(turns: seq<Option<Event>>): seq<Msg> {
    if turns == [] then []
    else Report(turns[0]) + Messages(turns[1..])
  }

  function Report(e: Option<Event>): seq<Msg> {
    if e.Some? then [Message(e.value)] else []
  }

  lemma {:induction false} MessagesAppend(turns: seq<Option<Event>>, e: Option<Event>)
    ensures Messages(turns + [e]) == Messages(turns) + Report(e)
  {
    if turns == [] {
      assert (turns + [e])[1..] == [];
      assert Messages([]) == [];
    } else {
      assert (turns + [e])[1..] == turns[1..] + [e];
      MessagesAppend(turns[1..], e);
      Assoc(Report(turns[0]), Messages(turns[1..]), Report(e));
    }
  }

  lemma AllSeen(schedule: seq<Selected>, turns: seq<Option<Event>>, log: seq<Moment>, start: seq<Msg>)
    requires Followed(schedule, turns, log) && forall k :: 0 <= k < |schedule| ==> schedule[k].reg.Register?
    ensures forall ch :: Values(start + Messages(turns), ch) == Values(start, ch) + SeenOf(schedule, log, ch)
  {
    forall ch ensures Values(start + Messages(turns), ch) == Values(start, ch) + SeenOf(schedule, log, ch) {
      FollowedSeen(schedule, turns, log, ch);
      ValuesConcat(start, Messages(turns), ch);
    }
  }

  class OutChanLoop {
    var cases: seq<Case>
    var caseToID: seq<nat>
    var written: seq<Msg>
    ghost var outs: Outs

    ghost predicate Valid()
      reads this
    {
      Agree(cases, caseToID, outs) && forall ch :: Pick(written, Stream(ch)) == History(outs, ch)
    }

    constructor ()
      ensures Valid() && outs == map[] && written == []
    {
      cases, caseToID, written, outs := [Registrations, Exiting], [], [], map[];
    }

    /** Removes the closed slot by moving the last one into its place. */
    method Remove(chosen: nat)
      requires |cases| == |caseToID| + INTERNAL && INTERNAL <= chosen < |cases|
      modifies this`cases, this`caseToID
      ensures Swapped(old(cases), cases, chosen)
      ensures Swapped(old(caseToID), caseToID, chosen - INTERNAL)
    {
      var n := |cases| - 1;
      if n > 0 {
        cases := cases[chosen := cases[n]];
        caseToID := caseToID[chosen - INTERNAL := caseToID[n - INTERNAL]];
      }
      cases := cases[..n];
      caseToID := caseToID[..n - INTERNAL];
    }

    ghost method Record(e: Event)
      requires Enabled(outs, e)
      requires forall ch :: Pick(written, Stream(ch)) == History(outs, ch)
      modifies this`outs
      ensures outs == Apply(old(outs), e)
      ensures forall ch :: Pick(written + [Message(e)], Stream(ch)) == History(outs, ch)
    {
      forall ch ensures Pick(written + [Message(e)], Stream(ch)) == History(Apply(outs, e), ch) {
        Emits(outs, e, ch);
        PickConcat(written, [Message(e)], Stream(ch));
      }
      outs := Apply(outs, e);
    }

    ghost function Now(): Moment
      reads this
    {
      Moment(cases, caseToID, outs)
    }

    /** Takes a registration: the channel gets a slot, and its call is answered with the stream's id. */
    method AddCase(reg: Event)
      requires Valid() && reg.Register? && reg.ch !in outs
      modifies this
      ensures Valid() && outs == Apply(old(outs), reg)
      ensures cases == old(cases) + [Source(reg.source)] && caseToID == old(caseToID) + [reg.ch]
      ensures written == old(written) + [Reply(reg.req, Chan(reg.ch, None))]
    {
      AgreeWith(cases, caseToID, outs, reg);
      Record(reg);
      caseToID := caseToID + [reg.ch];
      cases := cases + [Source(reg.source)];
      written := written + [Reply(reg.req, Chan(reg.ch, None))];
    }

    /** The channel of a slot is closed: the slot goes, and the client is told. */
    method CloseCase(chosen: nat)
      requires Valid() && INTERNAL <= chosen < |cases|
      modifies this
      ensures Valid() && outs == Apply(old(outs), ReadClosed(old(caseToID)[chosen - INTERNAL]))
      ensures Swapped(old(cases), cases, chosen) && Swapped(old(caseToID), caseToID, chosen - INTERNAL)
      ensures written == old(written) + [ChanClose(old(caseToID)[chosen - INTERNAL])]
    {
      var id := caseToID[chosen - INTERNAL];
      Record(ReadClosed(id));
      Remove(chosen);
      AgreeWithout(old(cases), old(caseToID), old(outs), chosen - INTERNAL, cases, caseToID);
      written := written + [ChanClose(id)];
    }

    /**
     One turn of the loop. A value or close read from a slot is reported under the id its
     channel was registered with; stop is set when the goroutine returns.
     */
    method Turn(s: Selected) returns (stop: bool, ghost e: Option<Event>)
      requires Valid() && s.reg.Register? && s.reg.ch !in outs
      modifies this
      ensures Valid() && TurnOf(old(Now()), s, e, Now())
      ensures written == old(written) + Report(e)
      ensures var k := s.chosen % |old(cases)|;
              && (stop <==> k < 2 && !s.ok)
              && (k == 0 && s.ok ==> written == old(written) + [Reply(s.reg.req, Chan(s.reg.ch, None))])
              && (k == 1 || stop ==> written == old(written))
              && (k >= 2 && s.ok ==> written == old(written) + [ChanValue(old(caseToID)[k - 2], s.val)])
              && (k >= 2 && !s.ok ==> written == old(written) + [ChanClose(old(caseToID)[k - 2])])
    {
      var chosen := s.chosen % |cases|;
      if chosen == 0 {
        if !s.ok { return true, None; }
        AddCase(s.reg);
        return false, Some(s.reg);
      }
      if chosen == 1 { return !s.ok, None; }

      var id := caseToID[chosen - INTERNAL];
      if !s.ok {
        CloseCase(chosen);
        return false, Some(ReadClosed(id));
      }
      Record(ReadValue(id, s.val));
      written := written + [ChanValue(id, s.val)];
      return false, Some(ReadValue(id, s.val));
    }

    /**
     The whole loop, for any sequence of registrations, values and closes in any order.
     What it wrote are the messages of its turns, in order; each turn reports what its
     select picked, and the loop ends early only where the select told it to stop. The
     values written for a stream are those read each time its slot was picked.
     */
    method HandleOutChans(schedule: seq<Selected>) returns (stopped: bool, ghost turns: seq<Option<Event>>, ghost log: seq<Moment>)
      requires Valid()
      requires forall k :: 0 <= k < |schedule| ==> schedule[k].reg.Register? && schedule[k].reg.ch !in outs
      requires forall j, k :: 0 <= j < k < |schedule| ==> schedule[j].reg.ch != schedule[k].reg.ch
      modifies this
      ensures Valid()
      ensures Followed(schedule, turns, log) && log[0] == old(Now()) && log[|turns|] == Now()
      ensures written == old(written) + Messages(turns)
      ensures forall ch :: Values(written, ch) == Values(old(written), ch) + SeenOf(schedule, log, ch)
      ensures stopped <==> StoppedLast(schedule, log)
      ensures !stopped ==> |turns| == |schedule|
      ensures Grown(old(outs), outs)
    {
      turns, log, stopped := [], [Now()], false;
      var k := 0;
      while k < |schedule|
        invariant 0 <= k == |turns| <= |schedule| && Valid() && !stopped
        invariant Followed(schedule, turns, log) && !StoppedLast(schedule, log)
        invariant log[0] == old(Now()) && log[k] == Now()
        invariant forall j :: k <= j < |schedule| ==> schedule[j].reg.ch !in outs
        invariant written == old(written) + Messages(turns)
      {
        ghost var e;
        stopped, e := Turn(schedule[k]);
        MessagesAppend(turns, e);
        FollowOn(schedule, turns, log, e, Now());
        turns, log := turns + [e], log + [Now()];
        k := k + 1;
        if stopped { break; }
      }
      FollowedGrows(schedule, turns, log, k);
      AllSeen(schedule, turns, log, old(written));
    }
  }
}
