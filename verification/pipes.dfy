/**
 One direction of a connection: the sender's writeChan and keepAliveChan, the
 bytes on the wire, and the receiver's frameChan, each oldest first
 (jsonrpc/websocket.go:424-431, 467-549). When writeChan is full, the messages that
 goroutines wait to send stand behind it in the order the runtime queues them.
 */
module Pipes {
  import opened Basics
  import opened Wire

  const CAPACITY := 100

  datatype Pipe = Pipe(write: seq<Msg>, keepAlive: seq<Msg>, wire: seq<Msg>, frames: seq<Msg>)

  const EMPTY := Pipe([], [], [], [])

  function Put(p: Pipe, ms: seq<Msg>): Pipe {
    p.(write := p.write + ms)
  }

  function PutKeepAlive(p: Pipe, m: Msg): Pipe {
    p.(keepAlive := p.keepAlive + [m])
  }

  function Send(p: Pipe): Pipe
    requires p.write != []
  {
    p.(write := p.write[1..], wire := p.wire + [p.write[0]])
  }

  function SendKeepAlive(p: Pipe): Pipe
    requires p.keepAlive != []
  {
    p.(keepAlive := p.keepAlive[1..], wire := p.wire + [p.keepAlive[0]])
  }

  function Receive(p: Pipe): Pipe
    requires p.wire != []
  {
    p.(wire := p.wire[1..], frames := p.frames + [p.wire[0]])
  }

  function Pop(p: Pipe): Pipe
    requires p.frames != []
  {
    p.(frames := p.frames[1..])
  }

  // ---- picking out the messages about one call or one stream ----

  datatype Sel = Calls(id: int) | Orders(oid: int) | Replies(rid: int) | Stream(ch: nat)

  predicate Matches(sel: Sel, m: Msg) {
    match sel
    case Calls(id) => m.Call? && m.callId == Some(id)
    case Orders(id) => (m.Call? && m.callId == Some(id)) || m == Cancel(id)
    case Replies(id) => m.Reply? && m.id == id
    case Stream(ch) =>
      || (m.Reply? && m.body.Chan? && m.body.ch == ch)
      || (m.ChanValue? && m.ch == ch)
      || (m.ChanClose? && m.ch == ch)
  }

  function Pick(q: seq<Msg>, sel: Sel): seq<Msg> {
    if q == [] then []
    else (if Matches(sel, q[0]) then [q[0]] else []) + Pick(q[1..], sel)
  }

  lemma {:induction false} PickConcat(a: seq<Msg>, b: seq<Msg>, sel: Sel)
    ensures Pick(a + b, sel) == Pick(a, sel) + Pick(b, sel)
  {
    if a == [] {
      assert a + b == b;
    } else {
      assert (a + b)[1..] == a[1..] + b;
      PickConcat(a[1..], b, sel);
      var head := if Matches(sel, a[0]) then [a[0]] else [];
      Assoc(head, Pick(a[1..], sel), Pick(b, sel));
    }
  }

  /** Everything selected that has left the sending goroutine and not yet been handled, oldest first. */
  function InTransit(p: Pipe, sel: Sel): seq<Msg> {
    Pick(p.frames, sel) + Pick(p.wire, sel) + Pick(p.write, sel)
  }

  /** The message is somewhere between the two endpoints. */
  predicate Carries(p: Pipe, m: Msg) {
    m in p.frames || m in p.wire || m in p.write
  }

  predicate KeepAlivesOnly(p: Pipe) {
    forall m :: m in p.keepAlive ==> m.Ping? || m.Pong?
  }

  lemma PutAdds(p: Pipe, ms: seq<Msg>, sel: Sel)
    ensures InTransit(Put(p, ms), sel) == InTransit(p, sel) + Pick(ms, sel)
  {
    PickConcat(p.write, ms, sel);
  }

  lemma PickHead(q: seq<Msg>, sel: Sel)
    requires q != []
    ensures Pick(q, sel) == Pick([q[0]], sel) + Pick(q[1..], sel)
  {
    assert q == [q[0]] + q[1..];
    PickConcat([q[0]], q[1..], sel);
  }

  lemma Assoc(a: seq<Msg>, b: seq<Msg>, c: seq<Msg>)
    ensures (a + b) + c == a + (b + c)
  {
  }

  lemma SendKeeps(p: Pipe, sel: Sel)
    requires p.write != []
    ensures InTransit(Send(p), sel) == InTransit(p, sel)
  {
    var m := [p.write[0]];
    PickConcat(p.wire, m, sel);
    PickHead(p.write, sel);
    Assoc(Pick(p.wire, sel), Pick(m, sel), Pick(p.write[1..], sel));
    Assoc(Pick(p.frames, sel), Pick(p.wire, sel), Pick(p.write, sel));
    Assoc(Pick(p.frames, sel), Pick(p.wire + m, sel), Pick(p.write[1..], sel));
  }

  /** Pings and pongs overtake queued messages without disturbing the order of the others. */
  lemma SendKeepAliveKeeps(p: Pipe, sel: Sel)
    requires p.keepAlive != [] && KeepAlivesOnly(p)
    ensures InTransit(SendKeepAlive(p), sel) == InTransit(p, sel)
  {
    PickConcat(p.wire, [p.keepAlive[0]], sel);
    assert p.keepAlive[0] in p.keepAlive;
  }

  lemma ReceiveKeeps(p: Pipe, sel: Sel)
    requires p.wire != []
    ensures InTransit(Receive(p), sel) == InTransit(p, sel)
  {
    var m := [p.wire[0]];
    PickConcat(p.frames, m, sel);
    PickHead(p.wire, sel);
    Assoc(Pick(p.frames, sel), Pick(m, sel), Pick(p.wire[1..], sel));
  }

  lemma PopTakes(p: Pipe, sel: Sel)
    requires p.frames != []
    ensures InTransit(p, sel) == Pick([p.frames[0]], sel) + InTransit(Pop(p), sel)
  {
    PickHead(p.frames, sel);
    Assoc(Pick([p.frames[0]], sel), Pick(p.frames[1..], sel), Pick(p.wire, sel));
    Assoc(Pick([p.frames[0]], sel), Pick(p.frames[1..], sel) + Pick(p.wire, sel), Pick(p.write, sel));
  }

  /** The values of one stream that are still under way, oldest first. */
  function Values(q: seq<Msg>, ch: nat): seq<Raw> {
    if q == [] then []
    else (if q[0].ChanValue? && q[0].ch == ch then [q[0].v] else []) + Values(q[1..], ch)
  }

  lemma {:induction false} ValuesConcat(a: seq<Msg>, b: seq<Msg>, ch: nat)
    ensures Values(a + b, ch) == Values(a, ch) + Values(b, ch)
  {
    if a == [] {
      assert a + b == b;
    } else {
      assert (a + b)[1..] == a[1..] + b;
      ValuesConcat(a[1..], b, ch);
    }
  }

  lemma {:induction false} ValuesOfPick(q: seq<Msg>, ch: nat)
    ensures Values(Pick(q, Stream(ch)), ch) == Values(q, ch)
  {
    if q != [] {
      ValuesOfPick(q[1..], ch);
      var head := if Matches(Stream(ch), q[0]) then [q[0]] else [];
      ValuesConcat(head, Pick(q[1..], Stream(ch)), ch);
    }
  }
}
