/**
 One call of a client RPC function: id allocation, parameter encoding, the retry loop
 and the results handed back (jsonrpc/client.go:433-563).
 */
module RpcCall {
  import opened Basics
  import opened Wire
  import Decimal
  import B = Backoff
  import C = ClientConn
  import E = Engine

  /** Positions of value and error among the results; -1 when there is none. */
  datatype RpcFunc = RpcFunc(name: string, hasCtx: bool, valOut: int, errOut: int, stream: bool, retry: bool)

  datatype Arg = Arg(typ: string, v: Raw)

  type Encoders = map<string, Raw -> Option<Raw>>

  /** What one sending of the request ends in. */
  datatype Sending = NotSent(why: string) | Got(id: int, body: Body)

  datatype Err = ClientErr(why: string) | ServerErr(e: RespError)

  /** A value handed back: the zero value, a decoded text, or the channel made for an attempt's stream. */
  datatype Ret = Zero | Decoded(text: Raw) | Channel(attempt: nat)

  /** The value result and the error result, each only when the function has one. */
  datatype Results = Results(val: Option<Ret>, err: Option<Option<Err>>)

  datatype Outcome = Done(results: Results) | StillRetrying

  function ProcessError(fn: RpcFunc, why: string): Results {
    Results(if fn.valOut != -1 then Some(Zero) else None,
            if fn.errOut != -1 then Some(Some(ClientErr(why))) else None)
  }

  function ProcessResponse(fn: RpcFunc, body: Body, val: Ret): Results {
    Results(if fn.valOut != -1 then Some(val) else None,
            if fn.errOut != -1 then Some(if body.error.Some? then Some(ServerErr(body.error.value)) else None) else None)
  }

  function ResultText(body: Body): Option<Raw> {
    match body
    case Value(raw, _) => Some(raw)
    case Chan(ch, _) => Some(Decimal.Digits(ch))
    case _ => None
  }

  // ---- what the loop is for ----

  /** The response holds a result that the function's value cannot be decoded from. */
  predicate Undecodable(fn: RpcFunc, decodes: Raw -> bool, body: Body) {
    fn.valOut != -1 && !fn.stream &&
    match body
    case Value(raw, _) => !decodes(raw)
    case Chan(ch, _) => !decodes(Decimal.Digits(ch))
    case Empty(_) => false
  }

  /** The attempt ended in connection loss and the function is marked for retry. */
  predicate Retried(fn: RpcFunc, id: int, decodes: Raw -> bool, a: Sending) {
    a.Got? && a.id == id && !Undecodable(fn, decodes, a.body) && E.Lost(a.body) && fn.retry
  }

  predicate Announces(a: Sending) {
    a.Got? && a.body.Chan?
  }

  /** The channel of the last attempt whose response announced a stream. */
  function LastChannel(endings: seq<Sending>): Ret {
    if endings == [] then Zero
    else
      var a := endings[|endings| - 1];
      if Announces(a) then Channel(|endings| - 1) else LastChannel(endings[..|endings| - 1])
  }

  /** The results of an attempt that is the last one made, given the channel of a stream. */
  function ResultsOf(fn: RpcFunc, id: int, decodes: Raw -> bool, a: Sending, channel: Ret): Results {
    match a
    case NotSent(why) => ProcessError(fn, why)
    case Got(rid, body) =>
      if rid != id then ProcessError(fn, "request and response id didn't match")
      else if Undecodable(fn, decodes, body) then ProcessError(fn, "unmarshaling result")
      else ProcessResponse(fn, body,
                           if fn.stream then channel
                           else if ResultText(body).Some? then Decoded(ResultText(body).value) else Zero)
  }

  /** The results when the last of these attempts is the last one made. */
  function Final(fn: RpcFunc, id: int, decodes: Raw -> bool, endings: seq<Sending>): Results
    requires endings != []
  {
    ResultsOf(fn, id, decodes, endings[|endings| - 1], LastChannel(endings))
  }

  lemma {:induction false} LastChannelIs(endings: seq<Sending>)
    ensures match LastChannel(endings)
            case Channel(k) => k < |endings| && Announces(endings[k]) && forall j :: k < j < |endings| ==> !Announces(endings[j])
            case Zero => forall j :: 0 <= j < |endings| ==> !Announces(endings[j])
            case Decoded(_) => false
  {
    if endings != [] && !Announces(endings[|endings| - 1]) { LastChannelIs(endings[..|endings| - 1]); }
  }

  predicate FailsWith(res: Results, why: string) {
    (res.err.Some? ==> res.err.value == Some(ClientErr(why))) && (res.val.Some? ==> res.val.value == Zero)
  }

  /**
   What the results say of the last attempt. A request not sent, an answer with another id
   and a result that does not decode are client errors. Any other answer gives the server's
   error, if it has one, and, unless a stream is expected, its result or nothing.
   */
  predicate Tells(fn: RpcFunc, id: int, decodes: Raw -> bool, last: Sending, res: Results) {
    && (res.val.Some? <==> fn.valOut != -1) && (res.err.Some? <==> fn.errOut != -1)
    && (last.NotSent? ==> FailsWith(res, last.why))
    && (last.Got? && last.id != id ==> FailsWith(res, "request and response id didn't match"))
    && (last.Got? && last.id == id && Undecodable(fn, decodes, last.body) ==> FailsWith(res, "unmarshaling result"))
    && (last.Got? && last.id == id && last.body.Value? && fn.valOut != -1 && !fn.stream && !decodes(last.body.raw) ==>
          FailsWith(res, "unmarshaling result"))
    && (last.Got? && last.id == id && !Undecodable(fn, decodes, last.body) ==>
          && (fn.errOut != -1 && last.body.error.Some? ==> res.err.value == Some(ServerErr(last.body.error.value)))
          && (fn.errOut != -1 && last.body.error.None? ==> res.err.value == None)
          && (fn.valOut != -1 && !fn.stream ==> match last.body
                case Value(raw, _) => res.val.value == Decoded(raw)
                case Chan(ch, _) => res.val.value == Decoded(Decimal.Digits(ch))
                case Empty(_) => res.val.value == Zero))
  }

  lemma ResultsTell(fn: RpcFunc, id: int, decodes: Raw -> bool, a: Sending, channel: Ret)
    ensures Tells(fn, id, decodes, a, ResultsOf(fn, id, decodes, a, channel))
  {
  }

  /** A finished call's results tell of its last attempt, and a stream's channel is the last one announced. */
  lemma FinalIs(fn: RpcFunc, id: int, decodes: Raw -> bool, endings: seq<Sending>)
    requires endings != []
    ensures var res := Final(fn, id, decodes, endings);
            var last := endings[|endings| - 1];
            && Tells(fn, id, decodes, last, res)
            && (fn.valOut != -1 && fn.stream && last.Got? && last.id == id ==> match res.val.value
                  case Channel(k) => k < |endings| && Announces(endings[k]) && forall j :: k < j < |endings| ==> !Announces(endings[j])
                  case Zero => forall j :: 0 <= j < |endings| ==> !Announces(endings[j])
                  case Decoded(_) => false)
  {
    ResultsTell(fn, id, decodes, endings[|endings| - 1], LastChannel(endings));
    LastChannelIs(endings);
  }

  /**
   The caller of the two-endpoint system decides as this loop does; the loop alone also
   stops at a result it cannot decode, which a lost connection does not carry.
   */
  lemma SameDecision(fn: RpcFunc, decodes: Raw -> bool, c: E.ClientCall, x: int, a: C.Answer)
    requires c.retry == fn.retry
    ensures Retried(fn, x, decodes, Got(a.id, a.body))
       <==> E.AfterResponse(c, x, a).Backoff? && !Undecodable(fn, decodes, a.body)
    ensures E.AfterResponse(c, x, a).Failed? <==> a.id != x
    ensures a.body == C.CONNECTION_LOST ==> !Undecodable(fn, decodes, a.body)
  {
  }

  function FullName(namespace: string, name: string): string {
    if namespace == "" then name else namespace + "." + name
  }

  function EncodeAll(encoders: Encoders, args: seq<Arg>): Option<seq<Raw>> {
    if args == [] then Some([])
    else
      var first := if args[0].typ in encoders then encoders[args[0].typ](args[0].v) else Some(args[0].v);
      if first.None? then None
      else match EncodeAll(encoders, args[1..])
        case None => None
        case Some(rest) => Some([first.value] + rest)
  }

  function Encoded(encoders: Encoders, arg: Arg): Option<Raw> {
    if arg.typ in encoders then encoders[arg.typ](arg.v) else Some(arg.v)
  }

  /** Encoding succeeds exactly when each argument encodes, and puts each one in its place. */
  lemma {:induction false} EncodeAllPointwise(encoders: Encoders, args: seq<Arg>)
    ensures EncodeAll(encoders, args).Some? <==> forall i :: 0 <= i < |args| ==> Encoded(encoders, args[i]).Some?
    ensures EncodeAll(encoders, args).Some? ==>
      var out := EncodeAll(encoders, args).value;
      |out| == |args| && forall i :: 0 <= i < |args| ==> Encoded(encoders, args[i]) == Some(out[i])
  {
    if args != [] {
      EncodeAllPointwise(encoders, args[1..]);
      if EncodeAll(encoders, args[1..]).None? {
        var i :| 0 <= i < |args[1..]| && Encoded(encoders, args[1..][i]).None?;
        assert Encoded(encoders, args[i + 1]).None?;
      } else {
        assert forall i :: 0 < i < |args| ==> args[i] == args[1..][i - 1];
      }
    }
  }

  function After(out: seq<Raw>, rest: Option<seq<Raw>>): Option<seq<Raw>> {
    if rest.None? then None else Some(out + rest.value)
  }

  lemma AfterStep(out: seq<Raw>, arg: Raw, rest: Option<seq<Raw>>)
    ensures After(out + [arg], rest) == After(out, After([arg], rest))
    ensures After([], rest) == rest
  {
    if rest.Some? {
      assert out + [arg] + rest.value == out + ([arg] + rest.value);
      assert [] + rest.value == rest.value;
    }
  }

  /** The back-off of this attempt; for the first 63 it lies within the bounds. */
  predicate PauseIs(pause: int, attempt: nat, jitter: real, overflow: int) {
    && pause == B.Next(B.METHOD_RETRY, attempt, jitter, overflow)
    && (attempt <= 62 ==> B.Within(B.METHOD_RETRY, pause))
  }

  lemma PauseWithin(attempt: nat, jitter: real, overflow: int)
    requires 0.0 <= jitter < 1.0
    ensures PauseIs(B.Next(B.METHOD_RETRY, attempt, jitter, overflow), attempt, jitter, overflow)
  {
    B.MethodRetryExact(attempt);
  }

  // ---- one sending of a request ----

  /** What the waiting select picks: the response, or the context's end, when the loop takes the cancel or not. */
  datatype Wake = Answered(a: C.Answer) | ContextDone(taken: bool)

  function FirstAnswer(wakes: seq<Wake>): Option<Sending> {
    if wakes == [] then None
    else if wakes[0].Answered? then Some(Got(wakes[0].a.id, wakes[0].a.body))
    else FirstAnswer(wakes[1..])
  }

  function CancelRequest(id: int): Request {
    Request("2.0", None, CANCEL, [Decimal.IntText(id)], map[])
  }

  /** The context ended before the answer, and the loop took the cancel then offered. */
  predicate CancelTaken(wakes: seq<Wake>) {
    wakes != [] && wakes[0].ContextDone? && wakes[0].taken
  }

  class RpcClient {
    var namespace: string
    var idCtr: nat
    var encoders: Encoders

    constructor (namespace: string, encoders: Encoders)
      ensures idCtr == 0
    {
      this.namespace, this.encoders, idCtr := namespace, encoders, 0;
    }

    /** The context is not sent; the other arguments are, each through its encoder if it has one. */
    method EncodeParams(fn: RpcFunc, args: seq<Arg>) returns (params: Option<seq<Raw>>)
      requires fn.hasCtx ==> args != []
      ensures params == EncodeAll(encoders, if fn.hasCtx then args[1..] else args)
    {
      var sent := if fn.hasCtx then args[1..] else args;
      var out: seq<Raw> := [];
      var i := 0;
      assert sent[0..] == sent;
      AfterStep([], "", EncodeAll(encoders, sent));
      while i < |sent|
        invariant 0 <= i <= |sent|
        invariant EncodeAll(encoders, sent) == After(out, EncodeAll(encoders, sent[i..]))
      {
        assert sent[i..][0] == sent[i] && sent[i..][1..] == sent[i + 1..];
        var arg := sent[i].v;
        if sent[i].typ in encoders {
          var enc := encoders[sent[i].typ](arg);
          if enc.None? { return None; }
          arg := enc.value;
        }
        AfterStep(out, arg, EncodeAll(encoders, sent[i + 1..]));
        out := out + [arg];
        i := i + 1;
      }
      assert sent[i..] == [] && out + [] == out;
      params := Some(out);
    }

    /**
     One sending. A request the loop did not take is not answered and not cancelled. One it
     took is answered by the first response, however often its context's end is seen, and
     at most one cancel follows it: for its own id, at the first sight of that end.
     */
    static method DoRequest(req: Request, taken: bool, wakes: seq<Wake>)
      returns (sent: seq<Request>, ending: Option<Sending>, ghost at: nat)
      requires req.id.Some?
      ensures !taken ==> sent == [] && ending == Some(NotSent("websocket routine exiting"))
      ensures taken ==> sent != [] && sent[0] == req && ending == FirstAnswer(wakes)
      ensures taken && ending.None? ==> forall j :: 0 <= j < |wakes| ==> wakes[j].ContextDone?
      ensures taken && ending.Some? ==>
        && at < |wakes| && wakes[at].Answered? && ending == Some(Got(wakes[at].a.id, wakes[at].a.body))
        && forall j :: 0 <= j < at ==> wakes[j].ContextDone?
      ensures taken ==> |sent| == 1 + Bit(wakes != [] && wakes[0].ContextDone? && wakes[0].taken)
      ensures |sent| == 2 ==> sent[1].id == None && EncodeRequest(sent[1]) == Pack(Cancel(req.id.value))
    {
      if !taken { return [], Some(NotSent("websocket routine exiting")), 0; }
      sent := [req];
      var ctxDone := true;
      var k := 0;
      while k < |wakes|
        invariant 0 <= k <= |wakes| && FirstAnswer(wakes[k..]) == FirstAnswer(wakes)
        invariant ctxDone <==> k == 0
        invariant forall j :: 0 <= j < k ==> wakes[j].ContextDone?
        invariant sent == [req] + if k > 0 && CancelTaken(wakes) then [CancelRequest(req.id.value)] else []
      {
        assert wakes[k..][0] == wakes[k] && wakes[k..][1..] == wakes[k + 1..];
        match wakes[k] {
          case Answered(a) => return sent, Some(Got(a.id, a.body)), k;
          case ContextDone(ok) =>
            if ctxDone && ok { sent := sent + [CancelRequest(req.id.value)]; }
            ctxDone := false;
        }
        k := k + 1;
      }
      assert wakes[k..] == [];
      ending, at := None, k;
    }

    /** What one attempt ends in: the call's results, or none when it is to be tried again. */
    static method Digest(fn: RpcFunc, id: int, decodes: Raw -> bool, resp: Sending, attempt: nat, channel: Ret)
      returns (results: Option<Results>, retVal: Ret)
      ensures fn.stream ==> retVal == if Announces(resp) && resp.id == id then Channel(attempt) else channel
      ensures results.None? <==> Retried(fn, id, decodes, resp)
      ensures results.Some? ==> results.value == ResultsOf(fn, id, decodes, resp, retVal)
    {
      retVal := channel;
      if resp.NotSent? { return Some(ProcessError(fn, resp.why)), retVal; }
      if resp.id != id { return Some(ProcessError(fn, "request and response id didn't match")), retVal; }
      if fn.stream && resp.body.Chan? { retVal := Channel(attempt); }
      if fn.valOut != -1 && !fn.stream {
        retVal := Zero;
        var text := ResultText(resp.body);
        if text.Some? {
          if !decodes(text.value) { return Some(ProcessError(fn, "unmarshaling result")), retVal; }
          retVal := Decoded(text.value);
        }
      }
      var retry := resp.body.error.Some? && resp.body.error.value.code == 2 && fn.retry;
      results := if retry then None else Some(ProcessResponse(fn, resp.body, retVal));
    }

    /**
     One call. The attempts' endings are given; the call uses as many as it needs.
     Every call takes a new id and sends the same request each time; it goes on exactly
     while a marked call's attempts end in connection loss, and returns the results of the
     first attempt that does not. The pauses lie within the back-off bounds for the first
     63 attempts.
     */
    method HandleRpcCall(fn: RpcFunc, args: seq<Arg>, endings: seq<Sending>, decodes: Raw -> bool,
                         jitter: nat -> real, overflow: int)
      returns (sent: seq<Request>, pauses: seq<int>, outcome: Outcome)
      requires fn.hasCtx ==> args != []
      requires forall k :: 0.0 <= jitter(k) < 1.0
      modifies this`idCtr
      ensures idCtr == old(idCtr) + 1
      ensures |sent| <= |endings|
      ensures var params := EncodeAll(encoders, if fn.hasCtx then args[1..] else args);
              && (params.None? ==> sent == [] && outcome == Done(ProcessError(fn, "sendRequest failed")))
              && (sent != [] ==> params.Some?)
              && forall k :: 0 <= k < |sent| ==>
                   sent[k] == Request("2.0", Some(idCtr), if namespace == "" then fn.name else namespace + "." + fn.name,
                                      params.value, map[])
      ensures forall k :: 0 <= k < |sent| - 1 ==> Retried(fn, idCtr, decodes, endings[k])
      ensures outcome.Done? && sent != [] ==>
        && !Retried(fn, idCtr, decodes, endings[|sent| - 1])
        && outcome.results == Final(fn, idCtr, decodes, endings[..|sent|])
      ensures outcome.Done? && sent != [] ==>
        && Tells(fn, idCtr, decodes, endings[|sent| - 1], outcome.results)
        && (fn.stream && fn.valOut != -1 && Announces(endings[|sent| - 1]) && endings[|sent| - 1].id == idCtr ==>
              outcome.results.val == Some(Channel(|sent| - 1)))
      ensures outcome.Done? && sent == [] ==>
        EncodeAll(encoders, if fn.hasCtx then args[1..] else args).None?
      ensures outcome.StillRetrying? ==>
        |sent| == |endings| && forall k :: 0 <= k < |sent| ==> Retried(fn, idCtr, decodes, endings[k])
      ensures !fn.retry ==> |sent| <= 1
      ensures |pauses| == if outcome.StillRetrying? || sent == [] then |sent| else |sent| - 1
      ensures forall k :: 0 <= k < |pauses| ==> PauseIs(pauses[k], k, jitter(k), overflow)
    {
      idCtr := idCtr + 1;
      sent, pauses := [], [];
      var params := EncodeParams(fn, args);
      if params.None? { return sent, pauses, Done(ProcessError(fn, "sendRequest failed")); }
      var name := FullName(namespace, fn.name);
      var req := Request("2.0", Some(idCtr), name, params.value, map[]);

      var retVal := Zero;
      var attempt := 0;
      while attempt < |endings|
        invariant 0 <= attempt <= |endings| && idCtr == old(idCtr) + 1
        invariant |sent| == attempt == |pauses| && (attempt > 0 ==> fn.retry)
        invariant forall k :: 0 <= k < attempt ==> sent[k] == req && Retried(fn, idCtr, decodes, endings[k])
        invariant fn.stream ==> retVal == LastChannel(endings[..attempt])
        invariant forall k :: 0 <= k < attempt ==> PauseIs(pauses[k], k, jitter(k), overflow)
      {
        sent := sent + [req];
        assert endings[..attempt + 1][..attempt] == endings[..attempt];
        var results;
        results, retVal := Digest(fn, idCtr, decodes, endings[attempt], attempt, retVal);
        if results.Some? {
          ResultsTell(fn, idCtr, decodes, endings[attempt], LastChannel(endings[..attempt + 1]));
          return sent, pauses, Done(results.value);
        }
        PauseWithin(attempt, jitter(attempt), overflow);
        pauses := pauses + [B.Next(B.METHOD_RETRY, attempt, jitter(attempt), overflow)];
        attempt := attempt + 1;
      }
      outcome := StillRetrying;
    }
  }
}
