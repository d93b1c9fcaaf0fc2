/**
 The message layer: requests, responses and the frame both are read back as
 (jsonrpc/websocket.go, jsonrpc/handler.go, jsonrpc/util.go).

 A raw JSON value is its text. A message on the wire is a JSON object, that is,
 a map from field name to value; optional fields are absent when they are empty.
 */
module Wire {
  import opened Basics
  import opened Decimal

  type Raw = string

  datatype RespError = RespError(code: int, message: string)

  datatype Request = Request(
    jsonrpc: string, id: Option<int>, name: string, params: seq<Raw>, meta: map<string, string>)

  datatype Response = Response(
    jsonrpc: string, result: Option<Raw>, id: int, error: Option<RespError>)

  datatype Frame = Frame(
    jsonrpc: string, id: Option<int>, meta: map<string, string>,
    name: string, params: seq<Raw>,
    result: Option<Raw>, error: Option<RespError>)

  datatype Field =
    | Text(s: string)
    | Number(i: int)
    | List(items: seq<Raw>)
    | Strings(m: map<string, string>)
    | RawValue(raw: Raw)
    | ErrorValue(e: RespError)

  type Object = map<string, Field>

  const CANCEL := "xrpc.cancel"
  const CH_VALUE := "xrpc.ch.val"
  const CH_CLOSE := "xrpc.ch.close"
  const PING := "xrpc.ping"
  const PONG := "xrpc.pong"

  predicate Builtin(name: string) {
    name in {CANCEL, CH_VALUE, CH_CLOSE, PING, PONG}
  }

  // ---- encoding and decoding ----

  function EncodeRequest(r: Request): Object {
    map["jsonrpc" := Text(r.jsonrpc), "method" := Text(r.name), "params" := List(r.params)]
    + (if r.id.Some? then map["id" := Number(r.id.value)] else map[])
    + (if r.meta != map[] then map["meta" := Strings(r.meta)] else map[])
  }

  function EncodeResponse(r: Response): Object {
    map["jsonrpc" := Text(r.jsonrpc), "id" := Number(r.id)]
    + (if r.result.Some? then map["result" := RawValue(r.result.value)] else map[])
    + (if r.error.Some? then map["error" := ErrorValue(r.error.value)] else map[])
  }

  /** A field of the wrong shape, or an id that does not fit in an int64, makes the whole message unreadable. */
  predicate WellTyped(o: Object) {
    && ("jsonrpc" in o ==> o["jsonrpc"].Text?)
    && ("id" in o ==> o["id"].Number? && IsInt64(o["id"].i))
    && ("meta" in o ==> o["meta"].Strings?)
    && ("method" in o ==> o["method"].Text?)
    && ("params" in o ==> o["params"].List?)
    && ("result" in o ==> o["result"].RawValue?)
    && ("error" in o ==> o["error"].ErrorValue?)
  }

  function DecodeFrame(o: Object): Option<Frame> {
    if !WellTyped(o) then None else Some(Frame(
      if "jsonrpc" in o then o["jsonrpc"].s else "",
      if "id" in o then Some(o["id"].i) else None,
      if "meta" in o then o["meta"].m else map[],
      if "method" in o then o["method"].s else "",
      if "params" in o then o["params"].items else [],
      if "result" in o then Some(o["result"].raw) else None,
      if "error" in o then Some(o["error"].e) else None))
  }

  /** An id is one the Go types can hold. */
  predicate IdFits(id: Option<int>) {
    id.Some? ==> IsInt64(id.value)
  }

  lemma RequestRoundTrip(r: Request)
    ensures DecodeFrame(EncodeRequest(r))
         == if IdFits(r.id) then Some(Frame(r.jsonrpc, r.id, r.meta, r.name, r.params, None, None)) else None
  {
  }

  lemma ResponseRoundTrip(r: Response)
    ensures DecodeFrame(EncodeResponse(r))
         == if IsInt64(r.id) then Some(Frame(r.jsonrpc, Some(r.id), map[], "", [], r.result, r.error)) else None
  {
  }

  /** The fields of a request: its id and meta only when there is one, the rest always. */
  lemma RequestFields(r: Request)
    ensures var o := EncodeRequest(r);
            && o.Keys == {"jsonrpc", "method", "params"}
                 + (if r.id.Some? then {"id"} else {}) + (if r.meta != map[] then {"meta"} else {})
            && o["jsonrpc"] == Text(r.jsonrpc) && o["method"] == Text(r.name) && o["params"] == List(r.params)
            && (r.id.Some? ==> o["id"] == Number(r.id.value))
            && (r.meta != map[] ==> o["meta"] == Strings(r.meta))
  {
  }

  /** The fields of a response: its id always, its result and error only when there is one. */
  lemma ResponseFields(r: Response)
    ensures var o := EncodeResponse(r);
            && o.Keys == {"jsonrpc", "id"}
                 + (if r.result.Some? then {"result"} else {}) + (if r.error.Some? then {"error"} else {})
            && o["jsonrpc"] == Text(r.jsonrpc) && o["id"] == Number(r.id)
            && (r.result.Some? ==> o["result"] == RawValue(r.result.value))
            && (r.error.Some? ==> o["error"] == ErrorValue(r.error.value))
  {
  }

  // ---- routing ----

  datatype Route = ToResponse | ToCancel | ToPing | ToPong | ToChanValue | ToChanClose | ToCall

  function RouteOf(f: Frame): Route {
    if f.name == "" then ToResponse
    else if f.name == CANCEL then ToCancel
    else if f.name == PING then ToPing
    else if f.name == PONG then ToPong
    else if f.name == CH_VALUE then ToChanValue
    else if f.name == CH_CLOSE then ToChanClose
    else ToCall
  }

  // ---- the messages the two endpoints exchange ----

  /** What a response says: a plain value, nothing, or the id of a stream; and perhaps an error. */
  datatype Body =
    | Value(raw: Raw, error: Option<RespError>)
    | Empty(error: Option<RespError>)
    | Chan(ch: nat, error: Option<RespError>)

  function Failure(err: RespError): Body {
    Empty(Some(err))
  }

  datatype Msg =
    | Reply(id: int, body: Body)
    | Cancel(id: int)
    | Ping(at: Raw)
    | Pong(at: Raw)
    | ChanValue(ch: nat, v: Raw)
    | ChanClose(ch: nat)
    | Call(callId: Option<int>, name: string, params: seq<Raw>)

  function Notify(name: string, params: seq<Raw>): Object {
    EncodeRequest(Request("2.0", None, name, params, map[]))
  }

  function ResponseOf(id: int, body: Body): Response {
    match body
    case Value(raw, e) => Response("2.0", Some(raw), id, e)
    case Empty(e) => Response("2.0", None, id, e)
    case Chan(ch, e) => Response("2.0", Some(Digits(ch)), id, e)
  }

  function Pack(m: Msg): Object {
    match m
    case Reply(id, body) => EncodeResponse(ResponseOf(id, body))
    case Cancel(id) => Notify(CANCEL, [IntText(id)])
    case Ping(at) => Notify(PING, [at])
    case Pong(at) => Notify(PONG, [at])
    case ChanValue(ch, v) => Notify(CH_VALUE, [Digits(ch), v])
    case ChanClose(ch) => Notify(CH_CLOSE, [Digits(ch)])
    case Call(id, name, params) => EncodeRequest(Request("2.0", id, name, params, map[]))
  }

  /** How a response body reads to a caller that does (or does not) expect a stream. */
  function BodyOf(f: Frame, stream: bool): Body {
    if f.result.None? then Empty(f.error)
    else match if stream then ReadNat(f.result.value) else None
      case None => Value(f.result.value, f.error)
      case Some(ch) => Chan(ch, f.error)
  }

  /** Reads a frame the way the handler it is routed to does; None when that handler gives up. */
  function Unpack(f: Frame, streams: set<int>): Option<Msg> {
    match RouteOf(f)
    case ToResponse =>
      if f.id.None? then None else Some(Reply(f.id.value, BodyOf(f, f.id.value in streams)))
    case ToCancel =>
      if |f.params| < 1 then None
      else (match ReadInt(f.params[0])
        case None => None
        case Some(id) => Some(Cancel(id)))
    case ToPing => if |f.params| < 1 then None else Some(Ping(f.params[0]))
    case ToPong => if |f.params| < 1 then None else Some(Pong(f.params[0]))
    case ToChanValue =>
      if |f.params| < 2 then None
      else (match ReadNat(f.params[0])
        case None => None
        case Some(ch) => Some(ChanValue(ch, f.params[1])))
    case ToChanClose =>
      if |f.params| < 1 then None
      else (match ReadNat(f.params[0])
        case None => None
        case Some(ch) => Some(ChanClose(ch)))
    case ToCall => Some(Call(f.id, f.name, f.params))
  }

  /** Read a whole message: decode the object, then route the frame. */
  function Read(o: Object, streams: set<int>): Option<Msg> {
    match DecodeFrame(o)
    case None => None
    case Some(f) => Unpack(f, streams)
  }

  /** The caller of each id expects what the response holds: a stream id, or a value that is none. */
  predicate Agrees(m: Msg, streams: set<int>) {
    m.Reply? ==>
      && (m.body.Chan? ==> m.id in streams)
      && (m.body.Value? && m.id in streams ==> ReadNat(m.body.raw).None?)
  }

  /** Its call id fits in an int64, its stream id in a uint64. */
  predicate Fits(m: Msg) {
    match m
    case Reply(id, body) => IsInt64(id) && (body.Chan? ==> IsUint64(body.ch))
    case Cancel(id) => IsInt64(id)
    case ChanValue(ch, _) => IsUint64(ch)
    case ChanClose(ch) => IsUint64(ch)
    case Call(id, _, _) => IdFits(id)
    case _ => true
  }

  /**
   Every message comes back from the wire as itself, with its id, method, parameters,
   result and error intact, exactly when its ids fit and it is not a call whose method
   name is empty (taken for a response) or reserved (taken for a builtin).
   */
  lemma ReadBack(m: Msg, streams: set<int>)
    requires Agrees(m, streams)
    ensures Read(Pack(m), streams) == Some(m)
       <==> Fits(m) && (m.Call? ==> m.name != "" && !Builtin(m.name))
  {
    if m.Reply? { ReadReply(m.id, m.body, streams); }
    else if m.Call? { ReadCall(m, streams); }
    else if m.Ping? || m.Pong? { ReadKeepAlive(m, streams); }
    else { ReadNumbered(m, streams); }
  }

  lemma ReadCall(m: Msg, streams: set<int>)
    requires m.Call?
    ensures Read(Pack(m), streams) == Some(m) <==> Fits(m) && m.name != "" && !Builtin(m.name)
  {
    RequestRoundTrip(Request("2.0", m.callId, m.name, m.params, map[]));
  }

  lemma ReadKeepAlive(m: Msg, streams: set<int>)
    requires m.Ping? || m.Pong?
    ensures Read(Pack(m), streams) == Some(m)
  {
    ReadNotify(if m.Ping? then PING else PONG, [m.at], streams);
  }

  lemma ReadNumbered(m: Msg, streams: set<int>)
    requires m.Cancel? || m.ChanValue? || m.ChanClose?
    ensures Read(Pack(m), streams) == Some(m) <==> Fits(m)
  {
    if m.Cancel? {
      ReadNotify(CANCEL, [IntText(m.id)], streams);
      ReadText(m.id);
    } else if m.ChanValue? {
      ReadNotify(CH_VALUE, [Digits(m.ch), m.v], streams);
      ReadText(m.ch);
    } else {
      ReadNotify(CH_CLOSE, [Digits(m.ch)], streams);
      ReadText(m.ch);
    }
  }

  lemma ReadReply(id: int, body: Body, streams: set<int>)
    requires Agrees(Reply(id, body), streams)
    ensures Read(Pack(Reply(id, body)), streams) == Some(Reply(id, body)) <==> Fits(Reply(id, body))
  {
    ResponseRoundTrip(ResponseOf(id, body));
    if body.Chan? { ReadText(body.ch); }
  }

  lemma ReadNotify(name: string, params: seq<Raw>, streams: set<int>)
    ensures Read(Notify(name, params), streams)
         == Unpack(Frame("2.0", None, map[], name, params, None, None), streams)
  {
    RequestRoundTrip(Request("2.0", None, name, params, map[]));
  }

  /**
   Routing on whole messages: a response object only ever reaches the response handler,
   and a request object reaches it exactly when its method name is empty. Objects whose id
   does not fit are unreadable.
   */
  lemma RoutesApart(q: Request, p: Response)
    ensures var f := DecodeFrame(EncodeResponse(p));
            (f.Some? <==> IsInt64(p.id)) && (f.Some? ==> RouteOf(f.value) == ToResponse)
    ensures var f := DecodeFrame(EncodeRequest(q));
            && (f.Some? <==> IdFits(q.id))
            && (f.Some? ==> (RouteOf(f.value) == ToResponse <==> q.name == ""))
            && (f.Some? ==> (RouteOf(f.value) == ToCall <==> q.name != "" && !Builtin(q.name)))
  {
    RequestRoundTrip(q);
    ResponseRoundTrip(p);
  }
}
