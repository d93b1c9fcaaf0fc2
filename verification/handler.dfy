/**
 The server's method table and the handling of one request
 (jsonrpc/handler.go, jsonrpc/server.go, processFuncOut in jsonrpc/util.go).
 */
module Handler {
  import opened Basics
  import opened Wire

  const PARSE_ERROR := -32700
  const METHOD_NOT_FOUND := -32601
  const INVALID_PARAMS := -32602

  const CONTEXT := "context.Context"
  const RECEIVER := "receiver"

  // ---- the method table ----

  datatype Out = ErrorType | ChanType | PlainType

  datatype Signature = Signature(name: string, ins: seq<string>, outs: seq<Out>)

  datatype Method = Method(
    name: string, hasCtx: bool, paramTypes: seq<string>, outs: seq<Out>, valOut: int, errOut: int)

  datatype Registry = Registry(methods: map<string, Method>, aliases: map<string, string>)

  /** Positions of the value and the error among a function's results; None when it panics. */
  function ProcessFuncOut(outs: seq<Out>): (pos: Option<(int, int)>)
    ensures pos.Some? <==> |outs| < 2 || (|outs| == 2 && outs[1].ErrorType?)
    ensures pos.Some? ==>
      && |outs| == Bit(pos.value.0 != -1) + Bit(pos.value.1 != -1)
      && (pos.value.0 == pos.value.1 ==> pos.value.0 == -1)
      && (pos.value.1 != -1 ==> 0 <= pos.value.1 < |outs| && outs[pos.value.1].ErrorType?)
      && (pos.value.0 != -1 ==> 0 <= pos.value.0 < |outs|)
      && (|outs| == 1 && pos.value.0 == 0 ==> !outs[0].ErrorType?)
  {
    match |outs|
    case 0 => Some((-1, -1))
    case 1 => if outs[0].ErrorType? then Some((-1, 0)) else Some((0, -1))
    case 2 => if outs[1].ErrorType? then Some((0, 1)) else None
    case _ => None
  }

  predicate HasCtx(sig: Signature) {
    sig.ins != [] && sig.ins[0] == CONTEXT
  }

  function MethodOf(sig: Signature): Option<Method> {
    match ProcessFuncOut(sig.outs)
    case None => None
    case Some(pos) =>
      Some(Method(sig.name, HasCtx(sig), if HasCtx(sig) then sig.ins[1..] else sig.ins,
                  sig.outs, pos.0, pos.1))
  }

  predicate IsStream(m: Method) {
    0 <= m.valOut < |m.outs| && m.outs[m.valOut].ChanType?
  }

  function Lookup(reg: Registry, name: string): Option<Method> {
    if name in reg.methods then Some(reg.methods[name])
    else if name in reg.aliases && reg.aliases[name] in reg.methods then Some(reg.methods[reg.aliases[name]])
    else None
  }

  /** The method a name stands for: the one registered under it, or else the target of its alias. */
  predicate Named(reg: Registry, name: string, m: Method) {
    || (name in reg.methods && reg.methods[name] == m)
    || (name !in reg.methods && name in reg.aliases
        && reg.aliases[name] in reg.methods && reg.methods[reg.aliases[name]] == m)
  }

  lemma LookupIs(reg: Registry, name: string)
    ensures forall m :: Lookup(reg, name) == Some(m) <==> Named(reg, name, m)
    ensures name in reg.methods ==> Lookup(reg, name) == Some(reg.methods[name])
    ensures name !in reg.methods && name in reg.aliases && reg.aliases[name] in reg.methods ==>
      Lookup(reg, name) == Some(reg.methods[reg.aliases[name]])
    ensures name !in reg.methods && !(name in reg.aliases && reg.aliases[name] in reg.methods) ==>
      Lookup(reg, name) == None
  {
  }

  /**
   A method's parameters are those after its context, if it takes one; its value is its
   first result unless that is its only one and an error, its error the last one if that is
   an error; it streams exactly when its first result is a channel.
   */
  lemma MethodOfIs(sig: Signature)
    requires MethodOf(sig).Some?
    ensures var m := MethodOf(sig).value;
            var ctx := sig.ins != [] && sig.ins[0] == CONTEXT;
            && m.name == sig.name && m.outs == sig.outs
            && m.hasCtx == ctx && sig.ins == (if ctx then [CONTEXT] else []) + m.paramTypes
            && (m.valOut == 0 <==> sig.outs != [] && sig.outs != [ErrorType])
            && (m.valOut != 0 ==> m.valOut == -1)
            && (m.errOut != -1 ==> m.errOut == |sig.outs| - 1 && sig.outs[m.errOut] == ErrorType)
            && (m.errOut == -1 ==> sig.outs == [] || (|sig.outs| == 1 && sig.outs[0] != ErrorType))
            && (IsStream(m) <==> sig.outs != [] && sig.outs[0] == ChanType)
  {
    if HasCtx(sig) { assert sig.ins == [CONTEXT] + sig.ins[1..]; }
    if |sig.outs| == 1 { assert sig.outs == [sig.outs[0]]; }
  }

  /** The table after registering in order; a signature processFuncOut panics on ends it. */
  function Registered(methods: map<string, Method>, namespace: string, sigs: seq<Signature>): map<string, Method>
    decreases |sigs|
  {
    if sigs == [] then methods
    else match MethodOf(sigs[0])
      case None => methods
      case Some(m) => Registered(methods[namespace + "." + sigs[0].name := m], namespace, sigs[1..])
  }

  /** Registration never removes an entry, and the last usable signature of a name is the one found. */
  lemma {:induction false} RegisteredLast(methods: map<string, Method>, namespace: string, sigs: seq<Signature>, i: nat)
    requires i < |sigs| && forall k :: 0 <= k < |sigs| ==> MethodOf(sigs[k]).Some?
    requires forall j :: i < j < |sigs| ==> sigs[j].name != sigs[i].name
    ensures var r := Registered(methods, namespace, sigs);
            var key := namespace + "." + sigs[i].name;
            key in r && Some(r[key]) == MethodOf(sigs[i])
    decreases |sigs|
  {
    var m := MethodOf(sigs[0]).value;
    var next := methods[namespace + "." + sigs[0].name := m];
    if i == 0 {
      RegisteredOther(next, namespace, sigs[1..], sigs[0].name);
    } else {
      RegisteredLast(next, namespace, sigs[1..], i - 1);
    }
  }

  lemma {:induction false} RegisteredOther(methods: map<string, Method>, namespace: string, sigs: seq<Signature>, name: string)
    requires forall j :: 0 <= j < |sigs| ==> sigs[j].name != name
    ensures var r := Registered(methods, namespace, sigs);
            var key := namespace + "." + name;
            (key in r <==> key in methods) && (key in r ==> r[key] == methods[key])
    decreases |sigs|
  {
    if sigs != [] && MethodOf(sigs[0]).Some? {
      var p := namespace + ".";
      assert (p + sigs[0].name)[|p|..] == sigs[0].name && (p + name)[|p|..] == name;
      RegisteredOther(methods[p + sigs[0].name := MethodOf(sigs[0]).value], namespace, sigs[1..], name);
    }
  }

  // ---- what the outside world decides ----

  datatype Decoded = Good(arg: string) | Bad(why: string)

  datatype CallResult = Panicked(why: string) | Returned(err: Option<string>, plain: Option<Raw>, source: nat)

  datatype Env = Env(decode: (string, Raw) -> Decoded, call: (string, seq<string>) -> CallResult)

  /** Channel support of the transport: none (HTTP), or the answer of handleChanOut. */
  datatype Chans = Unsupported | Accepts | Refuses(why: string)

  datatype Effect =
    | Invoke(name: string, args: seq<string>)
    | Write(resp: Response)
    | Delegate(source: nat, id: int)
    | Done(keep: bool)

  // ---- the specification of handle ----

  datatype End = Silent | Answer(resp: Response) | Register(source: nat, id: int)

  datatype Outcome = Outcome(calls: seq<Effect>, end: End, keep: bool)

  function ErrorEnd(req: Request, code: int, why: string): End {
    match req.id
    case None => Silent
    case Some(id) => Answer(Response("2.0", None, id, Some(RespError(code, why))))
  }

  datatype Decode = Args(args: seq<string>) | BadParam(why: string)

  function DecodeAll(env: Env, types: seq<string>, params: seq<Raw>): Decode
    requires |types| == |params|
  {
    if types == [] then Args([])
    else match env.decode(types[0], params[0])
      case Bad(why) => BadParam(why)
      case Good(arg) =>
        match DecodeAll(env, types[1..], params[1..])
        case BadParam(why) => BadParam(why)
        case Args(rest) => Args([arg] + rest)
  }

  function Prepend(args: seq<string>, d: Decode): Decode {
    if d.Args? then Args(args + d.args) else d
  }

  lemma PrependOne(args: seq<string>, arg: string, d: Decode)
    ensures Prepend(args + [arg], d) == Prepend(args, if d.Args? then Args([arg] + d.args) else d)
  {
    if d.Args? {
      assert args + [arg] + d.args == args + ([arg] + d.args);
    }
  }

  function CallParams(m: Method, args: seq<string>): seq<string> {
    [RECEIVER] + (if m.hasCtx then [CONTEXT] else []) + args
  }

  /** The receiver comes first, then the context if the method takes one, then each argument in its place. */
  lemma CallParamsAre(m: Method, args: seq<string>)
    ensures var actual := CallParams(m, args);
            && |actual| == 1 + Bit(m.hasCtx) + |args| && actual[0] == RECEIVER
            && (m.hasCtx ==> actual[1] == CONTEXT)
            && forall i :: 0 <= i < |args| ==> actual[1 + Bit(m.hasCtx) + i] == args[i]
  {
  }

  function AfterCall(req: Request, m: Method, res: CallResult): End {
    match res
    case Panicked(why) => ErrorEnd(req, 0, why)
    case Returned(err, plain, source) =>
      if req.id.None? then Silent
      else if m.errOut != -1 && err.Some? then ErrorEnd(req, 1, err.value)
      else if IsStream(m) then Register(source, req.id.value)
      else Answer(Response("2.0", if m.valOut != -1 then plain else None, req.id.value, None))
  }

  function Process(reg: Registry, req: Request, env: Env, chanSupport: bool): Outcome {
    match Lookup(reg, req.name)
    case None => Outcome([], ErrorEnd(req, METHOD_NOT_FOUND, "not found"), false)
    case Some(m) =>
      if |req.params| != |m.paramTypes| then
        Outcome([], ErrorEnd(req, INVALID_PARAMS, "wrong param count"), false)
      else if !chanSupport && IsStream(m) then
        Outcome([], ErrorEnd(req, METHOD_NOT_FOUND, "no out channel support"), true)
      else match DecodeAll(env, m.paramTypes, req.params)
        case BadParam(why) => Outcome([], ErrorEnd(req, PARSE_ERROR, why), IsStream(m))
        case Args(args) =>
          var actual := CallParams(m, args);
          Outcome([Invoke(m.name, actual)], AfterCall(req, m, env.call(m.name, actual)), IsStream(m))
  }

  function Complete(end: End, chans: Chans): seq<Effect> {
    match end
    case Silent => []
    case Answer(resp) => [Write(resp)]
    case Register(source, id) =>
      if chans.Refuses? then [Write(Response("2.0", None, id, Some(RespError(1, chans.why))))]
      else [Delegate(source, id)]
  }

  /** Everything one call of handle does, in order. */
  function Trace(reg: Registry, req: Request, env: Env, chans: Chans): seq<Effect> {
    var o := Process(reg, req, env, !chans.Unsupported?);
    o.calls + Complete(o.end, chans) + [Done(o.keep)]
  }

  // ---- exactly one reply, exactly one done ----

  datatype Kind = Invokes | Writes | Delegates | Dones

  predicate Is(k: Kind, e: Effect) {
    match k
    case Invokes => e.Invoke?
    case Writes => e.Write?
    case Delegates => e.Delegate?
    case Dones => e.Done?
  }

  function Count(k: Kind, t: seq<Effect>): nat {
    if t == [] then 0 else Bit(Is(k, t[0])) + Count(k, t[1..])
  }

  lemma {:induction false} CountConcat(k: Kind, a: seq<Effect>, b: seq<Effect>)
    ensures Count(k, a + b) == Count(k, a) + Count(k, b)
  {
    if a == [] {
      assert a + b == b;
    } else {
      assert (a + b)[1..] == a[1..] + b;
      CountConcat(k, a[1..], b);
    }
  }

  lemma CountTrace(k: Kind, reg: Registry, req: Request, env: Env, chans: Chans)
    ensures var o := Process(reg, req, env, !chans.Unsupported?);
            var end := Count(k, Complete(o.end, chans));
            Count(k, Trace(reg, req, env, chans)) == Bit(k.Invokes? && o.calls != []) + end + Bit(k.Dones?)
  {
    var o := Process(reg, req, env, !chans.Unsupported?);
    var finish := Complete(o.end, chans);
    CountConcat(k, o.calls + finish, [Done(o.keep)]);
    CountConcat(k, o.calls, finish);
    assert Count(k, [Done(o.keep)]) == Bit(k.Dones?);
  }

  /**
   A request with an id is answered exactly once, by a written response or by the stream
   machinery, never both; a request without one is not answered. The answer carries the
   request's id and never both a result and an error, and no error code is 2.
   done runs exactly once, and last, and keeps the call's context exactly for a method that
   returns a channel and was called with the right arity.
   */
  lemma ExactlyOneReply(reg: Registry, req: Request, env: Env, chans: Chans)
    ensures var t := Trace(reg, req, env, chans);
            && Count(Writes, t) + Count(Delegates, t) == Bit(req.id.Some?)
            && (chans.Unsupported? ==> Count(Delegates, t) == 0)
            && Count(Dones, t) == 1 && t[|t| - 1] == Done(RightArity(reg, req) && Streams(reg, req))
            && (forall e :: e in t && e.Write? ==>
                  && Some(e.resp.id) == req.id
                  && !(e.resp.result.Some? && e.resp.error.Some?)
                  && (e.resp.error.Some? ==> e.resp.error.value.code != 2))
            && (forall e :: e in t && e.Delegate? ==> Some(e.id) == req.id)
  {
    CountTrace(Writes, reg, req, env, chans);
    CountTrace(Delegates, reg, req, env, chans);
    CountTrace(Dones, reg, req, env, chans);
    var finish := Complete(Process(reg, req, env, !chans.Unsupported?).end, chans);
    assert finish != [] ==> finish[1..] == [];
  }

  // ---- which answer, and when ----

  predicate Found(reg: Registry, req: Request) {
    Lookup(reg, req.name).Some?
  }

  predicate RightArity(reg: Registry, req: Request) {
    Found(reg, req) && |req.params| == |Lookup(reg, req.name).value.paramTypes|
  }

  predicate Streams(reg: Registry, req: Request) {
    Found(reg, req) && IsStream(Lookup(reg, req.name).value)
  }

  predicate ParamDecodes(env: Env, m: Method, params: seq<Raw>, i: nat)
    requires i < |m.paramTypes| == |params|
  {
    env.decode(m.paramTypes[i], params[i]).Good?
  }

  /** The method runs: it is there, takes that many parameters, each one decodes. */
  ghost predicate Runs(reg: Registry, req: Request, env: Env, chans: Chans) {
    && RightArity(reg, req)
    && !(chans.Unsupported? && Streams(reg, req))
    && var m := Lookup(reg, req.name).value;
       forall i :: 0 <= i < |req.params| ==> ParamDecodes(env, m, req.params, i)
  }

  lemma {:induction false} DecodeAllPointwise(env: Env, types: seq<string>, params: seq<Raw>)
    requires |types| == |params|
    ensures var d := DecodeAll(env, types, params);
            && (d.Args? <==> forall i :: 0 <= i < |types| ==> env.decode(types[i], params[i]).Good?)
            && (d.Args? ==>
                 |d.args| == |types| && forall i :: 0 <= i < |types| ==> env.decode(types[i], params[i]) == Good(d.args[i]))
  {
    if types != [] {
      DecodeAllPointwise(env, types[1..], params[1..]);
      if DecodeAll(env, types[1..], params[1..]).BadParam? {
        var i :| 0 <= i < |types[1..]| && !env.decode(types[1..][i], params[1..][i]).Good?;
        assert !env.decode(types[i + 1], params[i + 1]).Good?;
      } else {
        forall i | 0 <= i < |types| && env.decode(types[0], params[0]).Good?
          ensures env.decode(types[i], params[i]) == Good(DecodeAll(env, types, params).args[i])
        {
          if i > 0 { assert types[i] == types[1..][i - 1] && params[i] == params[1..][i - 1]; }
        }
      }
    }
  }

  /** The first parameter that does not decode, and why. */
  predicate FirstBad(env: Env, types: seq<string>, params: seq<Raw>, i: nat, why: string)
    requires |types| == |params|
  {
    && i < |types| && env.decode(types[i], params[i]) == Bad(why)
    && forall j :: 0 <= j < i ==> env.decode(types[j], params[j]).Good?
  }

  lemma {:induction false} FirstBadStops(env: Env, types: seq<string>, params: seq<Raw>) returns (i: nat)
    requires |types| == |params| && DecodeAll(env, types, params).BadParam?
    ensures FirstBad(env, types, params, i, DecodeAll(env, types, params).why)
  {
    i := 0;
    if env.decode(types[0], params[0]).Good? {
      var k := FirstBadStops(env, types[1..], params[1..]);
      i := k + 1;
      forall j | 0 <= j < i ensures env.decode(types[j], params[j]).Good? {
        if j > 0 { assert types[j] == types[1..][j - 1] && params[j] == params[1..][j - 1]; }
      }
    }
  }

  /** The call of a request's method: the one its name stands for, with each parameter decoded in its place. */
  predicate Called(reg: Registry, req: Request, env: Env, m: Method, args: seq<string>, r: CallResult) {
    && Named(reg, req.name, m)
    && |args| == |req.params| == |m.paramTypes|
    && (forall i :: 0 <= i < |args| ==> env.decode(m.paramTypes[i], req.params[i]) == Good(args[i]))
    && r == env.call(m.name, CallParams(m, args))
  }

  predicate Failed(m: Method, r: CallResult) {
    r.Returned? && m.errOut != -1 && r.err.Some?
  }

  /** The code of the written error, if one is written. */
  function ErrorCode(t: seq<Effect>): Option<int> {
    if t == [] then None
    else if t[0].Write? && t[0].resp.error.Some? then Some(t[0].resp.error.value.code)
    else ErrorCode(t[1..])
  }

  lemma ErrorCodeIs(t: seq<Effect>, calls: seq<Effect>, e: Effect, keep: bool)
    requires t == calls + [e] + [Done(keep)]
    requires calls == [] || (|calls| == 1 && calls[0].Invoke?)
    ensures ErrorCode(t) == if e.Write? && e.resp.error.Some? then Some(e.resp.error.value.code) else None
  {
    assert ErrorCode([Done(keep)]) == ErrorCode([Done(keep)][1..]) == None;
    var tail := [e] + [Done(keep)];
    assert tail[1..] == [Done(keep)];
    if calls == [] {
      assert t == tail;
    } else {
      assert t[1..] == tail;
    }
  }

  /** With an id, handling ends in one step after the call (if any), and that step decides the code. */
  lemma OneLastStep(reg: Registry, req: Request, env: Env, chans: Chans)
    requires req.id.Some?
    ensures var o := Process(reg, req, env, !chans.Unsupported?);
            var finish := Complete(o.end, chans);
            var t := Trace(reg, req, env, chans);
            && |finish| == 1 && t == o.calls + finish + [Done(o.keep)]
            && Count(Invokes, t) == Bit(o.calls != [])
            && ErrorCode(t) == if finish[0].Write? && finish[0].resp.error.Some?
                               then Some(finish[0].resp.error.value.code) else None
  {
    var o := Process(reg, req, env, !chans.Unsupported?);
    var finish := Complete(o.end, chans);
    assert finish == [finish[0]];
    ErrorCodeIs(Trace(reg, req, env, chans), o.calls, finish[0], o.keep);
    CountTrace(Invokes, reg, req, env, chans);
    assert Count(Invokes, finish) == Bit(Is(Invokes, finish[0])) + Count(Invokes, finish[1..]);
  }

  lemma RunsIffDecoded(reg: Registry, req: Request, env: Env, chans: Chans)
    requires RightArity(reg, req) && !(chans.Unsupported? && Streams(reg, req))
    ensures var m := Lookup(reg, req.name).value;
            Runs(reg, req, env, chans) <==> DecodeAll(env, m.paramTypes, req.params).Args?
  {
    var m := Lookup(reg, req.name).value;
    DecodeAllPointwise(env, m.paramTypes, req.params);
    if DecodeAll(env, m.paramTypes, req.params).Args? {
      forall i | 0 <= i < |req.params| ensures ParamDecodes(env, m, req.params, i) { }
    } else {
      var i :| 0 <= i < |req.params| && !env.decode(m.paramTypes[i], req.params[i]).Good?;
      assert !ParamDecodes(env, m, req.params, i);
    }
  }

  /**
   The errors found before the call, each in exactly the case it stands for; the method
   is called, once, exactly when there is none.
   */
  lemma RefusalTable(reg: Registry, req: Request, env: Env, chans: Chans)
    requires req.id.Some?
    ensures var t := Trace(reg, req, env, chans);
            var code := ErrorCode(t);
            var unsupported := Streams(reg, req) && chans.Unsupported?;
            && (code == Some(METHOD_NOT_FOUND) <==> !Found(reg, req) || (RightArity(reg, req) && unsupported))
            && (code == Some(INVALID_PARAMS) <==> Found(reg, req) && !RightArity(reg, req))
            && (code == Some(PARSE_ERROR)
                <==> RightArity(reg, req) && !unsupported && !Runs(reg, req, env, chans))
            && Count(Invokes, t) == Bit(Runs(reg, req, env, chans))
  {
    OneLastStep(reg, req, env, chans);
    if RightArity(reg, req) && !(chans.Unsupported? && Streams(reg, req)) {
      RunsIffDecoded(reg, req, env, chans);
    }
  }

  predicate Refused(reg: Registry, req: Request, env: Env, chans: Chans, why: string)
    requires req.id.Some?
  {
    Write(Response("2.0", None, req.id.value, Some(RespError(PARSE_ERROR, why)))) in Trace(reg, req, env, chans)
  }

  /** A decode error tells why the first parameter that does not decode does not. */
  lemma RefusalMessages(reg: Registry, req: Request, env: Env, chans: Chans)
    requires req.id.Some? && ErrorCode(Trace(reg, req, env, chans)) == Some(PARSE_ERROR)
    ensures var m := Lookup(reg, req.name).value;
            |req.params| == |m.paramTypes| &&
            exists i, why :: FirstBad(env, m.paramTypes, req.params, i, why) && Refused(reg, req, env, chans, why)
  {
    RefusalTable(reg, req, env, chans);
    OneLastStep(reg, req, env, chans);
    RunsIffDecoded(reg, req, env, chans);
    var m := Lookup(reg, req.name).value;
    var i := FirstBadStops(env, m.paramTypes, req.params);
    var why := DecodeAll(env, m.paramTypes, req.params).why;
    assert FirstBad(env, m.paramTypes, req.params, i, why) && Refused(reg, req, env, chans, why);
  }

  /** Only the method registered under the name, or else under its alias, is ever invoked. */
  predicate InvokesNamed(reg: Registry, name: string, t: seq<Effect>) {
    forall e :: e in t && e.Invoke? ==>
      if name in reg.methods then e.name == reg.methods[name].name
      else name in reg.aliases && reg.aliases[name] in reg.methods && e.name == reg.methods[reg.aliases[name]].name
  }

  lemma TraceInvokes(reg: Registry, req: Request, env: Env, chans: Chans)
    ensures InvokesNamed(reg, req.name, Trace(reg, req, env, chans))
  {
  }

  /**
   The answers of a method that ran, the one registered under the request's name or else
   under its alias, with each parameter decoded to the type in its place: code 0 exactly
   when it panicked, code 1 exactly when it returned an error or its stream was refused,
   each with that message, the stream machinery exactly for an accepted stream, and
   otherwise its value.
   */
  lemma CallTable(reg: Registry, req: Request, env: Env, chans: Chans) returns (m: Method, args: seq<string>, r: CallResult)
    requires req.id.Some? && Runs(reg, req, env, chans)
    ensures Called(reg, req, env, m, args, r)
    ensures var t := Trace(reg, req, env, chans);
            var failed := r.Returned? && m.errOut != -1 && r.err.Some?;
            var id := req.id.value;
            && t[0] == Invoke(m.name, CallParams(m, args))
            && (ErrorCode(t) == Some(0) <==> r.Panicked?)
            && (ErrorCode(t) == Some(1) <==> failed || (r.Returned? && IsStream(m) && chans.Refuses?))
            && (r.Panicked? ==> t[1] == Write(Response("2.0", None, id, Some(RespError(0, r.why)))))
            && (failed ==> t[1] == Write(Response("2.0", None, id, Some(RespError(1, r.err.value)))))
            && (r.Returned? && !failed && IsStream(m) && chans.Refuses? ==>
                  t[1] == Write(Response("2.0", None, id, Some(RespError(1, chans.why)))))
            && (r.Returned? && !failed && IsStream(m) && !chans.Refuses? ==> t[1] == Delegate(r.source, id))
            && (r.Returned? && !failed && !IsStream(m) ==>
                  t[1] == Write(Response("2.0", if m.valOut != -1 then r.plain else None, id, None)))
  {
    OneLastStep(reg, req, env, chans);
    RunsIffDecoded(reg, req, env, chans);
    LookupIs(reg, req.name);
    m := Lookup(reg, req.name).value;
    DecodeAllPointwise(env, m.paramTypes, req.params);
    args := DecodeAll(env, m.paramTypes, req.params).args;
    r := env.call(m.name, CallParams(m, args));
  }

  /** The method ran and returned neither an error nor a stream nor a value: it has none, or it is a nil interface. */
  ghost predicate ReturnsNothing(reg: Registry, req: Request, env: Env, chans: Chans) {
    Runs(reg, req, env, chans) &&
    var m := Lookup(reg, req.name).value;
    var d := DecodeAll(env, m.paramTypes, req.params);
    d.Args? &&
    var r := env.call(m.name, CallParams(m, d.args));
    && r.Returned? && !(m.errOut != -1 && r.err.Some?) && !IsStream(m)
    && (m.valOut == -1 || r.plain.None?)
  }

  predicate Bare(e: Effect) {
    e.Write? && e.resp.result.None? && e.resp.error.None?
  }

  /**
   Where section 5 of the JSON-RPC 2.0 Specification is not met: the answer carries neither
   a result nor an error exactly when the method returned nothing.
   */
  lemma BareAnswerIff(reg: Registry, req: Request, env: Env, chans: Chans)
    requires req.id.Some?
    ensures (exists e :: e in Trace(reg, req, env, chans) && Bare(e)) <==> ReturnsNothing(reg, req, env, chans)
  {
    OneLastStep(reg, req, env, chans);
    var o := Process(reg, req, env, !chans.Unsupported?);
    var last := Complete(o.end, chans)[0];
    assert Trace(reg, req, env, chans) == o.calls + [last] + [Done(o.keep)];
    assert last in Trace(reg, req, env, chans);
    assert forall e :: e in Trace(reg, req, env, chans) && Bare(e) ==> e == last;
    if RightArity(reg, req) && !(chans.Unsupported? && Streams(reg, req)) { RunsIffDecoded(reg, req, env, chans); }
  }

  // ---- the code ----

  class RpcServer {
    var methods: map<string, Method>
    var aliases: map<string, string>

    ghost function View(): Registry
      reads this
    {
      Registry(methods, aliases)
    }

    constructor ()
      ensures View() == Registry(map[], map[])
    {
      methods, aliases := map[], map[];
    }

    method AliasMethod(alias: string, original: string)
      modifies this
      ensures View() == Registry(old(methods), old(aliases)[alias := original])
      ensures alias !in methods ==>
        Lookup(View(), alias) == if original in methods then Some(methods[original]) else None
    {
      aliases := aliases[alias := original];
    }

    /** Registers the methods of one receiver in order; false when one of them makes it panic. */
    method Register(namespace: string, sigs: seq<Signature>) returns (ok: bool)
      modifies this
      ensures aliases == old(aliases)
      ensures methods == Registered(old(methods), namespace, sigs)
      ensures ok <==> forall i :: 0 <= i < |sigs| ==> MethodOf(sigs[i]).Some?
    {
      var i := 0;
      while i < |sigs|
        invariant 0 <= i <= |sigs|
        invariant aliases == old(aliases)
        invariant forall k :: 0 <= k < i ==> MethodOf(sigs[k]).Some?
        invariant Registered(methods, namespace, sigs[i..]) == Registered(old(methods), namespace, sigs)
      {
        assert sigs[i..][0] == sigs[i] && sigs[i..][1..] == sigs[i + 1..];
        var m := MethodOf(sigs[i]);
        if m.None? { return false; }
        methods := methods[namespace + "." + sigs[i].name := m.value];
        i := i + 1;
      }
      ok := true;
    }

    /** Writes an error response, unless the request is a notification. */
    static method RpcError(req: Request, code: int, why: string) returns (written: seq<Effect>)
      ensures written == Complete(ErrorEnd(req, code, why), Unsupported)
    {
      if req.id.None? { return []; }
      written := [Write(Response("2.0", None, req.id.value, Some(RespError(code, why))))];
    }

    /** Receiver, context and decoded parameters in one argument array; stops at the first bad parameter. */
    static method BuildCallParams(m: Method, params: seq<Raw>, env: Env)
      returns (bad: Option<string>, callParams: array<string>)
      requires |params| == |m.paramTypes|
      ensures fresh(callParams)
      ensures match DecodeAll(env, m.paramTypes, params)
              case BadParam(why) => bad == Some(why)
              case Args(args) => bad == None && callParams[..] == CallParams(m, args)
    {
      var first := if m.hasCtx then 2 else 1;
      callParams := new string[first + |m.paramTypes|];
      callParams[0] := RECEIVER;
      if m.hasCtx { callParams[1] := CONTEXT; }
      assert callParams[..first] == CallParams(m, []);
      var i := 0;
      while i < |m.paramTypes|
        invariant 0 <= i <= |m.paramTypes|
        invariant callParams[..first] == CallParams(m, [])
        invariant Prepend(callParams[first..first + i], DecodeAll(env, m.paramTypes[i..], params[i..]))
               == DecodeAll(env, m.paramTypes, params)
      {
        assert m.paramTypes[i..][0] == m.paramTypes[i] && m.paramTypes[i..][1..] == m.paramTypes[i + 1..];
        assert params[i..][0] == params[i] && params[i..][1..] == params[i + 1..];
        ghost var rest := DecodeAll(env, m.paramTypes[i + 1..], params[i + 1..]);
        match env.decode(m.paramTypes[i], params[i]) {
          case Bad(why) => return Some(why), callParams;
          case Good(arg) =>
            ghost var before := callParams[first..first + i];
            callParams[first + i] := arg;
            assert callParams[first..first + (i + 1)] == before + [arg];
            PrependOne(before, arg, rest);
        }
        i := i + 1;
      }
      bad := None;
      assert callParams[..] == callParams[..first] + callParams[first..first + i];
    }

    /** Every path of one request; a method that is invoked is the one registered under the name, or else its alias's. */
    method Handle(req: Request, env: Env, chans: Chans) returns (trace: seq<Effect>)
      ensures trace == Trace(View(), req, env, chans)
      ensures InvokesNamed(View(), req.name, trace)
    {
      TraceInvokes(View(), req, env, chans);
      trace := [];
      var m: Method;
      if req.name in methods {
        m := methods[req.name];
      } else if req.name in aliases && aliases[req.name] in methods {
        m := methods[aliases[req.name]];
      } else {
        trace := RpcError(req, METHOD_NOT_FOUND, "not found");
        return trace + [Done(false)];
      }
      if |req.params| != |m.paramTypes| {
        trace := RpcError(req, INVALID_PARAMS, "wrong param count");
        return trace + [Done(false)];
      }
      var outCh := IsStream(m);
      if chans.Unsupported? && outCh {
        trace := RpcError(req, METHOD_NOT_FOUND, "no out channel support");
        return trace + [Done(outCh)];
      }

      var bad, callParams := BuildCallParams(m, req.params, env);
      if bad.Some? {
        trace := RpcError(req, PARSE_ERROR, bad.value);
        return trace + [Done(outCh)];
      }

      var written := Respond(m, req, env.call(m.name, callParams[..]), chans);
      trace := [Invoke(m.name, callParams[..])] + written + [Done(outCh)];
    }

    /** What follows the call of the method: the response, or the hand-over of its channel. */
    static method Respond(m: Method, req: Request, res: CallResult, chans: Chans) returns (written: seq<Effect>)
      requires chans.Unsupported? ==> !IsStream(m)
      ensures written == Complete(AfterCall(req, m, res), chans)
    {
      if res.Panicked? {
        written := RpcError(req, 0, res.why);
        return;
      }
      if req.id.None? { return []; }
      var resp := Response("2.0", None, req.id.value, None);
      if m.errOut != -1 && res.err.Some? {
        resp := resp.(error := Some(RespError(1, res.err.value)));
      }
      if resp.error.None? {
        if IsStream(m) {
          if !chans.Refuses? { return [Delegate(res.source, req.id.value)]; }
          resp := resp.(error := Some(RespError(1, chans.why)));
        } else if m.valOut != -1 {
          resp := resp.(result := res.plain);
        }
      }
      written := [Write(resp)];
    }
  }
}
