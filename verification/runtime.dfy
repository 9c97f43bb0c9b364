/**
 The `chrome.runtime` messaging façade: one instance per (extension, environment)
 pair. Construction registers the inbound handler and, in a content script,
 announces the connection; `sendMessage` resolves its arguments and issues a
 request on the transport; the inbound handler dispatches on the sender id,
 answering three integer control sentinels with diagnostic records.

 The transport, the event emitter and the clock are not modelled: their effects
 are returned as a trace of `Effect`s, and what they deliver (the transport's
 reply, a listener's reply, the current time) is passed in as a parameter.
 */
module Runtime {
  import opened Wrappers
  import opened JsValues
  import opened ArgParser

  /** The execution environment an instance runs in; the code only ever tests for the
      first two. */
  datatype Env = Background | ContentScript | Other

  /** A transport channel name: a fixed prefix, optionally followed by an extension id. */
  datatype Channel =
    | SendMessageChannel
    | OnMessageChannel(extensionId: string)
    | ContentScriptConnectChannel(extensionId: string)

  /** The severity of a console diagnostic. */
  datatype Level = Warn | Error

  /** An observable effect on a collaborator. */
  datatype Effect =
    | RegisterHandler(channel: Channel)                 // a handler bound on the dispatch registry
    | Send(channel: Channel)                            // a fire-and-forget transport send
    | Request(channel: Channel, payload: seq<JsVal>)    // a transport request awaiting a reply
    | InvokeCallback(callback: JsVal, argument: JsVal)  // the caller's callback being run
    | Diagnostic(level: Level, text: string)            // a console warning or error

  /** Who sent an inbound message, as handed to `onMessage` listeners. */
  datatype MessageSender = MessageSender(id: JsVal, tabId: JsVal)

  /** The control sentinels fixed at construction. */
  const Ctrl1Sentinel := 6303
  const Ctrl2Sentinel := 10834
  const Ctrl3Sentinel := 16897

  /** The state of one runtime instance. `errors` is the array whose position 0 is
      the last-error slot. */
  datatype RuntimeState = RuntimeState(
    id: string,
    env: Env,
    errors: seq<JsVal>,
    ctrl1: int,
    ctrl2: int,
    ctrl3: int)

  /** The instance invariant: the sentinels are the fixed constants and the error
      array never holds more than the one slot. */
  predicate Valid(rt: RuntimeState)
  {
    && rt.ctrl1 == Ctrl1Sentinel
    && rt.ctrl2 == Ctrl2Sentinel
    && rt.ctrl3 == Ctrl3Sentinel
    && |rt.errors| <= 1
  }

  /* ------------------------------------------------------------------------ */
  // Construction
  /* ------------------------------------------------------------------------ */

  /** Builds an instance and returns the effects of construction: the inbound handler
      registration, followed in a content script by the connection announcement. */
  function Construct(extensionId: string, env: Env): (r: (RuntimeState, seq<Effect>))
    ensures r.0.id == extensionId && r.0.env == env
    ensures Valid(r.0)
    ensures LastError(r.0) == Undefined
    ensures |r.1| >= 1 && r.1[0] == RegisterHandler(OnMessageChannel(extensionId))
    ensures forall i :: 0 < i < |r.1| ==> !r.1[i].RegisterHandler?
    ensures Send(ContentScriptConnectChannel(extensionId)) in r.1 <==> env == ContentScript
    ensures forall e :: e in r.1 ==> e.RegisterHandler? || e == Send(ContentScriptConnectChannel(extensionId))
    ensures |r.1| == if env == ContentScript then 2 else 1
    ensures multiset(r.1)[Send(ContentScriptConnectChannel(extensionId))] == if env == ContentScript then 1 else 0
  {
    var rt := RuntimeState(extensionId, env, [], Ctrl1Sentinel, Ctrl2Sentinel, Ctrl3Sentinel);
    var register := [RegisterHandler(OnMessageChannel(extensionId))];
    var connect := if env == ContentScript then [Send(ContentScriptConnectChannel(extensionId))] else [];
    (rt, register + connect)
  }

  /* ------------------------------------------------------------------------ */
  // Last error
  /* ------------------------------------------------------------------------ */

  /** The `lastError` getter: position 0 of the error array, `undefined` when empty. */
  function LastError(rt: RuntimeState): JsVal
  {
    At(rt.errors, 0)
  }

  /** The protected error handler: writes the error into position 0 of the error array. */
  function HandleError(rt: RuntimeState, err: JsVal): (r: RuntimeState)
    ensures LastError(r) == err
    ensures |r.errors| == if |rt.errors| == 0 then 1 else |rt.errors|
    ensures |rt.errors| > 0 ==> r.errors[1..] == rt.errors[1..]
    ensures r.id == rt.id && r.env == rt.env
    ensures r.ctrl1 == rt.ctrl1 && r.ctrl2 == rt.ctrl2 && r.ctrl3 == rt.ctrl3
  {
    if |rt.errors| == 0 then rt.(errors := [err]) else rt.(errors := rt.errors[0 := err])
  }

  /** A run of internal faults, handled in order. */
  function HandleErrors(rt: RuntimeState, errs: seq<JsVal>): RuntimeState
    decreases |errs|
  {
    if |errs| == 0 then rt else HandleError(HandleErrors(rt, errs[..|errs| - 1]), errs[|errs| - 1])
  }

  /** After any run of faults the slot holds only the most recent one: it is
      overwritten, never appended to, and the instance stays valid. */
  lemma {:induction false} LastErrorIsMostRecent(rt: RuntimeState, errs: seq<JsVal>)
    requires Valid(rt)
    ensures Valid(HandleErrors(rt, errs))
    ensures |errs| == 0 ==> HandleErrors(rt, errs) == rt
    ensures |errs| > 0 ==> |HandleErrors(rt, errs).errors| == 1
    ensures |errs| > 0 ==> LastError(HandleErrors(rt, errs)) == errs[|errs| - 1]
    ensures HandleErrors(rt, errs).id == rt.id && HandleErrors(rt, errs).env == rt.env
    decreases |errs|
  {
    if |errs| > 0 {
      LastErrorIsMostRecent(rt, errs[..|errs| - 1]);
    }
  }

  /** The `ctrlEventsInError` getter: the last error and the three sentinels in order. */
  function CtrlEventsInError(rt: RuntimeState): (v: JsVal)
    ensures v.Obj? && v.props.Keys == {"lastError", "ctrlEvents"}
    ensures v.props["lastError"] == LastError(rt)
    ensures v.props["ctrlEvents"] == Arr([Num(rt.ctrl1), Num(rt.ctrl2), Num(rt.ctrl3)])
    ensures Valid(rt) ==> v.props["ctrlEvents"] == Arr([Num(6303), Num(10834), Num(16897)])
  {
    Obj(map["lastError" := LastError(rt), "ctrlEvents" := Arr([Num(rt.ctrl1), Num(rt.ctrl2), Num(rt.ctrl3)])])
  }

  /* ------------------------------------------------------------------------ */
  // setUninstallURL
  /* ------------------------------------------------------------------------ */

  const UninstallUnsupportedText := "chrome.runtime.setUninstallURL is not supported by Wavebox at this time"

  /** Reads `setUninstallURL` and, when it is present, calls it with `args`. `None`
      means the property is `undefined` (a content script); otherwise the call
      leaves the instance as it was and only emits a warning. */
  function SetUninstallURL(rt: RuntimeState, args: seq<JsVal>): (r: Option<(RuntimeState, seq<Effect>)>)
    ensures r.None? <==> rt.env == ContentScript
    ensures r.Some? ==> r.value.0 == rt
    ensures r.Some? ==> |r.value.1| == 1 && r.value.1[0].Diagnostic? && r.value.1[0].level == Warn
  {
    if rt.env == ContentScript then None
    else Some((rt, [Diagnostic(Warn, UninstallUnsupportedText)]))
  }

  /* ------------------------------------------------------------------------ */
  // sendMessage
  /* ------------------------------------------------------------------------ */

  /** The resolved `(targetExtensionId, message, options)` of a `sendMessage` call. */
  datatype Resolved = Resolved(target: JsVal, message: JsVal, options: JsVal)

  /** The four argument shapes, most specific first. */
  function SendMessagePatterns(ownId: string): seq<Pattern>
  {
    [ Pattern(["string", AnyType, "object"], [MatchArg(0), MatchArg(1), MatchArg(2)]),
      Pattern(["string", AnyType], [MatchArg(0), MatchArg(1), Literal(Undefined)]),
      Pattern([AnyType, "object"], [Literal(Str(ownId)), MatchArg(0), MatchArg(1)]),
      Pattern([AnyType], [Literal(Str(ownId)), MatchArg(0), Literal(Undefined)]) ]
  }

  /** An independent statement of the resolution, case by case: the shapes are tried
      in order, so a string followed by an object is a target and a message. */
  function SendShape(ownId: string, args: seq<JsVal>): Option<Resolved>
  {
    if |args| == 3 && TypeOf(args[0]) == "string" && TypeOf(args[2]) == "object" then
      Some(Resolved(args[0], args[1], args[2]))
    else if |args| == 2 && TypeOf(args[0]) == "string" then
      Some(Resolved(args[0], args[1], Undefined))
    else if |args| == 2 && TypeOf(args[1]) == "object" then
      Some(Resolved(Str(ownId), args[0], args[1]))
    else if |args| == 1 then
      Some(Resolved(Str(ownId), args[0], Undefined))
    else
      None
  }

  /** Matches the (callback-free) arguments against the four shapes and destructures
      the three-element output; `None` is a shape mismatch. */
  function ResolveSendArgs(ownId: string, args: seq<JsVal>): (r: Option<Resolved>)
    ensures r == SendShape(ownId, args)
  {
    MatchSendPatterns(ownId, args);
    match Match(args, SendMessagePatterns(ownId))
    case None => None
    case Some(out) => Some(Resolved(At(out, 0), At(out, 1), At(out, 2)))
  }

  /** Which of the four shapes fit which arguments. */
  lemma SendPatternsFit(ownId: string, args: seq<JsVal>)
    ensures var ps := SendMessagePatterns(ownId);
      && (Fits(ps[0], args) <==> |args| == 3 && TypeOf(args[0]) == "string" && TypeOf(args[2]) == "object")
      && (Fits(ps[1], args) <==> |args| == 2 && TypeOf(args[0]) == "string")
      && (Fits(ps[2], args) <==> |args| == 2 && TypeOf(args[1]) == "object")
      && (Fits(ps[3], args) <==> |args| == 1)
  {
  }

  /** The generic first-match over the four shapes agrees with the case-by-case statement. */
  lemma MatchSendPatterns(ownId: string, args: seq<JsVal>)
    ensures var m := Match(args, SendMessagePatterns(ownId));
      var s := SendShape(ownId, args);
      && (m.None? <==> s.None?)
      && (m.Some? ==>
            && s.Some?
            && |m.value| == 3
            && m.value[0] == s.value.target && m.value[1] == s.value.message && m.value[2] == s.value.options)
  {
    var ps := SendMessagePatterns(ownId);
    SendPatternsFit(ownId, args);
    var m := Match(args, ps);
    if m.Some? {
      var k :| 0 <= k < |ps| && Fits(ps[k], args) && (forall j :: 0 <= j < k ==> !Fits(ps[j], args))
        && m.value == Build(ps[k], args);
      assert ps[k].out[0].MatchArg? || ps[k].out[0].Literal?;
    }
  }

  /** Why `sendMessage` threw. */
  datatype SendError = NotSupportedInBackground | ShapeMismatch

  /** What the transport eventually delivers to a request's reply callback. */
  datatype TransportReply = TransportReply(err: JsVal, response: JsVal)

  const SendOptionsUnsupportedText := "chrome.runtime.sendMessage does not support options"

  /** The caller's callback runs when one was supplied and a reply without error arrived. */
  predicate CallbackRuns(callback: Option<JsVal>, reply: Option<TransportReply>)
  {
    callback.Some? && reply.Some? && !Truthy(reply.value.err)
  }

  /** What a successful `sendMessage` does, stated without building the trace: exactly
      the request carrying `[target, message]`, a diagnostic exactly when the options
      are truthy, the callback with the response exactly when it runs and never
      before the request, each at most once, and nothing else. */
  predicate SendTraceSpec(trace: seq<Effect>, res: Resolved, callback: Option<JsVal>, reply: Option<TransportReply>)
  {
    && Request(SendMessageChannel, [res.target, res.message]) in trace
    && (forall e :: e in trace && e.Request? ==> e == Request(SendMessageChannel, [res.target, res.message]))
    && ((exists e :: e in trace && e.Diagnostic?) <==> Truthy(res.options))
    && ((exists e :: e in trace && e.InvokeCallback?) <==> CallbackRuns(callback, reply))
    && (forall e :: e in trace && e.InvokeCallback? ==>
          CallbackRuns(callback, reply) && e == InvokeCallback(callback.value, reply.value.response))
    && (forall i, j :: 0 <= i < j < |trace| ==> !(trace[i].InvokeCallback? && trace[j].Request?))
    && (forall e :: e in trace ==> !e.Send? && !e.RegisterHandler?)
    && multiset(trace)[Request(SendMessageChannel, [res.target, res.message])] == 1
    && (CallbackRuns(callback, reply) ==> multiset(trace)[InvokeCallback(callback.value, reply.value.response)] == 1)
    && |trace| == (if Truthy(res.options) then 1 else 0) + 1 + (if CallbackRuns(callback, reply) then 1 else 0)
  }

  /** The effects of a `sendMessage` whose arguments resolved to `res`: the options
      diagnostic, the request, and the reply handler's callback invocation. */
  function SendTrace(res: Resolved, callback: Option<JsVal>, reply: Option<TransportReply>): (trace: seq<Effect>)
    ensures SendTraceSpec(trace, res, callback, reply)
  {
    var diagnostic := if Truthy(res.options) then [Diagnostic(Error, SendOptionsUnsupportedText)] else [];
    var request := [Request(SendMessageChannel, [res.target, res.message])];
    var invoke :=
      if CallbackRuns(callback, reply) then [InvokeCallback(callback.value, reply.value.response)] else [];
    var trace := diagnostic + request + invoke;
    assert forall e :: e in trace <==> e in diagnostic || e in request || e in invoke;
    assert Truthy(res.options) ==> diagnostic[0] in trace;
    assert CallbackRuns(callback, reply) ==> invoke[0] in trace;
    trace
  }

  /** `sendMessage(...fullArgs)`. `reply` is the transport's eventual reply, `None` when
      it never replies. The background page throws before anything else happens; a
      call fitting no shape throws a shape mismatch; otherwise the result is the
      trace of effects. */
  function SendMessage(rt: RuntimeState, fullArgs: seq<JsVal>, reply: Option<TransportReply>)
    : (r: Result<seq<Effect>, SendError>)
    ensures rt.env == Background ==> r == Failure(NotSupportedInBackground)
    ensures r.Success? <==> rt.env != Background && SendShape(rt.id, SplitCallback(fullArgs).args).Some?
    ensures rt.env != Background && r.Failure? ==> r.error == ShapeMismatch
    ensures rt.env != Background ==>
              (r == Failure(ShapeMismatch) <==> SendShape(rt.id, SplitCallback(fullArgs).args).None?)
    ensures r.Success? ==>
              var split := SplitCallback(fullArgs);
              var res := SendShape(rt.id, split.args);
              res.Some? && SendTraceSpec(r.value, res.value, split.callback, reply)
  {
    if rt.env == Background then Failure(NotSupportedInBackground)
    else
      var split := SplitCallback(fullArgs);
      match ResolveSendArgs(rt.id, split.args)
      case None => Failure(ShapeMismatch)
      case Some(res) => Success(SendTrace(res, split.callback, reply))
  }

  /* ------------------------------------------------------------------------ */
  // Inbound messages
  /* ------------------------------------------------------------------------ */

  /** Which branch of the inbound handler a sender id selects, under strict equality. */
  datatype ControlKind = Ctrl1 | Ctrl2 | Ctrl3 | Ordinary

  function Classify(rt: RuntimeState, senderId: JsVal): ControlKind
  {
    if senderId == Num(rt.ctrl1) then Ctrl1
    else if senderId == Num(rt.ctrl2) then Ctrl2
    else if senderId == Num(rt.ctrl3) then Ctrl3
    else Ordinary
  }

  /** The sentinels `ctrlEventsInError` lists are, in order, the ids that select the
      first, second and third control branch. */
  lemma SnapshotOrderMatchesDispatch(rt: RuntimeState)
    requires Valid(rt)
    ensures var events := CtrlEventsInError(rt).props["ctrlEvents"].elems;
      && |events| == 3
      && Classify(rt, events[0]) == Ctrl1
      && Classify(rt, events[1]) == Ctrl2
      && Classify(rt, events[2]) == Ctrl3
  {
  }

  /** The `(err, value)` pair passed to the transport's response callback. */
  datatype Response = Response(err: JsVal, value: JsVal)

  /** One inbound dispatch: what the listeners were given and the response, if any. */
  datatype Dispatch = Dispatch(message: JsVal, sender: MessageSender, response: Option<Response>)

  /** The listener side of `onMessage.emit`: given the message and its sender, the reply
      the listeners produce, `None` when no listener replies. */
  type Listener = (JsVal, MessageSender) -> Option<JsVal>

  /** `_handleRuntimeOnMessage(evt, [extensionId, tabId, message], responseCallback)`.
      `now` is the clock reading taken when the third sentinel's reply is built. */
  function HandleRuntimeOnMessage(rt: RuntimeState, payload: seq<JsVal>, listener: Listener, now: int): (d: Dispatch)
    ensures d.message == At(payload, 2)
    ensures d.response.Some? <==> listener(d.message, d.sender).Some?
    ensures d.response.Some? ==> d.response.value.err == Null
    ensures Classify(rt, At(payload, 0)) == Ordinary ==>
              && d.sender == MessageSender(At(payload, 0), At(payload, 1))
              && (d.response.Some? ==> d.response.value.value == listener(d.message, d.sender).value)
    ensures Classify(rt, At(payload, 0)) == Ctrl1 ==>
              && d.sender == MessageSender(Num(rt.ctrl1), Num(rt.ctrl1))
              && (d.response.Some? ==>
                    ExtendsWith(d.response.value.value, listener(d.message, d.sender).value, "ctrl1", Bool(true)))
    ensures Classify(rt, At(payload, 0)) == Ctrl2 ==>
              && d.sender == MessageSender(Num(rt.ctrl2), Num(rt.ctrl2))
              && (d.response.Some? ==>
                    ExtendsWith(d.response.value.value, listener(d.message, d.sender).value, "inError", CtrlEventsInError(rt)))
    ensures Classify(rt, At(payload, 0)) == Ctrl3 ==>
              && d.sender == MessageSender(Num(rt.ctrl3), Num(rt.ctrl3))
              && (d.response.Some? ==>
                    d.response.value.value == Obj(map["inError" := CtrlEventsInError(rt), "ctrl3" := Bool(true), "ts" := Num(now)]))
  {
    var extensionId, tabId, message := At(payload, 0), At(payload, 1), At(payload, 2);
    match Classify(rt, extensionId)
    case Ctrl1 =>
      var sender := MessageSender(extensionId, Num(rt.ctrl1));
      var reply := listener(message, sender);
      Dispatch(message, sender, if reply.Some? then Some(Response(Null, CopyWith(reply.value, "ctrl1", Bool(true)))) else None)
    case Ctrl2 =>
      var sender := MessageSender(extensionId, Num(rt.ctrl2));
      var reply := listener(message, sender);
      Dispatch(message, sender, if reply.Some? then Some(Response(Null, CopyWith(reply.value, "inError", CtrlEventsInError(rt)))) else None)
    case Ctrl3 =>
      var sender := MessageSender(extensionId, Num(rt.ctrl3));
      var reply := listener(message, sender);
      var record := Obj(map["inError" := CtrlEventsInError(rt), "ctrl3" := Bool(true), "ts" := Num(now)]);
      Dispatch(message, sender, if reply.Some? then Some(Response(Null, record)) else None)
    case Ordinary =>
      var sender := MessageSender(extensionId, tabId);
      var reply := listener(message, sender);
      Dispatch(message, sender, if reply.Some? then Some(Response(Null, reply.value)) else None)
  }
}
