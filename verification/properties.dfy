/**
 Properties relating several calls of the runtime façade: equivalent argument
 shapes, the callback split, a freshly constructed instance answering the
 control queries, and the end-to-end content-script scenario.
 */
module RuntimeProperties {
  import opened Wrappers
  import opened JsValues
  import opened ArgParser
  import opened Runtime

  /** A string followed by an object is a target and a message, not a message and
      options, because the `(string, any)` shape is listed before `(any, object)`. */
  lemma StringThenObjectIsTarget(ownId: string, target: string, props: map<string, JsVal>)
    ensures ResolveSendArgs(ownId, [Str(target), Obj(props)]) == Some(Resolved(Str(target), Obj(props), Undefined))
  {
  }

  /** Passing `null` as the options resolves to the same target and message as leaving
      them out, and since `null` is falsy the whole call has the same effects. (A
      function message is excluded: with two arguments it would be split off as the
      callback.) */
  lemma NullOptionsAsOmitted(rt: RuntimeState, target: string, message: JsVal, reply: Option<TransportReply>)
    requires !message.Func?
    ensures SendMessage(rt, [Str(target), message, Null], reply) == SendMessage(rt, [Str(target), message], reply)
  {
    var res3 := Resolved(Str(target), message, Null);
    var res2 := Resolved(Str(target), message, Undefined);
    assert SplitCallback([Str(target), message, Null]) == CallbackSplit(None, [Str(target), message, Null]);
    assert SplitCallback([Str(target), message]) == CallbackSplit(None, [Str(target), message]);
    assert ResolveSendArgs(rt.id, [Str(target), message, Null]) == Some(res3);
    assert ResolveSendArgs(rt.id, [Str(target), message]) == Some(res2);
    OnlyTheRequest(res3, reply);
    OnlyTheRequest(res2, reply);
    if rt.env != Background {
      assert SendMessage(rt, [Str(target), message, Null], reply) == Success(SendTrace(res3, None, reply));
      assert SendMessage(rt, [Str(target), message], reply) == Success(SendTrace(res2, None, reply));
    }
  }

  /** Without a callback and with falsy options, the only effect is the request. */
  lemma OnlyTheRequest(res: Resolved, reply: Option<TransportReply>)
    requires !Truthy(res.options)
    ensures SendTrace(res, None, reply) == [Request(SendMessageChannel, [res.target, res.message])]
  {
    var request := Request(SendMessageChannel, [res.target, res.message]);
    assert !CallbackRuns(None, reply);
    assert [] + [request] + [] == [request];
  }

  /** An explicit `undefined` third argument fits no shape: `typeof undefined` is not
      "object", and no other shape has three positions. */
  lemma UndefinedOptionsMismatch(rt: RuntimeState, target: string, message: JsVal, reply: Option<TransportReply>)
    requires rt.env != Background
    ensures SendMessage(rt, [Str(target), message, Undefined], reply) == Failure(ShapeMismatch)
  {
  }

  /** Appending a callback changes nothing about how the other arguments resolve: both
      calls issue the same request. The callback then runs exactly when a reply
      without error arrives. */
  lemma CallbackDoesNotShiftArguments(
    rt: RuntimeState, args: seq<JsVal>, handle: nat, reply: Option<TransportReply>)
    requires |args| > 0 ==> TypeOf(args[|args| - 1]) != "function"
    requires SendMessage(rt, args, reply).Success?
    ensures var withCallback := SendMessage(rt, args + [Func(handle)], reply);
      && withCallback.Success?
      && (forall e: Effect :: e.Request? ==> (e in withCallback.value <==> e in SendMessage(rt, args, reply).value))
      && ((exists e :: e in withCallback.value && e.InvokeCallback?) <==> reply.Some? && !Truthy(reply.value.err))
  {
    var split := SplitCallback(args + [Func(handle)]);
    assert split == CallbackSplit(Some(Func(handle)), args) by {
      assert split.args + [Func(handle)] == args + [Func(handle)];
    }
    assert SplitCallback(args) == CallbackSplit(None, args);
    var res := ResolveSendArgs(rt.id, args).value;
    var with, without := SendTrace(res, split.callback, reply), SendTrace(res, None, reply);
    assert SendMessage(rt, args + [Func(handle)], reply) == Success(with);
    assert SendMessage(rt, args, reply) == Success(without);
    SameRequests(res, split.callback, reply);
    assert CallbackRuns(split.callback, reply) <==> reply.Some? && !Truthy(reply.value.err);
  }

  /** Whether a callback was supplied does not change the requests a resolved call issues. */
  lemma SameRequests(res: Resolved, callback: Option<JsVal>, reply: Option<TransportReply>)
    ensures forall e: Effect :: e.Request? ==>
              (e in SendTrace(res, callback, reply) <==> e in SendTrace(res, None, reply))
  {
    var request := Request(SendMessageChannel, [res.target, res.message]);
    assert forall e: Effect :: e.Request? ==> (e in SendTrace(res, callback, reply) <==> e == request);
    assert forall e: Effect :: e.Request? ==> (e in SendTrace(res, None, reply) <==> e == request);
  }

  /** Without a callback the reply is dropped whatever it is. */
  lemma NoCallbackNoInvocation(rt: RuntimeState, args: seq<JsVal>, reply: Option<TransportReply>)
    requires |args| > 0 ==> TypeOf(args[|args| - 1]) != "function"
    requires SendMessage(rt, args, reply).Success?
    ensures forall e :: e in SendMessage(rt, args, reply).value ==> !e.InvokeCallback?
  {
  }

  /** A string sender id always takes the ordinary path: the sentinels are numbers and
      the comparison is strict. */
  lemma StringSenderIsOrdinary(rt: RuntimeState, senderId: string)
    ensures Classify(rt, Str(senderId)) == Ordinary
  {
  }

  /** When no listener replies, no response is produced on any branch, the control
      sentinels included. */
  lemma NoReplyNoResponse(rt: RuntimeState, payload: seq<JsVal>, listener: Listener, now: int)
    requires forall m, s :: listener(m, s).None?
    ensures HandleRuntimeOnMessage(rt, payload, listener, now).response == None
  {
  }

  /** The second sentinel sent to a freshly constructed instance: the added `inError`
      reports no last error and the three sentinels in their fixed order, and the
      other keys of the listener's reply survive, except a "__proto__" key, which
      never becomes an own property of the copy. */
  lemma FreshInstanceErrorQuery(
    extensionId: string, env: Env, tabId: JsVal, message: JsVal, listener: Listener, now: int)
    requires listener(message, MessageSender(Num(Ctrl2Sentinel), Num(Ctrl2Sentinel))).Some?
    ensures var rt := Construct(extensionId, env).0;
      var d := HandleRuntimeOnMessage(rt, [Num(Ctrl2Sentinel), tabId, message], listener, now);
      var reply := listener(message, MessageSender(Num(Ctrl2Sentinel), Num(Ctrl2Sentinel))).value;
      && d.response.Some?
      && d.response.value.err == Null
      && d.response.value.value.Obj?
      && d.response.value.value.props["inError"]
           == Obj(map["lastError" := Undefined, "ctrlEvents" := Arr([Num(6303), Num(10834), Num(16897)])])
      && (forall k :: k in OwnProps(reply) && k != "inError" && k != ProtoKey ==>
            k in d.response.value.value.props && d.response.value.value.props[k] == OwnProps(reply)[k])
      && ProtoKey !in d.response.value.value.props
  {
    var rt := Construct(extensionId, env).0;
    assert Classify(rt, Num(Ctrl2Sentinel)) == Ctrl2;
    var snapshot := CtrlEventsInError(rt);
    assert snapshot == Obj(map["lastError" := Undefined, "ctrlEvents" := Arr([Num(6303), Num(10834), Num(16897)])]);
    var sender := MessageSender(Num(Ctrl2Sentinel), Num(Ctrl2Sentinel));
    var reply := listener(message, sender).value;
    var d := HandleRuntimeOnMessage(rt, [Num(Ctrl2Sentinel), tabId, message], listener, now);
    assert d == Dispatch(message, sender, Some(Response(Null, CopyWith(reply, "inError", snapshot))));
    assert ExtendsWith(d.response.value.value, reply, "inError", snapshot);
  }

  /** The third sentinel after a fault: the record carries the most recent error, the
      sentinels and the clock reading, and none of the reply. */
  lemma TimestampedQueryAfterFault(
    rt: RuntimeState, err: JsVal, tabId: JsVal, message: JsVal, listener: Listener, now: int)
    requires Valid(rt)
    requires listener(message, MessageSender(Num(Ctrl3Sentinel), Num(Ctrl3Sentinel))).Some?
    ensures var d := HandleRuntimeOnMessage(HandleError(rt, err), [Num(Ctrl3Sentinel), tabId, message], listener, now);
      && d.response.Some?
      && d.response.value.value.props.Keys == {"inError", "ctrl3", "ts"}
      && d.response.value.value.props["inError"].props["lastError"] == err
      && d.response.value.value.props["ts"] == Num(now)
  {
  }

  /** A content script of "ext1" registers its handler and then announces itself. */
  lemma ContentScriptConnects()
    ensures Construct("ext1", ContentScript).1
              == [RegisterHandler(OnMessageChannel("ext1")), Send(ContentScriptConnectChannel("ext1"))]
  {
  }

  /** `sendMessage("hello")` from that content script issues exactly one request, to its
      own id, and nothing else. */
  lemma ContentScriptSendsToSelf(reply: Option<TransportReply>)
    ensures SendMessage(Construct("ext1", ContentScript).0, [Str("hello")], reply)
              == Success([Request(SendMessageChannel, [Str("ext1"), Str("hello")])])
  {
    var rt := Construct("ext1", ContentScript).0;
    var request := Request(SendMessageChannel, [Str("ext1"), Str("hello")]);
    var res := Resolved(Str("ext1"), Str("hello"), Undefined);
    assert rt.id == "ext1" && rt.env == ContentScript;
    assert SplitCallback([Str("hello")]) == CallbackSplit(None, [Str("hello")]);
    assert ResolveSendArgs(rt.id, [Str("hello")]) == Some(res);
    OnlyTheRequest(res, reply);
  }

  /** A message arriving at that instance from "ext2" reaches the listener with the real
      sender and tab, and any reply comes back unmodified. */
  lemma OrdinarySenderReachesListener(tabId: JsVal, message: JsVal, listener: Listener, now: int)
    ensures var d := HandleRuntimeOnMessage(Construct("ext1", ContentScript).0, [Str("ext2"), tabId, message], listener, now);
      && d.sender == MessageSender(Str("ext2"), tabId)
      && (d.response.Some? <==> listener(message, d.sender).Some?)
      && (d.response.Some? ==> d.response.value == Response(Null, listener(message, d.sender).value))
  {
  }
}
