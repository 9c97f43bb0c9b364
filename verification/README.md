# Chrome `runtime` messaging façade — a Dafny model

This project models Wavebox's emulation of `chrome.runtime` for hosted Chrome
extensions. Each `Runtime` instance belongs to one extension in one execution
environment: the background page, a content script, or another environment.

- **Construction.** It registers the inbound `onMessage` handler on the
  extension's own channel. In a content script it also announces the connection.
- **`sendMessage`.** The background page refuses the call. Otherwise a trailing
  callback is split off. The remaining arguments resolve against four ordered
  shapes into `(target, message, options)`. A request carrying `[target, message]`
  is issued. The callback runs only on a reply without error.
- **Inbound handler.** It dispatches on the sender id. Three integer control
  sentinels (6303, 10834, 16897) get responses shaped for diagnostics: the
  listener's reply with `ctrl1: true` added, the reply with `inError` added, or a
  fixed `{inError, ctrl3, ts}` record. Any other sender gets the listener's reply
  unchanged.
- **Last-error slot.** A one-element slot that each new internal fault
  overwrites. `ctrlEventsInError` reads it together with the sentinels.
- **`setUninstallURL`.** Absent in content scripts. Elsewhere it only warns.

The model is functional. Each operation is a pure function. Effects on
collaborators come back as a trace of `Effect`s: handler registration,
transport send, transport request, callback invocation and console diagnostic.
Inputs from collaborators are parameters:
- the transport's reply, `None` when it never replies;
- the listeners' reply, a function of the message and the `MessageSender`;
- the clock reading.

Modules:
- `Wrappers` — `Option` and `Result`.
- `JsValues` — JavaScript values, `typeof`, truthiness, and `Object.assign` as a
  right-biased union of own enumerable properties.
- `ArgParser` — the callback split and first-match over shape patterns.
- `Runtime` — the façade itself.
- `RuntimeProperties` — lemmas relating several calls.

Behaviours of the code worth knowing, all of which the model follows:

- The third sentinel forwards the message to the `onMessage` listeners and
  ignores their reply. The response is built from the instance state and the
  clock alone (Runtime.js:171-174).
- The comment at Runtime.js:159, "make sure we always respond even with control
  events", is not enforced by the code. Every branch answers from inside the
  listeners' reply callback (Runtime.js:162-180). So on every branch, the
  sentinels included, a response is produced if and only if a listener replies
  (`Runtime.HandleRuntimeOnMessage`, `RuntimeProperties.NoReplyNoResponse`).
- Under the `ArgParser.match` assumption below, `sendMessage("X", m)` and
  `sendMessage("X", m, undefined)` do not resolve alike. `typeof undefined` is
  not "object", so the three-argument call fits no shape
  (`RuntimeProperties.UndefinedOptionsMismatch`). Under the same assumption the
  `null` spelling does resolve alike (`RuntimeProperties.NullOptionsAsOmitted`).

The `ArgParser`, `Event`, `MessageSender` and `DispatchManager` sources are not
part of this model. The model makes these assumptions about them:
- `ArgParser.callback` splits off the last argument when its `typeof` is
  "function".
- `ArgParser.match` takes the first pattern whose arity matches and whose type
  names agree with `typeof`, where "any" accepts every value. So `null` and
  arrays count as "object". When no pattern fits, the model reports a
  shape-mismatch error.
- The channel name prefixes are defined in a file that is not part of this
  model. Channels are therefore a datatype (`SendMessageChannel`,
  `OnMessageChannel(id)`, `ContentScriptConnectChannel(id)`), and each
  constructor stands for "prefix followed by the id".

## Model

| member | source | states |
|---|---|---|
| `Runtime.Construct` | src/guest/src/Extensions/Chrome/CRExtensionApi/Runtime/Runtime.js:42-68 | a new instance has the given id and environment, the fixed sentinels and an empty last-error slot; it registers exactly one handler, on `OnMessageChannel(id)`, and announces `ContentScriptConnectChannel(id)` exactly once if it runs in a content script and never otherwise; the trace has two effects in a content script and one elsewhere, and no others |
| `Runtime.HandleError` | src/guest/src/Extensions/Chrome/CRExtensionApi/Runtime/Runtime.js:47-53 | the protected error handler makes the new error the last error; the error array grows only from empty to one element and is otherwise overwritten in place; identity and sentinels are untouched |
| `Runtime.LastErrorIsMostRecent` | src/guest/src/Extensions/Chrome/CRExtensionApi/Runtime/Runtime.js:53-75 | after any run of faults, `lastError` is the most recent one and the slot holds exactly one element, so errors never accumulate; with no faults the instance is unchanged and `undefined` stays the last error |
| `Runtime.CtrlEventsInError` | src/guest/src/Extensions/Chrome/CRExtensionApi/Runtime/Runtime.js:76-87 | the snapshot has exactly the keys `lastError` and `ctrlEvents`: the current last error and the instance's three sentinels in order 1, 2, 3, which on every valid instance are `[6303, 10834, 16897]` |
| `Runtime.SnapshotOrderMatchesDispatch` | src/guest/src/Extensions/Chrome/CRExtensionApi/Runtime/Runtime.js:160-174 | on a valid instance the three ids `ctrlEventsInError` lists are, in order, the sender ids that select the first, second and third control branch of the inbound handler |
| `Runtime.SetUninstallURL` | src/guest/src/Extensions/Chrome/CRExtensionApi/Runtime/Runtime.js:110-118 | the setter is absent exactly in a content script; elsewhere calling it leaves the instance unchanged and emits exactly one warning |
| `ArgParser.SplitCallback` | src/guest/src/Extensions/Chrome/CRExtensionApi/Runtime/Runtime.js:129 | a callback is split off exactly when the last argument is a function; re-appending it gives back the original arguments, and without one the arguments are untouched |
| `ArgParser.FirstFit` | src/guest/src/Extensions/Chrome/CRExtensionApi/Runtime/Runtime.js:130-135 | the chosen pattern fits and no earlier pattern fits; no pattern is chosen exactly when none fits |
| `ArgParser.Match` | src/guest/src/Extensions/Chrome/CRExtensionApi/Runtime/Runtime.js:130-135 | a result is the first fitting pattern's template filled from the arguments; a shape mismatch happens exactly when no pattern fits |
| `Runtime.ResolveSendArgs` | src/guest/src/Extensions/Chrome/CRExtensionApi/Runtime/Runtime.js:130-135 | first-match over the four listed shapes equals the case-by-case reading `SendShape`: `(string, any, object)`, then `(string, any)`, then `(any, object)` and `(any)` with the own id as target, otherwise a mismatch |
| `Runtime.MatchSendPatterns` | src/guest/src/Extensions/Chrome/CRExtensionApi/Runtime/Runtime.js:130-135 | the generic matcher on the four shapes fails exactly when `SendShape` does, and otherwise produces the three-element tuple `(target, message, options)` that `SendShape` gives |
| `Runtime.SendTrace` | src/guest/src/Extensions/Chrome/CRExtensionApi/Runtime/Runtime.js:137-145 | exactly one request goes out, on the send-message channel with payload `[target, message]`; options are never forwarded and cause a diagnostic exactly when truthy; the callback gets the response if and only if one was supplied and the reply's `err` is falsy, and never before the request; each effect happens at most once, and the trace has no other effects |
| `Runtime.SendMessage` | src/guest/src/Extensions/Chrome/CRExtensionApi/Runtime/Runtime.js:124-146 | in the background page the call fails before anything is resolved or sent; it succeeds if and only if it is not in the background page and the callback-free arguments fit a shape; outside the background page every failure is a shape mismatch; a success carries the `SendTrace` effects of the resolution |
| `Runtime.HandleRuntimeOnMessage` | src/guest/src/Extensions/Chrome/CRExtensionApi/Runtime/Runtime.js:158-181 | on every branch the listener receives the message, and a response `(null, …)` exists if and only if the listener replies; an ordinary sender reaches the listener as `(id, tabId)` and gets the reply unmodified; sentinels 1 and 2 reach it with the sentinel as secondary id and get a copy of the reply with `ctrl1: true` or `inError: ctrlEventsInError` overriding; sentinel 3 gets `{inError, ctrl3: true, ts: now}` whatever the reply |
| `JsValues.Assign` | src/guest/src/Extensions/Chrome/CRExtensionApi/Runtime/Runtime.js:163 | `Object.assign`: the result's keys are the target's plus every source's own keys, where "__proto__" is copied only if the target already owns it; a copied key takes its value from the last source that has it, and a key no source has keeps the target's value |
| `JsValues.CopyWith` | src/guest/src/Extensions/Chrome/CRExtensionApi/Runtime/Runtime.js:168 | `Object.assign({}, reply, {key: value})` has exactly the reply's own keys plus `key`, less "__proto__"; `key` maps to `value` and every other key keeps the reply's value |
| `JsValues.ProtoKeyNotCopied` | src/guest/src/Extensions/Chrome/CRExtensionApi/Runtime/Runtime.js:168 | a reply whose only own key is "__proto__" yields a copy whose only own key is the added one |
| `RuntimeProperties.StringThenObjectIsTarget` | src/guest/src/Extensions/Chrome/CRExtensionApi/Runtime/Runtime.js:130-133 | a string followed by an object resolves as target and message with no options, because `(string, any)` is listed before `(any, object)` |
| `RuntimeProperties.NullOptionsAsOmitted` | src/guest/src/Extensions/Chrome/CRExtensionApi/Runtime/Runtime.js:130-141 | `sendMessage("X", m, null)` has the same outcome as `sendMessage("X", m)` for a non-function `m`: same request and no diagnostic |
| `RuntimeProperties.UndefinedOptionsMismatch` | src/guest/src/Extensions/Chrome/CRExtensionApi/Runtime/Runtime.js:130-135 | an explicit `undefined` third argument fits no shape |
| `RuntimeProperties.CallbackDoesNotShiftArguments` | src/guest/src/Extensions/Chrome/CRExtensionApi/Runtime/Runtime.js:129-145 | appending a callback to arguments that resolve leaves them resolving, and both calls issue the same request; the callback then runs exactly when a reply without error arrives |
| `RuntimeProperties.NoCallbackNoInvocation` | src/guest/src/Extensions/Chrome/CRExtensionApi/Runtime/Runtime.js:141-145 | without a callback, no reply causes an invocation |
| `RuntimeProperties.StringSenderIsOrdinary` | src/guest/src/Extensions/Chrome/CRExtensionApi/Runtime/Runtime.js:160-176 | under strict equality a string sender id never selects a sentinel branch |
| `RuntimeProperties.NoReplyNoResponse` | src/guest/src/Extensions/Chrome/CRExtensionApi/Runtime/Runtime.js:158-179 | when no listener replies, no branch responds, the sentinel branches included |
| `RuntimeProperties.FreshInstanceErrorQuery` | src/guest/src/Extensions/Chrome/CRExtensionApi/Runtime/Runtime.js:166-169 | the second sentinel sent to a new instance adds `inError = {lastError: undefined, ctrlEvents: [6303, 10834, 16897]}` and keeps the reply's other keys, except "__proto__", which the copy never owns |
| `RuntimeProperties.TimestampedQueryAfterFault` | src/guest/src/Extensions/Chrome/CRExtensionApi/Runtime/Runtime.js:171-174 | after a fault, the third sentinel's response has exactly the keys `inError`, `ctrl3` and `ts`, reports that fault as the last error and carries the clock reading |
| `RuntimeProperties.ContentScriptConnects` | src/guest/src/Extensions/Chrome/CRExtensionApi/Runtime/Runtime.js:62-67 | a content script of "ext1" registers its handler on `OnMessageChannel("ext1")` and then sends `ContentScriptConnectChannel("ext1")`, and has no other construction effect |
| `RuntimeProperties.ContentScriptSendsToSelf` | src/guest/src/Extensions/Chrome/CRExtensionApi/Runtime/Runtime.js:124-141 | `sendMessage("hello")` from that content script has exactly one effect: the request `["ext1", "hello"]` on the send-message channel, its own id being the default target |
| `RuntimeProperties.OrdinarySenderReachesListener` | src/guest/src/Extensions/Chrome/CRExtensionApi/Runtime/Runtime.js:176-179 | a message from "ext2" reaches the listener with sender `("ext2", tabId)`; a response exists exactly when the listener replies, and it is `(null, reply)` with no control fields added |

## Left out

- `getURL`: it is a thin wrapper over Node's `url.format`, whose escaping rules are not part of this model.
- `getManifest`: it returns the data source's `cloneData()`, which is not part of this model. The data source is therefore not a field of `RuntimeState`.
- The `id` getter is the `id` field of `RuntimeState`. `onInstalled` (an `EventUnsupported`) is not modelled.
- `Event` internals are not modelled: listener order and "first reply wins". `emit` is a function from message and sender to an optional single reply. The reply is passed to the response callback synchronously.
- `DispatchManager` and the `ipcRenderer` transport are not modelled. Their calls are effects in the trace, and the reply is a parameter. Duplicate-registration rejection is not modelled. The transport's copy of payloads is not modelled.
- `Runtime.HandleRuntimeOnMessage`: `ctrlEventsInError` is read from the instance state when the inbound message is handled. In the code it is read when the listener replies, which may be after later faults.
- `Runtime.SendMessage`: the request and the reply's callback are one trace. The asynchrony between them is not modelled.
- `new Date().getTime()` is the `now` parameter. `console.warn` and `console.error` are `Diagnostic` effects.
- Symbol-keyed privacy and `Object.freeze` are not modelled. The instance is an immutable value, and only the error array changes.
- `ctrlEventsInError` wraps the `lastError` read in a try/catch. The getter cannot throw, so the catch branch is not modelled.
- Numbers are integers, because the code only compares sender ids with the integer sentinels and forwards other numbers.
- `JsValues.Assign`: an `Object.assign` source that is a function contributes no properties. Function handles are opaque, so own properties set on a function are not modelled.
- `JsValues.Assign`: a string source is indexed by Dafny characters (Unicode scalar values), not by UTF-16 code units. A character outside the Basic Multilingual Plane is therefore one indexed key here, but two keys (one per surrogate) in JavaScript.
- `JsValues.Assign`: a "__proto__" key in a source is not copied unless the target owns one, as in JavaScript. Its other effect is not modelled: when the value is an object or `null`, it replaces the target's prototype, and inherited properties are not modelled.
- `JsValues.CopyWith`: inherits both `JsValues.Assign` gaps: the UTF-16 indexing of a string reply, and the prototype change from a reply's "__proto__" key. Only the dropped own key is stated.
