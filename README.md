# request dispatch of axios-miniprogram, modelled in Dafny

`request(config)` in `src/core/request.ts` sends one HTTP-style request
through a pluggable platform adapter and settles one Promise. It normalises
the configuration, rejects at once when no adapter is configured, and
otherwise hands the adapter a descriptor with `success` and `fail`
callbacks. It keeps the task handle the adapter returns, which may be absent.
When a cancel token is present it subscribes to the token's listener. A
success is checked against the optional `validateStatus`. A failure payload
is unwrapped into a message. A cancellation aborts the task, when there is
one, and rejects with the raw reason. The Promise settles once: the first of
success, fail and cancel decides the outcome. Later triggers still run their
side effects, such as `abort()`.

Files:

- `wrappers.dfy`, module `Wrappers`: the `Option` type.
- `decimal.dfy`, module `Decimal`: how the template literal renders the
  integral status in the rejection message (`ShowInt`, for |n| < 10^21,
  below which JavaScript writes integral numbers without an exponent), and
  the parser `ParseInt` that inverts it.
- `request.dfy`, module `Request`:
  - the data model: configuration, descriptor, responses, errors, the
    failure payload, the cancellation reason, the Promise outcome and the
    events;
  - the specification, a pure state machine: `Start` gives the state after
    the executor has run, `Step` applies one event, `Run` applies an event
    sequence, and `Valid` is the invariant of every reachable state;
  - the class `Dispatcher`, which is the executor and its closures as the
    source runs them. Its constructor and callback methods update its
    fields, and each is proved to move `State()` exactly as `Start` or
    `Step` does;
  - lemmas for the promised properties.

The adapter's transport is external, so what the adapter returns is a
parameter of the constructor (`returned`). Racing triggers are modelled as
an arbitrary sequence of events applied one at a time. The callbacks can
only be called once they exist. `OnSuccess` and `OnFail` therefore require
that the adapter was invoked. `OnCancel` requires that the listener was
subscribed and has not fired: the listener is a Promise, so its callback runs
at most once. In the pure `Step`, an event that nothing listens for changes
nothing. `abortCalls` counts the calls to `task.abort()`.

The missing-adapter rejection carries the source's fixed message
(src/core/request.ts:32), kept unchanged as `ADAPTER_MISSING_MESSAGE`.

## Model

| member | source | states |
|---|---|---|
| `Request.Settle` | src/core/request.ts:13 | A Promise settles once: resolving or rejecting a pending Promise sets the outcome. Once it is settled, nothing changes, and no other part of the state is touched. |
| `Request.Dispatcher.constructor` | src/core/request.ts:14-69 | The executor leaves the dispatcher in `Start(config, returned)`, with `Valid` established. |
| `Request.Dispatcher.Resolve` | src/core/request.ts:46 | `resolve(response)` is `Settle` with `Resolved(response)`. |
| `Request.Dispatcher.Reject` | src/core/request.ts:28 | `reject(value)` is `Settle` with `Rejected(value)`. |
| `Request.Dispatcher.CatchError` | src/core/request.ts:23-29 | The message is unwrapped: a string is kept, otherwise its `fail` field is used. The call then rejects with `createError(message, config, requestConfig, response)`. |
| `Request.Dispatcher.OnSuccess` | src/core/request.ts:42-50 | `handleResponse` moves the state as `Step(Success(res))` does, and keeps `Valid`. |
| `Request.Dispatcher.OnFail` | src/core/request.ts:56 | The `fail` callback moves the state as `Step(Fail(payload))` does, and keeps `Valid`. |
| `Request.Dispatcher.OnCancel` | src/core/request.ts:62-68 | `onCanceled` moves the state as `Step(Cancel(reason))` does: it aborts when there is a task, then rejects with the reason. It keeps `Valid`. |
| `Request.HandleResponse` | src/core/request.ts:42-50 | A success always asks for a settlement; it never leaves the Promise pending. |
| `Request.StatusMessage` | src/core/request.ts:48 | The status-rejection message starts with the fixed prefix. The status can be read back from it exactly (`StatusOf`). |
| `Decimal.ParseShowInt` | src/core/request.ts:48 | Parsing the rendered status gives back the status, negative values included. |
| `Decimal.ShowIntInjective` | src/core/request.ts:48 | Two different statuses never render to the same text. |
| `Request.StartValid` | src/core/request.ts:14-69 | The state after the executor satisfies the invariant `Valid`. |
| `Request.StepValid` | src/core/request.ts:42-68 | Every event preserves `Valid`: abort happens at most once, and only after the listener fires with a task present. A fired listener means the Promise is settled. Without an adapter the state stays rejected with the fixed message. |
| `Request.RunValid` | src/core/request.ts:42-68 | Every event sequence preserves `Valid`. |
| `Request.AdapterMissingRejects` | src/core/request.ts:31-35 | Without an adapter the Promise is rejected with the fixed message. No response is attached, but the descriptor is. The adapter is not invoked, there is no task and no subscription. |
| `Request.AdapterMissingIsFinal` | src/core/request.ts:31-35 | Without an adapter, no event sequence changes the state after start. In particular, it never aborts. |
| `Request.RunIdle` | src/core/request.ts:34 | A dispatch that handed out no callbacks and made no subscription ignores every event. |
| `Request.AdapterInvoked` | src/core/request.ts:53-61 | With an adapter: the Promise is pending and the adapter was invoked. The returned task is kept. The listener is subscribed exactly when a cancel token is configured. Nothing has been aborted yet. |
| `Request.SuccessResolvesWithoutValidateStatus` | src/core/request.ts:43-46 | Without `validateStatus`, a success resolves with `transformResponse(res, config)`, whatever the status. |
| `Request.SuccessResolvesIffAccepted` | src/core/request.ts:45-49 | A success on a pending Promise resolves exactly when `validateStatus` is absent or accepts the status. When it resolves, the value is the transformed response. |
| `Request.SuccessRejectedByValidateStatus` | src/core/request.ts:45-48 | A status rejected by `validateStatus` rejects with an error. Its message is the status message, and the status can be read back from it. The transformed response, the config and the descriptor are attached. |
| `Request.FailRejectsWithMessage` | src/core/request.ts:23-28 | A failure rejects with an error. Its message is the payload when that is a string, otherwise the payload's `fail` field. No response is attached. |
| `Request.CancelWhilePending` | src/core/request.ts:62-67 | A cancellation while pending aborts exactly once when there is a task, and not at all without one. It rejects with the raw reason, not with a built error. |
| `Request.LateCancelStillAborts` | src/core/request.ts:62-67 | A cancellation after settlement leaves the outcome as it is, but still aborts once when there is a task. |
| `Request.SettledIsFinal` | src/core/request.ts:13 | Once settled, no event sequence changes the outcome. |
| `Request.RunAppend` | src/core/request.ts:13 | Running two event sequences one after the other is the same as running them joined. |
| `Request.FirstSettlementWins` | src/core/request.ts:13 | The first event that settles the Promise decides the outcome of the whole run. |
| `Request.PendingUntilSettled` | src/core/request.ts:13 | A run that ends settled has a first settling event. |
| `Request.AbortCalls` | src/core/request.ts:61-65 | Over any event sequence, abort is called exactly once when the listener was subscribed, a task exists and some cancellation arrives, before or after settlement. Otherwise it is never called. |
| `Request.RunFired` | src/core/request.ts:62 | After the listener has fired, nothing aborts again and the listener stays fired. |
| `Request.NoTokenNoAbort` | src/core/request.ts:61 | Without a cancel token nothing is subscribed, and over any event sequence abort is never called. |
| `Request.CancelUnobservedWithoutToken` | src/core/request.ts:61 | Without a cancel token a cancellation changes nothing. |
| `Request.CancelBeforeSuccess` | src/core/request.ts:53-68 | This scenario uses a task and a token. A cancellation comes first and a success follows. The task is aborted once, and the Promise stays rejected with the reason. |

## Left out

- The adapter's transport and the host runtime's I/O are left out. What the adapter returns is the constructor parameter `returned`. Its later callbacks are the events.
- The bodies of `transformRequest` and `createError` are not part of this model. Their results are the datatype constructors `TransformRequest` and `CreateError`, which only record their arguments.
- The body of `transformResponse` is not part of this model either. `TransformResponse` is a concrete function that copies the adapter's status, headers and data and attaches the config. The status lemmas are stated over `TransformResponse(res, config).status`, the value the acceptance test reads.
- `isString` and `isUndefined` are left out. They become the `Str`/`Wrapped` split and the `Option` cases.
- Promise and microtask scheduling are left out. The racing triggers are an arbitrary sequence of events. That also covers an adapter that calls `success` or `fail` synchronously, before it returns its task, because `handleResponse` and `catchError` do not read the task.
- A `fail` payload that is neither a string nor an object with a `fail` field is not modelled. In the source, an object without the field or a number gives an `undefined` message. `fail()`, `fail(undefined)` and `fail(null)` make `message.fail` (src/core/request.ts:25) throw a TypeError: `reject` never runs, and the exception goes back to the adapter that called the callback.
- An adapter that throws synchronously is not modelled. The call (src/core/request.ts:53) runs inside the Promise executor, so the throw rejects the Promise with the thrown value, unless a synchronous `success` or `fail` already settled it. The cancel-token subscription (src/core/request.ts:61-69) is then skipped.
- The cancellation reason is modelled as a string value, `CancelReason`. `validateStatus` is modelled as a total predicate on integers, and statuses are integers, not floating-point numbers.
- The exact wording of the two messages is kept only as constant strings, and nothing is proved about it apart from the status round trip.
- `Decimal.ShowInt`: writes every integer as plain digits. JavaScript writes integral numbers of magnitude 10^21 or more with an exponent ("1e+21"), which is far above any HTTP status.
