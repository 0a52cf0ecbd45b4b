/**
 The dispatcher of one request: `request(config)` in src/core/request.ts.

 The executor of the returned Promise normalises the configuration, rejects at
 once when no platform adapter is configured, and otherwise hands the adapter
 a descriptor with `success` and `fail` callbacks, keeps the task handle the
 adapter returns, and subscribes to the cancel token. The Promise settles
 once: the first of success, fail and cancel decides the outcome.

 The model has two layers. `Start`, `Step` and `Run` are the specification: a
 pure state machine over a value `DispatchState`, driven by an arbitrary
 sequence of events. `Dispatcher` is the imperative program: a class whose
 fields the constructor and the callback methods update, each method proved
 to move `State()` exactly as `Step` does.
 */
module Request {
  import opened Wrappers
  import opened Decimal

  // ---------------------------------------------------------------------------
  // Data model
  // ---------------------------------------------------------------------------

  /** A platform adapter; its transport is external, only its presence matters here. */
  datatype Adapter = Adapter(platform: string)

  /** A cancel token; the dispatcher only subscribes to its listener. */
  datatype CancelToken = CancelToken(id: nat)

  /** The opaque handle an adapter may return; the dispatcher only calls `abort()` on it. */
  datatype Task = Task(id: nat)

  /** The caller's configuration: the fields this core reads. */
  datatype Config = Config(
    adapter: Option<Adapter>,
    cancelToken: Option<CancelToken>,
    validateStatus: Option<int -> bool>)

  /** The adapter-ready descriptor; `transformRequest` itself is not part of this model. */
  datatype RequestConfig = TransformRequest(config: Config)

  /** What the adapter hands to `success`. */
  datatype RawResponse = RawResponse(status: int, headers: seq<(string, string)>, data: string)

  /** The normalised response, bound to the original configuration. */
  datatype AxiosResponse = AxiosResponse(
    status: int,
    headers: seq<(string, string)>,
    data: string,
    config: Config)

  /** The error built by `createError(message, config, requestConfig, response)`. */
  datatype AxiosError = CreateError(
    message: string,
    config: Config,
    request: RequestConfig,
    response: Option<AxiosResponse>)

  /** What the adapter hands to `fail`: a message, or an object carrying it in `fail`. */
  datatype FailPayload = Str(s: string) | Wrapped(fail: string)

  /** The value the cancel token's listener yields. */
  datatype CancelReason = CancelReason(value: string)

  /** A rejection value: an error built here, or the raw cancellation reason. */
  datatype Rejection = ErrorValue(error: AxiosError) | CancelValue(reason: CancelReason)

  /** The state of the Promise. */
  datatype Outcome = Pending | Resolved(response: AxiosResponse) | Rejected(rejection: Rejection)

  /** The external events that can reach one dispatch. */
  datatype Event = Success(res: RawResponse) | Fail(payload: FailPayload) | Cancel(reason: CancelReason)

  /** The whole observable state of one dispatch. */
  datatype DispatchState = DispatchState(
    outcome: Outcome,
    adapterInvoked: bool,
    task: Option<Task>,
    subscribed: bool,
    listenerFired: bool,
    abortCalls: nat)

  const ADAPTER_MISSING_MESSAGE: string := "平台适配失败，您需要参阅文档使用自定义适配器手动适配当前平台"
  const STATUS_MESSAGE_PREFIX: string := "请求失败，状态码为 "

  // ---------------------------------------------------------------------------
  // Pure parts of the dispatcher
  // ---------------------------------------------------------------------------

  /** `transformResponse(res, config)`, as this model takes it: status, headers and data copied, the config attached. */
  function TransformResponse(res: RawResponse, config: Config): AxiosResponse {
    AxiosResponse(res.status, res.headers, res.data, config)
  }

  /** The acceptance test: status validation is opt-in. */
  predicate Accepts(validateStatus: Option<int -> bool>, status: int) {
    validateStatus.None? || validateStatus.value(status)
  }

  /** The message `catchError` passes on: a string as it is, otherwise its `fail` field. */
  function UnwrapMessage(payload: FailPayload): string {
    match payload
    case Str(s) => s
    case Wrapped(f) => f
  }

  /** The message of a status rejection; the status can be read back from it. */
  function StatusMessage(status: int): (m: string)
    ensures |STATUS_MESSAGE_PREFIX| < |m| && m[..|STATUS_MESSAGE_PREFIX|] == STATUS_MESSAGE_PREFIX
    ensures StatusOf(m) == Some(status)
  {
    var m := STATUS_MESSAGE_PREFIX + ShowInt(status);
    assert m[|STATUS_MESSAGE_PREFIX|..] == ShowInt(status);
    ParseShowInt(status);
    m
  }

  /** Reads the status back from a status-rejection message. */
  function StatusOf(m: string): Option<int> {
    if |STATUS_MESSAGE_PREFIX| <= |m| && m[..|STATUS_MESSAGE_PREFIX|] == STATUS_MESSAGE_PREFIX
    then ParseInt(m[|STATUS_MESSAGE_PREFIX|..])
    else None
  }

  /** The error `catchError(message, response)` builds. */
  function CatchErrorValue(config: Config, message: FailPayload, response: Option<AxiosResponse>): AxiosError {
    CreateError(UnwrapMessage(message), config, TransformRequest(config), response)
  }

  /** The settlement `handleResponse(res)` asks for. */
  function HandleResponse(config: Config, res: RawResponse): (o: Outcome)
    ensures !o.Pending?
  {
    var response := TransformResponse(res, config);
    if Accepts(config.validateStatus, response.status) then Resolved(response)
    else Rejected(ErrorValue(CatchErrorValue(config, Str(StatusMessage(response.status)), Some(response))))
  }

  // ---------------------------------------------------------------------------
  // Specification: the dispatch as a state machine
  // ---------------------------------------------------------------------------

  /** A Promise settles once: a later resolve or reject leaves it as it is. */
  function Settle(s: DispatchState, o: Outcome): (t: DispatchState)
    requires !o.Pending?
    ensures !t.outcome.Pending?
    ensures s.outcome.Pending? ==> t.outcome == o
    ensures !s.outcome.Pending? ==> t == s
    ensures t.(outcome := s.outcome) == s
  {
    if s.outcome.Pending? then s.(outcome := o) else s
  }

  /** The state right after the executor ran; `returned` is what the adapter returned. */
  function Start(config: Config, returned: Option<Task>): DispatchState {
    if config.adapter.None? then
      DispatchState(Rejected(ErrorValue(CatchErrorValue(config, Str(ADAPTER_MISSING_MESSAGE), None))),
                    false, None, false, false, 0)
    else
      DispatchState(Pending, true, returned, config.cancelToken.Some?, false, 0)
  }

  /**
   One event. `success` and `fail` exist only once handed to the adapter, and
   the listener callback only once subscribed; it runs at most once, since the
   listener is a Promise. An event nothing is listening for changes nothing.
   */
  function Step(config: Config, s: DispatchState, e: Event): DispatchState {
    match e
    case Success(res) =>
      if !s.adapterInvoked then s else Settle(s, HandleResponse(config, res))
    case Fail(payload) =>
      if !s.adapterInvoked then s else Settle(s, Rejected(ErrorValue(CatchErrorValue(config, payload, None))))
    case Cancel(reason) =>
      if !s.subscribed || s.listenerFired then s
      else
        var aborted := s.(listenerFired := true,
                          abortCalls := if s.task.Some? then s.abortCalls + 1 else s.abortCalls);
        Settle(aborted, Rejected(CancelValue(reason)))
  }

  /** Events applied one at a time, in order. */
  function Run(config: Config, s: DispatchState, events: seq<Event>): DispatchState
    decreases |events|
  {
    if events == [] then s else Run(config, Step(config, s, events[0]), events[1..])
  }

  /** The invariant of every state reachable from `Start`. */
  ghost predicate Valid(config: Config, s: DispatchState) {
    && (s.adapterInvoked <==> config.adapter.Some?)
    && (!s.adapterInvoked ==>
          s.outcome == Rejected(ErrorValue(CatchErrorValue(config, Str(ADAPTER_MISSING_MESSAGE), None)))
          && s.task.None? && !s.subscribed)
    && (s.subscribed ==> config.cancelToken.Some?)
    && (s.listenerFired ==> s.subscribed && !s.outcome.Pending?)
    && s.abortCalls <= 1
    && (s.abortCalls == 1 ==> s.listenerFired && s.task.Some?)
  }

  // ---------------------------------------------------------------------------
  // The dispatcher as the source runs it
  // ---------------------------------------------------------------------------

  class Dispatcher {
    const config: Config
    const requestConfig: RequestConfig
    var outcome: Outcome
    var adapterInvoked: bool
    var task: Option<Task>
    var subscribed: bool
    var listenerFired: bool
    var abortCalls: nat

    ghost function State(): DispatchState
      reads this
    {
      DispatchState(outcome, adapterInvoked, task, subscribed, listenerFired, abortCalls)
    }

    ghost predicate Inv()
      reads this
    {
      requestConfig == TransformRequest(config) && Valid(config, State())
    }

    /** The executor: `returned` is what the adapter returns when it is invoked. */
    constructor (config: Config, returned: Option<Task>)
      ensures this.config == config
      ensures Inv()
      ensures State() == Start(config, returned)
    {
      this.config := config;
      requestConfig := TransformRequest(config);
      outcome := Pending;
      adapterInvoked := false;
      task := None;
      subscribed := false;
      listenerFired := false;
      abortCalls := 0;
      new;
      if config.adapter.None? {
        CatchError(Str(ADAPTER_MISSING_MESSAGE), None);
        return;
      }
      adapterInvoked := true;
      task := returned;
      if config.cancelToken.Some? {
        subscribed := true;
      }
    }

    /** The Promise's `resolve`. */
    method Resolve(response: AxiosResponse)
      modifies this
      ensures State() == Settle(old(State()), Resolved(response))
    {
      if outcome.Pending? {
        outcome := Resolved(response);
      }
    }

    /** The Promise's `reject`. */
    method Reject(rejection: Rejection)
      modifies this
      ensures State() == Settle(old(State()), Rejected(rejection))
    {
      if outcome.Pending? {
        outcome := Rejected(rejection);
      }
    }

    /** `catchError`: unwrap the message, then reject with a built error. */
    method CatchError(message: FailPayload, response: Option<AxiosResponse>)
      requires requestConfig == TransformRequest(config)
      modifies this
      ensures State() == Settle(old(State()), Rejected(ErrorValue(CatchErrorValue(config, message, response))))
    {
      var text: string;
      if message.Str? {
        text := message.s;
      } else {
        text := message.fail;
      }
      Reject(ErrorValue(CreateError(text, config, requestConfig, response)));
    }

    /** `handleResponse`: the adapter's `success` callback. */
    method OnSuccess(res: RawResponse)
      requires Inv() && adapterInvoked
      modifies this
      ensures Inv()
      ensures State() == Step(config, old(State()), Success(res))
    {
      var response := TransformResponse(res, config);
      if config.validateStatus.None? || config.validateStatus.value(response.status) {
        Resolve(response);
      } else {
        CatchError(Str(StatusMessage(response.status)), Some(response));
      }
    }

    /** The adapter's `fail` callback, which is `catchError` without a response. */
    method OnFail(payload: FailPayload)
      requires Inv() && adapterInvoked
      modifies this
      ensures Inv()
      ensures State() == Step(config, old(State()), Fail(payload))
    {
      CatchError(payload, None);
    }

    /** `onCanceled`: abort the task if there is one, then reject with the raw reason. */
    method OnCancel(reason: CancelReason)
      requires Inv() && subscribed && !listenerFired
      modifies this
      ensures Inv()
      ensures State() == Step(config, old(State()), Cancel(reason))
    {
      listenerFired := true;
      if task.Some? {
        abortCalls := abortCalls + 1;
      }
      Reject(CancelValue(reason));
    }
  }

  // ---------------------------------------------------------------------------
  // Properties
  // ---------------------------------------------------------------------------

  lemma StartValid(config: Config, returned: Option<Task>)
    ensures Valid(config, Start(config, returned))
  {
  }

  lemma StepValid(config: Config, s: DispatchState, e: Event)
    requires Valid(config, s)
    ensures Valid(config, Step(config, s, e))
  {
  }

  lemma {:induction false} RunValid(config: Config, s: DispatchState, events: seq<Event>)
    requires Valid(config, s)
    ensures Valid(config, Run(config, s, events))
    decreases |events|
  {
    if events != [] {
      StepValid(config, s, events[0]);
      RunValid(config, Step(config, s, events[0]), events[1..]);
    }
  }

  /** Without an adapter: rejected at once with the fixed message, nothing invoked or subscribed. */
  lemma AdapterMissingRejects(config: Config, returned: Option<Task>)
    requires config.adapter.None?
    ensures var s := Start(config, returned);
      && s.outcome.Rejected? && s.outcome.rejection.ErrorValue?
      && s.outcome.rejection.error.message == ADAPTER_MISSING_MESSAGE
      && s.outcome.rejection.error.response.None?
      && s.outcome.rejection.error.request == TransformRequest(config)
      && !s.adapterInvoked && !s.subscribed && s.task.None?
  {
  }

  /** ... and no later event changes any of that. */
  lemma {:induction false} AdapterMissingIsFinal(config: Config, returned: Option<Task>, events: seq<Event>)
    requires config.adapter.None?
    ensures Run(config, Start(config, returned), events) == Start(config, returned)
  {
    var s := Start(config, returned);
    RunIdle(config, s, events);
  }

  lemma {:induction false} RunIdle(config: Config, s: DispatchState, events: seq<Event>)
    requires !s.adapterInvoked && !s.subscribed
    ensures Run(config, s, events) == s
    decreases |events|
  {
    if events != [] {
      RunIdle(config, s, events[1..]);
    }
  }

  /** With an adapter: pending, adapter invoked, task kept, subscribed iff there is a token. */
  lemma AdapterInvoked(config: Config, returned: Option<Task>)
    requires config.adapter.Some?
    ensures var s := Start(config, returned);
      s.outcome.Pending? && s.adapterInvoked && s.task == returned
      && (s.subscribed <==> config.cancelToken.Some?) && s.abortCalls == 0
  {
  }

  /** Without `validateStatus` a success resolves with the transformed response, whatever the status. */
  lemma SuccessResolvesWithoutValidateStatus(config: Config, s: DispatchState, res: RawResponse)
    requires s.outcome.Pending? && s.adapterInvoked && config.validateStatus.None?
    ensures Step(config, s, Success(res)).outcome == Resolved(TransformResponse(res, config))
  {
  }

  /** A success resolves exactly when the status is accepted. */
  lemma SuccessResolvesIffAccepted(config: Config, s: DispatchState, res: RawResponse)
    requires s.outcome.Pending? && s.adapterInvoked
    ensures Step(config, s, Success(res)).outcome.Resolved?
        <==> config.validateStatus.None? || config.validateStatus.value(TransformResponse(res, config).status)
    ensures Step(config, s, Success(res)).outcome.Resolved? ==>
            Step(config, s, Success(res)).outcome.response == TransformResponse(res, config)
  {
  }

  /** A rejected status: the message holds the status, the response is attached. */
  lemma SuccessRejectedByValidateStatus(config: Config, s: DispatchState, res: RawResponse)
    requires s.outcome.Pending? && s.adapterInvoked
    requires config.validateStatus.Some? && !config.validateStatus.value(TransformResponse(res, config).status)
    ensures var o := Step(config, s, Success(res)).outcome;
      && o.Rejected? && o.rejection.ErrorValue?
      && o.rejection.error.message == StatusMessage(TransformResponse(res, config).status)
      && StatusOf(o.rejection.error.message) == Some(TransformResponse(res, config).status)
      && o.rejection.error.response == Some(TransformResponse(res, config))
      && o.rejection.error.config == config
      && o.rejection.error.request == TransformRequest(config)
  {
  }

  /** A transport failure: the unwrapped message, no response. */
  lemma FailRejectsWithMessage(config: Config, s: DispatchState, payload: FailPayload)
    requires s.outcome.Pending? && s.adapterInvoked
    ensures var o := Step(config, s, Fail(payload)).outcome;
      && o.Rejected? && o.rejection.ErrorValue?
      && o.rejection.error.message == (if payload.Str? then payload.s else payload.fail)
      && o.rejection.error.response.None?
      && o.rejection.error.request == TransformRequest(config)
  {
  }

  /** A cancellation while pending: abort once if there is a task, reject with the raw reason. */
  lemma CancelWhilePending(config: Config, s: DispatchState, reason: CancelReason)
    requires s.outcome.Pending? && s.subscribed && !s.listenerFired
    ensures var t := Step(config, s, Cancel(reason));
      && t.outcome == Rejected(CancelValue(reason))
      && t.abortCalls == s.abortCalls + (if s.task.Some? then 1 else 0)
  {
  }

  /** A late cancellation: the outcome stays, but the task is still aborted. */
  lemma LateCancelStillAborts(config: Config, s: DispatchState, reason: CancelReason)
    requires !s.outcome.Pending? && s.subscribed && !s.listenerFired
    ensures var t := Step(config, s, Cancel(reason));
      && t.outcome == s.outcome
      && t.abortCalls == s.abortCalls + (if s.task.Some? then 1 else 0)
  {
  }

  /** Once settled, no sequence of events changes the outcome. */
  lemma {:induction false} SettledIsFinal(config: Config, s: DispatchState, events: seq<Event>)
    requires !s.outcome.Pending?
    ensures Run(config, s, events).outcome == s.outcome
    decreases |events|
  {
    if events != [] {
      var t := Step(config, s, events[0]);
      assert t.outcome == s.outcome;
      SettledIsFinal(config, t, events[1..]);
    }
  }

  lemma {:induction false} RunAppend(config: Config, s: DispatchState, a: seq<Event>, b: seq<Event>)
    ensures Run(config, s, a + b) == Run(config, Run(config, s, a), b)
    decreases |a|
  {
    if a == [] {
      assert a + b == b;
    } else {
      assert (a + b)[0] == a[0];
      assert (a + b)[1..] == a[1..] + b;
      RunAppend(config, Step(config, s, a[0]), a[1..], b);
    }
  }

  /** The first event that settles the Promise decides the outcome of the whole run. */
  lemma FirstSettlementWins(config: Config, s: DispatchState, events: seq<Event>, i: nat)
    requires i < |events|
    requires Run(config, s, events[..i]).outcome.Pending?
    requires !Step(config, Run(config, s, events[..i]), events[i]).outcome.Pending?
    ensures Run(config, s, events).outcome == Step(config, Run(config, s, events[..i]), events[i]).outcome
  {
    var before := Run(config, s, events[..i]);
    var after := Step(config, before, events[i]);
    assert events == events[..i] + [events[i]] + events[i + 1..];
    RunAppend(config, s, events[..i] + [events[i]], events[i + 1..]);
    RunAppend(config, s, events[..i], [events[i]]);
    assert Run(config, before, [events[i]]) == after by {
      assert [events[i]][1..] == [];
    }
    SettledIsFinal(config, after, events[i + 1..]);
  }

  /** Events while pending leave the outcome pending unless one of them settles it. */
  lemma {:induction false} PendingUntilSettled(config: Config, s: DispatchState, events: seq<Event>)
    requires s.outcome.Pending?
    requires !Run(config, s, events).outcome.Pending?
    ensures exists i :: 0 <= i < |events| && Run(config, s, events[..i]).outcome.Pending?
                        && !Step(config, Run(config, s, events[..i]), events[i]).outcome.Pending?
    decreases |events|
  {
    if events == [] {
      assert false;
    } else {
      var t := Step(config, s, events[0]);
      assert events[..0] == [];
      if t.outcome.Pending? {
        PendingUntilSettled(config, t, events[1..]);
        var j :| 0 <= j < |events[1..]| && Run(config, t, events[1..][..j]).outcome.Pending?
                 && !Step(config, Run(config, t, events[1..][..j]), events[1..][j]).outcome.Pending?;
        assert events[..j + 1][0] == events[0];
        assert events[..j + 1][1..] == events[1..][..j];
        assert Run(config, s, events[..j + 1]) == Run(config, t, events[1..][..j]);
        assert events[j + 1] == events[1..][j];
      }
    }
  }

  predicate HasCancel(events: seq<Event>) {
    exists i :: 0 <= i < |events| && events[i].Cancel?
  }

  /**
   The abort count of a run: one exactly when the listener was subscribed, a
   task was returned, and a cancellation arrived, whether before or after the
   Promise settled; zero otherwise.
   */
  lemma {:induction false} AbortCalls(config: Config, s: DispatchState, events: seq<Event>)
    requires !s.listenerFired
    ensures Run(config, s, events).abortCalls
         == s.abortCalls + (if s.subscribed && s.task.Some? && HasCancel(events) then 1 else 0)
    decreases |events|
  {
    if events != [] {
      var t := Step(config, s, events[0]);
      if events[0].Cancel? && s.subscribed {
        assert HasCancel(events);
        RunFired(config, t, events[1..]);
      } else {
        if s.subscribed {
          assert HasCancel(events) <==> HasCancel(events[1..]) by {
            if HasCancel(events) {
              var i :| 0 <= i < |events| && events[i].Cancel?;
              assert events[1..][i - 1].Cancel?;
            }
            if HasCancel(events[1..]) {
              var i :| 0 <= i < |events[1..]| && events[1..][i].Cancel?;
              assert events[i + 1].Cancel?;
            }
          }
        }
        AbortCalls(config, t, events[1..]);
      }
    }
  }

  /** After the listener has fired, no event aborts again. */
  lemma {:induction false} RunFired(config: Config, s: DispatchState, events: seq<Event>)
    requires s.listenerFired
    ensures Run(config, s, events).abortCalls == s.abortCalls
    ensures Run(config, s, events).listenerFired
    decreases |events|
  {
    if events != [] {
      RunFired(config, Step(config, s, events[0]), events[1..]);
    }
  }

  /** Without a cancel token nothing is subscribed and nothing is ever aborted. */
  lemma NoTokenNoAbort(config: Config, returned: Option<Task>, events: seq<Event>)
    requires config.cancelToken.None?
    ensures Run(config, Start(config, returned), events).abortCalls == 0
    ensures !Run(config, Start(config, returned), events).subscribed
  {
    var s := Start(config, returned);
    AbortCalls(config, s, events);
    RunValid(config, s, events);
  }

  /** Without a cancel token a cancellation is never observed: nothing changes. */
  lemma CancelUnobservedWithoutToken(config: Config, s: DispatchState, reason: CancelReason)
    requires Valid(config, s) && config.cancelToken.None?
    ensures Step(config, s, Cancel(reason)) == s
  {
  }

  /**
   A task is returned, the token fires before the adapter answers, and a
   success arrives afterwards: the task is aborted once and the Promise stays
   rejected with the reason.
   */
  method CancelBeforeSuccess(config: Config, returned: Option<Task>, reason: CancelReason, res: RawResponse)
    returns (outcome: Outcome, aborts: nat)
    requires config.adapter.Some? && config.cancelToken.Some? && returned.Some?
    ensures outcome == Rejected(CancelValue(reason)) && aborts == 1
  {
    var d := new Dispatcher(config, returned);
    d.OnCancel(reason);
    d.OnSuccess(res);
    outcome, aborts := d.outcome, d.abortCalls;
  }
}
