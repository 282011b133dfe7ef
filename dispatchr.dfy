/**
 * The dispatcher of src/NetHandler/Dispatchr.cs: `SendAsync` routes a request
 * to the one handler registered for (runtime request type, TResponse) through
 * a cache of invokers keyed by the handler's concrete type; `PublishAsync`
 * hands a notification to every registered handler, one after another.
 */
module Dispatchr {
  import opened Wrappers
  import opened Runtime

  /** The delegate `CreateHandlerInvoker` returns: it calls `Handle(requestType, CancellationToken)` through reflection. */
  datatype Invoker = Invoker(requestType: TypeId)
  {
    /** The parameter list of the `Handle` overload the delegate calls. */
    function Parameters(): seq<TypeId> {
      [requestType, CancellationTokenType]
    }
  }

  /**
   * `inv` is the invoker the source builds for `t`: it calls the public `Handle`
   * overload taking the first `IRequestHandler<,>` interface's request type and a token.
   */
  ghost predicate Builds(t: TypeInfo, inv: Invoker) {
    exists k :: IsFirstRequestHandler(t.interfaces, k) &&
      inv.requestType == t.interfaces[k].args[0] && inv.Parameters() in t.handleMethods
  }

  /**
   * `CreateHandlerInvoker`: select the first `IRequestHandler<,>` interface,
   * take its first type argument as the request type and look up
   * `Handle(TRequest, CancellationToken)`; either step may fail.
   */
  function CreateHandlerInvoker(t: TypeInfo): (r: Result<Invoker, Error>)
    ensures r.Success? ==> Builds(t, r.value)
    ensures (exists inv :: Builds(t, inv)) ==> r.Success?
    ensures r.Failure? ==> r.error.Kind() == InvalidOperationException
    ensures r == Failure(NotARequestHandler(t.id)) <==>
      forall j | 0 <= j < |t.interfaces| :: !IsRequestHandlerInterface(t.interfaces[j])
  {
    var k := FirstRequestHandlerIndex(t.interfaces);
    if k == |t.interfaces| then
      Failure(NotARequestHandler(t.id))
    else
      var inv := Invoker(t.interfaces[k].args[0]);
      if inv.Parameters() in t.handleMethods then
        Success(inv)
      else
        assert !exists inv :: Builds(t, inv) by {
          forall inv': Invoker, k' | IsFirstRequestHandler(t.interfaces, k')
            ensures !(inv'.requestType == t.interfaces[k'].args[0] && inv'.Parameters() in t.handleMethods)
          {
            FirstRequestHandlerUnique(t.interfaces, k, k');
          }
        }
        Failure(HandleMethodMissing(t.id, inv.requestType))
  }

  /** Building is deterministic: an invoker that `Builds` describes is the one `CreateHandlerInvoker` returns. */
  lemma BuiltInvokerIsUnique(t: TypeInfo, inv: Invoker)
    requires Builds(t, inv)
    ensures CreateHandlerInvoker(t) == Success(inv)
  {
    var k :| IsFirstRequestHandler(t.interfaces, k) &&
      inv.requestType == t.interfaces[k].args[0] && inv.Parameters() in t.handleMethods;
    FirstRequestHandlerUnique(t.interfaces, k, FirstRequestHandlerIndex(t.interfaces));
  }

  /**
   * The static `_handlerCache`: a dictionary from a handler's concrete type to
   * its invoker that only ever grows.
   */
  class InvokerCache {
    var entries: map<TypeInfo, Invoker>

    /** Every entry is the invoker built for its type. */
    ghost predicate Valid()
      reads this
    {
      forall t | t in entries :: Builds(t, entries[t])
    }

    constructor ()
      ensures Valid() && entries == map[]
    {
      entries := map[];
    }

    /**
     * `GetOrAdd(t, factory)`: a present entry is returned as it is; otherwise
     * `factory` runs and its invoker is stored, while its exception is not.
     */
    method GetOrAdd(t: TypeInfo, factory: TypeInfo -> Result<Invoker, Error>) returns (r: Result<Invoker, Error>)
      requires Valid()
      requires factory(t).Success? ==> Builds(t, factory(t).value)
      modifies this
      ensures Valid()
      ensures t in old(entries) ==> r == Success(old(entries)[t]) && entries == old(entries)
      ensures t !in old(entries) ==> r == factory(t)
      ensures t !in old(entries) && r.Success? ==> entries == old(entries)[t := r.value]
      ensures t !in old(entries) && r.Failure? ==> entries == old(entries)
    {
      if t in entries {
        return Success(entries[t]);
      }
      r := factory(t);
      if r.Success? {
        entries := entries[t := r.value];
      }
    }
  }

  /** The value `SendAsync` returns after awaiting the handler's task: its `Result`, or `null` when it has none. */
  function Await(o: TaskOutcome): Result<Value, Error> {
    match o
    case Faulted(f) => Failure(HandlerFaulted(f))
    case RanToCompletion(hasResult, v) => Success(if hasResult then v else None)
  }

  /** What running an invoker does: its outcome and the `Handle` calls it made. */
  datatype CallResult = CallResult(outcome: Result<Value, Error>, calls: seq<Invocation>)

  /**
   * One run of the invoker delegate: `MethodInfo.Invoke` refuses a request that
   * is not an instance of the overload's request type with an
   * `ArgumentException`, before `Handle` runs; otherwise `Handle` is called once
   * and its task awaited.
   */
  function InvokeHandler(inv: Invoker, handler: HandlerInstance, request: Object,
                         token: CancellationToken, run: Behaviour): (c: CallResult)
    ensures |c.calls| <= 1
    ensures c.calls == [] <==> !request.IsInstanceOf(inv.requestType)
    ensures c.calls == [] ==> c.outcome.Failure? && c.outcome.error.Kind() == ArgumentException
    ensures c.calls != [] ==>
      && c.calls[0] == Invocation(handler, inv.Parameters(), request, token)
      && request.IsInstanceOf(c.calls[0].handle[0])
      && c.outcome == Await(run(c.calls[0]))
  {
    if !request.IsInstanceOf(inv.requestType) then
      CallResult(Failure(ArgumentTypeMismatch(inv.requestType, request.runtimeType)), [])
    else
      var call := Invocation(handler, inv.Parameters(), request, token);
      CallResult(Await(run(call)), [call])
  }

  /** What one `SendAsync` call does: its outcome, the cache afterwards and the handler calls it made. */
  datatype SendResult = SendResult(outcome: Result<Value, Error>, cache: map<TypeInfo, Invoker>, calls: seq<Invocation>)

  /**
   * `SendAsync` as a function of the provider and the cache before the call.
   */
  function SendStep(provider: ServiceProvider, cache: map<TypeInfo, Invoker>, request: Object,
                    responseType: TypeId, token: CancellationToken, run: Behaviour): (s: SendResult)
    ensures (request.runtimeType, responseType) !in provider.requestHandlers ==>
      s == SendResult(Failure(HandlerNotRegistered(request.runtimeType, responseType)), cache, [])
    ensures cache.Keys <= s.cache.Keys && forall t | t in cache :: s.cache[t] == cache[t]
    ensures |s.calls| <= 1
    ensures s.calls == [] ==> s.outcome.Failure?
    ensures s.cache != cache ==>
      && (request.runtimeType, responseType) in provider.requestHandlers
      && var h := provider.requestHandlers[(request.runtimeType, responseType)];
      && s.cache.Keys == cache.Keys + {h.info}
      && Builds(h.info, s.cache[h.info])
    ensures s.calls != [] ==>
      && (request.runtimeType, responseType) in provider.requestHandlers
      && var h := provider.requestHandlers[(request.runtimeType, responseType)];
      && s.calls[0].target == h && s.calls[0].argument == request && s.calls[0].token == token
      && h.info in s.cache && s.calls[0].handle == s.cache[h.info].Parameters()
      && request.IsInstanceOf(s.calls[0].handle[0])
      && s.outcome == Await(run(s.calls[0]))
  {
    var key := (request.runtimeType, responseType);
    if key !in provider.requestHandlers then
      SendResult(Failure(HandlerNotRegistered(request.runtimeType, responseType)), cache, [])
    else
      var handler := provider.requestHandlers[key];
      var invoker := if handler.info in cache then Success(cache[handler.info]) else CreateHandlerInvoker(handler.info);
      match invoker
      case Failure(e) => SendResult(Failure(e), cache, [])
      case Success(inv) =>
        var c := InvokeHandler(inv, handler, request, token, run);
        SendResult(c.outcome, cache[handler.info := inv], c.calls)
  }

  /** The handlers `GetServices<INotificationHandler<TNotification>>()` yields. */
  function NotificationHandlers(provider: ServiceProvider, notificationType: TypeId): seq<HandlerInstance> {
    if notificationType in provider.notificationHandlers then provider.notificationHandlers[notificationType] else []
  }

  /** The call `handler.Handle(notification, cancellationToken)`. */
  function NotificationCall(h: HandlerInstance, notificationType: TypeId, notification: Object,
                            token: CancellationToken): Invocation {
    Invocation(h, [notificationType, CancellationTokenType], notification, token)
  }

  /** What one `PublishAsync` call does: its outcome and the handler calls it made, in order. */
  datatype PublishResult = PublishResult(outcome: Outcome<Error>, calls: seq<Invocation>)

  /**
   * Sequential fan-out over `handlers`: each handler's task is awaited before
   * the next handler is called, and the first fault ends the fan-out.
   */
  function PublishRun(handlers: seq<HandlerInstance>, notificationType: TypeId, notification: Object,
                      token: CancellationToken, run: Behaviour): (p: PublishResult)
    ensures |p.calls| <= |handlers|
    ensures forall i | 0 <= i < |p.calls| :: p.calls[i] == NotificationCall(handlers[i], notificationType, notification, token)
    ensures p.outcome.Pass? ==> |p.calls| == |handlers|
    ensures p.outcome.Fail? ==> p.outcome.error.Kind() == PropagatedFromHandler
  {
    if handlers == [] then PublishResult(Pass, [])
    else
      var call := NotificationCall(handlers[0], notificationType, notification, token);
      match run(call)
      case Faulted(f) => PublishResult(Fail(HandlerFaulted(f)), [call])
      case RanToCompletion(_, _) =>
        var rest := PublishRun(handlers[1..], notificationType, notification, token, run);
        PublishResult(rest.outcome, [call] + rest.calls)
  }

  /** `SendAsync` consults the provider for its key (runtime request type, TResponse) and nothing else. */
  lemma SendLooksUpOnlyItsKey(p1: ServiceProvider, p2: ServiceProvider, cache: map<TypeInfo, Invoker>, request: Object,
                              responseType: TypeId, token: CancellationToken, run: Behaviour)
    requires var key := (request.runtimeType, responseType);
      (key in p1.requestHandlers <==> key in p2.requestHandlers) &&
      (key in p1.requestHandlers ==> p1.requestHandlers[key] == p2.requestHandlers[key])
    ensures SendStep(p1, cache, request, responseType, token, run) == SendStep(p2, cache, request, responseType, token, run)
  {
  }

  /** A cached invoker is reused as it is: nothing is built, the cache does not change and the invoker runs. */
  lemma SendReusesCachedInvoker(provider: ServiceProvider, cache: map<TypeInfo, Invoker>, request: Object,
                                responseType: TypeId, token: CancellationToken, run: Behaviour)
    requires (request.runtimeType, responseType) in provider.requestHandlers
    requires provider.requestHandlers[(request.runtimeType, responseType)].info in cache
    ensures var h := provider.requestHandlers[(request.runtimeType, responseType)];
      var s := SendStep(provider, cache, request, responseType, token, run);
      s.cache == cache && CallResult(s.outcome, s.calls) == InvokeHandler(cache[h.info], h, request, token, run)
  {
  }

  /**
   * Without a cached invoker one is built: when building fails its exception
   * (an `InvalidOperationException`) ends the call with no handler called and
   * nothing stored; otherwise the new invoker is stored and then run.
   */
  lemma SendBuildsMissingInvoker(provider: ServiceProvider, cache: map<TypeInfo, Invoker>, request: Object,
                                 responseType: TypeId, token: CancellationToken, run: Behaviour)
    requires (request.runtimeType, responseType) in provider.requestHandlers
    requires provider.requestHandlers[(request.runtimeType, responseType)].info !in cache
    ensures var h := provider.requestHandlers[(request.runtimeType, responseType)];
      var s := SendStep(provider, cache, request, responseType, token, run);
      match CreateHandlerInvoker(h.info)
      case Failure(e) =>
        s == SendResult(Failure(e), cache, []) && e.Kind() == InvalidOperationException
      case Success(inv) =>
        s.cache == cache[h.info := inv] && CallResult(s.outcome, s.calls) == InvokeHandler(inv, h, request, token, run)
  {
  }

  /**
   * A request that is not an instance of the invoker's request type is refused
   * by `MethodInfo.Invoke` with an `ArgumentException`: no `Handle` runs, and
   * the invoker stays cached.
   */
  lemma SendRejectsRequestOfOtherType(provider: ServiceProvider, cache: map<TypeInfo, Invoker>, request: Object,
                                      responseType: TypeId, token: CancellationToken, run: Behaviour, inv: Invoker)
    requires (request.runtimeType, responseType) in provider.requestHandlers
    requires var h := provider.requestHandlers[(request.runtimeType, responseType)];
      if h.info in cache then cache[h.info] == inv else CreateHandlerInvoker(h.info) == Success(inv)
    requires !request.IsInstanceOf(inv.requestType)
    ensures var h := provider.requestHandlers[(request.runtimeType, responseType)];
      SendStep(provider, cache, request, responseType, token, run) ==
        SendResult(Failure(ArgumentTypeMismatch(inv.requestType, request.runtimeType)), cache[h.info := inv], [])
  {
  }

  /**
   * A completed `SendAsync` called the resolved handler exactly once, with the
   * request and token it was given, and returns the task's `Result` unmodified
   * (`null` when the task has none); a handler's fault reaches the caller as it is.
   */
  lemma SendReturnsHandlerResult(provider: ServiceProvider, cache: map<TypeInfo, Invoker>, request: Object,
                                 responseType: TypeId, token: CancellationToken, run: Behaviour)
    ensures var s := SendStep(provider, cache, request, responseType, token, run);
      s.outcome.Success? ==>
        && |s.calls| == 1
        && s.calls[0].target == provider.requestHandlers[(request.runtimeType, responseType)]
        && s.calls[0].argument == request && s.calls[0].token == token
        && run(s.calls[0]).RanToCompletion?
        && s.outcome.value == (if run(s.calls[0]).hasResult then run(s.calls[0]).result else None)
    ensures var s := SendStep(provider, cache, request, responseType, token, run);
      s.calls != [] && run(s.calls[0]).Faulted? ==> s.outcome == Failure(HandlerFaulted(run(s.calls[0]).fault))
    ensures var s := SendStep(provider, cache, request, responseType, token, run);
      s.outcome.Success? ==> provider.requestHandlers[(request.runtimeType, responseType)].info in s.cache
  {
  }

  /**
   * Caching is invisible: when the entry for the resolved handler's type is the
   * invoker that type builds, sending through the cache calls the same method
   * and returns the same outcome as sending with an empty cache.
   */
  lemma SendCachedMatchesFresh(provider: ServiceProvider, cache: map<TypeInfo, Invoker>, request: Object,
                               responseType: TypeId, token: CancellationToken, run: Behaviour)
    requires (request.runtimeType, responseType) in provider.requestHandlers
    requires var h := provider.requestHandlers[(request.runtimeType, responseType)];
      h.info in cache ==> Builds(h.info, cache[h.info])
    ensures var cached := SendStep(provider, cache, request, responseType, token, run);
      var uncached := SendStep(provider, map[], request, responseType, token, run);
      cached.outcome == uncached.outcome && cached.calls == uncached.calls
  {
    var h := provider.requestHandlers[(request.runtimeType, responseType)];
    if h.info in cache {
      BuiltInvokerIsUnique(h.info, cache[h.info]);
    }
  }

  const RequestOfString: TypeId := "NetHandler.Interfaces.IRequest`1[System.String]"

  /**
   * A handler registered for the request interface itself, as a mocking library
   * produces one: the request's runtime type is a proxy class that implements
   * `IRequest<string>`, and the reply is `"Response"`.
   */
  lemma SendToInterfaceHandler(token: CancellationToken, response: Object)
    ensures var t := TypeInfo("Castle.Proxies.IRequestHandlerProxy", true, false,
        [TypeRef(IRequestHandlerDefinition, [RequestOfString, "System.String"])],
        {[RequestOfString, CancellationTokenType]});
      var h := HandlerInstance(t, 0);
      var request := Object("Castle.Proxies.IRequestProxy", {RequestOfString}, 1);
      var provider := ServiceProvider(map[(request.runtimeType, "System.String") := h], map[]);
      var run := (c: Invocation) => RanToCompletion(true, Some(response));
      var s := SendStep(provider, map[], request, "System.String", token, run);
      s.outcome == Success(Some(response)) && s.calls == [Invocation(h, [RequestOfString, CancellationTokenType], request, token)]
  {
    var t := TypeInfo("Castle.Proxies.IRequestHandlerProxy", true, false,
      [TypeRef(IRequestHandlerDefinition, [RequestOfString, "System.String"])],
      {[RequestOfString, CancellationTokenType]});
    assert FirstRequestHandlerIndex(t.interfaces) == 0;
  }

  /** A handler type that implements two request-handler interfaces. */
  const TwoWayHandler := TypeInfo("Sample.TwoWayHandler", true, false,
    [TypeRef(IRequestHandlerDefinition, ["Sample.Ping", "System.String"]),
     TypeRef(IRequestHandlerDefinition, ["Sample.Pong", "System.String"])],
    {["Sample.Ping", CancellationTokenType], ["Sample.Pong", CancellationTokenType]})

  const PongRequest := Object("Sample.Pong", {"NetHandler.Interfaces.IRequest`1[System.String]"}, 1)

  /**
   * The invoker is keyed by the handler type alone and built from its first
   * interface, so a `Pong` request routed to `TwoWayHandler` reaches
   * `Handle(Ping, CancellationToken)`, which refuses it: the send fails with an
   * `ArgumentException`, no `Handle` runs, and the `Ping` invoker is cached.
   */
  lemma SecondInterfaceRequestIsRejected(run: Behaviour, token: CancellationToken)
    ensures var provider := ServiceProvider(map[("Sample.Pong", "System.String") := HandlerInstance(TwoWayHandler, 0)], map[]);
      var s := SendStep(provider, map[], PongRequest, "System.String", token, run);
      s == SendResult(Failure(ArgumentTypeMismatch("Sample.Ping", "Sample.Pong")), map[TwoWayHandler := Invoker("Sample.Ping")], [])
      && s.outcome.error.Kind() == ArgumentException
  {
    assert FirstRequestHandlerIndex(TwoWayHandler.interfaces) == 0;
  }

  /**
   * `i` is an interface a handler can serve the request through:
   * `IRequestHandler<TRequest, responseType>` with `request` an instance of `TRequest`.
   */
  predicate Serves(i: TypeRef, request: Object, responseType: TypeId) {
    IsRequestHandlerInterface(i) && |i.args| == 2 && i.args[1] == responseType && request.IsInstanceOf(i.args[0])
  }

  /** The interface the container resolves under: `IRequestHandler<runtime request type, TResponse>`. */
  function ResolvedInterface(request: Object, responseType: TypeId): TypeRef {
    TypeRef(IRequestHandlerDefinition, [request.runtimeType, responseType])
  }

  /** Position of `i` in `s`, or `|s|` when it is absent. */
  function IndexOfInterface(s: seq<TypeRef>, i: TypeRef): (k: nat)
    ensures k <= |s|
    ensures k < |s| ==> s[k] == i
    ensures k == |s| <==> i !in s
  {
    if s == [] then 0
    else if s[0] == i then 0
    else 1 + IndexOfInterface(s[1..], i)
  }

  /** Position of the first interface in `s` that serves the request, or `|s|` when none does. */
  function FirstServingInterface(s: seq<TypeRef>, request: Object, responseType: TypeId): (k: nat)
    ensures k <= |s|
    ensures k < |s| ==> Serves(s[k], request, responseType)
    ensures k == |s| ==> forall j | 0 <= j < |s| :: !Serves(s[j], request, responseType)
  {
    if s == [] then 0
    else if Serves(s[0], request, responseType) then 0
    else 1 + FirstServingInterface(s[1..], request, responseType)
  }

  /**
   * The interface the corrected send builds its invoker from: the one the
   * handler was resolved under when the handler implements it, otherwise the
   * first one that serves the request.
   */
  function ServingInterface(s: seq<TypeRef>, request: Object, responseType: TypeId): (k: nat)
    ensures k <= |s|
    ensures k < |s| ==> Serves(s[k], request, responseType)
    ensures k == |s| ==> forall j | 0 <= j < |s| :: !Serves(s[j], request, responseType)
    ensures ResolvedInterface(request, responseType) in s ==> k < |s| && s[k] == ResolvedInterface(request, responseType)
  {
    var e := IndexOfInterface(s, ResolvedInterface(request, responseType));
    if e < |s| then e else FirstServingInterface(s, request, responseType)
  }

  /**
   * `SendAsync` as its registration code evidently intends it, caching aside:
   * the invoker is built from the interface the handler serves this request
   * through, so a handler serves every interface it is registered under, each
   * through its own `Handle` overload.
   */
  function IntendedSend(provider: ServiceProvider, request: Object, responseType: TypeId,
                        token: CancellationToken, run: Behaviour): (c: CallResult)
    ensures c.outcome.Failure? ==> c.outcome.error.Kind() != ArgumentException
    ensures c.calls != [] ==>
      && (request.runtimeType, responseType) in provider.requestHandlers
      && c.calls[0].target == provider.requestHandlers[(request.runtimeType, responseType)]
      && c.calls[0].argument == request && c.calls[0].token == token
  {
    var key := (request.runtimeType, responseType);
    if key !in provider.requestHandlers then
      CallResult(Failure(HandlerNotRegistered(request.runtimeType, responseType)), [])
    else
      var h := provider.requestHandlers[key];
      var k := ServingInterface(h.info.interfaces, request, responseType);
      if k == |h.info.interfaces| then
        CallResult(Failure(NotARequestHandler(h.info.id)), [])
      else
        var inv := Invoker(h.info.interfaces[k].args[0]);
        if inv.Parameters() !in h.info.handleMethods then
          CallResult(Failure(HandleMethodMissing(h.info.id, inv.requestType)), [])
        else
          InvokeHandler(inv, h, request, token, run)
  }

  /**
   * Intended behaviour: a handler that has a public `Handle` for each of its
   * request-handler interfaces is called exactly once for every request one of
   * them serves, through the `Handle` overload of a serving interface with the
   * right `TResponse`: the interface it was resolved under whenever it
   * implements that one. The task's outcome is returned.
   */
  lemma IntendedSendServesEveryInterface(provider: ServiceProvider, request: Object, responseType: TypeId,
                                         token: CancellationToken, run: Behaviour, j: nat)
    requires (request.runtimeType, responseType) in provider.requestHandlers
    requires var t := provider.requestHandlers[(request.runtimeType, responseType)].info;
      && (forall i | 0 <= i < |t.interfaces| && IsRequestHandlerInterface(t.interfaces[i]) ::
            Invoker(t.interfaces[i].args[0]).Parameters() in t.handleMethods)
      && j < |t.interfaces| && Serves(t.interfaces[j], request, responseType)
    ensures var t := provider.requestHandlers[(request.runtimeType, responseType)].info;
      var c := IntendedSend(provider, request, responseType, token, run);
      var k := ServingInterface(t.interfaces, request, responseType);
      && |c.calls| == 1 && c.outcome == Await(run(c.calls[0]))
      && k < |t.interfaces| && Serves(t.interfaces[k], request, responseType)
      && c.calls[0].handle == [t.interfaces[k].args[0], CancellationTokenType]
    ensures var t := provider.requestHandlers[(request.runtimeType, responseType)].info;
      var c := IntendedSend(provider, request, responseType, token, run);
      ResolvedInterface(request, responseType) in t.interfaces ==>
        c.calls[0].handle == [request.runtimeType, CancellationTokenType]
  {
    var t := provider.requestHandlers[(request.runtimeType, responseType)].info;
    var k := ServingInterface(t.interfaces, request, responseType);
    assert k < |t.interfaces|;
  }

  /** With the intended invoker choice the `Pong` request reaches `Handle(Pong, CancellationToken)`. */
  lemma IntendedSendServesSecondInterface(run: Behaviour, token: CancellationToken)
    ensures var h := HandlerInstance(TwoWayHandler, 0);
      var provider := ServiceProvider(map[("Sample.Pong", "System.String") := h], map[]);
      var c := IntendedSend(provider, PongRequest, "System.String", token, run);
      c.calls == [Invocation(h, ["Sample.Pong", CancellationTokenType], PongRequest, token)]
  {
    assert TwoWayHandler.interfaces[1] == ResolvedInterface(PongRequest, "System.String");
  }

  /**
   * A handler of `IRequestHandler<Base, int>` and then `IRequestHandler<Derived, string>`,
   * resolved for (`Derived`, `string`), is sent a `Derived` through
   * `Handle(Derived, CancellationToken)`, not through the broader `int` overload.
   */
  lemma IntendedSendPrefersResolvedInterface(run: Behaviour, token: CancellationToken)
    ensures var t := TypeInfo("Sample.LayeredHandler", true, false,
        [TypeRef(IRequestHandlerDefinition, ["Sample.Base", "System.Int32"]),
         TypeRef(IRequestHandlerDefinition, ["Sample.Derived", "System.String"])],
        {["Sample.Base", CancellationTokenType], ["Sample.Derived", CancellationTokenType]});
      var h := HandlerInstance(t, 0);
      var request := Object("Sample.Derived", {"Sample.Base"}, 1);
      var provider := ServiceProvider(map[("Sample.Derived", "System.String") := h], map[]);
      var c := IntendedSend(provider, request, "System.String", token, run);
      c.calls == [Invocation(h, ["Sample.Derived", CancellationTokenType], request, token)]
  {
    var t := TypeInfo("Sample.LayeredHandler", true, false,
      [TypeRef(IRequestHandlerDefinition, ["Sample.Base", "System.Int32"]),
       TypeRef(IRequestHandlerDefinition, ["Sample.Derived", "System.String"])],
      {["Sample.Base", CancellationTokenType], ["Sample.Derived", CancellationTokenType]});
    assert t.interfaces[1] == ResolvedInterface(Object("Sample.Derived", {"Sample.Base"}, 1), "System.String");
  }

  /**
   * The code as written and the intended choice agree whenever the handler's
   * first request-handler interface is the one it was resolved under, which is
   * the case for every registered handler with a single such interface.
   */
  lemma IntendedSendAgreesOnFirstInterface(provider: ServiceProvider, request: Object, responseType: TypeId,
                                           token: CancellationToken, run: Behaviour)
    requires (request.runtimeType, responseType) in provider.requestHandlers
    requires var t := provider.requestHandlers[(request.runtimeType, responseType)].info;
      var k := FirstRequestHandlerIndex(t.interfaces);
      k < |t.interfaces| && t.interfaces[k] == ResolvedInterface(request, responseType)
    ensures var s := SendStep(provider, map[], request, responseType, token, run);
      CallResult(s.outcome, s.calls) == IntendedSend(provider, request, responseType, token, run)
  {
    var t := provider.requestHandlers[(request.runtimeType, responseType)].info;
    ResolvedIsFirst(t.interfaces, ResolvedInterface(request, responseType));
  }

  /** A request-handler interface that comes first among them is found first. */
  lemma {:induction false} ResolvedIsFirst(s: seq<TypeRef>, i: TypeRef)
    requires FirstRequestHandlerIndex(s) < |s| && s[FirstRequestHandlerIndex(s)] == i
    ensures IndexOfInterface(s, i) == FirstRequestHandlerIndex(s)
  {
    if !IsRequestHandlerInterface(s[0]) {
      ResolvedIsFirst(s[1..], i);
    }
  }

  /** Zero resolved notification handlers: `PublishAsync` returns at once, calling nothing. */
  lemma PublishWithoutHandlers(provider: ServiceProvider, notificationType: TypeId, notification: Object,
                               token: CancellationToken, run: Behaviour)
    requires NotificationHandlers(provider, notificationType) == []
    ensures PublishRun(NotificationHandlers(provider, notificationType), notificationType, notification, token, run)
      == PublishResult(Pass, [])
  {
  }

  /** When no handler faults, each is called exactly once, in resolution order, and the publish completes. */
  lemma {:induction false} PublishCallsEveryHandler(handlers: seq<HandlerInstance>, notificationType: TypeId,
                                                    notification: Object, token: CancellationToken, run: Behaviour)
    requires forall i | 0 <= i < |handlers| ::
      run(NotificationCall(handlers[i], notificationType, notification, token)).RanToCompletion?
    ensures var p := PublishRun(handlers, notificationType, notification, token, run);
      p.outcome == Pass &&
      p.calls == seq(|handlers|, i requires 0 <= i < |handlers| => NotificationCall(handlers[i], notificationType, notification, token))
  {
    if handlers != [] {
      PublishCallsEveryHandler(handlers[1..], notificationType, notification, token, run);
    }
  }

  /**
   * When handler `k` is the first to fault, handlers `0..k` were called in
   * order, the later ones never are, and the publish fails with `k`'s fault.
   */
  lemma {:induction false} PublishStopsAtFirstFault(handlers: seq<HandlerInstance>, k: nat, notificationType: TypeId,
                                                    notification: Object, token: CancellationToken, run: Behaviour)
    requires k < |handlers|
    requires forall i | 0 <= i < k ::
      run(NotificationCall(handlers[i], notificationType, notification, token)).RanToCompletion?
    requires run(NotificationCall(handlers[k], notificationType, notification, token)).Faulted?
    ensures var p := PublishRun(handlers, notificationType, notification, token, run);
      p.outcome == Fail(HandlerFaulted(run(NotificationCall(handlers[k], notificationType, notification, token)).fault)) &&
      |p.calls| == k + 1
  {
    if k > 0 {
      PublishStopsAtFirstFault(handlers[1..], k - 1, notificationType, notification, token, run);
    }
  }

  /**
   * The fan-out in terms of the calls made so far: `made` holds the calls of the
   * first handlers in order, all completed but possibly the last, and either
   * every handler was called or the last call faulted.
   */
  lemma PublishEndsWith(handlers: seq<HandlerInstance>, made: seq<Invocation>, notificationType: TypeId,
                        notification: Object, token: CancellationToken, run: Behaviour)
    requires 0 < |made| <= |handlers|
    requires forall j | 0 <= j < |made| :: made[j] == NotificationCall(handlers[j], notificationType, notification, token)
    requires forall j | 0 <= j < |made| - 1 :: run(made[j]).RanToCompletion?
    requires |made| == |handlers| || run(made[|made| - 1]).Faulted?
    ensures var last := run(made[|made| - 1]);
      PublishRun(handlers, notificationType, notification, token, run) ==
        PublishResult(if last.Faulted? then Fail(HandlerFaulted(last.fault)) else Pass, made)
  {
    var p := PublishRun(handlers, notificationType, notification, token, run);
    if run(made[|made| - 1]).Faulted? {
      PublishStopsAtFirstFault(handlers, |made| - 1, notificationType, notification, token, run);
      assert |p.calls| == |made|;
    } else {
      assert |made| == |handlers|;
      forall j | 0 <= j < |handlers|
        ensures run(NotificationCall(handlers[j], notificationType, notification, token)).RanToCompletion?
      {
        assert made[j] == NotificationCall(handlers[j], notificationType, notification, token);
      }
      PublishCallsEveryHandler(handlers, notificationType, notification, token, run);
    }
    assert forall j | 0 <= j < |made| :: p.calls[j] == made[j];
    assert p.calls == made;
  }

  /** The dispatcher object; `cache` stands for the static cache, which callers can share between dispatchers. */
  class Dispatcher {
    const provider: ServiceProvider
    const cache: InvokerCache
    /** Every `Handle` call this dispatcher has made, in order. */
    ghost var log: seq<Invocation>

    constructor (provider: ServiceProvider, cache: InvokerCache)
      ensures this.provider == provider && this.cache == cache && log == []
    {
      this.provider := provider;
      this.cache := cache;
      log := [];
    }

    method Send(request: Object, responseType: TypeId, token: CancellationToken, run: Behaviour)
      returns (r: Result<Value, Error>)
      requires cache.Valid()
      modifies cache, this`log
      ensures cache.Valid()
      ensures var s := SendStep(provider, old(cache.entries), request, responseType, token, run);
        r == s.outcome && cache.entries == s.cache && log == old(log) + s.calls
      ensures var uncached := SendStep(provider, map[], request, responseType, token, run);
        r == uncached.outcome && log == old(log) + uncached.calls
    {
      var key := (request.runtimeType, responseType);
      if key !in provider.requestHandlers {
        return Failure(HandlerNotRegistered(request.runtimeType, responseType));
      }
      SendCachedMatchesFresh(provider, cache.entries, request, responseType, token, run);
      var handler := provider.requestHandlers[key];
      var invoker := cache.GetOrAdd(handler.info, CreateHandlerInvoker);
      if invoker.Failure? {
        return Failure(invoker.error);
      }
      var c := InvokeHandler(invoker.value, handler, request, token, run);
      log := log + c.calls;
      r := c.outcome;
    }

    method Publish(notificationType: TypeId, notification: Object, token: CancellationToken, run: Behaviour)
      returns (r: Outcome<Error>)
      modifies this`log
      ensures var p := PublishRun(NotificationHandlers(provider, notificationType), notificationType, notification, token, run);
        r == p.outcome && log == old(log) + p.calls
    {
      var handlers := NotificationHandlers(provider, notificationType);
      if |handlers| == 0 {
        return Pass;
      }
      ghost var made: seq<Invocation> := [];
      var i := 0;
      while i < |handlers|
        invariant 0 <= i <= |handlers|
        invariant log == old(log) + made && |made| == i
        invariant forall j | 0 <= j < i ::
          made[j] == NotificationCall(handlers[j], notificationType, notification, token) && run(made[j]).RanToCompletion?
      {
        var call := NotificationCall(handlers[i], notificationType, notification, token);
        log := log + [call];
        made := made + [call];
        var o := run(call);
        if o.Faulted? {
          PublishEndsWith(handlers, made, notificationType, notification, token, run);
          return Fail(HandlerFaulted(o.fault));
        }
        i := i + 1;
      }
      PublishEndsWith(handlers, made, notificationType, notification, token, run);
      r := Pass;
    }
  }
}
