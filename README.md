# NetHandler dispatch core in Dafny

NetHandler is an in-process mediator for .NET. A caller hands a request to
`Dispatchr.SendAsync`. The dispatcher asks the dependency-injection container
for the one `IRequestHandler<TRequest, TResponse>` registered for the request's
runtime type and `TResponse`. It calls that handler through an invoker, and keeps
the invoker in a static dictionary keyed by the handler's concrete type.
`Dispatchr.PublishAsync` hands a notification to every
`INotificationHandler<TNotification>` the container yields, one after another.
The `AddNetHandler` extension methods register the dispatcher and the request
handlers in an `IServiceCollection`.

This project models those three pieces with reflection replaced by data:

- `Runtime` (runtime.dfy): a type is a `TypeInfo`. It holds the type's name, its
  `IsClass`/`IsAbstract` flags, its interfaces in the order reflection reports
  them, and the parameter lists of its public `Handle` methods. An object knows
  its runtime type and the types it can be assigned to. The container is
  a `ServiceProvider`: a map from (request type, response type) to a handler,
  and a map from notification type to a list of handlers. The handlers' own code
  is a parameter `run` that says how each `Handle` call's task ends.
- `Dispatchr` (dispatchr.dfy) models src/NetHandler/Dispatchr.cs.
  `CreateHandlerInvoker` is a pure function. The static `_handlerCache` is an
  `InvokerCache` object with a `GetOrAdd` method. It is keyed by the handler's
  whole type description, as the source's dictionary is keyed by the `Type`
  object. `InvokeHandler` is the delegate an invoker stands for: the argument
  check of `MethodInfo.Invoke`, then one `Handle` call. `Dispatcher.Send` and
  `Dispatcher.Publish` are methods, proved against the specification functions
  `SendStep` and `PublishRun`. A ghost `log` records every `Handle` call a
  dispatcher actually makes, so "exactly once" and "in order" can be stated.
- `LegacyDispatchr` (legacy_dispatchr.dfy) models the older copy in
  NetHandler/NetHandler/Dispatchr.cs. It has its own `CreateHandlerInvoker`,
  proved equal to the current one, and a `Send` with the same contract. It has no
  publish operation.
- `ServiceCollectionExtensions` (service_collection_extensions.dfy) models both
  `AddNetHandler` overloads as methods with nested loops over a
  `ServiceCollection` object. They are proved against the pure functions
  `HandlerTypes`, `Registrations` and `ExplicitRegistrations`.

The static cache is shared by every dispatcher in the process. In the model the
constructor takes the cache, so callers can share one.

Facts about the code that the model keeps:

- A failed `CreateHandlerInvoker` is not cached. `GetOrAdd` stores nothing when
  the factory throws, so the next send builds again.
- `PublishAsync` has only a sequential loop; there is no parallel mode.
- `PublishAsync` resolves handlers by the static type argument `TNotification`.
  `SendAsync` uses the request's runtime type.
- Neither `AddNetHandler` overload registers notification handlers.

## Model

| member | source | states |
|---|---|---|
| `Runtime.FirstRequestHandlerIndex` | src/NetHandler/Dispatchr.cs:38-39 | `FirstOrDefault` over the interfaces: the returned position holds an `IRequestHandler<,>` and no earlier one does; `|s|` means none does |
| `Dispatchr.CreateHandlerInvoker` | src/NetHandler/Dispatchr.cs:36-51 | success exactly when the first `IRequestHandler<,>` interface exists and the type has `Handle(TRequest, CancellationToken)` for that interface's first type argument; the invoker then calls that overload; every failure is an `InvalidOperationException`, and "no such interface" is reported exactly when no interface matches |
| `Dispatchr.BuiltInvokerIsUnique` | src/NetHandler/Dispatchr.cs:36-51 | building is deterministic: any invoker meeting the build description for a type is the one `CreateHandlerInvoker` returns |
| `Dispatchr.InvokerCache.constructor` | src/NetHandler/Dispatchr.cs:11-12 | the cache starts empty and satisfies its invariant (each entry is the invoker its type builds) |
| `Dispatchr.InvokerCache.GetOrAdd` | src/NetHandler/Dispatchr.cs:31 | a present entry is returned and the cache is unchanged; otherwise the factory runs once, a built invoker is stored under the type, a thrown exception is returned and nothing is stored; the invariant is kept |
| `Dispatchr.SendStep` | src/NetHandler/Dispatchr.cs:16-34 | no handler for (runtime request type, TResponse): `InvalidOperationException`, cache unchanged, no call; existing entries are never replaced or removed; at most one handler call, made on the resolved handler with the caller's request and token; after a call the cache holds exactly one more key at most, the handler's type; the result is the awaited task's |
| `Dispatchr.SendLooksUpOnlyItsKey` | src/NetHandler/Dispatchr.cs:18-20 | two containers that agree on the key (runtime request type, TResponse) give identical sends |
| `Dispatchr.SendReusesCachedInvoker` | src/NetHandler/Dispatchr.cs:31-32 | with the handler's type cached, the stored invoker is used and the cache stays as it was |
| `Dispatchr.SendBuildsMissingInvoker` | src/NetHandler/Dispatchr.cs:31-51 | with the handler's type not cached: a build failure ends the send with that `InvalidOperationException`, no call and no cache change; a built invoker is stored under the handler's type and used for the one call |
| `Dispatchr.SendReturnsHandlerResult` | src/NetHandler/Dispatchr.cs:32-59 | a successful send made exactly one call, to the resolved handler, with the same request and token; it returns the task's `Result` when the task has one and null otherwise; a handler fault is returned unchanged; the handler's type is then cached |
| `Dispatchr.SendCachedMatchesFresh` | src/NetHandler/Dispatchr.cs:11-12 | when the cache entry for the handler's type is the invoker that type builds, sending through the cache makes the same call and gives the same outcome as sending with an empty cache |
| `Dispatchr.InvokeHandler` | src/NetHandler/Dispatchr.cs:53-60 | a request that is not an instance of the overload's request type is refused with an `ArgumentException` and nothing is called; otherwise exactly one call of that `Handle` overload with the request and token, and the outcome is the awaited task's |
| `Dispatchr.SendRejectsRequestOfOtherType` | src/NetHandler/Dispatchr.cs:31-55 | when the cached or built invoker's request type does not fit the request, the send fails with that `ArgumentException`, calls nothing, and the invoker is cached all the same |
| `Dispatchr.SendToInterfaceHandler` | src/NetHandler.Test/DispatchrTests.cs:9-32 | a handler of `IRequestHandler<IRequest<string>, string>` receives a proxy request that implements `IRequest<string>` exactly once, with its token, and its reply is returned |
| `Dispatchr.SecondInterfaceRequestIsRejected` | src/NetHandler/Dispatchr.cs:31-55 | a handler implementing `IRequestHandler<Ping,_>` then `IRequestHandler<Pong,_>` gets its invoker from `Ping`; a `Pong` send fails with an `ArgumentException`, runs no `Handle`, and leaves the `Ping` invoker cached |
| `Dispatchr.IntendedSend` | src/NetHandler/Dispatchr.cs:38-47 | corrected send: it never fails with an `ArgumentException`, and any call goes to the resolved handler with the caller's request and token |
| `Dispatchr.IntendedSendServesEveryInterface` | src/NetHandler/Extensions/ServiceCollectionExtensions.cs:72-75 | corrected send: a handler with a `Handle` for each of its request-handler interfaces is called exactly once for a request that one of them serves (right `TResponse`, request fits `TRequest`), through the `Handle` overload of a serving interface; when the handler implements `IRequestHandler<runtime request type, TResponse>`, through that interface's own overload; the task's outcome is returned |
| `Dispatchr.IntendedSendServesSecondInterface` | src/NetHandler/Extensions/ServiceCollectionExtensions.cs:72-75 | corrected send: the `Pong` request reaches `Handle(Pong, CancellationToken)` |
| `Dispatchr.IntendedSendPrefersResolvedInterface` | src/NetHandler/Extensions/ServiceCollectionExtensions.cs:72-75 | corrected send: a handler of `IRequestHandler<Base, int>` then `IRequestHandler<Derived, string>` resolved for (`Derived`, `string`) is called through `Handle(Derived, CancellationToken)`, not the broader `int` overload |
| `Dispatchr.IntendedSendAgreesOnFirstInterface` | src/NetHandler/Dispatchr.cs:36-60 | when the handler's first request-handler interface is the one it was resolved under, the code as written and the corrected send give the same outcome and calls |
| `Dispatchr.PublishRun` | src/NetHandler/Dispatchr.cs:63-75 | the calls made are the first handlers in resolution order, each once, with the same notification and token; a completed publish called every handler; a failure is a handler's own exception |
| `Dispatchr.PublishWithoutHandlers` | src/NetHandler/Dispatchr.cs:67-69 | zero resolved handlers: the publish completes and calls nothing |
| `Dispatchr.PublishCallsEveryHandler` | src/NetHandler/Dispatchr.cs:71-74 | when no handler faults, every handler is called exactly once, in resolution order, and the publish completes |
| `Dispatchr.PublishStopsAtFirstFault` | src/NetHandler/Dispatchr.cs:71-74 | when handler k is the first to fault, exactly k+1 calls are made and the publish fails with handler k's exception |
| `Dispatchr.PublishEndsWith` | src/NetHandler/Dispatchr.cs:71-74 | a run of calls on the first handlers, all completed except possibly the last, that ends at a fault or at the last handler, is the whole fan-out |
| `Dispatchr.Dispatcher.constructor` | src/NetHandler/Dispatchr.cs:14 | the dispatcher keeps the container and the shared cache it is given, and has made no calls |
| `Dispatchr.Dispatcher.Send` | src/NetHandler/Dispatchr.cs:16-34 | result, new cache contents and calls made are those of `SendStep` on the cache before the call; result and calls are also those of a send with an empty cache, so the shared cache changes nothing observable; the cache invariant is kept |
| `Dispatchr.Dispatcher.Publish` | src/NetHandler/Dispatchr.cs:63-75 | outcome and calls appended to the log are those of `PublishRun` on the handlers resolved for `TNotification`; the cache is not touched |
| `LegacyDispatchr.CreateHandlerInvoker` | NetHandler/NetHandler/Dispatchr.cs:37-68 | the older builder gives exactly the result of the current one for every type, so it has the same failure cases and picks the same `Handle` overload |
| `LegacyDispatchr.Dispatcher.constructor` | NetHandler/NetHandler/Dispatchr.cs:8-13 | the older dispatcher keeps its container and its own static cache, and has made no calls |
| `LegacyDispatchr.Dispatcher.Send` | NetHandler/NetHandler/Dispatchr.cs:15-34 | the older send has the same contract as the current one: lookup key, `InvalidOperationException` for a missing handler, get-or-add cache, the argument check, at most one call, result returned as is, and the same result as with an empty cache |
| `ServiceCollectionExtensions.ServiceCollection.Add` | src/NetHandler/Extensions/ServiceCollectionExtensions.cs:37 | a registration is appended and nothing else changes |
| `ServiceCollectionExtensions.RequestHandlerInterfaces` | src/NetHandler/Extensions/ServiceCollectionExtensions.cs:27-28 | the filtered interfaces are never more than the type's own; the list is empty exactly when no interface is an `IRequestHandler<,>`; its head is the first such interface, the one the invoker is built from |
| `ServiceCollectionExtensions.InRequestHandlerInterfaces` | src/NetHandler/Extensions/ServiceCollectionExtensions.cs:62-64 | the filter keeps exactly the `IRequestHandler<,>` interfaces the type implements |
| `ServiceCollectionExtensions.ExportedTypes` | src/NetHandler/Extensions/ServiceCollectionExtensions.cs:21-22 | a type is listed exactly when some given assembly exports it |
| `ServiceCollectionExtensions.HandlerTypes` | src/NetHandler/Extensions/ServiceCollectionExtensions.cs:23-30 | a type is kept exactly when it is listed, is a class, is not abstract and implements some `IRequestHandler<,>` |
| `ServiceCollectionExtensions.InRegistrations` | src/NetHandler/Extensions/ServiceCollectionExtensions.cs:33-39 | a registration appears exactly when it is transient, maps a handler interface of a listed type to that type |
| `ServiceCollectionExtensions.AddTransients` | src/NetHandler/Extensions/ServiceCollectionExtensions.cs:72-75 | one transient registration (interface to type) is appended per handler interface, in interface order |
| `ServiceCollectionExtensions.AddNetHandlerFromAssemblies` | src/NetHandler/Extensions/ServiceCollectionExtensions.cs:15-42 | the `IDispatchr` to `Dispatchr` singleton is appended first, then the registrations of the kept types in type order and interface order; the same collection is returned |
| `ServiceCollectionExtensions.ScanRegistersExactlyHandlerInterfaces` | src/NetHandler/Extensions/ServiceCollectionExtensions.cs:21-39 | the scan registers a pair exactly when the interface is an `IRequestHandler<,>` of an exported concrete class and the pair maps it to that class as transient; every other type is skipped |
| `ServiceCollectionExtensions.ExplicitRegistrations` | src/NetHandler/Extensions/ServiceCollectionExtensions.cs:56-76 | every exception of the explicit overload is an `ArgumentException` |
| `ServiceCollectionExtensions.AddNetHandlerFromTypes` | src/NetHandler/Extensions/ServiceCollectionExtensions.cs:50-79 | the singleton is appended first, then the registrations `ExplicitRegistrations` describes; it returns the same collection or the exception that stopped it, and earlier registrations stay |
| `ServiceCollectionExtensions.ExplicitStopsAtFirstRejectedType` | src/NetHandler/Extensions/ServiceCollectionExtensions.cs:56-69 | the first type that is not a concrete class, or has no `IRequestHandler<,>`, throws that type's `ArgumentException`, and the types before it stay registered |
| `ServiceCollectionExtensions.ExplicitCompletesIffAllHandlerTypes` | src/NetHandler/Extensions/ServiceCollectionExtensions.cs:56-69 | the explicit overload throws nothing exactly when every given type is a concrete class with an `IRequestHandler<,>` |
| `ServiceCollectionExtensions.ExplicitAcceptsHandlerTypes` | src/NetHandler/Extensions/ServiceCollectionExtensions.cs:56-76 | given only handler types, every one of them is registered, in order, and nothing is thrown |
| `ServiceCollectionExtensions.ExplicitAgreesWithScan` | src/NetHandler/Extensions/ServiceCollectionExtensions.cs:21-39 | given only handler types, the explicit overload registers exactly what the scan registers for an assembly exporting those types, in the same order |

## Left out

- Asynchrony: `Task`, `await` and `ConfigureAwait(false)` are modelled as synchronous calls. A task's ending is a `TaskOutcome` chosen by the `run` parameter.
- Cancellation: the `CancellationToken` is passed through unread. A cancelled task counts as a handler fault.
- Concurrency: `ConcurrentDictionary` thread safety and racing `GetOrAdd` calls are not modelled. The cache is a sequential map.
- Static lifetime: the cache lives for the whole process in the source. In the model the constructors take the cache, so callers can share one; nothing forces them to.
- `MethodInfo.Invoke`: only its check that the request is an instance of the parameter type is modelled. Wrapping a synchronous throw of `Handle` in a `TargetInvocationException` is part of `run`.
- `Dispatchr.CreateHandlerInvoker`: the default binder of `Type.GetMethod("Handle", Type[])` is reduced to an exact parameter-list match. The source would also accept a public `Handle` whose parameters the requested types can be assigned to, such as `Handle(object, CancellationToken)`. It would throw `AmbiguousMatchException` when several fit equally. It sees only public methods, so an explicitly implemented interface fails to build; the model shares that last point only because `handleMethods` lists public overloads.
- `LegacyDispatchr.CreateHandlerInvoker`: the same exact-match simplification.
- `Dispatchr.Dispatcher.Send`: returns the unwrapped value without the `(TResponse)` cast, so an `InvalidCastException`, or a null unboxed to a value type, is not modelled.
- `LegacyDispatchr.Dispatcher.Send`: the same cast is left out, for the same reason.
- Reflection order: `GetInterfaces()` does not promise an order. The model takes the list as given, and "first" means first in that list.
- The container is given as maps. How it resolves from registrations is not modelled: the last registration wins, and lifetimes create instances.
- Null arguments are not modelled. A null request, a null assembly or a null type would make the source throw a `NullReferenceException`.
- Exception message texts are not modelled, only the exception kind. The type names that `HandlerNotRegistered`, `NotConcreteClass` and `NoRequestHandlerInterface` carry appear in the source's messages, and those of `ArgumentTypeMismatch` in the runtime's. The handler and request types carried by `NotARequestHandler` and `HandleMethodMissing` are the model's own: the source's two `InvalidOperationException`s of `CreateHandlerInvoker` name no type.
- `IDispatchr`, `IRequestHandler` and `INotificationHandler` are declarations only. They shape the datatypes and have no behaviour of their own.

## Findings

| source | as written | input that shows it | evidently intended | confidence | as-written member | corrected member |
|---|---|---|---|---|---|---|
| src/NetHandler/Dispatchr.cs:38-47 | the invoker is built from the handler type's first `IRequestHandler<,>` interface and cached per handler type, so every request goes to that interface's `Handle` overload, and `MethodInfo.Invoke` refuses requests of any other interface's type | a class implementing `IRequestHandler<Ping,string>` then `IRequestHandler<Pong,string>`, registered under both by `AddNetHandler` (src/NetHandler/Extensions/ServiceCollectionExtensions.cs:72-75), sent a `Pong`: `ArgumentException`, no handler code runs | a handler registered under several request-handler interfaces serves each of them through its own `Handle` overload | high; not executed | `Dispatchr.SecondInterfaceRequestIsRejected` | `Dispatchr.IntendedSendServesSecondInterface` |

The older copy (NetHandler/NetHandler/Dispatchr.cs:40-50) has the same defect:
its `CreateHandlerInvoker` is proved equal to the current one. `IntendedSend`
builds the invoker from the interface the handler was resolved under,
`IRequestHandler<runtime request type, TResponse>`, when the handler implements
it. Otherwise it uses the first interface with that `TResponse` whose request
type the request fits. `IntendedSendServesEveryInterface` proves for every
input that such a handler is called exactly once. It is called through the
`Handle` overload of a serving interface, and through the resolved interface's
own overload whenever the handler implements that interface.
`IntendedSendAgreesOnFirstInterface` shows the two sends agree whenever the
first request-handler interface is the resolved one, in particular for every
registered handler with one request-handler interface. `Dispatcher.Send` keeps
the code as written.
