/**
 * The older dispatcher of NetHandler/NetHandler/Dispatchr.cs: the same
 * `SendAsync` with its own static invoker cache and its own copy of
 * `CreateHandlerInvoker`, and no `PublishAsync`.
 */
module LegacyDispatchr {
  import opened Wrappers
  import opened Runtime
  import Dispatchr

  /**
   * The older copy of `CreateHandlerInvoker`: first `IRequestHandler<,>`
   * interface, its request type, then `Handle(TRequest, CancellationToken)`.
   * It builds exactly what the current copy builds.
   */
  function CreateHandlerInvoker(t: TypeInfo): (r: Result<Dispatchr.Invoker, Error>)
    ensures r == Dispatchr.CreateHandlerInvoker(t)
    ensures r.Success? ==> Dispatchr.Builds(t, r.value)
  {
    var k := FirstRequestHandlerIndex(t.interfaces);
    if k == |t.interfaces| then
      Failure(NotARequestHandler(t.id))
    else
      var requestType := t.interfaces[k].args[0];
      if Dispatchr.Invoker(requestType).Parameters() in t.handleMethods then Success(Dispatchr.Invoker(requestType))
      else Failure(HandleMethodMissing(t.id, requestType))
  }

  /** The older dispatcher object; `cache` stands for this assembly's own static cache. */
  class Dispatcher {
    const provider: ServiceProvider
    const cache: Dispatchr.InvokerCache
    /** Every `Handle` call this dispatcher has made, in order. */
    ghost var log: seq<Invocation>

    constructor (provider: ServiceProvider, cache: Dispatchr.InvokerCache)
      ensures this.provider == provider && this.cache == cache && log == []
    {
      this.provider := provider;
      this.cache := cache;
      log := [];
    }

    method Send(request: Object, responseType: TypeId, token: CancellationToken, run: Behaviour)
      returns (r: Result<Value, Error>)
      requires cache.Valid()
      modifies cache, this`log
      ensures cache.Valid()
      ensures var s := Dispatchr.SendStep(provider, old(cache.entries), request, responseType, token, run);
        r == s.outcome && cache.entries == s.cache && log == old(log) + s.calls
      ensures var uncached := Dispatchr.SendStep(provider, map[], request, responseType, token, run);
        r == uncached.outcome && log == old(log) + uncached.calls
    {
      var key := (request.runtimeType, responseType);
      if key !in provider.requestHandlers {
        return Failure(HandlerNotRegistered(request.runtimeType, responseType));
      }
      Dispatchr.SendCachedMatchesFresh(provider, cache.entries, request, responseType, token, run);
      var handler := provider.requestHandlers[key];
      var invoker := cache.GetOrAdd(handler.info, CreateHandlerInvoker);
      if invoker.Failure? {
        return Failure(invoker.error);
      }
      var c := Dispatchr.InvokeHandler(invoker.value, handler, request, token, run);
      log := log + c.calls;
      r := c.outcome;
    }
  }
}
