/**
 * The parts of the .NET runtime the dispatcher relies on, with reflection
 * replaced by plain data: a type is described by its identity, its class
 * flags, the interfaces it implements (in the order reflection reports them)
 * and the parameter lists of its public `Handle` methods.
 */
module Runtime {
  import opened Wrappers

  /** A type's full name; equal names mean the same runtime type. */
  type TypeId = string

  /** The open generic `IRequestHandler<TRequest, TResponse>`. */
  const IRequestHandlerDefinition: TypeId := "NetHandler.Interfaces.IRequestHandler`2"
  const CancellationTokenType: TypeId := "System.Threading.CancellationToken"
  const IDispatchrType: TypeId := "NetHandler.Interfaces.IDispatchr"
  const DispatchrType: TypeId := "NetHandler.Dispatchr"

  /**
   * A type as it appears in an interface list: a generic definition applied
   * to type arguments. A non-generic type has no arguments.
   */
  datatype TypeRef = TypeRef(definition: TypeId, args: seq<TypeId>)
  {
    predicate IsGeneric() { |args| > 0 }
  }

  /** `i.IsGenericType && i.GetGenericTypeDefinition() == typeof(IRequestHandler<,>)` */
  predicate IsRequestHandlerInterface(i: TypeRef) {
    i.IsGeneric() && i.definition == IRequestHandlerDefinition
  }

  /**
   * What reflection can tell about a type. A `System.Type` object stands for
   * all of it, so two equal descriptions are the same type.
   */
  datatype TypeInfo = TypeInfo(
    id: TypeId,
    isClass: bool,
    isAbstract: bool,
    interfaces: seq<TypeRef>,
    handleMethods: set<seq<TypeId>>)  // parameter lists of the public `Handle` overloads

  /** `k` is the position of the first `IRequestHandler<,>` in `s`. */
  ghost predicate IsFirstRequestHandler(s: seq<TypeRef>, k: int) {
    0 <= k < |s| && IsRequestHandlerInterface(s[k]) &&
    forall j | 0 <= j < k :: !IsRequestHandlerInterface(s[j])
  }

  /** Position of the first `IRequestHandler<,>` in `s`, or `|s|` when there is none. */
  function FirstRequestHandlerIndex(s: seq<TypeRef>): (k: nat)
    ensures k <= |s|
    ensures k < |s| ==> IsFirstRequestHandler(s, k)
    ensures k == |s| ==> forall j | 0 <= j < |s| :: !IsRequestHandlerInterface(s[j])
  {
    if s == [] then 0
    else if IsRequestHandlerInterface(s[0]) then 0
    else 1 + FirstRequestHandlerIndex(s[1..])
  }

  /** There is at most one first request-handler interface. */
  lemma FirstRequestHandlerUnique(s: seq<TypeRef>, k: int, k': int)
    requires IsFirstRequestHandler(s, k) && IsFirstRequestHandler(s, k')
    ensures k == k'
  {
  }

  /**
   * A reference to an object: its runtime type (what `GetType()` returns), the
   * other types it can be assigned to (its base classes and the interfaces it
   * implements) and its identity.
   */
  datatype Object = Object(runtimeType: TypeId, supertypes: set<TypeId>, identity: nat)
  {
    /** `t.IsInstanceOfType(this)`: the check `MethodInfo.Invoke` makes on each argument. */
    predicate IsInstanceOf(t: TypeId) {
      t == runtimeType || t in supertypes
    }
  }

  /** A value that may be `null` (`None`). */
  type Value = Option<Object>

  /** A handler object, whose `GetType()` describes as `info`. */
  datatype HandlerInstance = HandlerInstance(info: TypeInfo, identity: nat)

  /** A cancellation token, passed through without being inspected. */
  datatype CancellationToken = CancellationToken(id: nat)

  /** An exception thrown by a handler's own code (including cancellation). */
  datatype Fault = Fault(exceptionType: TypeId, identity: nat)

  /** The exception classes the core can raise. */
  datatype ExceptionKind = InvalidOperationException | ArgumentException | PropagatedFromHandler

  /** Every way the core can fail. */
  datatype Error =
    | HandlerNotRegistered(requestType: TypeId, responseType: TypeId)
    | NotARequestHandler(handlerType: TypeId)
    | HandleMethodMissing(handlerType: TypeId, requestType: TypeId)
    | ArgumentTypeMismatch(parameterType: TypeId, argumentType: TypeId)
    | NotConcreteClass(typeId: TypeId)
    | NoRequestHandlerInterface(typeId: TypeId)
    | HandlerFaulted(fault: Fault)
  {
    function Kind(): ExceptionKind {
      match this
      case HandlerNotRegistered(_, _) => InvalidOperationException
      case NotARequestHandler(_) => InvalidOperationException
      case HandleMethodMissing(_, _) => InvalidOperationException
      case ArgumentTypeMismatch(_, _) => ArgumentException
      case NotConcreteClass(_) => ArgumentException
      case NoRequestHandlerInterface(_) => ArgumentException
      case HandlerFaulted(_) => PropagatedFromHandler
    }
  }

  /** One call of a `Handle` method: on `target`, the overload whose parameter list is `handle`. */
  datatype Invocation = Invocation(
    target: HandlerInstance,
    handle: seq<TypeId>,
    argument: Object,
    token: CancellationToken)

  /**
   * How the awaited task of a `Handle` call ends: it ran to completion, and its
   * runtime type has a `Result` property (holding `result`) or not; or it faulted.
   */
  datatype TaskOutcome =
    | RanToCompletion(hasResult: bool, result: Value)
    | Faulted(fault: Fault)

  /** The handlers' own code, which the dispatcher cannot see. */
  type Behaviour = Invocation -> TaskOutcome

  /**
   * The dependency-injection container as the dispatcher sees it.
   * `requestHandlers[(req, resp)]` is what `GetService(IRequestHandler<req, resp>)`
   * returns (absent means `null`); `notificationHandlers[n]` is what
   * `GetServices<INotificationHandler<n>>()` yields, in order (absent means empty).
   */
  datatype ServiceProvider = ServiceProvider(
    requestHandlers: map<(TypeId, TypeId), HandlerInstance>,
    notificationHandlers: map<TypeId, seq<HandlerInstance>>)
}
