/**
 * The registration step of src/NetHandler/Extensions/ServiceCollectionExtensions.cs:
 * both `AddNetHandler` overloads register the dispatcher as a singleton and then
 * one transient registration per `IRequestHandler<,>` interface of every handler class.
 */
module ServiceCollectionExtensions {
  import opened Wrappers
  import opened Runtime

  datatype Lifetime = Singleton | Transient

  /** One registration: `service` is provided by a new or shared `implementation`. */
  datatype ServiceDescriptor = ServiceDescriptor(service: TypeRef, implementation: TypeId, lifetime: Lifetime)

  /** `AddSingleton<IDispatchr, Dispatchr>()` */
  const DispatchrDescriptor := ServiceDescriptor(TypeRef(IDispatchrType, []), DispatchrType, Singleton)

  /** An assembly as the list its `GetExportedTypes()` returns. */
  datatype Assembly = Assembly(exportedTypes: seq<TypeInfo>)

  /** The `IServiceCollection` being configured: a list of registrations that only grows. */
  class ServiceCollection {
    var descriptors: seq<ServiceDescriptor>

    constructor ()
      ensures descriptors == []
    {
      descriptors := [];
    }

    /** `AddSingleton` / `AddTransient`: append one registration. */
    method Add(d: ServiceDescriptor)
      modifies this
      ensures descriptors == old(descriptors) + [d]
    {
      descriptors := descriptors + [d];
    }
  }

  predicate IsConcreteClass(t: TypeInfo) {
    t.isClass && !t.isAbstract
  }

  /** `GetInterfaces().Where(i => i.IsGenericType && i.GetGenericTypeDefinition() == typeof(IRequestHandler<,>))` */
  function RequestHandlerInterfaces(s: seq<TypeRef>): (r: seq<TypeRef>)
    ensures |r| <= |s|
    ensures r == [] <==> FirstRequestHandlerIndex(s) == |s|
    ensures r != [] ==> r[0] == s[FirstRequestHandlerIndex(s)]
  {
    if s == [] then []
    else if IsRequestHandlerInterface(s[0]) then [s[0]] + RequestHandlerInterfaces(s[1..])
    else RequestHandlerInterfaces(s[1..])
  }

  /** The filter keeps exactly the request-handler interfaces of `s`. */
  lemma {:induction false} InRequestHandlerInterfaces(s: seq<TypeRef>, i: TypeRef)
    ensures i in RequestHandlerInterfaces(s) <==> i in s && IsRequestHandlerInterface(i)
  {
    if s != [] {
      InRequestHandlerInterfaces(s[1..], i);
      assert i in s <==> i == s[0] || i in s[1..];
    }
  }

  /** A type both overloads accept: a concrete class implementing some `IRequestHandler<,>`. */
  predicate IsHandlerType(t: TypeInfo) {
    IsConcreteClass(t) && RequestHandlerInterfaces(t.interfaces) != []
  }

  /** `assemblies.SelectMany(a => a.GetExportedTypes())` */
  function ExportedTypes(assemblies: seq<Assembly>): (r: seq<TypeInfo>)
    ensures forall t :: t in r <==> exists a :: a in assemblies && t in a.exportedTypes
  {
    if assemblies == [] then []
    else assemblies[0].exportedTypes + ExportedTypes(assemblies[1..])
  }

  /** The filter of lines 23-30: concrete classes with at least one request-handler interface, in order. */
  function HandlerTypes(ts: seq<TypeInfo>): (r: seq<TypeInfo>)
    ensures |r| <= |ts|
    ensures forall t :: t in r <==> t in ts && IsHandlerType(t)
  {
    if ts == [] then []
    else if IsHandlerType(ts[0]) then [ts[0]] + HandlerTypes(ts[1..])
    else HandlerTypes(ts[1..])
  }

  /** The transient registrations for the handler interfaces of `t`, in interface order. */
  function TransientRegistrations(t: TypeInfo): seq<ServiceDescriptor> {
    var interfaces := RequestHandlerInterfaces(t.interfaces);
    seq(|interfaces|, k requires 0 <= k < |interfaces| => ServiceDescriptor(interfaces[k], t.id, Transient))
  }

  /** The registrations for a list of handler types: type order, then interface order. */
  function Registrations(ts: seq<TypeInfo>): seq<ServiceDescriptor> {
    if ts == [] then [] else TransientRegistrations(ts[0]) + Registrations(ts[1..])
  }

  lemma {:induction false} RegistrationsAppend(a: seq<TypeInfo>, b: seq<TypeInfo>)
    ensures Registrations(a + b) == Registrations(a) + Registrations(b)
  {
    if a == [] {
      assert a + b == b;
    } else {
      assert (a + b)[1..] == a[1..] + b;
      RegistrationsAppend(a[1..], b);
    }
  }

  lemma RegistrationsSnoc(ts: seq<TypeInfo>, t: TypeInfo)
    ensures Registrations(ts + [t]) == Registrations(ts) + TransientRegistrations(t)
  {
    RegistrationsAppend(ts, [t]);
    assert Registrations([t]) == TransientRegistrations(t) + Registrations([]);
  }

  lemma SeqAssoc<T>(a: seq<T>, b: seq<T>, c: seq<T>)
    ensures a + b + c == a + (b + c)
  {
  }

  /** The inner loop of both overloads: `AddTransient(handlerInterface, handlerType)` for each handler interface, in order. */
  method AddTransients(services: ServiceCollection, handlerType: TypeInfo, interfaces: seq<TypeRef>)
    requires interfaces == RequestHandlerInterfaces(handlerType.interfaces)
    modifies services
    ensures services.descriptors == old(services.descriptors) + TransientRegistrations(handlerType)
  {
    ghost var expected := TransientRegistrations(handlerType);
    var j := 0;
    while j < |interfaces|
      invariant 0 <= j <= |interfaces|
      invariant services.descriptors == old(services.descriptors) + expected[..j]
    {
      services.Add(ServiceDescriptor(interfaces[j], handlerType.id, Transient));
      assert expected[..j + 1] == expected[..j] + [expected[j]];
      j := j + 1;
    }
    assert expected[..j] == expected;
  }

  /** A registration comes from exactly one handler type of the list and one of its handler interfaces. */
  lemma {:induction false} InRegistrations(ts: seq<TypeInfo>, d: ServiceDescriptor)
    ensures d in Registrations(ts) <==>
      exists t :: t in ts && d.implementation == t.id && d.lifetime == Transient &&
        d.service in RequestHandlerInterfaces(t.interfaces)
  {
    if ts != [] {
      InRegistrations(ts[1..], d);
      var interfaces := RequestHandlerInterfaces(ts[0].interfaces);
      if d.implementation == ts[0].id && d.lifetime == Transient && d.service in interfaces {
        var k :| 0 <= k < |interfaces| && interfaces[k] == d.service;
        assert TransientRegistrations(ts[0])[k] == d;
      }
      forall t | t in ts ensures t == ts[0] || t in ts[1..] {
      }
    }
  }

  /**
   * `AddNetHandler(params Assembly[])`: the dispatcher singleton first, then one
   * transient registration per handler interface of every handler class exported
   * by the assemblies. Returns the collection it was given.
   */
  method AddNetHandlerFromAssemblies(services: ServiceCollection, assemblies: seq<Assembly>)
    returns (r: ServiceCollection)
    modifies services
    ensures r == services
    ensures services.descriptors ==
      old(services.descriptors) + [DispatchrDescriptor] + Registrations(HandlerTypes(ExportedTypes(assemblies)))
  {
    services.Add(DispatchrDescriptor);
    ghost var start := services.descriptors;
    var handlerTypes := HandlerTypes(ExportedTypes(assemblies));
    var i := 0;
    while i < |handlerTypes|
      invariant 0 <= i <= |handlerTypes|
      invariant services.descriptors == start + Registrations(handlerTypes[..i])
    {
      var handler := handlerTypes[i];
      AddTransients(services, handler, RequestHandlerInterfaces(handler.interfaces));
      assert handlerTypes[..i + 1] == handlerTypes[..i] + [handler];
      RegistrationsSnoc(handlerTypes[..i], handler);
      SeqAssoc(start, Registrations(handlerTypes[..i]), TransientRegistrations(handler));
      i := i + 1;
    }
    assert handlerTypes[..i] == handlerTypes;
    r := services;
  }

  /** What `AddNetHandler(params Type[])` appends after the singleton, and the exception that stopped it, if any. */
  datatype ExplicitResult = ExplicitResult(descriptors: seq<ServiceDescriptor>, error: Option<Error>)

  function ExplicitRegistrations(ts: seq<TypeInfo>): (e: ExplicitResult)
    ensures e.error.Some? ==> e.error.value.Kind() == ArgumentException
  {
    if ts == [] then ExplicitResult([], None)
    else if !IsConcreteClass(ts[0]) then ExplicitResult([], Some(NotConcreteClass(ts[0].id)))
    else if RequestHandlerInterfaces(ts[0].interfaces) == [] then ExplicitResult([], Some(NoRequestHandlerInterface(ts[0].id)))
    else
      var rest := ExplicitRegistrations(ts[1..]);
      ExplicitResult(TransientRegistrations(ts[0]) + rest.descriptors, rest.error)
  }

  /** After `i` accepted types, the remaining work is that of the suffix. */
  lemma {:induction false} ExplicitRegistrationsSplit(ts: seq<TypeInfo>, i: nat)
    requires i <= |ts|
    requires forall j | 0 <= j < i :: IsHandlerType(ts[j])
    ensures var whole := ExplicitRegistrations(ts);
      var rest := ExplicitRegistrations(ts[i..]);
      whole.descriptors == Registrations(ts[..i]) + rest.descriptors && whole.error == rest.error
  {
    if i > 0 {
      assert IsHandlerType(ts[0]);
      var tail := ExplicitRegistrations(ts[1..]);
      assert ExplicitRegistrations(ts) == ExplicitResult(TransientRegistrations(ts[0]) + tail.descriptors, tail.error);
      ExplicitRegistrationsSplit(ts[1..], i - 1);
      assert ts[1..][i - 1..] == ts[i..];
      assert Registrations(ts[..i]) == TransientRegistrations(ts[0]) + Registrations(ts[1..][..i - 1]) by {
        assert ts[..i][0] == ts[0];
        assert ts[..i][1..] == ts[1..][..i - 1];
      }
      SeqAssoc(TransientRegistrations(ts[0]), Registrations(ts[1..][..i - 1]), ExplicitRegistrations(ts[i..]).descriptors);
    }
  }

  /**
   * `AddNetHandler(params Type[])`: the dispatcher singleton first, then the
   * types in order; the first type that is not a concrete class, or implements
   * no `IRequestHandler<,>`, throws an `ArgumentException`, and what the
   * earlier types registered stays. Otherwise returns the collection it was given.
   */
  method AddNetHandlerFromTypes(services: ServiceCollection, handlerTypes: seq<TypeInfo>)
    returns (r: Result<ServiceCollection, Error>)
    modifies services
    ensures var e := ExplicitRegistrations(handlerTypes);
      && services.descriptors == old(services.descriptors) + [DispatchrDescriptor] + e.descriptors
      && (e.error.None? ==> r == Success(services))
      && (e.error.Some? ==> r == Failure(e.error.value))
  {
    services.Add(DispatchrDescriptor);
    ghost var start := services.descriptors;
    var i := 0;
    while i < |handlerTypes|
      invariant 0 <= i <= |handlerTypes|
      invariant forall j | 0 <= j < i :: IsHandlerType(handlerTypes[j])
      invariant services.descriptors == start + Registrations(handlerTypes[..i])
    {
      var handlerType := handlerTypes[i];
      if !handlerType.isClass || handlerType.isAbstract {
        ExplicitStopsAtFirstRejectedType(handlerTypes, i);
        assert ExplicitRegistrations(handlerTypes) == ExplicitResult(Registrations(handlerTypes[..i]), Some(NotConcreteClass(handlerType.id)));
        return Failure(NotConcreteClass(handlerType.id));
      }
      var implementedInterfaces := RequestHandlerInterfaces(handlerType.interfaces);
      if |implementedInterfaces| == 0 {
        ExplicitStopsAtFirstRejectedType(handlerTypes, i);
        assert ExplicitRegistrations(handlerTypes) == ExplicitResult(Registrations(handlerTypes[..i]), Some(NoRequestHandlerInterface(handlerType.id)));
        return Failure(NoRequestHandlerInterface(handlerType.id));
      }
      AddTransients(services, handlerType, implementedInterfaces);
      assert handlerTypes[..i + 1] == handlerTypes[..i] + [handlerType];
      RegistrationsSnoc(handlerTypes[..i], handlerType);
      SeqAssoc(start, Registrations(handlerTypes[..i]), TransientRegistrations(handlerType));
      i := i + 1;
    }
    ExplicitAcceptsHandlerTypes(handlerTypes);
    assert handlerTypes[..i] == handlerTypes;
    r := Success(services);
  }

  /**
   * The scan registers exactly the pairs (handler interface, concrete class)
   * among the exported types, all transient; every other type is skipped.
   */
  lemma ScanRegistersExactlyHandlerInterfaces(assemblies: seq<Assembly>, d: ServiceDescriptor)
    ensures d in Registrations(HandlerTypes(ExportedTypes(assemblies))) <==>
      && d.lifetime == Transient
      && IsRequestHandlerInterface(d.service)
      && exists t :: t in ExportedTypes(assemblies) && IsConcreteClass(t) &&
           d.implementation == t.id && d.service in t.interfaces
  {
    var handlers := HandlerTypes(ExportedTypes(assemblies));
    InRegistrations(handlers, d);
    forall t | t in handlers ensures d.service in RequestHandlerInterfaces(t.interfaces) <==>
      d.service in t.interfaces && IsRequestHandlerInterface(d.service)
    {
      InRequestHandlerInterfaces(t.interfaces, d.service);
    }
    if d.lifetime == Transient && IsRequestHandlerInterface(d.service) {
      forall t | t in ExportedTypes(assemblies) && IsConcreteClass(t) && d.implementation == t.id && d.service in t.interfaces
        ensures t in handlers && d.service in RequestHandlerInterfaces(t.interfaces)
      {
        InRequestHandlerInterfaces(t.interfaces, d.service);
      }
    }
  }

  /**
   * The first type that is not a concrete class, or implements no
   * `IRequestHandler<,>`, stops the explicit overload with that type's
   * `ArgumentException`; the registrations of the types before it stay.
   */
  lemma ExplicitStopsAtFirstRejectedType(ts: seq<TypeInfo>, k: nat)
    requires k < |ts|
    requires forall j | 0 <= j < k :: IsHandlerType(ts[j])
    requires !IsHandlerType(ts[k])
    ensures var e := ExplicitRegistrations(ts);
      e.descriptors == Registrations(ts[..k]) &&
      e.error == Some(if !IsConcreteClass(ts[k]) then NotConcreteClass(ts[k].id) else NoRequestHandlerInterface(ts[k].id))
  {
    ExplicitRegistrationsSplit(ts, k);
    assert ts[k..][0] == ts[k];
  }

  /** The explicit overload completes exactly when every type it is given is a handler type. */
  lemma {:induction false} ExplicitCompletesIffAllHandlerTypes(ts: seq<TypeInfo>)
    ensures ExplicitRegistrations(ts).error.None? <==> forall j | 0 <= j < |ts| :: IsHandlerType(ts[j])
  {
    if ts != [] {
      ExplicitCompletesIffAllHandlerTypes(ts[1..]);
      assert forall j | 1 <= j < |ts| :: ts[j] == ts[1..][j - 1];
    }
  }

  lemma {:induction false} HandlerTypesKeepsHandlers(ts: seq<TypeInfo>)
    requires forall j | 0 <= j < |ts| :: IsHandlerType(ts[j])
    ensures HandlerTypes(ts) == ts
  {
    if ts != [] {
      HandlerTypesKeepsHandlers(ts[1..]);
    }
  }

  /** Given only handler types, the explicit overload registers all of them and throws nothing. */
  lemma ExplicitAcceptsHandlerTypes(ts: seq<TypeInfo>)
    requires forall j | 0 <= j < |ts| :: IsHandlerType(ts[j])
    ensures ExplicitRegistrations(ts).descriptors == Registrations(ts)
    ensures ExplicitRegistrations(ts).error == None
  {
    ExplicitRegistrationsSplit(ts, |ts|);
    var rest := ExplicitRegistrations(ts[|ts|..]);
    assert rest == ExplicitResult([], None) by {
      assert ts[|ts|..] == [];
    }
    assert Registrations(ts[..|ts|]) + [] == Registrations(ts) by {
      assert ts[..|ts|] == ts;
    }
  }

  /**
   * Given only handler types, the explicit overload registers exactly what the
   * scan registers for an assembly exporting those types, in the same order.
   */
  lemma ExplicitAgreesWithScan(ts: seq<TypeInfo>)
    requires forall j | 0 <= j < |ts| :: IsHandlerType(ts[j])
    ensures ExplicitRegistrations(ts).error == None
    ensures ExplicitRegistrations(ts).descriptors == Registrations(HandlerTypes(ExportedTypes([Assembly(ts)])))
  {
    ExplicitAcceptsHandlerTypes(ts);
    assert ExportedTypes([Assembly(ts)]) == ts + ExportedTypes([]);
    assert ts + [] == ts;
    HandlerTypesKeepsHandlers(ts);
  }


}
