/** `ObjectFactory.Configuration`: a builder that records bindings in six
    maps. Services are keyed by their `EvaluatedType`, instantiators by the
    raw class they build. Every bind call writes exactly one map, and
    binding a key again replaces what was bound before. */
module ObjectFactory {
  import opened Wrappers
  import opened Reflection
  import opened EvaluatedTypes
  import opened Errors
  import opened Providers

  /** `ToCreate`: an implementation class to build and the arguments to
      build it with (an argument may be null). */
  datatype ToCreate = ToCreate(implementation: ClassDecl, args: seq<Option<Obj>>)

  class Configuration {
    var toCreateServices: map<EvaluatedType, ToCreate>
    var toCreateServiceTypes: map<EvaluatedType, ToCreate>
    var providers: map<EvaluatedType, ScopeProvider>
    var toCreateInstantiators: map<RawClass, ToCreate>
    var toCreateInstantiatorTypes: map<RawClass, ToCreate>
    var instantiators: map<RawClass, Obj>

    /** The six maps. */
    function State(): Bindings
      reads this
    {
      Bindings(toCreateServices, toCreateServiceTypes, providers, toCreateInstantiators, toCreateInstantiatorTypes, instantiators)
    }

    /** `create()`: every map starts empty. */
    constructor Create()
      ensures State() == NoBindings()
    {
      toCreateServices := map[];
      toCreateServiceTypes := map[];
      providers := map[];
      toCreateInstantiators := map[];
      toCreateInstantiatorTypes := map[];
      instantiators := map[];
    }

    /** `bindService(clazz, instance)`: a constant holder under the class's
        type. A null instance is rejected by the holder's constructor before
        anything is stored. */
    method BindServiceInstance(clazz: RawClass, instance: Option<Obj>) returns (r: Outcome<Error>)
      modifies this`providers
      ensures instance.None? ==> r == Fail(NullValue) && State() == old(State())
      ensures instance.Some? ==> r == Pass && State() == Bind(old(State()), ServiceInstance(clazz, instance.value))
    {
      var holder := ConstantProvider.New(instance);
      if holder.Err? {
        return Fail(holder.error);
      }
      providers := providers[OfClass(clazz) := Constant(holder.value)];
      r := Pass;
    }

    /** `bindService(clazz, implementation, args)`. */
    method BindService(clazz: RawClass, implementation: ClassDecl, args: seq<Option<Obj>>)
      modifies this`toCreateServices
      ensures State() == Bind(old(State()), Service(clazz, implementation, args))
    {
      toCreateServices := toCreateServices[OfClass(clazz) := ToCreate(implementation, args)];
    }

    /** `bindServiceType(clazz, implementation, args)`. */
    method BindServiceType(clazz: RawClass, implementation: ClassDecl, args: seq<Option<Obj>>)
      modifies this`toCreateServiceTypes
      ensures State() == Bind(old(State()), ServiceType(clazz, implementation, args))
    {
      toCreateServiceTypes := toCreateServiceTypes[OfClass(clazz) := ToCreate(implementation, args)];
    }

    /** `bindService(clazz)`: the class is its own implementation, built
        with no arguments. */
    method BindServiceSelf(clazz: ClassDecl)
      modifies this`toCreateServices
      ensures State() == Bind(old(State()), Service(clazz.cls, clazz, []))
    {
      BindService(clazz.cls, clazz, []);
    }

    /** `bindServiceType(clazz)`. */
    method BindServiceTypeSelf(clazz: ClassDecl)
      modifies this`toCreateServiceTypes
      ensures State() == Bind(old(State()), ServiceType(clazz.cls, clazz, []))
    {
      BindServiceType(clazz.cls, clazz, []);
    }

    /** `bindInstantiator(instanceType, instantiator)`. */
    method BindInstantiatorInstance(instanceType: RawClass, instantiator: Obj)
      modifies this`instantiators
      ensures State() == Bind(old(State()), InstantiatorInstance(instanceType, instantiator))
    {
      instantiators := instantiators[instanceType := instantiator];
    }

    /** `bindInstantiator(instanceType, implementation, args)`. */
    method BindInstantiator(instanceType: RawClass, implementation: ClassDecl, args: seq<Option<Obj>>)
      modifies this`toCreateInstantiators
      ensures State() == Bind(old(State()), Instantiator(instanceType, implementation, args))
    {
      toCreateInstantiators := toCreateInstantiators[instanceType := ToCreate(implementation, args)];
    }

    /** `bindInstantiatorType(instanceType, implementation, args)`. */
    method BindInstantiatorType(instanceType: RawClass, implementation: ClassDecl, args: seq<Option<Obj>>)
      modifies this`toCreateInstantiatorTypes
      ensures State() == Bind(old(State()), InstantiatorType(instanceType, implementation, args))
    {
      toCreateInstantiatorTypes := toCreateInstantiatorTypes[instanceType := ToCreate(implementation, args)];
    }
  }

  /** The six maps as a value. */
  datatype Bindings = Bindings(
    toCreateServices: map<EvaluatedType, ToCreate>,
    toCreateServiceTypes: map<EvaluatedType, ToCreate>,
    providers: map<EvaluatedType, ScopeProvider>,
    toCreateInstantiators: map<RawClass, ToCreate>,
    toCreateInstantiatorTypes: map<RawClass, ToCreate>,
    instantiators: map<RawClass, Obj>)

  /** One bind call, with the non-null instance it binds where it binds one. */
  datatype Binding =
    | ServiceInstance(clazz: RawClass, instance: Obj)
    | Service(clazz: RawClass, implementation: ClassDecl, args: seq<Option<Obj>>)
    | ServiceType(clazz: RawClass, implementation: ClassDecl, args: seq<Option<Obj>>)
    | InstantiatorInstance(instanceType: RawClass, instantiator: Obj)
    | Instantiator(instanceType: RawClass, implementation: ClassDecl, args: seq<Option<Obj>>)
    | InstantiatorType(instanceType: RawClass, implementation: ClassDecl, args: seq<Option<Obj>>)

  function NoBindings(): Bindings {
    Bindings(map[], map[], map[], map[], map[], map[])
  }

  /** The effect of one bind call on the six maps. */
  function Bind(s: Bindings, b: Binding): Bindings {
    match b
    case ServiceInstance(c, v) => s.(providers := s.providers[OfClass(c) := Constant(ConstantProvider(v))])
    case Service(c, impl, args) => s.(toCreateServices := s.toCreateServices[OfClass(c) := ToCreate(impl, args)])
    case ServiceType(c, impl, args) => s.(toCreateServiceTypes := s.toCreateServiceTypes[OfClass(c) := ToCreate(impl, args)])
    case InstantiatorInstance(c, v) => s.(instantiators := s.instantiators[c := v])
    case Instantiator(c, impl, args) => s.(toCreateInstantiators := s.toCreateInstantiators[c := ToCreate(impl, args)])
    case InstantiatorType(c, impl, args) => s.(toCreateInstantiatorTypes := s.toCreateInstantiatorTypes[c := ToCreate(impl, args)])
  }

  /** Which map a bind call writes and under which key: services by type,
      instantiators by raw class. */
  datatype Slot = ServiceSlot(kind: nat, t: EvaluatedType) | InstantiatorSlot(kind: nat, c: RawClass)

  function SlotOf(b: Binding): Slot {
    match b
    case ServiceInstance(c, _) => ServiceSlot(0, OfClass(c))
    case Service(c, _, _) => ServiceSlot(1, OfClass(c))
    case ServiceType(c, _, _) => ServiceSlot(2, OfClass(c))
    case InstantiatorInstance(c, _) => InstantiatorSlot(3, c)
    case Instantiator(c, _, _) => InstantiatorSlot(4, c)
    case InstantiatorType(c, _, _) => InstantiatorSlot(5, c)
  }

  /** A bind call leaves every map but its own untouched, and in its own
      map it changes only the entry under its key. */
  lemma BindChangesOneEntry(s: Bindings, b: Binding)
    ensures SlotOf(b).kind != 0 ==> Bind(s, b).providers == s.providers
    ensures SlotOf(b).kind != 1 ==> Bind(s, b).toCreateServices == s.toCreateServices
    ensures SlotOf(b).kind != 2 ==> Bind(s, b).toCreateServiceTypes == s.toCreateServiceTypes
    ensures SlotOf(b).kind != 3 ==> Bind(s, b).instantiators == s.instantiators
    ensures SlotOf(b).kind != 4 ==> Bind(s, b).toCreateInstantiators == s.toCreateInstantiators
    ensures SlotOf(b).kind != 5 ==> Bind(s, b).toCreateInstantiatorTypes == s.toCreateInstantiatorTypes
    ensures SlotOf(b).ServiceSlot? ==> forall t :: t != SlotOf(b).t ==>
      && (t in Bind(s, b).providers <==> t in s.providers)
      && (t in s.providers ==> Bind(s, b).providers[t] == s.providers[t])
      && (t in Bind(s, b).toCreateServices <==> t in s.toCreateServices)
      && (t in s.toCreateServices ==> Bind(s, b).toCreateServices[t] == s.toCreateServices[t])
      && (t in Bind(s, b).toCreateServiceTypes <==> t in s.toCreateServiceTypes)
      && (t in s.toCreateServiceTypes ==> Bind(s, b).toCreateServiceTypes[t] == s.toCreateServiceTypes[t])
    ensures SlotOf(b).InstantiatorSlot? ==> forall c :: c != SlotOf(b).c ==>
      && (c in Bind(s, b).instantiators <==> c in s.instantiators)
      && (c in s.instantiators ==> Bind(s, b).instantiators[c] == s.instantiators[c])
      && (c in Bind(s, b).toCreateInstantiators <==> c in s.toCreateInstantiators)
      && (c in s.toCreateInstantiators ==> Bind(s, b).toCreateInstantiators[c] == s.toCreateInstantiators[c])
      && (c in Bind(s, b).toCreateInstantiatorTypes <==> c in s.toCreateInstantiatorTypes)
      && (c in s.toCreateInstantiatorTypes ==> Bind(s, b).toCreateInstantiatorTypes[c] == s.toCreateInstantiatorTypes[c])
  {
  }

  /** Binding the same key of the same map again replaces the earlier
      binding: only the last one is visible. */
  lemma RebindOverwrites(s: Bindings, first: Binding, second: Binding)
    requires SlotOf(first) == SlotOf(second)
    ensures Bind(Bind(s, first), second) == Bind(s, second)
  {
    var t := Bind(s, first);
    match second
    case ServiceInstance(c, v) =>
      assert t.providers == s.providers[OfClass(c) := t.providers[OfClass(c)]];
      UpdateTwice(s.providers, OfClass(c), t.providers[OfClass(c)], Constant(ConstantProvider(v)));
    case Service(c, impl, args) =>
      assert t.toCreateServices == s.toCreateServices[OfClass(c) := t.toCreateServices[OfClass(c)]];
      UpdateTwice(s.toCreateServices, OfClass(c), t.toCreateServices[OfClass(c)], ToCreate(impl, args));
    case ServiceType(c, impl, args) =>
      assert t.toCreateServiceTypes == s.toCreateServiceTypes[OfClass(c) := t.toCreateServiceTypes[OfClass(c)]];
      UpdateTwice(s.toCreateServiceTypes, OfClass(c), t.toCreateServiceTypes[OfClass(c)], ToCreate(impl, args));
    case InstantiatorInstance(c, v) =>
      assert t.instantiators == s.instantiators[c := t.instantiators[c]];
      UpdateTwice(s.instantiators, c, t.instantiators[c], v);
    case Instantiator(c, impl, args) =>
      assert t.toCreateInstantiators == s.toCreateInstantiators[c := t.toCreateInstantiators[c]];
      UpdateTwice(s.toCreateInstantiators, c, t.toCreateInstantiators[c], ToCreate(impl, args));
    case InstantiatorType(c, impl, args) =>
      assert t.toCreateInstantiatorTypes == s.toCreateInstantiatorTypes[c := t.toCreateInstantiatorTypes[c]];
      UpdateTwice(s.toCreateInstantiatorTypes, c, t.toCreateInstantiatorTypes[c], ToCreate(impl, args));
  }

  /** A second update of a key hides the first. */
  lemma UpdateTwice<K, V>(m: map<K, V>, k: K, a: V, b: V)
    ensures m[k := a][k := b] == m[k := b]
  {
  }

  /** The one-argument forms bind the class to itself with no arguments. */
  lemma SelfBinding(s: Bindings, clazz: ClassDecl)
    ensures Bind(s, Service(clazz.cls, clazz, [])).toCreateServices[OfClass(clazz.cls)] == ToCreate(clazz, [])
    ensures Bind(s, ServiceType(clazz.cls, clazz, [])).toCreateServiceTypes[OfClass(clazz.cls)] == ToCreate(clazz, [])
  {
  }
}
