/** `ObjectFactoryImplementation`: a scope in a tree of scopes. Each scope
    binds service instances and service providers by type; a lookup walks
    from the scope up its parent chain. Building an object assembles the
    constructor's arguments from the caller's arguments and then from
    resolved services, using a creator cache shared by all scopes. */
module Scopes {
  import opened Wrappers
  import opened Reflection
  import opened EvaluatedTypes
  import opened Errors
  import opened Providers
  import opened InjectedImplementation

  /** A provider's value as a lookup result: present on success. */
  function Lift(r: Result<Obj, Error>): (l: Result<Option<Obj>, Error>)
    ensures r.Ok? <==> l.Ok?
    ensures r.Ok? ==> l.value == Some(r.value)
    ensures r.Err? ==> l.error == r.error
  {
    match r
    case Ok(v) => Ok(Some(v))
    case Err(e) => Err(e)
  }

  /** A `Provider<X>` request answered by wrapping what `X` resolves to. */
  function Wrapped(r: Result<Option<Obj>, Error>): (w: Result<Option<Obj>, Error>)
    ensures w.Err? <==> r.Err?
    ensures r.Err? ==> w.error == r.error
    ensures (w.Ok? && w.value.Some?) <==> (r.Ok? && r.value.Some?)
    ensures w.Ok? && w.value.Some? ==>
      w.value.value.ProviderObject? && w.value.value.provider.Constant? &&
      GetFrom(w.value.value.provider) == Ok(r.value.value)
  {
    match r
    case Ok(Some(a)) => Ok(Some(ProviderObject(Constant(ConstantProvider(a)))))
    case _ => r
  }

  /** The argument of `newObjectFactory`: providers and instances to bind
      in the new scope. */
  datatype Options = Options(providers: map<EvaluatedType, ScopeProvider>, instances: map<EvaluatedType, Obj>)

  /** The provider entries a child scope binds as services: each provider
      of `ps` whose key is in `done`, under `Provider<K>`. */
  function ProviderEntries(ps: map<EvaluatedType, ScopeProvider>, done: set<EvaluatedType>): map<EvaluatedType, Obj> {
    map k | k in ps && k in done :: ProviderOf(k) := ProviderObject(ps[k])
  }

  /** The services of a child scope built from `options`: itself under
      `ObjectFactory`, each provider under `Provider<K>`, and then the
      instances, which override both. */
  function ChildServices(self: Obj, options: Options): map<EvaluatedType, Obj> {
    (map[OfClass(ObjectFactoryClass) := self] + ProviderEntries(options.providers, options.providers.Keys)) + options.instances
  }

  /** What a child scope binds, and what wins where keys collide. */
  lemma ChildServicesLayout(self: Obj, options: Options)
    ensures forall t :: t in options.instances ==> ChildServices(self, options)[t] == options.instances[t]
    ensures forall k :: k in options.providers && ProviderOf(k) !in options.instances ==>
      ChildServices(self, options)[ProviderOf(k)] == ProviderObject(options.providers[k])
    ensures OfClass(ObjectFactoryClass) !in options.instances ==>
      ChildServices(self, options)[OfClass(ObjectFactoryClass)] == self
    ensures forall t :: t in ChildServices(self, options) <==>
      t in options.instances || t == OfClass(ObjectFactoryClass) || exists k :: k in options.providers && t == ProviderOf(k)
  {
    var entries := ProviderEntries(options.providers, options.providers.Keys);
    forall k | k in options.providers
      ensures ProviderOf(k) in entries && entries[ProviderOf(k)] == ProviderObject(options.providers[k])
    {
    }
    assert OfClass(ObjectFactoryClass) !in entries;
  }

  /** The `creators` cache shared by every scope: every later request for a
      class reuses its creator. `implemented` counts the calls to `implement`
      per class, failed ones included. A cached class was planned exactly
      once; a class that was planned and is not cached failed to plan. */
  class CreatorCache {
    var creators: map<ClassDecl, Creator>
    ghost var implemented: multiset<ClassDecl>

    ghost predicate Valid()
      reads this
    {
      CacheInvariant(creators, implemented)
    }

    constructor ()
      ensures Valid() && creators == map[] && implemented == multiset{}
    {
      creators := map[];
      implemented := multiset{};
    }

    /** `creators.computeIfAbsent(clazz, InjectedImplementation::implement)`:
        a cached creator without a call; otherwise one call, whose result is
        cached when it succeeds. A failing call caches nothing. */
    method ComputeIfAbsent(clazz: ClassDecl) returns (r: Result<Creator, Error>)
      requires Valid()
      modifies this
      ensures Valid()
      ensures r == Implementation(clazz)
      ensures old(clazz in creators) ==> creators == old(creators) && implemented == old(implemented)
      ensures !old(clazz in creators) ==> implemented == old(implemented) + multiset{clazz}
      ensures !old(clazz in creators) && r.Ok? ==> creators == old(creators)[clazz := r.value]
      ensures r.Err? ==> creators == old(creators)
    {
      if clazz in creators {
        return Ok(creators[clazz]);
      }
      r := Implement(clazz);
      implemented := implemented + multiset{clazz};
      if r.Ok? {
        creators := creators[clazz := r.value];
      }
    }
  }

  /** What the cache keeps: each cached creator is its class's plan and was
      planned exactly once; a class planned but not cached failed to plan. */
  ghost predicate CacheInvariant(creators: map<ClassDecl, Creator>, implemented: multiset<ClassDecl>) {
    && (forall c :: c in creators ==> Implementation(c) == Ok(creators[c]) && implemented[c] == 1)
    && (forall c :: c !in creators && implemented[c] > 0 ==> Implementation(c).Err?)
  }

  /** A class whose plan succeeded, once asked for, sits in the cache and
      was planned exactly once; only such classes are cached. */
  lemma SuccessfulPlanIsCached(creators: map<ClassDecl, Creator>, implemented: multiset<ClassDecl>, c: ClassDecl)
    requires CacheInvariant(creators, implemented)
    ensures implemented[c] > 0 && Implementation(c).Ok? ==>
      c in creators && creators[c] == Implementation(c).value && implemented[c] == 1
    ensures c in creators ==> Implementation(c).Ok? && implemented[c] > 0
  {
  }

  class ObjectFactoryImplementation {
    const parent: ObjectFactoryImplementation?
    /** The scopes above this one, nearest first. */
    ghost const ancestors: seq<ObjectFactoryImplementation>
    const creators: CreatorCache
    var services: map<EvaluatedType, Obj>
    var serviceProviders: map<EvaluatedType, ScopeProvider>

    /** The parent chain is finite: `ancestors` lists it and shrinks by one
        at each step up. */
    ghost predicate ChainOk()
      decreases |ancestors|
    {
      if parent == null then ancestors == []
      else
        && |ancestors| > 0
        && ancestors[0] == parent
        && parent.ancestors == ancestors[1..]
        && parent.ChainOk()
    }

    /** This scope and its ancestors, nearest first. */
    ghost function Chain(): seq<ObjectFactoryImplementation> {
      [this] + ancestors
    }

    /** The delayed holders bound in this scope and its ancestors. */
    ghost function Holders(): set<DelayedProvider>
      requires ChainOk()
      reads this, ancestors
      decreases |ancestors|
    {
      (set k | k in serviceProviders && serviceProviders[k].Delayed? :: serviceProviders[k].holder)
      + (if parent == null then {} else parent.Holders())
    }

    /** The constructor: the new scope binds `ObjectFactory` to itself. */
    constructor (parent: ObjectFactoryImplementation?, creators: CreatorCache)
      requires parent != null ==> parent.ChainOk()
      ensures this.parent == parent && this.creators == creators && ChainOk()
      ensures ancestors == if parent == null then [] else [parent] + parent.ancestors
      ensures services == map[OfClass(ObjectFactoryClass) := Factory(this)]
      ensures serviceProviders == map[]
    {
      this.parent := parent;
      this.ancestors := if parent == null then [] else [parent] + parent.ancestors;
      this.creators := creators;
      serviceProviders := map[];
      new;
      services := map[OfClass(ObjectFactoryClass) := Factory(this)];
    }

    /** `registerServiceInstance`: binding null leaves no instance under the
        type in this scope. */
    method RegisterServiceInstance(t: EvaluatedType, instance: Option<Obj>)
      modifies this`services
      ensures services == if instance.Some? then old(services)[t := instance.value] else old(services) - {t}
    {
      if instance.Some? {
        services := services[t := instance.value];
      } else {
        services := services - {t};
      }
    }

    /** `registerServiceProviderInstance`: a fresh, empty delayed holder
        bound under `Provider<T>` as a service and under `T` as a provider.
        The holder is returned; its `Set` is the consumer the source returns. */
    method RegisterServiceProviderInstance(t: EvaluatedType) returns (d: DelayedProvider)
      modifies this`services, this`serviceProviders
      ensures fresh(d) && d.providedType == t && d.value == None
      ensures services == old(services)[ProviderOf(t) := ProviderObject(Delayed(d))]
      ensures serviceProviders == old(serviceProviders)[t := Delayed(d)]
    {
      d := new DelayedProvider(t);
      services := services[ProviderOf(t) := ProviderObject(Delayed(d))];
      serviceProviders := serviceProviders[t := Delayed(d)];
    }

    /** `serviceInstance`: the instance bound to the type here, or else in
        the parent's chain. */
    function ServiceInstance(t: EvaluatedType): Option<Obj>
      requires ChainOk()
      reads this, ancestors
      decreases |ancestors|
    {
      if t in services then Some(services[t])
      else if parent != null then parent.ServiceInstance(t)
      else None
    }

    /** `serviceViaProvider`: the value of the provider bound to the type
        here, or else in the parent's chain. Reading an empty delayed holder
        fails. */
    function ServiceViaProvider(t: EvaluatedType): Result<Option<Obj>, Error>
      requires ChainOk()
      reads this, ancestors, Holders()
      decreases |ancestors|
    {
      if t in serviceProviders then Lift(GetFrom(serviceProviders[t]))
      else if parent != null then parent.ServiceViaProvider(t)
      else Ok(None)
    }

    /** `findServiceOfType`: instances first, then providers, then for
        `Provider<X>` the resolution of `X` wrapped in a constant holder. */
    function FindServiceOfType(t: EvaluatedType): Result<Option<Obj>, Error>
      requires ChainOk()
      reads this, ancestors, Holders()
      decreases t
    {
      var instance := ServiceInstance(t);
      if instance.Some? then Ok(instance)
      else
        var provider :- ServiceViaProvider(t);
        if provider.Some? then Ok(provider)
        else if t.rawType == ProviderClass && t.typeParameters != [] then
          Wrapped(FindServiceOfType(t.typeParameters[0]))
        else Ok(None)
    }

    /** `getServiceOfType`: a type that resolves to nothing cannot be injected. */
    function GetServiceOfType(t: EvaluatedType): Result<Obj, Error>
      requires ChainOk()
      reads this, ancestors, Holders()
    {
      var found :- FindServiceOfType(t);
      if found.None? then Err(CannotInject(t)) else Ok(found.value)
    }

    /** Scope `i` of the chain is the nearest one binding `t` as an instance. */
    ghost predicate NearestInstance(i: int, t: EvaluatedType)
      reads Chain()
    {
      && 0 <= i < |Chain()|
      && t in Chain()[i].services
      && forall j :: 0 <= j < i ==> t !in Chain()[j].services
    }

    /** Scope `i` of the chain is the nearest one binding `t` as a provider. */
    ghost predicate NearestProvider(i: int, t: EvaluatedType)
      reads Chain()
    {
      && 0 <= i < |Chain()|
      && t in Chain()[i].serviceProviders
      && forall j :: 0 <= j < i ==> t !in Chain()[j].serviceProviders
    }

    lemma ChainSteps()
      requires ChainOk() && parent != null
      ensures parent.Chain() == Chain()[1..]
      ensures forall i :: 0 <= i < |parent.Chain()| ==> parent.Chain()[i] == Chain()[i + 1]
    {
    }

    /** `serviceInstance` answers with the nearest scope that binds the
        type, and with nothing exactly when no scope of the chain does. */
    lemma {:induction false} ServiceInstanceIsNearest(t: EvaluatedType)
      requires ChainOk()
      ensures ServiceInstance(t).None? <==> forall i :: 0 <= i < |Chain()| ==> t !in Chain()[i].services
      ensures forall i :: NearestInstance(i, t) ==> ServiceInstance(t) == Some(Chain()[i].services[t])
      decreases |ancestors|
    {
      if t in services {
        assert Chain()[0] == this;
        forall i | NearestInstance(i, t)
          ensures i == 0
        {
        }
      } else if parent == null {
        assert Chain() == [this];
      } else {
        parent.ServiceInstanceIsNearest(t);
        ChainSteps();
        forall i | NearestInstance(i, t)
          ensures ServiceInstance(t) == Some(Chain()[i].services[t])
        {
          assert i != 0;
          assert parent.NearestInstance(i - 1, t);
        }
        if ServiceInstance(t).None? {
          forall i | 0 <= i < |Chain()|
            ensures t !in Chain()[i].services
          {
            if i > 0 {
              assert Chain()[i] == parent.Chain()[i - 1];
            }
          }
        }
      }
    }

    /** `serviceViaProvider` reads the nearest scope that binds a provider
        for the type, and answers with nothing exactly when no scope of the
        chain binds one. */
    lemma {:induction false} ServiceViaProviderIsNearest(t: EvaluatedType)
      requires ChainOk()
      ensures ServiceViaProvider(t) == Ok(None) <==> forall i :: 0 <= i < |Chain()| ==> t !in Chain()[i].serviceProviders
      ensures forall i :: NearestProvider(i, t) ==>
        ServiceViaProvider(t) == Lift(GetFrom(Chain()[i].serviceProviders[t]))
      decreases |ancestors|
    {
      if t in serviceProviders {
        assert Chain()[0] == this;
        forall i | NearestProvider(i, t)
          ensures i == 0
        {
        }
      } else if parent == null {
        assert Chain() == [this];
      } else {
        parent.ServiceViaProviderIsNearest(t);
        ChainSteps();
        forall i | NearestProvider(i, t)
          ensures ServiceViaProvider(t) == Lift(GetFrom(Chain()[i].serviceProviders[t]))
        {
          assert i != 0;
          assert parent.NearestProvider(i - 1, t);
        }
        if ServiceViaProvider(t) == Ok(None) {
          forall i | 0 <= i < |Chain()|
            ensures t !in Chain()[i].serviceProviders
          {
            if i > 0 {
              assert Chain()[i] == parent.Chain()[i - 1];
            }
          }
        }
      }
    }

    /** A scope's own binding shadows every ancestor's: in particular the
        `ObjectFactory` binding each scope makes of itself. */
    lemma OwnBindingShadows(t: EvaluatedType)
      requires ChainOk() && t in services
      ensures FindServiceOfType(t) == Ok(Some(services[t]))
      ensures GetServiceOfType(t) == Ok(services[t])
    {
    }

    /** An instance bound anywhere in the chain wins over every provider
        binding, however near: the nearest instance is the answer. */
    lemma InstancesComeFirst(t: EvaluatedType, i: nat)
      requires ChainOk() && NearestInstance(i, t)
      ensures FindServiceOfType(t) == Ok(Some(Chain()[i].services[t]))
    {
      ServiceInstanceIsNearest(t);
    }

    /** With no instance bound anywhere, the nearest provider binding is
        read. */
    lemma ProvidersComeSecond(t: EvaluatedType, i: nat)
      requires ChainOk() && NearestProvider(i, t)
      requires forall j :: 0 <= j < |Chain()| ==> t !in Chain()[j].services
      ensures FindServiceOfType(t) == Lift(GetFrom(Chain()[i].serviceProviders[t]))
    {
      ServiceInstanceIsNearest(t);
      ServiceViaProviderIsNearest(t);
    }

    /** A `Provider<X>` request that no scope binds is answered by resolving
        `X` and wrapping the result in a constant holder. */
    lemma ProviderRequestUnwraps(x: EvaluatedType)
      requires ChainOk()
      requires forall j :: 0 <= j < |Chain()| ==>
        ProviderOf(x) !in Chain()[j].services && ProviderOf(x) !in Chain()[j].serviceProviders
      ensures FindServiceOfType(ProviderOf(x)) == Wrapped(FindServiceOfType(x))
    {
      ServiceInstanceIsNearest(ProviderOf(x));
      ServiceViaProviderIsNearest(ProviderOf(x));
    }

    /** Reading the providers fails only on an empty delayed holder of the
        chain, naming the type it was registered for. */
    lemma {:induction false} ViaProviderFailsOnlyWhenPending(t: EvaluatedType)
      requires ChainOk()
      ensures ServiceViaProvider(t).Err? ==>
        exists d :: d in Holders() && d.value.None? && ServiceViaProvider(t).error == NotYetPresent(d.providedType)
      decreases |ancestors|
    {
      if t in serviceProviders {
        var p := serviceProviders[t];
        if p.Delayed? && ServiceViaProvider(t).Err? {
          assert p.holder in Holders();
        }
      } else if parent != null {
        parent.ViaProviderFailsOnlyWhenPending(t);
      }
    }

    /** Lookups fail only on an empty delayed holder of the chain; every
        other outcome is an answer, present or absent. */
    lemma {:induction false} FindFailsOnlyWhenPending(t: EvaluatedType)
      requires ChainOk()
      ensures FindServiceOfType(t).Err? ==>
        exists d :: d in Holders() && d.value.None? && FindServiceOfType(t).error == NotYetPresent(d.providedType)
      decreases t
    {
      if ServiceInstance(t).None? {
        ViaProviderFailsOnlyWhenPending(t);
        if ServiceViaProvider(t) == Ok(None) && t.rawType == ProviderClass && t.typeParameters != [] {
          FindFailsOnlyWhenPending(t.typeParameters[0]);
        }
      }
    }

    /** `getServiceOfType` fails with "Cannot inject type" exactly when
        `findServiceOfType` finds nothing, and otherwise answers with what it
        finds. */
    lemma CannotInjectExactlyWhenUnresolved(t: EvaluatedType)
      requires ChainOk()
      ensures GetServiceOfType(t) == Err(CannotInject(t)) <==> FindServiceOfType(t) == Ok(None)
      ensures FindServiceOfType(t).Ok? && FindServiceOfType(t).value.Some? ==>
        GetServiceOfType(t) == Ok(FindServiceOfType(t).value.value)
      ensures GetServiceOfType(t).Ok? ==> FindServiceOfType(t) == Ok(Some(GetServiceOfType(t).value))
    {
      FindFailsOnlyWhenPending(t);
    }

    /** After `registerServiceProviderInstance(T)`, and unless an instance is
        bound to `T` somewhere in the chain, resolving `T` fails with "not
        yet present" until the holder is set, and then yields its value;
        `Provider<T>` resolves to the holder itself. */
    lemma DelayedResolution(t: EvaluatedType, d: DelayedProvider)
      requires ChainOk()
      requires t in serviceProviders && serviceProviders[t] == Delayed(d)
      requires ProviderOf(t) in services && services[ProviderOf(t)] == ProviderObject(Delayed(d))
      requires forall j :: 0 <= j < |Chain()| ==> t !in Chain()[j].services
      ensures d.value.None? ==> FindServiceOfType(t) == Err(NotYetPresent(d.providedType))
      ensures d.value.Some? ==> FindServiceOfType(t) == Ok(d.value)
      ensures FindServiceOfType(ProviderOf(t)) == Ok(Some(ProviderObject(Delayed(d))))
    {
      ServiceInstanceIsNearest(t);
      assert Chain()[0] == this;
      assert NearestProvider(0, t);
      ServiceViaProviderIsNearest(t);
    }

    /** One position of the argument array: a caller's argument, which must
        be non-null and of an assignable class, or else the service injected
        there, which must exist and be of an assignable class. */
    function Slot(cr: Creator, manual: seq<Option<Obj>>, assignable: (RawClass, RawClass) -> bool, i: nat): Result<Obj, Error>
      requires ChainOk() && i < |cr.parameterTypes|
      reads this, ancestors, Holders()
    {
      var parameter := cr.parameterTypes[i];
      if i < |manual| then
        if manual[i].None? then Err(NullArgument(i))
        else if !assignable(parameter, RuntimeClass(manual[i].value)) then
          Err(ArgumentTypeMismatch(i, parameter, RuntimeClass(manual[i].value)))
        else Ok(manual[i].value)
      else if i >= |cr.injectedServices| then Err(InjectionIndexOutOfBounds(i, |cr.injectedServices|))
      else
        var service :- GetServiceOfType(cr.injectedServices[i]);
        if !assignable(parameter, RuntimeClass(service)) then Err(ArgumentTypeMismatch(i, parameter, RuntimeClass(service)))
        else Ok(service)
    }

    /** The arguments from position `i` on, filled in order; more caller
        arguments than parameters fail once every parameter is filled. */
    function ArgumentsFrom(cr: Creator, manual: seq<Option<Obj>>, assignable: (RawClass, RawClass) -> bool, i: nat): Result<seq<Obj>, Error>
      requires ChainOk()
      reads this, ancestors, Holders()
      decreases |cr.parameterTypes| - i
    {
      var n := |cr.parameterTypes|;
      if i >= n then
        if |manual| > n then Err(TooManyArguments(n, |manual|)) else Ok([])
      else
        var a :- Slot(cr, manual, assignable, i);
        var rest :- ArgumentsFrom(cr, manual, assignable, i + 1);
        Ok([a] + rest)
    }

    /** The argument array `newInstance` passes to the creator's invoker. */
    function Arguments(cr: Creator, manual: seq<Option<Obj>>, assignable: (RawClass, RawClass) -> bool): Result<seq<Obj>, Error>
      requires ChainOk()
      reads this, ancestors, Holders()
    {
      ArgumentsFrom(cr, manual, assignable, 0)
    }

    /** The outcome from position `i` on: the first failing position fails
        the whole, and with every position filled the count is checked. */
    lemma {:induction false} ArgumentsFromSlots(cr: Creator, manual: seq<Option<Obj>>, assignable: (RawClass, RawClass) -> bool, i: nat)
      requires ChainOk() && i <= |cr.parameterTypes|
      ensures ArgumentsFrom(cr, manual, assignable, i).Ok? <==>
        |manual| <= |cr.parameterTypes| && forall j :: i <= j < |cr.parameterTypes| ==> Slot(cr, manual, assignable, j).Ok?
      ensures ArgumentsFrom(cr, manual, assignable, i).Ok? ==>
        var args := ArgumentsFrom(cr, manual, assignable, i).value;
        |args| == |cr.parameterTypes| - i &&
        forall j :: i <= j < |cr.parameterTypes| ==> Slot(cr, manual, assignable, j) == Ok(args[j - i])
      ensures ArgumentsFrom(cr, manual, assignable, i).Err? ==>
        || (exists j :: i <= j < |cr.parameterTypes| && FirstFailure(cr, manual, assignable, i, j) &&
              ArgumentsFrom(cr, manual, assignable, i).error == Slot(cr, manual, assignable, j).error)
        || ((forall j :: i <= j < |cr.parameterTypes| ==> Slot(cr, manual, assignable, j).Ok?) &&
              ArgumentsFrom(cr, manual, assignable, i).error == TooManyArguments(|cr.parameterTypes|, |manual|))
      decreases |cr.parameterTypes| - i
    {
      if i < |cr.parameterTypes| {
        ArgumentsFromSlots(cr, manual, assignable, i + 1);
        if Slot(cr, manual, assignable, i).Err? {
          assert FirstFailure(cr, manual, assignable, i, i);
        } else if ArgumentsFrom(cr, manual, assignable, i + 1).Err? {
          if exists j :: i + 1 <= j < |cr.parameterTypes| && FirstFailure(cr, manual, assignable, i + 1, j) &&
              ArgumentsFrom(cr, manual, assignable, i + 1).error == Slot(cr, manual, assignable, j).error {
            var j :| i + 1 <= j < |cr.parameterTypes| && FirstFailure(cr, manual, assignable, i + 1, j) &&
              ArgumentsFrom(cr, manual, assignable, i + 1).error == Slot(cr, manual, assignable, j).error;
            assert FirstFailure(cr, manual, assignable, i, j);
          }
        }
      }
    }

    /** Position `j` is the first failing one from `i` on. */
    ghost predicate FirstFailure(cr: Creator, manual: seq<Option<Obj>>, assignable: (RawClass, RawClass) -> bool, i: nat, j: nat)
      requires ChainOk()
      reads this, ancestors, Holders()
    {
      && i <= j < |cr.parameterTypes|
      && Slot(cr, manual, assignable, j).Err?
      && forall l :: i <= l < j ==> Slot(cr, manual, assignable, l).Ok?
    }

    /** The layout of the argument array: the caller's arguments first,
        unchanged, then the services injected at the remaining positions,
        in order; every argument is assignable to its parameter. */
    lemma ArgumentsLayout(cr: Creator, manual: seq<Option<Obj>>, assignable: (RawClass, RawClass) -> bool)
      requires ChainOk()
      ensures Arguments(cr, manual, assignable).Ok? ==>
        var args := Arguments(cr, manual, assignable).value;
        && |args| == |cr.parameterTypes|
        && |manual| <= |args|
        && (forall i :: 0 <= i < |manual| ==> manual[i] == Some(args[i]))
        && (|manual| < |args| ==> |args| <= |cr.injectedServices|)
        && (forall i :: |manual| <= i < |args| ==> GetServiceOfType(cr.injectedServices[i]) == Ok(args[i]))
        && (forall i :: 0 <= i < |args| ==> assignable(cr.parameterTypes[i], RuntimeClass(args[i])))
    {
      ArgumentsFromSlots(cr, manual, assignable, 0);
      if Arguments(cr, manual, assignable).Ok? {
        var args := Arguments(cr, manual, assignable).value;
        forall i | 0 <= i < |args|
          ensures assignable(cr.parameterTypes[i], RuntimeClass(args[i]))
          ensures i < |manual| ==> manual[i] == Some(args[i])
          ensures |manual| <= i ==> i < |cr.injectedServices| && GetServiceOfType(cr.injectedServices[i]) == Ok(args[i])
        {
          assert Slot(cr, manual, assignable, i) == Ok(args[i]);
          if |manual| <= i {
            assert i < |cr.injectedServices|;
            assert GetServiceOfType(cr.injectedServices[i]).Ok?;
          }
        }
        if |manual| < |args| {
          assert Slot(cr, manual, assignable, |args| - 1) == Ok(args[|args| - 1]);
        }
      }
    }

    /** More caller arguments than the constructor's parameters fail with
        "Expected at most N", where N counts every parameter, injected ones
        included, and not only the constructor's own arity. */
    lemma TooManyArgumentsBound(cr: Creator, manual: seq<Option<Obj>>, assignable: (RawClass, RawClass) -> bool)
      requires ChainOk()
      ensures Arguments(cr, manual, assignable).Err? && Arguments(cr, manual, assignable).error.TooManyArguments? ==>
        Arguments(cr, manual, assignable).error == TooManyArguments(|cr.parameterTypes|, |manual|) && |manual| > |cr.parameterTypes|
      ensures (|manual| > |cr.parameterTypes| &&
               forall j :: 0 <= j < |cr.parameterTypes| ==> Slot(cr, manual, assignable, j).Ok?) ==>
        Arguments(cr, manual, assignable) == Err(TooManyArguments(|cr.parameterTypes|, |manual|))
    {
      ArgumentsFromSlots(cr, manual, assignable, 0);
      if Arguments(cr, manual, assignable).Err? && Arguments(cr, manual, assignable).error.TooManyArguments? {
        if exists j :: 0 <= j < |cr.parameterTypes| && FirstFailure(cr, manual, assignable, 0, j) &&
            Arguments(cr, manual, assignable).error == Slot(cr, manual, assignable, j).error {
          var j :| 0 <= j < |cr.parameterTypes| && FirstFailure(cr, manual, assignable, 0, j) &&
            Arguments(cr, manual, assignable).error == Slot(cr, manual, assignable, j).error;
          if j >= |manual| && j < |cr.injectedServices| {
            FindFailsOnlyWhenPending(cr.injectedServices[j]);
          }
        }
      }
    }

    /** A plan with values to instantiate lists more parameters than
        services, and the positions past the services are filled only from
        the caller's arguments: with too few of them, assembly fails. */
    lemma InstancesNeedCallerArguments(c: ClassDecl, manual: seq<Option<Obj>>, assignable: (RawClass, RawClass) -> bool)
      requires ChainOk()
      requires Implementation(c).Ok? && Implementation(c).value.injectedInstances != []
      requires |manual| <= |Implementation(c).value.injectedServices|
      ensures Arguments(Implementation(c).value, manual, assignable).Err?
    {
      var cr := Implementation(c).value;
      SlotsMatchParameters(c);
      ArgumentsFromSlots(cr, manual, assignable, 0);
      assert Slot(cr, manual, assignable, |cr.injectedServices|).Err?;
    }

    /** The argument loops of `newInstance`: the caller's arguments, then
        the injected services up to the parameter count. */
    method AssembleArguments(cr: Creator, manual: seq<Option<Obj>>, assignable: (RawClass, RawClass) -> bool)
      returns (r: Result<seq<Obj>, Error>)
      requires ChainOk()
      ensures r == Arguments(cr, manual, assignable)
    {
      var n := |cr.parameterTypes|;
      var args: seq<Obj> := [];
      var i := 0;
      assert ArgumentsFrom(cr, manual, assignable, 0).Ok? ==>
        args + ArgumentsFrom(cr, manual, assignable, 0).value == ArgumentsFrom(cr, manual, assignable, 0).value;
      while i < |manual|
        invariant i <= |manual| && i <= n && |args| == i
        invariant Arguments(cr, manual, assignable) == Prepend(args, ArgumentsFrom(cr, manual, assignable, i))
      {
        if i >= n {
          return Err(TooManyArguments(n, |manual|));
        }
        var argValue := manual[i];
        if argValue.None? {
          return Err(NullArgument(i));
        }
        if !assignable(cr.parameterTypes[i], RuntimeClass(argValue.value)) {
          return Err(ArgumentTypeMismatch(i, cr.parameterTypes[i], RuntimeClass(argValue.value)));
        }
        PrependStep(args, argValue.value, ArgumentsFrom(cr, manual, assignable, i + 1));
        args := args + [argValue.value];
        i := i + 1;
      }
      while i < n
        invariant |manual| <= i <= n && |args| == i
        invariant Arguments(cr, manual, assignable) == Prepend(args, ArgumentsFrom(cr, manual, assignable, i))
      {
        if i >= |cr.injectedServices| {
          return Err(InjectionIndexOutOfBounds(i, |cr.injectedServices|));
        }
        var service := GetServiceOfType(cr.injectedServices[i]);
        if service.Err? {
          return Err(service.error);
        }
        if !assignable(cr.parameterTypes[i], RuntimeClass(service.value)) {
          return Err(ArgumentTypeMismatch(i, cr.parameterTypes[i], RuntimeClass(service.value)));
        }
        PrependStep(args, service.value, ArgumentsFrom(cr, manual, assignable, i + 1));
        args := args + [service.value];
        i := i + 1;
      }
      assert args + [] == args;
      r := Ok(args);
    }

    /** What `newInstance(clazz, args)` returns or throws: the creator's
        plan, the assembled arguments, then the invoker, whose failure is
        wrapped. */
    function Construction(clazz: ClassDecl, manual: seq<Option<Obj>>, assignable: (RawClass, RawClass) -> bool,
                          invoke: (ClassDecl, seq<Obj>) -> Option<Obj>): Result<Obj, Error>
      requires ChainOk()
      reads this, ancestors, Holders()
    {
      var cr :- Implementation(clazz);
      var args :- Arguments(cr, manual, assignable);
      var built := invoke(clazz, args);
      if built.None? then Err(ConstructionFailed(clazz.cls)) else Ok(built.value)
    }

    /** `newInstance`: the invoker is a parameter, returning nothing when the
        generated constructor or the cast throws. */
    method NewInstance(clazz: ClassDecl, manual: seq<Option<Obj>>, assignable: (RawClass, RawClass) -> bool,
                       invoke: (ClassDecl, seq<Obj>) -> Option<Obj>) returns (r: Result<Obj, Error>)
      requires ChainOk() && creators.Valid()
      modifies creators
      ensures creators.Valid()
      ensures r == Construction(clazz, manual, assignable, invoke)
      ensures old(clazz in creators.creators) ==>
        creators.creators == old(creators.creators) && creators.implemented == old(creators.implemented)
      ensures !old(clazz in creators.creators) ==> creators.implemented == old(creators.implemented) + multiset{clazz}
      ensures !old(clazz in creators.creators) && Implementation(clazz).Ok? ==>
        creators.creators == old(creators.creators)[clazz := Implementation(clazz).value]
      ensures Implementation(clazz).Err? ==> creators.creators == old(creators.creators)
    {
      var creator := creators.ComputeIfAbsent(clazz);
      if creator.Err? {
        return Err(creator.error);
      }
      var args := AssembleArguments(creator.value, manual, assignable);
      if args.Err? {
        return Err(args.error);
      }
      var built := invoke(clazz, args.value);
      if built.None? {
        return Err(ConstructionFailed(clazz.cls));
      }
      r := Ok(built.value);
    }

    /** The loop of `newObjectFactory` over the option providers, run on
        the new scope: each provider of `ps` becomes a service under
        `Provider<K>`, in whatever order the map yields its keys. */
    method AddProviderServices(ps: map<EvaluatedType, ScopeProvider>)
      modifies this`services
      ensures services == old(services) + ProviderEntries(ps, ps.Keys)
    {
      var base := services;
      var pending := ps.Keys;
      ghost var done: set<EvaluatedType> := {};
      while pending != {}
        invariant done + pending == ps.Keys
        invariant services == base + ProviderEntries(ps, done)
        decreases pending
      {
        var k :| k in pending;
        InstallStep(base, ps, done, k);
        services := services[ProviderOf(k) := ProviderObject(ps[k])];
        pending := pending - {k};
        done := done + {k};
      }
    }

    /** `newObjectFactory(options)`: a child scope whose parent is this one,
        binding each provider under `K` and, as a service, under
        `Provider<K>`, and then every instance, which overrides. */
    method NewObjectFactory(options: Options) returns (factory: ObjectFactoryImplementation)
      requires ChainOk()
      ensures fresh(factory)
      ensures factory.parent == this && factory.creators == creators && factory.ChainOk()
      ensures factory.serviceProviders == options.providers
      ensures factory.services == ChildServices(Factory(factory), options)
    {
      factory := new ObjectFactoryImplementation(this, creators);
      factory.serviceProviders := factory.serviceProviders + options.providers;
      factory.AddProviderServices(options.providers);
      assert factory.services == map[OfClass(ObjectFactoryClass) := Factory(factory)] + ProviderEntries(options.providers, options.providers.Keys);
      factory.services := factory.services + options.instances;
    }
  }

  /** The accumulated arguments in front of the outcome of the rest. */
  function Prepend(args: seq<Obj>, rest: Result<seq<Obj>, Error>): Result<seq<Obj>, Error> {
    if rest.Ok? then Ok(args + rest.value) else rest
  }

  lemma PrependStep(args: seq<Obj>, a: Obj, rest: Result<seq<Obj>, Error>)
    ensures Prepend(args, (var r :- rest; Ok([a] + r))) == Prepend(args + [a], rest)
  {
    if rest.Ok? {
      assert args + ([a] + rest.value) == (args + [a]) + rest.value;
    }
  }

  /** One more provider entry is one more map update. */
  lemma InstallStep(base: map<EvaluatedType, Obj>, ps: map<EvaluatedType, ScopeProvider>, done: set<EvaluatedType>, k: EvaluatedType)
    requires k in ps
    ensures (base + ProviderEntries(ps, done))[ProviderOf(k) := ProviderObject(ps[k])] == base + ProviderEntries(ps, done + {k})
  {
    assert ProviderEntries(ps, done + {k}) == ProviderEntries(ps, done)[ProviderOf(k) := ProviderObject(ps[k])];
  }
}
