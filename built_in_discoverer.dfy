/** `BuiltInDiscoverer`: the discoverer that binds the instantiator for
    `Provider`, and that instantiator, `ProviderInstantiator`, which answers
    a request for `Provider<T>` with a lazy holder that builds a `T` on
    first use. */
module BuiltInDiscoverer {
  import opened Wrappers
  import opened Reflection
  import opened EvaluatedTypes
  import opened Errors
  import opened Providers
  import opened LinkedMaps
  import opened MethodCollection
  import opened InjectedMethods
  import opened ConstructorChoice
  import opened InjectedImplementation
  import opened ObjectFactory

  const ObjectClass := RawClass("java.lang.Object", 0, false)
  const ListClass := RawClass("java.util.List", 1, false)
  const ObjectArrayClass := RawClass("java.lang.Object[]", 0, false)

  /** `java.lang.Object`, as far as method collection looks at it: a
      concrete class, never descended into. */
  const ObjectDecl := ClassDecl(ObjectClass, false, true, false, false, [ConstructorDecl(false, true, false, [])], [], None, [])

  /** `Instantiator.newInstance(List, Object...)`, erased to return `Object`. */
  const InstantiatorNewInstance := MethodDecl(
    "newInstance", InstantiatorClass, false, false, true, true, false, false, None,
    [ListClass, ObjectArrayClass], ObjectClass, TypeVariable("T"))

  const InstantiatorDecl := ClassDecl(InstantiatorClass, false, true, true, false, [], [InstantiatorNewInstance], None, [])

  /** `@Inject protected abstract ObjectFactory getObjectFactory()`. */
  const GetObjectFactory := MethodDecl(
    "getObjectFactory", ProviderInstantiatorClass, false, true, false, true, false, true, None,
    [], ObjectFactoryClass, ClassType(ObjectFactoryClass))

  /** `public Provider newInstance(List, Object...)`. */
  const ProviderNewInstance := MethodDecl(
    "newInstance", ProviderInstantiatorClass, false, false, true, false, false, false, None,
    [ListClass, ObjectArrayClass], ProviderClass, ClassType(ProviderClass))

  /** The bridge method the compiler adds for the erased interface method. */
  const BridgeNewInstance := MethodDecl(
    "newInstance", ProviderInstantiatorClass, false, false, true, false, false, false, None,
    [ListClass, ObjectArrayClass], ObjectClass, ClassType(ObjectClass))

  /** `public abstract static class ProviderInstantiator implements
      Instantiator<Provider>`, with its implicit public no-arg constructor.
      `getDeclaredMethods` promises no order; the one listed here is assumed. */
  const ProviderInstantiatorDecl := ClassDecl(
    ProviderInstantiatorClass, false, true, true, false,
    [ConstructorDecl(false, true, false, [])],
    [GetObjectFactory, ProviderNewInstance, BridgeNewInstance],
    Some(ObjectDecl), [InstantiatorDecl])

  /** `configure`: binds `ProviderInstantiator` as the instantiator type
      for the raw class `Provider`, with no arguments. */
  method Configure(configuration: Configuration)
    modifies configuration`toCreateInstantiatorTypes
    ensures configuration.State() == Bind(old(configuration.State()), InstantiatorType(ProviderClass, ProviderInstantiatorDecl, []))
  {
    configuration.BindInstantiatorType(ProviderClass, ProviderInstantiatorDecl, []);
  }

  /** `configure` adds exactly the one entry: every other entry of every
      map is as before. */
  lemma ConfigureAddsOneBinding(s: Bindings)
    ensures var after := Bind(s, InstantiatorType(ProviderClass, ProviderInstantiatorDecl, []));
      && after.toCreateInstantiatorTypes == s.toCreateInstantiatorTypes[ProviderClass := ToCreate(ProviderInstantiatorDecl, [])]
      && after.(toCreateInstantiatorTypes := s.toCreateInstantiatorTypes) == s
  {
  }

  /** The three declared methods have three different keys. */
  lemma DeclaredKeysDiffer()
    ensures GetObjectFactory.Key() != ProviderNewInstance.Key()
    ensures GetObjectFactory.Key() != BridgeNewInstance.Key()
    ensures ProviderNewInstance.Key() != BridgeNewInstance.Key()
  {
    assert GetObjectFactory.name[0] != ProviderNewInstance.name[0];
    assert |ProviderClass.name| != |ObjectClass.name|;
  }

  /** The declared methods, merged in order into an empty map. */
  ghost function DeclaredMap(): MethodMap {
    Empty<Signature, MethodDecl>()
      .Put(GetObjectFactory.Key(), GetObjectFactory)
      .Put(ProviderNewInstance.Key(), ProviderNewInstance)
      .Put(BridgeNewInstance.Key(), BridgeNewInstance)
  }

  lemma MergeDeclared()
    ensures MergeAll(Empty(), ProviderInstantiatorDecl.methods) == DeclaredMap()
  {
    DeclaredKeysDiffer();
    MergeAllThree(Empty(), GetObjectFactory, ProviderNewInstance, BridgeNewInstance);
    var m1 := Empty<Signature, MethodDecl>().Put(GetObjectFactory.Key(), GetObjectFactory);
    MergeNewKey(Empty(), GetObjectFactory);
    MergeNewKey(m1, ProviderNewInstance);
    MergeNewKey(m1.Put(ProviderNewInstance.Key(), ProviderNewInstance), BridgeNewInstance);
  }

  /** The loop over three methods is three passes. */
  lemma MergeAllThree(m: MethodMap, a: MethodDecl, b: MethodDecl, c: MethodDecl)
    ensures MergeAll(m, [a, b, c]) == Merge(Merge(Merge(m, a), b), c)
  {
    var ms := [a, b, c];
    assert ms[..2][..1] == [a] && [a][..0] == [];
    assert MergeAll(m, [a]) == Merge(m, a);
    assert ms[..2] == [a, b] && ms[..1] == [a];
    assert MergeAll(m, [a, b]) == Merge(Merge(m, a), b);
  }

  /** A non-private method with a new key is added under it. */
  lemma MergeNewKey(m: MethodMap, x: MethodDecl)
    requires !x.isPrivate && x.Key() !in m.entries
    ensures Merge(m, x) == m.Put(x.Key(), x)
  {
  }

  /** The interface's abstract method meets the concrete bridge under the
      same key and is dropped. */
  lemma MergeInterface()
    ensures MergeAll(DeclaredMap(), InstantiatorDecl.methods) == DeclaredMap()
  {
    assert InstantiatorDecl.methods[..0] == [];
    assert BridgeNewInstance.Key() == InstantiatorNewInstance.Key();
    assert BridgeNewInstance.Key() in DeclaredMap().entries;
  }

  /** Three puts of distinct keys into an empty map. */
  lemma ThreePuts<K(!new), V>(k1: K, k2: K, k3: K, v1: V, v2: V, v3: V)
    requires k1 != k2 && k1 != k3 && k2 != k3
    ensures var m := Empty<K, V>().Put(k1, v1).Put(k2, v2).Put(k3, v3);
      && m.Valid()
      && m.keys == [k1, k2, k3]
      && m.entries == map[k1 := v1, k2 := v2, k3 := v3]
  {
    var m1 := Empty<K, V>().Put(k1, v1);
    assert m1.keys == [k1] && m1.entries == map[k1 := v1];
    var m2 := m1.Put(k2, v2);
    assert m2.keys == [k1, k2] && m2.entries == map[k1 := v1, k2 := v2];
    assert k3 !in m2.entries;
  }

  /** The order and entries of the declared methods' map. */
  lemma DeclaredMapShape()
    ensures DeclaredMap().Valid()
    ensures DeclaredMap().keys == [GetObjectFactory.Key(), ProviderNewInstance.Key(), BridgeNewInstance.Key()]
    ensures DeclaredMap().entries[GetObjectFactory.Key()] == GetObjectFactory
    ensures DeclaredMap().entries[ProviderNewInstance.Key()] == ProviderNewInstance
    ensures DeclaredMap().entries[BridgeNewInstance.Key()] == BridgeNewInstance
  {
    DeclaredKeysDiffer();
    ThreePuts(GetObjectFactory.Key(), ProviderNewInstance.Key(), BridgeNewInstance.Key(),
              GetObjectFactory, ProviderNewInstance, BridgeNewInstance);
  }

  /** Walking `Instantiator` after the declared methods changes nothing. */
  lemma InterfaceCollected()
    ensures Collected(InstantiatorDecl, DeclaredMap()) == DeclaredMap()
  {
    MergeInterface();
    assert !DescendsIntoSuper(InstantiatorDecl);
    assert CollectedAll(InstantiatorDecl.interfaces, DeclaredMap()) == DeclaredMap();
  }

  /** Walking `ProviderInstantiator` from an empty map: its own methods, its
      concrete superclass skipped, then its one interface. */
  lemma ProviderInstantiatorCollected()
    ensures Collected(ProviderInstantiatorDecl, Empty()) == DeclaredMap()
  {
    MergeDeclared();
    InterfaceCollected();
    assert !DescendsIntoSuper(ProviderInstantiatorDecl);
    assert ProviderInstantiatorDecl.interfaces[..0] == [];
    assert CollectedAll(ProviderInstantiatorDecl.interfaces[..0], DeclaredMap()) == DeclaredMap();
  }

  /** The methods collection finds in `ProviderInstantiator`, in map order:
      the interface's abstract method is hidden by the concrete bridge. */
  lemma ProviderInstantiatorMethods()
    ensures CollectedMethods(ProviderInstantiatorDecl) == [GetObjectFactory, ProviderNewInstance, BridgeNewInstance]
  {
    ProviderInstantiatorCollected();
    DeclaredMapShape();
    var vs := DeclaredMap().Values();
    assert vs[0] == GetObjectFactory && vs[1] == ProviderNewInstance && vs[2] == BridgeNewInstance;
  }

  /** The one getter of `ProviderInstantiator`. */
  function ObjectFactoryGetter(): InjectedMethod {
    InjectedMethod("getObjectFactory", ObjectFactoryClass, OfClass(ObjectFactoryClass), false)
  }

  function ProviderInstantiatorClassified(): Classified {
    Classified(Empty<string, InjectedMethod>().Put("getObjectFactory", ObjectFactoryGetter()), Empty())
  }

  /** Classification: the `@Inject` getter is kept, and the two concrete
      `newInstance` methods are neither getters nor methods to implement. */
  lemma ClassifyProviderInstantiator()
    ensures InjectedMethodsOf(ProviderInstantiatorDecl) == Ok(ProviderInstantiatorClassified())
  {
    ProviderInstantiatorMethods();
    var ms := [GetObjectFactory, ProviderNewInstance, BridgeNewInstance];
    var s := ProviderInstantiatorClassified();
    ClassifyGetter();
    assert ClassifyAll(NoneClassified(), ms[..1]) == Ok(s) by {
      assert ms[..1][..0] == [];
    }
    assert ClassifyAll(NoneClassified(), ms[..2]) == Ok(s) by {
      assert ms[..2][..1] == ms[..1];
      assert Classify(s, ProviderNewInstance) == Ok(s);
    }
    assert ms[..|ms| - 1] == ms[..2];
    assert Classify(s, BridgeNewInstance) == Ok(s);
  }

  /** The `@Inject` getter passes its checks and is recorded. */
  lemma ClassifyGetter()
    ensures Classify(NoneClassified(), GetObjectFactory) == Ok(ProviderInstantiatorClassified())
  {
    assert Of(GetObjectFactory.genericReturnType) == Ok(OfClass(ObjectFactoryClass));
    assert "getObjectFactory" !in NoneClassified().getters.entries;
    assert "getObjectFactory" !in NoneClassified().implemented.entries;
  }

  /** The plan for `ProviderInstantiator`: the class is abstract, so a
      subclass is synthesised whose constructor takes one
      `Provider<ObjectFactory>` for the getter, and nothing is instantiated. */
  lemma ProviderInstantiatorPlan()
    ensures Implementation(ProviderInstantiatorDecl)
         == Ok(Creator([ProviderClass], [ProviderOf(OfClass(ObjectFactoryClass))], [], 0))
  {
    var c := ProviderInstantiatorDecl;
    var ctor := c.constructors[0];
    assert c.constructors[..0] == [];
    assert Chosen(c.cls, c.constructors) == Ok(ctor);
    assert ParameterTypes(ctor) == Ok([]) by {
      assert Generics(ctor) == [];
    }
    ClassifyProviderInstantiator();
    var s := ProviderInstantiatorClassified();
    assert s.getters.Values() == [ObjectFactoryGetter()];
    assert s.implemented.Values() == [];
    ClassifiedValid(c);
    assert Implementation(c) == Ok(Synthesised(ctor, [], s));
    assert Erased(ctor) == [] && ErasedReturns([]) == [] && Instantiations([]) == [];
    assert ProviderParameters(1) == [ProviderClass];
    assert ProviderServices([ObjectFactoryGetter()]) == [ProviderOf(OfClass(ObjectFactoryClass))];
    var cr := Synthesised(ctor, [], s);
    assert cr.parameterTypes == [ProviderClass] by {
      assert cr.parameterTypes == [] + [ProviderClass] + [];
    }
    assert cr.injectedServices == [ProviderOf(OfClass(ObjectFactoryClass))] by {
      assert cr.injectedServices == [] + [ProviderOf(OfClass(ObjectFactoryClass))];
    }
    assert cr.injectedInstances == [] && cr.maxManualParameters == 0;
  }

  /** `ProviderInstantiator.newInstance`: no type parameter is an error, and
      so is more than one, which `Provider`'s arity rejects. Otherwise the
      result is a fresh, empty lazy holder tagged `Provider<T>` whose
      supplier builds the first type parameter with the same arguments
      through `build`, the factory's `newInstance(type, args)`. */
  method NewInstance(typeParameters: seq<EvaluatedType>, args: seq<Option<Obj>>,
                     build: (EvaluatedType, seq<Option<Obj>>, nat) -> Result<Option<Obj>, Error>)
    returns (r: Result<LazyProvider, Error>)
    ensures typeParameters == [] ==> r == Err(ProviderWithoutTypeParameter)
    ensures |typeParameters| > 1 ==> r == Err(TypeFailure(ArityMismatch(ProviderClass, |typeParameters|)))
    ensures |typeParameters| == 1 <==> r.Ok?
    ensures r.Ok? ==>
      && fresh(r.value)
      && r.value.providedType == EvaluatedType(ProviderClass, typeParameters)
      && r.value.value == None && r.value.invocations == 0
      && forall n: nat :: r.value.supplier(n) == build(typeParameters[0], args, n)
  {
    if typeParameters == [] {
      return Err(ProviderWithoutTypeParameter);
    }
    var t := typeParameters[0];
    var supplier := (n: nat) => build(t, args, n);
    var tagged := Make(ProviderClass, typeParameters);
    if tagged.Err? {
      return Err(TypeFailure(tagged.error));
    }
    var lazy := new LazyProvider(supplier, tagged.value);
    r := Ok(lazy);
  }
}
