/** The planning half of `InjectedImplementation.implement`: the checks on
    the class, the constructor choice, and the ordered slot lists that fix
    the signature of the constructor the container calls. The bytecode the
    source then generates is not modelled; the result records what that
    generated constructor takes. */
module InjectedImplementation {
  import opened Wrappers
  import opened Reflection
  import opened EvaluatedTypes
  import opened Errors
  import opened LinkedMaps
  import opened MethodCollection
  import opened InjectedMethods
  import opened ConstructorChoice

  /** A value to instantiate for an abstract method: its type and arguments. */
  datatype Instantiation = Instantiation(instantiatedType: EvaluatedType, args: seq<string>)

  /** `InjectedImplementation` without its invoker: the erased parameter
      classes of the constructor the invoker calls, the services to inject
      (the chosen constructor's parameters, then one `Provider` per
      getter), the values to instantiate (one per abstract method), and the
      chosen constructor's arity. */
  datatype Creator = Creator(
    parameterTypes: seq<RawClass>,
    injectedServices: seq<EvaluatedType>,
    injectedInstances: seq<Instantiation>,
    maxManualParameters: nat)

  function Erased(ctor: ConstructorDecl): (r: seq<RawClass>)
    ensures |r| == |ctor.parameters|
    ensures forall i :: 0 <= i < |r| ==> r[i] == ctor.parameters[i].erased
  {
    seq(|ctor.parameters|, i requires 0 <= i < |ctor.parameters| => ctor.parameters[i].erased)
  }

  function Generics(ctor: ConstructorDecl): (r: seq<TypeRef>)
    ensures |r| == |ctor.parameters|
    ensures forall i :: 0 <= i < |r| ==> r[i] == ctor.parameters[i].generic
  {
    seq(|ctor.parameters|, i requires 0 <= i < |ctor.parameters| => ctor.parameters[i].generic)
  }

  /** The evaluated parameter types of a constructor, or the first failure. */
  function ParameterTypes(ctor: ConstructorDecl): Result<seq<EvaluatedType>, Error> {
    match OfAll(Generics(ctor))
    case Ok(ts) => Ok(ts)
    case Err(e) => Err(TypeFailure(e))
  }

  /** Whether `implement` calls the chosen constructor directly instead of
      synthesising a subclass. */
  predicate DirectPath(c: ClassDecl, ctor: ConstructorDecl, s: Classified) {
    s.getters.IsEmpty() && ctor.isPublic && !c.isAbstract
  }

  /** `Provider<T>` for each getter of type `T`, in order. */
  function ProviderServices(gs: seq<InjectedMethod>): (r: seq<EvaluatedType>)
    ensures |r| == |gs| && forall i :: 0 <= i < |gs| ==> r[i] == ProviderOf(gs[i].specific)
  {
    seq(|gs|, i requires 0 <= i < |gs| => ProviderOf(gs[i].specific))
  }

  /** The class `Provider`, `n` times. */
  function ProviderParameters(n: nat): (r: seq<RawClass>)
    ensures |r| == n && forall i :: 0 <= i < n ==> r[i] == ProviderClass
  {
    seq(n, i => ProviderClass)
  }

  /** The value to instantiate for each abstract method, in order. */
  function Instantiations(ims: seq<ImplementedMethod>): (r: seq<Instantiation>)
    ensures |r| == |ims| && forall i :: 0 <= i < |ims| ==> r[i] == Instantiation(ims[i].specific, ims[i].args)
  {
    seq(|ims|, i requires 0 <= i < |ims| => Instantiation(ims[i].specific, ims[i].args))
  }

  /** The erased return class of each abstract method, in order. */
  function ErasedReturns(ims: seq<ImplementedMethod>): (r: seq<RawClass>)
    ensures |r| == |ims| && forall i :: 0 <= i < |ims| ==> r[i] == ims[i].erased
  {
    seq(|ims|, i requires 0 <= i < |ims| => ims[i].erased)
  }

  /** The synthesised creator: the constructor's parameters, a `Provider`
      per getter and a value per abstract method, in map order. */
  function Synthesised(ctor: ConstructorDecl, types: seq<EvaluatedType>, s: Classified): Creator
    requires s.getters.Valid() && s.implemented.Valid()
  {
    var gs := s.getters.Values();
    var ims := s.implemented.Values();
    Creator(
      Erased(ctor) + ProviderParameters(|gs|) + ErasedReturns(ims),
      types + ProviderServices(gs),
      Instantiations(ims),
      |ctor.parameters|)
  }

  /** What `implement(c)` produces, or the error it throws. */
  function Implementation(c: ClassDecl): Result<Creator, Error> {
    if c.isHidden then Err(ClassHidden(c.cls))
    else if !c.isPublic then Err(ClassNotPublic(c.cls))
    else
      var ctor :- Chosen(c.cls, c.constructors);
      var types :- ParameterTypes(ctor);
      var s :- InjectedMethodsOf(c);
      if DirectPath(c, ctor, s) then Ok(Creator(Erased(ctor), types, [], |ctor.parameters|))
      else if c.isFinal then Err(FinalClass(c.cls))
      else
        ClassifiedValid(c);
        Ok(Synthesised(ctor, types, s))
  }

  lemma ClassifiedValid(c: ClassDecl)
    ensures InjectedMethodsOf(c).Ok? ==>
      InjectedMethodsOf(c).value.getters.Valid() && InjectedMethodsOf(c).value.implemented.Valid()
  {
    InjectedMethodsCoherent(c);
  }

  /** `implement`, with its lists accumulated as the source does. */
  method Implement(clazz: ClassDecl) returns (r: Result<Creator, Error>)
    ensures r == Implementation(clazz)
  {
    if clazz.isHidden {
      return Err(ClassHidden(clazz.cls));
    }
    if !clazz.isPublic {
      return Err(ClassNotPublic(clazz.cls));
    }
    var instantiations: seq<Instantiation> := [];

    var chosen := ChooseConstructor(clazz.cls, clazz.constructors);
    if chosen.Err? {
      return Err(chosen.error);
    }
    var targetCtor := chosen.value;

    var evaluated, targetCtorArgs := EvaluateParameters(targetCtor);
    if evaluated.Err? {
      return Err(evaluated.error);
    }
    var injectedTypes := evaluated.value;
    var ctorTypes := targetCtorArgs;

    var classified := CollectInjectedMethods(clazz);
    if classified.Err? {
      return Err(classified.error);
    }
    var methods := classified.value.getters;
    var implementedMethods := classified.value.implemented;

    if methods.IsEmpty() && targetCtor.isPublic && !clazz.isAbstract {
      return Ok(Creator(targetCtorArgs, injectedTypes, [], |targetCtorArgs|));
    }
    if clazz.isFinal {
      return Err(FinalClass(clazz.cls));
    }

    ClassifiedValid(clazz);
    injectedTypes, ctorTypes := AddGetterSlots(methods.Values(), injectedTypes, ctorTypes);
    instantiations, ctorTypes := AddImplementedSlots(implementedMethods.Values(), instantiations, ctorTypes);
    assert instantiations == Instantiations(implementedMethods.Values());
    r := Ok(Creator(ctorTypes, injectedTypes, instantiations, |targetCtorArgs|));
  }

  /** The loop over the chosen constructor's parameters: each evaluated
      type and erased class, in order, or the first failure. */
  method EvaluateParameters(targetCtor: ConstructorDecl) returns (r: Result<seq<EvaluatedType>, Error>, targetCtorArgs: seq<RawClass>)
    ensures r == ParameterTypes(targetCtor)
    ensures r.Ok? ==> targetCtorArgs == Erased(targetCtor)
    ensures r.Err? ==> targetCtorArgs < Erased(targetCtor)
  {
    ghost var generics := Generics(targetCtor);
    var injectedTypes: seq<EvaluatedType> := [];
    targetCtorArgs := [];
    for i := 0 to |targetCtor.parameters|
      invariant |injectedTypes| == i && forall j :: 0 <= j < i ==> Of(generics[j]) == Ok(injectedTypes[j])
      invariant targetCtorArgs == Erased(targetCtor)[..i]
    {
      var param := targetCtor.parameters[i];
      var evaluated := Of(param.generic);
      if evaluated.Err? {
        OfAllFirstFailure(generics, i);
        return Err(TypeFailure(evaluated.error)), targetCtorArgs;
      }
      injectedTypes := injectedTypes + [evaluated.value];
      targetCtorArgs := targetCtorArgs + [param.erased];
    }
    OfAllAllSucceed(generics, injectedTypes);
    assert Erased(targetCtor)[..|targetCtor.parameters|] == Erased(targetCtor);
    r := Ok(injectedTypes);
  }

  /** The loop over the getters: a `Provider` service and a `Provider`
      parameter per getter, in order. */
  method AddGetterSlots(getters: seq<InjectedMethod>, injectedTypes: seq<EvaluatedType>, ctorTypes: seq<RawClass>)
    returns (injectedTypes': seq<EvaluatedType>, ctorTypes': seq<RawClass>)
    ensures injectedTypes' == injectedTypes + ProviderServices(getters)
    ensures ctorTypes' == ctorTypes + ProviderParameters(|getters|)
  {
    injectedTypes', ctorTypes' := injectedTypes, ctorTypes;
    for i := 0 to |getters|
      invariant injectedTypes' == injectedTypes + ProviderServices(getters[..i])
      invariant ctorTypes' == ctorTypes + ProviderParameters(i)
    {
      var m := getters[i];
      injectedTypes' := injectedTypes' + [ProviderOf(m.specific)];
      ctorTypes' := ctorTypes' + [ProviderClass];
      assert ProviderServices(getters[..i + 1]) == ProviderServices(getters[..i]) + [ProviderOf(m.specific)];
      assert ProviderParameters(i + 1) == ProviderParameters(i) + [ProviderClass];
    }
    assert getters[..|getters|] == getters;
  }

  /** The loop over the methods to implement: a value to instantiate and
      the erased return class per method, in order. */
  method AddImplementedSlots(implemented: seq<ImplementedMethod>, instantiations: seq<Instantiation>, ctorTypes: seq<RawClass>)
    returns (instantiations': seq<Instantiation>, ctorTypes': seq<RawClass>)
    ensures instantiations' == instantiations + Instantiations(implemented)
    ensures ctorTypes' == ctorTypes + ErasedReturns(implemented)
  {
    instantiations', ctorTypes' := instantiations, ctorTypes;
    for i := 0 to |implemented|
      invariant instantiations' == instantiations + Instantiations(implemented[..i])
      invariant ctorTypes' == ctorTypes + ErasedReturns(implemented[..i])
    {
      var m := implemented[i];
      instantiations' := instantiations' + [Instantiation(m.specific, m.args)];
      ctorTypes' := ctorTypes' + [m.erased];
      assert Instantiations(implemented[..i + 1]) == Instantiations(implemented[..i]) + [Instantiation(m.specific, m.args)];
      assert ErasedReturns(implemented[..i + 1]) == ErasedReturns(implemented[..i]) + [m.erased];
    }
    assert implemented[..|implemented|] == implemented;
  }

  /** When every element evaluates, `OfAll` yields exactly those results. */
  lemma OfAllAllSucceed(ts: seq<TypeRef>, es: seq<EvaluatedType>)
    requires |es| == |ts| && forall j :: 0 <= j < |ts| ==> Of(ts[j]) == Ok(es[j])
    ensures OfAll(ts) == Ok(es)
  {
  }

  /** When `ts[i]` is the first element that fails, `OfAll` fails with its
      error. */
  lemma {:induction false} OfAllFirstFailure(ts: seq<TypeRef>, i: nat)
    requires i < |ts| && Of(ts[i]).Err? && forall j :: 0 <= j < i ==> Of(ts[j]).Ok?
    ensures OfAll(ts) == Err(Of(ts[i]).error)
    decreases i
  {
    if i > 0 {
      var rest := ts[1..];
      assert rest[i - 1] == ts[i];
      assert forall j :: 0 <= j < i - 1 ==> rest[j] == ts[j + 1];
      OfAllFirstFailure(rest, i - 1);
      assert Of(ts[0]).Ok?;
    }
  }

  // ---------------------------------------------------------------------
  // Properties of the plan.

  /** A hidden class and a non-public class are rejected first, with
      `IllegalArgumentException`. */
  lemma ClassChecks(c: ClassDecl)
    ensures c.isHidden ==> Implementation(c) == Err(ClassHidden(c.cls))
    ensures !c.isHidden && !c.isPublic ==> Implementation(c) == Err(ClassNotPublic(c.cls))
    ensures c.isHidden || !c.isPublic ==> Thrown(Implementation(c).error) == IllegalArgumentException
  {
  }

  /** Every successful plan starts with the chosen constructor: the services
      to inject begin with its evaluated parameter types in declaration
      order, the parameter classes with its erased parameter classes, and
      the number of manual parameters is its arity. */
  lemma PlanStartsWithConstructor(c: ClassDecl)
    ensures Implementation(c).Ok? ==>
      var cr := Implementation(c).value;
      var ctor := Chosen(c.cls, c.constructors).value;
      && Chosen(c.cls, c.constructors).Ok?
      && cr.maxManualParameters == |ctor.parameters|
      && cr.maxManualParameters <= |cr.injectedServices|
      && cr.maxManualParameters <= |cr.parameterTypes|
      && (forall i :: 0 <= i < |ctor.parameters| ==>
            && Of(ctor.parameters[i].generic) == Ok(cr.injectedServices[i])
            && cr.parameterTypes[i] == ctor.parameters[i].erased)
  {
    if Implementation(c).Ok? {
      var ctor := Chosen(c.cls, c.constructors).value;
      var types := ParameterTypes(ctor).value;
      assert OfAll(Generics(ctor)) == Ok(types);
      var s := InjectedMethodsOf(c).value;
      if !DirectPath(c, ctor, s) {
        ClassifiedValid(c);
      }
    }
  }

  /** The slot counts agree: the generated constructor takes one parameter
      per injected service and one per value to instantiate. */
  lemma SlotsMatchParameters(c: ClassDecl)
    ensures Implementation(c).Ok? ==>
      var cr := Implementation(c).value;
      |cr.parameterTypes| == |cr.injectedServices| + |cr.injectedInstances|
  {
    if Implementation(c).Ok? {
      var ctor := Chosen(c.cls, c.constructors).value;
      assert OfAll(Generics(ctor)).Ok?;
      var s := InjectedMethodsOf(c).value;
      if !DirectPath(c, ctor, s) {
        ClassifiedValid(c);
      }
    }
  }

  /** The direct path: with no getters, a public constructor and a concrete
      class, the plan calls the constructor itself, instantiates nothing and
      injects only the constructor's parameters. Methods to implement are
      not consulted on this path. */
  lemma DirectPathOutcome(c: ClassDecl)
    requires !c.isHidden && c.isPublic
    requires Chosen(c.cls, c.constructors).Ok?
    requires ParameterTypes(Chosen(c.cls, c.constructors).value).Ok?
    requires InjectedMethodsOf(c).Ok?
    requires DirectPath(c, Chosen(c.cls, c.constructors).value, InjectedMethodsOf(c).value)
    ensures Implementation(c).Ok?
    ensures Implementation(c).value.injectedInstances == []
    ensures Implementation(c).value.injectedServices == ParameterTypes(Chosen(c.cls, c.constructors).value).value
    ensures Implementation(c).value.parameterTypes == Erased(Chosen(c.cls, c.constructors).value)
  {
  }

  /** Otherwise a final class cannot be subclassed and is rejected. */
  lemma FinalClassRejected(c: ClassDecl)
    requires !c.isHidden && c.isPublic && c.isFinal
    requires Chosen(c.cls, c.constructors).Ok?
    requires ParameterTypes(Chosen(c.cls, c.constructors).value).Ok?
    requires InjectedMethodsOf(c).Ok?
    requires !DirectPath(c, Chosen(c.cls, c.constructors).value, InjectedMethodsOf(c).value)
    ensures Implementation(c) == Err(FinalClass(c.cls))
  {
  }

  /** The layout of a synthesised plan: after the `k` constructor slots
      come, in getter-map order, one `Provider<T>` service and one
      `Provider` parameter per getter of type `T`, then, in map order, one
      value to instantiate per abstract method with its type and `@Label`
      arguments, whose erased return class is the last parameter classes. */
  ghost predicate SynthesisLayout(cr: Creator, k: nat, s: Classified) {
    && |cr.injectedServices| == k + |s.getters.keys|
    && |cr.injectedInstances| == |s.implemented.keys|
    && |cr.parameterTypes| == k + |s.getters.keys| + |s.implemented.keys|
    && (forall i :: 0 <= i < |s.getters.keys| ==> GetterSlot(cr, k, s, i))
    && (forall i :: 0 <= i < |s.implemented.keys| ==> ImplementedSlot(cr, k, s, i))
  }

  /** The slots of the `i`-th getter. */
  ghost predicate GetterSlot(cr: Creator, k: nat, s: Classified, i: nat)
    requires i < |s.getters.keys|
  {
    var n := s.getters.keys[i];
    && n in s.getters.entries
    && k + i < |cr.injectedServices| && k + i < |cr.parameterTypes|
    && cr.injectedServices[k + i] == ProviderOf(s.getters.entries[n].specific)
    && cr.parameterTypes[k + i] == ProviderClass
  }

  /** The slots of the `i`-th method to implement. */
  ghost predicate ImplementedSlot(cr: Creator, k: nat, s: Classified, i: nat)
    requires i < |s.implemented.keys|
  {
    var n := s.implemented.keys[i];
    var g := |s.getters.keys|;
    && n in s.implemented.entries
    && i < |cr.injectedInstances| && k + g + i < |cr.parameterTypes|
    && cr.injectedInstances[i] == Instantiation(s.implemented.entries[n].specific, s.implemented.entries[n].args)
    && cr.parameterTypes[k + g + i] == s.implemented.entries[n].erased
  }

  lemma SynthesisedLayout(ctor: ConstructorDecl, types: seq<EvaluatedType>, s: Classified)
    requires s.getters.Valid() && s.implemented.Valid()
    requires |types| == |ctor.parameters|
    ensures SynthesisLayout(Synthesised(ctor, types, s), |ctor.parameters|, s)
  {
    var cr := Synthesised(ctor, types, s);
    forall i | 0 <= i < |s.getters.keys|
      ensures GetterSlot(cr, |ctor.parameters|, s, i)
    {
      SynthesisedGetterSlot(ctor, types, s, i);
    }
    forall i | 0 <= i < |s.implemented.keys|
      ensures ImplementedSlot(cr, |ctor.parameters|, s, i)
    {
      SynthesisedImplementedSlot(ctor, types, s, i);
    }
  }

  lemma SynthesisedGetterSlot(ctor: ConstructorDecl, types: seq<EvaluatedType>, s: Classified, i: nat)
    requires s.getters.Valid() && s.implemented.Valid()
    requires |types| == |ctor.parameters| && i < |s.getters.keys|
    ensures GetterSlot(Synthesised(ctor, types, s), |ctor.parameters|, s, i)
  {
    var k := |ctor.parameters|;
    var gs := s.getters.Values();
    var services := types + ProviderServices(gs);
    var parameters := Erased(ctor) + ProviderParameters(|gs|) + ErasedReturns(s.implemented.Values());
    assert services[k + i] == ProviderServices(gs)[i];
    assert parameters[k + i] == ProviderParameters(|gs|)[i];
  }

  lemma SynthesisedImplementedSlot(ctor: ConstructorDecl, types: seq<EvaluatedType>, s: Classified, i: nat)
    requires s.getters.Valid() && s.implemented.Valid()
    requires |types| == |ctor.parameters| && i < |s.implemented.keys|
    ensures ImplementedSlot(Synthesised(ctor, types, s), |ctor.parameters|, s, i)
  {
    var k := |ctor.parameters|;
    var gs := s.getters.Values();
    var ims := s.implemented.Values();
    var parameters := Erased(ctor) + ProviderParameters(|gs|) + ErasedReturns(ims);
    assert parameters[k + |gs| + i] == ErasedReturns(ims)[i];
  }

  /** The synthesis path: a public, non-final class that needs a subclass
      gets the synthesised plan, laid out as `SynthesisLayout` says. */
  lemma SynthesisOutcome(c: ClassDecl)
    requires !c.isHidden && c.isPublic && !c.isFinal
    requires Chosen(c.cls, c.constructors).Ok?
    requires ParameterTypes(Chosen(c.cls, c.constructors).value).Ok?
    requires InjectedMethodsOf(c).Ok?
    requires !DirectPath(c, Chosen(c.cls, c.constructors).value, InjectedMethodsOf(c).value)
    ensures Implementation(c).Ok?
    ensures SynthesisLayout(Implementation(c).value, |Chosen(c.cls, c.constructors).value.parameters|, InjectedMethodsOf(c).value)
  {
    ClassifiedValid(c);
    var ctor := Chosen(c.cls, c.constructors).value;
    var types := ParameterTypes(ctor).value;
    var s := InjectedMethodsOf(c).value;
    assert OfAll(Generics(ctor)) == Ok(types);
    assert Implementation(c) == Ok(Synthesised(ctor, types, s));
    SynthesisedLayout(ctor, types, s);
  }

  /** Each `Provider` service slot after the first `k` is backed by an
      `@Inject` method of `ms` whose return type is the provided type, and
      each value to instantiate by an abstract method of `ms` whose return
      type is its type and whose `@Label` value is its arguments. */
  ghost predicate SlotsBacked(cr: Creator, k: nat, ms: seq<MethodDecl>) {
    && (forall i :: k <= i < |cr.injectedServices| ==> ServiceBacked(cr, i, ms))
    && (forall i :: 0 <= i < |cr.injectedInstances| ==> InstanceBacked(cr, i, ms))
  }

  ghost predicate ServiceBacked(cr: Creator, i: nat, ms: seq<MethodDecl>)
    requires i < |cr.injectedServices|
  {
    exists m :: m in ms && m.inject && Of(m.genericReturnType).Ok? &&
      cr.injectedServices[i] == ProviderOf(Of(m.genericReturnType).value)
  }

  ghost predicate InstanceBacked(cr: Creator, i: nat, ms: seq<MethodDecl>)
    requires i < |cr.injectedInstances|
  {
    exists m :: m in ms && m.isAbstract && !m.inject &&
      Of(m.genericReturnType) == Ok(cr.injectedInstances[i].instantiatedType) &&
      cr.injectedInstances[i].args == LabelArgs(m)
  }

  lemma LayoutIsBacked(cr: Creator, k: nat, s: Classified, ms: seq<MethodDecl>)
    requires SynthesisLayout(cr, k, s)
    requires Provenance(s, ms)
    ensures SlotsBacked(cr, k, ms)
  {
    forall i | k <= i < |cr.injectedServices|
      ensures ServiceBacked(cr, i, ms)
    {
      GetterSlotBacked(cr, k, s, ms, i - k);
    }
    forall i | 0 <= i < |cr.injectedInstances|
      ensures InstanceBacked(cr, i, ms)
    {
      ImplementedSlotBacked(cr, k, s, ms, i);
    }
  }

  lemma GetterSlotBacked(cr: Creator, k: nat, s: Classified, ms: seq<MethodDecl>, i: nat)
    requires i < |s.getters.keys| && GetterSlot(cr, k, s, i)
    requires Provenance(s, ms)
    ensures ServiceBacked(cr, k + i, ms)
  {
    var n := s.getters.keys[i];
    var j :| 0 <= j < |ms| && GetterFrom(ms[j], s.getters.entries[n]) && ms[j].name == n;
    assert ms[j] in ms;
  }

  lemma ImplementedSlotBacked(cr: Creator, k: nat, s: Classified, ms: seq<MethodDecl>, i: nat)
    requires i < |s.implemented.keys| && ImplementedSlot(cr, k, s, i)
    requires Provenance(s, ms)
    ensures InstanceBacked(cr, i, ms)
  {
    var n := s.implemented.keys[i];
    var j :| 0 <= j < |ms| && ImplementedFrom(ms[j], s.implemented.entries[n]) && ms[j].name == n;
    assert ms[j] in ms;
  }

  /** A synthesised plan's slots after the constructor's are all backed by
      collected methods, that is, by non-private methods declared in the
      walked hierarchy (`CollectedMethods`). */
  lemma SlotsComeFromMethods(c: ClassDecl)
    requires !c.isHidden && c.isPublic && !c.isFinal
    requires Chosen(c.cls, c.constructors).Ok?
    requires ParameterTypes(Chosen(c.cls, c.constructors).value).Ok?
    requires InjectedMethodsOf(c).Ok?
    requires !DirectPath(c, Chosen(c.cls, c.constructors).value, InjectedMethodsOf(c).value)
    ensures Implementation(c).Ok?
    ensures SlotsBacked(Implementation(c).value, |Chosen(c.cls, c.constructors).value.parameters|, CollectedMethods(c))
  {
    SynthesisOutcome(c);
    InjectedMethodsCoherent(c);
    LayoutIsBacked(Implementation(c).value, |Chosen(c.cls, c.constructors).value.parameters|,
      InjectedMethodsOf(c).value, CollectedMethods(c));
  }
}
