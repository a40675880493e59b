/** The `Provider` interface and its three implementations: a constant, a
    write-once holder filled later (`DelayedProvider`) and a compute-once
    cache (`LazyProvider`). The objects the container hands around are
    modelled here too, because a provider may hold any object and a scope may
    bind a provider as an object. */
module Providers {
  import opened Wrappers
  import opened Reflection
  import opened EvaluatedTypes
  import opened Errors

  /** A non-null Java object as far as the container sees it. */
  datatype Obj =
    | Instance(cls: RawClass, id: nat)       // any other object: its class and its identity
    | Factory(scope: object)                 // an ObjectFactoryImplementation
    | ProviderObject(provider: ScopeProvider)

  /** `getClass()`. */
  function RuntimeClass(o: Obj): RawClass {
    match o
    case Instance(c, _) => c
    case Factory(_) => ObjectFactoryImplementationClass
    case ProviderObject(Constant(_)) => ConstantProviderClass
    case ProviderObject(Delayed(_)) => DelayedProviderClass
  }

  /** `ConstantProvider`: a final, non-null value. */
  datatype ConstantProvider = ConstantProvider(value: Obj) {

    /** The constructor, which rejects null through `requireNonNull`. */
    static function New(value: Option<Obj>): (r: Result<ConstantProvider, Error>)
      ensures r.Ok? <==> value.Some?
      ensures r.Ok? ==> r.value.Get() == value.value && r.value.IsPresent()
      ensures r.Err? ==> r.error == NullValue
    {
      if value.None? then Err(NullValue) else Ok(ConstantProvider(value.value))
    }

    function Get(): Obj {
      value
    }

    predicate IsPresent() {
      true
    }
  }

  /** The providers a scope binds: `ObjectFactoryImplementation` puts
      constant holders (from a configuration) and delayed holders (from
      `registerServiceProviderInstance`) into a scope's provider map. */
  datatype ScopeProvider =
    | Constant(constant: ConstantProvider)
    | Delayed(holder: DelayedProvider)

  /** The objects reading a scope provider inspects. */
  function ProviderFootprint(p: ScopeProvider): set<object> {
    if p.Delayed? then {p.holder} else {}
  }

  /** `Provider.get()` on a scope provider. */
  function GetFrom(p: ScopeProvider): (r: Result<Obj, Error>)
    reads ProviderFootprint(p)
    ensures p.Constant? ==> r == Ok(p.constant.value)
    ensures p.Delayed? ==> r == p.holder.Get()
  {
    match p
    case Constant(c) => Ok(c.Get())
    case Delayed(d) => d.Get()
  }

  /** `DelayedProvider`: starts absent and is filled at most once. */
  class DelayedProvider {
    const providedType: EvaluatedType
    var value: Option<Obj>

    constructor (providedType: EvaluatedType)
      ensures this.providedType == providedType && value == None
    {
      this.providedType := providedType;
      value := None;
    }

    /** `isPresent`: the stored value is non-null. */
    predicate IsPresent()
      reads this
    {
      value.Some?
    }

    /** `get`: the stored value, or "not yet present" while absent. */
    function Get(): (r: Result<Obj, Error>)
      reads this
      ensures r.Ok? <==> IsPresent()
      ensures r.Ok? ==> value == Some(r.value)
      ensures r.Err? ==> r.error == NotYetPresent(providedType)
    {
      if value.Some? then Ok(value.value) else Err(NotYetPresent(providedType))
    }

    /** `set`: fails with "already present" once a value is stored and then
        leaves it alone; otherwise stores `v`, which may be null and then
        leaves the holder absent. */
    method Set(v: Option<Obj>) returns (r: Outcome<Error>)
      modifies this
      ensures old(value).Some? ==> r == Fail(AlreadyPresent(providedType)) && value == old(value)
      ensures old(value).None? ==> r == Pass && value == v
      ensures v.Some? && r.Pass? ==> Get() == Ok(v.value)
    {
      if value.Some? {
        return Fail(AlreadyPresent(providedType));
      }
      value := v;
      r := Pass;
    }
  }

  /** `LazyProvider`: computes its value on the first successful `get` and
      caches it. The supplier is a function of how many times it has been
      called before, so that a later call may produce what an earlier call
      did not. A supplier that throws is an `Err`; one that returns null is
      `Ok(None)`. */
  class LazyProvider {
    const supplier: nat -> Result<Option<Obj>, Error>
    const providedType: EvaluatedType
    var value: Option<Obj>
    var invocations: nat

    constructor (supplier: nat -> Result<Option<Obj>, Error>, providedType: EvaluatedType)
      ensures this.supplier == supplier && this.providedType == providedType
      ensures value == None && invocations == 0
    {
      this.supplier := supplier;
      this.providedType := providedType;
      value := None;
      invocations := 0;
    }

    /** `isPresent`: a lazy holder always reports present. */
    predicate IsPresent() {
      true
    }

    /** `get`: the cached value if there is one, without calling the
        supplier; otherwise one call of the supplier, whose non-null result
        is cached and returned. A null result fails naming the type and
        caches nothing. */
    method Get() returns (r: Result<Obj, Error>)
      modifies this
      ensures old(value).Some? ==> r == Ok(old(value).value) && value == old(value) && invocations == old(invocations)
      ensures old(value).None? ==> invocations == old(invocations) + 1
      ensures old(value).None? ==>
        match supplier(old(invocations))
        case Err(e) => r == Err(e) && value == None
        case Ok(None) => r == Err(SupplierReturnedNull(providedType)) && value == None
        case Ok(Some(v)) => r == Ok(v) && value == Some(v)
    {
      if value.Some? {
        return Ok(value.value);
      }
      var outcome := supplier(invocations);
      invocations := invocations + 1;
      match outcome
      case Err(e) => r := Err(e);
      case Ok(None) => r := Err(SupplierReturnedNull(providedType));
      case Ok(Some(v)) =>
        value := Some(v);
        r := Ok(v);
    }
  }
}
