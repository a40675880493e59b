/** The exceptions the core throws, one constructor per message, carrying
    what the message names. */
module Errors {
  import opened Reflection
  import opened EvaluatedTypes

  datatype Error =
    // EvaluatedType's constructor and `of`.
    | TypeFailure(reason: TypeError)
    // InjectedImplementation.implement: the class and its constructors.
    | ClassHidden(cls: RawClass)
    | ClassNotPublic(cls: RawClass)
    | SeveralInjectConstructors(cls: RawClass)
    | NoUsableConstructor(cls: RawClass)
    | FinalClass(cls: RawClass)
    // InjectedImplementation.collectInjectedMethods: a malformed member.
    | GetterFinal(member: MethodId)
    | GetterNotAccessible(member: MethodId)
    | GetterHasParameters(member: MethodId)
    | PrimitiveInjection(member: MethodId)
    | DuplicateGetter(member: MethodId)
    | AbstractMethodNotAccessible(member: MethodId)
    | AbstractMethodHasParameters(member: MethodId)
    | DuplicateAbstractGetter(member: MethodId)
    // ObjectFactoryImplementation: resolution and construction.
    | CannotInject(t: EvaluatedType)
    | TooManyArguments(atMost: nat, received: nat)
    | ArgumentTypeMismatch(index: nat, parameterClass: RawClass, argumentClass: RawClass)
    | NullArgument(index: nat)
    | InjectionIndexOutOfBounds(index: nat, length: nat)
    | ConstructionFailed(cls: RawClass)
    // The value holders.
    | NotYetPresent(t: EvaluatedType)
    | AlreadyPresent(t: EvaluatedType)
    | NullValue
    | SupplierReturnedNull(t: EvaluatedType)
    // BuiltInDiscoverer.ProviderInstantiator.
    | ProviderWithoutTypeParameter

  /** The Java exception class each error is thrown as. */
  datatype ExceptionClass =
    | IllegalArgumentException
    | IllegalStateException
    | NullPointerException
    | IndexOutOfBoundsException
    | RuntimeException

  function Thrown(e: Error): ExceptionClass {
    match e
    case TypeFailure(_) => IllegalArgumentException
    case ClassHidden(_) => IllegalArgumentException
    case ClassNotPublic(_) => IllegalArgumentException
    case TooManyArguments(_, _) => IllegalArgumentException
    case ArgumentTypeMismatch(_, _, _) => IllegalArgumentException
    case ProviderWithoutTypeParameter => IllegalArgumentException
    case AlreadyPresent(_) => IllegalStateException
    case NullArgument(_) => NullPointerException
    case NotYetPresent(_) => NullPointerException
    case NullValue => NullPointerException
    case SupplierReturnedNull(_) => NullPointerException
    case InjectionIndexOutOfBounds(_, _) => IndexOutOfBoundsException
    case _ => RuntimeException
  }
}
