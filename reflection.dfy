/** Java reflection as an explicit schema. Syringe discovers constructors,
    methods, modifiers and annotations of a class at run time; the model is
    given that information as data instead. A class declaration carries its
    superclass and interfaces as nested declarations, so any walk over the
    hierarchy terminates structurally. */
module Reflection {
  import opened Wrappers

  /** A `java.lang.Class` as far as the core looks at it: its binary name
      (`Class.getName`), how many type parameters it declares, and whether it
      is a primitive type such as `int` or `void`. */
  datatype RawClass = RawClass(name: string, arity: nat, isPrimitive: bool)

  /** A `java.lang.reflect.Type`: a plain class, an applied generic class,
      or one of the forms the core cannot evaluate. */
  datatype TypeRef =
    | ClassType(cls: RawClass)
    | ParameterizedType(raw: RawClass, arguments: seq<TypeRef>)
    | WildcardType
    | TypeVariable(variable: string)
    | GenericArrayType(component: TypeRef)

  /** A method's name together with its erased descriptor. Syringe keys
      methods by the string name + descriptor; a descriptor starts with '('
      and a Java name cannot contain one, so that string and this triple
      determine each other. */
  datatype Signature = Signature(name: string, parameterTypes: seq<RawClass>, returnType: RawClass)

  /** What an error message names about a method: its signature and the
      class that declares it. */
  datatype MethodId = MethodId(signature: Signature, declaringClass: RawClass)

  /** A declared method with the modifiers and annotations the core reads.
      `inject` is the presence of `@Inject`; `labelValue` the value of `@Label`
      when present. */
  datatype MethodDecl = MethodDecl(
    name: string,
    declaringClass: RawClass,
    isPrivate: bool,
    isProtected: bool,
    isPublic: bool,
    isAbstract: bool,
    isFinal: bool,
    inject: bool,
    labelValue: Option<string>,
    parameterTypes: seq<RawClass>,
    returnType: RawClass,
    genericReturnType: TypeRef)
  {
    /** The map key Syringe uses for the method: name + descriptor. */
    function Key(): Signature {
      Signature(name, parameterTypes, returnType)
    }
  }

  /** A constructor parameter: its erased class and its generic type. */
  datatype Parameter = Parameter(erased: RawClass, generic: TypeRef)

  /** A declared constructor. */
  datatype ConstructorDecl = ConstructorDecl(
    isProtected: bool,
    isPublic: bool,
    inject: bool,
    parameters: seq<Parameter>)

  /** A class (or interface) declaration in the order reflection reports its
      members: `getDeclaredConstructors`, `getDeclaredMethods`,
      `getSuperclass` and `getInterfaces`. */
  datatype ClassDecl = ClassDecl(
    cls: RawClass,
    isHidden: bool,
    isPublic: bool,
    isAbstract: bool,
    isFinal: bool,
    constructors: seq<ConstructorDecl>,
    methods: seq<MethodDecl>,
    superclass: Option<ClassDecl>,
    interfaces: seq<ClassDecl>)

  /** `formatMethod`: the name, descriptor and declaring class that the
      error messages about a method print. */
  function FormatMethod(m: MethodDecl): MethodId {
    MethodId(m.Key(), m.declaringClass)
  }

  // The library's own classes that the core refers to by name.

  const ProviderClass := RawClass("dev.lukebemish.syringe.Provider", 1, false)
  const ObjectFactoryClass := RawClass("dev.lukebemish.syringe.ObjectFactory", 0, false)
  const ObjectFactoryImplementationClass := RawClass("dev.lukebemish.syringe.ObjectFactoryImplementation", 0, false)
  const ConstantProviderClass := RawClass("dev.lukebemish.syringe.ConstantProvider", 1, false)
  const DelayedProviderClass := RawClass("dev.lukebemish.syringe.DelayedProvider", 1, false)
  const LazyProviderClass := RawClass("dev.lukebemish.syringe.LazyProvider", 1, false)
  const InstantiatorClass := RawClass("dev.lukebemish.syringe.Instantiator", 1, false)
  const ProviderInstantiatorClass := RawClass("dev.lukebemish.syringe.BuiltInDiscoverer$ProviderInstantiator", 0, false)
}
