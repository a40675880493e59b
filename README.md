# Syringe's dependency-injection core, modelled in Dafny

Syringe is a dependency-injection container. This project models its core:

- **Evaluated types.** `EvaluatedType` is a fully evaluated type (a raw class applied to evaluated type parameters). It is built from reflective types, compared structurally and rendered as text.
- **Providers.** There are three: a constant holder, a write-once delayed holder and a compute-once lazy holder.
- **Configuration.** `ObjectFactory.Configuration` is a builder that records service and instantiator bindings in six maps.
- **Planning.** `InjectedImplementation.implement` turns a class into a creation plan (a `Creator`). It does this in four steps:
  - walk the class, its abstract superclasses and its interfaces to collect methods by name and descriptor;
  - sort the collected methods into `@Inject` getters and abstract methods to implement;
  - choose the constructor;
  - either call that constructor directly or synthesise a subclass whose constructor takes one `Provider` per getter and one value per abstract method.
- **Scopes.** `ObjectFactoryImplementation` is a tree of scopes. Each scope binds service instances and service providers by type. A lookup walks up the parent chain:
  - instances are checked first, then providers;
  - a `Provider<X>` request is answered by wrapping `X`.
- **Building objects.** `newInstance` assembles a constructor's arguments: first the caller's arguments, then the resolved services. A process-wide cache keeps each class's plan once it succeeds, so a class is never planned again after its first success; a class whose plan fails is planned again on the next request.
- **Child scopes.** `newObjectFactory` builds a child scope from a set of options.
- **The built-in discoverer.** It binds `ProviderInstantiator` for `Provider`. That instantiator answers `Provider<T>` with a lazy holder.

## How the model is organised

| Dafny module | What it models | Kind of code |
|---|---|---|
| `Reflection` | the Java classes, constructors, methods and type references that the core reads | data |
| `EvaluatedTypes` | `EvaluatedType` | pure code, plus a method with a loop for `toString` |
| `Providers` | the three providers and the objects a scope hands out | classes whose fields are updated in place |
| `LinkedMaps` | the insertion-ordered maps that collection uses (`LinkedHashMap`) | helper |
| `MethodCollection` | `collectMethods` | pure code, plus a method with a loop |
| `InjectedMethods` | `collectInjectedMethods` | pure code, plus a method with a loop |
| `ConstructorChoice` | how `implement` chooses the constructor | pure code, plus a method with a loop |
| `InjectedImplementation` | `implement` | pure code, plus methods with loops |
| `ObjectFactory` | `Configuration` | a class with one `modifies` frame per bind call |
| `Scopes` | `ObjectFactoryImplementation` and its shared creator cache | a class |
| `BuiltInDiscoverer` | `BuiltInDiscoverer` and `ProviderInstantiator` | methods, plus lemmas about the fixed class |

Each method that mirrors a Java loop is proved equal to a specification function, in its `ensures`. The properties the source promises are then proved as lemmas about those functions.

Other modelling choices:

- **Errors.** Every exception the source throws is a constructor of `Errors.Error`. `Thrown` names the Java exception class.
- **Null.** A possibly-null value is `Option`.
- **Input.** The reflective view of a class is a `ClassDecl` value. It is given to the model as input.

## Model

All source paths below are under `src/main/java/dev/lukebemish/syringe/`.

| member | source | states |
|---|---|---|
| EvaluatedTypes.Make | src/main/java/dev/lukebemish/syringe/EvaluatedType.java:9-13 | the record's constructor fails exactly when the parameter list is non-empty and its size differs from the raw class's arity; a raw use with no parameters is always accepted; success yields exactly the given class and parameters |
| EvaluatedTypes.Of | src/main/java/dev/lukebemish/syringe/EvaluatedType.java:15-28 | a class becomes a raw use with no parameters; a parameterized type becomes its raw class applied to its evaluated arguments, in order, and it succeeds exactly when every argument evaluates and the count fits the arity; it otherwise fails with the first failing argument's error or the arity error, so a wildcard nested in a generic type is rejected; wildcards, type variables and generic arrays are rejected; every result is well formed |
| EvaluatedTypes.OfAll | src/main/java/dev/lukebemish/syringe/EvaluatedType.java:21-23 | evaluates every argument in order; on success each element is the evaluation of the matching argument; on failure the error is that of the first argument that fails |
| EvaluatedTypes.OfClass | src/main/java/dev/lukebemish/syringe/EvaluatedType.java:16-17 | evaluating a plain class cannot fail and gives a well-formed type |
| EvaluatedTypes.ProviderOf | src/main/java/dev/lukebemish/syringe/InjectedImplementation.java:294 | `Provider<T>` is accepted by the record's arity check, and it is well formed whenever `T` is |
| EvaluatedTypes.OfToTypeRef | src/main/java/dev/lukebemish/syringe/EvaluatedType.java:15-28 | round trip: every well-formed evaluated type is what `of` makes of the reflective type it stands for |
| EvaluatedTypes.OfAllToTypeRefs | src/main/java/dev/lukebemish/syringe/EvaluatedType.java:21-24 | round trip for argument lists: evaluating the reflective forms of well-formed types gives those types back |
| EvaluatedTypes.EqualityIsStructural | src/main/java/dev/lukebemish/syringe/EvaluatedType.java:8 | documentation of record equality, which holds for every datatype: two keys are equal exactly when their raw classes are equal and their parameter lists have the same length and are equal position by position |
| EvaluatedTypes.ToString | src/main/java/dev/lukebemish/syringe/EvaluatedType.java:30-44 | the `StringBuilder` loop produces exactly the rendering `Render`: the class name, then the rendered parameters inside angle brackets, separated by ", " |
| EvaluatedTypes.JoinStep | src/main/java/dev/lukebemish/syringe/EvaluatedType.java:35-40 | one more pass of the loop adds the part alone after no parts, and after the ", " separator otherwise |
| EvaluatedTypes.RenderRaw | src/main/java/dev/lukebemish/syringe/EvaluatedType.java:32-43 | a type without parameters renders as its class name alone |
| EvaluatedTypes.RenderTwoParameters | src/main/java/dev/lukebemish/syringe/EvaluatedType.java:33-42 | with two parameters the separator appears once, between them, and nowhere else |
| Providers.ConstantProvider.New | src/main/java/dev/lukebemish/syringe/ConstantProvider.java:8-10 | a constant holder exists exactly when the value is non-null; it then returns that value and reports itself present; null is rejected |
| Providers.GetFrom | src/main/java/dev/lukebemish/syringe/ConstantProvider.java:12-15 | reading a scope's provider gives a constant holder's value, or what a delayed holder's `get` gives |
| Providers.DelayedProvider.constructor | src/main/java/dev/lukebemish/syringe/DelayedProvider.java:11-13 | a new delayed holder is for the given type and holds nothing |
| Providers.DelayedProvider.Get | src/main/java/dev/lukebemish/syringe/DelayedProvider.java:16-18 | `get` succeeds exactly when the holder is present, and then returns the stored value; otherwise it fails with "not yet present", naming the type |
| Providers.DelayedProvider.Set | src/main/java/dev/lukebemish/syringe/DelayedProvider.java:20-25 | write-once: setting an already filled holder fails with "already present" and keeps the old value; setting an empty one stores the value, and a later `get` then returns it |
| Providers.LazyProvider.constructor | src/main/java/dev/lukebemish/syringe/LazyProvider.java:13-16 | a new lazy holder keeps its supplier and type, holds nothing and has not called its supplier |
| Providers.LazyProvider.Get | src/main/java/dev/lukebemish/syringe/LazyProvider.java:18-30 | a cached value is returned without calling the supplier; otherwise the supplier is called once; a non-null answer is cached and returned, a null answer is an error and caches nothing, and the supplier's own failure is passed on |
| MethodCollection.CollectMethods | src/main/java/dev/lukebemish/syringe/InjectedImplementation.java:30-53 | the loop and the recursion leave exactly `Collected(actual, methods)` in the map |
| MethodCollection.CollectedIsFlatMerge | src/main/java/dev/lukebemish/syringe/InjectedImplementation.java:30-53 | the recursive walk is the same as merging, in order, the declared methods of every class it visits: the class, its abstract superclass chain, then each interface |
| MethodCollection.CollectedAllIsFlatMerge | src/main/java/dev/lukebemish/syringe/InjectedImplementation.java:50-52 | the same for the loop over a list of interfaces |
| MethodCollection.WalkStartsAtClass | src/main/java/dev/lukebemish/syringe/InjectedImplementation.java:46-52 | the class itself is visited first; a concrete superclass is never descended into; an abstract superclass's walk comes right after the class |
| MethodCollection.OfferedMembers | src/main/java/dev/lukebemish/syringe/InjectedImplementation.java:31-35 | the methods offered under a key are exactly the non-private methods that have that key |
| MethodCollection.FirstConcrete | src/main/java/dev/lukebemish/syringe/InjectedImplementation.java:36-43 | finds a concrete member of a list, or reports that every member is abstract |
| MethodCollection.FirstConcreteSnoc | src/main/java/dev/lukebemish/syringe/InjectedImplementation.java:36-43 | appending a method changes the first concrete method only when none existed before |
| MethodCollection.MergeStep | src/main/java/dev/lukebemish/syringe/InjectedImplementation.java:31-45 | one pass keeps the ordered map valid and keeps its keys in place; a private method, or one with a different key, leaves key `k` alone |
| MethodCollection.WinnerSnoc | src/main/java/dev/lukebemish/syringe/InjectedImplementation.java:38-42 | a newcomer replaces the current winner exactly when it is concrete and the winner is abstract |
| MethodCollection.MergeAllKeepsOrder | src/main/java/dev/lukebemish/syringe/InjectedImplementation.java:31-45 | merging keeps the map valid and keeps every existing key at its position (insertion order) |
| MethodCollection.MergeAllKeeps | src/main/java/dev/lukebemish/syringe/InjectedImplementation.java:36-44 | for each key, the entry left is the first concrete one among the existing entry and the offered methods, or else the first of them |
| MethodCollection.WinnerStep | src/main/java/dev/lukebemish/syringe/InjectedImplementation.java:36-44 | one pass keeps the winner among the candidates seen so far, with the method as one more candidate when it offers the key |
| MethodCollection.DeclaredAppend | src/main/java/dev/lukebemish/syringe/InjectedImplementation.java:30-53 | the declared methods of two lists of classes are those of the first followed by those of the second |
| MethodCollection.MergeAllAppend | src/main/java/dev/lukebemish/syringe/InjectedImplementation.java:31-45 | merging two lists in turn is merging their concatenation |
| MethodCollection.PrivateNeverCollected | src/main/java/dev/lukebemish/syringe/InjectedImplementation.java:32-34 | a private method never brings its key into the map |
| MethodCollection.CollectedFromEmpty | src/main/java/dev/lukebemish/syringe/InjectedImplementation.java:30-53 | from an empty map, a key is collected exactly when a non-private method of a visited class has it, and its entry is the winner among those methods in visiting order |
| MethodCollection.CollectedValid | src/main/java/dev/lukebemish/syringe/InjectedImplementation.java:30-53 | the walk leaves a valid ordered map |
| MethodCollection.InEntriesWasDeclared | src/main/java/dev/lukebemish/syringe/InjectedImplementation.java:30-53 | every collected entry is a non-private method declared by a visited class |
| InjectedMethods.NoneClassified | src/main/java/dev/lukebemish/syringe/InjectedImplementation.java:256-257 | the two maps the caller passes in start valid and empty |
| InjectedMethods.LabelArgs | src/main/java/dev/lukebemish/syringe/InjectedImplementation.java:104-109 | an abstract method's value gets exactly one argument, the label's value, when the method is labelled, and none otherwise |
| InjectedMethods.CollectedMethods | src/main/java/dev/lukebemish/syringe/InjectedImplementation.java:56-58 | the methods it sorts are collected, non-private methods of visited classes |
| InjectedMethods.CollectInjectedMethods | src/main/java/dev/lukebemish/syringe/InjectedImplementation.java:55-127 | the loop leaves exactly `InjectedMethodsOf(actual)`: the two maps, or the first error |
| InjectedMethods.ClassifyAllStopsAt | src/main/java/dev/lukebemish/syringe/InjectedImplementation.java:58-126 | the first method that fails decides the error of the whole loop |
| InjectedMethods.ClassifyKeepsDisjoint | src/main/java/dev/lukebemish/syringe/InjectedImplementation.java:82-124 | each pass keeps the maps valid and keeps getter names and names of methods to implement disjoint |
| InjectedMethods.ClassifyKeepsProvenance | src/main/java/dev/lukebemish/syringe/InjectedImplementation.java:89-124 | each pass only adds entries made from the method it looks at |
| InjectedMethods.ClassifyKeepsCovered | src/main/java/dev/lukebemish/syringe/InjectedImplementation.java:76-123 | once a name is recorded, later passes keep an entry of the same type under it |
| InjectedMethods.CoveredOneStep | src/main/java/dev/lukebemish/syringe/InjectedImplementation.java:76-123 | the same, for one earlier method and one pass |
| InjectedMethods.ClassifyAllCoherent | src/main/java/dev/lukebemish/syringe/InjectedImplementation.java:58-126 | the loop keeps the maps disjoint, everything traceable to a method and every earlier method covered |
| InjectedMethods.InjectedMethodsCoherent | src/main/java/dev/lukebemish/syringe/InjectedImplementation.java:55-127 | on success: the two maps are disjoint by name; every getter comes from a collected `@Inject` method of that name that passed the getter checks; every method to implement comes from a collected abstract method and carries its label arguments |
| InjectedMethods.MalformedGetterFails | src/main/java/dev/lukebemish/syringe/InjectedImplementation.java:60-74 | a final, non-visible or parameterised `@Inject` getter, or one with a primitive return, raises a `RuntimeException` that names the method |
| InjectedMethods.MalformedGetterFailsAll | src/main/java/dev/lukebemish/syringe/InjectedImplementation.java:58-74 | a class whose collected methods include such a getter cannot be classified |
| InjectedMethods.DuplicateGetterFails | src/main/java/dev/lukebemish/syringe/InjectedImplementation.java:76-86 | a getter whose name is already recorded with a different type is the "duplicate injected getter" error |
| InjectedMethods.GetterRemovesImplemented | src/main/java/dev/lukebemish/syringe/InjectedImplementation.java:82-89 | a getter is recorded and removes the method to implement of the same name, and nothing else |
| InjectedMethods.AbstractUnderGetterSkipped | src/main/java/dev/lukebemish/syringe/InjectedImplementation.java:111-117 | an abstract method named like a getter of the same type changes nothing |
| ConstructorChoice.ChooseConstructor | src/main/java/dev/lukebemish/syringe/InjectedImplementation.java:225-245 | the loop over the declared constructors computes exactly `Chosen` |
| ConstructorChoice.ChosenIsCandidate | src/main/java/dev/lukebemish/syringe/InjectedImplementation.java:227-245 | the chosen constructor is declared and visible. One with parameters carries `@Inject` and is the only such candidate. One without parameters is chosen only when no `@Inject` candidate exists |
| ConstructorChoice.ChosenErrors | src/main/java/dev/lukebemish/syringe/InjectedImplementation.java:234-243 | "at most one `@Inject` constructor" is raised exactly when two candidates exist at two positions. "Needs a no-arg or `@Inject` constructor" is raised exactly when no constructor qualifies. Both are `RuntimeException` |
| ConstructorChoice.InvisibleIgnored | src/main/java/dev/lukebemish/syringe/InjectedImplementation.java:228-230 | a constructor that is neither public nor protected never changes the choice |
| ConstructorChoice.SeveralStaySeveral | src/main/java/dev/lukebemish/syringe/InjectedImplementation.java:234-236 | the candidates of a prefix are never more than those of the whole list |
| ConstructorChoice.InjectCandidatesMembers | src/main/java/dev/lukebemish/syringe/InjectedImplementation.java:227-239 | the `@Inject` candidates are exactly the visible, annotated constructors with parameters |
| ConstructorChoice.NoArgCandidatesMembers | src/main/java/dev/lukebemish/syringe/InjectedImplementation.java:227-232 | the no-arg candidates are exactly the visible constructors without parameters |
| ConstructorChoice.SeveralHavePositions | src/main/java/dev/lukebemish/syringe/InjectedImplementation.java:234-236 | two or more candidates sit at two distinct positions |
| ConstructorChoice.PositionsMakeSeveral | src/main/java/dev/lukebemish/syringe/InjectedImplementation.java:234-236 | two distinct positions holding candidates make at least two candidates |
| ConstructorChoice.SeveralExactlyWhenTwoPositions | src/main/java/dev/lukebemish/syringe/InjectedImplementation.java:233-236 | there are two or more `@Inject` candidates exactly when two distinct positions hold one |
| ConstructorChoice.NoneExactlyWhenNoCandidate | src/main/java/dev/lukebemish/syringe/InjectedImplementation.java:240-243 | there is neither an `@Inject` nor a no-arg candidate exactly when no constructor qualifies as either |
| InjectedImplementation.Implement | src/main/java/dev/lukebemish/syringe/InjectedImplementation.java:213-318 | the method, with its accumulated lists, computes exactly `Implementation(clazz)` |
| InjectedImplementation.EvaluateParameters | src/main/java/dev/lukebemish/syringe/InjectedImplementation.java:247-254 | the loop over the constructor's parameters evaluates each, or fails with the first failure; on success it records all their erased classes, and on failure only those of a strict prefix, as the list holds when Java throws |
| InjectedImplementation.AddGetterSlots | src/main/java/dev/lukebemish/syringe/InjectedImplementation.java:290-311 | each getter appends `Provider<type>` to the services and the class `Provider` to the constructor's types, in order |
| InjectedImplementation.AddImplementedSlots | src/main/java/dev/lukebemish/syringe/InjectedImplementation.java:313-318 | each abstract method appends its value to instantiate and its erased return class, in order |
| InjectedImplementation.ClassChecks | src/main/java/dev/lukebemish/syringe/InjectedImplementation.java:214-219 | a hidden class is rejected first, then a non-public class, both with `IllegalArgumentException` |
| InjectedImplementation.PlanStartsWithConstructor | src/main/java/dev/lukebemish/syringe/InjectedImplementation.java:247-263 | a plan's parameter classes and services begin with the chosen constructor's, and `maxManualParameters` is its arity |
| InjectedImplementation.SlotsMatchParameters | src/main/java/dev/lukebemish/syringe/InjectedImplementation.java:247-318 | a plan has one parameter class per service plus one per value to instantiate |
| InjectedImplementation.DirectPathOutcome | src/main/java/dev/lukebemish/syringe/InjectedImplementation.java:260-267 | with no getters, a public constructor and a concrete class, the plan calls the constructor itself, instantiates nothing and injects only the constructor's parameters |
| InjectedImplementation.FinalClassRejected | src/main/java/dev/lukebemish/syringe/InjectedImplementation.java:269-271 | otherwise a final class is rejected |
| InjectedImplementation.SynthesisedLayout | src/main/java/dev/lukebemish/syringe/InjectedImplementation.java:290-318 | a synthesised plan's slots are: the constructor's own parameters; then one `Provider` per getter in map order; then one value per abstract method in map order |
| InjectedImplementation.SynthesisedGetterSlot | src/main/java/dev/lukebemish/syringe/InjectedImplementation.java:290-295 | the `i`-th getter gets the service `Provider<type>` and the parameter class `Provider` right after the constructor's slots |
| InjectedImplementation.SynthesisedImplementedSlot | src/main/java/dev/lukebemish/syringe/InjectedImplementation.java:313-318 | the `i`-th method to implement gets its value to instantiate and its erased return class after the getters' slots |
| InjectedImplementation.SynthesisOutcome | src/main/java/dev/lukebemish/syringe/InjectedImplementation.java:269-318 | a non-final class off the direct path gets the synthesised plan |
| InjectedImplementation.LayoutIsBacked | src/main/java/dev/lukebemish/syringe/InjectedImplementation.java:290-318 | every slot after the constructor's is backed by a method the slot is made from |
| InjectedImplementation.GetterSlotBacked | src/main/java/dev/lukebemish/syringe/InjectedImplementation.java:290-294 | a getter's service slot is backed by an `@Inject` method whose return type it provides |
| InjectedImplementation.ImplementedSlotBacked | src/main/java/dev/lukebemish/syringe/InjectedImplementation.java:313-317 | a value to instantiate is backed by an abstract method with that return type and those `@Label` arguments |
| InjectedImplementation.SlotsComeFromMethods | src/main/java/dev/lukebemish/syringe/InjectedImplementation.java:290-318 | every slot of a synthesised plan after the constructor's is backed by a collected, non-private method of a visited class |
| InjectedImplementation.ClassifiedValid | src/main/java/dev/lukebemish/syringe/InjectedImplementation.java:255-258 | a successful classification leaves two valid ordered maps |
| InjectedImplementation.OfAllAllSucceed | src/main/java/dev/lukebemish/syringe/InjectedImplementation.java:248-251 | when every parameter type evaluates, the list of results is exactly those evaluations |
| InjectedImplementation.OfAllFirstFailure | src/main/java/dev/lukebemish/syringe/InjectedImplementation.java:248-251 | the first parameter type that fails decides the error |
| ObjectFactory.Configuration.Create | src/main/java/dev/lukebemish/syringe/ObjectFactory.java:28-30 | a new configuration has six empty maps |
| ObjectFactory.Configuration.BindServiceInstance | src/main/java/dev/lukebemish/syringe/ObjectFactory.java:32-34 | a non-null instance is bound as a constant provider under the class's type; null is rejected with nothing stored |
| ObjectFactory.Configuration.BindService | src/main/java/dev/lukebemish/syringe/ObjectFactory.java:36-38 | records the implementation and its arguments under the class's type, and changes nothing else |
| ObjectFactory.Configuration.BindServiceType | src/main/java/dev/lukebemish/syringe/ObjectFactory.java:40-42 | the same in the map of service types |
| ObjectFactory.Configuration.BindServiceSelf | src/main/java/dev/lukebemish/syringe/ObjectFactory.java:44-46 | binds a class as its own implementation, with no arguments |
| ObjectFactory.Configuration.BindServiceTypeSelf | src/main/java/dev/lukebemish/syringe/ObjectFactory.java:48-50 | the same for service types |
| ObjectFactory.Configuration.BindInstantiatorInstance | src/main/java/dev/lukebemish/syringe/ObjectFactory.java:52-54 | records an instantiator object under the raw class it builds |
| ObjectFactory.Configuration.BindInstantiator | src/main/java/dev/lukebemish/syringe/ObjectFactory.java:56-58 | records an instantiator implementation and its arguments under the raw class |
| ObjectFactory.Configuration.BindInstantiatorType | src/main/java/dev/lukebemish/syringe/ObjectFactory.java:60-62 | the same in the map of instantiator types |
| ObjectFactory.BindChangesOneEntry | src/main/java/dev/lukebemish/syringe/ObjectFactory.java:20-62 | a bind call leaves the other five maps untouched, and changes only its own key in its own map |
| ObjectFactory.RebindOverwrites | src/main/java/dev/lukebemish/syringe/ObjectFactory.java:32-62 | binding the same key of the same map again replaces the earlier binding |
| ObjectFactory.SelfBinding | src/main/java/dev/lukebemish/syringe/ObjectFactory.java:44-50 | the one-argument forms bind the class to itself with no arguments |
| Scopes.Lift | src/main/java/dev/lukebemish/syringe/ObjectFactoryImplementation.java:53-54 | a provider's value becomes a present answer, and its failure stays the same failure |
| Scopes.Wrapped | src/main/java/dev/lukebemish/syringe/ObjectFactoryImplementation.java:74-77 | the wrapped answer is found exactly when `X`'s is, fails exactly when it fails and keeps its error; a found answer is a constant holder whose value is `X`'s answer |
| Scopes.ObjectFactoryImplementation.ServiceInstance | src/main/java/dev/lukebemish/syringe/ObjectFactoryImplementation.java:39-48 | the lookup its contract lemmas state: `ServiceInstanceIsNearest` (the nearest binding scope answers, no answer exactly when no scope binds) and `OwnBindingShadows` |
| Scopes.ObjectFactoryImplementation.ServiceViaProvider | src/main/java/dev/lukebemish/syringe/ObjectFactoryImplementation.java:50-59 | the lookup its contract lemmas state: `ServiceViaProviderIsNearest` (the nearest provider is read) and `ViaProviderFailsOnlyWhenPending` |
| Scopes.ObjectFactoryImplementation.FindServiceOfType | src/main/java/dev/lukebemish/syringe/ObjectFactoryImplementation.java:61-81 | the lookup its contract lemmas state: `InstancesComeFirst`, `ProvidersComeSecond`, `ProviderRequestUnwraps` and `FindFailsOnlyWhenPending` |
| Scopes.ObjectFactoryImplementation.GetServiceOfType | src/main/java/dev/lukebemish/syringe/ObjectFactoryImplementation.java:83-89 | the lookup its contract lemma states: `CannotInjectExactlyWhenUnresolved` |
| Scopes.ChildServicesLayout | src/main/java/dev/lukebemish/syringe/ObjectFactoryImplementation.java:121-130 | a child scope binds: every option instance; every option provider under `Provider<K>` unless an instance overrides it; itself under `ObjectFactory` unless overridden; and nothing else |
| Scopes.PrependStep | src/main/java/dev/lukebemish/syringe/ObjectFactoryImplementation.java:96-113 | putting an argument in front of the remaining positions' outcome gives the outcome from the earlier position |
| Scopes.InstallStep | src/main/java/dev/lukebemish/syringe/ObjectFactoryImplementation.java:125-127 | installing one more provider entry extends the installed provider entries by that key |
| Scopes.CreatorCache.constructor | src/main/java/dev/lukebemish/syringe/ObjectFactoryImplementation.java:14 | the shared cache starts empty |
| Scopes.CreatorCache.ComputeIfAbsent | src/main/java/dev/lukebemish/syringe/ObjectFactoryImplementation.java:93 | always answers `implement(clazz)`. A cached class leaves the cache and the count of `implement` calls unchanged. Otherwise `implement` is called exactly once, a success is cached and a failure caches nothing. The cache keeps every cached class planned exactly once |
| Scopes.ObjectFactoryImplementation.constructor | src/main/java/dev/lukebemish/syringe/ObjectFactoryImplementation.java:22-26 | a new scope has the given parent, has no providers, and binds only itself under `ObjectFactory` |
| Scopes.ObjectFactoryImplementation.RegisterServiceInstance | src/main/java/dev/lukebemish/syringe/ObjectFactoryImplementation.java:28-30 | binds the instance under the type in this scope only |
| Scopes.ObjectFactoryImplementation.RegisterServiceProviderInstance | src/main/java/dev/lukebemish/syringe/ObjectFactoryImplementation.java:32-37 | a fresh, empty delayed holder is bound under `Provider<T>` as a service and under `T` as a provider |
| Scopes.ObjectFactoryImplementation.ChainSteps | src/main/java/dev/lukebemish/syringe/ObjectFactoryImplementation.java:17 | the parent's chain is this scope's chain without its first element |
| Scopes.ObjectFactoryImplementation.ServiceInstanceIsNearest | src/main/java/dev/lukebemish/syringe/ObjectFactoryImplementation.java:39-48 | the answer is the instance of the nearest scope that binds the type; there is no answer exactly when no scope of the chain binds it |
| Scopes.ObjectFactoryImplementation.ServiceViaProviderIsNearest | src/main/java/dev/lukebemish/syringe/ObjectFactoryImplementation.java:50-59 | the nearest scope with a provider for the type is read; there is no answer exactly when no scope of the chain has one |
| Scopes.ObjectFactoryImplementation.OwnBindingShadows | src/main/java/dev/lukebemish/syringe/ObjectFactoryImplementation.java:61-65 | a scope's own instance shadows every ancestor; in particular each scope answers `ObjectFactory` with itself |
| Scopes.ObjectFactoryImplementation.InstancesComeFirst | src/main/java/dev/lukebemish/syringe/ObjectFactoryImplementation.java:61-65 | an instance anywhere in the chain wins over every provider, however near |
| Scopes.ObjectFactoryImplementation.ProvidersComeSecond | src/main/java/dev/lukebemish/syringe/ObjectFactoryImplementation.java:66-69 | with no instance anywhere, the nearest provider decides the answer |
| Scopes.ObjectFactoryImplementation.ProviderRequestUnwraps | src/main/java/dev/lukebemish/syringe/ObjectFactoryImplementation.java:70-79 | a `Provider<X>` that no scope binds is answered by resolving `X` and wrapping it in a constant holder |
| Scopes.ObjectFactoryImplementation.ViaProviderFailsOnlyWhenPending | src/main/java/dev/lukebemish/syringe/ObjectFactoryImplementation.java:50-59 | reading providers fails only on an empty delayed holder of the chain, naming its type |
| Scopes.ObjectFactoryImplementation.FindFailsOnlyWhenPending | src/main/java/dev/lukebemish/syringe/ObjectFactoryImplementation.java:61-81 | a lookup fails only on an empty delayed holder of the chain; every other outcome is an answer or no answer |
| Scopes.ObjectFactoryImplementation.CannotInjectExactlyWhenUnresolved | src/main/java/dev/lukebemish/syringe/ObjectFactoryImplementation.java:83-89 | "Cannot inject type" is raised exactly when the lookup finds nothing; otherwise `getServiceOfType` answers what the lookup finds |
| Scopes.ObjectFactoryImplementation.DelayedResolution | src/main/java/dev/lukebemish/syringe/ObjectFactoryImplementation.java:32-37 | after registration, and unless an instance shadows `T`: resolving `T` fails with "not yet present" until the holder is set, and yields the set value afterwards; `Provider<T>` resolves to the holder itself |
| Scopes.ObjectFactoryImplementation.ArgumentsFromSlots | src/main/java/dev/lukebemish/syringe/ObjectFactoryImplementation.java:96-113 | assembly succeeds exactly when every position can be filled and there are no more caller arguments than parameters. Success fills each position with its slot's value. Failure is the first failing position, or otherwise "too many arguments" |
| Scopes.ObjectFactoryImplementation.ArgumentsLayout | src/main/java/dev/lukebemish/syringe/ObjectFactoryImplementation.java:96-113 | the array has one entry per parameter. The caller's arguments come first, unchanged and non-null. The rest are the resolved services at their positions. Every entry is assignable to its parameter |
| Scopes.ObjectFactoryImplementation.TooManyArgumentsBound | src/main/java/dev/lukebemish/syringe/ObjectFactoryImplementation.java:97-100 | "expected at most N" counts every parameter, injected ones included, and is raised when the caller passes more than N and every position can be filled |
| Scopes.ObjectFactoryImplementation.InstancesNeedCallerArguments | src/main/java/dev/lukebemish/syringe/ObjectFactoryImplementation.java:107-108 | a plan with values to instantiate cannot be assembled unless the caller passes arguments for the positions past the services |
| Scopes.ObjectFactoryImplementation.AssembleArguments | src/main/java/dev/lukebemish/syringe/ObjectFactoryImplementation.java:94-113 | the two loops compute exactly `Arguments` |
| Scopes.ObjectFactoryImplementation.NewInstance | src/main/java/dev/lukebemish/syringe/ObjectFactoryImplementation.java:92-119 | gives the plan's assembled arguments to the invoker and wraps the invoker's failure. A class already cached leaves the cache and the call count unchanged; otherwise `implement` is called once, a success adds exactly that class and a failure leaves the cache unchanged |
| Scopes.SuccessfulPlanIsCached | src/main/java/dev/lukebemish/syringe/ObjectFactoryImplementation.java:93 | under the cache invariant, a class whose plan succeeds and that has been asked for is cached with that plan and was planned exactly once, and only classes whose plan succeeds are cached |
| Scopes.ObjectFactoryImplementation.NewObjectFactory | src/main/java/dev/lukebemish/syringe/ObjectFactoryImplementation.java:121-130 | returns a fresh child of this scope that shares the cache. Its providers are exactly the option providers. Its services are exactly `ChildServices` |
| Scopes.ObjectFactoryImplementation.AddProviderServices | src/main/java/dev/lukebemish/syringe/ObjectFactoryImplementation.java:125-127 | the loop over the option providers, in any iteration order, adds each provider as a service under `Provider<K>` and changes nothing else |
| BuiltInDiscoverer.Configure | src/main/java/dev/lukebemish/syringe/BuiltInDiscoverer.java:11-13 | binds `ProviderInstantiator` as the instantiator type for `Provider`, with no arguments |
| BuiltInDiscoverer.ConfigureAddsOneBinding | src/main/java/dev/lukebemish/syringe/BuiltInDiscoverer.java:11-13 | and changes nothing else in the configuration |
| BuiltInDiscoverer.DeclaredKeysDiffer | src/main/java/dev/lukebemish/syringe/BuiltInDiscoverer.java:16-27 | the three declared methods of `ProviderInstantiator` have distinct keys |
| BuiltInDiscoverer.MergeDeclared | src/main/java/dev/lukebemish/syringe/BuiltInDiscoverer.java:16-27 | collection records the three declared methods under their own keys, taking `getDeclaredMethods` to list them as getter, `newInstance`, bridge (an assumed order: Java specifies none) |
| BuiltInDiscoverer.MergeInterface | src/main/java/dev/lukebemish/syringe/Instantiator.java:5-7 | the interface's abstract `newInstance` is hidden by the concrete bridge method |
| BuiltInDiscoverer.MergeAllThree | src/main/java/dev/lukebemish/syringe/InjectedImplementation.java:31-45 | the loop over three declared methods is three passes |
| BuiltInDiscoverer.MergeNewKey | src/main/java/dev/lukebemish/syringe/InjectedImplementation.java:35-44 | a non-private method with a key not yet present is added under its key |
| BuiltInDiscoverer.DeclaredMapShape | src/main/java/dev/lukebemish/syringe/BuiltInDiscoverer.java:16-27 | under the assumed `getDeclaredMethods` order, the collected map lists the getter, `newInstance` and the bridge in that order, each under its own key |
| BuiltInDiscoverer.InterfaceCollected | src/main/java/dev/lukebemish/syringe/Instantiator.java:5-7 | walking `Instantiator` after the declared methods adds nothing |
| BuiltInDiscoverer.ProviderInstantiatorCollected | src/main/java/dev/lukebemish/syringe/BuiltInDiscoverer.java:16-27 | walking `ProviderInstantiator` skips its concrete superclass `Object` and yields exactly the declared methods |
| BuiltInDiscoverer.ProviderInstantiatorMethods | src/main/java/dev/lukebemish/syringe/BuiltInDiscoverer.java:16-27 | the methods collected for `ProviderInstantiator` are its getter and its two concrete `newInstance` methods |
| BuiltInDiscoverer.ClassifyProviderInstantiator | src/main/java/dev/lukebemish/syringe/BuiltInDiscoverer.java:17-18 | its only getter is `getObjectFactory`; there is nothing to implement |
| BuiltInDiscoverer.ClassifyGetter | src/main/java/dev/lukebemish/syringe/BuiltInDiscoverer.java:17-18 | `getObjectFactory` passes the getter checks and is recorded with type `ObjectFactory` |
| BuiltInDiscoverer.ProviderInstantiatorPlan | src/main/java/dev/lukebemish/syringe/BuiltInDiscoverer.java:16-18 | the plan for it is a synthesised subclass whose constructor takes one `Provider<ObjectFactory>`, takes no caller arguments and instantiates nothing |
| BuiltInDiscoverer.NewInstance | src/main/java/dev/lukebemish/syringe/BuiltInDiscoverer.java:21-27 | no type parameter is an error, and so is more than one (`Provider`'s arity); it succeeds exactly with one. The result is then a fresh, empty lazy holder tagged `Provider<T>`, whose supplier builds `T` with the same arguments |

## Left out

- Bytecode generation is not modelled. This covers the ASM subclass writer, `FastInvoker`, method handles and `clazz.cast`. A plan records only its slots. Calling it is the `invoke` parameter of `Scopes.ObjectFactoryImplementation.NewInstance`, which returns nothing when the generated constructor or the cast throws.
- `Class.isAssignableFrom` is the `assignable` parameter, because the class hierarchy at run time is outside the model.
- `BuiltInDiscoverer.ProviderInstantiatorDecl` fixes the order of `ProviderInstantiator`'s declared methods as getter, `newInstance`, bridge. `Class.getDeclaredMethods` promises no order, so this order is an assumption. The plan `BuiltInDiscoverer.ProviderInstantiatorPlan` states does not depend on it: it has one getter and nothing to implement.
- Threads are not modelled: the `ConcurrentHashMap` cache, `volatile` fields and `synchronized` blocks are treated sequentially. `Scopes.CreatorCache.ComputeIfAbsent` is the atomic `computeIfAbsent` of one thread.
- The `classLoader` field is left out. It is stored and passed to children but never read by the code modelled here.
- `Options`, the argument of `newObjectFactory` (`ObjectFactoryImplementation.java:122`), is defined in none of the modelled classes. The model takes it as two maps: providers and instances.
- The `ObjectFactory` interface's `findService(Class)`, `newInstance(EvaluatedType, …)` and `newObjectFactory(Configuration)` are left out. `ObjectFactoryImplementation` does not implement them: it declares `newObjectFactory(Options)`.
- The `toCreate…` and instantiator maps of `Configuration` are recorded but consumed by none of the modelled classes. Applying a configuration to a scope is not part of this model.
- `Scopes.ObjectFactoryImplementation.RegisterServiceInstance`: a null instance is modelled as removing the type from this scope, where Java stores null. A stored null and a missing key behave the same for every lookup: `services.get` answers null and the lookup goes on to the parent (`ObjectFactoryImplementation.java:40-45`).
- `Scopes.ObjectFactoryImplementation.RegisterServiceProviderInstance` returns the delayed holder itself rather than the `Consumer` `provider::set`. Calling the consumer is `Providers.DelayedProvider.Set` on that holder.
- Scope provider maps hold only constant and delayed holders, the kinds the modelled classes make: `ObjectFactoryImplementation` creates delayed holders (`ObjectFactoryImplementation.java:33-35`) and `Configuration` creates constant holders (`ObjectFactory.java:33`). A `LazyProvider` passed through `Options` is not modelled.
- Java keys every scope map by `java.lang.reflect.Type`, while `newInstance` looks services up with `creator.injections().get(i)` (`ObjectFactoryImplementation.java:108`). The plan record (`InjectedImplementation.java:24`) declares no `injections()`; its `injectedServices` are `EvaluatedType`s, which are not `Type`s and never equal the `ObjectFactory.class` key stored at `ObjectFactoryImplementation.java:25`. As written, line 108 does not type-check against that record. The model reconciles the two by keying every scope map by `EvaluatedType` (the self binding is `EvaluatedType.of(ObjectFactory.class)`, `Provider<T>` keys are `EvaluatedType`s) and by reading `injections()` as `injectedServices()`. This is an interpretation, not a coincidence of keys: a scope keyed by a Java `Type` that no `EvaluatedType` stands for is not modelled.
- A null caller argument makes Java's `argValue.getClass()` throw `NullPointerException`. The model reports this as the error `NullArgument(i)`.
- The `Object[]` argument array is modelled as a sequence that grows position by position. The array is local, so no aliasing is lost.
- `Providers.LazyProvider.Get`: the supplier is a function of the number of earlier calls. This stands in for a Java supplier with side effects.
- The iteration order of `HashMap` in `newObjectFactory` is any order. `Scopes.ObjectFactoryImplementation.NewObjectFactory` is proved for every order.
- `EvaluatedTypes.ToString` builds the text between the angle brackets in its own string, then adds the name and the brackets around it. The result is the string the builder produces.
- The error messages are `Errors.Error` values that carry what the message names (type, index, counts, formatted method). The concatenated strings are not modelled, except `formatMethod` and `EvaluatedType.toString`.
- `isPresent` is always true for constant and lazy holders; both are true by definition (`Providers.ConstantProvider.IsPresent`, `Providers.LazyProvider.IsPresent`) and carry no further contract.
- These are not part of this model: `Bootstrap`, `SyringeLanguageLoader`, `SyringeModContainer`, `SuperclassAllowingEventBus`, and `InjectedImplementation.wrap`, `unimplement` and the method mirroring behind them. They are loader and event-bus integration, outside the core.
- `InjectedImplementation.DirectPathOutcome`: the direct path checks only that there are no getters, as the code at `InjectedImplementation.java:260` does, and not that there are no methods to implement. A concrete class whose collected methods still include an abstract interface method therefore takes the direct path, and that method is ignored. This happens when the method is implemented by a concrete superclass, which the walk does not visit. The model follows the code.
- `Scopes.ObjectFactoryImplementation.NewInstance` reads `injections().get(i)` for every position past the caller's arguments. The model reads `injections()` as the plan's `injectedServices` (see the line on scope keys above); that list is shorter than the parameter list whenever a plan has values to instantiate. Those positions therefore fail with `IndexOutOfBoundsException` (`InjectionIndexOutOfBounds`) unless the caller fills them. The model follows the code; sub-instantiation of those values by the scope is not part of this model.
