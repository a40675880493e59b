/** `InjectedImplementation.collectInjectedMethods`: it sorts the collected
    methods of a class into injected getters (`@Inject`, to be backed by a
    `Provider`) and abstract methods to implement (to be backed by a value
    instantiated for them), both as ordered maps keyed by method name. */
module InjectedMethods {
  import opened Wrappers
  import opened Reflection
  import opened EvaluatedTypes
  import opened Errors
  import opened LinkedMaps
  import opened MethodCollection

  /** An injected getter: its name, erased return class, evaluated return
      type, and whether it is public (otherwise protected). */
  datatype InjectedMethod = InjectedMethod(name: string, erased: RawClass, specific: EvaluatedType, isPublic: bool)

  /** An abstract method to implement, with the arguments its value is
      instantiated with. */
  datatype ImplementedMethod = ImplementedMethod(name: string, erased: RawClass, specific: EvaluatedType, isPublic: bool, args: seq<string>)

  /** The two maps the caller passes in and reads afterwards. */
  datatype Classified = Classified(getters: LinkedMap<string, InjectedMethod>, implemented: LinkedMap<string, ImplementedMethod>)

  function NoneClassified(): (s: Classified)
    ensures s.getters.Valid() && s.implemented.Valid()
    ensures s.getters.entries == map[] && s.implemented.entries == map[]
  {
    Classified(Empty(), Empty())
  }

  /** The arguments of an abstract method's value: the `@Label` value when
      the method carries one, nothing otherwise. */
  function LabelArgs(m: MethodDecl): (args: seq<string>)
    ensures m.labelValue.Some? <==> |args| == 1
    ensures m.labelValue.Some? ==> args == [m.labelValue.value]
    ensures m.labelValue.None? <==> args == []
  {
    if m.labelValue.Some? then [m.labelValue.value] else []
  }

  /** The shape an `@Inject` getter must have. */
  predicate GetterShapeOk(m: MethodDecl) {
    !m.isFinal && (m.isProtected || m.isPublic) && |m.parameterTypes| == 0 && !m.returnType.isPrimitive
  }

  /** The shape an abstract method to implement must have. */
  predicate AbstractShapeOk(m: MethodDecl) {
    (m.isProtected || m.isPublic) && |m.parameterTypes| == 0 && !m.returnType.isPrimitive
  }

  /** One pass of the loop over the collected methods. */
  function Classify(s: Classified, m: MethodDecl): Result<Classified, Error> {
    var id := FormatMethod(m);
    if m.inject then
      if m.isFinal then Err(GetterFinal(id))
      else if !m.isProtected && !m.isPublic then Err(GetterNotAccessible(id))
      else if |m.parameterTypes| != 0 then Err(GetterHasParameters(id))
      else if m.returnType.isPrimitive then Err(PrimitiveInjection(id))
      else match Of(m.genericReturnType)
        case Err(e) => Err(TypeFailure(e))
        case Ok(specific) =>
          if m.name in s.getters.entries && s.getters.entries[m.name].specific != specific then Err(DuplicateGetter(id))
          else if m.name in s.implemented.entries && s.implemented.entries[m.name].specific != specific then Err(DuplicateGetter(id))
          else Ok(Classified(
            s.getters.Put(m.name, InjectedMethod(m.name, m.returnType, specific, m.isPublic)),
            if m.name in s.implemented.entries then s.implemented.Remove(m.name) else s.implemented))
    else if m.isAbstract then
      if !m.isProtected && !m.isPublic then Err(AbstractMethodNotAccessible(id))
      else if |m.parameterTypes| != 0 then Err(AbstractMethodHasParameters(id))
      else if m.returnType.isPrimitive then Err(PrimitiveInjection(id))
      else match Of(m.genericReturnType)
        case Err(e) => Err(TypeFailure(e))
        case Ok(specific) =>
          if m.name in s.getters.entries then
            if s.getters.entries[m.name].specific != specific then Err(DuplicateAbstractGetter(id)) else Ok(s)
          else if m.name in s.implemented.entries && s.implemented.entries[m.name].specific != specific then Err(DuplicateAbstractGetter(id))
          else Ok(Classified(
            s.getters,
            s.implemented.Put(m.name, ImplementedMethod(m.name, m.returnType, specific, m.isPublic, LabelArgs(m)))))
    else Ok(s)
  }

  /** The loop over a list of methods; the first error ends it. */
  function ClassifyAll(s: Classified, ms: seq<MethodDecl>): Result<Classified, Error>
    decreases |ms|
  {
    if ms == [] then Ok(s)
    else
      var before :- ClassifyAll(s, ms[..|ms| - 1]);
      Classify(before, ms[|ms| - 1])
  }

  /** The collected methods of `c`, in map order. */
  function CollectedMethods(c: ClassDecl): (ms: seq<MethodDecl>)
    ensures forall m :: m in ms ==> m in Declared(Walk(c)) && !m.isPrivate
  {
    CollectedValid(c, Empty());
    var methodMap := Collected(c, Empty());
    var ms := methodMap.Values();
    assert forall m :: m in ms ==> m in Declared(Walk(c)) && !m.isPrivate by {
      forall m | m in ms
        ensures m in Declared(Walk(c)) && !m.isPrivate
      {
        var i :| 0 <= i < |ms| && ms[i] == m;
        InEntriesWasDeclared(c, methodMap.keys[i]);
      }
    }
    ms
  }

  /** What `collectInjectedMethods(c, methods, implementedMethods)` leaves in
      the two maps, starting from empty ones, or the error it throws. */
  function InjectedMethodsOf(c: ClassDecl): Result<Classified, Error> {
    ClassifyAll(NoneClassified(), CollectedMethods(c))
  }

  /** A failure stops the loop: if `ms[i]` is the first method whose pass
      fails, the whole loop fails with that error. */
  lemma {:induction false} ClassifyAllStopsAt(s: Classified, ms: seq<MethodDecl>, i: nat, st: Classified)
    requires i < |ms|
    requires ClassifyAll(s, ms[..i]) == Ok(st)
    ensures Classify(st, ms[i]).Err? ==> ClassifyAll(s, ms) == Classify(st, ms[i])
    decreases |ms|
  {
    if Classify(st, ms[i]).Err? {
      if i == |ms| - 1 {
        assert ms[..|ms| - 1] == ms[..i];
      } else {
        assert ms[..|ms| - 1][..i] == ms[..i];
        ClassifyAllStopsAt(s, ms[..|ms| - 1], i, st);
      }
    }
  }

  /** `collectInjectedMethods`; Java fills the caller's two maps, the model
      returns them. */
  method CollectInjectedMethods(actual: ClassDecl) returns (r: Result<Classified, Error>)
    ensures r == InjectedMethodsOf(actual)
  {
    var methodMap := CollectMethods(actual, Empty());
    CollectedValid(actual, Empty());
    var values := methodMap.Values();
    assert values == CollectedMethods(actual);
    var methods: LinkedMap<string, InjectedMethod> := Empty();
    var implementedMethods: LinkedMap<string, ImplementedMethod> := Empty();
    for i := 0 to |values|
      invariant ClassifyAll(NoneClassified(), values[..i]) == Ok(Classified(methods, implementedMethods))
    {
      assert values[..i + 1][..i] == values[..i];
      var m := values[i];
      ClassifyAllStopsAt(NoneClassified(), values, i, Classified(methods, implementedMethods));
      ghost var before := Classified(methods, implementedMethods);
      assert ClassifyAll(NoneClassified(), values[..i + 1]) == Classify(before, m);
      var id := FormatMethod(m);
      if m.inject {
        if m.isFinal {
          return Err(GetterFinal(id));
        }
        if !m.isProtected && !m.isPublic {
          return Err(GetterNotAccessible(id));
        }
        if |m.parameterTypes| != 0 {
          return Err(GetterHasParameters(id));
        }
        var name := m.name;
        var generic := m.returnType;
        if generic.isPrimitive {
          return Err(PrimitiveInjection(id));
        }
        var evaluated := Of(m.genericReturnType);
        if evaluated.Err? {
          return Err(TypeFailure(evaluated.error));
        }
        var specific := evaluated.value;
        if name in methods.entries {
          var existing := methods.entries[name];
          if existing.specific != specific {
            return Err(DuplicateGetter(id));
          }
        }
        if name in implementedMethods.entries {
          var existing := implementedMethods.entries[name];
          if existing.specific != specific {
            return Err(DuplicateGetter(id));
          }
          implementedMethods := implementedMethods.Remove(name);
        }
        methods := methods.Put(name, InjectedMethod(name, generic, specific, m.isPublic));
      } else if m.isAbstract {
        if !m.isProtected && !m.isPublic {
          return Err(AbstractMethodNotAccessible(id));
        }
        if |m.parameterTypes| != 0 {
          return Err(AbstractMethodHasParameters(id));
        }
        var name := m.name;
        var generic := m.returnType;
        if generic.isPrimitive {
          return Err(PrimitiveInjection(id));
        }
        var evaluated := Of(m.genericReturnType);
        if evaluated.Err? {
          return Err(TypeFailure(evaluated.error));
        }
        var specific := evaluated.value;
        var args: seq<string> := [];
        if m.labelValue.Some? {
          args := args + [m.labelValue.value];
        }
        assert args == LabelArgs(m);
        if name in methods.entries {
          var existing := methods.entries[name];
          if existing.specific != specific {
            return Err(DuplicateAbstractGetter(id));
          }
            continue;
        }
        if name in implementedMethods.entries {
          var existing := implementedMethods.entries[name];
          if existing.specific != specific {
            return Err(DuplicateAbstractGetter(id));
          }
        }
        implementedMethods := implementedMethods.Put(name, ImplementedMethod(name, generic, specific, m.isPublic, args));
      }
    }
    assert values[..|values|] == values;
    r := Ok(Classified(methods, implementedMethods));
  }

  // ---------------------------------------------------------------------
  // What the classification guarantees.

  /** Whether the getter `g` was made from the method `m`. */
  ghost predicate GetterFrom(m: MethodDecl, g: InjectedMethod) {
    && m.inject && GetterShapeOk(m)
    && Of(m.genericReturnType) == Ok(g.specific)
    && g == InjectedMethod(m.name, m.returnType, g.specific, m.isPublic)
  }

  /** Whether the method to implement `im` was made from the method `m`. */
  ghost predicate ImplementedFrom(m: MethodDecl, im: ImplementedMethod) {
    && !m.inject && m.isAbstract && AbstractShapeOk(m)
    && Of(m.genericReturnType) == Ok(im.specific)
    && im == ImplementedMethod(m.name, m.returnType, im.specific, m.isPublic, LabelArgs(m))
  }

  /** The two maps are valid and share no name. */
  ghost predicate Disjoint(s: Classified) {
    && s.getters.Valid() && s.implemented.Valid()
    && forall n :: n in s.getters.entries ==> n !in s.implemented.entries
  }

  /** Every entry was made from one of the methods `ms`. */
  ghost predicate Provenance(s: Classified, ms: seq<MethodDecl>) {
    && (forall n :: n in s.getters.entries ==>
          exists i :: 0 <= i < |ms| && GetterFrom(ms[i], s.getters.entries[n]) && ms[i].name == n)
    && (forall n :: n in s.implemented.entries ==>
          exists i :: 0 <= i < |ms| && ImplementedFrom(ms[i], s.implemented.entries[n]) && ms[i].name == n)
  }

  /** Every `@Inject` method of `ms` passed the getter checks and is recorded
      as the getter of its name, with its type; every other abstract method
      passed its checks and is recorded, with its type, either as a getter
      of its name or as the method to implement of its name. */
  ghost predicate Covered(s: Classified, ms: seq<MethodDecl>) {
    forall i :: 0 <= i < |ms| ==> CoveredOne(s, ms[i])
  }

  ghost predicate CoveredOne(s: Classified, m: MethodDecl) {
    && (m.inject ==>
          && GetterShapeOk(m)
          && m.name in s.getters.entries
          && Of(m.genericReturnType) == Ok(s.getters.entries[m.name].specific))
    && (!m.inject && m.isAbstract ==>
          && AbstractShapeOk(m)
          && ((m.name in s.getters.entries && Of(m.genericReturnType) == Ok(s.getters.entries[m.name].specific))
              || (m.name in s.implemented.entries && Of(m.genericReturnType) == Ok(s.implemented.entries[m.name].specific))))
  }

  /** One pass keeps the two maps valid and disjoint: a getter removes the
      method to implement of the same name, and a method to implement is
      never added under a getter's name. */
  lemma ClassifyKeepsDisjoint(s: Classified, m: MethodDecl)
    requires Disjoint(s)
    requires Classify(s, m).Ok?
    ensures Disjoint(Classify(s, m).value)
  {
  }

  /** One pass only adds entries made from the method it looks at. */
  lemma ClassifyKeepsProvenance(s: Classified, ms: seq<MethodDecl>, m: MethodDecl)
    requires Provenance(s, ms)
    requires Classify(s, m).Ok?
    ensures Provenance(Classify(s, m).value, ms + [m])
  {
    var t := Classify(s, m).value;
    var ms' := ms + [m];
    forall n | n in t.getters.entries
      ensures exists i :: 0 <= i < |ms'| && GetterFrom(ms'[i], t.getters.entries[n]) && ms'[i].name == n
    {
      if m.inject && n == m.name {
        assert GetterFrom(ms'[|ms|], t.getters.entries[n]);
      } else {
        assert t.getters.entries[n] == s.getters.entries[n];
        var i :| 0 <= i < |ms| && GetterFrom(ms[i], s.getters.entries[n]) && ms[i].name == n;
        assert ms'[i] == ms[i];
      }
    }
    forall n | n in t.implemented.entries
      ensures exists i :: 0 <= i < |ms'| && ImplementedFrom(ms'[i], t.implemented.entries[n]) && ms'[i].name == n
    {
      if !m.inject && m.isAbstract && n == m.name && m.name !in s.getters.entries {
        assert ImplementedFrom(ms'[|ms|], t.implemented.entries[n]);
      } else {
        assert n in s.implemented.entries && t.implemented.entries[n] == s.implemented.entries[n];
        var i :| 0 <= i < |ms| && ImplementedFrom(ms[i], s.implemented.entries[n]) && ms[i].name == n;
        assert ms'[i] == ms[i];
      }
    }
  }

  /** An entry of a name only ever changes to one of the same type, so what
      was recorded about earlier methods stays true. */
  lemma ClassifyKeepsCovered(s: Classified, ms: seq<MethodDecl>, m: MethodDecl)
    requires Disjoint(s)
    requires Covered(s, ms)
    requires Classify(s, m).Ok?
    ensures Covered(Classify(s, m).value, ms + [m])
  {
    var t := Classify(s, m).value;
    forall i | 0 <= i < |ms + [m]|
      ensures CoveredOne(t, (ms + [m])[i])
    {
      if i < |ms| {
        assert CoveredOne(s, ms[i]);
        CoveredOneStep(s, ms[i], m);
      }
    }
  }

  lemma CoveredOneStep(s: Classified, x: MethodDecl, m: MethodDecl)
    requires Disjoint(s)
    requires CoveredOne(s, x)
    requires Classify(s, m).Ok?
    ensures CoveredOne(Classify(s, m).value, x)
  {
  }

  /** Every pass over a list keeps the three properties. */
  lemma {:induction false} ClassifyAllCoherent(ms: seq<MethodDecl>)
    ensures ClassifyAll(NoneClassified(), ms).Ok? ==>
      var s := ClassifyAll(NoneClassified(), ms).value;
      Disjoint(s) && Provenance(s, ms) && Covered(s, ms)
    decreases |ms|
  {
    if ms != [] && ClassifyAll(NoneClassified(), ms).Ok? {
      var init := ms[..|ms| - 1];
      var m := ms[|ms| - 1];
      ClassifyAllCoherent(init);
      var s := ClassifyAll(NoneClassified(), init).value;
      assert init + [m] == ms;
      ClassifyKeepsDisjoint(s, m);
      ClassifyKeepsProvenance(s, init, m);
      ClassifyKeepsCovered(s, init, m);
    }
  }

  /** For a class: when classification succeeds, getter names and names of
      methods to implement are disjoint, every entry comes from a collected
      method of the same name, an abstract method to implement carries
      exactly its `@Label` value as arguments, and every collected `@Inject`
      method passed the getter checks. */
  lemma InjectedMethodsCoherent(c: ClassDecl)
    ensures InjectedMethodsOf(c).Ok? ==>
      var s := InjectedMethodsOf(c).value;
      var ms := CollectedMethods(c);
      && Disjoint(s)
      && Provenance(s, ms)
      && Covered(s, ms)
      && (forall n :: n in s.implemented.entries ==>
            exists m :: m in ms && m.name == n && s.implemented.entries[n].args == LabelArgs(m))
  {
    var ms := CollectedMethods(c);
    ClassifyAllCoherent(ms);
    if InjectedMethodsOf(c).Ok? {
      var s := InjectedMethodsOf(c).value;
      forall n | n in s.implemented.entries
        ensures exists m :: m in ms && m.name == n && s.implemented.entries[n].args == LabelArgs(m)
      {
        var i :| 0 <= i < |ms| && ImplementedFrom(ms[i], s.implemented.entries[n]) && ms[i].name == n;
        assert ms[i] in ms;
      }
    }
  }

  /** Whether an error names the method `id`. */
  predicate NamesMethod(e: Error, id: MethodId) {
    && (e.GetterFinal? || e.GetterNotAccessible? || e.GetterHasParameters? || e.PrimitiveInjection?
        || e.DuplicateGetter? || e.AbstractMethodNotAccessible? || e.AbstractMethodHasParameters?
        || e.DuplicateAbstractGetter?)
    && e.member == id
  }

  /** An `@Inject` getter that is final, neither protected nor public, takes
      parameters, or returns a primitive makes its pass fail with a runtime
      error naming the method, whatever came before it. */
  lemma MalformedGetterFails(s: Classified, m: MethodDecl)
    requires m.inject && !GetterShapeOk(m)
    ensures Classify(s, m).Err?
    ensures NamesMethod(Classify(s, m).error, FormatMethod(m))
    ensures Thrown(Classify(s, m).error) == RuntimeException
  {
  }

  /** ... and so the whole classification of a list holding such a getter
      fails. */
  lemma MalformedGetterFailsAll(ms: seq<MethodDecl>, i: nat)
    requires i < |ms| && ms[i].inject && !GetterShapeOk(ms[i])
    ensures ClassifyAll(NoneClassified(), ms).Err?
  {
    ClassifyAllCoherent(ms);
  }

  /** A getter whose name is already a getter or a method to implement of a
      different type fails, naming the getter. */
  lemma DuplicateGetterFails(s: Classified, m: MethodDecl)
    requires m.inject && GetterShapeOk(m) && Of(m.genericReturnType).Ok?
    requires || (m.name in s.getters.entries && s.getters.entries[m.name].specific != Of(m.genericReturnType).value)
             || (m.name in s.implemented.entries && s.implemented.entries[m.name].specific != Of(m.genericReturnType).value)
    ensures Classify(s, m) == Err(DuplicateGetter(FormatMethod(m)))
  {
  }

  /** A getter replaces the method to implement of the same name. */
  lemma GetterRemovesImplemented(s: Classified, m: MethodDecl)
    requires Disjoint(s)
    requires m.inject && Classify(s, m).Ok?
    ensures m.name in Classify(s, m).value.getters.entries
    ensures m.name !in Classify(s, m).value.implemented.entries
    ensures Classify(s, m).value.implemented.entries == s.implemented.entries - {m.name}
  {
  }

  /** An abstract method whose name is already a getter of the same type
      changes nothing. */
  lemma AbstractUnderGetterSkipped(s: Classified, m: MethodDecl)
    requires !m.inject && m.isAbstract && AbstractShapeOk(m)
    requires m.name in s.getters.entries && Of(m.genericReturnType) == Ok(s.getters.entries[m.name].specific)
    ensures Classify(s, m) == Ok(s)
  {
  }
}
