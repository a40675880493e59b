/** `EvaluatedType`: the generic-aware key under which services are bound and
    looked up. It pairs a raw class with an ordered list of type arguments;
    the list is either empty (a raw use) or exactly as long as the number of
    type parameters the class declares. */
module EvaluatedTypes {
  import opened Wrappers
  import opened Reflection

  datatype EvaluatedType = EvaluatedType(rawType: RawClass, typeParameters: seq<EvaluatedType>)

  /** The two ways building an `EvaluatedType` fails; both raise
      `IllegalArgumentException` in the source. */
  datatype TypeError =
    | CannotEvaluate(t: TypeRef)
    | ArityMismatch(rawType: RawClass, provided: nat)

  /** The arity invariant, at every level of nesting. */
  ghost predicate WellFormed(t: EvaluatedType)
    decreases t
  {
    && (t.typeParameters == [] || |t.typeParameters| == t.rawType.arity)
    && forall i :: 0 <= i < |t.typeParameters| ==> WellFormed(t.typeParameters[i])
  }

  /** The record's compact constructor: it rejects a non-empty parameter
      list whose length is not the raw class's arity. */
  function Make(rawType: RawClass, typeParameters: seq<EvaluatedType>): (r: Result<EvaluatedType, TypeError>)
    ensures r.Err? <==> typeParameters != [] && |typeParameters| != rawType.arity
    ensures r.Ok? ==> r.value == EvaluatedType(rawType, typeParameters)
    ensures r.Err? ==> r.error == ArityMismatch(rawType, |typeParameters|)
  {
    if rawType.arity != |typeParameters| && typeParameters != [] then
      Err(ArityMismatch(rawType, |typeParameters|))
    else
      Ok(EvaluatedType(rawType, typeParameters))
  }

  /** `EvaluatedType.of(Type)`: a class becomes a raw use, an applied generic
      class is evaluated argument by argument in order, and any other form of
      type is rejected. */
  function Of(t: TypeRef): (r: Result<EvaluatedType, TypeError>)
    ensures r.Ok? ==> WellFormed(r.value)
    ensures t.ClassType? ==> r == Ok(EvaluatedType(t.cls, []))
    ensures t.WildcardType? || t.TypeVariable? || t.GenericArrayType? ==> r == Err(CannotEvaluate(t))
    ensures t.ParameterizedType? && r.Ok? ==>
      && r.value.rawType == t.raw
      && |r.value.typeParameters| == |t.arguments|
      && forall i :: 0 <= i < |t.arguments| ==> Of(t.arguments[i]) == Ok(r.value.typeParameters[i])
    ensures t.ParameterizedType? ==>
      (r.Ok? <==> OfAll(t.arguments).Ok? && Make(t.raw, OfAll(t.arguments).value).Ok?)
    ensures t.ParameterizedType? && r.Err? ==>
      || (exists i :: 0 <= i < |t.arguments| && Of(t.arguments[i]) == Err(r.error) && forall j :: 0 <= j < i ==> Of(t.arguments[j]).Ok?)
      || r.error == ArityMismatch(t.raw, |t.arguments|)
    decreases t
  {
    match t
    case ClassType(c) => Ok(EvaluatedType(c, []))
    case ParameterizedType(raw, arguments) =>
      var ps :- OfAll(arguments);
      Make(raw, ps)
    case _ => Err(CannotEvaluate(t))
  }

  /** The stream `map(EvaluatedType::of).toList()`: every element evaluated
      in order, the first failure propagated. */
  function OfAll(ts: seq<TypeRef>): (r: Result<seq<EvaluatedType>, TypeError>)
    ensures r.Ok? ==> |r.value| == |ts| && forall i :: 0 <= i < |ts| ==> Of(ts[i]) == Ok(r.value[i])
    ensures r.Err? ==> exists i :: 0 <= i < |ts| && Of(ts[i]) == Err(r.error) && forall j :: 0 <= j < i ==> Of(ts[j]).Ok?
    decreases ts
  {
    if ts == [] then Ok([])
    else
      var head :- Of(ts[0]);
      var tail :- OfAll(ts[1..]);
      Ok([head] + tail)
  }

  /** `EvaluatedType.of(Class)`, which cannot fail. */
  function OfClass(c: RawClass): (t: EvaluatedType)
    ensures Of(ClassType(c)) == Ok(t)
    ensures WellFormed(t)
  {
    EvaluatedType(c, [])
  }

  /** `Provider<t>`, as built at InjectedImplementation.java:294. */
  function ProviderOf(t: EvaluatedType): (p: EvaluatedType)
    ensures Make(ProviderClass, [t]) == Ok(p)
    ensures WellFormed(t) ==> WellFormed(p)
  {
    EvaluatedType(ProviderClass, [t])
  }

  /** The reflective type an evaluated type stands for: a plain class for a
      raw use, an applied generic class otherwise. */
  function ToTypeRef(t: EvaluatedType): TypeRef
    decreases t
  {
    if t.typeParameters == [] then ClassType(t.rawType)
    else ParameterizedType(t.rawType, seq(|t.typeParameters|, i requires 0 <= i < |t.typeParameters| => ToTypeRef(t.typeParameters[i])))
  }

  /** Every well-formed evaluated type is what `of` makes of the type it
      stands for, so `of` reaches every key that satisfies the invariant. */
  lemma {:induction false} OfToTypeRef(t: EvaluatedType)
    requires WellFormed(t)
    ensures Of(ToTypeRef(t)) == Ok(t)
    decreases t, 1
  {
    if t.typeParameters != [] {
      var args := seq(|t.typeParameters|, i requires 0 <= i < |t.typeParameters| => ToTypeRef(t.typeParameters[i]));
      OfAllToTypeRefs(t.typeParameters, args);
    }
  }

  lemma {:induction false} OfAllToTypeRefs(ps: seq<EvaluatedType>, args: seq<TypeRef>)
    requires forall i :: 0 <= i < |ps| ==> WellFormed(ps[i])
    requires |args| == |ps| && forall i :: 0 <= i < |ps| ==> args[i] == ToTypeRef(ps[i])
    ensures OfAll(args) == Ok(ps)
    decreases ps, 0
  {
    if ps != [] {
      OfToTypeRef(ps[0]);
      OfAllToTypeRefs(ps[1..], args[1..]);
      assert [ps[0]] + ps[1..] == ps;
    }
  }

  /** Documentation of record equality, which holds for every datatype:
      two keys are equal exactly when their raw classes are equal and their
      parameter lists are equal element by element. Scope lookups rely on it. */
  lemma EqualityIsStructural(a: EvaluatedType, b: EvaluatedType)
    ensures a == b <==>
      && a.rawType == b.rawType
      && |a.typeParameters| == |b.typeParameters|
      && forall i :: 0 <= i < |a.typeParameters| ==> a.typeParameters[i] == b.typeParameters[i]
  {
    if a.rawType == b.rawType && |a.typeParameters| == |b.typeParameters|
       && forall i :: 0 <= i < |a.typeParameters| ==> a.typeParameters[i] == b.typeParameters[i] {
      assert a.typeParameters == b.typeParameters;
    }
  }

  /** The strings `parts` with `separator` between consecutive elements. */
  function Join(parts: seq<string>, separator: string): string
  {
    if |parts| == 0 then ""
    else if |parts| == 1 then parts[0]
    else Join(parts[..|parts| - 1], separator) + separator + parts[|parts| - 1]
  }

  /** The rendering `toString` produces: the raw class's name, followed, when
      there are type parameters, by their renderings in angle brackets,
      separated by ", ". */
  function Render(t: EvaluatedType): string
    decreases t
  {
    var ps := t.typeParameters;
    if ps == [] then t.rawType.name
    else t.rawType.name + "<" + Join(seq(|ps|, i requires 0 <= i < |ps| => Render(ps[i])), ", ") + ">"
  }

  /** `toString`: the StringBuilder loop, appending each rendered parameter
      and a separator after every one but the last. The text between the
      angle brackets is built in `inner`. */
  method ToString(t: EvaluatedType) returns (s: string)
    ensures s == Render(t)
    decreases t
  {
    var ps := t.typeParameters;
    if ps == [] {
      return t.rawType.name;
    }
    ghost var rendered := seq(|ps|, i requires 0 <= i < |ps| => Render(ps[i]));
    var inner := "";
    for i := 0 to |ps|
      invariant inner == Join(rendered[..i], ", ") + (if 0 < i < |ps| then ", " else "")
    {
      var part := ToString(ps[i]);
      assert part == rendered[i];
      JoinStep(rendered, i, ", ");
      inner := inner + part;
      if i < |ps| - 1 {
        inner := inner + ", ";
      }
    }
    assert rendered[..|ps|] == rendered;
    s := t.rawType.name + "<" + inner + ">";
  }

  /** Joining one more part: the part alone after none, and after the
      separator otherwise. */
  lemma JoinStep(parts: seq<string>, i: nat, separator: string)
    requires i < |parts|
    ensures Join(parts[..i + 1], separator) == if i == 0 then parts[0] else Join(parts[..i], separator) + separator + parts[i]
  {
    assert parts[..i + 1][..i] == parts[..i];
  }

  /** A raw use renders as the class name alone. */
  lemma RenderRaw(t: EvaluatedType)
    requires t.typeParameters == []
    ensures Render(t) == t.rawType.name
  {
  }

  /** `Name<A, B>`: the separator ", " stands only between two parameters. */
  lemma RenderTwoParameters(raw: RawClass, a: EvaluatedType, b: EvaluatedType)
    ensures Render(EvaluatedType(raw, [a, b])) == raw.name + "<" + Render(a) + ", " + Render(b) + ">"
  {
    var rendered := seq(2, i requires 0 <= i < 2 => Render([a, b][i]));
    assert rendered[..1] == [Render(a)];
    assert Join(rendered, ", ") == Render(a) + ", " + Render(b);
  }
}
