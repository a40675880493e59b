/** The constructor `InjectedImplementation.implement` builds through:
    among the public or protected constructors, the one `@Inject`
    constructor with parameters, or else a no-arg constructor. */
module ConstructorChoice {
  import opened Wrappers
  import opened Reflection
  import opened Errors

  /** Constructors that are neither public nor protected are ignored. */
  predicate Visible(c: ConstructorDecl) {
    c.isProtected || c.isPublic
  }

  predicate InjectCandidate(c: ConstructorDecl) {
    Visible(c) && |c.parameters| != 0 && c.inject
  }

  predicate NoArgCandidate(c: ConstructorDecl) {
    Visible(c) && |c.parameters| == 0
  }

  /** The `@Inject` candidates, in declaration order. */
  function InjectCandidates(cs: seq<ConstructorDecl>): seq<ConstructorDecl>
    decreases |cs|
  {
    if cs == [] then []
    else InjectCandidates(cs[..|cs| - 1]) + (if InjectCandidate(cs[|cs| - 1]) then [cs[|cs| - 1]] else [])
  }

  /** The no-arg candidates, in declaration order. */
  function NoArgCandidates(cs: seq<ConstructorDecl>): seq<ConstructorDecl>
    decreases |cs|
  {
    if cs == [] then []
    else NoArgCandidates(cs[..|cs| - 1]) + (if NoArgCandidate(cs[|cs| - 1]) then [cs[|cs| - 1]] else [])
  }

  /** The choice: two `@Inject` candidates are an error, one is chosen, and
      with none the last no-arg candidate is; with neither it is an error. */
  function Chosen(cls: RawClass, cs: seq<ConstructorDecl>): Result<ConstructorDecl, Error> {
    var inject := InjectCandidates(cs);
    if |inject| >= 2 then Err(SeveralInjectConstructors(cls))
    else if |inject| == 1 then Ok(inject[0])
    else
      var noArg := NoArgCandidates(cs);
      if noArg == [] then Err(NoUsableConstructor(cls)) else Ok(noArg[|noArg| - 1])
  }

  /** The loop of `implement` over the declared constructors. */
  method ChooseConstructor(cls: RawClass, constructors: seq<ConstructorDecl>) returns (r: Result<ConstructorDecl, Error>)
    ensures r == Chosen(cls, constructors)
  {
    var targetCtor: Option<ConstructorDecl> := None;
    var noArgCtor: Option<ConstructorDecl> := None;
    for i := 0 to |constructors|
      invariant |InjectCandidates(constructors[..i])| <= 1
      invariant targetCtor == if InjectCandidates(constructors[..i]) == [] then None else Some(InjectCandidates(constructors[..i])[0])
      invariant noArgCtor == if NoArgCandidates(constructors[..i]) == [] then None
                             else Some(NoArgCandidates(constructors[..i])[|NoArgCandidates(constructors[..i])| - 1])
    {
      assert constructors[..i + 1][..i] == constructors[..i];
      var ctor := constructors[i];
      if !ctor.isProtected && !ctor.isPublic {
        continue;
      }
      if |ctor.parameters| == 0 {
        noArgCtor := Some(ctor);
      } else if ctor.inject {
        if targetCtor.Some? {
          SeveralStaySeveral(constructors, i + 1);
          return Err(SeveralInjectConstructors(cls));
        }
        targetCtor := Some(ctor);
      }
    }
    assert constructors[..|constructors|] == constructors;
    if targetCtor.None? {
      if noArgCtor.None? {
        return Err(NoUsableConstructor(cls));
      }
      targetCtor := noArgCtor;
    }
    r := Ok(targetCtor.value);
  }

  /** A prefix's candidates are a prefix of the whole list's candidates. */
  lemma {:induction false} SeveralStaySeveral(cs: seq<ConstructorDecl>, i: nat)
    requires i <= |cs|
    ensures |InjectCandidates(cs[..i])| <= |InjectCandidates(cs)|
    decreases |cs| - i
  {
    if i < |cs| {
      SeveralStaySeveral(cs, i + 1);
      assert cs[..i + 1][..i] == cs[..i];
    } else {
      assert cs[..i] == cs;
    }
  }

  lemma {:induction false} InjectCandidatesMembers(cs: seq<ConstructorDecl>)
    ensures forall c :: c in InjectCandidates(cs) <==> c in cs && InjectCandidate(c)
    decreases |cs|
  {
    if cs != [] {
      InjectCandidatesMembers(cs[..|cs| - 1]);
      assert cs == cs[..|cs| - 1] + [cs[|cs| - 1]];
    }
  }

  lemma {:induction false} NoArgCandidatesMembers(cs: seq<ConstructorDecl>)
    ensures forall c :: c in NoArgCandidates(cs) <==> c in cs && NoArgCandidate(c)
    decreases |cs|
  {
    if cs != [] {
      NoArgCandidatesMembers(cs[..|cs| - 1]);
      assert cs == cs[..|cs| - 1] + [cs[|cs| - 1]];
    }
  }

  /** At least two candidates sit at two distinct positions. */
  lemma {:induction false} SeveralHavePositions(cs: seq<ConstructorDecl>)
    requires |InjectCandidates(cs)| >= 2
    ensures exists i, j :: 0 <= i < j < |cs| && InjectCandidate(cs[i]) && InjectCandidate(cs[j])
    decreases |cs|
  {
    var init := cs[..|cs| - 1];
    if |InjectCandidates(init)| >= 2 {
      SeveralHavePositions(init);
      var i, j :| 0 <= i < j < |init| && InjectCandidate(init[i]) && InjectCandidate(init[j]);
      assert cs[i] == init[i] && cs[j] == init[j];
    } else {
      InjectCandidatesMembers(init);
      var c := InjectCandidates(init)[0];
      assert c in InjectCandidates(init);
      var i :| 0 <= i < |init| && init[i] == c;
      assert cs[i] == c;
      assert InjectCandidate(cs[|cs| - 1]);
    }
  }

  /** Two distinct positions holding candidates give at least two. */
  lemma PositionsMakeSeveral(cs: seq<ConstructorDecl>, i: nat, j: nat)
    requires i < j < |cs| && InjectCandidate(cs[i]) && InjectCandidate(cs[j])
    ensures |InjectCandidates(cs)| >= 2
  {
    var upToJ := cs[..j];
    InjectCandidatesMembers(upToJ);
    assert cs[i] == upToJ[i];
    assert cs[i] in InjectCandidates(upToJ);
    assert cs[..j + 1][..j] == upToJ;
    assert |InjectCandidates(cs[..j + 1])| == |InjectCandidates(upToJ)| + 1;
    SeveralStaySeveral(cs, j + 1);
  }

  /** The chosen constructor is public or protected and is one of the
      declared constructors. A chosen constructor with parameters carries
      `@Inject` and is the only such candidate; a chosen one without
      parameters is used exactly when there is no `@Inject` candidate. */
  lemma ChosenIsCandidate(cls: RawClass, cs: seq<ConstructorDecl>)
    ensures Chosen(cls, cs).Ok? ==>
      var c := Chosen(cls, cs).value;
      && c in cs && Visible(c)
      && (|c.parameters| != 0 ==> c.inject && InjectCandidates(cs) == [c])
      && (|c.parameters| == 0 ==> InjectCandidates(cs) == [] && c in NoArgCandidates(cs))
  {
    InjectCandidatesMembers(cs);
    NoArgCandidatesMembers(cs);
    var inject := InjectCandidates(cs);
    if |inject| == 1 {
      assert inject[0] in inject;
      assert inject == [inject[0]];
    } else if |inject| == 0 {
      var noArg := NoArgCandidates(cs);
      if noArg != [] {
        assert noArg[|noArg| - 1] in noArg;
      }
    }
  }

  /** The error cases: at most one `@Inject` candidate is allowed, and with
      none a no-arg candidate must exist. */
  lemma ChosenErrors(cls: RawClass, cs: seq<ConstructorDecl>)
    ensures Chosen(cls, cs) == Err(SeveralInjectConstructors(cls)) <==>
      exists i, j :: 0 <= i < j < |cs| && InjectCandidate(cs[i]) && InjectCandidate(cs[j])
    ensures Chosen(cls, cs) == Err(NoUsableConstructor(cls)) <==>
      forall c :: c in cs ==> !InjectCandidate(c) && !NoArgCandidate(c)
    ensures Chosen(cls, cs).Err? ==> Thrown(Chosen(cls, cs).error) == RuntimeException
  {
    SeveralExactlyWhenTwoPositions(cs);
    NoneExactlyWhenNoCandidate(cs);
  }

  lemma SeveralExactlyWhenTwoPositions(cs: seq<ConstructorDecl>)
    ensures |InjectCandidates(cs)| >= 2 <==>
      exists i, j :: 0 <= i < j < |cs| && InjectCandidate(cs[i]) && InjectCandidate(cs[j])
  {
    if |InjectCandidates(cs)| >= 2 {
      SeveralHavePositions(cs);
    }
    if exists i, j :: 0 <= i < j < |cs| && InjectCandidate(cs[i]) && InjectCandidate(cs[j]) {
      var i, j :| 0 <= i < j < |cs| && InjectCandidate(cs[i]) && InjectCandidate(cs[j]);
      PositionsMakeSeveral(cs, i, j);
    }
  }

  lemma NoneExactlyWhenNoCandidate(cs: seq<ConstructorDecl>)
    ensures InjectCandidates(cs) == [] && NoArgCandidates(cs) == [] <==>
      forall c :: c in cs ==> !InjectCandidate(c) && !NoArgCandidate(c)
  {
    InjectCandidatesMembers(cs);
    NoArgCandidatesMembers(cs);
    var inject := InjectCandidates(cs);
    var noArg := NoArgCandidates(cs);
    if inject != [] {
      assert inject[0] in inject;
    }
    if noArg != [] {
      assert noArg[0] in noArg;
    }
  }

  /** Constructors that are neither public nor protected make no
      difference to the choice. */
  lemma {:induction false} InvisibleIgnored(cls: RawClass, cs: seq<ConstructorDecl>, c: ConstructorDecl)
    requires !Visible(c)
    ensures Chosen(cls, cs + [c]) == Chosen(cls, cs)
  {
    assert (cs + [c])[..|cs + [c]| - 1] == cs;
  }
}
