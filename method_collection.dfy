/** `InjectedImplementation.collectMethods`: the walk over a class, its
    abstract superclasses and all its interfaces that gathers the non-private
    methods into an ordered map keyed by name and descriptor. The first
    method seen under a key wins, except that a concrete method replaces an
    abstract one; a replacement keeps the key's position. */
module MethodCollection {
  import opened Wrappers
  import opened Reflection
  import opened LinkedMaps

  type MethodMap = LinkedMap<Signature, MethodDecl>

  /** One pass of the loop over declared methods. */
  function Merge(methods: MethodMap, m: MethodDecl): MethodMap {
    if m.isPrivate then methods
    else if m.Key() in methods.entries then
      if !m.isAbstract && methods.entries[m.Key()].isAbstract then methods.Put(m.Key(), m)
      else methods
    else methods.Put(m.Key(), m)
  }

  /** The loop over a list of methods, in order. */
  function MergeAll(methods: MethodMap, ms: seq<MethodDecl>): MethodMap
    decreases |ms|
  {
    if ms == [] then methods
    else Merge(MergeAll(methods, ms[..|ms| - 1]), ms[|ms| - 1])
  }

  /** Whether `collectMethods` descends into the superclass of `c`. */
  predicate DescendsIntoSuper(c: ClassDecl) {
    c.superclass.Some? && c.superclass.value.isAbstract
  }

  /** What `collectMethods(c, methods)` leaves in the map: the declared
      methods first, then the abstract superclass, then each interface. */
  function Collected(c: ClassDecl, methods: MethodMap): MethodMap
    decreases c, 1
  {
    var own := MergeAll(methods, c.methods);
    var afterSuper := if DescendsIntoSuper(c) then Collected(c.superclass.value, own) else own;
    CollectedAll(c.interfaces, afterSuper)
  }

  /** `Collected` over a list of classes, in order. */
  function CollectedAll(cs: seq<ClassDecl>, methods: MethodMap): MethodMap
    decreases cs, 0
  {
    if cs == [] then methods
    else Collected(cs[|cs| - 1], CollectedAll(cs[..|cs| - 1], methods))
  }

  /** `collectMethods`, updating the caller's map: the map it returns is the
      caller's map after the call. */
  method CollectMethods(actual: ClassDecl, methods: MethodMap) returns (result: MethodMap)
    ensures result == Collected(actual, methods)
    decreases actual
  {
    result := methods;
    for i := 0 to |actual.methods|
      invariant result == MergeAll(methods, actual.methods[..i])
    {
      assert actual.methods[..i + 1][..i] == actual.methods[..i];
      var m := actual.methods[i];
      if m.isPrivate {
        continue;
      }
      var nameAndDescriptor := m.Key();
      if nameAndDescriptor in result.entries {
        var existing := result.entries[nameAndDescriptor];
        if !m.isAbstract && existing.isAbstract {
          result := result.Put(nameAndDescriptor, m);
        } else {
          continue;
        }
      }
      result := result.Put(nameAndDescriptor, m);
    }
    assert actual.methods[..|actual.methods|] == actual.methods;
    ghost var afterSuper := result;
    var superClazz := actual.superclass;
    if superClazz.Some? && superClazz.value.isAbstract {
      result := CollectMethods(superClazz.value, result);
    }
    ghost var start := result;
    for j := 0 to |actual.interfaces|
      invariant result == CollectedAll(actual.interfaces[..j], start)
    {
      assert actual.interfaces[..j + 1][..j] == actual.interfaces[..j];
      result := CollectMethods(actual.interfaces[j], result);
    }
    assert actual.interfaces[..|actual.interfaces|] == actual.interfaces;
  }

  // ---------------------------------------------------------------------
  // An independent description: the classes visited, and their methods.

  /** The classes `collectMethods(c, _)` visits, in visiting order. */
  function Walk(c: ClassDecl): seq<ClassDecl>
    decreases c, 1
  {
    [c] + (if DescendsIntoSuper(c) then Walk(c.superclass.value) else []) + WalkAll(c.interfaces)
  }

  function WalkAll(cs: seq<ClassDecl>): seq<ClassDecl>
    decreases cs, 0
  {
    if cs == [] then [] else WalkAll(cs[..|cs| - 1]) + Walk(cs[|cs| - 1])
  }

  /** The declared methods of `cs`, class after class. */
  function Declared(cs: seq<ClassDecl>): seq<MethodDecl>
  {
    if cs == [] then [] else Declared(cs[..|cs| - 1]) + cs[|cs| - 1].methods
  }

  lemma {:induction false} DeclaredAppend(a: seq<ClassDecl>, b: seq<ClassDecl>)
    ensures Declared(a + b) == Declared(a) + Declared(b)
    decreases |b|
  {
    if b == [] {
      assert a + b == a;
    } else {
      assert (a + b)[..|a + b| - 1] == a + b[..|b| - 1];
      DeclaredAppend(a, b[..|b| - 1]);
    }
  }

  lemma {:induction false} MergeAllAppend(methods: MethodMap, a: seq<MethodDecl>, b: seq<MethodDecl>)
    ensures MergeAll(methods, a + b) == MergeAll(MergeAll(methods, a), b)
    decreases |b|
  {
    if b == [] {
      assert a + b == a;
    } else {
      assert (a + b)[..|a + b| - 1] == a + b[..|b| - 1];
      MergeAllAppend(methods, a, b[..|b| - 1]);
    }
  }

  /** The recursive walk merges exactly the declared methods of the visited
      classes, in visiting order: the hierarchy's shape only decides the
      order in which methods are offered to the map. */
  lemma {:induction false} CollectedIsFlatMerge(c: ClassDecl, methods: MethodMap)
    ensures Collected(c, methods) == MergeAll(methods, Declared(Walk(c)))
    decreases c, 1
  {
    var own := MergeAll(methods, c.methods);
    var sup := if DescendsIntoSuper(c) then Walk(c.superclass.value) else [];
    var afterSuper := if DescendsIntoSuper(c) then Collected(c.superclass.value, own) else own;
    assert Declared([c]) == c.methods by {
      assert [c][..0] == [];
    }
    if DescendsIntoSuper(c) {
      CollectedIsFlatMerge(c.superclass.value, own);
    }
    assert afterSuper == MergeAll(own, Declared(sup));
    CollectedAllIsFlatMerge(c.interfaces, afterSuper);
    DeclaredAppend([c] + sup, WalkAll(c.interfaces));
    DeclaredAppend([c], sup);
    MergeAllAppend(methods, c.methods, Declared(sup));
    MergeAllAppend(methods, c.methods + Declared(sup), Declared(WalkAll(c.interfaces)));
  }

  lemma {:induction false} CollectedAllIsFlatMerge(cs: seq<ClassDecl>, methods: MethodMap)
    ensures CollectedAll(cs, methods) == MergeAll(methods, Declared(WalkAll(cs)))
    decreases cs, 0
  {
    if cs != [] {
      var init := cs[..|cs| - 1];
      var last := cs[|cs| - 1];
      CollectedAllIsFlatMerge(init, methods);
      CollectedIsFlatMerge(last, CollectedAll(init, methods));
      DeclaredAppend(WalkAll(init), Walk(last));
      MergeAllAppend(methods, Declared(WalkAll(init)), Declared(Walk(last)));
    }
  }

  /** A walk visits the class itself first, then its abstract superclass's
      walk; a concrete superclass contributes nothing. */
  lemma WalkStartsAtClass(c: ClassDecl)
    ensures |Walk(c)| >= 1 && Walk(c)[0] == c
    ensures c.superclass.Some? && !c.superclass.value.isAbstract ==> Walk(c) == [c] + WalkAll(c.interfaces)
    ensures DescendsIntoSuper(c) ==> Walk(c)[1..1 + |Walk(c.superclass.value)|] == Walk(c.superclass.value)
  {
  }

  // ---------------------------------------------------------------------
  // What the merge keeps.

  /** The non-private methods among `ms` with key `k`, in order. */
  function Offered(ms: seq<MethodDecl>, k: Signature): seq<MethodDecl>
    decreases |ms|
  {
    if ms == [] then []
    else Offered(ms[..|ms| - 1], k) + (if !ms[|ms| - 1].isPrivate && ms[|ms| - 1].Key() == k then [ms[|ms| - 1]] else [])
  }

  lemma {:induction false} OfferedMembers(ms: seq<MethodDecl>, k: Signature)
    ensures forall x :: x in Offered(ms, k) <==> x in ms && !x.isPrivate && x.Key() == k
    decreases |ms|
  {
    if ms != [] {
      OfferedMembers(ms[..|ms| - 1], k);
      assert ms == ms[..|ms| - 1] + [ms[|ms| - 1]];
    }
  }

  /** Everything that competes for key `k`: the entry already in the map,
      then the methods offered under `k`. */
  function Candidates(methods: MethodMap, ms: seq<MethodDecl>, k: Signature): seq<MethodDecl> {
    (if k in methods.entries then [methods.entries[k]] else []) + Offered(ms, k)
  }

  /** The first concrete method of a list, if any. */
  function FirstConcrete(s: seq<MethodDecl>): (r: Option<MethodDecl>)
    ensures r.Some? ==> r.value in s && !r.value.isAbstract
    ensures r.None? ==> forall x :: x in s ==> x.isAbstract
  {
    if s == [] then None
    else if !s[0].isAbstract then Some(s[0])
    else FirstConcrete(s[1..])
  }

  /** The winner among competing methods: the first concrete one, and the
      first of all when every one is abstract. */
  function Winner(s: seq<MethodDecl>): MethodDecl
    requires s != []
  {
    match FirstConcrete(s)
    case Some(m) => m
    case None => s[0]
  }

  lemma {:induction false} FirstConcreteSnoc(s: seq<MethodDecl>, x: MethodDecl)
    ensures FirstConcrete(s + [x]) ==
      if FirstConcrete(s).Some? then FirstConcrete(s) else if !x.isAbstract then Some(x) else None
  {
    if s != [] {
      assert (s + [x])[1..] == s[1..] + [x];
      FirstConcreteSnoc(s[1..], x);
    }
  }

  /** One merge step: the map stays valid, keeps its existing keys in
      place, and changes the entry under `k` only when `x` is a non-private
      method with key `k`, which is added when `k` is new and replaces the
      entry only when `x` is concrete and the entry abstract. */
  lemma MergeStep(before: MethodMap, x: MethodDecl, k: Signature)
    requires before.Valid()
    ensures Merge(before, x).Valid()
    ensures |before.keys| <= |Merge(before, x).keys|
    ensures Merge(before, x).keys[..|before.keys|] == before.keys
    ensures !(!x.isPrivate && x.Key() == k) ==>
      (k in Merge(before, x).entries <==> k in before.entries)
      && (k in before.entries ==> Merge(before, x).entries[k] == before.entries[k])
    ensures !x.isPrivate && x.Key() == k ==>
      k in Merge(before, x).entries
      && Merge(before, x).entries[k] ==
         if k in before.entries && !(!x.isAbstract && before.entries[k].isAbstract) then before.entries[k] else x
  {
  }

  /** The entry under `k` is the winner among the candidates `c`, and it is
      there exactly when there is a candidate. */
  ghost predicate HoldsWinner(m: MethodMap, k: Signature, c: seq<MethodDecl>) {
    && (k in m.entries <==> c != [])
    && (k in m.entries ==> m.entries[k] == Winner(c))
  }

  /** What a winner becomes when one more candidate arrives. */
  lemma WinnerSnoc(c: seq<MethodDecl>, x: MethodDecl)
    requires c != []
    ensures Winner(c + [x]) == if !x.isAbstract && Winner(c).isAbstract then x else Winner(c)
  {
    FirstConcreteSnoc(c, x);
    assert (c + [x])[0] == c[0];
  }

  /** Merging keeps the map valid and keeps the keys already present at
      their positions. */
  lemma {:induction false} MergeAllKeepsOrder(methods: MethodMap, ms: seq<MethodDecl>)
    requires methods.Valid()
    ensures MergeAll(methods, ms).Valid()
    ensures |methods.keys| <= |MergeAll(methods, ms).keys|
    ensures MergeAll(methods, ms).keys[..|methods.keys|] == methods.keys
    decreases |ms|
  {
    if ms != [] {
      var init := ms[..|ms| - 1];
      var before := MergeAll(methods, init);
      MergeAllKeepsOrder(methods, init);
      MergeStep(before, ms[|ms| - 1], ms[|ms| - 1].Key());
      assert MergeAll(methods, ms).keys[..|methods.keys|] == before.keys[..|methods.keys|];
    }
  }

  /** The map after merging `ms` holds key `k` exactly when the input held
      it or some non-private method offered it, and the entry is the winner
      of the input's entry and the offered methods, in that order: a
      concrete method replaces an abstract one, and otherwise the first one
      seen stays. */
  lemma {:induction false} MergeAllKeeps(methods: MethodMap, ms: seq<MethodDecl>, k: Signature)
    requires methods.Valid()
    ensures HoldsWinner(MergeAll(methods, ms), k, Candidates(methods, ms, k))
    decreases |ms|
  {
    if ms == [] {
      assert Candidates(methods, ms, k) == if k in methods.entries then [methods.entries[k]] else [];
    } else {
      var init := ms[..|ms| - 1];
      var x := ms[|ms| - 1];
      MergeAllKeeps(methods, init, k);
      MergeAllKeepsOrder(methods, init);
      WinnerStep(MergeAll(methods, init), x, k, Candidates(methods, init, k));
      assert Candidates(methods, ms, k) ==
        Candidates(methods, init, k) + (if !x.isPrivate && x.Key() == k then [x] else []);
    }
  }

  /** One merge step keeps the winner among the candidates so far, with
      `x` as one more candidate when it offers key `k`. */
  lemma WinnerStep(before: MethodMap, x: MethodDecl, k: Signature, c: seq<MethodDecl>)
    requires before.Valid() && HoldsWinner(before, k, c)
    ensures HoldsWinner(Merge(before, x), k, c + (if !x.isPrivate && x.Key() == k then [x] else []))
  {
    MergeStep(before, x, k);
    if !x.isPrivate && x.Key() == k {
      if c != [] {
        WinnerSnoc(c, x);
      } else {
        assert Winner(c + [x]) == x by {
          assert c + [x] == [x];
        }
      }
    } else {
      assert c + [] == c;
    }
  }

  /** A private method never enters the map unless its key was already
      there through some other method. */
  lemma PrivateNeverCollected(methods: MethodMap, ms: seq<MethodDecl>, m: MethodDecl)
    requires methods.Valid()
    requires m.isPrivate
    requires forall x :: x in ms && x.Key() == m.Key() ==> x.isPrivate
    ensures m.Key() in MergeAll(methods, ms).entries <==> m.Key() in methods.entries
  {
    MergeAllKeeps(methods, ms, m.Key());
    OfferedMembers(ms, m.Key());
  }

  /** For the whole walk: the map `collectMethods` builds from an empty map
      has a key exactly when a non-private method of some visited class has
      it, and its entry is the winner among those methods in visiting order. */
  lemma CollectedFromEmpty(c: ClassDecl, k: Signature)
    ensures Collected(c, Empty()).Valid()
    ensures k in Collected(c, Empty()).entries <==>
      exists m :: m in Declared(Walk(c)) && !m.isPrivate && m.Key() == k
    ensures k in Collected(c, Empty()).entries ==>
      Offered(Declared(Walk(c)), k) != [] &&
      Collected(c, Empty()).entries[k] == Winner(Offered(Declared(Walk(c)), k))
  {
    CollectedIsFlatMerge(c, Empty());
    MergeAllKeepsOrder(Empty(), Declared(Walk(c)));
    MergeAllKeeps(Empty(), Declared(Walk(c)), k);
    OfferedMembers(Declared(Walk(c)), k);
    var o := Offered(Declared(Walk(c)), k);
    assert Candidates(Empty(), Declared(Walk(c)), k) == o;
    if o != [] {
      assert o[0] in o;
    }
  }

  /** Starting from a valid map, the walk leaves a valid map. */
  lemma CollectedValid(c: ClassDecl, methods: MethodMap)
    requires methods.Valid()
    ensures Collected(c, methods).Valid()
  {
    CollectedIsFlatMerge(c, methods);
    MergeAllKeepsOrder(methods, Declared(Walk(c)));
  }

  /** Every entry the walk collects is a non-private method declared by a
      visited class. */
  lemma InEntriesWasDeclared(c: ClassDecl, k: Signature)
    requires k in Collected(c, Empty()).entries
    ensures Collected(c, Empty()).entries[k] in Declared(Walk(c))
    ensures !Collected(c, Empty()).entries[k].isPrivate
  {
    CollectedFromEmpty(c, k);
    var o := Offered(Declared(Walk(c)), k);
    OfferedMembers(Declared(Walk(c)), k);
    assert Winner(o) in o;
  }
}
