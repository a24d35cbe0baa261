/** The public face of DIContainer: resolve and buildUp, each starting with
    an empty resolution stack, and the properties the container promises to
    its users across several calls.
 */
module DIContainer {
  import opened Types
  import opened Descriptors
  import opened Registry
  import opened ConstructorOrder
  import opened Resolver

  /** resolve(cls). The source also clears `lastException` here; in this
      model the error of the last tried candidate is carried directly. */
  function Resolve(u: Universe, c: Container, t: TypeKey, fuel: nat): (r: (Container, Outcome<Obj>))
    ensures Evolves(c, r.0)
    ensures Normalised(c) ==> Normalised(r.0)
    ensures r.1.Returned? && HasInstance(c, t) ==> r.1.value == c.instances[Ref(t)].value
    ensures r.1.Returned? && !HasInstance(c, t) ==>
              && c.nextId <= r.1.value.id < r.0.nextId
              && fuel > 0 && FindConcrete(u, c.classes, t, fuel - 1).1 == Returned(r.1.value.cls)
    ensures r.1.Returned? && Ref(t) in c.instances ==> r.0.instances[Ref(t)] == Some(r.1.value)
    ensures r.1.Returned? ==> BuiltUpFrom(r.0.log, |c.log|, r.1.value, AnnotatedOnly(u(r.1.value.cls).methods))
    ensures r.1.Returned? && !HasInstance(c, t) ==>
              ConstructedThenBuiltUp(r.0.log, |c.log|, r.1.value, AnnotatedOnly(u(r.1.value.cls).methods))
  {
    var run := ResolveType(u, c, [], t, fuel);
    (run.c, run.out)
  }

  /** buildUp(obj): the result lists where in the log each dependency
      method was invoked. */
  function BuildUp(u: Universe, c: Container, obj: Obj, fuel: nat): (r: (Container, Outcome<seq<nat>>))
    ensures Evolves(c, r.0)
    ensures DependencyMethods(u(obj.cls).methods).Threw? ==> r == (c, Threw(IncorrectDependencyMethod))
    ensures r.1.Returned? ==> InvokedInOrder(r.0.log, |c.log|, obj, AnnotatedOnly(u(obj.cls).methods), r.1.value)
  {
    var run := BuildUpObject(u, c, [], obj, fuel);
    (run.c, run.out)
  }

  /** A type without an `instances` entry (transient) yields a new object
      on every resolve. */
  lemma TransientResolvesDistinct(u: Universe, c: Container, t: TypeKey, fuel1: nat, fuel2: nat)
    requires Ref(t) !in c.instances
    ensures var first := Resolve(u, c, t, fuel1);
            var second := Resolve(u, first.0, t, fuel2);
            first.1.Returned? && second.1.Returned? ==> first.1.value != second.1.value
  {
  }

  /** A type with an `instances` entry (singleton) yields the same object on
      every resolve once one succeeded. */
  lemma SingletonResolvesSame(u: Universe, c: Container, t: TypeKey, fuel1: nat, fuel2: nat)
    requires Ref(t) in c.instances
    ensures var first := Resolve(u, c, t, fuel1);
            var second := Resolve(u, first.0, t, fuel2);
            first.1.Returned? && second.1.Returned? ==> first.1.value == second.1.value
  {
  }

  /** Re-registering a key as transient makes later resolves distinct
      again, whatever was cached for it before. */
  lemma ReRegisteredTransientResolvesDistinct(u: Universe, c: Container, super: TypeKey, cls: TypeKey, fuel1: nat, fuel2: nat)
    ensures var c' := RegisterType(c, super, cls, false);
            var first := Resolve(u, c', super, fuel1);
            var second := Resolve(u, first.0, super, fuel2);
            first.1.Returned? && second.1.Returned? ==> first.1.value != second.1.value
  {
    TransientResolvesDistinct(u, RegisterType(c, super, cls, false), super, fuel1, fuel2);
  }

  /** Registering as singleton makes later resolves identical. */
  lemma RegisteredSingletonResolvesSame(u: Universe, c: Container, super: TypeKey, cls: TypeKey, fuel1: nat, fuel2: nat)
    ensures var c' := RegisterType(c, super, cls, true);
            var first := Resolve(u, c', super, fuel1);
            var second := Resolve(u, first.0, super, fuel2);
            first.1.Returned? && second.1.Returned? ==> first.1.value == second.1.value
  {
    SingletonResolvesSame(u, RegisterType(c, super, cls, true), super, fuel1, fuel2);
  }

  predicate NoDependencyMethods(u: Universe, cls: TypeKey)
  {
    forall i :: 0 <= i < |u(cls).methods| ==> !u(cls).methods[i].annotated
  }

  lemma {:induction false} NoAnnotatedMethods(ms: seq<Method>)
    requires forall i :: 0 <= i < |ms| ==> !ms[i].annotated
    ensures DependencyMethods(ms) == Returned([])
  {
    if |ms| > 0 {
      NoAnnotatedMethods(ms[1..]);
    }
  }

  /** Building up an object whose class has no dependency methods does
      nothing at all. */
  lemma BuildUpWithoutMethods(u: Universe, c: Container, stack: seq<TypeKey>, obj: Obj, fuel: nat)
    requires NoDependencyMethods(u, obj.cls)
    ensures BuildUpObject(u, c, stack, obj, fuel) == Run(c, stack, Returned([]))
  {
    NoAnnotatedMethods(u(obj.cls).methods);
  }

  /** A registered instance is what resolve returns for its key; when its
      class has no dependency methods, resolving changes nothing at all. */
  lemma RegisteredInstanceResolves(u: Universe, c: Container, t: TypeKey, x: Obj, fuel: nat)
    ensures RegisterInstance(c, t, Some(x)).Returned?
    ensures var c' := RegisterInstance(c, t, Some(x)).value;
            && (Resolve(u, c', t, fuel).1.Returned? ==> Resolve(u, c', t, fuel).1.value == x)
            && (fuel > 0 && NoDependencyMethods(u, x.cls) ==> Resolve(u, c', t, fuel) == (c', Returned(x)))
  {
    var c' := RegisterInstance(c, t, Some(x)).value;
    if fuel > 0 && NoDependencyMethods(u, x.cls) {
      BuildUpWithoutMethods(u, c', [], x, fuel - 1);
    }
  }

  /** resolve on a type whose concrete type has two annotated constructors
      fails before any constructor is tried: only the lookup's
      self-registrations remain. */
  lemma MultipleAnnotatedFails(u: Universe, c: Container, t: TypeKey, fuel: nat, mapped: TypeKey)
    requires fuel > 0 && !HasInstance(c, t)
    requires FindConcrete(u, c.classes, t, fuel - 1).1 == Returned(mapped)
    requires AnnotatedCount(u(mapped).ctors) >= 2
    ensures Resolve(u, c, t, fuel)
            == (c.(classes := FindConcrete(u, c.classes, t, fuel - 1).0), Threw(MultipleAnnotatedConstructors))
  {
    var sorted := SortConstructors(u(mapped).ctors);
    SecondAnnotatedIffMultiple(sorted);
    var found := FindConcrete(u, c.classes, t, fuel - 1);
    var rc := ResolveConstructor(u, c, [], t, fuel - 1);
    assert rc == Run(c.(classes := found.0), [t], Threw(MultipleAnnotatedConstructors));
    assert ResolveType(u, c, [], t, fuel) == rc;
  }

  /** resolve on a type whose concrete type has no public constructor
      fails without constructing anything. */
  lemma NoConstructorFails(u: Universe, c: Container, t: TypeKey, fuel: nat, mapped: TypeKey)
    requires fuel > 0 && !HasInstance(c, t)
    requires FindConcrete(u, c.classes, t, fuel - 1).1 == Returned(mapped)
    requires |u(mapped).ctors| == 0
    ensures Resolve(u, c, t, fuel)
            == (c.(classes := FindConcrete(u, c.classes, t, fuel - 1).0), Threw(NoSuitableConstructor))
  {
    var found := FindConcrete(u, c.classes, t, fuel - 1);
    var rc := ResolveConstructor(u, c, [], t, fuel - 1);
    assert rc == Run(c.(classes := found.0), [t], Threw(NoSuitableConstructor));
    assert ResolveType(u, c, [], t, fuel) == rc;
  }

  /** resolve on an abstract type that is not registered fails at once. */
  lemma UnregisteredAbstractResolveFails(u: Universe, c: Container, t: TypeKey, fuel: nat)
    requires fuel > 1 && !HasInstance(c, t) && Ref(t) !in c.classes && IsAbstractType(u, t)
    ensures Resolve(u, c, t, fuel) == (c, Threw(AbstractType))
  {
    UnregisteredAbstractFails(u, c.classes, t, fuel - 1);
    var rc := ResolveConstructor(u, c, [], t, fuel - 1);
    assert rc == Run(c.(classes := c.classes), [t], Threw(AbstractType));
    assert ResolveType(u, c, [], t, fuel) == rc;
  }

  /** When lookup succeeds and at most one constructor is annotated, the
      constructors are tried in sorted order and the outcome is finished
      off (popped and cached) by `Finish`. An unfolding step for the
      proofs, not a property. */
  lemma ResolveConstructorTries(u: Universe, c: Container, stack: seq<TypeKey>, t: TypeKey, fuel: nat, mapped: TypeKey)
    ensures && !HasInstance(c, t) && FindConcrete(u, c.classes, t, fuel).1 == Returned(mapped)
            && |u(mapped).ctors| > 0 && AnnotatedCount(u(mapped).ctors) < 2
            ==> var c1 := c.(classes := FindConcrete(u, c.classes, t, fuel).0);
                ResolveConstructor(u, c, stack, t, fuel)
                == Finish(c, stack, t, TryCandidates(u, c1, [t] + stack, mapped, SortConstructors(u(mapped).ctors), fuel))
  {
    SecondAnnotatedIffMultiple(SortConstructors(u(mapped).ctors));
  }

  /** A type that lookup leaves where it is, with a single constructor
      that fails: resolveConstructor pops the type and fails the same way. */
  lemma SingleConstructorFails(u: Universe, c: Container, stack: seq<TypeKey>, t: TypeKey, fuel: nat, mapped: TypeKey,
                               c': Container, e: Error)
    requires !HasInstance(c, t)
    requires FindConcrete(u, c.classes, t, fuel) == (c.classes, Returned(mapped))
    requires |u(mapped).ctors| == 1
    ensures CreateInstance(u, c, [t] + stack, mapped, u(mapped).ctors[0], fuel) == Run(c', [t] + stack, Threw(e))
            ==> ResolveConstructor(u, c, stack, t, fuel) == Run(c', stack, Threw(e))
  {
    var ctors := u(mapped).ctors;
    assert SortConstructors(ctors) == ctors;
    assert AnnotatedCount(ctors) < 2 by { assert ctors[1..] == []; }
    ResolveConstructorTries(u, c, stack, t, fuel, mapped);
    assert c.(classes := c.classes) == c;
    assert ([t] + stack)[1..] == stack;
  }

  /** The lookup failure path of resolveConstructor does not pop the type it
      pushed, so the caller's stack keeps a leftover entry. */
  lemma LookupFailureLeavesEntry(u: Universe, c: Container, stack: seq<TypeKey>, t: TypeKey, fuel: nat)
    requires !HasInstance(c, t)
    requires FindConcrete(u, c.classes, t, fuel).1.Threw?
    ensures ResolveConstructor(u, c, stack, t, fuel).stack == [t] + stack
    ensures ResolveConstructor(u, c, stack, t, fuel).out == Threw(AbstractType)
  {
  }

  /** The two constructor-list failures of resolveConstructor, no public
      constructor and several annotated ones, do not pop the pushed type
      either. */
  lemma ConstructorCheckLeavesEntry(u: Universe, c: Container, stack: seq<TypeKey>, t: TypeKey, fuel: nat, mapped: TypeKey)
    requires !HasInstance(c, t)
    requires FindConcrete(u, c.classes, t, fuel).1 == Returned(mapped)
    requires |u(mapped).ctors| == 0 || AnnotatedCount(u(mapped).ctors) >= 2
    ensures ResolveConstructor(u, c, stack, t, fuel).stack == [t] + stack
    ensures ResolveConstructor(u, c, stack, t, fuel).out
            == if |u(mapped).ctors| == 0 then Threw(NoSuitableConstructor) else Threw(MultipleAnnotatedConstructors)
  {
    SecondAnnotatedIffMultiple(SortConstructors(u(mapped).ctors));
  }

  /** An unannotated candidate list that ends in a parameterless constructor
      whose body succeeds never fails with an exception: every richer
      candidate that fails falls back to the next one. */
  lemma {:induction false} FallbackToParameterless(u: Universe, c: Container, stack: seq<TypeKey>, mapped: TypeKey, cands: seq<Ctor>, fuel: nat)
    requires |cands| > 0
    requires forall i :: 0 <= i < |cands| ==> !cands[i].annotated
    requires cands[|cands| - 1].params == [] && !cands[|cands| - 1].bodyFails
    ensures !TryCandidates(u, c, stack, mapped, cands, fuel).out.Threw?
    decreases |cands|
  {
    var first := CreateInstance(u, c, stack, mapped, cands[0], fuel);
    if |cands| == 1 {
      assert ResolveParams(u, c, stack, [], fuel).out == Returned([]);
      assert first.out.Returned?;
    } else if first.out.Threw? {
      FallbackToParameterless(u, first.c, first.stack, mapped, cands[1..], fuel);
      assert TryCandidates(u, c, stack, mapped, cands, fuel)
             == TryCandidates(u, first.c, first.stack, mapped, cands[1..], fuel);
    }
  }

  /** A cached or registered object resolves to itself, and when its class
      has no dependency methods nothing else happens. */
  lemma CachedResolves(u: Universe, c: Container, stack: seq<TypeKey>, t: TypeKey, fuel: nat)
    requires fuel > 0 && HasInstance(c, t)
    requires NoDependencyMethods(u, c.instances[Ref(t)].value.cls)
    ensures ResolveType(u, c, stack, t, fuel) == Run(c, stack, Returned(c.instances[Ref(t)].value))
  {
    BuildUpWithoutMethods(u, c, stack, c.instances[Ref(t)].value, fuel - 1);
  }

  /** `mapped` has a single constructor, which takes no parameters and
      whose body returns normally. */
  predicate OnlyWorkingDefault(u: Universe, mapped: TypeKey)
  {
    |u(mapped).ctors| == 1 && u(mapped).ctors[0].params == [] && !u(mapped).ctors[0].bodyFails
  }

  /** The container after `t` was resolved by calling the one parameterless
      constructor of `mapped`. */
  function AfterDefaultConstruction(u: Universe, c: Container, t: TypeKey, mapped: TypeKey, fuel: nat): Container
    requires |u(mapped).ctors| == 1
  {
    var obj := Obj(c.nextId, mapped);
    c.(classes := FindConcrete(u, c.classes, t, fuel).0,
       instances := if Ref(t) in c.instances then c.instances[Ref(t) := Some(obj)] else c.instances,
       nextId := c.nextId + 1,
       log := c.log + [Constructed(obj, u(mapped).ctors[0], [])])
  }

  /** resolveType on a type without an object: construct, then build up.
      An unfolding step for the scenario proofs, not a property. */
  lemma ResolveTypeConstructs(u: Universe, c: Container, stack: seq<TypeKey>, t: TypeKey, fuel: nat)
    ensures fuel > 0 && !HasInstance(c, t) ==>
            var created := ResolveConstructor(u, c, stack, t, fuel - 1);
            created.out.Returned? ==>
              var built := BuildUpObject(u, created.c, created.stack, created.out.value, fuel - 1);
              built.out.Returned? ==> ResolveType(u, c, stack, t, fuel) == Run(built.c, built.stack, created.out)
  {
  }

  /** resolveType on a type without an object whose construction
      succeeds and whose build-up fails: the build-up's failure. An
      unfolding step for the scenario proofs, not a property. */
  lemma ResolveTypeBuildFails(u: Universe, c: Container, stack: seq<TypeKey>, t: TypeKey, fuel: nat)
    ensures fuel > 0 && !HasInstance(c, t) ==>
            var created := ResolveConstructor(u, c, stack, t, fuel - 1);
            created.out.Returned? ==>
              var built := BuildUpObject(u, created.c, created.stack, created.out.value, fuel - 1);
              built.out.Threw? ==> ResolveType(u, c, stack, t, fuel) == Run(built.c, built.stack, Threw(built.out.error))
  {
  }

  /** resolveType on a type without an object fails exactly as its
      construction does, before any build-up. An unfolding step for the
      scenario proofs, not a property. */
  lemma ResolveTypeFails(u: Universe, c: Container, stack: seq<TypeKey>, t: TypeKey, fuel: nat)
    requires fuel > 0 && !HasInstance(c, t)
    requires !ResolveConstructor(u, c, stack, t, fuel - 1).out.Returned?
    ensures ResolveType(u, c, stack, t, fuel) == ResolveConstructor(u, c, stack, t, fuel - 1)
  {
  }

  /** A parameterless constructor whose body succeeds always builds a new
      object. */
  lemma ParameterlessCreates(u: Universe, c: Container, stack: seq<TypeKey>, mapped: TypeKey, ctor: Ctor, fuel: nat)
    requires ctor.params == [] && !ctor.bodyFails
    ensures CreateInstance(u, c, stack, mapped, ctor, fuel)
            == Run(c.(nextId := c.nextId + 1, log := c.log + [Constructed(Obj(c.nextId, mapped), ctor, [])]),
                   stack, Returned(Obj(c.nextId, mapped)))
  {
    assert ResolveParams(u, c, stack, [], fuel) == Run(c, stack, Returned([]));
  }

  lemma DefaultConstructorConstructs(u: Universe, c: Container, stack: seq<TypeKey>, t: TypeKey, fuel: nat, mapped: TypeKey)
    requires !HasInstance(c, t)
    requires FindConcrete(u, c.classes, t, fuel).1 == Returned(mapped)
    requires OnlyWorkingDefault(u, mapped)
    ensures ResolveConstructor(u, c, stack, t, fuel)
            == Run(AfterDefaultConstruction(u, c, t, mapped, fuel), stack, Returned(Obj(c.nextId, mapped)))
  {
    var c1 := c.(classes := FindConcrete(u, c.classes, t, fuel).0);
    SingleParameterlessTried(u, c1, [t] + stack, mapped, fuel);
    ResolveConstructorTries(u, c, stack, t, fuel, mapped);
    FinishReturned(c, stack, t, TryCandidates(u, c1, [t] + stack, mapped, SortConstructors(u(mapped).ctors), fuel));
  }

  /** Finishing a success that left the stack as it was pushed: pop it and
      store the object in the placeholder entry, if there is one. */
  lemma FinishReturned(c: Container, stack: seq<TypeKey>, t: TypeKey, tried: Run<Obj>)
    ensures tried.stack == [t] + stack && tried.out.Returned? ==>
              Finish(c, stack, t, tried)
              == Run(if Ref(t) in tried.c.instances then tried.c.(instances := tried.c.instances[Ref(t) := Some(tried.out.value)]) else tried.c,
                     stack, tried.out)
  {
    assert ([t] + stack)[1..] == stack;
  }

  /** The candidate loop over the one parameterless constructor of
      `mapped` calls it. */
  lemma SingleParameterlessTried(u: Universe, c: Container, stack: seq<TypeKey>, mapped: TypeKey, fuel: nat)
    ensures OnlyWorkingDefault(u, mapped) ==>
              && AnnotatedCount(u(mapped).ctors) < 2
              && TryCandidates(u, c, stack, mapped, SortConstructors(u(mapped).ctors), fuel)
                 == Run(c.(nextId := c.nextId + 1, log := c.log + [Constructed(Obj(c.nextId, mapped), u(mapped).ctors[0], [])]),
                        stack, Returned(Obj(c.nextId, mapped)))
  {
    if OnlyWorkingDefault(u, mapped) {
      var ctor := u(mapped).ctors[0];
      assert u(mapped).ctors[1..] == [];
      assert SortConstructors(u(mapped).ctors) == [ctor];
      ParameterlessCreates(u, c, stack, mapped, ctor, fuel);
    }
  }

  /** A type whose concrete type has a single parameterless constructor
      and no dependency methods resolves to a new object of that concrete
      type, leaving the stack as it found it. */
  lemma DefaultConstructorResolves(u: Universe, c: Container, stack: seq<TypeKey>, t: TypeKey, fuel: nat, mapped: TypeKey)
    requires fuel > 0 && !HasInstance(c, t)
    requires FindConcrete(u, c.classes, t, fuel - 1).1 == Returned(mapped)
    requires OnlyWorkingDefault(u, mapped)
    requires NoDependencyMethods(u, mapped)
    ensures ResolveType(u, c, stack, t, fuel)
            == Run(AfterDefaultConstruction(u, c, t, mapped, fuel - 1), stack, Returned(Obj(c.nextId, mapped)))
  {
    DefaultConstructorConstructs(u, c, stack, t, fuel - 1, mapped);
    var obj := Obj(c.nextId, mapped);
    var after := AfterDefaultConstruction(u, c, t, mapped, fuel - 1);
    BuildUpWithoutMethods(u, after, stack, obj, fuel - 1);
    ResolveTypeConstructs(u, c, stack, t, fuel);
  }

  /** An object whose class declares an incorrect dependency method is
      still constructed (the constructor call stays in the log), but the
      resolve then fails. */
  lemma IncorrectMethodFailsAfterConstruction(u: Universe, c: Container, t: TypeKey, fuel: nat, mapped: TypeKey)
    requires fuel > 0 && !HasInstance(c, t)
    requires FindConcrete(u, c.classes, t, fuel - 1).1 == Returned(mapped)
    requires OnlyWorkingDefault(u, mapped)
    requires exists i :: 0 <= i < |u(mapped).methods| && u(mapped).methods[i].annotated
                         && !IsCorrectAnnotatedMethod(u(mapped).methods[i])
    ensures Resolve(u, c, t, fuel) == (AfterDefaultConstruction(u, c, t, mapped, fuel - 1), Threw(IncorrectDependencyMethod))
  {
    var obj := Obj(c.nextId, mapped);
    assert DependencyMethods(u(obj.cls).methods).Threw?;
    ResolveTypeBuildFails(u, c, [], t, fuel);
    DefaultConstructorConstructs(u, c, [], t, fuel - 1, mapped);
  }
}
