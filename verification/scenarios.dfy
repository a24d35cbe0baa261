/** End-to-end scenarios of the container's test suite. Each scenario holds
    in every descriptor table in which the fixture classes it uses look as
    the `requires` clauses describe them.

    Most fixture classes' sources are not part of this model: their
    descriptors follow the names and the expected outcomes of the tests
    and are assumptions, not transcriptions. ClassConstructorMultipleAnnotated
    follows the fixture ClassConstructorsMultipleAnnotated of another
    version of the test suite. ClassCycleFirst, ClassCycleSecond and
    ClassTwoBasicConstructors are not fixtures of the test suite at all:
    CircularScenario and LeftoverEntryScenario use them to exhibit the
    cycle check and the leftover stack entry. FallbackScenario uses a
    fixture class that no test of this version resolves.
 */
module Scenarios {
  import opened Types
  import opened Descriptors
  import opened Registry
  import opened ConstructorOrder
  import opened Resolver
  import opened DIContainer

  const InterfaceBasic := Class("InterfaceBasic")
  const ClassBasicAbstract := Class("ClassBasicAbstract")
  const ClassConstructorDefault := Class("ClassConstructorDefault")
  const ClassBasicInheritsFromAbstract := Class("ClassBasicInheritsFromAbstract")
  const ClassConstructorMultipleAnnotated := Class("ClassConstructorMultipleAnnotated")
  const ClassConstructorPrivate := Class("ClassConstructorPrivate")
  const InterfaceSetter := Class("InterfaceSetter")
  const ClassSetterSingle := Class("ClassSetterSingle")
  const ClassSetterIncorrectReturnType := Class("ClassSetterIncorrectReturnType")
  const ClassSetterWithoutParameters := Class("ClassSetterWithoutParameters")
  const StringType := Class("java.lang.String")
  const InterfaceDiamondLeft := Class("InterfaceDiamondLeft")
  const InterfaceBasicStringGetter := Class("InterfaceBasicStringGetter")
  const ClassConstructorNotAnnotatedWithDependency := Class("ClassConstructorNotAnnotatedWithDependency")

  /** Classes made up for this model, not taken from the test suite: two
      classes whose only constructors take each other, and a class whose
      two constructors both take an InterfaceBasic. */
  const ClassCycleFirst := Class("ClassCycleFirst")
  const ClassCycleSecond := Class("ClassCycleSecond")
  const ClassTwoBasicConstructors := Class("ClassTwoBasicConstructors")

  /** A public parameterless constructor. */
  const DefaultCtor := Ctor([], false, false)

  /** `@Dependency public void setBasicObject(InterfaceBasic)`. */
  const BasicSetter := Method([InterfaceBasic], true, true, false)

  /** The two constructors of ClassConstructorNotAnnotatedWithDependency. */
  const LeftCtor := Ctor([InterfaceDiamondLeft], false, false)
  const LeftAndStringCtor := Ctor([InterfaceDiamondLeft, InterfaceBasicStringGetter], false, false)

  const BasicAndStringCtor := Ctor([InterfaceBasic, StringType], false, false)
  const BasicCtor := Ctor([InterfaceBasic], false, false)

  /** A concrete class with just a parameterless public constructor and no
      dependency methods, such as ClassConstructorDefault. */
  predicate PlainClass(u: Universe, cls: TypeKey)
  {
    u(cls) == TypeDesc(false, [DefaultCtor], [])
  }

  /** A key without an entry in `instances` whose lookup ends at a plain
      class, and changes nothing, resolves to a new object of that class. */
  lemma PlainResolves(u: Universe, c: Container, t: TypeKey, cls: TypeKey, fuel: nat)
    requires PlainClass(u, cls) && fuel > 0 && Ref(t) !in c.instances
    requires FindConcrete(u, c.classes, t, fuel - 1) == (c.classes, Returned(cls))
    ensures Resolve(u, c, t, fuel)
            == (c.(nextId := c.nextId + 1, log := c.log + [Constructed(Obj(c.nextId, cls), DefaultCtor, [])]),
                Returned(Obj(c.nextId, cls)))
  {
    DefaultConstructorResolves(u, c, [], t, fuel, cls);
    var after := AfterDefaultConstruction(u, c, t, cls, fuel - 1);
    assert after.classes == c.classes;
    assert after.instances == c.instances;
    assert after == c.(nextId := c.nextId + 1, log := c.log + [Constructed(Obj(c.nextId, cls), DefaultCtor, [])]);
  }

  /** The same for a singleton key whose slot is still empty: the new
      object is stored in the slot. */
  lemma PlainSingletonResolves(u: Universe, c: Container, t: TypeKey, cls: TypeKey, fuel: nat)
    requires PlainClass(u, cls) && fuel > 0 && Ref(t) in c.instances && c.instances[Ref(t)] == None
    requires FindConcrete(u, c.classes, t, fuel - 1) == (c.classes, Returned(cls))
    ensures var o := Obj(c.nextId, cls);
            Resolve(u, c, t, fuel)
            == (c.(instances := c.instances[Ref(t) := Some(o)], nextId := c.nextId + 1,
                   log := c.log + [Constructed(o, DefaultCtor, [])]),
                Returned(o))
  {
    var o := Obj(c.nextId, cls);
    DefaultConstructorResolves(u, c, [], t, fuel, cls);
    var after := AfterDefaultConstruction(u, c, t, cls, fuel - 1);
    assert after.classes == c.classes;
    assert after.instances == c.instances[Ref(t) := Some(o)];
    assert after == c.(instances := c.instances[Ref(t) := Some(o)], nextId := c.nextId + 1,
                       log := c.log + [Constructed(o, DefaultCtor, [])]);
  }

  /** Two resolves of a transient key whose lookup ends at a plain class
      give two new objects of that class, numbered in order. */
  lemma TransientTwice(u: Universe, c: Container, t: TypeKey, cls: TypeKey, fuel: nat)
    requires PlainClass(u, cls) && fuel > 0 && Ref(t) !in c.instances
    requires FindConcrete(u, c.classes, t, fuel - 1) == (c.classes, Returned(cls))
    ensures var first := Resolve(u, c, t, fuel);
            var second := Resolve(u, first.0, t, fuel);
            && first.1 == Returned(Obj(c.nextId, cls))
            && second.1 == Returned(Obj(c.nextId + 1, cls))
            && second.0.nextId == c.nextId + 2
  {
    PlainResolves(u, c, t, cls, fuel);
    var c1 := c.(nextId := c.nextId + 1, log := c.log + [Constructed(Obj(c.nextId, cls), DefaultCtor, [])]);
    PlainResolves(u, c1, t, cls, fuel);
  }

  /** Two resolves of a singleton key whose lookup ends at a plain class
      give one new object, and the second changes nothing. */
  lemma SingletonTwice(u: Universe, c: Container, t: TypeKey, cls: TypeKey, fuel: nat)
    requires PlainClass(u, cls) && fuel > 0 && Ref(t) in c.instances && c.instances[Ref(t)] == None
    requires FindConcrete(u, c.classes, t, fuel - 1) == (c.classes, Returned(cls))
    ensures var first := Resolve(u, c, t, fuel);
            var second := Resolve(u, first.0, t, fuel);
            && first.1 == Returned(Obj(c.nextId, cls))
            && second == first
            && first.0.nextId == c.nextId + 1
  {
    var o := Obj(c.nextId, cls);
    PlainSingletonResolves(u, c, t, cls, fuel);
    var c1 := c.(instances := c.instances[Ref(t) := Some(o)], nextId := c.nextId + 1,
                 log := c.log + [Constructed(o, DefaultCtor, [])]);
    CachedResolves(u, c1, [], t, fuel);
  }

  /** A concrete class registered as itself: two resolves give two objects
      of that class, one and the same exactly when it is a singleton. */
  lemma SingleClassScenario(u: Universe, c0: Container, singleton: bool, fuel: nat)
    requires PlainClass(u, ClassConstructorDefault)
    requires c0.classes == map[] && c0.instances == map[] && fuel > 1
    ensures RegisterSelf(u, c0, ClassConstructorDefault, singleton).Returned?
    ensures var c := RegisterSelf(u, c0, ClassConstructorDefault, singleton).value;
            var first := Resolve(u, c, ClassConstructorDefault, fuel);
            var second := Resolve(u, first.0, ClassConstructorDefault, fuel);
            && first.1.Returned? && second.1.Returned?
            && first.1.value.cls == second.1.value.cls == ClassConstructorDefault
            && (first.1.value == second.1.value <==> singleton)
  {
    var c := RegisterSelf(u, c0, ClassConstructorDefault, singleton).value;
    assert FindConcrete(u, c.classes, ClassConstructorDefault, fuel - 1) == (c.classes, Returned(ClassConstructorDefault));
    if singleton {
      SingletonTwice(u, c, ClassConstructorDefault, ClassConstructorDefault, fuel);
    } else {
      TransientTwice(u, c, ClassConstructorDefault, ClassConstructorDefault, fuel);
    }
  }

  /** An interface mapped to a class: two resolves give two objects of that
      class, one and the same exactly when it is a singleton. */
  lemma InterfaceScenario(u: Universe, c0: Container, singleton: bool, fuel: nat)
    requires PlainClass(u, ClassConstructorDefault)
    requires c0.classes == map[] && c0.instances == map[] && fuel > 1
    ensures var c := RegisterType(c0, InterfaceBasic, ClassConstructorDefault, singleton);
            var first := Resolve(u, c, InterfaceBasic, fuel);
            var second := Resolve(u, first.0, InterfaceBasic, fuel);
            && first.1.Returned? && second.1.Returned?
            && first.1.value.cls == second.1.value.cls == ClassConstructorDefault
            && (first.1.value == second.1.value <==> singleton)
  {
    var c := RegisterType(c0, InterfaceBasic, ClassConstructorDefault, singleton);
    assert FindConcrete(u, c.classes, InterfaceBasic, fuel - 1) == (c.classes, Returned(ClassConstructorDefault));
    if singleton {
      SingletonTwice(u, c, InterfaceBasic, ClassConstructorDefault, fuel);
    } else {
      TransientTwice(u, c, InterfaceBasic, ClassConstructorDefault, fuel);
    }
  }

  /** A key first registered as singleton and then re-registered as
      transient: the first two resolves share one object, the next two give
      two objects different from each other and from it. */
  lemma SingletonChangedScenario(u: Universe, c0: Container, key: TypeKey, fuel: nat)
    requires PlainClass(u, ClassConstructorDefault)
    requires c0.classes == map[] && c0.instances == map[] && fuel > 1
    ensures var c := RegisterType(c0, key, ClassConstructorDefault, true);
            var first := Resolve(u, c, key, fuel);
            var second := Resolve(u, first.0, key, fuel);
            var c' := RegisterType(second.0, key, ClassConstructorDefault, false);
            var third := Resolve(u, c', key, fuel);
            var fourth := Resolve(u, third.0, key, fuel);
            && first.1.Returned? && second.1 == first.1
            && third.1.Returned? && fourth.1.Returned?
            && third.1.value != fourth.1.value && third.1.value != first.1.value
  {
    var c := RegisterType(c0, key, ClassConstructorDefault, true);
    assert FindConcrete(u, c.classes, key, fuel - 1) == (c.classes, Returned(ClassConstructorDefault));
    SingletonTwice(u, c, key, ClassConstructorDefault, fuel);
    var first := Resolve(u, c, key, fuel);
    var c' := RegisterType(first.0, key, ClassConstructorDefault, false);
    assert FindConcrete(u, c'.classes, key, fuel - 1) == (c'.classes, Returned(ClassConstructorDefault));
    TransientTwice(u, c', key, ClassConstructorDefault, fuel);
  }

  /** A key mapped to a derived class, abstract or concrete itself,
      resolves to a new object of the derived class. */
  lemma DerivedScenario(u: Universe, c0: Container, key: TypeKey, derived: TypeKey, fuel: nat)
    requires PlainClass(u, derived) && IsReference(derived)
    requires c0.classes == map[] && c0.instances == map[] && fuel > 1
    ensures var c := RegisterTypeTransient(c0, key, derived);
            Resolve(u, c, key, fuel).1 == Returned(Obj(c0.nextId, derived))
  {
    var c := RegisterTypeTransient(c0, key, derived);
    assert FindConcrete(u, c.classes, key, fuel - 1).1 == Returned(derived);
    DefaultConstructorResolves(u, c, [], key, fuel, derived);
  }

  /** Interface to abstract class to concrete class: lookup follows both
      steps and the object is of the last class of the chain. */
  lemma TwoStepsScenario(u: Universe, c0: Container, fuel: nat)
    requires IsAbstractType(u, ClassBasicAbstract) && PlainClass(u, ClassBasicInheritsFromAbstract)
    requires c0.classes == map[] && c0.instances == map[] && fuel > 2
    ensures var c := RegisterTypeTransient(RegisterTypeTransient(c0, InterfaceBasic, ClassBasicAbstract),
                                           ClassBasicAbstract, ClassBasicInheritsFromAbstract);
            Resolve(u, c, InterfaceBasic, fuel).1 == Returned(Obj(c0.nextId, ClassBasicInheritsFromAbstract))
  {
    var c := RegisterTypeTransient(RegisterTypeTransient(c0, InterfaceBasic, ClassBasicAbstract),
                                   ClassBasicAbstract, ClassBasicInheritsFromAbstract);
    assert FindConcrete(u, c.classes, ClassBasicAbstract, fuel - 2).1 == Returned(ClassBasicInheritsFromAbstract);
    assert FindConcrete(u, c.classes, InterfaceBasic, fuel - 1).1 == Returned(ClassBasicInheritsFromAbstract);
    DefaultConstructorResolves(u, c, [], InterfaceBasic, fuel, ClassBasicInheritsFromAbstract);
  }

  /** ClassConstructorMultipleAnnotated has two annotated constructors. */
  lemma MultipleAnnotatedScenario(u: Universe, c: Container, fuel: nat)
    requires u(ClassConstructorMultipleAnnotated)
             == TypeDesc(false, [Ctor([], true, false), Ctor([StringType], true, false)], [])
    requires c.classes == map[] && c.instances == map[] && fuel > 1
    ensures Resolve(u, c, ClassConstructorMultipleAnnotated, fuel).1 == Threw(MultipleAnnotatedConstructors)
  {
    assert FindConcrete(u, c.classes, ClassConstructorMultipleAnnotated, fuel - 1).1
           == Returned(ClassConstructorMultipleAnnotated);
    AnnotatedCountPositive(u(ClassConstructorMultipleAnnotated).ctors, 1);
    MultipleAnnotatedFails(u, c, ClassConstructorMultipleAnnotated, fuel, ClassConstructorMultipleAnnotated);
  }

  /** ClassConstructorPrivate has no public constructor. */
  lemma NoPublicConstructorScenario(u: Universe, c: Container, fuel: nat)
    requires u(ClassConstructorPrivate) == TypeDesc(false, [], [])
    requires c.classes == map[] && c.instances == map[] && fuel > 1
    ensures Resolve(u, c, ClassConstructorPrivate, fuel).1 == Threw(NoSuitableConstructor)
  {
    assert FindConcrete(u, c.classes, ClassConstructorPrivate, fuel - 1).1 == Returned(ClassConstructorPrivate);
    NoConstructorFails(u, c, ClassConstructorPrivate, fuel, ClassConstructorPrivate);
  }

  /** A dependency method with a return type, or without parameters, fails
      the resolve after the object was constructed. */
  lemma IncorrectSetterScenario(u: Universe, c: Container, t: TypeKey, m: Method, fuel: nat)
    requires (t == ClassSetterIncorrectReturnType && m == Method([InterfaceBasic], false, true, false))
             || (t == ClassSetterWithoutParameters && m == Method([], true, true, false))
    requires u(t) == TypeDesc(false, [DefaultCtor], [m])
    requires c.classes == map[] && c.instances == map[] && fuel > 1
    ensures Resolve(u, c, t, fuel).1 == Threw(IncorrectDependencyMethod)
  {
    assert FindConcrete(u, c.classes, t, fuel - 1).1 == Returned(t);
    assert !IsCorrectAnnotatedMethod(u(t).methods[0]);
    IncorrectMethodFailsAfterConstruction(u, c, t, fuel, t);
  }

  lemma BasicSetterIsDependencyMethod()
    ensures DependencyMethods([BasicSetter]) == Returned([BasicSetter])
  {
    var ms := [BasicSetter];
    assert IsCorrectAnnotatedMethod(BasicSetter);
    assert ms[1..] == [];
    assert DependencyMethods(ms[1..]) == Returned([]);
    assert AnnotatedOnly(ms) == [BasicSetter];
  }

  /** A one-element parameter list resolves as its element does. */
  lemma SingleArg(u: Universe, c: Container, stack: seq<TypeKey>, p: TypeKey, fuel: nat,
                  c': Container, stack': seq<TypeKey>, o: Obj)
    requires ResolveType(u, c, stack, p, fuel) == Run(c', stack', Returned(o))
    ensures ResolveArgs(u, c, stack, [p], fuel) == Run(c', stack', Returned([o]))
  {
    var params := [p];
    assert params[1..] == [] && params[0] == p;
    assert ResolveArgs(u, c', stack', params[1..], fuel) == Run(c', stack', Returned([]));
    assert [o] + [] == [o];
  }

  /** A one-element method list is invoked as its element is. */
  lemma SingleInvocation(u: Universe, c: Container, stack: seq<TypeKey>, obj: Obj, m: Method, fuel: nat,
                         c': Container, stack': seq<TypeKey>, p: nat)
    requires ResolveMethod(u, c, stack, obj, m, fuel) == Run(c', stack', Returned(p))
    ensures InvokeMethods(u, c, stack, obj, [m], fuel) == Run(c', stack', Returned([p]))
  {
    var ms := [m];
    assert ms[1..] == [] && ms[0] == m;
    assert InvokeMethods(u, c', stack', obj, ms[1..], fuel) == Run(c', stack', Returned([]));
    assert [p] + [] == [p];
  }

  /** With InterfaceBasic mapped to ClassConstructorDefault, the setter's
      argument is a new ClassConstructorDefault object. */
  lemma SetterArgument(u: Universe, c: Container, stack: seq<TypeKey>, fuel: nat)
    requires PlainClass(u, ClassConstructorDefault)
    requires fuel >= 2
    requires InterfaceBasic in c.classes && c.classes[InterfaceBasic] == ClassConstructorDefault
    requires InterfaceBasic !in c.instances
    ensures var d := Obj(c.nextId, ClassConstructorDefault);
            ResolveArgs(u, c, stack, [InterfaceBasic], fuel)
            == Run(c.(nextId := c.nextId + 1, log := c.log + [Constructed(d, DefaultCtor, [])]), stack, Returned([d]))
  {
    var d := Obj(c.nextId, ClassConstructorDefault);
    assert FindConcrete(u, c.classes, InterfaceBasic, fuel - 1) == (c.classes, Returned(ClassConstructorDefault));
    DefaultConstructorResolves(u, c, stack, InterfaceBasic, fuel, ClassConstructorDefault);
    var after := AfterDefaultConstruction(u, c, InterfaceBasic, ClassConstructorDefault, fuel - 1);
    assert after.classes == c.classes;
    assert after.instances == c.instances;
    assert after == c.(nextId := c.nextId + 1, log := c.log + [Constructed(d, DefaultCtor, [])]);
    SingleArg(u, c, stack, InterfaceBasic, fuel, after, stack, d);
  }

  /** The setter call: one new ClassConstructorDefault object, then the
      invocation with it. */
  lemma SetterInvoked(u: Universe, c: Container, stack: seq<TypeKey>, obj: Obj, fuel: nat)
    requires PlainClass(u, ClassConstructorDefault)
    requires fuel >= 2
    requires InterfaceBasic in c.classes && c.classes[InterfaceBasic] == ClassConstructorDefault
    requires InterfaceBasic !in c.instances
    ensures var d := Obj(c.nextId, ClassConstructorDefault);
            ResolveMethod(u, c, stack, obj, BasicSetter, fuel)
            == Run(c.(nextId := c.nextId + 1,
                      log := c.log + [Constructed(d, DefaultCtor, []), Invoked(obj, BasicSetter, [d])]),
                   stack, Returned(|c.log| + 1))
  {
    var d := Obj(c.nextId, ClassConstructorDefault);
    SetterArgument(u, c, stack, fuel);
    var after := c.(nextId := c.nextId + 1, log := c.log + [Constructed(d, DefaultCtor, [])]);
    assert after.log + [Invoked(obj, BasicSetter, [d])]
           == c.log + [Constructed(d, DefaultCtor, []), Invoked(obj, BasicSetter, [d])];
  }

  /** Building up an object whose only dependency method is the
      InterfaceBasic setter, while InterfaceBasic is mapped to
      ClassConstructorDefault, constructs one ClassConstructorDefault
      object and passes it to the setter. */
  lemma SetterBuildUp(u: Universe, c: Container, stack: seq<TypeKey>, obj: Obj, fuel: nat)
    requires PlainClass(u, ClassConstructorDefault)
    requires u(obj.cls).methods == [BasicSetter]
    requires fuel >= 2
    requires InterfaceBasic in c.classes && c.classes[InterfaceBasic] == ClassConstructorDefault
    requires InterfaceBasic !in c.instances
    ensures var d := Obj(c.nextId, ClassConstructorDefault);
            BuildUpObject(u, c, stack, obj, fuel)
            == Run(c.(nextId := c.nextId + 1,
                      log := c.log + [Constructed(d, DefaultCtor, []), Invoked(obj, BasicSetter, [d])]),
                   stack, Returned([|c.log| + 1]))
  {
    var d := Obj(c.nextId, ClassConstructorDefault);
    var invoked := c.(nextId := c.nextId + 1,
                      log := c.log + [Constructed(d, DefaultCtor, []), Invoked(obj, BasicSetter, [d])]);
    SetterInvoked(u, c, stack, obj, fuel);
    SingleInvocation(u, c, stack, obj, BasicSetter, fuel, invoked, stack, |c.log| + 1);
    BasicSetterIsDependencyMethod();
  }

  /** Constructing through the one public parameterless constructor of a
      class that lookup reaches without changing anything. */
  lemma DefaultConstruction(u: Universe, c: Container, t: TypeKey, cls: TypeKey, fuel: nat)
    requires u(cls).ctors == [DefaultCtor] && fuel > 0 && Ref(t) !in c.instances
    requires FindConcrete(u, c.classes, t, fuel - 1) == (c.classes, Returned(cls))
    ensures ResolveConstructor(u, c, [], t, fuel - 1)
            == Run(c.(nextId := c.nextId + 1, log := c.log + [Constructed(Obj(c.nextId, cls), DefaultCtor, [])]),
                   [], Returned(Obj(c.nextId, cls)))
  {
    DefaultConstructorConstructs(u, c, [], t, fuel - 1, cls);
    var after := AfterDefaultConstruction(u, c, t, cls, fuel - 1);
    assert after.classes == c.classes;
    assert after.instances == c.instances;
    assert after == c.(nextId := c.nextId + 1, log := c.log + [Constructed(Obj(c.nextId, cls), DefaultCtor, [])]);
  }

  /** resolveType of a type without an object, once its construction and
      the build-up of the new object are known. */
  lemma ConstructedThenBuilt(u: Universe, c: Container, stack: seq<TypeKey>, t: TypeKey, fuel: nat,
                             c1: Container, stack1: seq<TypeKey>, o: Obj,
                             c2: Container, stack2: seq<TypeKey>, positions: seq<nat>)
    requires fuel > 0 && !HasInstance(c, t)
    ensures && ResolveConstructor(u, c, stack, t, fuel - 1) == Run(c1, stack1, Returned(o))
            && BuildUpObject(u, c1, stack1, o, fuel - 1) == Run(c2, stack2, Returned(positions))
            ==> ResolveType(u, c, stack, t, fuel) == Run(c2, stack2, Returned(o))
  {
    ResolveTypeConstructs(u, c, stack, t, fuel);
  }

  /** resolveConstructor of a concrete, unannotated class that lookup
      registers as itself: the candidates are tried in sorted order, and
      the outcome of the last one tried is returned with the front of the
      stack popped. */
  lemma TriesInOrder(u: Universe, c: Container, t: TypeKey, fuel: nat,
                     c': Container, st: seq<TypeKey>, out: Outcome<Obj>)
    requires !HasInstance(c, t) && IsReference(t) && t !in c.classes && !IsAbstractType(u, t) && fuel > 0
    requires |u(t).ctors| > 0 && AnnotatedCount(u(t).ctors) == 0
    requires |st| > 0 && !out.OutOfFuel? && t !in c'.instances
    ensures TryCandidates(u, c.(classes := c.classes[t := t]), [t], t, SortConstructors(u(t).ctors), fuel) == Run(c', st, out)
            ==> ResolveConstructor(u, c, [], t, fuel) == Run(c', st[1..], out)
  {
    if TryCandidates(u, c.(classes := c.classes[t := t]), [t], t, SortConstructors(u(t).ctors), fuel) == Run(c', st, out) {
      UnregisteredConcreteSelfMaps(u, c.classes, t, fuel);
      ResolveConstructorTries(u, c, [], t, fuel, t);
      assert [t] + [] == [t];
    }
  }

  /** resolveType of a type without an object, once its construction is
      known to fail. */
  lemma ConstructionFailed(u: Universe, c: Container, stack: seq<TypeKey>, t: TypeKey, fuel: nat, failed: Run<Obj>)
    requires fuel > 0 && !HasInstance(c, t) && failed.out.Threw?
    ensures ResolveConstructor(u, c, stack, t, fuel - 1) == failed ==> ResolveType(u, c, stack, t, fuel) == failed
  {
    if ResolveConstructor(u, c, stack, t, fuel - 1) == failed {
      ResolveTypeFails(u, c, stack, t, fuel);
    }
  }

  /** The two registrations of the setter test, InterfaceSetter to
      ClassSetterSingle and InterfaceBasic to ClassConstructorDefault, fill
      the class map with exactly those two entries. */
  lemma SetterRegistrations(c0: Container)
    requires c0.classes == map[] && c0.instances == map[]
    ensures var c := RegisterTypeTransient(RegisterTypeTransient(c0, InterfaceSetter, ClassSetterSingle),
                                           InterfaceBasic, ClassConstructorDefault);
            c == c0.(classes := map[InterfaceSetter := ClassSetterSingle, InterfaceBasic := ClassConstructorDefault])
  {
  }

  /** Lookup of InterfaceSetter stops after one step, at ClassSetterSingle. */
  lemma SetterLookup(u: Universe, classes: map<TypeKey, TypeKey>, fuel: nat)
    requires !IsAbstractType(u, ClassSetterSingle)
    requires classes == map[InterfaceSetter := ClassSetterSingle, InterfaceBasic := ClassConstructorDefault]
    requires fuel > 0
    ensures FindConcrete(u, classes, InterfaceSetter, fuel) == (classes, Returned(ClassSetterSingle))
  {
  }

  /** With InterfaceSetter mapped to ClassSetterSingle, constructing
      InterfaceSetter calls the parameterless ClassSetterSingle constructor. */
  lemma SetterConstructs(u: Universe, c: Container, fuel: nat)
    requires u(ClassSetterSingle) == TypeDesc(false, [DefaultCtor], [BasicSetter])
    requires c.classes == map[InterfaceSetter := ClassSetterSingle, InterfaceBasic := ClassConstructorDefault]
    requires c.instances == map[] && fuel >= 3
    ensures var o := Obj(c.nextId, ClassSetterSingle);
            ResolveConstructor(u, c, [], InterfaceSetter, fuel - 1)
            == Run(c.(nextId := c.nextId + 1, log := c.log + [Constructed(o, DefaultCtor, [])]), [], Returned(o))
  {
    SetterLookup(u, c.classes, fuel - 1);
    DefaultConstruction(u, c, InterfaceSetter, ClassSetterSingle, fuel);
  }

  /** The new ClassSetterSingle object is then built up: its setter receives
      a new ClassConstructorDefault object. */
  lemma SetterBuilt(u: Universe, c: Container, fuel: nat)
    requires u(ClassSetterSingle) == TypeDesc(false, [DefaultCtor], [BasicSetter])
    requires PlainClass(u, ClassConstructorDefault)
    requires c.classes == map[InterfaceSetter := ClassSetterSingle, InterfaceBasic := ClassConstructorDefault]
    requires c.instances == map[] && fuel >= 3
    ensures var o := Obj(c.nextId, ClassSetterSingle);
            var d := Obj(c.nextId + 1, ClassConstructorDefault);
            var after := c.(nextId := c.nextId + 1, log := c.log + [Constructed(o, DefaultCtor, [])]);
            BuildUpObject(u, after, [], o, fuel - 1)
            == Run(after.(nextId := after.nextId + 1,
                          log := after.log + [Constructed(d, DefaultCtor, []), Invoked(o, BasicSetter, [d])]),
                   [], Returned([|after.log| + 1]))
  {
    var o := Obj(c.nextId, ClassSetterSingle);
    SetterBuildUp(u, c.(nextId := c.nextId + 1, log := c.log + [Constructed(o, DefaultCtor, [])]), [], o, fuel - 1);
  }

  /** With InterfaceSetter mapped to ClassSetterSingle and InterfaceBasic to
      ClassConstructorDefault, InterfaceSetter resolves to a new
      ClassSetterSingle object whose setter received a new
      ClassConstructorDefault object. */
  lemma SetterTypeResolves(u: Universe, c: Container, fuel: nat)
    requires u(ClassSetterSingle) == TypeDesc(false, [DefaultCtor], [BasicSetter])
    requires PlainClass(u, ClassConstructorDefault)
    requires c.classes == map[InterfaceSetter := ClassSetterSingle, InterfaceBasic := ClassConstructorDefault]
    requires c.instances == map[] && fuel >= 3
    ensures var o := Obj(c.nextId, ClassSetterSingle);
            var d := Obj(c.nextId + 1, ClassConstructorDefault);
            ResolveType(u, c, [], InterfaceSetter, fuel)
            == Run(c.(nextId := c.nextId + 2,
                      log := c.log + [Constructed(o, DefaultCtor, []), Constructed(d, DefaultCtor, []),
                                      Invoked(o, BasicSetter, [d])]),
                   [], Returned(o))
  {
    var o := Obj(c.nextId, ClassSetterSingle);
    var d := Obj(c.nextId + 1, ClassConstructorDefault);
    var x, a, b := Constructed(o, DefaultCtor, []), Constructed(d, DefaultCtor, []), Invoked(o, BasicSetter, [d]);
    var after := c.(nextId := c.nextId + 1, log := c.log + [x]);
    var built := after.(nextId := after.nextId + 1, log := after.log + [a, b]);
    assert (c.log + [x]) + [a, b] == c.log + [x, a, b];
    ConstructedThenBuilt(u, c, [], InterfaceSetter, fuel, after, [], o, built, [], [|after.log| + 1]);
    SetterBuilt(u, c, fuel);
    SetterConstructs(u, c, fuel);
  }

  /** resolve is resolveType from an empty stack. */
  lemma ResolveOfType(u: Universe, c: Container, t: TypeKey, fuel: nat, c': Container, stack': seq<TypeKey>, o: Obj)
    ensures ResolveType(u, c, [], t, fuel) == Run(c', stack', Returned(o)) ==> Resolve(u, c, t, fuel) == (c', Returned(o))
  {
  }

  /** The same, through the public entry point resolve. */
  lemma SetterResolves(u: Universe, c: Container, fuel: nat)
    requires u(ClassSetterSingle) == TypeDesc(false, [DefaultCtor], [BasicSetter])
    requires PlainClass(u, ClassConstructorDefault)
    requires c.classes == map[InterfaceSetter := ClassSetterSingle, InterfaceBasic := ClassConstructorDefault]
    requires c.instances == map[] && fuel >= 3
    ensures var o := Obj(c.nextId, ClassSetterSingle);
            var d := Obj(c.nextId + 1, ClassConstructorDefault);
            Resolve(u, c, InterfaceSetter, fuel)
            == (c.(nextId := c.nextId + 2,
                   log := c.log + [Constructed(o, DefaultCtor, []), Constructed(d, DefaultCtor, []),
                                   Invoked(o, BasicSetter, [d])]),
                Returned(o))
  {
    var o := Obj(c.nextId, ClassSetterSingle);
    var d := Obj(c.nextId + 1, ClassConstructorDefault);
    ResolveOfType(u, c, InterfaceSetter, fuel,
                  c.(nextId := c.nextId + 2,
                     log := c.log + [Constructed(o, DefaultCtor, []), Constructed(d, DefaultCtor, []),
                                     Invoked(o, BasicSetter, [d])]),
                  [], o);
    SetterTypeResolves(u, c, fuel);
  }

  /** Setter injection: InterfaceSetter resolves to a new ClassSetterSingle
      object whose setter received a new ClassConstructorDefault object. */
  lemma SetterInjectionScenario(u: Universe, c0: Container, fuel: nat)
    requires u(ClassSetterSingle) == TypeDesc(false, [DefaultCtor], [BasicSetter])
    requires PlainClass(u, ClassConstructorDefault)
    requires c0.classes == map[] && c0.instances == map[] && fuel >= 3
    ensures var c := RegisterTypeTransient(RegisterTypeTransient(c0, InterfaceSetter, ClassSetterSingle),
                                           InterfaceBasic, ClassConstructorDefault);
            var o := Obj(c0.nextId, ClassSetterSingle);
            var d := Obj(c0.nextId + 1, ClassConstructorDefault);
            var r := Resolve(u, c, InterfaceSetter, fuel);
            && r.1 == Returned(o)
            && r.0.log == c0.log + [Constructed(o, DefaultCtor, []), Constructed(d, DefaultCtor, []),
                                    Invoked(o, BasicSetter, [d])]
  {
    var c := RegisterTypeTransient(RegisterTypeTransient(c0, InterfaceSetter, ClassSetterSingle), InterfaceBasic, ClassConstructorDefault);
    SetterRegistrations(c0);
    assert c.log == c0.log && c.nextId == c0.nextId;
    SetterResolves(u, c, fuel);
  }

  /** buildUp on an object the caller constructed: its setter receives a
      new ClassConstructorDefault object. */
  lemma BuildUpScenario(u: Universe, c0: Container, obj: Obj, fuel: nat)
    requires PlainClass(u, ClassConstructorDefault) && u(obj.cls).methods == [BasicSetter]
    requires c0.classes == map[] && c0.instances == map[] && fuel > 1
    ensures var c := RegisterTypeTransient(c0, InterfaceBasic, ClassConstructorDefault);
            var d := Obj(c0.nextId, ClassConstructorDefault);
            BuildUp(u, c, obj, fuel)
            == (c.(nextId := c0.nextId + 1, log := c0.log + [Constructed(d, DefaultCtor, []), Invoked(obj, BasicSetter, [d])]),
                Returned([|c0.log| + 1]))
  {
    SetterBuildUp(u, RegisterTypeTransient(c0, InterfaceBasic, ClassConstructorDefault), [], obj, fuel);
  }

  /** The two-parameter constructor of
      ClassConstructorNotAnnotatedWithDependency is tried first. */
  lemma FallbackOrder()
    ensures SortConstructors([LeftCtor, LeftAndStringCtor]) == [LeftAndStringCtor, LeftCtor]
    ensures AnnotatedCount([LeftCtor, LeftAndStringCtor]) == 0
  {
    var s := [LeftCtor, LeftAndStringCtor];
    AnnotatedCountZero(s);
    assert s[1..] == [LeftAndStringCtor] && s[1..][1..] == [];
    assert SortConstructors(s[1..]) == [LeftAndStringCtor];
  }

  /** The candidate loop: the two-parameter constructor fails for the
      missing dependency, leaving no trace, and the one-parameter
      constructor receives the registered object. */
  lemma FallbackTried(u: Universe, c: Container, fuel: nat)
    requires fuel > 0 && HasInstance(c, InterfaceDiamondLeft)
    requires NoDependencyMethods(u, c.instances[InterfaceDiamondLeft].value.cls)
    requires InterfaceBasicStringGetter !in c.instances && InterfaceBasicStringGetter !in c.classes
    ensures var t := ClassConstructorNotAnnotatedWithDependency;
            var x := c.instances[InterfaceDiamondLeft].value;
            var o := Obj(c.nextId, t);
            TryCandidates(u, c, [t], t, [LeftAndStringCtor, LeftCtor], fuel)
            == Run(c.(nextId := c.nextId + 1, log := c.log + [Constructed(o, LeftCtor, [x])]), [t], Returned(o))
  {
    var t := ClassConstructorNotAnnotatedWithDependency;
    var cands := [LeftAndStringCtor, LeftCtor];
    FailsForMissing(u, c, [t], fuel);
    assert CreateInstance(u, c, [t], t, LeftAndStringCtor, fuel) == Run(c, [t], Threw(MissingDependencies));
    UsesRegisteredLeft(u, c, [t], fuel);
    assert cands[0] == LeftAndStringCtor && cands[1..] == [LeftCtor];
    assert TryCandidates(u, c, [t], t, cands, fuel) == TryCandidates(u, c, [t], t, [LeftCtor], fuel);
  }

  /** The candidate loop as resolveConstructor runs it, once the class is
      registered as itself. */
  lemma FallbackCandidates(u: Universe, c: Container, x: Obj, fuel: nat)
    requires u(ClassConstructorNotAnnotatedWithDependency) == TypeDesc(false, [LeftCtor, LeftAndStringCtor], [])
    requires NoDependencyMethods(u, x.cls)
    requires c.instances == map[InterfaceDiamondLeft := Some(x)] && InterfaceBasicStringGetter !in c.classes && fuel > 0
    ensures var t := ClassConstructorNotAnnotatedWithDependency;
            var o := Obj(c.nextId, t);
            && AnnotatedCount(u(t).ctors) == 0
            && TryCandidates(u, c.(classes := c.classes[t := t]), [t], t, SortConstructors(u(t).ctors), fuel)
               == Run(c.(classes := c.classes[t := t], nextId := c.nextId + 1, log := c.log + [Constructed(o, LeftCtor, [x])]),
                      [t], Returned(o))
  {
    var t := ClassConstructorNotAnnotatedWithDependency;
    FallbackOrder();
    FallbackTried(u, c.(classes := c.classes[t := t]), fuel);
  }

  /** resolveConstructor of ClassConstructorNotAnnotatedWithDependency with
      only InterfaceDiamondLeft registered, as an object: the class is
      registered as itself and built by its one-parameter constructor. */
  lemma FallbackConstructs(u: Universe, c: Container, x: Obj, fuel: nat)
    requires u(ClassConstructorNotAnnotatedWithDependency) == TypeDesc(false, [LeftCtor, LeftAndStringCtor], [])
    requires NoDependencyMethods(u, x.cls)
    requires c.classes == map[] && c.instances == map[InterfaceDiamondLeft := Some(x)] && fuel > 0
    ensures var t := ClassConstructorNotAnnotatedWithDependency;
            var o := Obj(c.nextId, t);
            ResolveConstructor(u, c, [], t, fuel)
            == Run(c.(classes := c.classes[t := t], nextId := c.nextId + 1, log := c.log + [Constructed(o, LeftCtor, [x])]),
                   [], Returned(o))
  {
    var t := ClassConstructorNotAnnotatedWithDependency;
    var o := Obj(c.nextId, t);
    FallbackOrder();
    assert [t][1..] == [];
    TriesInOrder(u, c, t, fuel,
                 c.(classes := c.classes[t := t], nextId := c.nextId + 1, log := c.log + [Constructed(o, LeftCtor, [x])]),
                 [t], Returned(o));
    FallbackCandidates(u, c, x, fuel);
  }

  /** A class without annotated constructors whose first candidate, the
      two-parameter one, fails for its unregistered second parameter: the
      loop falls back to the one-parameter constructor, which receives the
      registered InterfaceDiamondLeft object. The fixture class exists in
      the test sources, but no test of this version resolves it. */
  lemma FallbackScenario(u: Universe, c0: Container, x: Obj, fuel: nat)
    requires u(ClassConstructorNotAnnotatedWithDependency) == TypeDesc(false, [LeftCtor, LeftAndStringCtor], [])
    requires NoDependencyMethods(u, x.cls)
    requires c0.classes == map[] && c0.instances == map[] && fuel > 1
    ensures RegisterInstance(c0, InterfaceDiamondLeft, Some(x)).Returned?
    ensures var c := RegisterInstance(c0, InterfaceDiamondLeft, Some(x)).value;
            var o := Obj(c0.nextId, ClassConstructorNotAnnotatedWithDependency);
            var r := Resolve(u, c, ClassConstructorNotAnnotatedWithDependency, fuel);
            && r.1 == Returned(o)
            && r.0.log == c0.log + [Constructed(o, LeftCtor, [x])]
  {
    var t := ClassConstructorNotAnnotatedWithDependency;
    var c := c0.(instances := map[InterfaceDiamondLeft := Some(x)]);
    assert RegisterInstance(c0, InterfaceDiamondLeft, Some(x)) == Returned(c);
    var o := Obj(c0.nextId, t);
    var c2 := c.(classes := c.classes[t := t], nextId := c.nextId + 1, log := c.log + [Constructed(o, LeftCtor, [x])]);
    FallbackConstructs(u, c, x, fuel - 1);
    BuildUpWithoutMethods(u, c2, [], o, fuel - 1);
    ConstructedThenBuilt(u, c, [], t, fuel, c2, [], o, c2, [], []);
  }

  /** The parameter list of the two-parameter candidate fails on its
      second, unregistered, parameter. */
  lemma FailsForMissing(u: Universe, c: Container, stack: seq<TypeKey>, fuel: nat)
    requires fuel > 0 && HasInstance(c, InterfaceDiamondLeft)
    requires NoDependencyMethods(u, c.instances[InterfaceDiamondLeft].value.cls)
    requires InterfaceDiamondLeft !in stack && InterfaceBasicStringGetter !in stack
    requires InterfaceBasicStringGetter !in c.instances && InterfaceBasicStringGetter !in c.classes
    ensures ResolveParams(u, c, stack, LeftAndStringCtor.params, fuel) == Run(c, stack, Threw(MissingDependencies))
  {
    var params := LeftAndStringCtor.params;
    CachedResolves(u, c, stack, InterfaceDiamondLeft, fuel);
    assert params[1..] == [InterfaceBasicStringGetter];
    assert ResolveParams(u, c, stack, params[1..], fuel) == Run(c, stack, Threw(MissingDependencies));
  }

  /** The parameter list of the one-parameter candidate is the registered
      object. */
  lemma UsesRegisteredLeft(u: Universe, c: Container, stack: seq<TypeKey>, fuel: nat)
    requires fuel > 0 && HasInstance(c, InterfaceDiamondLeft)
    requires NoDependencyMethods(u, c.instances[InterfaceDiamondLeft].value.cls)
    requires InterfaceDiamondLeft !in stack
    ensures ResolveParams(u, c, stack, LeftCtor.params, fuel)
            == Run(c, stack, Returned([c.instances[InterfaceDiamondLeft].value]))
  {
    var params := LeftCtor.params;
    CachedResolves(u, c, stack, InterfaceDiamondLeft, fuel);
    assert params[1..] == [];
    assert [c.instances[InterfaceDiamondLeft].value] + [] == [c.instances[InterfaceDiamondLeft].value];
  }

  /** The resolution of ClassCycleSecond as the parameter of
      ClassCycleFirst: its own parameter is already on the stack. */
  lemma InnerCycle(u: Universe, c: Container, fuel: nat)
    requires u(ClassCycleSecond) == TypeDesc(false, [Ctor([ClassCycleFirst], false, false)], [])
    requires c.classes == map[ClassCycleFirst := ClassCycleFirst, ClassCycleSecond := ClassCycleSecond]
    requires c.instances == map[] && fuel >= 2
    ensures ResolveType(u, c, [ClassCycleFirst], ClassCycleSecond, fuel) == Run(c, [ClassCycleFirst], Threw(CircularDependencies))
  {
    ConstructionFailed(u, c, [ClassCycleFirst], ClassCycleSecond, fuel, Run(c, [ClassCycleFirst], Threw(CircularDependencies)));
    InnerConstructorFails(u, c, fuel);
  }

  /** resolveConstructor of ClassCycleSecond while ClassCycleFirst is on the
      stack: its only constructor needs ClassCycleFirst. */
  lemma InnerConstructorFails(u: Universe, c: Container, fuel: nat)
    requires u(ClassCycleSecond) == TypeDesc(false, [Ctor([ClassCycleFirst], false, false)], [])
    requires c.classes == map[ClassCycleFirst := ClassCycleFirst, ClassCycleSecond := ClassCycleSecond]
    requires c.instances == map[] && fuel >= 2
    ensures ResolveConstructor(u, c, [ClassCycleFirst], ClassCycleSecond, fuel - 1) == Run(c, [ClassCycleFirst], Threw(CircularDependencies))
  {
    var inner := [ClassCycleSecond] + [ClassCycleFirst];
    assert FindConcrete(u, c.classes, ClassCycleSecond, fuel - 1) == (c.classes, Returned(ClassCycleSecond));
    SingleConstructorFails(u, c, [ClassCycleFirst], ClassCycleSecond, fuel - 1, ClassCycleSecond, c, CircularDependencies);
    ParameterOnStack(u, c, inner, ClassCycleSecond, u(ClassCycleSecond).ctors[0], fuel - 1);
  }

  /** A constructor whose first parameter is already on the stack fails as
      a cycle and changes nothing. */
  lemma ParameterOnStack(u: Universe, c: Container, stack: seq<TypeKey>, mapped: TypeKey, ctor: Ctor, fuel: nat)
    requires |ctor.params| > 0 && ctor.params[0] in stack
    ensures CreateInstance(u, c, stack, mapped, ctor, fuel) == Run(c, stack, Threw(CircularDependencies))
  {
    assert ResolveParams(u, c, stack, ctor.params, fuel) == Run(c, stack, Threw(CircularDependencies));
  }

  /** A constructor with one parameter, not on the stack and registered,
      fails exactly as the resolution of that parameter does. */
  lemma OnlyParameterFails(u: Universe, c: Container, stack: seq<TypeKey>, mapped: TypeKey, ctor: Ctor, fuel: nat,
                           c': Container, stack': seq<TypeKey>, e: Error)
    requires |ctor.params| == 1 && ctor.params[0] !in stack && Ref(ctor.params[0]) in c.classes
    ensures ResolveType(u, c, stack, Ref(ctor.params[0]), fuel) == Run(c', stack', Threw(e))
            ==> CreateInstance(u, c, stack, mapped, ctor, fuel) == Run(c', stack', Threw(e))
  {
  }

  /** The only constructor of ClassCycleFirst fails with the cycle found
      while resolving its parameter. */
  lemma OuterCycle(u: Universe, c: Container, fuel: nat)
    requires u(ClassCycleSecond) == TypeDesc(false, [Ctor([ClassCycleFirst], false, false)], [])
    requires c.classes == map[ClassCycleFirst := ClassCycleFirst, ClassCycleSecond := ClassCycleSecond]
    requires c.instances == map[] && fuel >= 2
    ensures CreateInstance(u, c, [ClassCycleFirst], ClassCycleFirst, Ctor([ClassCycleSecond], false, false), fuel)
            == Run(c, [ClassCycleFirst], Threw(CircularDependencies))
  {
    assert Ref(ClassCycleSecond) == ClassCycleSecond;
    OnlyParameterFails(u, c, [ClassCycleFirst], ClassCycleFirst, Ctor([ClassCycleSecond], false, false), fuel,
                       c, [ClassCycleFirst], CircularDependencies);
    InnerCycle(u, c, fuel);
  }

  lemma CycleLookup(u: Universe, classes: map<TypeKey, TypeKey>, fuel: nat)
    requires !IsAbstractType(u, ClassCycleFirst)
    requires classes == map[ClassCycleFirst := ClassCycleFirst, ClassCycleSecond := ClassCycleSecond]
    requires fuel > 0
    ensures FindConcrete(u, classes, ClassCycleFirst, fuel) == (classes, Returned(ClassCycleFirst))
  {
  }

  /** resolveConstructor of ClassCycleFirst: its only constructor fails
      with the cycle, and the pop restores the stack. */
  lemma CycleConstructorFails(u: Universe, c: Container, fuel: nat)
    requires u(ClassCycleFirst) == TypeDesc(false, [Ctor([ClassCycleSecond], false, false)], [])
    requires u(ClassCycleSecond) == TypeDesc(false, [Ctor([ClassCycleFirst], false, false)], [])
    requires c.classes == map[ClassCycleFirst := ClassCycleFirst, ClassCycleSecond := ClassCycleSecond]
    requires c.instances == map[] && fuel >= 3
    ensures ResolveConstructor(u, c, [], ClassCycleFirst, fuel - 1) == Run(c, [], Threw(CircularDependencies))
  {
    CycleLookup(u, c.classes, fuel - 1);
    assert [ClassCycleFirst] + [] == [ClassCycleFirst];
    SingleConstructorFails(u, c, [], ClassCycleFirst, fuel - 1, ClassCycleFirst, c, CircularDependencies);
    OuterCycle(u, c, fuel - 1);
  }

  /** ClassCycleFirst, whose parameter needs it in turn, fails with the
      cycle and leaves the container and the stack as they were. */
  lemma CycleFails(u: Universe, c: Container, fuel: nat)
    requires u(ClassCycleFirst) == TypeDesc(false, [Ctor([ClassCycleSecond], false, false)], [])
    requires u(ClassCycleSecond) == TypeDesc(false, [Ctor([ClassCycleFirst], false, false)], [])
    requires c.classes == map[ClassCycleFirst := ClassCycleFirst, ClassCycleSecond := ClassCycleSecond]
    requires c.instances == map[] && fuel >= 3
    ensures ResolveType(u, c, [], ClassCycleFirst, fuel) == Run(c, [], Threw(CircularDependencies))
  {
    CycleConstructorFails(u, c, fuel);
    ConstructionFailed(u, c, [], ClassCycleFirst, fuel, Run(c, [], Threw(CircularDependencies)));
  }

  /** Two classes that need each other: the resolve fails with
      CircularDependenciesException, constructs nothing and unwinds the
      stack completely. */
  lemma CircularScenario(u: Universe, c0: Container, fuel: nat)
    requires u(ClassCycleFirst) == TypeDesc(false, [Ctor([ClassCycleSecond], false, false)], [])
    requires u(ClassCycleSecond) == TypeDesc(false, [Ctor([ClassCycleFirst], false, false)], [])
    requires c0.classes == map[] && c0.instances == map[]
    requires fuel >= 3
    ensures var c := RegisterTypeTransient(RegisterTypeTransient(c0, ClassCycleFirst, ClassCycleFirst),
                                           ClassCycleSecond, ClassCycleSecond);
            ResolveType(u, c, [], ClassCycleFirst, fuel) == Run(c, [], Threw(CircularDependencies))
  {
    var c := c0.(classes := map[ClassCycleFirst := ClassCycleFirst, ClassCycleSecond := ClassCycleSecond]);
    assert RegisterTypeTransient(RegisterTypeTransient(c0, ClassCycleFirst, ClassCycleFirst),
                                 ClassCycleSecond, ClassCycleSecond) == c;
    CycleFails(u, c, fuel);
  }

  /** The two-parameter constructor of ClassTwoBasicConstructors is tried
      first. */
  lemma LeftoverOrder()
    ensures SortConstructors([BasicCtor, BasicAndStringCtor]) == [BasicAndStringCtor, BasicCtor]
    ensures AnnotatedCount([BasicCtor, BasicAndStringCtor]) == 0
  {
    var s := [BasicCtor, BasicAndStringCtor];
    AnnotatedCountZero(s);
    assert s[1..] == [BasicAndStringCtor] && s[1..][1..] == [];
    assert SortConstructors(s[1..]) == [BasicAndStringCtor];
  }

  /** InterfaceBasic, mapped to an abstract class with no mapping of its
      own, fails lookup and leaves its entry on the stack. */
  lemma AbstractParameterFails(u: Universe, c: Container, stack: seq<TypeKey>, fuel: nat)
    requires IsAbstractType(u, ClassBasicAbstract)
    requires InterfaceBasic in c.classes && c.classes[InterfaceBasic] == ClassBasicAbstract
    requires ClassBasicAbstract !in c.classes && InterfaceBasic !in c.instances && fuel > 2
    ensures ResolveType(u, c, stack, InterfaceBasic, fuel) == Run(c, [InterfaceBasic] + stack, Threw(AbstractType))
  {
    assert FindConcrete(u, c.classes, InterfaceBasic, fuel - 1) == (c.classes, Threw(AbstractType));
    assert c.(classes := c.classes) == c;
    assert ResolveConstructor(u, c, stack, InterfaceBasic, fuel - 1) == Run(c, [InterfaceBasic] + stack, Threw(AbstractType));
    ResolveTypeFails(u, c, stack, InterfaceBasic, fuel);
  }

  /** The candidate loop of ClassTwoBasicConstructors: the first candidate
      fails for the abstract type and leaves InterfaceBasic on the stack, so
      the second finds its parameter there. */
  lemma LeftoverCandidates(u: Universe, c: Container, fuel: nat)
    requires IsAbstractType(u, ClassBasicAbstract)
    requires InterfaceBasic in c.classes && c.classes[InterfaceBasic] == ClassBasicAbstract
    requires ClassBasicAbstract !in c.classes && InterfaceBasic !in c.instances && fuel > 2
    ensures var t := ClassTwoBasicConstructors;
            TryCandidates(u, c, [t], t, [BasicAndStringCtor, BasicCtor], fuel)
            == Run(c, [InterfaceBasic, t], Threw(CircularDependencies))
  {
    var t := ClassTwoBasicConstructors;
    var left := [InterfaceBasic, t];
    AbstractParameterFails(u, c, [t], fuel);
    assert [InterfaceBasic] + [t] == left;
    assert BasicAndStringCtor.params[0] !in [t];
    assert ResolveParams(u, c, [t], BasicAndStringCtor.params, fuel) == Run(c, left, Threw(AbstractType));
    assert CreateInstance(u, c, [t], t, BasicAndStringCtor, fuel) == Run(c, left, Threw(AbstractType));
    assert BasicCtor.params[0] in left;
    assert CreateInstance(u, c, left, t, BasicCtor, fuel) == Run(c, left, Threw(CircularDependencies));
    var cands := [BasicAndStringCtor, BasicCtor];
    assert cands[0] == BasicAndStringCtor && cands[1..] == [BasicCtor];
    assert TryCandidates(u, c, [t], t, cands, fuel) == TryCandidates(u, c, left, t, [BasicCtor], fuel);
  }

  lemma LeftoverSorted(u: Universe, c: Container, fuel: nat)
    requires u(ClassTwoBasicConstructors) == TypeDesc(false, [BasicCtor, BasicAndStringCtor], [])
    requires IsAbstractType(u, ClassBasicAbstract)
    requires c.classes == map[InterfaceBasic := ClassBasicAbstract] && c.instances == map[] && fuel > 2
    ensures var t := ClassTwoBasicConstructors;
            && AnnotatedCount(u(t).ctors) == 0
            && TryCandidates(u, c.(classes := c.classes[t := t]), [t], t, SortConstructors(u(t).ctors), fuel)
               == Run(c.(classes := c.classes[t := t]), [InterfaceBasic, t], Threw(CircularDependencies))
  {
    var t := ClassTwoBasicConstructors;
    LeftoverOrder();
    LeftoverCandidates(u, c.(classes := c.classes[t := t]), fuel);
  }

  /** resolveConstructor of ClassTwoBasicConstructors: registered as itself,
      it fails with the cycle its second candidate found, and the stack
      keeps the entry the first candidate's failed lookup left behind. */
  lemma LeftoverTries(u: Universe, c: Container, fuel: nat)
    requires u(ClassTwoBasicConstructors) == TypeDesc(false, [BasicCtor, BasicAndStringCtor], [])
    requires IsAbstractType(u, ClassBasicAbstract)
    requires c.classes == map[InterfaceBasic := ClassBasicAbstract] && c.instances == map[] && fuel > 2
    ensures var t := ClassTwoBasicConstructors;
            ResolveConstructor(u, c, [], t, fuel) == Run(c.(classes := c.classes[t := t]), [t], Threw(CircularDependencies))
  {
    var t := ClassTwoBasicConstructors;
    LeftoverOrder();
    assert [InterfaceBasic, t][1..] == [t];
    TriesInOrder(u, c, t, fuel, c.(classes := c.classes[t := t]), [InterfaceBasic, t], Threw(CircularDependencies));
    LeftoverSorted(u, c, fuel);
  }

  /** A failed lookup inside a nested resolution leaves its type on the
      stack, so the next candidate, which needs the same type, fails as a
      cycle rather than for the abstract type; the final pop removes the
      leftover entry and leaves the outer type on the returned stack. */
  lemma LeftoverEntryScenario(u: Universe, c0: Container, fuel: nat)
    requires u(ClassTwoBasicConstructors) == TypeDesc(false, [BasicCtor, BasicAndStringCtor], [])
    requires IsAbstractType(u, ClassBasicAbstract)
    requires c0.classes == map[] && c0.instances == map[] && fuel > 3
    ensures var c := RegisterTypeTransient(c0, InterfaceBasic, ClassBasicAbstract);
            var t := ClassTwoBasicConstructors;
            ResolveType(u, c, [], t, fuel) == Run(c.(classes := c.classes[t := t]), [t], Threw(CircularDependencies))
  {
    var t := ClassTwoBasicConstructors;
    var c := c0.(classes := map[InterfaceBasic := ClassBasicAbstract]);
    assert RegisterTypeTransient(c0, InterfaceBasic, ClassBasicAbstract) == c;
    ConstructionFailed(u, c, [], t, fuel, Run(c.(classes := c.classes[t := t]), [t], Threw(CircularDependencies)));
    LeftoverTries(u, c, fuel - 1);
  }

  /** The constructors of the comparator fixture: an annotated one with
      three parameters and unannotated ones with zero to five. */
  const Params0: seq<TypeKey> := []
  const Params1 := [StringType]
  const Params2 := [StringType, StringType]
  const Params3 := [StringType, StringType, StringType]
  const Params4 := [StringType, StringType, StringType, StringType]
  const Params5 := [StringType, StringType, StringType, StringType, StringType]

  const ComparatorFixture := [Ctor(Params0, false, false), Ctor(Params1, false, false), Ctor(Params2, false, false),
                              Ctor(Params3, true, false), Ctor(Params4, false, false), Ctor(Params5, false, false)]

  /** The order the comparator test expects. */
  const ComparatorExpected := [Ctor(Params3, true, false), Ctor(Params5, false, false), Ctor(Params4, false, false),
                               Ctor(Params2, false, false), Ctor(Params1, false, false), Ctor(Params0, false, false)]

  lemma ExpectedIsSorted()
    ensures Sorted(ComparatorExpected)
  {
    var e := ComparatorExpected;
    assert |Params0| == 0 && |Params1| == 1 && |Params2| == 2;
    assert |Params3| == 3 && |Params4| == 4 && |Params5| == 5;
    forall i, j | 0 <= i < j < |e| ensures Precedes(e[i], e[j]) {
      assert i == 0 || (!e[i].annotated && !e[j].annotated && |e[i].params| > |e[j].params|);
    }
  }

  lemma ExpectedIsPermutation()
    ensures multiset(ComparatorExpected) == multiset(ComparatorFixture)
  {
  }

  /** No two different constructors of the fixture compare equal. */
  lemma ExpectedIsStrict()
    ensures forall x, y :: x in ComparatorExpected && y in ComparatorExpected && Compare(x, y) == 0 ==> x == y
  {
    var e := ComparatorExpected;
    assert |Params0| == 0 && |Params1| == 1 && |Params2| == 2;
    assert |Params3| == 3 && |Params4| == 4 && |Params5| == 5;
    forall x, y | x in e && y in e && Compare(x, y) == 0 ensures x == y {
      assert x.annotated == y.annotated && |x.params| == |y.params|;
      assert x.annotated ==> x == Ctor(Params3, true, false);
      assert y.annotated ==> y == Ctor(Params3, true, false);
    }
  }

  /** Strictness carries over to any arrangement of the same constructors. */
  lemma SameElementsStrict(a: seq<Ctor>, b: seq<Ctor>)
    requires multiset(a) == multiset(b)
    requires forall x, y :: x in b && y in b && Compare(x, y) == 0 ==> x == y
    ensures forall x, y :: x in a && y in a && Compare(x, y) == 0 ==> x == y
  {
    forall x, y | x in a && y in a && Compare(x, y) == 0 ensures x == y {
      assert x in multiset(b) && y in multiset(b);
    }
  }

  /** Whatever order reflection lists the six constructors in, sorting puts
      the annotated one first and the rest by parameter count, largest
      first. */
  lemma ComparatorScenario(listed: seq<Ctor>)
    requires multiset(listed) == multiset(ComparatorFixture)
    ensures SortConstructors(listed) == ComparatorExpected
    ensures Compare(Ctor(Params3, true, false), Ctor(Params4, false, false)) == -1
    ensures Compare(Ctor(Params2, false, false), Ctor(Params5, false, false)) == 1
  {
    var e := ComparatorExpected;
    var sorted := SortConstructors(listed);
    ExpectedIsSorted();
    ExpectedIsPermutation();
    ExpectedIsStrict();
    SameElementsStrict(sorted, e);
    SortedUnique(sorted, e);
    assert |Params2| == 2 && |Params3| == 3 && |Params4| == 4 && |Params5| == 5;
  }
}
