# DIContainer resolution engine in Dafny

This project models the core of `DIContainer`, a small dependency-injection
container for Java. The container supports three kinds of registration:

- a type mapped to the type it is resolved as (`registerType`), either
  transient or singleton;
- a concrete class registered as itself;
- a ready-made object (`registerInstance`).

`resolve(cls)` returns an object for a type. `buildUp(obj)` fills the
dependency methods of an existing object. Resolution:

1. follows the registrations down to a concrete class, registering
   unregistered concrete classes as themselves on the way;
2. sorts that class's public constructors;
3. tries them in order, resolving every constructor parameter recursively;
4. calls every `@DependencyMethod` of the new object with recursively
   resolved arguments.

A stack of the types under construction detects cycles. A singleton keeps
the first object built for it.

The model has no reflection. A *descriptor table* `u: TypeKey -> TypeDesc`
takes its place. For every type, the table says:

- whether the type is abstract (an interface or an abstract class);
- its public constructors: parameter types, `@DependencyConstructor`
  annotation, and whether the constructor body throws;
- its public methods: parameter types, whether the return type is void,
  the `@DependencyMethod` annotation, and whether invocation throws.

Objects are `Obj(id, cls)` values with fresh ids. The container keeps a log
of every constructor and dependency-method call with its arguments. This
lets contracts say what was built, in which order, and with what.

Every operation is a pure function. It takes and returns the container and
the resolution stack, because the source mutates both in place and an
exception does not undo those mutations. The source's recursion is not
bounded: a chain of dependency methods or registered objects can recurse
forever. The lookup loop of `findRegisteredConcreteClass` (:265-276) can
also circle forever, without any recursion, when the class map holds a
cycle of abstract types; the two-argument `registerType` accepts such a
cycle, because it checks nothing about abstractness
(`Registry.AbstractCycleLoops`). So the engine carries a `fuel` argument,
and a computation that needs more nested resolutions or lookup steps than
that ends in `OutOfFuel`. `OutOfFuel` stands for the stack overflow or the
endless lookup loop, and nothing catches either.

Modules:

- `Types`: type keys; boxing of the eight primitive types into their
  wrapper classes (`changeToReferenceType`).
- `Descriptors`: the descriptor table; `isAbstractType`;
  `isCorrectAnnotatedMethod`.
- `ConstructorOrder`: the constructor comparator and the stable sort.
- `Registry`: container state, the `registerType` / `registerInstance`
  overloads, and the concrete-class lookup `findRegisteredConcreteClass`.
- `Resolver`: `resolveType`, `resolveConstructor`, `createInstance`,
  `buildUpObject`, `resolveMethod`.
- `DIContainer`: the public `resolve` and `buildUp`, plus general lemmas
  about them.
- `Candidates`: the candidate loop of `resolveConstructor` told as a
  sequence of attempts: which candidate is tried from which state, and
  whose outcome is reported.
- `Parameters`: the parameter loops of `createInstance` and
  `resolveMethod`, parameter by parameter.
- `Scenarios`: the end-to-end cases of the container's test suite and the
  comparator's test. Each is stated for every descriptor table in which
  the fixture classes look as the `requires` clauses describe them.

### Fixtures

Most fixture classes of the test suite are not part of this model. Their
descriptors in `Scenarios` are assumptions that follow the test names and
the outcomes the tests expect, not transcriptions of their sources.
`ClassConstructorMultipleAnnotated` follows the fixture
`ClassConstructorsMultipleAnnotated` of another version of the test suite.
Three classes are made up for this model and are not fixtures at all:
`ClassCycleFirst` and `ClassCycleSecond`, used by
`Scenarios.CircularScenario`, and `ClassTwoBasicConstructors`, used by
`Scenarios.LeftoverEntryScenario`. `Scenarios.FallbackScenario` uses the
fixture `ClassConstructorNotAnnotatedWithDependency`, which no test of this
version resolves.

### The resolution stack on failure

One might expect the resolution stack to be popped whenever a frame is left,
on success or on failure. The code does not do that:
`resolveConstructor` pushes the type at `DIContainer.java:138` and pops it
only at :162 and :170. Three failures exit between the push and the first
pop, and each one leaves the type on the stack:

- the lookup failure (`AbstractTypeException` from :140);
- the constructor-list failure (:141);
- the multiple-annotated failure (:147).

`createInstance` catches the exception at :239-243 and goes on to the next
candidate, so the leftover entry is still on the stack at that point. If a
later candidate needs the same type, it then fails as a cycle instead of
with the real error (`Scenarios.LeftoverEntryScenario`). Also,
`removeFirst` at :162/:170 removes the leftover entry rather than the
frame's own type. The model follows the code:
`DIContainer.LookupFailureLeavesEntry` and
`DIContainer.ConstructorCheckLeavesEntry` state the leftover entry, and every
`Frame` contract says only that the caller's stack is kept intact *beneath*
whatever a call leaves on top.

The test suite was written for a later version of the container. In that
version, registration calls return the container, and the exception for
dependency methods is named `IncorrectDependencySetterException`. The
scenarios map those tests onto the API and exceptions of
`DIContainer.java` (`IncorrectDependencyMethodException`).

## Model

| member | source | states |
|---|---|---|
| Types.Ref | src/ref_humbold/di_container/DIContainer.java:89-116 | the result is always a reference type; a primitive becomes a wrapper that boxes it; a reference type is left as it is |
| Types.RefIdempotent | src/ref_humbold/di_container/DIContainer.java:89-116 | converting to the reference type twice gives the same as once |
| Types.SameKey | src/ref_humbold/di_container/DIContainer.java:89-116 | two types share a map key exactly when they are equal or one is the primitive the other boxes |
| Types.WrapperNameInjective | src/ref_humbold/di_container/DIContainer.java:91-113 | distinct primitives box to distinct wrapper classes |
| Registry.RegisterType | src/ref_humbold/di_container/DIContainer.java:47-55 | the key maps to the target type, both in reference form, and nothing else changes in `classes`; a singleton gets an empty cache slot; a transient registration removes any cached or registered object of that key; all other `instances` entries are kept |
| Registry.RegisterTypeTransient | src/ref_humbold/di_container/DIContainer.java:42-45 | the two-argument overload is a transient registration: the key is mapped and has no `instances` entry afterwards |
| Registry.RegisterSelf | src/ref_humbold/di_container/DIContainer.java:33-40 | self-registration throws AbstractTypeException exactly when the type is abstract; otherwise the type maps to itself, and it has an `instances` slot exactly when it is a singleton |
| Registry.RegisterSelfTransient | src/ref_humbold/di_container/DIContainer.java:27-31 | the one-argument overload fails exactly for abstract types and otherwise registers a transient self-mapping |
| Registry.RegisterInstance | src/ref_humbold/di_container/DIContainer.java:57-63 | throws NullInstanceException exactly for `null`; otherwise the object is stored under the key in reference form, and every other entry and the type map are unchanged |
| Registry.FindConcrete | src/ref_humbold/di_container/DIContainer.java:260-279 | lookup only adds self-mappings of new keys; a success is a concrete type recorded in the map; the only exception is AbstractTypeException, and a failed lookup leaves the map as it was; keys stay in reference form |
| Registry.FindConcreteReturnWalks | src/ref_humbold/di_container/DIContainer.java:260-279 | a successful lookup follows the type map from the requested type through abstract types only, one entry per step, to the concrete type it returns |
| Registry.FindConcreteThrowWalks | src/ref_humbold/di_container/DIContainer.java:260-279 | a failed lookup leaves the map unchanged and follows it from the requested type to an abstract type that has no entry of its own |
| Registry.WalkFindsConcrete | src/ref_humbold/di_container/DIContainer.java:260-279 | conversely, a walk through the map that ends at a concrete type is what lookup returns, given fuel for its length |
| Registry.WalkFindsUnregisteredAbstract | src/ref_humbold/di_container/DIContainer.java:267-270 | conversely, a walk that ends at an unregistered abstract type makes lookup throw AbstractTypeException and keep the map |
| Registry.FindConcreteIdempotent | src/ref_humbold/di_container/DIContainer.java:260-279 | a second lookup on the map the first one produced gives the same type and map |
| Registry.UnregisteredConcreteSelfMaps | src/ref_humbold/di_container/DIContainer.java:271-274 | a concrete type without an entry is registered as itself by the lookup and returned |
| Registry.SelfMappedAbstractLoops | src/ref_humbold/di_container/DIContainer.java:265-276 | an abstract type mapped to itself makes the lookup loop forever: it neither returns nor throws, for any amount of fuel |
| Registry.AbstractCycleLoops | src/ref_humbold/di_container/DIContainer.java:265-276 | two abstract types mapped to each other make the lookup loop forever as well, with the map unchanged |
| ConstructorOrder.CompareIsConsistent | test/dicontainer/resolver/ConstructorComparatorTest.java:47-70 | the comparator answers -1, 0 or 1; it is antisymmetric and transitive; it puts a constructor first exactly when only it is annotated, or both agree on the annotation and it has more parameters |
| ConstructorOrder.Insert | src/ref_humbold/di_container/DIContainer.java:143 | one insertion step of the sort keeps the elements, their number and the number of annotated ones |
| ConstructorOrder.InsertSorted | src/ref_humbold/di_container/DIContainer.java:143 | inserting into a sorted list keeps it sorted |
| ConstructorOrder.SortConstructors | src/ref_humbold/di_container/DIContainer.java:143 | the sorted constructors are a permutation of the input, ordered by the comparator |
| ConstructorOrder.AnnotatedFirst | src/ref_humbold/di_container/DIContainer.java:143-158 | after sorting, an annotated constructor, if there is one, is the first candidate |
| ConstructorOrder.SecondAnnotatedIffMultiple | src/ref_humbold/di_container/DIContainer.java:145-148 | the second sorted constructor is annotated exactly when two or more constructors are annotated, so this check is the multiple-annotation rule |
| ConstructorOrder.SortedUnique | src/ref_humbold/di_container/DIContainer.java:143 | two sorted arrangements of the same constructors are equal when no two distinct ones compare equal |
| ConstructorOrder.AnnotatedCountPositive | src/ref_humbold/di_container/DIContainer.java:145-148 | an annotated constructor makes the annotated count positive; an annotated head together with another annotated constructor makes it at least two |
| Resolver.DependencyMethods | src/ref_humbold/di_container/DIContainer.java:196-206 | the first loop throws IncorrectDependencyMethodException exactly when some annotated method is not void or has no parameters; otherwise it yields the annotated methods in enumeration order |
| Resolver.ResolveType | src/ref_humbold/di_container/DIContainer.java:119-133 | a registered or cached object is returned as it is; otherwise the result is a new object of the concrete class that lookup reaches; every dependency method of the returned object was invoked on it, in order, during the call, and a new object was constructed before its first invocation; a singleton slot holds the result afterwards; the container only evolves and the caller's stack is kept |
| Resolver.ResolveConstructor | src/ref_humbold/di_container/DIContainer.java:135-173 | a success is a fresh object of the concrete class lookup finds, constructed by one of that class's constructors as the last logged event, and it is cached when the key has a singleton slot; the caller's stack is kept |
| Resolver.Finish | src/ref_humbold/di_container/DIContainer.java:160-172 | after a success or a failure the stack loses its front entry; a failure is rethrown unchanged with nothing else changed; a success is stored in the singleton slot and otherwise changes nothing; the caller's frame survives the pop |
| Resolver.TryCandidates | src/ref_humbold/di_container/DIContainer.java:150-158 | a success is a fresh object of the mapped class whose construction by one of the candidates is the last logged event; if the first candidate is annotated, or is the only one, its outcome is final with no fallback |
| Resolver.CreateInstance | src/ref_humbold/di_container/DIContainer.java:212-257 | a success is a new object, with the next id, of the mapped class, built by this constructor with one argument per parameter as the last logged event; a constructor whose body throws never yields an object, and once its arguments resolved the candidate fails with DIException |
| Resolver.ResolveParams | src/ref_humbold/di_container/DIContainer.java:216-245 | resolved arguments, one per parameter; the frame is kept |
| Resolver.BuildUpObject | src/ref_humbold/di_container/DIContainer.java:193-210 | an incorrect dependency method fails the build-up before anything happens; a success invokes every annotated method on the object in enumeration order, with one argument per parameter |
| Resolver.InvokeMethods | src/ref_humbold/di_container/DIContainer.java:208-209 | the validated methods are invoked in order at increasing log positions |
| Resolver.ResolveMethod | src/ref_humbold/di_container/DIContainer.java:175-191 | a success is an invocation of this method on this object, logged with one argument per parameter; a method whose invocation throws never succeeds, and once its arguments resolved the call fails with DIException |
| Resolver.ResolveArgs | src/ref_humbold/di_container/DIContainer.java:180-181 | one resolved argument per parameter type |
| Candidates.StopIndex | src/ref_humbold/di_container/DIContainer.java:150-158 | the last candidate the loop can reach is the first annotated one, or the last one when none is annotated |
| Candidates.TryCandidatesInOrder | src/ref_humbold/di_container/DIContainer.java:150-158 | the candidates are tried in order, each from the state the previous failure left; the loop reports the outcome of the first candidate that does not fail, or of the last one it may reach |
| Candidates.TryCandidatesThrowsLast | src/ref_humbold/di_container/DIContainer.java:150-158 | a failure of the loop is the failure of the last reachable candidate, tried after every earlier one failed |
| Parameters.ParameterChecks | src/ref_humbold/di_container/DIContainer.java:216-245 | once the first parameters resolved, the next one fails as a cycle when it is on the stack, as missing when neither map has it, and otherwise passes on its nested resolution's failure or becomes the argument in its position |
| Parameters.RegisteredParameters | src/ref_humbold/di_container/DIContainer.java:216-245 | when every parameter has a registered object without dependency methods and none is on the stack, createInstance's arguments are exactly those objects and nothing else changes |
| Parameters.RegisteredArguments | src/ref_humbold/di_container/DIContainer.java:180-181 | when every parameter has a registered object without dependency methods, resolveMethod's arguments are exactly those objects and nothing else changes |
| DIContainer.Resolve | src/ref_humbold/di_container/DIContainer.java:65-71 | resolve returns the registered or cached object, or a new object of the concrete class lookup reaches; every dependency method of the result was invoked on it in order, after its construction when it is new; it fills a singleton slot; it only adds self-mappings of concrete types to the class map and never adds or removes an `instances` key |
| DIContainer.BuildUp | src/ref_humbold/di_container/DIContainer.java:73-77 | buildUp fails, and changes nothing, on an incorrect dependency method; otherwise it invokes the dependency methods in order |
| DIContainer.TransientResolvesDistinct | src/ref_humbold/di_container/DIContainer.java:124-128 | two successful resolves of a key without an `instances` entry give different objects |
| DIContainer.SingletonResolvesSame | src/ref_humbold/di_container/DIContainer.java:124-128 | after a successful resolve of a key with an `instances` entry, the next resolve gives the same object |
| DIContainer.ReRegisteredTransientResolvesDistinct | src/ref_humbold/di_container/DIContainer.java:51-54 | re-registering as transient drops any cached object, so later resolves are distinct |
| DIContainer.RegisteredSingletonResolvesSame | src/ref_humbold/di_container/DIContainer.java:51-52 | registering as singleton makes the second resolve return the first resolve's object |
| DIContainer.NoAnnotatedMethods | src/ref_humbold/di_container/DIContainer.java:198-206 | a class without annotated methods has no dependency methods and none is rejected |
| DIContainer.BuildUpWithoutMethods | src/ref_humbold/di_container/DIContainer.java:193-210 | building up an object without dependency methods changes nothing |
| DIContainer.RegisteredInstanceResolves | src/test/java/dicontainer/DiContainerTest.java:260-331 | a registered object is what resolve returns for its key; without dependency methods nothing else changes |
| DIContainer.MultipleAnnotatedFails | src/ref_humbold/di_container/DIContainer.java:145-148 | two annotated constructors fail with MultipleAnnotatedConstructorsException before any candidate is tried, with nothing constructed |
| DIContainer.NoConstructorFails | src/ref_humbold/di_container/DIContainer.java:297-299 | a class with no public constructor fails with NoSuitableConstructorException, with nothing constructed |
| DIContainer.UnregisteredAbstractResolveFails | src/ref_humbold/di_container/DIContainer.java:267-270 | resolving an unregistered abstract type fails with AbstractTypeException and leaves the container as it was |
| Candidates.ResolveConstructorStops | src/ref_humbold/di_container/DIContainer.java:150-170 | past lookup and the two constructor-list checks, resolveConstructor reports the run of the candidate the loop stops at with the front of the stack popped: a failure is the failure of the first annotated candidate, or of the last one, after every earlier candidate failed; a success is the first candidate that did not fail |
| DIContainer.SingleConstructorFails | src/ref_humbold/di_container/DIContainer.java:152-165 | when the only constructor fails, its error is rethrown with the pushed type popped |
| DIContainer.LookupFailureLeavesEntry | src/ref_humbold/di_container/DIContainer.java:138-140 | a failed lookup throws AbstractTypeException and leaves the pushed type on the stack |
| DIContainer.ConstructorCheckLeavesEntry | src/ref_humbold/di_container/DIContainer.java:138-148 | with no public constructor, or with two or more annotated ones, resolveConstructor throws NoSuitableConstructorException or MultipleAnnotatedConstructorsException respectively and leaves the pushed type on the stack |
| DIContainer.FallbackToParameterless | src/ref_humbold/di_container/DIContainer.java:152-158 | with no annotated candidate, a working parameterless constructor at the end means the loop never throws |
| DIContainer.CachedResolves | src/ref_humbold/di_container/DIContainer.java:124-126 | a cached or registered object without dependency methods is returned with no other effect |
| DIContainer.ParameterlessCreates | src/ref_humbold/di_container/DIContainer.java:247-250 | a parameterless constructor whose body succeeds always yields a new object with an empty argument list |
| DIContainer.DefaultConstructorConstructs | src/ref_humbold/di_container/DIContainer.java:135-173 | a class with one working parameterless constructor is constructed once, with no arguments, on the caller's stack, and cached when the key has a singleton slot |
| DIContainer.DefaultConstructorResolves | src/ref_humbold/di_container/DIContainer.java:119-173 | such a class without dependency methods resolves to a single new object, and the stack is restored |
| DIContainer.IncorrectMethodFailsAfterConstruction | src/ref_humbold/di_container/DIContainer.java:196-203 | an incorrect dependency method fails the resolve with IncorrectDependencyMethodException after the object was constructed |
| Scenarios.SingleClassScenario | src/test/java/dicontainer/DiContainerTest.java:40-67 | two resolves of a self-registered class give objects of that class, the same object exactly when it is a singleton |
| Scenarios.SingletonChangedScenario | src/test/java/dicontainer/DiContainerTest.java:70-93 | singleton then re-registered transient: two identical objects, then two new distinct ones |
| Scenarios.InterfaceScenario | src/test/java/dicontainer/DiContainerTest.java:113-147 | an interface mapped to a class resolves to objects of that class, shared exactly for a singleton |
| Scenarios.DerivedScenario | src/test/java/dicontainer/DiContainerTest.java:209-238 | a type mapped to a derived class resolves to a new object of the derived class |
| Scenarios.TwoStepsScenario | src/test/java/dicontainer/DiContainerTest.java:241-254 | lookup follows interface to abstract class to concrete class |
| Scenarios.MultipleAnnotatedScenario | src/test/java/dicontainer/DiContainerTest.java:345-350 | ClassConstructorMultipleAnnotated fails with MultipleAnnotatedConstructorsException |
| Scenarios.NoPublicConstructorScenario | src/test/java/dicontainer/DiContainerTest.java:353-357 | ClassConstructorPrivate fails with NoSuitableConstructorException |
| Scenarios.IncorrectSetterScenario | src/test/java/dicontainer/DiContainerTest.java:360-372 | a dependency method with a return type, or without parameters, fails the resolve |
| Scenarios.SetterInjectionScenario | src/test/java/dicontainer/DiContainerTest.java:382-394 | InterfaceSetter resolves to a new ClassSetterSingle whose setter received a new ClassConstructorDefault, and these are exactly the logged events |
| Scenarios.BuildUpScenario | src/test/java/dicontainer/DiContainerTest.java:449-464 | buildUp on a caller-built object calls its setter with a new ClassConstructorDefault |
| Scenarios.FallbackScenario | src/test/java/dicontainer/models/constructor/ClassConstructorNotAnnotatedWithDependency.java:13-24 | the two-parameter constructor fails for the missing dependency and leaves no trace; the one-parameter constructor receives the registered object |
| Scenarios.CircularScenario | src/ref_humbold/di_container/DIContainer.java:218-224 | two classes that need each other fail with CircularDependenciesException; nothing is constructed and the stack is empty afterwards |
| Scenarios.LeftoverEntryScenario | src/ref_humbold/di_container/DIContainer.java:138-165 | a failed nested lookup leaves its type on the stack, so the next candidate fails as a cycle, and the outer type stays on the returned stack |
| Scenarios.ComparatorScenario | test/dicontainer/resolver/ConstructorComparatorTest.java:30-70 | whatever order the six fixture constructors come in, sorting gives the annotated one first, then the rest by parameter count descending; the two pairwise comparisons give -1 and 1 |

## Left out

- Reflection: class names, `getConstructors`, `getMethods`, `newInstance` and `invoke` are replaced by the descriptor table. The `SecurityException` branch of `getConstructors` (DIContainer.java:289-295) becomes the empty constructor list.
- Exception messages and causes: only the exception class is modelled, as an `Error` tag.
- Whether a primitive type counts as abstract: `isAbstractType` reads this from the descriptor table, because Java reflection, not the language, fixes the answer.
- The `lastException` field: it is always set right before `createInstance` returns `null`. So it is modelled as the error of the last candidate tried, carried directly. The reset at :68 has no observable effect.
- Generics and casts: all types are plain `TypeKey`s.
- `void.class`: it is not a `TypeKey`. In Java it is a primitive that `changeToReferenceType` leaves unchanged, so `Types.Ref` being always a reference type relies on its absence.
- Concurrency: the container is not thread-safe, and the model is sequential.
- ConstructorComparator.java is not part of this model. The comparator is defined from what its test asserts. Two annotated constructors are compared by parameter count, which the test does not fix; that case always throws before any candidate is tried, so the choice has no observable effect.
- ConstructorOrder.SortConstructors: the contract does not pin down the relative order of constructors that compare equal. `Arrays.sort` is stable, and the insertion sort is too, but no contract states it.
- Resolver.ResolveParams: the function's own contract gives only the argument count and the frame; the parameter-by-parameter behaviour is stated separately by `Parameters.ParameterChecks`.
- Resolver.ResolveArgs: the function's own contract gives only the argument count; which objects are passed is stated by `Parameters.RegisteredArguments` only for parameters with registered objects, because in general an argument is whatever a nested `ResolveType` returns.
- Registry.RegisterInstance: a caller-supplied `Obj` may carry an id equal to one the container hands out later, and the model does not prevent it; in Java, object identity is never shared this way, so the freshness contracts speak only of ids the container hands out.
- DIContainer.Resolve: every contract holds for any `fuel`, but a small fuel can end in `OutOfFuel` where the source would go on. The fuel bound leaves non-terminating resolutions unmodelled.
- Test cases for behaviour that `DIContainer.java` does not have:
  - the setter-name rule (DiContainerTest.java:375-379);
  - rejecting setters with several parameters (:412-422, :467-475).
  In this version such methods are correct dependency methods (DIContainer.java:84-87).
- Test cases left out because their fixtures are not part of this model:
  - :184-206: ClassConstructorDefaultAndParameterized;
  - :397-409: ClassSetterConstructor;
  - :425-443, :478-502: the multiple-setter classes;
  - :505-540: the complex dependency classes.
