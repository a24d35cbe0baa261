/** The container's state and its registration operations: the `classes`
    map from a type to the type it is resolved as, the `instances` map from
    a type to a registered object, a cached singleton or the `null`
    singleton placeholder, and the concrete-type lookup that walks
    `classes`.
 */
module Registry {
  import opened Types
  import opened Descriptors

  /** An object, identified by its id, with the class it was created as. */
  datatype Obj = Obj(id: nat, cls: TypeKey)

  /** One exception class of the container per tag. `Reflection` is the
      plain DIException that wraps a failing constructor body or setter. */
  datatype Error =
    | AbstractType
    | NullInstance
    | NoSuitableConstructor
    | MultipleAnnotatedConstructors
    | CircularDependencies
    | MissingDependencies
    | IncorrectDependencyMethod
    | Reflection

  /** The end of a computation: a value, a thrown exception, or the fuel
      bound was reached before the source's recursion or loop finished. */
  datatype Outcome<T> = Returned(value: T) | Threw(error: Error) | OutOfFuel {

    /** The same failure, for a caller that expected another value type. */
    function PropagateFailure<U>(): (r: Outcome<U>)
      requires !Returned?
      ensures r.Threw? == Threw? && (Threw? ==> r.error == error)
    {
      if Threw? then Threw(error) else OutOfFuel
    }
  }

  /** What the container did to objects: a constructor call and a
      dependency-method call, each with the arguments it received. */
  datatype Event =
    | Constructed(obj: Obj, ctor: Ctor, args: seq<Obj>)
    | Invoked(target: Obj, member: Method, args: seq<Obj>)

  /** `instances` maps to `None` for the Java `null` singleton placeholder.
      `nextId` is the id the next constructed object gets; `log` records
      every constructor and dependency-method call in order. */
  datatype Container = Container(
    instances: map<TypeKey, Option<Obj>>,
    classes: map<TypeKey, TypeKey>,
    nextId: nat,
    log: seq<Event>)

  datatype Option<T> = None | Some(value: T)

  const Empty := Container(map[], map[], 0, [])

  /** Every key of both maps, and every type `classes` maps to, is stored
      in reference form. */
  predicate Normalised(c: Container)
  {
    && (forall k :: k in c.instances ==> IsReference(k))
    && (forall k :: k in c.classes ==> IsReference(k) && IsReference(c.classes[k]))
  }

  /** registerType(supercls, cls, isSingleton). */
  function RegisterType(c: Container, super: TypeKey, cls: TypeKey, isSingleton: bool): (r: Container)
    ensures Ref(super) in r.classes && r.classes[Ref(super)] == Ref(cls)
    ensures forall k :: k != Ref(super) ==>
              (k in r.classes <==> k in c.classes) && (k in c.classes ==> r.classes[k] == c.classes[k])
    ensures isSingleton ==> Ref(super) in r.instances && r.instances[Ref(super)] == None
    ensures !isSingleton ==> Ref(super) !in r.instances
    ensures forall k :: k != Ref(super) ==>
              (k in r.instances <==> k in c.instances) && (k in c.instances ==> r.instances[k] == c.instances[k])
    ensures r.nextId == c.nextId && r.log == c.log
    ensures Normalised(c) ==> Normalised(r)
  {
    var key := Ref(super);
    var classes := c.classes[key := Ref(cls)];
    if isSingleton then
      c.(classes := classes, instances := c.instances[key := None])
    else if key in c.instances then
      c.(classes := classes, instances := c.instances - {key})
    else
      c.(classes := classes)
  }

  /** registerType(supercls, cls): the transient default. */
  function RegisterTypeTransient(c: Container, super: TypeKey, cls: TypeKey): (r: Container)
    ensures r.classes == c.classes[Ref(super) := Ref(cls)]
    ensures Ref(super) !in r.instances
    ensures forall k :: k != Ref(super) ==>
              (k in r.instances <==> k in c.instances) && (k in c.instances ==> r.instances[k] == c.instances[k])
  {
    RegisterType(c, super, cls, false)
  }

  /** registerType(cls, isSingleton): an abstract type cannot map to itself. */
  function RegisterSelf(u: Universe, c: Container, cls: TypeKey, isSingleton: bool): (r: Outcome<Container>)
    ensures IsAbstractType(u, cls) <==> r == Threw(AbstractType)
    ensures !IsAbstractType(u, cls) ==> r.Returned? && r.value.classes == c.classes[Ref(cls) := Ref(cls)]
    ensures r.Returned? ==> (Ref(cls) in r.value.instances <==> isSingleton)
    ensures !IsAbstractType(u, cls) ==> r == Returned(RegisterType(c, cls, cls, isSingleton))
  {
    if IsAbstractType(u, cls) then Threw(AbstractType)
    else Returned(RegisterType(c, cls, cls, isSingleton))
  }

  /** registerType(cls): the transient default. */
  function RegisterSelfTransient(u: Universe, c: Container, cls: TypeKey): (r: Outcome<Container>)
    ensures IsAbstractType(u, cls) <==> r == Threw(AbstractType)
    ensures r.Returned? ==> Ref(cls) !in r.value.instances && r.value.classes == c.classes[Ref(cls) := Ref(cls)]
    ensures !IsAbstractType(u, cls) ==> r == Returned(RegisterType(c, cls, cls, false))
  {
    RegisterSelf(u, c, cls, false)
  }

  /** registerInstance(cls, instance): `None` is the Java `null`. */
  function RegisterInstance(c: Container, cls: TypeKey, instance: Option<Obj>): (r: Outcome<Container>)
    ensures instance.None? <==> r == Threw(NullInstance)
    ensures instance.Some? ==>
              && r.Returned?
              && r.value.classes == c.classes
              && r.value.nextId == c.nextId && r.value.log == c.log
              && r.value.instances.Keys == c.instances.Keys + {Ref(cls)}
              && r.value.instances[Ref(cls)] == instance
              && (forall k :: k in c.instances && k != Ref(cls) ==> r.value.instances[k] == c.instances[k])
    ensures r.Returned? && Normalised(c) ==> Normalised(r.value)
  {
    if instance.None? then Threw(NullInstance)
    else Returned(c.(instances := c.instances[Ref(cls) := instance]))
  }

  /** `after` extends `before` only by self-mappings of new keys. */
  predicate SelfExtends(before: map<TypeKey, TypeKey>, after: map<TypeKey, TypeKey>)
  {
    && (forall k :: k in before ==> k in after && after[k] == before[k])
    && (forall k :: k in after && k !in before ==> after[k] == k)
  }

  /** One pass of the do-while loop of findRegisteredConcreteClass and the
      passes after it, starting from `mapped`. */
  function FindConcrete(u: Universe, classes: map<TypeKey, TypeKey>, mapped: TypeKey, fuel: nat)
    : (r: (map<TypeKey, TypeKey>, Outcome<TypeKey>))
    ensures SelfExtends(classes, r.0)
    ensures r.1.Returned? ==> !IsAbstractType(u, r.1.value) && r.1.value in r.0.Values
    ensures r.1.Threw? ==> r.1.error == AbstractType
    ensures (forall k :: k in classes ==> IsReference(k) && IsReference(classes[k]))
              ==> (forall k :: k in r.0 ==> IsReference(k) && IsReference(r.0[k]))
    decreases fuel
  {
    if fuel == 0 then (classes, OutOfFuel)
    else
      var key := Ref(mapped);
      if key !in classes && IsAbstractType(u, mapped) then (classes, Threw(AbstractType))
      else
        var classes' := if key in classes then classes else classes[key := key];
        var next := classes'[key];
        if IsAbstractType(u, next) then FindConcrete(u, classes', next, fuel - 1)
        else (classes', Returned(next))
  }

  /** `path` follows `classes` one mapping per step, and every type it
      passes through on the way (all but its two ends) is abstract. */
  predicate Walks(u: Universe, classes: map<TypeKey, TypeKey>, path: seq<TypeKey>)
    decreases |path|
  {
    || |path| <= 1
    || (&& Ref(path[0]) in classes && classes[Ref(path[0])] == path[1]
        && (|path| > 2 ==> IsAbstractType(u, path[1]))
        && Walks(u, classes, path[1..]))
  }

  /** A reference type mapped to itself while abstract keeps lookup
      circling forever: it never returns and never throws. */
  lemma {:induction false} SelfMappedAbstractLoops(u: Universe, classes: map<TypeKey, TypeKey>, k: TypeKey, fuel: nat)
    requires IsReference(k) && k in classes && classes[k] == k && IsAbstractType(u, k)
    ensures FindConcrete(u, classes, k, fuel) == (classes, OutOfFuel)
    decreases fuel
  {
    if fuel > 0 {
      assert Ref(k) == k;
      SelfMappedAbstractLoops(u, classes, k, fuel - 1);
    }
  }

  /** Two abstract reference types mapped to each other, or one mapped to
      itself, keep lookup circling forever: the two-argument registerType
      accepts such a cycle, and lookup then never returns and never throws. */
  lemma {:induction false} AbstractCycleLoops(u: Universe, classes: map<TypeKey, TypeKey>, i: TypeKey, j: TypeKey, fuel: nat)
    requires IsReference(i) && IsReference(j) && i in classes && j in classes
    requires classes[i] == j && classes[j] == i
    requires IsAbstractType(u, i) && IsAbstractType(u, j)
    ensures FindConcrete(u, classes, i, fuel) == (classes, OutOfFuel)
    decreases fuel
  {
    if fuel > 0 {
      assert Ref(i) == i;
      AbstractCycleLoops(u, classes, j, i, fuel - 1);
    }
  }

  /** `path` is a walk of at least one step from `from` to `x`. */
  predicate WalkTo(u: Universe, classes: map<TypeKey, TypeKey>, from: TypeKey, x: TypeKey, path: seq<TypeKey>)
  {
    2 <= |path| && path[0] == from && path[|path| - 1] == x && Walks(u, classes, path)
  }

  /** `path` is a walk from `from` to an abstract type that has no entry of its own. */
  predicate WalkToUnregistered(u: Universe, classes: map<TypeKey, TypeKey>, from: TypeKey, path: seq<TypeKey>)
  {
    && 1 <= |path| && path[0] == from && Walks(u, classes, path)
    && IsAbstractType(u, path[|path| - 1]) && Ref(path[|path| - 1]) !in classes
  }

  /** `from` reaches the concrete type `x` along a walk of at least one step. */
  ghost predicate ReachesConcrete(u: Universe, classes: map<TypeKey, TypeKey>, from: TypeKey, x: TypeKey)
  {
    exists path :: WalkTo(u, classes, from, x, path)
  }

  /** `from` reaches an abstract type that has no entry of its own. */
  ghost predicate ReachesUnregistered(u: Universe, classes: map<TypeKey, TypeKey>, from: TypeKey)
  {
    exists path :: WalkToUnregistered(u, classes, from, path)
  }

  /** If `r` returns, `path` walks from `mapped` to the returned type in the map `r` leaves behind. */
  predicate ReturnedAlong(u: Universe, mapped: TypeKey, r: (map<TypeKey, TypeKey>, Outcome<TypeKey>), path: seq<TypeKey>)
  {
    r.1.Returned? ==> WalkTo(u, r.0, mapped, r.1.value, path)
  }

  /** If `r` throws, `path` walks from `mapped` to an abstract type without an entry. */
  predicate ThrownAlong(u: Universe, classes: map<TypeKey, TypeKey>, mapped: TypeKey, r: (map<TypeKey, TypeKey>, Outcome<TypeKey>), path: seq<TypeKey>)
  {
    r.1.Threw? ==> WalkToUnregistered(u, classes, mapped, path)
  }

  /** A successful lookup returns the end of a walk, from the requested
      type, in the map the lookup leaves behind. */
  lemma FindConcreteReturnWalks(u: Universe, classes: map<TypeKey, TypeKey>, mapped: TypeKey, fuel: nat)
    ensures FindConcrete(u, classes, mapped, fuel).1.Returned? ==>
              ReachesConcrete(u, FindConcrete(u, classes, mapped, fuel).0, mapped, FindConcrete(u, classes, mapped, fuel).1.value)
  {
    var path := ReturnPath(u, classes, mapped, fuel);
  }

  /** A failed lookup leaves the map as it was, and is a walk from the
      requested type that ends at an abstract type with no entry of its own. */
  lemma FindConcreteThrowWalks(u: Universe, classes: map<TypeKey, TypeKey>, mapped: TypeKey, fuel: nat)
    ensures FindConcrete(u, classes, mapped, fuel).1.Threw? ==>
              FindConcrete(u, classes, mapped, fuel).0 == classes && ReachesUnregistered(u, classes, mapped)
  {
    FindConcreteThrowKeepsMap(u, classes, mapped, fuel);
    var path := ThrowPath(u, classes, mapped, fuel);
  }

  /** The walk a successful lookup follows. */
  lemma {:induction false} ReturnPath(u: Universe, classes: map<TypeKey, TypeKey>, mapped: TypeKey, fuel: nat)
    returns (path: seq<TypeKey>)
    ensures ReturnedAlong(u, mapped, FindConcrete(u, classes, mapped, fuel), path)
    decreases fuel
  {
    if fuel > 0 && Ref(mapped) in classes && IsAbstractType(u, classes[Ref(mapped)]) {
      var p := ReturnPath(u, classes, classes[Ref(mapped)], fuel - 1);
      ReturnPathCons(u, classes, mapped, fuel, p);
      path := [mapped] + p;
    } else {
      path := ReturnPathBase(u, classes, mapped, fuel);
    }
  }

  /** One step of a successful lookup through an abstract type with an entry. */
  lemma ReturnPathCons(u: Universe, classes: map<TypeKey, TypeKey>, mapped: TypeKey, fuel: nat, p: seq<TypeKey>)
    requires fuel > 0 && Ref(mapped) in classes && IsAbstractType(u, classes[Ref(mapped)])
    ensures ReturnedAlong(u, classes[Ref(mapped)], FindConcrete(u, classes, classes[Ref(mapped)], fuel - 1), p)
            ==> ReturnedAlong(u, mapped, FindConcrete(u, classes, mapped, fuel), [mapped] + p)
  {
    var next := classes[Ref(mapped)];
    var r := FindConcrete(u, classes, next, fuel - 1);
    assert FindConcrete(u, classes, mapped, fuel) == r;
    if r.1.Returned? && WalkTo(u, r.0, next, r.1.value, p) {
      assert SelfExtends(classes, r.0);
      WalkCons(u, r.0, mapped, p);
      assert ([mapped] + p)[|p|] == r.1.value;
    }
  }

  /** The steps of a successful lookup that do not follow the map further. */
  lemma ReturnPathBase(u: Universe, classes: map<TypeKey, TypeKey>, mapped: TypeKey, fuel: nat) returns (path: seq<TypeKey>)
    requires !(fuel > 0 && Ref(mapped) in classes && IsAbstractType(u, classes[Ref(mapped)]))
    ensures ReturnedAlong(u, mapped, FindConcrete(u, classes, mapped, fuel), path)
  {
    path := [];
    var key := Ref(mapped);
    if fuel > 0 {
      if key in classes {
        path := [mapped, classes[key]];
        assert Walks(u, classes, path);
      } else if !IsAbstractType(u, mapped) {
        var classes' := classes[key := key];
        if !IsAbstractType(u, key) {
          path := [mapped, key];
          assert Walks(u, classes', path);
        } else {
          RefIdempotent(mapped);
          SelfMappedAbstractLoops(u, classes', key, fuel - 1);
        }
      }
    }
  }

  /** A failed lookup leaves the map as it was. */
  lemma {:induction false} FindConcreteThrowKeepsMap(u: Universe, classes: map<TypeKey, TypeKey>, mapped: TypeKey, fuel: nat)
    ensures FindConcrete(u, classes, mapped, fuel).1.Threw? ==> FindConcrete(u, classes, mapped, fuel).0 == classes
    decreases fuel
  {
    if fuel > 0 {
      var key := Ref(mapped);
      if key in classes || !IsAbstractType(u, mapped) {
        var classes' := if key in classes then classes else classes[key := key];
        var next := classes'[key];
        if IsAbstractType(u, next) {
          if key in classes {
            FindConcreteThrowKeepsMap(u, classes, next, fuel - 1);
          } else {
            RefIdempotent(mapped);
            SelfMappedAbstractLoops(u, classes', key, fuel - 1);
          }
        }
      }
    }
  }

  /** The walk a failed lookup follows. */
  lemma {:induction false} ThrowPath(u: Universe, classes: map<TypeKey, TypeKey>, mapped: TypeKey, fuel: nat)
    returns (path: seq<TypeKey>)
    ensures ThrownAlong(u, classes, mapped, FindConcrete(u, classes, mapped, fuel), path)
    decreases fuel
  {
    if fuel > 0 && Ref(mapped) in classes && IsAbstractType(u, classes[Ref(mapped)]) {
      var p := ThrowPath(u, classes, classes[Ref(mapped)], fuel - 1);
      ThrowPathCons(u, classes, mapped, fuel, p);
      path := [mapped] + p;
    } else {
      path := ThrowPathBase(u, classes, mapped, fuel);
    }
  }

  /** One step of a failed lookup through an abstract type with an entry. */
  lemma ThrowPathCons(u: Universe, classes: map<TypeKey, TypeKey>, mapped: TypeKey, fuel: nat, p: seq<TypeKey>)
    requires fuel > 0 && Ref(mapped) in classes && IsAbstractType(u, classes[Ref(mapped)])
    ensures ThrownAlong(u, classes, classes[Ref(mapped)], FindConcrete(u, classes, classes[Ref(mapped)], fuel - 1), p)
            ==> ThrownAlong(u, classes, mapped, FindConcrete(u, classes, mapped, fuel), [mapped] + p)
  {
    var next := classes[Ref(mapped)];
    var r := FindConcrete(u, classes, next, fuel - 1);
    assert FindConcrete(u, classes, mapped, fuel) == r;
    if r.1.Threw? && WalkToUnregistered(u, classes, next, p) {
      WalkCons(u, classes, mapped, p);
      assert ([mapped] + p)[|p|] == p[|p| - 1];
    }
  }

  /** The steps of a failed lookup that do not follow the map further. */
  lemma ThrowPathBase(u: Universe, classes: map<TypeKey, TypeKey>, mapped: TypeKey, fuel: nat) returns (path: seq<TypeKey>)
    requires !(fuel > 0 && Ref(mapped) in classes && IsAbstractType(u, classes[Ref(mapped)]))
    ensures ThrownAlong(u, classes, mapped, FindConcrete(u, classes, mapped, fuel), path)
  {
    path := [mapped];
    var key := Ref(mapped);
    if fuel > 0 && key !in classes && !IsAbstractType(u, mapped) && IsAbstractType(u, key) {
      RefIdempotent(mapped);
      SelfMappedAbstractLoops(u, classes[key := key], key, fuel - 1);
    }
  }

  /** One more step in front of a walk whose first type is abstract. */
  lemma WalkCons(u: Universe, classes: map<TypeKey, TypeKey>, t: TypeKey, p: seq<TypeKey>)
    requires |p| > 0 && Walks(u, classes, p) && IsAbstractType(u, p[0])
    requires Ref(t) in classes && classes[Ref(t)] == p[0]
    ensures Walks(u, classes, [t] + p)
  {
    assert ([t] + p)[1..] == p;
  }

  /** Conversely, a walk through registered abstract types to a concrete
      type is followed to its end, with the map left as it is. */
  lemma {:induction false} WalkFindsConcrete(u: Universe, classes: map<TypeKey, TypeKey>, path: seq<TypeKey>, fuel: nat)
    requires 2 <= |path| && Walks(u, classes, path) && !IsAbstractType(u, path[|path| - 1])
    requires fuel >= |path| - 1
    ensures FindConcrete(u, classes, path[0], fuel) == (classes, Returned(path[|path| - 1]))
    decreases |path|
  {
    if |path| > 2 {
      WalkTail(u, classes, path);
      WalkFindsConcrete(u, classes, path[1..], fuel - 1);
    }
  }

  /** A walk that ends at an abstract type without an entry makes lookup
      throw AbstractTypeException, with the map left as it is. */
  lemma {:induction false} WalkFindsUnregisteredAbstract(u: Universe, classes: map<TypeKey, TypeKey>, path: seq<TypeKey>, fuel: nat)
    requires 1 <= |path| && Walks(u, classes, path)
    requires IsAbstractType(u, path[|path| - 1]) && Ref(path[|path| - 1]) !in classes
    requires fuel >= |path|
    ensures FindConcrete(u, classes, path[0], fuel) == (classes, Threw(AbstractType))
    decreases |path|
  {
    if |path| > 1 {
      WalkTail(u, classes, path);
      WalkFindsUnregisteredAbstract(u, classes, path[1..], fuel - 1);
    }
  }

  /** Dropping the first type of a walk leaves a walk. */
  lemma WalkTail(u: Universe, classes: map<TypeKey, TypeKey>, path: seq<TypeKey>)
    requires |path| > 1 && Walks(u, classes, path)
    ensures Walks(u, classes, path[1..])
  {
  }

  /** Lookup is idempotent: running it again on the map it produced gives
      the same answer and adds nothing more. */
  lemma {:induction false} FindConcreteIdempotent(u: Universe, classes: map<TypeKey, TypeKey>, mapped: TypeKey, fuel: nat)
    ensures FindConcrete(u, FindConcrete(u, classes, mapped, fuel).0, mapped, fuel)
            == FindConcrete(u, classes, mapped, fuel)
    decreases fuel
  {
    var r := FindConcrete(u, classes, mapped, fuel);
    if fuel > 0 {
      var key := Ref(mapped);
      if !(key !in classes && IsAbstractType(u, mapped)) {
        var classes' := if key in classes then classes else classes[key := key];
        var next := classes'[key];
        if IsAbstractType(u, next) {
          FindConcreteIdempotent(u, classes', next, fuel - 1);
          assert key in r.0 && r.0[key] == next;
        }
      }
    }
  }

  /** A lookup that starts at an unregistered abstract type fails at once
      and changes nothing. */
  lemma UnregisteredAbstractFails(u: Universe, classes: map<TypeKey, TypeKey>, t: TypeKey, fuel: nat)
    requires fuel > 0 && Ref(t) !in classes && IsAbstractType(u, t)
    ensures FindConcrete(u, classes, t, fuel) == (classes, Threw(AbstractType))
  {
  }

  /** An unregistered concrete type is registered as itself and returned. */
  lemma UnregisteredConcreteSelfMaps(u: Universe, classes: map<TypeKey, TypeKey>, t: TypeKey, fuel: nat)
    requires fuel > 0 && IsReference(t) && t !in classes && !IsAbstractType(u, t)
    ensures FindConcrete(u, classes, t, fuel) == (classes[t := t], Returned(t))
  {
  }
}
