/** The resolution engine of DIContainer: resolveType, resolveConstructor,
    createInstance, buildUpObject and resolveMethod, with reflection replaced
    by the descriptor table `u`.

    Every function threads the container and the resolution stack (the
    `ArrayDeque` of types under construction, front first) and returns both
    whatever happened, because the source mutates them in place and a
    caught exception does not undo those mutations. `fuel` bounds the
    recursion: the source's recursion through dependency methods and through
    registered objects is not bounded, so it can run forever; a run that
    needs more than `fuel` nested resolutions ends in `OutOfFuel`, which,
    like the stack overflow it stands for, is never caught.
 */
module Resolver {
  import opened Types
  import opened Descriptors
  import opened Registry
  import opened ConstructorOrder

  datatype Run<T> = Run(c: Container, stack: seq<TypeKey>, out: Outcome<T>)

  /** `s` sits unchanged at the bottom of `t`. */
  predicate IsSuffix(s: seq<TypeKey>, t: seq<TypeKey>)
  {
    |s| <= |t| && t[|t| - |s|..] == s
  }

  /** What any resolution step may do to the container: take fresh ids,
      append to the log, fill singleton placeholders, and register concrete
      types as themselves. It never adds or removes an `instances` key and
      never replaces a registered or cached object. */
  predicate Evolves(c: Container, c': Container)
  {
    && c.nextId <= c'.nextId
    && c.log <= c'.log
    && c'.instances.Keys == c.instances.Keys
    && (forall k :: k in c.instances && c.instances[k].Some? ==> c'.instances[k] == c.instances[k])
    && SelfExtends(c.classes, c'.classes)
  }

  /** The frame every function of the engine keeps: the container evolves,
      the caller's stack is left untouched beneath whatever the call leaves
      on top of it, and keys stay in reference form. */
  predicate Frame(c: Container, stack: seq<TypeKey>, c': Container, stack': seq<TypeKey>)
  {
    && Evolves(c, c')
    && IsSuffix(stack, stack')
    && (Normalised(c) ==> Normalised(c'))
  }

  /** A registered object, or a singleton already cached, for `t`. */
  predicate HasInstance(c: Container, t: TypeKey)
  {
    Ref(t) in c.instances && c.instances[Ref(t)].Some?
  }

  /** The dependency methods of an object are invoked, in order, at the
      increasing log positions `pos`, each on `obj` with one argument per
      parameter. */
  predicate InvokedInOrder(log: seq<Event>, from: nat, obj: Obj, ms: seq<Method>, pos: seq<nat>)
  {
    && |pos| == |ms|
    && (forall i :: 0 <= i < |pos| ==>
          && from <= pos[i] < |log|
          && log[pos[i]].Invoked?
          && log[pos[i]].target == obj
          && log[pos[i]].member == ms[i]
          && |log[pos[i]].args| == |ms[i].params|)
    && (forall i, j :: 0 <= i < j < |pos| ==> pos[i] < pos[j])
  }

  /** The last event of `log`, logged after position `from`, is the
      construction of `obj` by one of `ctors`. */
  predicate LastConstructed(log: seq<Event>, from: nat, obj: Obj, ctors: seq<Ctor>)
  {
    && from < |log|
    && log[|log| - 1].Constructed?
    && log[|log| - 1].obj == obj
    && log[|log| - 1].ctor in ctors
  }

  /** The dependency methods `ms` of `obj` were invoked on it, in order,
      somewhere in `log` at or after position `from`. */
  ghost predicate BuiltUpFrom(log: seq<Event>, from: nat, obj: Obj, ms: seq<Method>)
  {
    exists pos :: InvokedInOrder(log, from, obj, ms, pos)
  }

  /** `obj` was constructed at or after position `from`, and its dependency
      methods were all invoked on it after that. */
  ghost predicate ConstructedThenBuiltUp(log: seq<Event>, from: nat, obj: Obj, ms: seq<Method>)
  {
    exists k :: from <= k < |log| && log[k].Constructed? && log[k].obj == obj && BuiltUpFrom(log, k + 1, obj, ms)
  }

  /** Invocations logged after `from'` are also logged after any earlier `from`. */
  lemma BuiltUpEarlier(log: seq<Event>, from: nat, from': nat, obj: Obj, ms: seq<Method>, pos: seq<nat>)
    ensures InvokedInOrder(log, from', obj, ms, pos) && from <= from' ==> BuiltUpFrom(log, from, obj, ms)
  {
    if InvokedInOrder(log, from', obj, ms, pos) && from <= from' {
      assert InvokedInOrder(log, from, obj, ms, pos);
    }
  }

  /** A construction logged as the last event of `log1`, followed by the
      invocations of the dependency methods after it. */
  lemma ConstructedBefore(log1: seq<Event>, log: seq<Event>, from: nat, obj: Obj, ms: seq<Method>, pos: seq<nat>)
    ensures && from < |log1| && log1 <= log
            && log1[|log1| - 1].Constructed? && log1[|log1| - 1].obj == obj
            && InvokedInOrder(log, |log1|, obj, ms, pos)
            ==> ConstructedThenBuiltUp(log, from, obj, ms)
  {
    if && from < |log1| && log1 <= log
       && log1[|log1| - 1].Constructed? && log1[|log1| - 1].obj == obj
       && InvokedInOrder(log, |log1|, obj, ms, pos)
    {
      var k := |log1| - 1;
      assert log[k] == log1[k] by {
        assert log[..|log1|] == log1;
      }
      assert BuiltUpFrom(log, k + 1, obj, ms);
    }
  }

  lemma FrameTransitive(c1: Container, s1: seq<TypeKey>, c2: Container, s2: seq<TypeKey>, c3: Container, s3: seq<TypeKey>)
    requires Frame(c1, s1, c2, s2) && Frame(c2, s2, c3, s3)
    ensures Frame(c1, s1, c3, s3)
  {
    assert s3[|s3| - |s1|..] == s2[|s2| - |s1|..];
  }

  /** The stack without its top entry. The engine only pops what it
      pushed, so it never pops an empty stack; one is left as it is. */
  function Pop(s: seq<TypeKey>): (r: seq<TypeKey>)
    ensures |s| > 0 ==> [s[0]] + r == s
  {
    if |s| == 0 then s else s[1..]
  }

  lemma PopKeepsSuffix(t: TypeKey, stack: seq<TypeKey>, s: seq<TypeKey>)
    ensures IsSuffix([t] + stack, s) ==> IsSuffix(stack, Pop(s))
  {
    if IsSuffix([t] + stack, s) {
      assert s[|s| - |stack|..] == ([t] + stack)[1..];
    }
  }

  lemma InvokedInOrderGrows(log: seq<Event>, log': seq<Event>, from: nat, obj: Obj, ms: seq<Method>, pos: seq<nat>)
    requires InvokedInOrder(log, from, obj, ms, pos) && log <= log'
    ensures InvokedInOrder(log', from, obj, ms, pos)
  {
    forall i | 0 <= i < |pos| ensures log'[pos[i]] == log[pos[i]] {
      assert log'[..|log|] == log;
    }
  }

  /** An invocation of the first method, followed by invocations of the
      rest logged after it, is an in-order invocation of all of them. */
  lemma InvokedInOrderCons(log1: seq<Event>, log: seq<Event>, from: nat, obj: Obj, ms: seq<Method>, p: nat, rest: seq<nat>)
    requires |ms| > 0 && from <= p < |log1| && log1 <= log
    requires log1[p].Invoked? && log1[p].target == obj && log1[p].member == ms[0]
    requires |log1[p].args| == |ms[0].params|
    requires InvokedInOrder(log, |log1|, obj, ms[1..], rest)
    ensures InvokedInOrder(log, from, obj, ms, [p] + rest)
  {
    var pos := [p] + rest;
    assert log[p] == log1[p] by {
      assert log[..|log1|] == log1;
    }
    forall i | 1 <= i < |pos| ensures pos[i] == rest[i - 1] && ms[i] == ms[1..][i - 1] { }
  }

  /** The dependency methods of a method list in enumeration order. */
  function AnnotatedOnly(ms: seq<Method>): seq<Method>
  {
    if |ms| == 0 then []
    else if ms[0].annotated then [ms[0]] + AnnotatedOnly(ms[1..])
    else AnnotatedOnly(ms[1..])
  }

  /** The first loop of buildUpObject: collect the annotated methods,
      throwing at the first one that is not a correct dependency method. */
  function DependencyMethods(ms: seq<Method>): (r: Outcome<seq<Method>>)
    ensures r.Threw? <==> exists i :: 0 <= i < |ms| && ms[i].annotated && !IsCorrectAnnotatedMethod(ms[i])
    ensures r.Threw? ==> r.error == IncorrectDependencyMethod
    ensures !r.Threw? ==> r == Returned(AnnotatedOnly(ms))
  {
    if |ms| == 0 then Returned([])
    else if ms[0].annotated && !IsCorrectAnnotatedMethod(ms[0]) then Threw(IncorrectDependencyMethod)
    else
      match DependencyMethods(ms[1..])
      case Returned(rest) =>
        assert forall i :: 1 <= i < |ms| ==> ms[i] == ms[1..][i - 1];
        if ms[0].annotated then Returned([ms[0]] + rest) else Returned(rest)
      case Threw(e) =>
        var i :| 0 <= i < |ms[1..]| && ms[1..][i].annotated && !IsCorrectAnnotatedMethod(ms[1..][i]);
        assert ms[i + 1] == ms[1..][i];
        Threw(e)
      case OutOfFuel => OutOfFuel
  }

  /** resolveType: a registered or cached object is returned as it is,
      otherwise a new one is constructed; either way it is built up. */
  function ResolveType(u: Universe, c: Container, stack: seq<TypeKey>, t: TypeKey, fuel: nat): (r: Run<Obj>)
    ensures Frame(c, stack, r.c, r.stack)
    ensures r.out.Returned? && HasInstance(c, t) ==> r.out.value == c.instances[Ref(t)].value
    ensures r.out.Returned? && !HasInstance(c, t) ==>
              && c.nextId <= r.out.value.id < r.c.nextId
              && fuel > 0 && FindConcrete(u, c.classes, t, fuel - 1).1 == Returned(r.out.value.cls)
              && !IsAbstractType(u, r.out.value.cls)
    ensures r.out.Returned? && Ref(t) in c.instances ==> r.c.instances[Ref(t)] == Some(r.out.value)
    ensures r.out.Returned? ==> BuiltUpFrom(r.c.log, |c.log|, r.out.value, AnnotatedOnly(u(r.out.value.cls).methods))
    ensures r.out.Returned? && !HasInstance(c, t) ==>
              ConstructedThenBuiltUp(r.c.log, |c.log|, r.out.value, AnnotatedOnly(u(r.out.value.cls).methods))
    decreases fuel, 0, 0
  {
    if fuel == 0 then Run(c, stack, OutOfFuel)
    else
      var created :=
        if HasInstance(c, t) then Run(c, stack, Returned(c.instances[Ref(t)].value))
        else ResolveConstructor(u, c, stack, t, fuel - 1);
      if !created.out.Returned? then created
      else
        var built := BuildUpObject(u, created.c, created.stack, created.out.value, fuel - 1);
        FrameTransitive(c, stack, created.c, created.stack, built.c, built.stack);
        if built.out.Returned? then
          var obj := created.out.value;
          var ms := AnnotatedOnly(u(obj.cls).methods);
          BuiltUpEarlier(built.c.log, |c.log|, |created.c.log|, obj, ms, built.out.value);
          if HasInstance(c, t) then Run(built.c, built.stack, created.out)
          else
            ConstructedBefore(created.c.log, built.c.log, |c.log|, obj, ms, built.out.value);
            Run(built.c, built.stack, created.out)
        else Run(built.c, built.stack, built.out.PropagateFailure())
  }

  /** resolveConstructor: push the requested type, look up its concrete
      type, sort its constructors and try them. The lookup failure and the
      two constructor-list failures leave the pushed type on the stack. */
  function ResolveConstructor(u: Universe, c: Container, stack: seq<TypeKey>, t: TypeKey, fuel: nat): (r: Run<Obj>)
    requires !HasInstance(c, t)
    ensures Frame(c, stack, r.c, r.stack)
    ensures r.out.Returned? ==>
              && c.nextId <= r.out.value.id < r.c.nextId
              && FindConcrete(u, c.classes, t, fuel).1 == Returned(r.out.value.cls)
              && !IsAbstractType(u, r.out.value.cls)
              && (Ref(t) in c.instances ==> r.c.instances[Ref(t)] == Some(r.out.value))
              && LastConstructed(r.c.log, |c.log|, r.out.value, u(r.out.value.cls).ctors)
    decreases fuel, 5, 0
  {
    var pushed := [t] + stack;
    var (classes, found) := FindConcrete(u, c.classes, t, fuel);
    var c1 := c.(classes := classes);
    assert Frame(c, stack, c1, pushed) by {
      assert pushed[|pushed| - |stack|..] == stack;
    }
    match found
    case OutOfFuel => Run(c1, pushed, OutOfFuel)
    case Threw(e) => Run(c1, pushed, Threw(e))
    case Returned(mapped) =>
      var ctors := u(mapped).ctors;
      if |ctors| == 0 then Run(c1, pushed, Threw(NoSuitableConstructor))
      else
        var sorted := SortConstructors(ctors);
        if |sorted| > 1 && sorted[1].annotated then Run(c1, pushed, Threw(MultipleAnnotatedConstructors))
        else
          var tried := TryCandidates(u, c1, pushed, mapped, sorted, fuel);
          FrameTransitive(c, pushed, c1, pushed, tried.c, tried.stack);
          SortKeepsMembers(ctors);
          Finish(c, stack, t, tried)
  }

  /** The end of resolveConstructor once candidates were tried: pop the
      front of the stack, and on success store the object if `t` has an
      `instances` entry (the singleton placeholder). */
  function Finish(c: Container, stack: seq<TypeKey>, t: TypeKey, tried: Run<Obj>): (r: Run<Obj>)
    ensures !HasInstance(c, t) && Frame(c, [t] + stack, tried.c, tried.stack) ==> Frame(c, stack, r.c, r.stack)
    ensures tried.out.Returned? ==> r.out == tried.out
    ensures r.out.Returned? ==>
              && tried.out == r.out
              && r.c.nextId == tried.c.nextId
              && r.c.instances.Keys == tried.c.instances.Keys
              && (Ref(t) in tried.c.instances ==> r.c.instances[Ref(t)] == Some(r.out.value))
              && (Ref(t) !in tried.c.instances ==> r.c == tried.c)
              && r.stack == Pop(tried.stack)
              && r.c.classes == tried.c.classes && r.c.log == tried.c.log
              && (forall k :: k in tried.c.instances && k != Ref(t) ==> r.c.instances[k] == tried.c.instances[k])
    ensures tried.out.Threw? ==> r == Run(tried.c, Pop(tried.stack), tried.out)
  {
    PopKeepsSuffix(t, stack, tried.stack);
    match tried.out
    case OutOfFuel => tried
    case Threw(e) => Run(tried.c, Pop(tried.stack), Threw(e))
    case Returned(obj) =>
      var key := Ref(t);
      var c' :=
        if key in tried.c.instances then tried.c.(instances := tried.c.instances[key := Some(obj)])
        else tried.c;
      Run(c', Pop(tried.stack), Returned(obj))
  }

  /** The candidate loop of resolveConstructor: stop at the first success or
      after the first annotated candidate; otherwise fail with the error of
      the last candidate tried. */
  function TryCandidates(u: Universe, c: Container, stack: seq<TypeKey>, mapped: TypeKey, cands: seq<Ctor>, fuel: nat)
    : (r: Run<Obj>)
    requires |cands| > 0
    ensures Frame(c, stack, r.c, r.stack)
    ensures r.out.Returned? ==> r.out.value.cls == mapped && c.nextId <= r.out.value.id < r.c.nextId
    ensures r.out.Returned? ==> LastConstructed(r.c.log, |c.log|, r.out.value, cands)
    ensures cands[0].annotated || |cands| == 1 ==> r == CreateInstance(u, c, stack, mapped, cands[0], fuel)
    decreases fuel, 3, |cands|
  {
    var first := CreateInstance(u, c, stack, mapped, cands[0], fuel);
    if first.out.Threw? && !cands[0].annotated && |cands| > 1 then
      var rest := TryCandidates(u, first.c, first.stack, mapped, cands[1..], fuel);
      FrameTransitive(c, stack, first.c, first.stack, rest.c, rest.stack);
      rest
    else first
  }

  /** `obj` is a new object of `mapped`, with the next fresh id, and the
      last event of `c'`'s log is its construction by `ctor`, with one
      argument per parameter. */
  predicate NewlyConstructed(c: Container, c': Container, obj: Obj, mapped: TypeKey, ctor: Ctor)
  {
    && obj.cls == mapped
    && c.nextId <= obj.id && c'.nextId == obj.id + 1
    && |c.log| < |c'.log|
    && c'.log[|c'.log| - 1].Constructed?
    && c'.log[|c'.log| - 1].obj == obj
    && c'.log[|c'.log| - 1].ctor == ctor
    && |c'.log[|c'.log| - 1].args| == |ctor.params|
  }

  /** createInstance: check and resolve each parameter in order, then call
      the constructor. Every exception of a nested resolution is caught
      here and becomes this candidate's failure. */
  function CreateInstance(u: Universe, c: Container, stack: seq<TypeKey>, mapped: TypeKey, ctor: Ctor, fuel: nat)
    : (r: Run<Obj>)
    ensures Frame(c, stack, r.c, r.stack)
    ensures r.out.Returned? ==> NewlyConstructed(c, r.c, r.out.value, mapped, ctor)
    ensures ctor.bodyFails ==> !r.out.Returned?
    ensures ctor.bodyFails && ResolveParams(u, c, stack, ctor.params, fuel).out.Returned? ==> r.out == Threw(Reflection)
    decreases fuel, 2, 0
  {
    var args := ResolveParams(u, c, stack, ctor.params, fuel);
    if !args.out.Returned? then Run(args.c, args.stack, args.out.PropagateFailure())
    else if ctor.bodyFails then Run(args.c, args.stack, Threw(Reflection))
    else
      var obj := Obj(args.c.nextId, mapped);
      var c' := args.c.(nextId := args.c.nextId + 1, log := args.c.log + [Constructed(obj, ctor, args.out.value)]);
      Run(c', args.stack, Returned(obj))
  }

  /** The parameter loop of createInstance: a parameter already on the
      stack is a cycle, one with no entry in either map is missing, and
      otherwise its reference type is resolved. */
  function ResolveParams(u: Universe, c: Container, stack: seq<TypeKey>, params: seq<TypeKey>, fuel: nat)
    : (r: Run<seq<Obj>>)
    ensures Frame(c, stack, r.c, r.stack)
    ensures r.out.Returned? ==> |r.out.value| == |params|
    decreases fuel, 1, |params|
  {
    if |params| == 0 then Run(c, stack, Returned([]))
    else if params[0] in stack then Run(c, stack, Threw(CircularDependencies))
    else if Ref(params[0]) !in c.instances && Ref(params[0]) !in c.classes then Run(c, stack, Threw(MissingDependencies))
    else
      var first := ResolveType(u, c, stack, Ref(params[0]), fuel);
      if !first.out.Returned? then Run(first.c, first.stack, first.out.PropagateFailure())
      else
        var rest := ResolveParams(u, first.c, first.stack, params[1..], fuel);
        FrameTransitive(c, stack, first.c, first.stack, rest.c, rest.stack);
        if !rest.out.Returned? then rest
        else Run(rest.c, rest.stack, Returned([first.out.value] + rest.out.value))
  }

  /** buildUpObject: validate every dependency method of the object's class
      before invoking any, then invoke them in order. The result lists the
      log positions of the invocations. */
  function BuildUpObject(u: Universe, c: Container, stack: seq<TypeKey>, obj: Obj, fuel: nat): (r: Run<seq<nat>>)
    ensures Frame(c, stack, r.c, r.stack)
    ensures DependencyMethods(u(obj.cls).methods).Threw? ==> r == Run(c, stack, Threw(IncorrectDependencyMethod))
    ensures r.out.Returned? ==> InvokedInOrder(r.c.log, |c.log|, obj, AnnotatedOnly(u(obj.cls).methods), r.out.value)
    decreases fuel, 4, 0
  {
    var checked := DependencyMethods(u(obj.cls).methods);
    if checked.Returned? then InvokeMethods(u, c, stack, obj, checked.value, fuel)
    else Run(c, stack, checked.PropagateFailure())
  }

  /** The second loop of buildUpObject. */
  function InvokeMethods(u: Universe, c: Container, stack: seq<TypeKey>, obj: Obj, ms: seq<Method>, fuel: nat)
    : (r: Run<seq<nat>>)
    ensures Frame(c, stack, r.c, r.stack)
    ensures r.out.Returned? ==> InvokedInOrder(r.c.log, |c.log|, obj, ms, r.out.value)
    decreases fuel, 3, |ms|
  {
    if |ms| == 0 then Run(c, stack, Returned([]))
    else
      var first := ResolveMethod(u, c, stack, obj, ms[0], fuel);
      if !first.out.Returned? then Run(first.c, first.stack, first.out.PropagateFailure())
      else
        var rest := InvokeMethods(u, first.c, first.stack, obj, ms[1..], fuel);
        FrameTransitive(c, stack, first.c, first.stack, rest.c, rest.stack);
        if !rest.out.Returned? then rest
        else
          var p := first.out.value;
          var pos := [p] + rest.out.value;
          InvokedInOrderCons(first.c.log, rest.c.log, |c.log|, obj, ms, p, rest.out.value);
          Run(rest.c, rest.stack, Returned(pos))
  }

  /** resolveMethod: resolve every parameter type as written, with no cycle
      or registration check, then invoke the method. */
  function ResolveMethod(u: Universe, c: Container, stack: seq<TypeKey>, obj: Obj, m: Method, fuel: nat)
    : (r: Run<nat>)
    ensures Frame(c, stack, r.c, r.stack)
    ensures r.out.Returned? ==>
              && |c.log| <= r.out.value == |r.c.log| - 1
              && r.c.log[r.out.value].Invoked?
              && r.c.log[r.out.value].target == obj
              && r.c.log[r.out.value].member == m
              && |r.c.log[r.out.value].args| == |m.params|
    ensures m.invokeFails ==> !r.out.Returned?
    ensures m.invokeFails && ResolveArgs(u, c, stack, m.params, fuel).out.Returned? ==> r.out == Threw(Reflection)
    decreases fuel, 2, 0
  {
    var args := ResolveArgs(u, c, stack, m.params, fuel);
    if !args.out.Returned? then Run(args.c, args.stack, args.out.PropagateFailure())
    else if m.invokeFails then Run(args.c, args.stack, Threw(Reflection))
    else
      var c' := args.c.(log := args.c.log + [Invoked(obj, m, args.out.value)]);
      Run(c', args.stack, Returned(|args.c.log|))
  }

  /** The parameter loop of resolveMethod. */
  function ResolveArgs(u: Universe, c: Container, stack: seq<TypeKey>, params: seq<TypeKey>, fuel: nat)
    : (r: Run<seq<Obj>>)
    ensures Frame(c, stack, r.c, r.stack)
    ensures r.out.Returned? ==> |r.out.value| == |params|
    decreases fuel, 1, |params|
  {
    if |params| == 0 then Run(c, stack, Returned([]))
    else
      var first := ResolveType(u, c, stack, params[0], fuel);
      if !first.out.Returned? then Run(first.c, first.stack, first.out.PropagateFailure())
      else
        var rest := ResolveArgs(u, first.c, first.stack, params[1..], fuel);
        FrameTransitive(c, stack, first.c, first.stack, rest.c, rest.stack);
        if !rest.out.Returned? then rest
        else Run(rest.c, rest.stack, Returned([first.out.value] + rest.out.value))
  }
}
