/** The parameter loops of createInstance and resolveMethod, described
    parameter by parameter: what happens at the first parameter that does
    not resolve, and what is passed for parameters that already have an
    object.
 */
module Parameters {
  import opened Types
  import opened Descriptors
  import opened Registry
  import opened Resolver
  import opened DIContainer

  /** What createInstance does with parameter `p` once the parameters before
      it resolved and left the run `pre`: a parameter already on the stack
      is a cycle, one with no entry in either map is missing, and otherwise
      the failure of its nested resolution is passed on; if that resolution
      succeeds, its object is the argument. */
  predicate CheckedAt(u: Universe, p: TypeKey, i: nat, pre: Run<seq<Obj>>, r: Run<seq<Obj>>, fuel: nat)
  {
    CheckedAgainst(p, i, pre, r, ResolveType(u, pre.c, pre.stack, Ref(p), fuel))
  }

  /** CheckedAt, given the run `nested` of the parameter's own resolution. */
  predicate CheckedAgainst(p: TypeKey, i: nat, pre: Run<seq<Obj>>, r: Run<seq<Obj>>, nested: Run<Obj>)
  {
    if p in pre.stack then r == Run(pre.c, pre.stack, Threw(CircularDependencies))
    else if Ref(p) !in pre.c.instances && Ref(p) !in pre.c.classes then r == Run(pre.c, pre.stack, Threw(MissingDependencies))
    else
      && (!nested.out.Returned? ==> r == Run(nested.c, nested.stack, nested.out.PropagateFailure()))
      && (nested.out.Returned? && r.out.Returned? ==> i < |r.out.value| && r.out.value[i] == nested.out.value)
  }

  /** Once the first `i` parameters resolved, parameter `i` is checked and
      resolved in the state they left behind, as CheckedAt says. */
  lemma {:induction false} ParameterChecks(u: Universe, c: Container, stack: seq<TypeKey>, params: seq<TypeKey>, i: nat, fuel: nat)
    requires i < |params|
    requires ResolveParams(u, c, stack, params[..i], fuel).out.Returned?
    ensures CheckedAt(u, params[i], i, ResolveParams(u, c, stack, params[..i], fuel), ResolveParams(u, c, stack, params, fuel), fuel)
    decreases i
  {
    if i == 0 {
      FirstParameterChecked(u, c, stack, params, fuel);
    } else {
      var first := ResolveType(u, c, stack, Ref(params[0]), fuel);
      PrefixStep(u, c, stack, params, i, fuel);
      ParameterChecks(u, first.c, first.stack, params[1..], i - 1, fuel);
      CheckedStep(u, c, stack, params, i, fuel);
    }
  }

  /** The first parameter is checked in the state the loop starts from. */
  lemma FirstParameterChecked(u: Universe, c: Container, stack: seq<TypeKey>, params: seq<TypeKey>, fuel: nat)
    requires 0 < |params|
    ensures CheckedAt(u, params[0], 0, ResolveParams(u, c, stack, params[..0], fuel), ResolveParams(u, c, stack, params, fuel), fuel)
  {
    assert params[..0] == [];
  }

  /** A prefix of more than one parameter that resolved resolved its first
      parameter, and then the rest of the prefix from there. */
  lemma PrefixStep(u: Universe, c: Container, stack: seq<TypeKey>, params: seq<TypeKey>, i: nat, fuel: nat)
    requires 0 < i < |params|
    requires ResolveParams(u, c, stack, params[..i], fuel).out.Returned?
    ensures var first := ResolveType(u, c, stack, Ref(params[0]), fuel);
            && params[0] !in stack && (Ref(params[0]) in c.instances || Ref(params[0]) in c.classes)
            && first.out.Returned?
            && ResolveParams(u, first.c, first.stack, params[1..][..i - 1], fuel).out.Returned?
  {
    SliceShift(params, i);
  }

  /** Moving CheckedAt one parameter back, past a first parameter that resolved. */
  lemma CheckedStep(u: Universe, c: Container, stack: seq<TypeKey>, params: seq<TypeKey>, i: nat, fuel: nat)
    requires 0 < i < |params|
    requires params[0] !in stack && (Ref(params[0]) in c.instances || Ref(params[0]) in c.classes)
    requires ResolveType(u, c, stack, Ref(params[0]), fuel).out.Returned?
    requires var first := ResolveType(u, c, stack, Ref(params[0]), fuel);
             ResolveParams(u, first.c, first.stack, params[1..][..i - 1], fuel).out.Returned?
    ensures var first := ResolveType(u, c, stack, Ref(params[0]), fuel);
            CheckedAt(u, params[i], i - 1, ResolveParams(u, first.c, first.stack, params[1..][..i - 1], fuel),
                      ResolveParams(u, first.c, first.stack, params[1..], fuel), fuel)
            ==> CheckedAt(u, params[i], i, ResolveParams(u, c, stack, params[..i], fuel), ResolveParams(u, c, stack, params, fuel), fuel)
  {
    SliceShift(params, i);
    var first := ResolveType(u, c, stack, Ref(params[0]), fuel);
    var pre' := ResolveParams(u, first.c, first.stack, params[1..][..i - 1], fuel);
    var r' := ResolveParams(u, first.c, first.stack, params[1..], fuel);
    assert ResolveParams(u, c, stack, params[..i], fuel) == Run(pre'.c, pre'.stack, Returned([first.out.value] + pre'.out.value));
    assert ResolveParams(u, c, stack, params, fuel) == if r'.out.Returned? then Run(r'.c, r'.stack, Returned([first.out.value] + r'.out.value)) else r';
    CheckedShift(params[i], i, pre', r', ResolveParams(u, c, stack, params[..i], fuel), ResolveParams(u, c, stack, params, fuel),
                 first.out.value, ResolveType(u, pre'.c, pre'.stack, Ref(params[i]), fuel));
  }

  /** CheckedAgainst only looks at the state a run started from and at the
      argument in position `i`, so putting one more object in front of
      both runs moves it one place on. */
  lemma CheckedShift(p: TypeKey, i: nat, pre': Run<seq<Obj>>, r': Run<seq<Obj>>, pre: Run<seq<Obj>>, r: Run<seq<Obj>>,
                     x: Obj, nested: Run<Obj>)
    requires 0 < i && pre.c == pre'.c && pre.stack == pre'.stack
    requires r == if r'.out.Returned? then Run(r'.c, r'.stack, Returned([x] + r'.out.value)) else r'
    ensures CheckedAgainst(p, i - 1, pre', r', nested) ==> CheckedAgainst(p, i, pre, r, nested)
  {
  }

  /** Dropping the first element of a prefix is taking a prefix of the tail. */
  lemma SliceShift(s: seq<TypeKey>, i: nat)
    ensures 0 < i <= |s| ==> s[..i][0] == s[0] && s[..i][1..] == s[1..][..i - 1] && (i < |s| ==> s[1..][i - 1] == s[i])
  {
  }

  /** Every parameter has a registered or cached object, whose class has
      no dependency methods. */
  predicate AllRegistered(u: Universe, c: Container, params: seq<TypeKey>)
  {
    forall i :: 0 <= i < |params| ==>
      HasInstance(c, params[i]) && NoDependencyMethods(u, c.instances[Ref(params[i])].value.cls)
  }

  /** `r` leaves the container and the stack as they were and passes, for
      each parameter, its registered object. */
  predicate PassesRegistered(c: Container, stack: seq<TypeKey>, params: seq<TypeKey>, r: Run<seq<Obj>>)
  {
    && r.c == c && r.stack == stack && r.out.Returned?
    && |r.out.value| == |params|
    && forall i :: 0 <= i < |params| ==> Ref(params[i]) in c.instances && c.instances[Ref(params[i])] == Some(r.out.value[i])
  }

  /** resolveMethod passes the registered object of every parameter type
      that has one. */
  lemma {:induction false} RegisteredArguments(u: Universe, c: Container, stack: seq<TypeKey>, params: seq<TypeKey>, fuel: nat)
    requires fuel > 0 && AllRegistered(u, c, params)
    ensures PassesRegistered(c, stack, params, ResolveArgs(u, c, stack, params, fuel))
    decreases |params|
  {
    if |params| > 0 {
      CachedResolves(u, c, stack, params[0], fuel);
      RegisteredTail(u, c, params);
      RegisteredArguments(u, c, stack, params[1..], fuel);
      PassesCons(c, stack, params, c.instances[Ref(params[0])].value, ResolveArgs(u, c, stack, params[1..], fuel));
    }
  }

  /** createInstance, too, passes the registered object of every parameter
      type that has one, provided none of them is on the stack. */
  lemma {:induction false} RegisteredParameters(u: Universe, c: Container, stack: seq<TypeKey>, params: seq<TypeKey>, fuel: nat)
    requires fuel > 0 && AllRegistered(u, c, params)
    requires forall i :: 0 <= i < |params| ==> params[i] !in stack
    ensures PassesRegistered(c, stack, params, ResolveParams(u, c, stack, params, fuel))
    decreases |params|
  {
    if |params| > 0 {
      RefIdempotent(params[0]);
      CachedResolves(u, c, stack, Ref(params[0]), fuel);
      RegisteredTail(u, c, params);
      RegisteredParameters(u, c, stack, params[1..], fuel);
      PassesCons(c, stack, params, c.instances[Ref(params[0])].value, ResolveParams(u, c, stack, params[1..], fuel));
    }
  }

  /** The parameters after the first are registered as well. */
  lemma RegisteredTail(u: Universe, c: Container, params: seq<TypeKey>)
    ensures |params| > 0 && AllRegistered(u, c, params) ==> AllRegistered(u, c, params[1..])
  {
    if |params| > 0 && AllRegistered(u, c, params) {
      forall i | 0 <= i < |params[1..]|
        ensures HasInstance(c, params[1..][i]) && NoDependencyMethods(u, c.instances[Ref(params[1..][i])].value.cls)
      {
        assert params[1..][i] == params[i + 1];
      }
    }
  }

  /** Passing the first parameter's object in front of the rest. */
  lemma PassesCons(c: Container, stack: seq<TypeKey>, params: seq<TypeKey>, x: Obj, rest: Run<seq<Obj>>)
    ensures && |params| > 0 && Ref(params[0]) in c.instances && c.instances[Ref(params[0])] == Some(x)
            && PassesRegistered(c, stack, params[1..], rest)
            ==> PassesRegistered(c, stack, params, Run(c, stack, Returned([x] + rest.out.value)))
  {
    if |params| > 0 && Ref(params[0]) in c.instances && c.instances[Ref(params[0])] == Some(x) && PassesRegistered(c, stack, params[1..], rest) {
      var vs := [x] + rest.out.value;
      forall i | 0 <= i < |params|
        ensures Ref(params[i]) in c.instances && c.instances[Ref(params[i])] == Some(vs[i])
      {
        if i > 0 {
          assert params[i] == params[1..][i - 1];
        }
      }
    }
  }
}
