/** The candidate loop of resolveConstructor, described from outside:
    which candidates are tried, in which order, and whose outcome the loop
    reports. `TryCandidates` folds the loop into a recursion; here the
    same loop is told as a sequence of attempts indexed by position.
 */
module Candidates {
  import opened Types
  import opened Descriptors
  import opened Registry
  import opened ConstructorOrder
  import opened Resolver
  import opened DIContainer

  /** The position of the last candidate the loop may reach: the first
      annotated one, or the last one when none is annotated. */
  function StopIndex(cands: seq<Ctor>): (k: nat)
    requires |cands| > 0
    ensures k < |cands|
    ensures forall j :: 0 <= j < k ==> !cands[j].annotated
    ensures cands[k].annotated || k == |cands| - 1
  {
    if cands[0].annotated || |cands| == 1 then 0 else 1 + StopIndex(cands[1..])
  }

  /** The container and stack after the first `k` candidates were each
      tried and each failed without being annotated, or None when one of
      them succeeded, ran out of fuel or was annotated (so the loop would
      not have gone past it). */
  function AfterFailures(u: Universe, c: Container, stack: seq<TypeKey>, mapped: TypeKey, cands: seq<Ctor>, k: nat, fuel: nat)
    : Option<(Container, seq<TypeKey>)>
    requires k <= |cands|
    decreases k
  {
    if k == 0 then Some((c, stack))
    else
      var first := CreateInstance(u, c, stack, mapped, cands[0], fuel);
      if first.out.Threw? && !cands[0].annotated then
        AfterFailures(u, first.c, first.stack, mapped, cands[1..], k - 1, fuel)
      else None
  }

  /** `r` is the run of candidate `k`, started from where the `k` failed
      candidates before it left the container and the stack. */
  predicate TriedAt(u: Universe, c: Container, stack: seq<TypeKey>, mapped: TypeKey, cands: seq<Ctor>, k: nat, fuel: nat, r: Run<Obj>)
  {
    && k < |cands|
    && var s := AfterFailures(u, c, stack, mapped, cands, k, fuel);
       s.Some? && r == CreateInstance(u, s.value.0, s.value.1, mapped, cands[k], fuel)
  }

  /** The loop stops at candidate `k`: `r` is its run, every candidate
      before it failed, and either it did not fail or it was the last the
      loop may reach. */
  predicate StopsAt(u: Universe, c: Container, stack: seq<TypeKey>, mapped: TypeKey, cands: seq<Ctor>, k: nat, fuel: nat, r: Run<Obj>)
  {
    && TriedAt(u, c, stack, mapped, cands, k, fuel, r)
    && (!r.out.Threw? || k == StopIndex(cands))
  }

  /** The candidates are tried in order, each from the state the previous
      failure left behind, and the loop reports the outcome of the
      candidate it stopped at: the first that did not fail, or the first
      annotated one, or the last one. */
  lemma TryCandidatesInOrder(u: Universe, c: Container, stack: seq<TypeKey>, mapped: TypeKey, cands: seq<Ctor>, fuel: nat)
    requires |cands| > 0
    ensures exists k :: StopsAt(u, c, stack, mapped, cands, k, fuel, TryCandidates(u, c, stack, mapped, cands, fuel))
  {
    var k := StopPosition(u, c, stack, mapped, cands, fuel);
  }

  /** A failure of the loop is the failure of the first annotated
      candidate, or of the last one when none is annotated, after every
      candidate before it failed. */
  lemma TryCandidatesThrowsLast(u: Universe, c: Container, stack: seq<TypeKey>, mapped: TypeKey, cands: seq<Ctor>, fuel: nat)
    requires |cands| > 0
    ensures TryCandidates(u, c, stack, mapped, cands, fuel).out.Threw? ==>
              TriedAt(u, c, stack, mapped, cands, StopIndex(cands), fuel, TryCandidates(u, c, stack, mapped, cands, fuel))
  {
    var k := StopPosition(u, c, stack, mapped, cands, fuel);
  }

  /** The loop goes past the first candidate: it failed, it is not
      annotated, and another one follows. */
  predicate FallsBack(u: Universe, c: Container, stack: seq<TypeKey>, mapped: TypeKey, cands: seq<Ctor>, fuel: nat)
  {
    |cands| > 1 && !cands[0].annotated && CreateInstance(u, c, stack, mapped, cands[0], fuel).out.Threw?
  }

  /** The position the loop stops at. */
  lemma {:induction false} StopPosition(u: Universe, c: Container, stack: seq<TypeKey>, mapped: TypeKey, cands: seq<Ctor>, fuel: nat)
    returns (k: nat)
    requires |cands| > 0
    ensures StopsAt(u, c, stack, mapped, cands, k, fuel, TryCandidates(u, c, stack, mapped, cands, fuel))
    decreases |cands|
  {
    StopFirst(u, c, stack, mapped, cands, fuel);
    if FallsBack(u, c, stack, mapped, cands, fuel) {
      var first := CreateInstance(u, c, stack, mapped, cands[0], fuel);
      var k' := StopPosition(u, first.c, first.stack, mapped, cands[1..], fuel);
      FallBackStep(u, c, stack, mapped, cands, fuel, first, k');
      k := k' + 1;
    } else {
      k := 0;
    }
  }

  /** The loop stops at the first candidate when it does not fail, is
      annotated, or is the only one. */
  lemma StopFirst(u: Universe, c: Container, stack: seq<TypeKey>, mapped: TypeKey, cands: seq<Ctor>, fuel: nat)
    ensures |cands| > 0 && !FallsBack(u, c, stack, mapped, cands, fuel) ==>
              StopsAt(u, c, stack, mapped, cands, 0, fuel, TryCandidates(u, c, stack, mapped, cands, fuel))
  {
    if |cands| > 0 && !FallsBack(u, c, stack, mapped, cands, fuel) {
      assert TryCandidates(u, c, stack, mapped, cands, fuel) == CreateInstance(u, c, stack, mapped, cands[0], fuel);
    }
  }

  /** Moving the stopping position of the rest of the list one place on,
      past a first candidate that failed without being annotated. */
  lemma FallBackStep(u: Universe, c: Container, stack: seq<TypeKey>, mapped: TypeKey, cands: seq<Ctor>, fuel: nat,
                     first: Run<Obj>, k: nat)
    ensures && |cands| > 1 && !cands[0].annotated
            && first == CreateInstance(u, c, stack, mapped, cands[0], fuel) && first.out.Threw?
            && StopsAt(u, first.c, first.stack, mapped, cands[1..], k, fuel, TryCandidates(u, first.c, first.stack, mapped, cands[1..], fuel))
            ==> StopsAt(u, c, stack, mapped, cands, k + 1, fuel, TryCandidates(u, c, stack, mapped, cands, fuel))
  {
    if |cands| > 1 && !cands[0].annotated && first == CreateInstance(u, c, stack, mapped, cands[0], fuel) && first.out.Threw? {
      FallBackStepFrom(u, c, stack, mapped, cands, fuel, k);
    }
  }

  /** FallBackStep with the first candidate's run left implicit. */
  lemma FallBackStepFrom(u: Universe, c: Container, stack: seq<TypeKey>, mapped: TypeKey, cands: seq<Ctor>, fuel: nat, k: nat)
    requires |cands| > 1 && !cands[0].annotated
    requires CreateInstance(u, c, stack, mapped, cands[0], fuel).out.Threw?
    ensures var first := CreateInstance(u, c, stack, mapped, cands[0], fuel);
            StopsAt(u, first.c, first.stack, mapped, cands[1..], k, fuel, TryCandidates(u, first.c, first.stack, mapped, cands[1..], fuel))
            ==> StopsAt(u, c, stack, mapped, cands, k + 1, fuel, TryCandidates(u, c, stack, mapped, cands, fuel))
  {
    var first := CreateInstance(u, c, stack, mapped, cands[0], fuel);
    assert TryCandidates(u, c, stack, mapped, cands, fuel) == TryCandidates(u, first.c, first.stack, mapped, cands[1..], fuel);
    assert StopIndex(cands) == StopIndex(cands[1..]) + 1;
    if k < |cands[1..]| {
      assert cands[k + 1] == cands[1..][k];
      assert AfterFailures(u, c, stack, mapped, cands, k + 1, fuel) == AfterFailures(u, first.c, first.stack, mapped, cands[1..], k, fuel);
    }
  }

  /** Past lookup and the two constructor-list checks, resolveConstructor
      reports the run of the candidate the loop stops at, with the front of
      the stack popped: a failure is that run's failure, which is the
      failure of the first annotated candidate, or of the last one, after
      every earlier candidate failed; a success is the first candidate that
      did not fail. */
  lemma ResolveConstructorStops(u: Universe, c: Container, stack: seq<TypeKey>, t: TypeKey, fuel: nat, mapped: TypeKey)
    requires !HasInstance(c, t)
    requires FindConcrete(u, c.classes, t, fuel).1 == Returned(mapped)
    requires |u(mapped).ctors| > 0 && AnnotatedCount(u(mapped).ctors) < 2
    ensures exists k, tried ::
              && StopsAt(u, c.(classes := FindConcrete(u, c.classes, t, fuel).0), [t] + stack, mapped,
                         SortConstructors(u(mapped).ctors), k, fuel, tried)
              && (tried.out.Threw? ==> ResolveConstructor(u, c, stack, t, fuel) == Run(tried.c, Pop(tried.stack), tried.out))
              && (tried.out.Returned? ==>
                    && ResolveConstructor(u, c, stack, t, fuel).out == tried.out
                    && ResolveConstructor(u, c, stack, t, fuel).stack == Pop(tried.stack))
  {
    var c1 := c.(classes := FindConcrete(u, c.classes, t, fuel).0);
    var cands := SortConstructors(u(mapped).ctors);
    ResolveConstructorTries(u, c, stack, t, fuel, mapped);
    var tried := TryCandidates(u, c1, [t] + stack, mapped, cands, fuel);
    var k := StopPosition(u, c1, [t] + stack, mapped, cands, fuel);
    var r := Finish(c, stack, t, tried);
    assert StopsAt(u, c1, [t] + stack, mapped, cands, k, fuel, tried);
  }
}
