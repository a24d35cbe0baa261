/** The order in which constructors are tried: the annotated constructor
    first, then the others by parameter count, largest first. The sort is
    stable (as `Arrays.sort` with a comparator is), so constructors that
    compare equal keep the order reflection listed them in.
 */
module ConstructorOrder {
  import opened Types
  import opened Descriptors

  /** The constructor comparator: negative when `a` is tried before `b`. */
  function Compare(a: Ctor, b: Ctor): (r: int)
  {
    if a.annotated && !b.annotated then -1
    else if !a.annotated && b.annotated then 1
    else if |a.params| > |b.params| then -1
    else if |a.params| < |b.params| then 1
    else 0
  }

  /** `a` may be placed before `b`. */
  predicate Precedes(a: Ctor, b: Ctor)
  {
    Compare(a, b) <= 0
  }

  predicate Sorted(s: seq<Ctor>)
  {
    forall i, j :: 0 <= i < j < |s| ==> Precedes(s[i], s[j])
  }

  function AnnotatedCount(s: seq<Ctor>): nat
  {
    if |s| == 0 then 0 else (if s[0].annotated then 1 else 0) + AnnotatedCount(s[1..])
  }

  /** The comparator is a consistent total preorder, as a comparator handed
      to a sort must be: its sign flips with its arguments, it is
      transitive, and an annotation outranks any parameter count. */
  lemma CompareIsConsistent(a: Ctor, b: Ctor, c: Ctor)
    ensures Compare(a, b) in {-1, 0, 1}
    ensures Compare(a, b) == -Compare(b, a)
    ensures Precedes(a, b) && Precedes(b, c) ==> Precedes(a, c)
    ensures Compare(a, b) < 0 <==>
              (a.annotated && !b.annotated)
              || (a.annotated == b.annotated && |a.params| > |b.params|)
  {
  }

  /** Places `x` before the first element it precedes. */
  function Insert(x: Ctor, s: seq<Ctor>): (r: seq<Ctor>)
    ensures multiset(r) == multiset(s) + multiset{x}
    ensures AnnotatedCount(r) == AnnotatedCount(s) + (if x.annotated then 1 else 0)
    ensures |r| == |s| + 1
  {
    if |s| == 0 then [x]
    else if Precedes(x, s[0]) then
      assert ([x] + s)[1..] == s;
      [x] + s
    else
      var r := [s[0]] + Insert(x, s[1..]);
      assert r[1..] == Insert(x, s[1..]);
      assert s == [s[0]] + s[1..];
      r
  }

  lemma PrecedesTransitive(a: Ctor, b: Ctor, c: Ctor)
    requires Precedes(a, b) && Precedes(b, c)
    ensures Precedes(a, c)
  {
  }

  /** A sorted sequence stays sorted under a new head that precedes all
      of it. */
  lemma ConsSorted(a: Ctor, s: seq<Ctor>)
    requires Sorted(s)
    requires forall j :: 0 <= j < |s| ==> Precedes(a, s[j])
    ensures Sorted([a] + s)
  {
    var r := [a] + s;
    forall i, j | 0 <= i < j < |r| ensures Precedes(r[i], r[j]) {
      if i == 0 {
        assert r[j] == s[j - 1];
      } else {
        assert r[i] == s[i - 1] && r[j] == s[j - 1];
      }
    }
  }

  /** The head of a sorted sequence precedes everything inserted after it. */
  lemma HeadPrecedesInsert(x: Ctor, s: seq<Ctor>)
    requires Sorted(s) && |s| > 0 && !Precedes(x, s[0])
    ensures forall j :: 0 <= j < |Insert(x, s[1..])| ==> Precedes(s[0], Insert(x, s[1..])[j])
  {
    var rest := Insert(x, s[1..]);
    forall j | 0 <= j < |rest| ensures Precedes(s[0], rest[j]) {
      assert rest[j] in multiset(s[1..]) + multiset{x};
      if rest[j] == x {
        CompareIsConsistent(x, s[0], s[0]);
      } else {
        assert rest[j] in s[1..];
      }
    }
  }

  /** Inserting into a sorted sequence keeps it sorted. */
  lemma {:induction false} InsertSorted(x: Ctor, s: seq<Ctor>)
    requires Sorted(s)
    ensures Sorted(Insert(x, s))
  {
    if |s| == 0 {
    } else if Precedes(x, s[0]) {
      forall j | 0 <= j < |s| ensures Precedes(x, s[j]) {
        if j > 0 {
          PrecedesTransitive(x, s[0], s[j]);
        }
      }
      ConsSorted(x, s);
    } else {
      assert Sorted(s[1..]);
      InsertSorted(x, s[1..]);
      HeadPrecedesInsert(x, s);
      ConsSorted(s[0], Insert(x, s[1..]));
    }
  }

  /** Arrays.sort(constructors, new ConstructorComparator()). */
  function SortConstructors(s: seq<Ctor>): (r: seq<Ctor>)
    ensures Sorted(r)
    ensures multiset(r) == multiset(s)
    ensures AnnotatedCount(r) == AnnotatedCount(s)
    ensures |r| == |s|
  {
    if |s| == 0 then []
    else
      assert s == [s[0]] + s[1..];
      InsertSorted(s[0], SortConstructors(s[1..]));
      Insert(s[0], SortConstructors(s[1..]))
  }

  /** Sorting neither adds nor drops a constructor. */
  lemma SortKeepsMembers(s: seq<Ctor>)
    ensures forall x :: x in SortConstructors(s) <==> x in s
  {
    var r := SortConstructors(s);
    forall x ensures x in r <==> x in s {
      assert x in r <==> x in multiset(r);
      assert x in s <==> x in multiset(s);
    }
  }

  lemma {:induction false} AnnotatedCountPositive(s: seq<Ctor>, i: nat)
    requires i < |s| && s[i].annotated
    ensures AnnotatedCount(s) >= 1
    ensures i > 0 && s[0].annotated ==> AnnotatedCount(s) >= 2
    decreases i
  {
    if i > 0 {
      AnnotatedCountPositive(s[1..], i - 1);
    }
  }

  lemma {:induction false} AnnotatedCountZero(s: seq<Ctor>)
    requires forall i :: 0 <= i < |s| ==> !s[i].annotated
    ensures AnnotatedCount(s) == 0
  {
    if |s| > 0 {
      AnnotatedCountZero(s[1..]);
    }
  }

  /** In a sorted sequence, an annotated constructor, if any, is first. */
  lemma AnnotatedFirst(s: seq<Ctor>)
    requires Sorted(s)
    requires AnnotatedCount(s) >= 1
    ensures |s| > 0 && s[0].annotated
  {
    if |s| == 0 || !s[0].annotated {
      assert forall i :: 0 <= i < |s| ==> !s[i].annotated by {
        forall i | 0 <= i < |s| ensures !s[i].annotated {
          if i > 0 { assert Precedes(s[0], s[i]); }
        }
      }
      AnnotatedCountZero(s);
    }
  }

  /** The check on the second sorted constructor detects exactly the case
      of two or more annotated constructors. */
  lemma SecondAnnotatedIffMultiple(s: seq<Ctor>)
    requires Sorted(s)
    ensures (|s| > 1 && s[1].annotated) <==> AnnotatedCount(s) >= 2
  {
    if |s| > 1 && s[1].annotated {
      assert Precedes(s[0], s[1]);
      AnnotatedCountPositive(s, 1);
    } else if |s| > 0 {
      assert forall i :: 0 <= i < |s[1..]| ==> !s[1..][i].annotated by {
        forall i | 0 <= i < |s[1..]| ensures !s[1..][i].annotated {
          if i > 0 { assert Precedes(s[1], s[i + 1]); }
        }
      }
      AnnotatedCountZero(s[1..]);
    }
  }

  /** Two sorted arrangements of the same constructors start alike when no
      two distinct constructors compare equal. */
  lemma SameHead(a: seq<Ctor>, b: seq<Ctor>)
    requires Sorted(a) && Sorted(b) && |a| > 0
    requires multiset(a) == multiset(b)
    requires forall x, y :: x in a && y in a && Compare(x, y) == 0 ==> x == y
    ensures |b| > 0 && a[0] == b[0]
  {
    assert a[0] in multiset(b);
    var k :| 0 <= k < |b| && b[k] == a[0];
    assert b[0] in multiset(a);
    var m :| 0 <= m < |a| && a[m] == b[0];
    assert Precedes(b[0], a[0]) by { if k > 0 { assert Precedes(b[0], b[k]); } }
    assert Precedes(a[0], b[0]) by { if m > 0 { assert Precedes(a[0], a[m]); } }
    CompareIsConsistent(a[0], b[0], b[0]);
  }

  lemma TailMultiset(a: seq<Ctor>, b: seq<Ctor>)
    requires |a| > 0 && |b| > 0 && a[0] == b[0]
    requires multiset(a) == multiset(b)
    ensures multiset(a[1..]) == multiset(b[1..])
  {
    assert a == [a[0]] + a[1..];
    assert b == [b[0]] + b[1..];
    assert multiset(a[1..]) == multiset(a) - multiset{a[0]};
    assert multiset(b[1..]) == multiset(b) - multiset{b[0]};
  }

  /** Two sorted arrangements of the same constructors coincide when no two
      distinct constructors compare equal. */
  lemma {:induction false} SortedUnique(a: seq<Ctor>, b: seq<Ctor>)
    requires Sorted(a) && Sorted(b)
    requires multiset(a) == multiset(b)
    requires forall x, y :: x in a && y in a && Compare(x, y) == 0 ==> x == y
    ensures a == b
    decreases |a|
  {
    if |a| == 0 {
      assert |b| == |multiset(b)| == 0;
    } else {
      SameHead(a, b);
      TailMultiset(a, b);
      assert forall x :: x in a[1..] ==> x in a;
      SortedUnique(a[1..], b[1..]);
      assert a == [a[0]] + a[1..];
      assert b == [b[0]] + b[1..];
    }
  }
}
