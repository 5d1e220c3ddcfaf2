/** Python's stable sort, as insertion from the right, and what it guarantees. */
module Sorting {
  import opened Prelude

  function Inserted<T>(x: T, s: seq<T>, le: (T, T) -> bool): seq<T> {
    if s == [] || le(x, s[0]) then [x] + s else [s[0]] + Inserted(x, s[1..], le)
  }

  function Sorted<T>(s: seq<T>, le: (T, T) -> bool): seq<T> {
    if s == [] then [] else Inserted(s[0], Sorted(s[1..], le), le)
  }

  ghost predicate Ordered<T(!new)>(s: seq<T>, le: (T, T) -> bool) {
    forall i, j :: 0 <= i < j < |s| ==> le(s[i], s[j])
  }

  ghost predicate TotalPreorder<T(!new)>(le: (T, T) -> bool) {
    && (forall x, y :: le(x, y) || le(y, x))
    && (forall x, y, z :: le(x, y) && le(y, z) ==> le(x, z))
  }

  lemma TextLeIsTotalPreorder()
    ensures TotalPreorder(TextLe)
  {
    forall x, y ensures TextLe(x, y) || TextLe(y, x) {
      TextLeTotal(x, y);
    }
    forall x, y, z | TextLe(x, y) && TextLe(y, z) ensures TextLe(x, z) {
      TextLeTransitive(x, y, z);
    }
  }

  lemma {:induction false} InsertedPermutes<T>(x: T, s: seq<T>, le: (T, T) -> bool)
    ensures multiset(Inserted(x, s, le)) == multiset{x} + multiset(s)
    ensures |Inserted(x, s, le)| == |s| + 1
  {
    if s != [] && !le(x, s[0]) {
      InsertedPermutes(x, s[1..], le);
      assert s == [s[0]] + s[1..];
    }
  }

  lemma {:induction false} SortedPermutes<T>(s: seq<T>, le: (T, T) -> bool)
    ensures multiset(Sorted(s, le)) == multiset(s)
    ensures |Sorted(s, le)| == |s|
  {
    if s != [] {
      SortedPermutes(s[1..], le);
      InsertedPermutes(s[0], Sorted(s[1..], le), le);
      assert s == [s[0]] + s[1..];
    }
  }

  lemma {:induction false} SortedMembers<T>(s: seq<T>, le: (T, T) -> bool)
    ensures forall x :: x in Sorted(s, le) <==> x in s
  {
    SortedPermutes(s, le);
    forall x ensures x in Sorted(s, le) <==> x in s {
      assert x in multiset(Sorted(s, le)) <==> x in multiset(s);
    }
  }

  lemma {:induction false} InsertedOrdered<T(!new)>(x: T, s: seq<T>, le: (T, T) -> bool)
    requires TotalPreorder(le) && Ordered(s, le)
    ensures Ordered(Inserted(x, s, le), le)
  {
    if s != [] && !le(x, s[0]) {
      InsertedOrdered(x, s[1..], le);
      InsertedPermutes(x, s[1..], le);
      var t := Inserted(x, s[1..], le);
      forall j | 0 <= j < |t| ensures le(s[0], t[j]) {
        assert t[j] in multiset(t);
      }
    }
  }

  lemma {:induction false} SortedOrdered<T(!new)>(s: seq<T>, le: (T, T) -> bool)
    requires TotalPreorder(le)
    ensures Ordered(Sorted(s, le), le)
  {
    if s != [] {
      SortedOrdered(s[1..], le);
      InsertedOrdered(s[0], Sorted(s[1..], le), le);
    }
  }

  lemma {:induction false} SortingOrderedChangesNothing<T(!new)>(s: seq<T>, le: (T, T) -> bool)
    requires Ordered(s, le)
    ensures Sorted(s, le) == s
  {
    if s != [] {
      SortingOrderedChangesNothing(s[1..], le);
      assert s[1..] != [] ==> s[1..][0] == s[1];
    }
  }

  /** The first of the sorted sequence comes no later than any other. */
  lemma {:induction false} SortedHeadIsLeast<T(!new)>(s: seq<T>, le: (T, T) -> bool)
    requires TotalPreorder(le) && s != []
    ensures |Sorted(s, le)| == |s| && Sorted(s, le)[0] in s
    ensures forall x :: x in s ==> le(Sorted(s, le)[0], x)
  {
    SortedOrdered(s, le);
    SortedPermutes(s, le);
    SortedMembers(s, le);
    var t := Sorted(s, le);
    assert t[0] in t;
    forall x | x in s ensures le(t[0], x) {
      var i :| 0 <= i < |t| && t[i] == x;
    }
  }

  /** No two different elements compare both ways. */
  ghost predicate Strict<T(!new)>(s: seq<T>, le: (T, T) -> bool) {
    forall x, y :: x in s && y in s && le(x, y) && le(y, x) ==> x == y
  }

  /** When the order tells all elements apart, sorting does not depend on the order they come in. */
  lemma {:induction false} SortingForgetsOrder<T(!new)>(s: seq<T>, t: seq<T>, le: (T, T) -> bool)
    requires TotalPreorder(le) && multiset(s) == multiset(t) && Strict(s, le)
    ensures Sorted(s, le) == Sorted(t, le)
  {
    SortedPermutes(s, le);
    SortedPermutes(t, le);
    SortedOrdered(s, le);
    SortedOrdered(t, le);
    SortedMembers(s, le);
    OrderedIsUnique(Sorted(s, le), Sorted(t, le), le);
  }

  lemma SameLength<T>(a: seq<T>, b: seq<T>)
    requires multiset(a) == multiset(b)
    ensures |a| == |b|
  {
    assert |multiset(a)| == |a| && |multiset(b)| == |b|;
  }

  lemma LeastIsBelow<T(!new)>(a: seq<T>, x: T, le: (T, T) -> bool)
    requires TotalPreorder(le) && Ordered(a, le) && x in a
    ensures a != [] && le(a[0], x)
  {
    var i :| 0 <= i < |a| && a[i] == x;
  }

  lemma HeadsAgree<T(!new)>(a: seq<T>, b: seq<T>, le: (T, T) -> bool)
    requires TotalPreorder(le) && Ordered(a, le) && Ordered(b, le) && multiset(a) == multiset(b) && Strict(a, le)
    requires a != [] && b != []
    ensures a[0] == b[0]
  {
    assert a[0] in multiset(b) && b[0] in multiset(a);
    LeastIsBelow(a, b[0], le);
    LeastIsBelow(b, a[0], le);
  }

  lemma TailsAgree<T>(a: seq<T>, b: seq<T>)
    requires a != [] && b != [] && a[0] == b[0] && multiset(a) == multiset(b)
    ensures multiset(a[1..]) == multiset(b[1..])
  {
    assert a == [a[0]] + a[1..] && b == [b[0]] + b[1..];
    assert multiset(a[1..]) == multiset(a) - multiset{a[0]};
    assert multiset(b[1..]) == multiset(b) - multiset{b[0]};
  }

  lemma {:induction false} OrderedIsUnique<T(!new)>(a: seq<T>, b: seq<T>, le: (T, T) -> bool)
    requires TotalPreorder(le) && Ordered(a, le) && Ordered(b, le) && multiset(a) == multiset(b) && Strict(a, le)
    ensures a == b
  {
    SameLength(a, b);
    if a != [] {
      HeadsAgree(a, b, le);
      TailsAgree(a, b);
      assert forall x :: x in a[1..] ==> x in a;
      OrderedIsUnique(a[1..], b[1..], le);
      assert a == [a[0]] + a[1..] && b == [b[0]] + b[1..];
    }
  }

  lemma DistinctByMultiset<T(!new)>(s: seq<T>, t: seq<T>)
    requires Distinct(s) && multiset(s) == multiset(t)
    ensures Distinct(t)
  {
    forall i, j | 0 <= i < j < |t| ensures t[i] != t[j] {
      if t[i] == t[j] {
        OccursTwice(t, i, j);
        OccursOnce(s, t[i]);
        assert false;
      }
    }
  }

  lemma OccursTwice<T>(t: seq<T>, i: nat, j: nat)
    requires i < j < |t| && t[i] == t[j]
    ensures multiset(t)[t[i]] >= 2
  {
    assert t == t[..i] + [t[i]] + t[i + 1..j] + [t[j]] + t[j + 1..];
  }

  lemma {:induction false} OccursOnce<T(!new)>(s: seq<T>, x: T)
    requires Distinct(s)
    ensures multiset(s)[x] <= 1
  {
    if s != [] {
      var n := |s| - 1;
      OccursOnce(s[..n], x);
      assert s == s[..n] + [s[n]];
      if s[n] == x {
        assert x !in s[..n];
        assert x !in multiset(s[..n]);
      }
    }
  }
}
