/** What the callers of the Go sorting routines rely on: the stable arrangement
    of a list under a strict weak order, that it is a permutation, and that under
    a total order no other arrangement of the same elements is sorted. */
module Sorting {

  predicate NoDup<T(==, !new)>(s: seq<T>) {
    forall x {:trigger multiset(s)[x]} :: x in s ==> multiset(s)[x] == 1
  }

  /** The same by positions. */
  lemma {:induction false} NoDupByIndex<T(!new)>(s: seq<T>)
    ensures NoDup(s) <==> forall i, j :: 0 <= i < j < |s| ==> s[i] != s[j]
  {
    if |s| > 0 {
      var rest := s[1..];
      assert s == [s[0]] + rest;
      NoDupByIndex(rest);
      if NoDup(s) {
        assert multiset(s)[s[0]] == 1;
        forall x | x in rest ensures multiset(rest)[x] == 1 {
          assert x in s;
          assert multiset(s)[x] == 1;
        }
        assert s[0] !in rest;
      }
      if forall i, j :: 0 <= i < j < |s| ==> s[i] != s[j] {
        assert forall i, j :: 0 <= i < j < |rest| ==> rest[i] == s[i + 1] && rest[j] == s[j + 1];
        assert s[0] !in rest;
        forall x | x in s ensures multiset(s)[x] == 1 {
          if x != s[0] {
            assert x in rest && multiset(rest)[x] == 1;
          }
        }
      }
    }
  }

  lemma NoDupConcat<T(!new)>(s: seq<T>, t: seq<T>)
    ensures NoDup(s + t) <==> NoDup(s) && NoDup(t) && forall x :: x in s ==> x !in t
  {
    if NoDup(s + t) {
      forall x | x in s ensures multiset(s)[x] == 1 && x !in t {
        assert x in s + t && multiset(s + t)[x] == multiset(s)[x] + multiset(t)[x];
      }
      forall x | x in t ensures multiset(t)[x] == 1 {
        assert x in s + t && multiset(s + t)[x] == multiset(s)[x] + multiset(t)[x];
      }
    } else {
      var x :| x in s + t && multiset(s + t)[x] != 1;
      assert multiset(s + t)[x] == multiset(s)[x] + multiset(t)[x];
      if x !in s { assert x !in multiset(s); }
      if x !in t { assert x !in multiset(t); }
    }
  }

  function Elements<T(==, !new)>(s: seq<T>): (r: set<T>)
    ensures forall x :: x in r <==> x in s
  {
    set x | x in s
  }

  lemma {:induction false} SubsetSize<T>(a: set<T>, b: set<T>)
    requires a <= b
    ensures |a| <= |b|
  {
    if a != {} {
      var x :| x in a;
      SubsetSize(a - {x}, b - {x});
    }
  }

  /** A list has as many elements as entries exactly when none is repeated. */
  lemma {:induction false} DistinctByCount<T(!new)>(s: seq<T>)
    ensures |Elements(s)| <= |s|
    ensures |Elements(s)| == |s| <==> NoDup(s)
  {
    if |s| > 0 {
      var n := |s| - 1;
      var init := s[..n];
      assert s == init + [s[n]];
      DistinctByCount(init);
      NoDupConcat(init, [s[n]]);
      assert Elements(s) == Elements(init) + {s[n]};
      if s[n] in init {
        assert Elements(s) == Elements(init);
      }
    }
  }

  function Filter<T>(keep: T -> bool, s: seq<T>): (r: seq<T>)
    ensures |r| <= |s|
  {
    if |s| == 0 then []
    else if keep(s[0]) then [s[0]] + Filter(keep, s[1..])
    else Filter(keep, s[1..])
  }

  lemma FilterMembers<T(!new)>(keep: T -> bool, s: seq<T>)
    ensures forall x :: x in Filter(keep, s) <==> x in s && keep(x)
  {
  }

  lemma FilterKeepsAll<T(!new)>(keep: T -> bool, s: seq<T>)
    requires forall x :: x in s ==> keep(x)
    ensures Filter(keep, s) == s
  {
  }

  // One step of a loop that collects the kept elements.
  lemma FilterStep<T>(keep: T -> bool, s: seq<T>, i: nat)
    requires i < |s|
    ensures Filter(keep, s[..i + 1]) == Filter(keep, s[..i]) + if keep(s[i]) then [s[i]] else []
  {
    assert s[..i + 1] == s[..i] + [s[i]];
    FilterOfConcat(keep, s[..i], [s[i]]);
  }

  lemma FilterOfConcat<T>(keep: T -> bool, s: seq<T>, t: seq<T>)
    ensures Filter(keep, s + t) == Filter(keep, s) + Filter(keep, t)
  {
    if |s| == 0 {
      assert s + t == t;
    } else {
      assert (s + t)[1..] == s[1..] + t;
      FilterOfConcat(keep, s[1..], t);
    }
  }

  lemma FilterKeepsNoDup<T(!new)>(keep: T -> bool, s: seq<T>)
    requires NoDup(s)
    ensures NoDup(Filter(keep, s))
  {
    if |s| > 0 {
      assert s == [s[0]] + s[1..];
      NoDupConcat([s[0]], s[1..]);
      FilterKeepsNoDup(keep, s[1..]);
      FilterMembers(keep, s[1..]);
      if keep(s[0]) {
        NoDupConcat([s[0]], Filter(keep, s[1..]));
      }
    }
  }

  // Asymmetry and negative transitivity: what a comparator must satisfy for a
  // sort to have a meaning at all.
  ghost predicate StrictWeak<T(!new)>(less: (T, T) -> bool) {
    && (forall a, b :: less(a, b) ==> !less(b, a))
    && (forall a, b, c :: !less(a, b) && !less(b, c) ==> !less(a, c))
  }

  ghost predicate Total<T(!new)>(less: (T, T) -> bool) {
    forall a, b :: a != b ==> less(a, b) || less(b, a)
  }

  ghost predicate Ordered<T>(less: (T, T) -> bool, s: seq<T>) {
    forall i, j :: 0 <= i < j < |s| ==> !less(s[j], s[i])
  }

  function Insert<T>(less: (T, T) -> bool, x: T, s: seq<T>): (r: seq<T>)
    ensures multiset(r) == multiset{x} + multiset(s)
  {
    if |s| == 0 || !less(s[0], x) then [x] + s
    else
      assert s == [s[0]] + s[1..];
      [s[0]] + Insert(less, x, s[1..])
  }

  /** sort.SliceStable and slices.Sort. */
  function StableSort<T>(less: (T, T) -> bool, s: seq<T>): (r: seq<T>)
    ensures multiset(r) == multiset(s)
    ensures |r| == |s|
  {
    if |s| == 0 then []
    else
      assert s == [s[0]] + s[1..];
      var r := Insert(less, s[0], StableSort(less, s[1..]));
      assert |multiset(r)| == |multiset(s)|;
      r
  }

  lemma SameMultisetSameElements<T(!new)>(s: seq<T>, t: seq<T>)
    requires multiset(s) == multiset(t)
    ensures forall x :: x in s <==> x in t
    ensures |s| == |t|
  {
    forall x ensures x in s <==> x in t {
      assert x in s <==> x in multiset(s);
      assert x in t <==> x in multiset(t);
    }
    assert |multiset(s)| == |multiset(t)|;
  }

  lemma PermutationKeepsNoDup<T(!new)>(s: seq<T>, t: seq<T>)
    requires multiset(s) == multiset(t) && NoDup(s)
    ensures NoDup(t)
  {
  }

  lemma SameElementsNoDupSameMultiset<T(!new)>(s: seq<T>, t: seq<T>)
    requires NoDup(s) && NoDup(t)
    requires forall x :: x in s <==> x in t
    ensures multiset(s) == multiset(t)
  {
  }

  lemma InsertKeepsOrder<T(!new)>(less: (T, T) -> bool, x: T, s: seq<T>)
    requires StrictWeak(less) && Ordered(less, s)
    ensures Ordered(less, Insert(less, x, s))
  {
    if |s| == 0 {
    } else if !less(s[0], x) {
      var r := [x] + s;
      forall i, j | 0 <= i < j < |r| ensures !less(r[j], r[i]) {
        if i == 0 && j > 1 {
          assert !less(s[j - 1], s[0]);
        }
      }
    } else {
      var tail := Insert(less, x, s[1..]);
      InsertKeepsOrder(less, x, s[1..]);
      var r := [s[0]] + tail;
      SameMultisetSameElements(tail, [x] + s[1..]);
      forall i, j | 0 <= i < j < |r| ensures !less(r[j], r[i]) {
        if i == 0 {
          assert tail[j - 1] in [x] + s[1..];
        }
      }
    }
  }

  lemma {:induction false} SortIsOrdered<T(!new)>(less: (T, T) -> bool, s: seq<T>)
    requires StrictWeak(less)
    ensures Ordered(less, StableSort(less, s))
  {
    if |s| > 0 {
      SortIsOrdered(less, s[1..]);
      InsertKeepsOrder(less, s[0], StableSort(less, s[1..]));
    }
  }

  // Stability: a class of elements the order does not tell apart keeps its order.
  lemma {:induction false} SortIsStable<T(!new)>(less: (T, T) -> bool, keep: T -> bool, s: seq<T>)
    requires forall a, b :: keep(a) && keep(b) ==> !less(a, b)
    ensures Filter(keep, StableSort(less, s)) == Filter(keep, s)
  {
    if |s| > 0 {
      SortIsStable(less, keep, s[1..]);
      InsertIsStable(less, keep, s[0], StableSort(less, s[1..]));
    }
  }

  lemma InsertIsStable<T(!new)>(less: (T, T) -> bool, keep: T -> bool, x: T, s: seq<T>)
    requires forall a, b :: keep(a) && keep(b) ==> !less(a, b)
    ensures Filter(keep, Insert(less, x, s)) == (if keep(x) then [x] else []) + Filter(keep, s)
  {
  }

  lemma TailMultiset<T(!new)>(s: seq<T>)
    requires |s| > 0
    ensures multiset(s[1..]) == multiset(s) - multiset{s[0]}
  {
    assert s == [s[0]] + s[1..];
  }

  lemma SortedHeadsAgree<T(!new)>(less: (T, T) -> bool, s: seq<T>, t: seq<T>)
    requires Total(less)
    requires Ordered(less, s) && Ordered(less, t)
    requires multiset(s) == multiset(t) && |s| > 0
    ensures |t| > 0 && s[0] == t[0]
  {
    SameMultisetSameElements(s, t);
    assert t[0] in s && s[0] in t;
    var i :| 0 <= i < |s| && s[i] == t[0];
    var j :| 0 <= j < |t| && t[j] == s[0];
    assert i == 0 || !less(s[i], s[0]);
    assert j == 0 || !less(t[j], t[0]);
  }

  /** Under a total order the sorted arrangement of a multiset is unique. */
  lemma {:induction false} SortedIsUnique<T(!new)>(less: (T, T) -> bool, s: seq<T>, t: seq<T>)
    requires Total(less)
    requires Ordered(less, s) && Ordered(less, t)
    requires multiset(s) == multiset(t)
    ensures s == t
  {
    SameMultisetSameElements(s, t);
    if |s| > 0 {
      SortedHeadsAgree(less, s, t);
      TailMultiset(s);
      TailMultiset(t);
      SortedIsUnique(less, s[1..], t[1..]);
      assert s == [s[0]] + s[1..] && t == [t[0]] + t[1..];
    }
  }

  lemma SortForgetsInputOrder<T(!new)>(less: (T, T) -> bool, s: seq<T>, t: seq<T>)
    requires StrictWeak(less) && Total(less)
    requires multiset(s) == multiset(t)
    ensures StableSort(less, s) == StableSort(less, t)
  {
    SortIsOrdered(less, s);
    SortIsOrdered(less, t);
    SortedIsUnique(less, StableSort(less, s), StableSort(less, t));
  }

  /** Integer keys in increasing order, the order of slices.Sort on identifiers. */
  function Ascending(): ((int, int) -> bool) {
    (a, b) => a < b
  }

  lemma AscendingIsTotal()
    ensures StrictWeak(Ascending()) && Total(Ascending())
  {
  }

  function SortIds(s: seq<int>): (r: seq<int>)
    ensures multiset(r) == multiset(s) && |r| == |s|
  {
    StableSort(Ascending(), s)
  }

  lemma SortIdsIsSorted(s: seq<int>)
    ensures forall i, j :: 0 <= i < j < |s| ==> SortIds(s)[i] <= SortIds(s)[j]
    ensures NoDup(s) ==> NoDup(SortIds(s))
    ensures forall x :: x in SortIds(s) <==> x in s
  {
    AscendingIsTotal();
    SortIsOrdered(Ascending(), s);
    SameMultisetSameElements(s, SortIds(s));
    if NoDup(s) {
      PermutationKeepsNoDup(s, SortIds(s));
    }
    var r := SortIds(s);
    forall i, j | 0 <= i < j < |s| ensures r[i] <= r[j] {
      assert !Ascending()(r[j], r[i]);
    }
  }
}
