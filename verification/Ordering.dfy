/** Stable sorting by a strict order, as a function and in place, and the uniqueness of its result. */
module Ordering {
  import opened Text

  /** No element comes after one it belongs before. */
  ghost predicate Sorted<T>(before: (T, T) -> bool, s: seq<T>) {
    forall i, j :: 0 <= i < j < |s| ==> !before(s[j], s[i])
  }

  /** A strict weak order: irreflexive, transitive, and incomparability is transitive. */
  ghost predicate StrictWeak<T(!new)>(before: (T, T) -> bool) {
    && (forall x :: !before(x, x))
    && (forall x, y, z :: before(x, y) && before(y, z) ==> before(x, z))
    && (forall x, y, z :: !before(x, y) && !before(y, z) ==> !before(x, z))
  }

  /** Distinct elements of `s` are comparable. */
  ghost predicate Separates<T>(before: (T, T) -> bool, s: seq<T>) {
    forall x, y :: x in s && y in s && x != y ==> before(x, y) || before(y, x)
  }

  /** `x` goes behind every element it does not belong before, as an insertion from the right places it. */
  function Insert<T>(before: (T, T) -> bool, s: seq<T>, x: T): seq<T> {
    if s == [] || !before(x, s[|s| - 1]) then s + [x]
    else Insert(before, s[..|s| - 1], x) + [s[|s| - 1]]
  }

  /** The stable sort of `s`. */
  function StableSort<T>(before: (T, T) -> bool, s: seq<T>): seq<T> {
    if s == [] then [] else Insert(before, StableSort(before, s[..|s| - 1]), s[|s| - 1])
  }

  lemma {:induction false} InsertMultiset<T>(before: (T, T) -> bool, s: seq<T>, x: T)
    ensures multiset(Insert(before, s, x)) == multiset(s) + multiset{x}
  {
    if s != [] && before(x, s[|s| - 1]) {
      InsertMultiset(before, s[..|s| - 1], x);
      assert s == s[..|s| - 1] + [s[|s| - 1]];
    }
  }

  lemma {:induction false} SortMultiset<T>(before: (T, T) -> bool, s: seq<T>)
    ensures multiset(StableSort(before, s)) == multiset(s)
  {
    if s != [] {
      SortMultiset(before, s[..|s| - 1]);
      InsertMultiset(before, StableSort(before, s[..|s| - 1]), s[|s| - 1]);
      assert s == s[..|s| - 1] + [s[|s| - 1]];
    }
  }

  lemma {:induction false} InsertSorted<T(!new)>(before: (T, T) -> bool, s: seq<T>, x: T)
    requires StrictWeak(before)
    requires Sorted(before, s)
    ensures Sorted(before, Insert(before, s, x))
  {
    if s == [] {
    } else {
      var n := |s| - 1;
      if !before(x, s[n]) {
        forall i | 0 <= i <= n
          ensures !before(x, s[i])
        {
          assert i < n ==> !before(s[n], s[i]);
        }
      } else {
        var front := Insert(before, s[..n], x);
        InsertSorted(before, s[..n], x);
        InsertMultiset(before, s[..n], x);
        forall y | y in front
          ensures !before(s[n], y)
        {
          assert y in multiset(front);
          if y == x {
            assert !before(s[n], s[n]);
          } else {
            assert y in s[..n];
          }
        }
      }
    }
  }

  lemma {:induction false} SortSorted<T(!new)>(before: (T, T) -> bool, s: seq<T>)
    requires StrictWeak(before)
    ensures Sorted(before, StableSort(before, s))
  {
    if s != [] {
      SortSorted(before, s[..|s| - 1]);
      InsertSorted(before, StableSort(before, s[..|s| - 1]), s[|s| - 1]);
    }
  }

  lemma SameLast<T>(before: (T, T) -> bool, a: seq<T>, b: seq<T>)
    requires Sorted(before, a) && Sorted(before, b)
    requires multiset(a) == multiset(b) && a != [] && b != []
    requires Separates(before, a)
    ensures a[|a| - 1] == b[|b| - 1]
  {
    var x, y := a[|a| - 1], b[|b| - 1];
    assert x in multiset(b) && y in multiset(a);
    var i :| 0 <= i < |b| && b[i] == x;
    var j :| 0 <= j < |a| && a[j] == y;
    assert x == y || !before(x, y);
    assert x == y || !before(y, x);
  }

  lemma InitMultiset<T>(s: seq<T>)
    requires s != []
    ensures multiset(s) == multiset(s[..|s| - 1]) + multiset{s[|s| - 1]}
  {
    assert s == s[..|s| - 1] + [s[|s| - 1]];
  }

  /** Where distinct elements are comparable, a sequence has one sorted arrangement. */
  lemma {:induction false} SortedUnique<T>(before: (T, T) -> bool, a: seq<T>, b: seq<T>)
    requires Sorted(before, a) && Sorted(before, b)
    requires multiset(a) == multiset(b)
    requires Separates(before, a)
    ensures a == b
    decreases |a|
  {
    assert |a| == |multiset(a)| == |multiset(b)| == |b|;
    if a != [] {
      var n := |a| - 1;
      SameLast(before, a, b);
      SameInit(a, b);
      SortedUnique(before, a[..n], b[..n]);
      assert a == a[..n] + [a[n]] && b == b[..n] + [b[n]];
    }
  }

  lemma SameInit<T>(a: seq<T>, b: seq<T>)
    requires multiset(a) == multiset(b) && a != [] && b != []
    requires a[|a| - 1] == b[|b| - 1]
    ensures multiset(a[..|a| - 1]) == multiset(b[..|b| - 1])
  {
    InitMultiset(a);
    InitMultiset(b);
    assert multiset(a[..|a| - 1]) == multiset(a) - multiset{a[|a| - 1]};
    assert multiset(b[..|b| - 1]) == multiset(b) - multiset{b[|b| - 1]};
  }

  /** The stable sort does not depend on the order of its input, where distinct elements are comparable. */
  lemma SortOfPermutation<T(!new)>(before: (T, T) -> bool, s: seq<T>, t: seq<T>)
    requires StrictWeak(before)
    requires multiset(s) == multiset(t) && Separates(before, s)
    ensures StableSort(before, s) == StableSort(before, t)
  {
    SortSorted(before, s);
    SortSorted(before, t);
    SortMultiset(before, s);
    SortMultiset(before, t);
    var r := StableSort(before, s);
    forall x, y | x in r && y in r && x != y
      ensures before(x, y) || before(y, x)
    {
      assert x in multiset(r) && y in multiset(r);
      assert x in s && y in s;
    }
    SortedUnique(before, r, StableSort(before, t));
  }

  /** Sorts an array in place by insertion, as the standard library's stable sort does on short runs. */
  method SortInPlace<T>(a: array<T>, before: (T, T) -> bool)
    modifies a
    ensures a[..] == StableSort(before, old(a[..]))
  {
    ghost var was := a[..];
    var i := 0;
    while i < a.Length
      invariant 0 <= i <= a.Length == |was|
      invariant a[..i] == StableSort(before, was[..i])
      invariant a[i..] == was[i..]
    {
      SinkLast(a, i, before);
      assert was[..i + 1][..i] == was[..i];
      i := i + 1;
    }
    assert a[..i] == a[..] && was[..i] == was;
  }

  /** Moves a[i] left over the elements it belongs before. */
  method SinkLast<T>(a: array<T>, i: nat, before: (T, T) -> bool)
    requires i < a.Length
    modifies a
    ensures a[..i + 1] == Insert(before, old(a[..i]), old(a[i]))
    ensures a[i + 1..] == old(a[i + 1..])
  {
    ghost var front := a[..i];
    ghost var rest := a[i + 1..];
    var x := a[i];
    var j := i;
    InsertLength(before, front, x);
    while j > 0 && before(x, a[j - 1])
      invariant 0 <= j <= i
      invariant a[..j] == front[..j]
      invariant a[j] == x
      invariant a[j + 1..i + 1] == front[j..]
      invariant a[i + 1..] == rest
      invariant Insert(before, front, x) == Insert(before, front[..j], x) + front[j..]
    {
      assert front[..j][..j - 1] == front[..j - 1];
      assert front[j - 1..] == [front[j - 1]] + front[j..];
      a[j], a[j - 1] := a[j - 1], a[j];
      j := j - 1;
    }
    assert Insert(before, front[..j], x) == front[..j] + [x];
    assert a[..i + 1] == a[..j] + [a[j]] + a[j + 1..i + 1];
  }

  lemma InsertLength<T>(before: (T, T) -> bool, s: seq<T>, x: T)
    ensures |Insert(before, s, x)| == |s| + 1
    ensures s[..|s|] == s && s[|s|..] == []
  {
    InsertMultiset(before, s, x);
    assert |multiset(Insert(before, s, x))| == |multiset(s) + multiset{x}|;
  }

  // ----- Orders by a rank, ties broken by descending id -----

  type Rank = (int, real)

  predicate RankLess(a: Rank, b: Rank) {
    a.0 < b.0 || (a.0 == b.0 && a.1 < b.1)
  }

  /** `before` orders by rank, up or down, and puts the greater id first among equal ranks. */
  ghost predicate OrderedBy<T(!new)>(before: (T, T) -> bool, rank: T -> Rank, id: T -> string, ascending: bool) {
    forall x, y :: before(x, y) <==>
      if rank(x) == rank(y) then Less(id(y), id(x))
      else if ascending then RankLess(rank(x), rank(y))
      else RankLess(rank(y), rank(x))
  }

  lemma RankedOrder<T(!new)>(before: (T, T) -> bool, rank: T -> Rank, id: T -> string, ascending: bool)
    requires OrderedBy(before, rank, id, ascending)
    ensures StrictWeak(before)
  {
    forall x
      ensures !before(x, x)
    {
      LessTotal(id(x), id(x));
    }
    forall x, y, z | before(x, y) && before(y, z)
      ensures before(x, z)
    {
      if rank(x) == rank(y) == rank(z) {
        LessTransitive(id(z), id(y), id(x));
      }
    }
    forall x, y, z | !before(x, y) && !before(y, z)
      ensures !before(x, z)
    {
      LessTotal(id(x), id(y));
      LessTotal(id(y), id(z));
      if rank(x) == rank(y) == rank(z) && Less(id(x), id(y)) && Less(id(y), id(z)) {
        LessTransitive(id(x), id(y), id(z));
      }
      LessTotal(id(x), id(z));
    }
  }

  /** Elements with different ids are comparable. */
  lemma RankedSeparates<T(!new)>(before: (T, T) -> bool, rank: T -> Rank, id: T -> string, ascending: bool, s: seq<T>)
    requires OrderedBy(before, rank, id, ascending)
    requires forall x, y :: x in s && y in s && x != y ==> id(x) != id(y)
    ensures Separates(before, s)
  {
    forall x, y | x in s && y in s && x != y
      ensures before(x, y) || before(y, x)
    {
      LessTotal(id(x), id(y));
    }
  }
}
