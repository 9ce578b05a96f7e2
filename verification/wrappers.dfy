/** Option and Result, and the few sequence functions shared by the other modules. */
module Wrappers {
  datatype Option<+T> = None | Some(value: T)

  datatype Result<+T, +E> = Ok(value: T) | Err(error: E)

  const I64_MIN: int := -0x8000_0000_0000_0000
  const I64_MAX: int := 0x7FFF_FFFF_FFFF_FFFF

  type i64 = x: int | I64_MIN <= x <= I64_MAX

  /** The first `n` elements, or all of them. */
  function Take<T>(s: seq<T>, n: nat): seq<T> {
    if n < |s| then s[..n] else s
  }

  predicate NoDuplicates<T(==)>(s: seq<T>) {
    forall i, j :: 0 <= i < j < |s| ==> s[i] != s[j]
  }

  lemma NoDuplicatesOfConcat<T>(a: seq<T>, b: seq<T>)
    requires NoDuplicates(a) && NoDuplicates(b) && forall x <- a :: x !in b
    ensures NoDuplicates(a + b)
  {
    forall i, j | 0 <= i < j < |a + b| ensures (a + b)[i] != (a + b)[j] {
      if i < |a| <= j {
        assert a[i] in a && b[j - |a|] in b;
      }
    }
  }

  function ToSet<T(==)>(s: seq<T>): set<T> {
    set x <- s
  }

  lemma {:induction false} SetIsAtMostSeq<T>(s: seq<T>)
    ensures |ToSet(s)| <= |s|
  {
    if s != [] {
      var n := |s| - 1;
      SetIsAtMostSeq(s[..n]);
      assert ToSet(s) == ToSet(s[..n]) + {s[n]};
    }
  }

  lemma NonEmptySet(s: set<int>)
    requires s != {}
    ensures exists x :: x in s
  {
    if forall x :: x !in s {
      assert false;
    }
  }

  lemma SameSet(a: set<int>, b: set<int>)
    requires forall x :: x in a <==> x in b
    ensures a == b
  {
    forall x <- a ensures x in b {}
    forall x <- b ensures x in a {}
  }

  lemma SubsetIsSmaller<T>(a: set<T>, b: set<T>)
    requires a <= b
    ensures |a| <= |b|
  {
    assert b == a + (b - a);
  }

  predicate IsIncreasing(s: seq<int>) {
    forall i, j :: 0 <= i < j < |s| ==> s[i] < s[j]
  }

  lemma {:induction false} HasLeast(s: set<int>)
    requires s != {}
    ensures exists k :: k in s && forall j <- s :: k <= j
  {
    NonEmptySet(s);
    var x :| x in s;
    var rest := s - {x};
    var least := x;
    if rest != {} {
      HasLeast(rest);
      var k :| k in rest && forall j <- rest :: k <= j;
      least := if x < k then x else k;
    }
    assert least in s;
    forall j <- s ensures least <= j {
      if j != x {
        assert j in rest;
      }
    }
  }

  /** The elements of a set of row ids, as `ORDER BY id` lists them. */
  method InOrder(s: set<int>) returns (ids: seq<int>)
    ensures IsIncreasing(ids) && ToSet(ids) == s
  {
    ids := [];
    var rest := s;
    while rest != {}
      invariant IsIncreasing(ids)
      invariant forall i, k :: 0 <= i < |ids| && k in rest ==> ids[i] < k
      invariant ToSet(ids) + rest == s
      decreases rest
    {
      HasLeast(rest);
      var k :| k in rest && forall j <- rest :: k <= j;
      ids, rest := ids + [k], rest - {k};
    }
  }

  predicate IsDecreasing(s: seq<int>) {
    forall i, j :: 0 <= i < j < |s| ==> s[i] > s[j]
  }

  /** The elements of a set of row ids, as `ORDER BY id DESC` lists them. */
  method NewestFirst(s: set<int>) returns (ids: seq<int>)
    ensures IsDecreasing(ids) && ToSet(ids) == s
  {
    ids := [];
    var rest := s;
    while rest != {}
      invariant IsDecreasing(ids)
      invariant forall i, k :: 0 <= i < |ids| && k in rest ==> ids[i] < k
      invariant ToSet(ids) + rest == s
      decreases rest
    {
      HasLeast(rest);
      var k :| k in rest && forall j <- rest :: k <= j;
      ids, rest := [k] + ids, rest - {k};
    }
  }

  predicate IsNonDecreasing(s: seq<int>) {
    forall i, j :: 0 <= i < j < |s| ==> s[i] <= s[j]
  }

  /** The id SQLite gives a new row: one more than the largest id now in the table. */
  predicate IsNextRowId<T>(table: map<int, T>, id: int) {
    id >= 1 && (forall k <- table :: k < id) && (id == 1 || id - 1 in table)
  }

  method NextRowId<T>(table: map<int, T>) returns (id: int)
    ensures IsNextRowId(table, id)
  {
    id := 1;
    var rest := table.Keys;
    while rest != {}
      invariant rest <= table.Keys
      invariant id >= 1 && (forall k <- table :: k < id || k in rest) && (id == 1 || id - 1 in table)
      decreases rest
    {
      NonEmptySet(rest);
      var k :| k in rest;
      if k >= id {
        id := k + 1;
      }
      rest := rest - {k};
    }
  }

  function SaturatingAdd(a: int, b: int): i64 {
    if a + b > I64_MAX then I64_MAX else if a + b < I64_MIN then I64_MIN else a + b
  }

  function SaturatingSub(a: int, b: int): i64 {
    SaturatingAdd(a, -b)
  }
}
