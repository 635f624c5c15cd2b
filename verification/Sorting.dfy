/** Sorting by a strict total order, and the byte order on strings that Go's `<` uses. */
module Sorting {
  ghost predicate StrictTotal<T(!new)>(less: (T, T) -> bool) {
    && (forall x :: !less(x, x))
    && (forall x, y :: x != y ==> less(x, y) || less(y, x))
    && (forall x, y, z :: less(x, y) && less(y, z) ==> less(x, z))
  }

  ghost predicate Increasing<T>(less: (T, T) -> bool, s: seq<T>) {
    forall i, j :: 0 <= i < j < |s| ==> less(s[i], s[j])
  }

  ghost predicate Distinct<T>(s: seq<T>) {
    forall i, j :: 0 <= i < j < |s| ==> s[i] != s[j]
  }

  ghost predicate SameElements<T(!new)>(a: seq<T>, b: seq<T>) {
    forall x :: x in a <==> x in b
  }

  function Insert<T(==)>(less: (T, T) -> bool, x: T, s: seq<T>): (r: seq<T>) {
    if s == [] || !less(s[0], x) then [x] + s else [s[0]] + Insert(less, x, s[1..])
  }

  /** The library sorts: sort.Ints, sort.Strings. */
  function Sort<T(==)>(less: (T, T) -> bool, s: seq<T>): seq<T> {
    if s == [] then [] else Insert(less, s[0], Sort(less, s[1..]))
  }

  lemma {:induction false} InsertIncreasing<T(!new)>(less: (T, T) -> bool, x: T, s: seq<T>)
    requires StrictTotal(less) && Increasing(less, s) && x !in s
    ensures Increasing(less, Insert(less, x, s))
    ensures forall y :: y in Insert(less, x, s) <==> y == x || y in s
  {
    if s == [] || !less(s[0], x) {
      forall i | 0 <= i < |s| ensures less(x, s[i]) {
        assert s[0] in s;
      }
    } else {
      assert s == [s[0]] + s[1..];
      InsertIncreasing(less, x, s[1..]);
      var t := Insert(less, x, s[1..]);
      forall j | 0 <= j < |t| ensures less(s[0], t[j]) {
        assert t[j] in t;
      }
    }
  }

  /** Sorting distinct elements gives an increasing sequence of the same elements. */
  lemma {:induction false} SortIncreasing<T(!new)>(less: (T, T) -> bool, s: seq<T>)
    requires StrictTotal(less) && Distinct(s)
    ensures Increasing(less, Sort(less, s)) && SameElements(Sort(less, s), s)
  {
    if s != [] {
      SortIncreasing(less, s[1..]);
      assert s == [s[0]] + s[1..];
      assert s[0] !in s[1..];
      InsertIncreasing(less, s[0], Sort(less, s[1..]));
    }
  }

  lemma HasFirst<T>(s: seq<T>)
    requires s != []
    ensures exists x :: x in s
  {
    assert s[0] in s;
  }

  /** An increasing sequence is determined by its elements. */
  lemma {:induction false} IncreasingUnique<T(!new)>(less: (T, T) -> bool, a: seq<T>, b: seq<T>)
    requires StrictTotal(less) && Increasing(less, a) && Increasing(less, b) && SameElements(a, b)
    ensures a == b
  {
    if a == [] {
      if b != [] { HasFirst(b); }
    } else {
      assert a[0] in b && b != [];
      assert b[0] in a;
      var x, y := a[0], b[0];
      assert x == y by {
        var i :| 0 <= i < |b| && b[i] == x;
        var j :| 0 <= j < |a| && a[j] == y;
        assert i > 0 ==> less(y, x);
        assert j > 0 ==> less(x, y);
      }
      assert a == [a[0]] + a[1..] && b == [b[0]] + b[1..];
      assert a[0] !in a[1..] && a[0] !in b[1..];
      forall x ensures x in a[1..] <==> x in b[1..] {
        assert x in a <==> x in b;
      }
      IncreasingUnique(less, a[1..], b[1..]);
    }
  }

  // ----- Orders -----

  function IntLess(a: int, b: int): bool { a < b }

  lemma IntLessTotal()
    ensures StrictTotal(IntLess)
  {
  }

  /** Lexicographic order of byte strings. */
  function StrLess(a: string, b: string): bool {
    if b == "" then false
    else if a == "" then true
    else a[0] < b[0] || (a[0] == b[0] && StrLess(a[1..], b[1..]))
  }

  lemma {:induction false} StrLessIrreflexive(a: string)
    ensures !StrLess(a, a)
  {
    if a != "" { StrLessIrreflexive(a[1..]); }
  }

  lemma {:induction false} StrLessConnected(a: string, b: string)
    requires a != b
    ensures StrLess(a, b) || StrLess(b, a)
  {
    if a != "" && b != "" && a[0] == b[0] {
      assert a == [a[0]] + a[1..] && b == [b[0]] + b[1..];
      StrLessConnected(a[1..], b[1..]);
    }
  }

  lemma {:induction false} StrLessTransitive(a: string, b: string, c: string)
    requires StrLess(a, b) && StrLess(b, c)
    ensures StrLess(a, c)
  {
    if a != "" && a[0] == b[0] && b[0] == c[0] {
      StrLessTransitive(a[1..], b[1..], c[1..]);
    }
  }

  lemma StrLessTotal()
    ensures StrictTotal(StrLess)
  {
    forall a: string ensures !StrLess(a, a) { StrLessIrreflexive(a); }
    forall a: string, b: string | a != b ensures StrLess(a, b) || StrLess(b, a) { StrLessConnected(a, b); }
    forall a: string, b: string, c: string | StrLess(a, b) && StrLess(b, c) ensures StrLess(a, c) {
      StrLessTransitive(a, b, c);
    }
  }
}
