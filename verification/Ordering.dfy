/** Laying a finite set out as a list sorted by an integer key, with ties in any order. This is
    what an `ORDER BY` or a `sorted` over rows of unspecified input order promises. */
module Ordering {

  function Max(a: int, b: int): int { if a >= b then a else b }

  ghost predicate Distinct<T>(s: seq<T>) {
    forall i, j :: 0 <= i < j < |s| ==> s[i] != s[j]
  }

  ghost predicate Ascending<T>(s: seq<T>, key: T -> int) {
    forall i, j :: 0 <= i < j < |s| ==> key(s[i]) <= key(s[j])
  }

  lemma {:induction false} LeastExists<T>(elements: set<T>, key: T -> int)
    requires elements != {}
    ensures exists x :: x in elements && forall y :: y in elements ==> key(x) <= key(y)
    decreases |elements|
  {
    var x :| x in elements;
    var rest := elements - {x};
    if rest != {} {
      LeastExists(rest, key);
      var m :| m in rest && forall y :: y in rest ==> key(m) <= key(y);
      var least := if key(x) <= key(m) then x else m;
      forall y | y in elements ensures key(least) <= key(y) {
        assert y == x || y in rest;
      }
    } else {
      assert elements == rest + {x};
    }
  }

  /** A list without repetition has as many entries as values. */
  lemma {:induction false} DistinctLength<T>(s: seq<T>, values: set<T>)
    requires Distinct(s)
    requires forall x :: x in s <==> x in values
    ensures |s| == |values|
  {
    if s == [] {
      assert values == {};
    } else {
      var init, last := s[..|s| - 1], s[|s| - 1];
      assert forall x :: x in init <==> x in values - {last};
      DistinctLength(init, values - {last});
    }
  }

  lemma {:induction false} SubsetSize<T>(a: set<T>, b: set<T>)
    requires a <= b
    ensures |a| <= |b|
  {
    if a != {} {
      var x :| x in a;
      SubsetSize(a - {x}, b - {x});
    }
  }

  lemma {:induction false} SameSizeSubset<T>(a: set<T>, b: set<T>)
    requires a <= b && |a| == |b|
    ensures a == b
  {
    if b - a != {} {
      var x :| x in b - a;
      SubsetSize(a, b - {x});
      assert false;
    }
  }

  method OrderBy<T(==)>(elements: set<T>, key: T -> int) returns (out: seq<T>)
    ensures forall x :: x in out <==> x in elements
    ensures |out| == |elements|
    ensures Distinct(out) && Ascending(out, key)
  {
    out := [];
    var rest := elements;
    while rest != {}
      invariant rest <= elements
      invariant forall x :: x in out <==> x in elements && x !in rest
      invariant Distinct(out) && Ascending(out, key)
      invariant forall x, y :: x in out && y in rest ==> key(x) <= key(y)
      decreases |rest|
    {
      LeastExists(rest, key);
      var x :| x in rest && forall y :: y in rest ==> key(x) <= key(y);
      out := out + [x];
      rest := rest - {x};
    }
    DistinctLength(out, elements);
  }
}
