/** Strictly ordered sequences: a set of prices has exactly one best-first listing. */
module Ordering {
  import opened Types

  ghost predicate BestFirst(d: Side, s: seq<u64>) {
    forall i, j {:trigger Better(d, s[i], s[j])} :: 0 <= i < j < |s| ==> Better(d, s[i], s[j])
  }

  lemma {:induction false} InOrder(d: Side, s: seq<u64>, i: int, j: int)
    requires BestFirst(d, s)
    ensures 0 <= i < j < |s| ==> Better(d, s[i], s[j])
  {
  }

  lemma {:induction false} SameWorst(d: Side, a: seq<u64>, b: seq<u64>)
    requires BestFirst(d, a) && BestFirst(d, b)
    requires |a| > 0 && |b| > 0
    requires Last(a) in b && Last(b) in a
    ensures Last(a) == Last(b)
  {
    var k :| 0 <= k < |b| && b[k] == Last(a);
    var m :| 0 <= m < |a| && a[m] == Last(b);
    assert k == |b| - 1 || Better(d, b[k], b[|b| - 1]);
    assert m == |a| - 1 || Better(d, a[m], a[|a| - 1]);
  }

  lemma {:induction false} WithoutWorst(d: Side, a: seq<u64>, x: u64)
    requires BestFirst(d, a) && |a| > 0
    ensures x in DropLast(a) <==> x in a && x != Last(a)
  {
    assert a == DropLast(a) + [Last(a)];
    if x in DropLast(a) {
      var k :| 0 <= k < |a| - 1 && a[k] == x;
      assert Better(d, a[k], a[|a| - 1]);
    }
  }

  /** Two strict best-first listings of the same prices are the same list. */
  lemma {:induction false} BestFirstUnique(d: Side, a: seq<u64>, b: seq<u64>)
    requires BestFirst(d, a) && BestFirst(d, b)
    requires forall x :: x in a <==> x in b
    ensures a == b
    decreases |a|
  {
    var first := if |a| > 0 then a[0] else if |b| > 0 then b[0] else 0;
    assert first in a <==> first in b;
    if |a| > 0 && |b| > 0 {
      assert Last(a) in b && Last(b) in a;
      SameWorst(d, a, b);
      forall x ensures x in DropLast(a) <==> x in DropLast(b) {
        WithoutWorst(d, a, x);
        WithoutWorst(d, b, x);
      }
      BestFirstUnique(d, DropLast(a), DropLast(b));
      assert a == DropLast(a) + [Last(a)] && b == DropLast(b) + [Last(b)];
    }
  }
}
