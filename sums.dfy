/** Sums over a finite set of order-line keys, in no particular order: the
    total committed quantity of a stock row and the price of an order are
    both such sums. */
module Sums {
  import opened Schema

  /** Some element of a non-empty set. */
  ghost function Pick(s: set<LineKey>): LineKey
    requires s != {}
  {
    var k :| k in s; k
  }

  /** The sum of f over s. */
  ghost function Sum(s: set<LineKey>, f: LineKey -> int): int
    decreases s
  {
    if s == {} then 0 else f(Pick(s)) + Sum(s - {Pick(s)}, f)
  }

  /** Any element can be taken out of the sum first. */
  lemma {:induction false} SumRemove(s: set<LineKey>, f: LineKey -> int, k: LineKey)
    requires k in s
    ensures Sum(s, f) == f(k) + Sum(s - {k}, f)
    decreases s
  {
    var j := Pick(s);
    if j != k {
      SumRemove(s - {j}, f, k);
      SumRemove(s - {k}, f, j);
      assert s - {j} - {k} == s - {k} - {j};
    }
  }

  /** Adding one new element adds its value. */
  lemma SumInsert(s: set<LineKey>, f: LineKey -> int, k: LineKey)
    requires k !in s
    ensures Sum(s + {k}, f) == f(k) + Sum(s, f)
  {
    SumRemove(s + {k}, f, k);
    assert s + {k} - {k} == s;
  }

  /** Functions that agree on s have the same sum over s. */
  lemma {:induction false} SumCongruence(s: set<LineKey>, f: LineKey -> int, g: LineKey -> int)
    requires forall k :: k in s ==> f(k) == g(k)
    ensures Sum(s, f) == Sum(s, g)
    decreases s
  {
    if s != {} {
      SumCongruence(s - {Pick(s)}, f, g);
    }
  }

  /** Replacing, or adding, the value at `k` moves the sum by the difference. */
  lemma SumReplace(s: set<LineKey>, f: LineKey -> int, g: LineKey -> int, k: LineKey)
    requires forall j :: j in s && j != k ==> f(j) == g(j)
    ensures Sum(s + {k}, g) == Sum(s, f) - (if k in s then f(k) else 0) + g(k)
  {
    SumCongruence(s - {k}, f, g);
    SumRemove(s + {k}, g, k);
    assert s + {k} - {k} == s - {k};
    if k in s {
      SumRemove(s, f, k);
    } else {
      assert s - {k} == s;
    }
  }
}
