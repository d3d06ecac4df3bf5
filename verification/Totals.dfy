/** Sums of integer values over a finite set of ids, independent of the order of summation. */
module Totals {

  ghost function Total(s: set<nat>, m: map<nat, int>): (t: int)
    requires s <= m.Keys
    decreases s
  {
    if s == {} then 0 else
      var x :| x in s;
      m[x] + Total(s - {x}, m)
  }

  /** Any member may be taken first. */
  lemma {:induction false} TotalPick(s: set<nat>, m: map<nat, int>, x: nat)
    requires x in s && s <= m.Keys
    ensures Total(s, m) == m[x] + Total(s - {x}, m)
    decreases s
  {
    var y :| y in s && Total(s, m) == m[y] + Total(s - {y}, m);
    if y != x {
      TotalPick(s - {y}, m, x);
      TotalPick(s - {x}, m, y);
      assert s - {y} - {x} == s - {x} - {y};
    }
  }

  lemma TotalAdd(s: set<nat>, m: map<nat, int>, x: nat)
    requires x !in s && s + {x} <= m.Keys
    ensures Total(s + {x}, m) == m[x] + Total(s, m)
  {
    TotalPick(s + {x}, m, x);
    assert s + {x} - {x} == s;
  }

  /** Raising every value raises the total; equal values give equal totals. */
  lemma {:induction false} TotalMonotone(s: set<nat>, m: map<nat, int>, m': map<nat, int>)
    requires s <= m.Keys && s <= m'.Keys
    requires forall x | x in s :: m[x] <= m'[x]
    ensures Total(s, m) <= Total(s, m')
    decreases s
  {
    if s != {} {
      var x :| x in s;
      TotalPick(s, m, x);
      TotalPick(s, m', x);
      TotalMonotone(s - {x}, m, m');
    }
  }

  lemma TotalSame(s: set<nat>, m: map<nat, int>, m': map<nat, int>)
    requires s <= m.Keys && s <= m'.Keys
    requires forall x | x in s :: m[x] == m'[x]
    ensures Total(s, m) == Total(s, m')
  {
    TotalMonotone(s, m, m');
    TotalMonotone(s, m', m);
  }
}
