/** Sums over finite maps. */
module Sums {

  ghost function Total(m: map<nat, int>): int
    decreases |m|
  {
    if m == map[] then 0
    else
      var x :| x in m;
      assert |m - {x}| < |m| by { assert (m - {x}).Keys == m.Keys - {x}; }
      m[x] + Total(m - {x})
  }

  lemma {:induction false} TotalSplit(m: map<nat, int>, x: nat)
    requires x in m
    ensures Total(m) == m[x] + Total(m - {x})
    decreases |m|
  {
    var y :| y in m && Total(m) == m[y] + Total(m - {y});
    if y != x {
      assert (m - {x}).Keys == m.Keys - {x} && (m - {y}).Keys == m.Keys - {y};
      TotalSplit(m - {y}, x);
      TotalSplit(m - {x}, y);
      assert m - {y} - {x} == m - {x} - {y};
    }
  }

  lemma TotalSet(m: map<nat, int>, x: nat, v: int)
    ensures Total(m[x := v]) == Total(m) + v - (if x in m then m[x] else 0)
  {
    TotalSplit(m[x := v], x);
    if x in m {
      TotalSplit(m, x);
      assert m[x := v] - {x} == m - {x};
    } else {
      assert m[x := v] - {x} == m;
    }
  }

  lemma {:induction false} TotalNonneg(m: map<nat, int>)
    requires forall x <- m :: m[x] >= 0
    ensures Total(m) >= 0 && (Total(m) == 0 ==> forall x <- m :: m[x] == 0)
    decreases |m|
  {
    if m != map[] {
      var y :| y in m && Total(m) == m[y] + Total(m - {y});
      assert (m - {y}).Keys == m.Keys - {y};
      TotalNonneg(m - {y});
      forall x | x in m && Total(m) == 0 ensures m[x] == 0 {
        if x != y { assert x in m - {y}; }
      }
    }
  }


  lemma {:induction false} TotalZero(m: map<nat, int>)
    requires forall x <- m :: m[x] == 0
    ensures Total(m) == 0
    decreases |m|
  {
    if m != map[] {
      var x :| x in m && Total(m) == m[x] + Total(m - {x});
      assert (m - {x}).Keys == m.Keys - {x};
      TotalZero(m - {x});
    }
  }

  // Everything in the bags of a map.
  ghost function Bag(m: map<nat, multiset<nat>>): multiset<nat>
    decreases |m|
  {
    if m == map[] then multiset{}
    else
      var x :| x in m;
      assert |m - {x}| < |m| by { assert (m - {x}).Keys == m.Keys - {x}; }
      m[x] + Bag(m - {x})
  }

  lemma {:induction false} BagSplit(m: map<nat, multiset<nat>>, x: nat)
    requires x in m
    ensures Bag(m) == m[x] + Bag(m - {x})
    decreases |m|
  {
    var y :| y in m && Bag(m) == m[y] + Bag(m - {y});
    if y != x {
      assert (m - {x}).Keys == m.Keys - {x} && (m - {y}).Keys == m.Keys - {y};
      BagSplit(m - {y}, x);
      BagSplit(m - {x}, y);
      assert m - {y} - {x} == m - {x} - {y};
    }
  }

  lemma BagSet(m: map<nat, multiset<nat>>, x: nat, v: multiset<nat>)
    ensures x in m ==> Bag(m[x := v]) + m[x] == Bag(m) + v
    ensures x !in m ==> Bag(m[x := v]) == Bag(m) + v
  {
    BagSplit(m[x := v], x);
    if x in m {
      BagSplit(m, x);
      assert m[x := v] - {x} == m - {x};
    } else {
      assert m[x := v] - {x} == m;
    }
  }

  lemma Regroup(a: multiset<nat>, b: multiset<nat>, c: multiset<nat>)
    ensures a + (b + c) == (a + b) + c
  {
  }

  lemma Cancel(a: multiset<nat>, b: multiset<nat>, c: multiset<nat>)
    requires a + c == b + c
    ensures a == b
  {
    forall x ensures a[x] == b[x] { assert (a + c)[x] == (b + c)[x]; }
  }
}
