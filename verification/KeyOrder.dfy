/** Sequences of ids in the order of their keys, as search trees keep them. */
module KeyOrder {

  type Id = nat
  type Keys = map<Id, int>

  // Removing an element.
  function Without(s: seq<Id>, x: Id): (r: seq<Id>)
    ensures forall y <- r :: y in s
  {
    if s == [] then [] else if s[0] == x then s[1..] else [s[0]] + Without(s[1..], x)
  }

  // Insertion as into a search tree whose equal keys go right.
  function Insert(key: Keys, s: seq<Id>, x: Id): seq<Id>
    requires x in key && forall y <- s :: y in key
  {
    if s == [] || key[x] < key[s[0]] then [x] + s else [s[0]] + Insert(key, s[1..], x)
  }

  // In key order, nothing twice.
  ghost predicate InOrder(key: Keys, s: seq<Id>) {
    s == [] ||
      (s[0] in key && (forall y <- s[1..] :: y in key && key[s[0]] <= key[y] && s[0] != y) && InOrder(key, s[1..]))
  }

  lemma {:induction false} WithoutOk(key: Keys, s: seq<Id>, x: Id)
    requires InOrder(key, s)
    ensures InOrder(key, Without(s, x)) && forall y :: y in Without(s, x) <==> y in s && y != x
    ensures |Without(s, x)| == |s| - (if x in s then 1 else 0)
  {
    if s != [] {
      assert s == [s[0]] + s[1..];
      if s[0] != x {
        WithoutOk(key, s[1..], x);
        assert Without(s, x)[1..] == Without(s[1..], x);
      }
    }
  }

  lemma {:induction false} InsertOk(key: Keys, s: seq<Id>, x: Id)
    requires InOrder(key, s) && x !in s && x in key && forall y <- s :: y in key
    ensures InOrder(key, Insert(key, s, x)) && forall y :: y in Insert(key, s, x) <==> y in s || y == x
    ensures |Insert(key, s, x)| == |s| + 1
  {
    if s == [] {
    } else if key[x] < key[s[0]] {
      assert ([x] + s)[1..] == s;
      forall y | y in s ensures key[x] <= key[y] { if y != s[0] { assert y in s[1..]; } }
    } else {
      InsertOk(key, s[1..], x);
      assert Insert(key, s, x)[1..] == Insert(key, s[1..], x);
      assert s == [s[0]] + s[1..];
    }
  }

  lemma {:induction false} AppendOk(key: Keys, s: seq<Id>, x: Id)
    requires InOrder(key, s) && x !in s && x in key && forall y <- s :: key[y] <= key[x]
    ensures InOrder(key, s + [x])
  {
    if s != [] {
      AppendOk(key, s[1..], x);
      assert (s + [x])[1..] == s[1..] + [x];
    }
  }

  // The order only looks at the keys of its members.
  lemma {:induction false} OrderOf(key: Keys, key': Keys, s: seq<Id>)
    requires InOrder(key, s) && forall y <- s :: y in key && y in key' && key'[y] == key[y]
    ensures InOrder(key', s)
  {
    if s != [] { OrderOf(key, key', s[1..]); }
  }

  lemma {:induction false} InKeys(key: Keys, s: seq<Id>)
    requires InOrder(key, s)
    ensures forall y <- s :: y in key
  {
    if s != [] { InKeys(key, s[1..]); }
  }

  // What lies before an element and what lies after it.
  lemma {:induction false} OrderParts(key: Keys, a: seq<Id>, x: Id, b: seq<Id>)
    requires InOrder(key, a + [x] + b)
    ensures InOrder(key, a) && InOrder(key, b) && x in key && (forall y <- a + b :: y in key)
    ensures (forall y <- a :: key[y] <= key[x]) && (forall y <- b :: key[x] <= key[y])
  {
    var s := a + [x] + b;
    if a == [] {
      assert s[1..] == b;
      InKeys(key, b);
    } else {
      assert s[1..] == a[1..] + [x] + b;
      OrderParts(key, a[1..], x, b);
      assert x in s[1..] && forall y <- a[1..] :: y in s[1..];
      assert a == [a[0]] + a[1..];
    }
  }

  lemma {:induction false} OrderDistinct(key: Keys, s: seq<Id>)
    requires InOrder(key, s)
    ensures forall i, j :: 0 <= i < j < |s| ==> s[i] != s[j]
  {
    if s != [] {
      OrderDistinct(key, s[1..]);
      forall i, j | 0 <= i < j < |s| ensures s[i] != s[j] {
        if i == 0 { assert s[j] in s[1..]; } else { assert s[i] == s[1..][i - 1] && s[j] == s[1..][j - 1]; }
      }
    }
  }
}
