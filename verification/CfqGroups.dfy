/**
 CFQ's weighted group scheduling (cfq-iosched.c): a service tree by virtual disk
 time, which each group is charged in inverse proportion to its weight.
 */
module CfqGroups {
  import opened Sums
  import opened KeyOrder

  const SERVICE_SHIFT_FACTOR: nat := 4096        // 1 << CFQ_SERVICE_SHIFT
  const WEIGHT_DEFAULT: nat := 500               // BLKIO_WEIGHT_DEFAULT
  const UNIT: nat := SERVICE_SHIFT_FACTOR * WEIGHT_DEFAULT

  datatype Link = End | At(id: Id)

  // weight, new_weight, needs_update and nr_cfqq of a group; the service it was
  // charged for in all, and how often.
  datatype Group = Group(weight: nat, newWeight: nat, needsUpdate: bool, nr: nat, charged: nat, turns: nat)

  datatype St = St(
    idleDelay: nat,            // CFQ_IDLE_DELAY
    groups: map<Id, Group>,
    vt: Keys,                  // vdisktime
    tree: seq<Id>,
    left: Link,
    minVt: int,
    totalWeight: int)

  // cfq_scale_slice
  function Scale(charge: nat, weight: nat): nat
    requires weight > 0
  {
    charge * SERVICE_SHIFT_FACTOR * WEIGHT_DEFAULT / weight
  }

  ghost predicate Known(st: St) {
    && st.groups.Keys == st.vt.Keys
    && forall x <- st.tree :: x in st.vt
  }

  // cfq_group_service_tree_add, which also installs a new weight
  function TreeAdd(st: St, x: Id): St
    requires Known(st) && x in st.groups
  {
    var g := st.groups[x];
    var g' := if g.needsUpdate then g.(weight := g.newWeight, needsUpdate := false) else g;
    st.(groups := st.groups[x := g'],
        tree := Insert(st.vt, st.tree, x),
        left := if st.tree == [] || st.vt[x] < st.vt[st.tree[0]] then At(x) else st.left,
        totalWeight := st.totalWeight + g'.weight)
  }

  // cfq_group_service_tree_del
  function TreeDel(st: St, x: Id): St
    requires x in st.groups
  {
    st.(tree := Without(st.tree, x), left := if st.left == At(x) then End else st.left,
        totalWeight := st.totalWeight - st.groups[x].weight)
  }

  // cfq_group_notify_queue_add: a group that comes back goes to the end
  function NotifyAdd(st: St, x: Id): St
    requires Known(st) && x in st.groups
  {
    var s := st.(groups := st.groups[x := st.groups[x].(nr := st.groups[x].nr + 1)]);
    if x in st.tree then s
    else
      var vt := if st.tree == [] then st.minVt else st.vt[st.tree[|st.tree| - 1]] + st.idleDelay;
      TreeAdd(s.(vt := st.vt[x := vt]), x)
  }

  // cfq_group_notify_queue_del
  function NotifyDel(st: St, x: Id): St
    requires x in st.groups && st.groups[x].nr >= 1
  {
    var s := st.(groups := st.groups[x := st.groups[x].(nr := st.groups[x].nr - 1)]);
    if s.groups[x].nr > 0 then s else TreeDel(s, x)
  }

  // cfq_group_served
  function Served(st: St, x: Id, charge: nat): St
    requires Known(st) && x in st.groups && st.groups[x].weight > 0
  {
    var g := st.groups[x];
    var d := TreeDel(st, x);
    TreeAdd(d.(vt := st.vt[x := st.vt[x] + Scale(charge, g.weight)],
               groups := st.groups[x := g.(charged := g.charged + charge, turns := g.turns + 1)]), x)
  }

  // cfq_get_next_cfqg
  function GetNext(st: St): St
    requires Known(st)
  {
    if st.tree == [] then st
    else
      var first := if st.left.At? then st.left.id else st.tree[0];
      var v := if first in st.vt then st.vt[first] else st.minVt;
      st.(left := At(first), minVt := if v > st.minVt then v else st.minVt)
  }

  // cfq_update_blkio_group_weight
  function SetWeight(st: St, x: Id, w: nat): St
    requires x in st.groups
  {
    st.(groups := st.groups[x := st.groups[x].(newWeight := w, needsUpdate := true)])
  }

  // ------------------------------------------------------------- invariants

  ghost predicate GroupOk(g: Group, on: bool) {
    g.weight > 0 && g.newWeight > 0 && (on <==> g.nr > 0)
  }

  ghost function Weights(groups: map<Id, Group>, tree: seq<Id>): map<Id, int> {
    map x | x in groups :: if x in tree then groups[x].weight else 0
  }

  // The tree is ordered, its cache and its weight are right, and nothing on it
  // is behind the minimum.
  ghost predicate TreeOk(st: St) {
    && InOrder(st.vt, st.tree)
    && (st.left.At? ==> st.tree != [] && st.left.id == st.tree[0])
    && (forall x <- st.tree :: x in st.vt && st.minVt <= st.vt[x])
  }

  ghost predicate GInv(st: St) {
    && Known(st) && TreeOk(st)
    && st.totalWeight == Total(Weights(st.groups, st.tree))
    && (forall x <- st.groups :: GroupOk(st.groups[x], x in st.tree))
  }

  lemma WeightsSet(groups: map<Id, Group>, tree: seq<Id>, tree': seq<Id>, x: Id, g: Group)
    requires x in groups && forall y :: y != x ==> (y in tree' <==> y in tree)
    ensures Total(Weights(groups[x := g], tree')) ==
              Total(Weights(groups, tree)) + (if x in tree' then g.weight else 0)
              - (if x in tree then groups[x].weight else 0)
  {
    var v := if x in tree' then g.weight else 0;
    assert Weights(groups[x := g], tree') == Weights(groups, tree)[x := v];
    TotalSet(Weights(groups, tree), x, v);
  }

  lemma InsertFirst(key: Keys, s: seq<Id>, x: Id)
    requires x in key && forall y <- s :: y in key
    ensures Insert(key, s, x) != [] && Insert(key, s, x)[0] == if s == [] || key[x] < key[s[0]] then x else s[0]
  {
  }

  lemma WithoutFirst(key: Keys, s: seq<Id>, x: Id)
    requires InOrder(key, s) && s != [] && s[0] != x
    ensures Without(s, x) != [] && Without(s, x)[0] == s[0]
  {
  }

  // A group off the tree is put on it.
  lemma TreeAddOk(st: St, x: Id)
    requires Known(st) && TreeOk(st) && x in st.groups && x !in st.tree && st.minVt <= st.vt[x]
    ensures TreeOk(TreeAdd(st, x)) && Known(TreeAdd(st, x))
    ensures forall y :: y in TreeAdd(st, x).tree <==> y in st.tree || y == x
  {
    InsertOk(st.vt, st.tree, x);
    InsertFirst(st.vt, st.tree, x);
    hide InOrder, Insert;
  }

  lemma TreeDelOk(st: St, x: Id)
    requires Known(st) && TreeOk(st) && x in st.groups
    ensures TreeOk(TreeDel(st, x)) && Known(TreeDel(st, x))
    ensures forall y :: y in TreeDel(st, x).tree <==> y in st.tree && y != x
  {
    WithoutOk(st.vt, st.tree, x);
    if st.tree != [] && st.tree[0] != x { WithoutFirst(st.vt, st.tree, x); }
    hide InOrder, Without;
  }

  // The keys of groups off the tree do not matter.
  lemma Rekeyed(st: St, x: Id, v: int)
    requires Known(st) && TreeOk(st) && x in st.groups && x !in st.tree
    ensures var s := st.(vt := st.vt[x := v]); Known(s) && TreeOk(s)
  {
    InKeys(st.vt, st.tree);
    OrderOf(st.vt, st.vt[x := v], st.tree);
  }

  lemma TreeOkOf(st: St, s: St)
    requires TreeOk(st) && s == st.(groups := s.groups, totalWeight := s.totalWeight)
    ensures TreeOk(s)
  {
  }

  // ---------------------------------------------------------- the operations

  lemma GroupsSet(st: St, s: St, x: Id)
    requires (forall y <- st.groups :: GroupOk(st.groups[y], y in st.tree)) && x in st.groups && x in s.groups
    requires s.groups == st.groups[x := s.groups[x]] && (forall y :: y != x ==> (y in s.tree <==> y in st.tree))
    requires GroupOk(s.groups[x], x in s.tree)
    ensures forall y <- s.groups :: GroupOk(s.groups[y], y in s.tree)
  {
  }

  lemma NotifyAddKeeps(st: St, x: Id)
    requires GInv(st) && x in st.groups
    ensures GInv(NotifyAdd(st, x)) && NotifyAdd(st, x).minVt == st.minVt
  {
    hide TreeOk, Total, Weights, Insert;
    var g := st.groups[x].(nr := st.groups[x].nr + 1);
    if x in st.tree {
      var r := NotifyAdd(st, x);
      TreeOkOf(st, r);
      WeightsSet(st.groups, st.tree, st.tree, x, g);
      GroupsSet(st, r, x);
    } else {
      var vt := if st.tree == [] then st.minVt else st.vt[st.tree[|st.tree| - 1]] + st.idleDelay;
      LastAhead(st);
      ComesBack(st, x, g, vt);
    }
  }

  lemma ComesBack(st: St, x: Id, g: Group, vt: int)
    requires GInv(st) && x in st.groups && x !in st.tree && st.minVt <= vt && g.nr > 0 && g.weight > 0
             && g.newWeight > 0
    ensures GInv(TreeAdd(st.(groups := st.groups[x := g], vt := st.vt[x := vt]), x))
  {
    hide TreeOk, Total, Weights, Insert;
    Rekeyed(st, x, vt);
    var a := st.(vt := st.vt[x := vt], groups := st.groups[x := g]);
    TreeOkOf(st.(vt := st.vt[x := vt]), a);
    TreeAddOk(a, x);
    var r := TreeAdd(a, x);
    WeightsSet(st.groups, st.tree, r.tree, x, r.groups[x]);
    assert r.groups == st.groups[x := r.groups[x]];
    GroupsSet(st, r, x);
  }

  // A group that comes back goes behind every group on the tree.
  lemma {:induction false} InsertLast(key: Keys, s: seq<Id>, x: Id)
    requires x in key && (forall y <- s :: y in key) && forall y <- s :: key[y] <= key[x]
    ensures Insert(key, s, x) == s + [x]
  {
    if s != [] { InsertLast(key, s[1..], x); }
  }

  lemma {:induction false} LastIsMost(key: Keys, s: seq<Id>, y: Id)
    requires InOrder(key, s) && y in s
    ensures s[|s| - 1] in key && y in key && key[y] <= key[s[|s| - 1]]
  {
    if |s| == 1 {
    } else if y == s[0] {
      assert s[|s| - 1] in s[1..];
    } else {
      LastIsMost(key, s[1..], y);
    }
  }

  lemma ComesLast(st: St, x: Id)
    requires GInv(st) && x in st.groups && x !in st.tree
    ensures NotifyAdd(st, x).tree == st.tree + [x]
    ensures NotifyAdd(st, x).vt ==
              st.vt[x := if st.tree == [] then st.minVt else st.vt[st.tree[|st.tree| - 1]] + st.idleDelay]
    ensures forall y <- st.tree :: st.vt[y] + st.idleDelay <= NotifyAdd(st, x).vt[x]
  {
    hide Total, Weights, Insert;
    var r := NotifyAdd(st, x);
    forall y | y in st.tree ensures y in r.vt && r.vt[y] <= r.vt[x] && st.vt[y] + st.idleDelay <= r.vt[x] {
      LastIsMost(st.vt, st.tree, y);
    }
    InsertLast(r.vt, st.tree, x);
  }

  lemma LastAhead(st: St)
    requires TreeOk(st)
    ensures st.tree != [] ==> var l := st.tree[|st.tree| - 1]; l in st.vt && st.minVt <= st.vt[l]
  {
  }

  lemma NotifyDelKeeps(st: St, x: Id)
    requires GInv(st) && x in st.groups && st.groups[x].nr >= 1
    ensures GInv(NotifyDel(st, x)) && NotifyDel(st, x).minVt == st.minVt
  {
    hide TreeOk, Total, Weights, Without;
    var r := NotifyDel(st, x);
    var g := st.groups[x].(nr := st.groups[x].nr - 1);
    var a := st.(groups := st.groups[x := g]);
    assert GroupOk(st.groups[x], x in st.tree);
    TreeOkOf(st, a);
    if g.nr > 0 {
      WeightsSet(st.groups, st.tree, st.tree, x, g);
    } else {
      TreeDelOk(a, x);
      WeightsSet(st.groups, st.tree, r.tree, x, g);
    }
    GroupsSet(st, r, x);
  }

  // What being served changes.
  lemma ServedOk(st: St, x: Id, charge: nat)
    requires GInv(st) && x in st.tree
    ensures x in st.groups && st.groups[x].weight > 0
    ensures var r, g := Served(st, x, charge), st.groups[x];
            && GInv(r) && r.minVt == st.minVt && (forall y :: y in r.tree <==> y in st.tree)
            && r.vt == st.vt[x := st.vt[x] + Scale(charge, g.weight)]
            && r.groups == st.groups[x := r.groups[x]]
            && r.groups[x] == g.(charged := g.charged + charge, turns := g.turns + 1, needsUpdate := false,
                                 weight := if g.needsUpdate then g.newWeight else g.weight)
  {
    hide TreeOk, Total, Weights, Insert, Without, Scale, Served;
    assert GroupOk(st.groups[x], true);
    ServedTree(st, x, charge);
    ServedFields(st, x, charge);
    var r := Served(st, x, charge);
    WeightsSet(st.groups, st.tree, r.tree, x, r.groups[x]);
    GroupsSet(st, r, x);
  }

  // What serving a group does to the tree ...
  lemma ServedTree(st: St, x: Id, charge: nat)
    requires Known(st) && TreeOk(st) && x in st.tree && x in st.groups && st.groups[x].weight > 0
    ensures var r := Served(st, x, charge);
            TreeOk(r) && Known(r) && forall y :: y in r.tree <==> y in st.tree
  {
    hide TreeOk, Insert, Without, Scale;
    var g := st.groups[x];
    var d := TreeDel(st, x);
    TreeDelOk(st, x);
    var v := st.vt[x] + Scale(charge, g.weight);
    assert st.minVt <= v by { Ahead(st, x); }
    Rekeyed(d, x, v);
    var a := d.(vt := st.vt[x := v], groups := st.groups[x := g.(charged := g.charged + charge, turns := g.turns + 1)]);
    TreeOkOf(d.(vt := st.vt[x := v]), a);
    TreeAddOk(a, x);
  }

  // ... and to the rest.
  lemma ServedFields(st: St, x: Id, charge: nat)
    requires Known(st) && x in st.groups && st.groups[x].weight > 0
    ensures var r, g := Served(st, x, charge), st.groups[x];
            && x in r.groups && r.minVt == st.minVt && r.vt == st.vt[x := st.vt[x] + Scale(charge, g.weight)]
            && r.groups == st.groups[x := r.groups[x]]
            && r.groups[x] == g.(charged := g.charged + charge, turns := g.turns + 1, needsUpdate := false,
                                 weight := if g.needsUpdate then g.newWeight else g.weight)
            && r.totalWeight == st.totalWeight - g.weight + r.groups[x].weight
  {
    hide Insert, Without, Scale;
  }

  lemma Ahead(st: St, x: Id)
    requires TreeOk(st) && x in st.tree
    ensures x in st.vt && st.minVt <= st.vt[x]
  {
  }

  // The chosen group has the least virtual time, and the minimum only moves up
  // to it.
  lemma GetNextOk(st: St)
    requires GInv(st)
    ensures var r := GetNext(st);
            && GInv(r) && r == st.(left := r.left, minVt := r.minVt) && st.minVt <= r.minVt
            && (st.tree != [] ==>
                  && r.left == At(st.tree[0]) && r.minVt == st.vt[st.tree[0]]
                  && forall y <- st.tree :: st.vt[st.tree[0]] <= st.vt[y])
  {
    hide Total, Weights;
    if st.tree != [] {
      forall y | y in st.tree ensures st.vt[st.tree[0]] <= st.vt[y] {
        if y != st.tree[0] { assert y in st.tree[1..]; }
      }
    }
  }

  lemma SetWeightKeeps(st: St, x: Id, w: nat)
    requires GInv(st) && x in st.groups && w > 0
    ensures GInv(SetWeight(st, x, w))
  {
    hide TreeOk, Total, Weights;
    var r := SetWeight(st, x, w);
    TreeOkOf(st, r);
    WeightsSet(st.groups, st.tree, st.tree, x, r.groups[x]);
    GroupsSet(st, r, x);
  }

  // A new weight is taken up when the group is next served: what it is charged then
  // is still scaled by the old one.
  lemma WeightTakesEffect(st: St, x: Id, w: nat, charge: nat)
    requires GInv(st) && x in st.tree && w > 0
    ensures x in st.groups && st.groups[x].weight > 0
    ensures var a := SetWeight(st, x, w);
            a.groups[x].weight == st.groups[x].weight && Known(a) &&
            var r := Served(a, x, charge);
            && r.groups[x].weight == w && !r.groups[x].needsUpdate
            && r.vt[x] == st.vt[x] + Scale(charge, st.groups[x].weight)
            && r.totalWeight == st.totalWeight - st.groups[x].weight + w
  {
    hide Insert, Without, Scale, Total, Weights;
    assert GroupOk(st.groups[x], true);
  }

  // ------------------------------------------------------------- whole runs

  datatype Event =
    | NewGroup(x: Id, weight: nat)
    | QueueAdd(x: Id)
    | QueueDel(x: Id)
    | Serve(x: Id, charge: nat)
    | Select
    | Reweigh(x: Id, weight: nat)

  ghost predicate Enabled(st: St, e: Event) {
    match e
    case NewGroup(x, w) => x !in st.groups && w > 0
    case QueueAdd(x) => x in st.groups
    case QueueDel(x) => x in st.groups && st.groups[x].nr >= 1
    case Serve(x, _) => x in st.tree
    case Select => true
    case Reweigh(x, w) => x in st.groups && w > 0
  }

  function Next(st: St, e: Event): St
    requires GInv(st) && Enabled(st, e)
  {
    match e
    case NewGroup(x, w) => st.(groups := st.groups[x := Group(w, w, false, 0, 0, 0)], vt := st.vt[x := 0])
    case QueueAdd(x) => NotifyAdd(st, x)
    case QueueDel(x) => NotifyDel(st, x)
    case Serve(x, charge) => ServedOk(st, x, charge); Served(st, x, charge)
    case Select => GetNext(st)
    case Reweigh(x, w) => SetWeight(st, x, w)
  }

  lemma NewGroupKeeps(st: St, x: Id, w: nat)
    requires GInv(st) && x !in st.groups && w > 0
    ensures GInv(Next(st, NewGroup(x, w)))
  {
    var r := Next(st, NewGroup(x, w));
    assert x !in st.tree;
    InKeys(st.vt, st.tree);
    OrderOf(st.vt, r.vt, st.tree);
    hide InOrder;
    assert Weights(r.groups, st.tree) == Weights(st.groups, st.tree)[x := 0];
    TotalSet(Weights(st.groups, st.tree), x, 0);
    hide Total;
  }

  // Every step keeps the tree right, and the minimum never falls.
  lemma NextKeeps(st: St, e: Event)
    requires GInv(st) && Enabled(st, e)
    ensures GInv(Next(st, e)) && st.minVt <= Next(st, e).minVt
  {
    hide GInv;
    match e
    case NewGroup(x, w) => NewGroupKeeps(st, x, w);
    case QueueAdd(x) => NotifyAddKeeps(st, x);
    case QueueDel(x) => NotifyDelKeeps(st, x);
    case Serve(x, charge) => ServedOk(st, x, charge);
    case Select => GetNextOk(st);
    case Reweigh(x, w) => SetWeightKeeps(st, x, w);
  }

  function Start(idleDelay: nat): St { St(idleDelay, map[], map[], [], End, 0, 0) }

  ghost predicate Run(idleDelay: nat, sts: seq<St>, es: seq<Event>) {
    && |sts| == |es| + 1 && sts[0] == Start(idleDelay)
    && forall i :: 0 <= i < |es| ==> Enabled(sts[i], es[i]) && (GInv(sts[i]) ==> sts[i + 1] == Next(sts[i], es[i]))
  }

  // In every reachable state the total weight is the sum of the weights on the
  // tree and nothing on the tree is behind the minimum, which never falls.
  lemma {:induction false} RunKeeps(idleDelay: nat, sts: seq<St>, es: seq<Event>, m: nat, n: nat)
    requires Run(idleDelay, sts, es) && m <= n < |sts|
    ensures GInv(sts[m]) && GInv(sts[n]) && sts[m].minVt <= sts[n].minVt
    decreases n
  {
    if n == 0 {
      assert Weights(map[], []) == map[];
    } else {
      hide GInv, Next, Enabled;
      RunKeeps(idleDelay, sts, es, if m < n then m else n - 1, n - 1);
      NextKeeps(sts[n - 1], es[n - 1]);
    }
  }

  // --------------------------------------------------------------- fairness

  // A round: the next group is selected and served.
  function Round(st: St, charge: nat): St
    requires GInv(st) && st.tree != []
  {
    GetNextOk(st);
    ServedOk(GetNext(st), st.tree[0], charge);
    Served(GetNext(st), st.tree[0], charge)
  }

  // The virtual times on the tree lie within B of each other.
  ghost predicate Spread(st: St, B: int) {
    forall x, y :: x in st.tree && y in st.tree && x in st.vt && y in st.vt ==> st.vt[x] - st.vt[y] <= B
  }

  lemma RoundOk(st: St, charge: nat)
    requires GInv(st) && st.tree != []
    ensures var x := st.tree[0];
            && x in st.groups && st.groups[x].weight > 0
            && var r, g := Round(st, charge), st.groups[x];
               && GInv(r) && st.minVt <= r.minVt && r.tree != [] && (forall y :: y in r.tree <==> y in st.tree)
               && r.vt == st.vt[x := st.vt[x] + Scale(charge, g.weight)]
               && r.groups == st.groups[x := r.groups[x]]
               && (!g.needsUpdate ==> r.groups[x] == g.(charged := g.charged + charge, turns := g.turns + 1))
               && (forall y <- st.tree :: st.vt[x] <= st.vt[y])
  {
    hide TreeOk, Total, Weights, Scale, Served;
    GetNextOk(st);
    ServedOk(GetNext(st), st.tree[0], charge);
    assert st.tree[0] in Round(st, charge).tree;
  }

  // Serving the group that is furthest behind keeps the spread within any bound
  // that already covers it and the charge.
  lemma RoundSpread(st: St, charge: nat, B: int)
    requires GInv(st) && st.tree != [] && Spread(st, B)
    requires var x := st.tree[0]; x in st.groups && st.groups[x].weight > 0 && Scale(charge, st.groups[x].weight) <= B
    ensures Spread(Round(st, charge), B)
  {
    hide GInv, Round, Scale;
    RoundOk(st, charge);
    var r, x := Round(st, charge), st.tree[0];
    forall a, b | a in r.tree && b in r.tree && a in r.vt && b in r.vt ensures r.vt[a] - r.vt[b] <= B {
      assert a in st.tree && b in st.tree;
      KnownOf(st, a);
      KnownOf(st, b);
      KnownOf(st, x);
      assert st.vt[x] <= st.vt[a] && st.vt[x] <= st.vt[b];
    }
  }

  function Rounds(st: St, charges: seq<nat>): St
    requires GInv(st) && st.tree != []
    decreases |charges|
  {
    if charges == [] then st
    else
      RoundOk(st, charges[0]);
      Rounds(Round(st, charges[0]), charges[1..])
  }

  // No round charges more than B, at the weight of the group that it charges.
  ghost predicate ChargesWithin(st: St, charges: seq<nat>, B: int)
    requires GInv(st) && st.tree != []
    decreases |charges|
  {
    charges == [] ||
      (RoundOk(st, charges[0]);
       && Scale(charges[0], st.groups[st.tree[0]].weight) <= B
       && ChargesWithin(Round(st, charges[0]), charges[1..], B))
  }

  // What a group was charged, against what its virtual time shows.
  ghost predicate Ledger(g: Group, v: int, g': Group, v': int) {
    && g'.weight == g.weight && g.charged <= g'.charged && g.turns <= g'.turns
    && g.weight * (v' - v) <= UNIT * (g'.charged - g.charged)
    && UNIT * (g'.charged - g.charged) <= g.weight * (v' - v + (g'.turns - g.turns))
  }

  lemma ScaleLedger(charge: nat, w: nat)
    requires w > 0
    ensures w * Scale(charge, w) <= UNIT * charge <= w * (Scale(charge, w) + 1)
  {
    assert charge * SERVICE_SHIFT_FACTOR * WEIGHT_DEFAULT == UNIT * charge;
  }

  lemma LedgerTrans(a: Group, va: int, b: Group, vb: int, c: Group, vc: int)
    requires Ledger(a, va, b, vb) && Ledger(b, vb, c, vc)
    ensures Ledger(a, va, c, vc)
  {
    var w := a.weight;
    assert w * (vc - va) == w * (vc - vb) + w * (vb - va);
    var tb, tc := b.turns - a.turns, c.turns - b.turns;
    assert w * (vc - va + (tb + tc)) == w * (vc - vb + tc) + w * (vb - va + tb);
  }

  lemma RoundLedger(st: St, charge: nat, x: Id)
    requires GInv(st) && x in st.tree && x in st.groups && !st.groups[x].needsUpdate
    ensures var r := Round(st, charge);
            x in r.groups && x in r.vt && !r.groups[x].needsUpdate
            && Ledger(st.groups[x], st.vt[x], r.groups[x], r.vt[x])
  {
    hide GInv, Round;
    RoundOk(st, charge);
    assert x in st.vt by { KnownOf(st, x); }
    var f := st.tree[0];
    if x == f {
      var w := st.groups[f].weight;
      ScaleLedger(charge, w);
      hide Scale;
    }
  }

  lemma KnownOf(st: St, x: Id)
    requires GInv(st) && x in st.tree
    ensures x in st.vt && x in st.groups
  {
  }

  // Fairness in virtual time, over any number of rounds among the same groups:
  // the spread stays within max(initial spread, largest scaled charge).
  lemma {:induction false} RoundsFair(st: St, charges: seq<nat>, B: int)
    requires GInv(st) && st.tree != [] && Spread(st, B) && ChargesWithin(st, charges, B)
    ensures var r := Rounds(st, charges);
            GInv(r) && Spread(r, B) && (forall y :: y in r.tree <==> y in st.tree) && st.minVt <= r.minVt
    decreases |charges|
  {
    hide GInv, Round, Scale;
    if charges != [] {
      RoundOk(st, charges[0]);
      RoundSpread(st, charges[0], B);
      RoundsFair(Round(st, charges[0]), charges[1..], B);
    }
  }

  // Whatever is charged, a group without a weight change pending keeps its weight,
  // and its virtual time shows its service.
  lemma {:induction false} RoundsLedger(st: St, charges: seq<nat>, x: Id)
    requires GInv(st) && x in st.tree && x in st.groups && !st.groups[x].needsUpdate
    ensures var r := Rounds(st, charges);
            && x in st.vt && x in r.groups && x in r.vt && x in r.tree
            && Ledger(st.groups[x], st.vt[x], r.groups[x], r.vt[x])
    decreases |charges|
  {
    hide GInv, Round, Scale;
    KnownOf(st, x);
    if charges != [] {
      var m := Round(st, charges[0]);
      RoundOk(st, charges[0]);
      RoundLedger(st, charges[0], x);
      RoundsLedger(m, charges[1..], x);
      var r := Rounds(st, charges);
      LedgerTrans(st.groups[x], st.vt[x], m.groups[x], m.vt[x], r.groups[x], r.vt[x]);
    }
  }

  // Fairness in service: what two backlogged groups were charged, each divided
  // by its weight, differs by at most 2B virtual time plus rounding.
  lemma ServiceFair(st: St, charges: seq<nat>, B: int, x: Id, y: Id)
    requires GInv(st) && st.tree != [] && Spread(st, B) && ChargesWithin(st, charges, B)
    requires x in st.tree && x in st.groups && !st.groups[x].needsUpdate
    requires y in st.tree && y in st.groups && !st.groups[y].needsUpdate
    ensures var r := Rounds(st, charges);
            && x in r.groups && y in r.groups
            && var wx, wy := st.groups[x].weight, st.groups[y].weight;
               var sx, sy := r.groups[x].charged - st.groups[x].charged, r.groups[y].charged - st.groups[y].charged;
               UNIT * sx * wy - UNIT * sy * wx <= wx * wy * (2 * B + (r.groups[x].turns - st.groups[x].turns))
  {
    hide GInv, Rounds, Round, ChargesWithin;
    RoundsFair(st, charges, B);
    RoundsLedger(st, charges, x);
    RoundsLedger(st, charges, y);
    var r := Rounds(st, charges);
    var wx, wy := st.groups[x].weight, st.groups[y].weight;
    var dx, dy := r.vt[x] - st.vt[x], r.vt[y] - st.vt[y];
    var t := r.groups[x].turns - st.groups[x].turns;
    assert dx - dy <= 2 * B;
    Weigh(wx, wy, UNIT * (r.groups[x].charged - st.groups[x].charged),
          UNIT * (r.groups[y].charged - st.groups[y].charged), dx, dy, t, B);
  }

  lemma Weigh(wx: nat, wy: nat, ux: int, uy: int, dx: int, dy: int, t: nat, B: int)
    requires ux <= wx * (dx + t) && wy * dy <= uy && dx - dy <= 2 * B
    ensures ux * wy - uy * wx <= wx * wy * (2 * B + t)
  {
    assert ux * wy <= wx * (dx + t) * wy;
    assert wy * dy * wx <= uy * wx;
    assert wx * (dx + t) * wy - wy * dy * wx == wx * wy * (dx - dy + t);
    assert wx * wy * (dx - dy + t) <= wx * wy * (2 * B + t);
  }

  lemma KnownIs(st: St)
    requires GInv(st)
    ensures Known(st)
  {
  }

  // ------------------------------------------------------- the tree in place

  class ServiceTree {
    const idleDelay: nat
    var groups: map<Id, Group>
    var vt: Keys
    var tree: seq<Id>
    var left: Link
    var minVt: int
    var totalWeight: int

    function View(): St
      reads this
    {
      St(idleDelay, groups, vt, tree, left, minVt, totalWeight)
    }

    constructor (idleDelay: nat)
      ensures View() == Start(idleDelay) && GInv(View())
    {
      this.idleDelay := idleDelay;
      groups, vt, tree, left, minVt, totalWeight := map[], map[], [], End, 0, 0;
      new;
      assert Weights(map[], []) == map[];
    }

    // cfq_group_service_tree_add
    method Add(x: Id)
      requires Known(View()) && x in groups
      modifies this
      ensures View() == TreeAdd(old(View()), x)
    {
      hide Insert;
      if groups[x].needsUpdate {
        groups := groups[x := groups[x].(weight := groups[x].newWeight, needsUpdate := false)];
      }
      if tree == [] || vt[x] < vt[tree[0]] { left := At(x); }
      tree := Insert(vt, tree, x);
      totalWeight := totalWeight + groups[x].weight;
    }

    // cfq_group_service_tree_del
    method Del(x: Id)
      requires x in groups
      modifies this
      ensures View() == TreeDel(old(View()), x)
    {
      totalWeight := totalWeight - groups[x].weight;
      if left == At(x) { left := End; }
      tree := Without(tree, x);
    }

    // cfq_group_notify_queue_add
    method QueueAdded(x: Id)
      requires GInv(View()) && x in groups
      modifies this
      ensures View() == NotifyAdd(old(View()), x) && GInv(View())
    {
      hide GInv, TreeAdd;
      KnownIs(View());
      NotifyAddKeeps(View(), x);
      groups := groups[x := groups[x].(nr := groups[x].nr + 1)];
      if x in tree { return; }
      vt := vt[x := if tree != [] then vt[tree[|tree| - 1]] + idleDelay else minVt];
      Add(x);
    }

    // cfq_group_notify_queue_del
    method QueueRemoved(x: Id)
      requires GInv(View()) && x in groups && groups[x].nr >= 1
      modifies this
      ensures View() == NotifyDel(old(View()), x) && GInv(View())
    {
      hide GInv, TreeDel;
      NotifyDelKeeps(View(), x);
      groups := groups[x := groups[x].(nr := groups[x].nr - 1)];
      if groups[x].nr > 0 { return; }
      Del(x);
    }

    // cfq_group_served: the time moves while the group is off the tree.
    method GroupServed(x: Id, charge: nat)
      requires GInv(View()) && x in tree
      modifies this
      ensures x in old(groups) && old(groups[x].weight) > 0
      ensures View() == Served(old(View()), x, charge) && GInv(View())
    {
      hide GInv, TreeAdd, Scale, Without;
      KnownIs(View());
      ServedOk(View(), x, charge);
      Del(x);
      vt := vt[x := vt[x] + Scale(charge, groups[x].weight)];
      groups := groups[x := groups[x].(charged := groups[x].charged + charge, turns := groups[x].turns + 1)];
      Add(x);
    }

    // cfq_get_next_cfqg
    method NextGroup() returns (l: Link)
      requires GInv(View())
      modifies this
      ensures View() == GetNext(old(View())) && GInv(View())
      ensures l == if old(tree) == [] then End else At(old(tree)[0])
      ensures forall y <- old(tree) :: l.At? && l.id in old(vt) && y in old(vt) && old(vt)[l.id] <= old(vt)[y]
    {
      GetNextOk(View());
      hide Total;
      if tree == [] { return End; }
      if left == End { left := At(tree[0]); }
      if vt[left.id] > minVt { minVt := vt[left.id]; }
      return left;
    }
  }
}
