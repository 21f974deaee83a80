/**
 Cooperating CFQ queues (cfq-iosched.c): a queue scheduled to merge points to
 the queue it merges into.  The links stay a forest, and every process reference
 is accounted for along them, so no walk loops or meets a freed queue.
 */
module CfqCoop {
  import opened Sums

  type Id = nat

  datatype Link = End | At(id: Id)

  // new_cfqq, ref, the requests allocated, and the processes attached.
  datatype Cfqq = Cfqq(newq: Link, ref: int, alloc: nat, procs: nat)

  type Queues = map<Id, Cfqq>

  // cfqq_process_refs
  function ProcessRefs(q: Cfqq): int { q.ref - q.alloc }

  // ---------------------------------------------------------------- forest

  // From x the links end within n steps.
  ghost predicate Ends(qs: Queues, x: Id, n: nat)
    decreases n
  {
    x in qs && (qs[x].newq == End || (n > 0 && Ends(qs, qs[x].newq.id, n - 1)))
  }

  ghost predicate Forest(qs: Queues) {
    forall x <- qs :: exists n :: Ends(qs, x, n)
  }

  // How far the end of the links is.
  ghost function Depth(qs: Queues, x: Id, n: nat): nat
    requires Ends(qs, x, n)
    decreases n
  {
    if qs[x].newq == End then 0 else 1 + Depth(qs, qs[x].newq.id, n - 1)
  }

  lemma {:induction false} DepthSame(qs: Queues, x: Id, n: nat, m: nat)
    requires Ends(qs, x, n) && Ends(qs, x, m)
    ensures Depth(qs, x, n) == Depth(qs, x, m)
    decreases n
  {
    if qs[x].newq != End { DepthSame(qs, qs[x].newq.id, n - 1, m - 1); }
  }

  // The last queue of the chain from x.
  ghost function Root(qs: Queues, x: Id, n: nat): (r: Id)
    requires Ends(qs, x, n)
    ensures r in qs && qs[r].newq == End
    decreases n
  {
    if qs[x].newq == End then x else Root(qs, qs[x].newq.id, n - 1)
  }

  // Is y on the chain from x?
  ghost predicate OnChain(qs: Queues, x: Id, y: Id, n: nat)
    requires Ends(qs, x, n)
    decreases n
  {
    x == y || (qs[x].newq.At? && OnChain(qs, qs[x].newq.id, y, n - 1))
  }

  // A queue is not on the chain beyond itself.
  lemma {:induction false} DeeperOnChain(qs: Queues, x: Id, y: Id, n: nat, m: nat)
    requires Ends(qs, x, n) && Ends(qs, y, m) && OnChain(qs, x, y, n)
    ensures Depth(qs, y, m) <= Depth(qs, x, n)
    decreases n
  {
    if x == y { DepthSame(qs, x, n, m); } else { DeeperOnChain(qs, qs[x].newq.id, y, n - 1, m); }
  }

  lemma NoLoop(qs: Queues, x: Id, n: nat)
    requires Ends(qs, x, n) && qs[x].newq.At?
    ensures !OnChain(qs, qs[x].newq.id, x, n - 1)
  {
    if OnChain(qs, qs[x].newq.id, x, n - 1) {
      DeeperOnChain(qs, qs[x].newq.id, x, n - 1, n);
      assert false;
    }
  }

  // Linking one root to another queue whose chain does not reach it.
  lemma {:induction false} LinkedEnds(qs: Queues, a: Id, b: Id, x: Id, n: nat, m: nat)
    requires Ends(qs, x, n) && Ends(qs, b, m) && a in qs && qs[a].newq == End && !OnChain(qs, b, a, m)
    ensures var ls := qs[a := qs[a].(newq := At(b))]; Ends(ls, x, n + 1 + m)
    decreases n
  {
    var ls := qs[a := qs[a].(newq := At(b))];
    if x == a {
      SameEnds(qs, ls, a, b, m);
      EndsLonger(ls, b, m, n + m);
    } else if qs[x].newq.At? {
      LinkedEnds(qs, a, b, qs[x].newq.id, n - 1, m);
    }
  }

  lemma {:induction false} SameEnds(qs: Queues, ls: Queues, a: Id, b: Id, m: nat)
    requires Ends(qs, b, m) && a in qs && !OnChain(qs, b, a, m) && ls.Keys == qs.Keys
    requires forall x <- qs :: x != a ==> ls[x].newq == qs[x].newq
    ensures Ends(ls, b, m)
    decreases m
  {
    if qs[b].newq.At? { SameEnds(qs, ls, a, qs[b].newq.id, m - 1); }
  }

  lemma {:induction false} EndsLonger(qs: Queues, x: Id, n: nat, m: nat)
    requires Ends(qs, x, n) && n <= m
    ensures Ends(qs, x, m)
    decreases n
  {
    if qs[x].newq.At? { EndsLonger(qs, qs[x].newq.id, n - 1, m - 1); }
  }

  lemma LinkKeepsForest(qs: Queues, a: Id, b: Id, m: nat)
    requires Forest(qs) && a in qs && qs[a].newq == End && Ends(qs, b, m) && !OnChain(qs, b, a, m)
    ensures Forest(qs[a := qs[a].(newq := At(b))])
  {
    var ls := qs[a := qs[a].(newq := At(b))];
    forall x | x in ls ensures exists n :: Ends(ls, x, n) {
      var n: nat :| Ends(qs, x, n);
      LinkedEnds(qs, a, b, x, n, m);
    }
  }

  // -------------------------------------------------------------- references

  ghost function KidRefs(qs: Queues, y: Id): map<Id, int> {
    map x | x in qs && qs[x].newq == At(y) :: ProcessRefs(qs[x])
  }

  // The process references held for the queues that will merge into y.
  ghost function Kids(qs: Queues, y: Id): int { Total(KidRefs(qs, y)) }

  // Every process reference belongs to an attached process or to one that is
  // still attached to a queue further down; x may be owed one more put.
  ghost predicate Balanced(qs: Queues, x: Link) {
    && (forall y <- qs :: ProcessRefs(qs[y]) >= 0)
    && (forall y <- qs :: ProcessRefs(qs[y]) == qs[y].procs + Kids(qs, y) + (if x == At(y) then 1 else 0))
  }

  ghost predicate CInv(qs: Queues) { Forest(qs) && Balanced(qs, End) }

  // Changing one queue's references.
  lemma KidsSet(qs: Queues, a: Id, q: Cfqq, y: Id)
    requires a in qs && q.newq == qs[a].newq
    ensures Kids(qs[a := q], y) == Kids(qs, y) + (if q.newq == At(y) then ProcessRefs(q) - ProcessRefs(qs[a]) else 0)
  {
    if q.newq == At(y) {
      assert KidRefs(qs[a := q], y) == KidRefs(qs, y)[a := ProcessRefs(q)];
      TotalSet(KidRefs(qs, y), a, ProcessRefs(q));
    } else {
      assert KidRefs(qs[a := q], y) == KidRefs(qs, y);
    }
  }

  // Linking a root to r.
  lemma KidsLink(qs: Queues, a: Id, r: Id, y: Id)
    requires a in qs && qs[a].newq == End
    ensures Kids(qs[a := qs[a].(newq := At(r))], y) == Kids(qs, y) + (if y == r then ProcessRefs(qs[a]) else 0)
  {
    var ls := qs[a := qs[a].(newq := At(r))];
    if y == r {
      assert KidRefs(ls, y) == KidRefs(qs, y)[a := ProcessRefs(qs[a])];
      TotalSet(KidRefs(qs, y), a, ProcessRefs(qs[a]));
    } else {
      assert KidRefs(ls, y) == KidRefs(qs, y);
    }
  }

  lemma KidsCover(qs: Queues, x: Id, y: Id)
    requires x in qs && qs[x].newq == At(y) && forall z <- qs :: ProcessRefs(qs[z]) >= 0
    ensures ProcessRefs(qs[x]) <= Kids(qs, y)
  {
    TotalSplit(KidRefs(qs, y), x);
    TotalNonneg(KidRefs(qs, y) - {x});
  }

  lemma KidsNonneg(qs: Queues, y: Id)
    requires forall z <- qs :: ProcessRefs(qs[z]) >= 0
    ensures Kids(qs, y) >= 0
  {
    TotalNonneg(KidRefs(qs, y));
  }

  // A queue with process references has none but living queues ahead of it.
  lemma {:induction false} ChainAlive(qs: Queues, x: Id, y: Id, n: nat)
    requires Balanced(qs, End) && Ends(qs, x, n) && OnChain(qs, x, y, n) && ProcessRefs(qs[x]) >= 1
    ensures y in qs && ProcessRefs(qs[y]) >= 1 && qs[y].ref >= 1
    decreases n
  {
    if x != y {
      var z := qs[x].newq.id;
      KidsCover(qs, x, z);
      ChainAlive(qs, z, y, n - 1);
    }
  }

  // cfq_put_queue
  function Put(qs: Queues, x: Id): Queues
    requires x in qs
  {
    qs[x := qs[x].(ref := qs[x].ref - 1)]
  }

  lemma {:induction false} PutEnds(qs: Queues, x: Id, y: Id, n: nat)
    requires x in qs && Ends(qs, y, n)
    ensures Ends(Put(qs, x), y, n)
    decreases n
  {
    if qs[y].newq.At? { PutEnds(qs, x, qs[y].newq.id, n - 1); }
  }

  // The loop of cfq_put_cooperator, from x on.
  ghost function PutFrom(qs: Queues, x: Id, n: nat): (r: Queues)
    requires Ends(qs, x, n)
    ensures r.Keys == qs.Keys
    decreases n
  {
    var p := Put(qs, x);
    if qs[x].newq == End then p
    else
      PutEnds(qs, x, qs[x].newq.id, n - 1);
      PutFrom(p, qs[x].newq.id, n - 1)
  }

  // Putting a queue that was owed a put passes the debt up its link.
  lemma PutPasses(qs: Queues, x: Id)
    requires x in qs && Balanced(qs, At(x)) && qs[x].newq != At(x)
    ensures Balanced(Put(qs, x), qs[x].newq)
  {
    hide Kids;
    var p := Put(qs, x);
    KidsNonneg(qs, x);
    forall y | y in p
      ensures ProcessRefs(p[y]) >= 0
      ensures ProcessRefs(p[y]) == p[y].procs + Kids(p, y) + (if qs[x].newq == At(y) then 1 else 0) {
      KidsSet(qs, x, p[x], y);
    }
  }

  lemma {:induction false} PutFromSettles(qs: Queues, x: Id, n: nat)
    requires Ends(qs, x, n) && Balanced(qs, At(x))
    ensures Balanced(PutFrom(qs, x, n), End)
    decreases n
  {
    if qs[x].newq == At(x) { NoLoop(qs, x, n); }
    PutPasses(qs, x);
    if qs[x].newq.At? {
      PutEnds(qs, x, qs[x].newq.id, n - 1);
      PutFromSettles(Put(qs, x), qs[x].newq.id, n - 1);
    }
  }

  // A queue off the chain plays no part in the loop.
  lemma {:induction false} PutFromAside(qs: Queues, a: Id, q: Cfqq, x: Id, n: nat)
    requires a in qs && q.newq == qs[a].newq && Ends(qs, x, n) && !OnChain(qs, x, a, n)
    ensures Ends(qs[a := q], x, n) && PutFrom(qs[a := q], x, n) == PutFrom(qs, x, n)[a := q]
    ensures PutFrom(qs, x, n)[a] == qs[a]
    decreases n
  {
    var p := Put(qs, x);
    assert Put(qs[a := q], x) == p[a := q];
    if qs[x].newq.At? {
      var y := qs[x].newq.id;
      PutEnds(qs, x, y, n - 1);
      PutOnChain(qs, x, y, a, n - 1);
      PutFromAside(qs, a, q, y, n - 1);
      PutFromAside(p, a, q, y, n - 1);
    }
  }

  lemma {:induction false} PutOnChain(qs: Queues, x: Id, y: Id, a: Id, n: nat)
    requires x in qs && Ends(qs, y, n) && Ends(Put(qs, x), y, n)
    ensures OnChain(Put(qs, x), y, a, n) == OnChain(qs, y, a, n)
    decreases n
  {
    if qs[y].newq.At? {
      PutEnds(qs, x, qs[y].newq.id, n - 1);
      PutOnChain(qs, x, qs[y].newq.id, a, n - 1);
    }
  }

  // Links decide the forest; references do not.
  ghost predicate SameLinks(qs: Queues, r: Queues) {
    r.Keys == qs.Keys && forall x <- qs :: r[x].newq == qs[x].newq
  }

  lemma {:induction false} LinksEnd(qs: Queues, r: Queues, x: Id, n: nat)
    requires SameLinks(qs, r) && Ends(qs, x, n)
    ensures Ends(r, x, n)
    decreases n
  {
    if qs[x].newq.At? { LinksEnd(qs, r, qs[x].newq.id, n - 1); }
  }

  lemma SameForest(qs: Queues, r: Queues)
    requires SameLinks(qs, r) && Forest(qs)
    ensures Forest(r)
  {
    forall x | x in r ensures exists n :: Ends(r, x, n) {
      var n: nat :| Ends(qs, x, n);
      LinksEnd(qs, r, x, n);
    }
  }

  lemma {:induction false} PutFromLinks(qs: Queues, x: Id, n: nat)
    requires Ends(qs, x, n)
    ensures SameLinks(qs, PutFrom(qs, x, n))
    decreases n
  {
    if qs[x].newq.At? {
      PutEnds(qs, x, qs[x].newq.id, n - 1);
      PutFromLinks(Put(qs, x), qs[x].newq.id, n - 1);
    }
  }

  // ---------------------------------------------------------- the operations

  // cfq_exit_cfqq, and split_cfqq of a shared queue: a process leaves a.
  ghost function Exit(qs: Queues, a: Id, n: nat): Queues
    requires Ends(qs, a, n)
  {
    var c := if qs[a].newq == End then qs else PutFrom(qs, qs[a].newq.id, n - 1);
    c[a := c[a].(ref := c[a].ref - 1, procs := if c[a].procs > 0 then c[a].procs - 1 else 0)]
  }

  lemma ExitKeeps(qs: Queues, a: Id, n: nat)
    requires CInv(qs) && Ends(qs, a, n) && qs[a].procs >= 1
    ensures CInv(Exit(qs, a, n)) && qs[a].ref >= 1
  {
    var left := qs[a].(procs := qs[a].procs - 1);
    var l := qs[a := left];
    assert Balanced(l, At(a)) by { Owe(qs, a, left); }
    LinksEnd(qs, l, a, n);
    PutFromSettles(l, a, n);
    KidsNonneg(qs, a);
    hide Balanced, Kids;
    var r := Exit(qs, a, n);
    assert SameLinks(qs, r) by { ExitLinks(qs, a, n); }
    SameForest(qs, r);
    assert PutFrom(l, a, n) == r by { ExitIsPutFrom(qs, a, n); }
  }

  lemma Owe(qs: Queues, a: Id, left: Cfqq)
    requires Balanced(qs, End) && a in qs && qs[a].procs >= 1 && left == qs[a].(procs := qs[a].procs - 1)
    ensures Balanced(qs[a := left], At(a))
  {
    hide Kids;
    var l := qs[a := left];
    forall y | y in l
      ensures ProcessRefs(l[y]) >= 0
      ensures ProcessRefs(l[y]) == l[y].procs + Kids(l, y) + (if At(a) == At(y) then 1 else 0) {
      KidsSet(qs, a, left, y);
    }
  }

  lemma ExitLinks(qs: Queues, a: Id, n: nat)
    requires Ends(qs, a, n)
    ensures SameLinks(qs, Exit(qs, a, n))
  {
    if qs[a].newq.At? { PutFromLinks(qs, qs[a].newq.id, n - 1); }
  }

  // The order of the puts does not matter.
  lemma ExitIsPutFrom(qs: Queues, a: Id, n: nat)
    requires Ends(qs, a, n) && qs[a].procs >= 1
    ensures var l := qs[a := qs[a].(procs := qs[a].procs - 1)]; Ends(l, a, n) && PutFrom(l, a, n) == Exit(qs, a, n)
  {
    var l := qs[a := qs[a].(procs := qs[a].procs - 1)];
    LinksEnd(qs, l, a, n);
    var q := qs[a].(procs := qs[a].procs - 1, ref := qs[a].ref - 1);
    assert Put(l, a) == qs[a := q];
    if qs[a].newq.At? {
      NoLoop(qs, a, n);
      PutFromAside(qs, a, q, qs[a].newq.id, n - 1);
    }
  }

  // cfq_merge_cfqqs: a process moves along the link.
  function Moved(qs: Queues, a: Id): Queues
    requires a in qs && qs[a].newq.At? && qs[a].newq.id in qs
  {
    var b := qs[a].newq.id;
    var m := qs[b := qs[b].(procs := qs[b].procs + 1)];
    m[a := m[a].(ref := m[a].ref - 1, procs := if m[a].procs > 0 then m[a].procs - 1 else 0)]
  }

  lemma TargetOf(qs: Queues, a: Id)
    requires Forest(qs) && a in qs && qs[a].newq.At?
    ensures qs[a].newq.id in qs && qs[a].newq.id != a
  {
    var n: nat :| Ends(qs, a, n);
    assert Ends(qs, qs[a].newq.id, n - 1);
    NoLoop(qs, a, n);
  }

  lemma MovedBalanced(qs: Queues, a: Id, b: Id)
    requires Balanced(qs, End) && a in qs && qs[a].newq == At(b) && b in qs && a != b && qs[a].procs >= 1
    ensures Balanced(Moved(qs, a), End) && qs[a].ref >= 1
  {
    hide Kids;
    var m := qs[b := qs[b].(procs := qs[b].procs + 1)];
    var r := Moved(qs, a);
    KidsNonneg(qs, a);
    forall y | y in r
      ensures ProcessRefs(r[y]) >= 0
      ensures ProcessRefs(r[y]) == r[y].procs + Kids(r, y) + (if End == At(y) then 1 else 0) {
      KidsSet(qs, b, m[b], y);
      KidsSet(m, a, r[a], y);
    }
  }

  lemma MovedKeeps(qs: Queues, a: Id)
    requires CInv(qs) && a in qs && qs[a].newq.At? && qs[a].procs >= 1
    ensures qs[a].newq.id in qs && CInv(Moved(qs, a)) && qs[a].ref >= 1
  {
    hide Forest, Balanced;
    TargetOf(qs, a);
    MovedBalanced(qs, a, qs[a].newq.id);
    SameForest(qs, Moved(qs, a));
  }

  // The end of cfq_setup_merge: of two queues that end their chains, the one
  // with fewer processes is linked to the other.
  function Linked(qs: Queues, a: Id, r: Id): Queues
    requires a in qs && r in qs
  {
    var p, pr := ProcessRefs(qs[a]), ProcessRefs(qs[r]);
    if p == 0 || pr == 0 then qs
    else if pr >= p then
      var l := qs[a := qs[a].(newq := At(r))];
      l[r := l[r].(ref := l[r].ref + p)]
    else
      var l := qs[r := qs[r].(newq := At(a))];
      l[a := l[a].(ref := l[a].ref + pr)]
  }

  lemma LinkKeeps(qs: Queues, a: Id, r: Id)
    requires CInv(qs) && a in qs && r in qs && a != r && qs[a].newq == End && qs[r].newq == End
    ensures var l := qs[a := qs[a].(newq := At(r))];
            CInv(l[r := l[r].(ref := l[r].ref + ProcessRefs(qs[a]))])
  {
    var l := qs[a := qs[a].(newq := At(r))];
    var k := l[r := l[r].(ref := l[r].ref + ProcessRefs(qs[a]))];
    assert Ends(qs, r, 0);
    LinkKeepsForest(qs, a, r, 0);
    SameForest(l, k);
    hide Kids, Forest;
    forall y | y in k
      ensures ProcessRefs(k[y]) >= 0
      ensures ProcessRefs(k[y]) == k[y].procs + Kids(k, y) + (if End == At(y) then 1 else 0) {
      KidsLink(qs, a, r, y);
      KidsSet(l, r, k[r], y);
    }
  }

  lemma LinkedKeeps(qs: Queues, a: Id, r: Id)
    requires CInv(qs) && a in qs && r in qs && a != r && qs[a].newq == End && qs[r].newq == End
    ensures CInv(Linked(qs, a, r))
  {
    hide CInv;
    LinkKeeps(qs, a, r);
    LinkKeeps(qs, r, a);
  }

  // cfq_setup_merge
  ghost function Setup(qs: Queues, a: Id, b: Id, n: nat): Queues
    requires a in qs && Ends(qs, b, n)
  {
    if ProcessRefs(qs[b]) == 0 || OnChain(qs, b, a, n) then qs else Linked(qs, a, Root(qs, b, n))
  }

  lemma {:induction false} RootOnChain(qs: Queues, b: Id, n: nat)
    requires Ends(qs, b, n)
    ensures OnChain(qs, b, Root(qs, b, n), n)
    decreases n
  {
    if qs[b].newq.At? { RootOnChain(qs, qs[b].newq.id, n - 1); }
  }

  // A link from one queue to another, which takes over its process references.
  function Joined(qs: Queues, from: Id, to: Id): Queues
    requires from in qs && to in qs
  {
    var l := qs[from := qs[from].(newq := At(to))];
    l[to := l[to].(ref := l[to].ref + ProcessRefs(qs[from]))]
  }

  // cfq_setup_merge does nothing exactly when a process reference is missing at b,
  // at a or at the end of b's chain, or a is on that chain; otherwise it links a and
  // the end of b's chain, from the one with fewer process references to the other,
  // and from a if they have as many.
  lemma SetupExactly(qs: Queues, a: Id, b: Id, n: nat)
    requires a in qs && qs[a].newq == End && Ends(qs, b, n)
    ensures var r := Root(qs, b, n);
            var idle := ProcessRefs(qs[b]) == 0 || OnChain(qs, b, a, n) || ProcessRefs(qs[a]) == 0
                || ProcessRefs(qs[r]) == 0;
            && (idle ==> Setup(qs, a, b, n) == qs)
            && (!idle ==>
                  && r != a && Setup(qs, a, b, n) != qs
                  && Setup(qs, a, b, n) ==
                     if ProcessRefs(qs[a]) <= ProcessRefs(qs[r]) then Joined(qs, a, r) else Joined(qs, r, a))
  {
    RootOnChain(qs, b, n);
    hide OnChain, Root;
    var r := Root(qs, b, n);
    if r != a {
      assert Joined(qs, a, r)[a].newq == At(r) && Joined(qs, r, a)[r].newq == At(a);
    }
  }

  lemma SetupKeeps(qs: Queues, a: Id, b: Id, n: nat)
    requires CInv(qs) && a in qs && qs[a].newq == End && Ends(qs, b, n)
    ensures CInv(Setup(qs, a, b, n))
  {
    hide CInv;
    RootOnChain(qs, b, n);
    if !OnChain(qs, b, a, n) { LinkedKeeps(qs, a, Root(qs, b, n)); }
  }

  // ------------------------------------------------------------- whole runs

  datatype Event =
    | Create(x: Id)                    // a process gets a queue of its own
    | Attach(x: Id)                    // a process shares a queue that merges nowhere
    | Request(x: Id)                   // cfq_set_request: a request and a reference
    | Finish(x: Id)                    // cfq_put_request
    | Cooperate(a: Id, b: Id)          // cfq_setup_merge, if a merges nowhere yet
    | Merge(a: Id)                     // cfq_merge_cfqqs
    | Leave(a: Id)                     // cfq_exit_cfqq

  ghost predicate Enabled(qs: Queues, e: Event) {
    match e
    case Create(x) => x !in qs
    case Attach(x) => x in qs && qs[x].newq == End
    case Request(x) => x in qs
    case Finish(x) => x in qs && qs[x].alloc >= 1
    case Cooperate(a, b) => a in qs && b in qs && a != b && qs[a].newq == End
    case Merge(a) => a in qs && qs[a].procs >= 1 && qs[a].newq.At?
    case Leave(a) => a in qs && qs[a].procs >= 1
  }

  ghost predicate Step(qs: Queues, e: Event, r: Queues)
    requires Enabled(qs, e)
  {
    match e
    case Create(x) => r == qs[x := Cfqq(End, 1, 0, 1)]
    case Attach(x) => r == qs[x := qs[x].(ref := qs[x].ref + 1, procs := qs[x].procs + 1)]
    case Request(x) => r == qs[x := qs[x].(ref := qs[x].ref + 1, alloc := qs[x].alloc + 1)]
    case Finish(x) => r == qs[x := qs[x].(ref := qs[x].ref - 1, alloc := qs[x].alloc - 1)]
    case Cooperate(a, b) => exists n :: Ends(qs, b, n) && r == Setup(qs, a, b, n)
    case Merge(a) => qs[a].newq.id in qs && r == Moved(qs, a)
    case Leave(a) => exists n :: Ends(qs, a, n) && r == Exit(qs, a, n)
  }

  // A queue changes its counts but not its balance.
  lemma CountsKeep(qs: Queues, x: Id, q: Cfqq)
    requires CInv(qs) && x in qs && q.newq == qs[x].newq && ProcessRefs(q) - q.procs == ProcessRefs(qs[x]) - qs[x].procs
    requires q.newq == End || ProcessRefs(q) == ProcessRefs(qs[x])
    ensures CInv(qs[x := q])
  {
    hide Kids, Forest;
    var r := qs[x := q];
    SameForest(qs, r);
    KidsNonneg(qs, x);
    forall y | y in r
      ensures ProcessRefs(r[y]) >= 0
      ensures ProcessRefs(r[y]) == r[y].procs + Kids(r, y) + (if End == At(y) then 1 else 0) {
      KidsSet(qs, x, q, y);
    }
  }

  lemma CreateKeeps(qs: Queues, x: Id)
    requires CInv(qs) && x !in qs
    ensures CInv(qs[x := Cfqq(End, 1, 0, 1)])
  {
    var r := qs[x := Cfqq(End, 1, 0, 1)];
    forall y | y in r ensures exists n :: Ends(r, y, n) {
      if y == x { assert Ends(r, x, 0); } else { var n: nat :| Ends(qs, y, n); NewEnds(qs, r, y, n); }
    }
    NoKids(qs, x);
    hide Forest, Ends;
    forall y | y in r ensures KidRefs(r, y) == KidRefs(qs, y) {}
    hide Total;
  }

  lemma {:induction false} NewEnds(qs: Queues, r: Queues, y: Id, n: nat)
    requires Ends(qs, y, n) && forall z <- qs :: z in r && r[z] == qs[z]
    ensures Ends(r, y, n)
    decreases n
  {
    if qs[y].newq.At? { NewEnds(qs, r, qs[y].newq.id, n - 1); }
  }

  // Nothing merges into a queue that does not exist.
  lemma NoKids(qs: Queues, x: Id)
    requires Forest(qs) && x !in qs
    ensures KidRefs(qs, x) == map[] && Kids(qs, x) == 0
  {
    forall z | z in qs ensures qs[z].newq != At(x) {
      if qs[z].newq.At? { TargetOf(qs, z); }
    }
  }

  // Every step keeps the links a forest and the references balanced.
  lemma StepKeeps(qs: Queues, e: Event, r: Queues)
    requires CInv(qs) && Enabled(qs, e) && Step(qs, e, r)
    ensures CInv(r)
  {
    hide CInv;
    match e
    case Create(x) => CreateKeeps(qs, x);
    case Attach(x) => CountsKeep(qs, x, r[x]);
    case Request(x) => CountsKeep(qs, x, r[x]);
    case Finish(x) => CountsKeep(qs, x, r[x]);
    case Cooperate(a, b) =>
      var n: nat :| Ends(qs, b, n) && r == Setup(qs, a, b, n);
      SetupKeeps(qs, a, b, n);
    case Merge(a) => MovedKeeps(qs, a);
    case Leave(a) =>
      var n: nat :| Ends(qs, a, n) && r == Exit(qs, a, n);
      ExitKeeps(qs, a, n);
  }

  ghost predicate Run(qss: seq<Queues>, es: seq<Event>) {
    && |qss| == |es| + 1 && qss[0] == map[]
    && forall i :: 0 <= i < |es| ==> Enabled(qss[i], es[i]) && Step(qss[i], es[i], qss[i + 1])
  }

  // In every reachable state the chains end, and whoever has a process attached
  // holds every queue ahead of it alive.
  lemma {:induction false} RunKeeps(qss: seq<Queues>, es: seq<Event>, n: nat)
    requires Run(qss, es) && n < |qss|
    ensures CInv(qss[n])
  {
    if n > 0 {
      RunKeeps(qss, es, n - 1);
      hide CInv, Step, Enabled;
      StepKeeps(qss[n - 1], es[n - 1], qss[n]);
    }
  }

  lemma AttachedAlive(qss: seq<Queues>, es: seq<Event>, n: nat, x: Id, y: Id, d: nat)
    requires Run(qss, es) && n < |qss| && x in qss[n] && qss[n][x].procs >= 1
    requires Ends(qss[n], x, d) && OnChain(qss[n], x, y, d)
    ensures y in qss[n] && qss[n][y].ref >= 1
  {
    RunKeeps(qss, es, n);
    KidsNonneg(qss[n], x);
    ChainAlive(qss[n], x, y, d);
  }

  // ------------------------------------------------------ the walks in place

  class Cooperators {
    var qs: Queues

    constructor ()
      ensures qs == map[] && CInv(qs)
    {
      qs := map[];
    }

    // cfq_setup_merge: the walk ends, never meets a freed queue, and links at
    // most one pair.
    method SetupMerge(a: Id, b: Id)
      requires CInv(qs) && a in qs && b in qs && a != b && qs[a].newq == End
      modifies this
      ensures CInv(qs) && exists n :: Ends(old(qs), b, n) && qs == Setup(old(qs), a, b, n)
    {
      hide CInv, Ends, Root;
      ghost var n := HasEnd(qs, b);
      SetupKeeps(qs, a, b, n);
      if ProcessRefs(qs[b]) == 0 { return; }
      var r := b;
      ghost var m: nat := n;
      while qs[r].newq.At?
        invariant qs == old(qs) && r in qs && m <= n && Ends(qs, r, m) && r != a
        invariant Root(qs, r, m) == Root(qs, b, n) && OnChain(qs, r, a, m) == OnChain(qs, b, a, n)
        invariant OnChain(qs, b, r, n)
        decreases m
      {
        ChainStep(qs, r, a, m);
        if qs[r].newq.id == a { return; }
        StepOnChain(qs, b, r, n);
        r := qs[r].newq.id;
        m := m - 1;
        assert qs[r].ref >= 1 by { Alive(qs, b, r, n); }
      }
      ChainEnd(qs, r, a, m);
      var p, pr := ProcessRefs(qs[a]), ProcessRefs(qs[r]);
      if p == 0 || pr == 0 { return; }
      if pr >= p {
        qs := qs[a := qs[a].(newq := At(r))];
        qs := qs[r := qs[r].(ref := qs[r].ref + p)];
      } else {
        qs := qs[r := qs[r].(newq := At(a))];
        qs := qs[a := qs[a].(ref := qs[a].ref + pr)];
      }
    }

    // cfq_put_cooperator and the put that follows it when a process leaves: the
    // loop warning never fires and every queue put is still there.
    method ExitQueue(a: Id) returns (warned: bool)
      requires CInv(qs) && a in qs && qs[a].procs >= 1
      modifies this
      ensures !warned && CInv(qs) && exists n :: Ends(old(qs), a, n) && qs == Exit(old(qs), a, n)
    {
      hide CInv, Ends, PutFrom;
      ghost var n := HasEnd(qs, a);
      ExitKeeps(qs, a, n);
      warned := PutCooperator(a, n);
      qs := qs[a := qs[a].(ref := qs[a].ref - 1, procs := if qs[a].procs > 0 then qs[a].procs - 1 else 0)];
    }

    method PutCooperator(a: Id, ghost n: nat) returns (warned: bool)
      requires Ends(qs, a, n)
      modifies this
      ensures !warned && qs == if old(qs)[a].newq == End then old(qs) else PutFrom(old(qs), old(qs)[a].newq.id, n - 1)
    {
      warned := false;
      var cur := qs[a].newq;
      ghost var m: nat := n;
      if cur.At? { NoLoop(qs, a, n); m := n - 1; }
      while cur.At?
        invariant a in qs && a in old(qs) && qs[a] == old(qs)[a]
                  && (cur.At? ==> Ends(qs, cur.id, m) && !OnChain(qs, cur.id, a, m))
        invariant old(qs)[a].newq == End ==> cur == End && qs == old(qs)
        invariant old(qs)[a].newq.At? ==>
                    (if cur.At? then PutFrom(qs, cur.id, m) else qs) == PutFrom(old(qs), old(qs)[a].newq.id, n - 1)
        decreases cur.At?, m
      {
        if cur == At(a) { warned := true; break; }
        var next := qs[cur.id].newq;
        if next.At? {
          PutEnds(qs, cur.id, next.id, m - 1);
          PutOnChain(qs, cur.id, next.id, a, m - 1);
          m := m - 1;
        }
        qs := Put(qs, cur.id);
        cur := next;
      }
    }
  }

  lemma HasEnd(qs: Queues, x: Id) returns (n: nat)
    requires CInv(qs) && x in qs
    ensures Ends(qs, x, n)
  {
    n :| Ends(qs, x, n);
  }

  // One step along the chain.
  lemma ChainStep(qs: Queues, r: Id, a: Id, m: nat)
    requires Ends(qs, r, m) && qs[r].newq.At? && r != a
    ensures m > 0 && qs[r].newq.id in qs && Ends(qs, qs[r].newq.id, m - 1)
    ensures Root(qs, qs[r].newq.id, m - 1) == Root(qs, r, m)
    ensures OnChain(qs, qs[r].newq.id, a, m - 1) == OnChain(qs, r, a, m)
    ensures qs[r].newq.id == a ==> OnChain(qs, r, a, m)
  {
  }

  lemma ChainEnd(qs: Queues, r: Id, a: Id, m: nat)
    requires Ends(qs, r, m) && qs[r].newq == End && r != a
    ensures Root(qs, r, m) == r && !OnChain(qs, r, a, m)
  {
  }

  lemma {:induction false} StepOnChain(qs: Queues, b: Id, r: Id, n: nat)
    requires Ends(qs, b, n) && OnChain(qs, b, r, n) && r in qs && qs[r].newq.At?
    ensures OnChain(qs, b, qs[r].newq.id, n)
    decreases n
  {
    if b != r { StepOnChain(qs, qs[b].newq.id, r, n - 1); }
  }

  lemma Alive(qs: Queues, b: Id, r: Id, n: nat)
    requires CInv(qs) && Ends(qs, b, n) && OnChain(qs, b, r, n) && ProcessRefs(qs[b]) != 0
    ensures r in qs && qs[r].ref >= 1
  {
    ChainAlive(qs, b, r, n);
  }
}
