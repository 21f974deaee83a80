/**
 Merging preserves meaning: through any sequence of merges every request covers
 one run of sectors with its bios in order, no bio is lost or duplicated, and
 the lookups stay exact.
 */
module ElevatorRuns {
  import opened Sums
  import opened BlockTypes
  import opened Segments
  import opened Elevator

  // ------------------------------------------------------- what a request is

  // A bio's identity, the sectors it covers, and where and which way it goes.
  datatype Extent = Extent(id: nat, sector: nat, size: nat, write: bool, disk: nat)

  function ExtentOf(b: Bio): Extent { Extent(b.id, b.sector, b.size, b.write, b.disk) }

  function Outline(bios: seq<Bio>): (r: seq<Extent>)
    ensures |r| == |bios| && forall i :: 0 <= i < |bios| ==> r[i] == ExtentOf(bios[i])
  {
    if bios == [] then [] else [ExtentOf(bios[0])] + Outline(bios[1..])
  }

  // Whole-sector extents one after the other from a sector on, all the same way to
  // the same disk.
  ghost predicate Laid(sector: int, write: bool, disk: nat, xs: seq<Extent>)
    decreases |xs|
  {
    xs == [] ||
      (xs[0].sector == sector && xs[0].size % SECTOR == 0 && xs[0].write == write && xs[0].disk == disk
       && Laid(sector + xs[0].size / SECTOR, write, disk, xs[1..]))
  }

  function Size(xs: seq<Extent>): nat {
    if xs == [] then 0 else xs[0].size + Size(xs[1..])
  }

  // A request's bios run on from its start sector, add up to its length, and go
  // the same way to the same disk as it does.
  ghost predicate RqOk(rq: Request) {
    Chained(rq) && Laid(rq.sector, rq.write, rq.disk, Outline(rq.bios)) && rq.dataLen == Size(Outline(rq.bios))
  }

  lemma {:induction false} LaidSize(sector: int, write: bool, disk: nat, xs: seq<Extent>)
    requires Laid(sector, write, disk, xs)
    ensures Size(xs) % SECTOR == 0
    decreases |xs|
  {
    if xs != [] { LaidSize(sector + xs[0].size / SECTOR, write, disk, xs[1..]); }
  }

  lemma {:induction false} LaidAppend(sector: int, write: bool, disk: nat, a: seq<Extent>, b: seq<Extent>)
    requires Laid(sector, write, disk, a) && Laid(sector + Size(a) / SECTOR, write, disk, b)
    ensures Laid(sector, write, disk, a + b) && Size(a + b) == Size(a) + Size(b)
    decreases |a|
  {
    if a == [] {
      assert a + b == b;
    } else {
      LaidSize(sector + a[0].size / SECTOR, write, disk, a[1..]);
      assert Size(a) / SECTOR == a[0].size / SECTOR + Size(a[1..]) / SECTOR;
      LaidAppend(sector + a[0].size / SECTOR, write, disk, a[1..], b);
      assert (a + b)[1..] == a[1..] + b;
    }
  }

  lemma OutlineIs(a: seq<Bio>, b: seq<Bio>)
    requires |a| == |b| && forall i :: 0 <= i < |a| ==> ExtentOf(a[i]) == ExtentOf(b[i])
    ensures Outline(a) == Outline(b)
  {
  }

  lemma OutlineAppend(a: seq<Bio>, b: seq<Bio>)
    ensures Outline(a + b) == Outline(a) + Outline(b)
  {
  }

  // --------------------------------------------------------- what merges do

  // The same request but for its caches and its mergeability.
  ghost predicate Same(a: Request, b: Request) {
    Chained(b) && Outline(b.bios) == Outline(a.bios) && b.sector == a.sector && b.dataLen == a.dataLen
    && b.write == a.write && b.disk == a.disk
  }

  lemma CountedOutline(lim: Limits, bios: seq<Bio>, k: int)
    requires DataChain(bios) && 0 <= k < |bios| && (k == 0 || k == |bios| - 1)
    ensures bios != [] && Outline(bios[k := Counted(lim, bios[k])]) == Outline(bios)
  {
    CountedSame(lim, bios[k]);
    hide Counted;
    OutlineIs(bios, bios[k := Counted(lim, bios[k])]);
  }

  lemma CountedOne(lim: Limits, b: Bio)
    ensures Outline([Counted(lim, b)]) == [ExtentOf(b)] && Counted(lim, b).size == b.size
            && Counted(lim, b).sector == b.sector
  {
    CountedSame(lim, b);
    hide Counted;
  }

  lemma BackOutline(lim: Limits, rq: Request, bio: Bio)
    requires Chained(rq) && bio.vecs != []
    ensures var m := BackMerge(lim, rq, bio);
            if m.ok then Chained(m.rq) && Outline(m.rq.bios) == Outline(rq.bios) + [ExtentOf(bio)]
                         && m.rq.sector == rq.sector && m.rq.dataLen == rq.dataLen + bio.size
                         && m.rq.noMerge == rq.noMerge
                         && m.rq.write == rq.write && m.rq.disk == rq.disk
            else Same(rq, m.rq) && m.rq.noMerge
  {
    hide Outline, Counted, DataChain;
    ChainEnds(rq.bios);
    BackChained(lim, rq, bio);
    CountedOutline(lim, rq.bios, |rq.bios| - 1);
    CountedOne(lim, bio);
    OutlineAppend(rq.bios[|rq.bios| - 1 := Counted(lim, rq.bios[|rq.bios| - 1])], [Counted(lim, bio)]);
  }

  lemma FrontOutline(lim: Limits, rq: Request, bio: Bio)
    requires Chained(rq) && bio.vecs != []
    ensures var m := FrontMerge(lim, rq, bio);
            if m.ok then Chained(m.rq) && Outline(m.rq.bios) == [ExtentOf(bio)] + Outline(rq.bios)
                         && m.rq.sector == bio.sector && m.rq.dataLen == rq.dataLen + bio.size
                         && m.rq.noMerge == rq.noMerge
                         && m.rq.write == rq.write && m.rq.disk == rq.disk
            else Same(rq, m.rq) && m.rq.noMerge
  {
    hide Outline, Counted, DataChain;
    ChainEnds(rq.bios);
    FrontChained(lim, rq, bio);
    CountedOutline(lim, rq.bios, 0);
    CountedOne(lim, bio);
    OutlineAppend([Counted(lim, bio)], rq.bios[0 := Counted(lim, rq.bios[0])]);
  }

  lemma CachesSame(bios: seq<Bio>, segs: nat, n: nat)
    requires DataChain(bios)
    ensures DataChain(Fronted(bios, segs, n)) && Outline(Fronted(bios, segs, n)) == Outline(bios)
    ensures DataChain(Backed(bios, segs, n)) && Outline(Backed(bios, segs, n)) == Outline(bios)
  {
    OutlineIs(Fronted(bios, segs, n), bios);
    OutlineIs(Backed(bios, segs, n), bios);
  }

  lemma MergeOutline(lim: Limits, a: Request, b: Request)
    requires Chained(a) && Chained(b)
    ensures a.bios[|a.bios| - 1].vecs != [] && b.bios[0].vecs != []
    ensures var m := MergeRequests(lim, a, b);
            if m.ok then Chained(m.rq) && Outline(m.rq.bios) == Outline(a.bios) + Outline(b.bios)
                         && m.rq.sector == a.sector && m.rq.dataLen == a.dataLen + b.dataLen
                         && m.rq.noMerge == a.noMerge
                         && m.rq.write == a.write && m.rq.disk == a.disk
            else Same(a, m.rq) && Same(b, m.next) && m.rq.noMerge == a.noMerge && m.next.noMerge == b.noMerge
  {
    hide Outline, Fronted, Backed, Contig, DataChain, Sectors;
    ChainEnds(a.bios);
    ChainEnds(b.bios);
    var n := a.bios[|a.bios| - 1].segBack + b.bios[0].segFront;
    var f, g := Fronted(a.bios, a.nrSegs, n), Backed(b.bios, b.nrSegs, n);
    CachesSame(a.bios, a.nrSegs, n);
    CachesSame(b.bios, b.nrSegs, n);
    OutlineAppend(a.bios, b.bios);
    OutlineAppend(f, g);
    DataAppend(a.bios, b.bios);
    DataAppend(f, g);
  }

  // So a request stays a run of sectors.
  lemma BackRun(lim: Limits, rq: Request, bio: Bio)
    requires RqOk(rq) && bio.vecs != [] && bio.size % SECTOR == 0 && bio.sector == Key(rq)
    requires bio.write == rq.write && bio.disk == rq.disk
    ensures RqOk(BackMerge(lim, rq, bio).rq)
  {
    BackOutline(lim, rq, bio);
    hide BackMerge, Outline;
    LaidAppend(rq.sector, rq.write, rq.disk, Outline(rq.bios), [ExtentOf(bio)]);
  }

  lemma FrontRun(lim: Limits, rq: Request, bio: Bio)
    requires RqOk(rq) && bio.vecs != [] && bio.size % SECTOR == 0 && bio.sector + Sectors(bio.size) == rq.sector
    requires bio.write == rq.write && bio.disk == rq.disk
    ensures RqOk(FrontMerge(lim, rq, bio).rq)
  {
    FrontOutline(lim, rq, bio);
    hide FrontMerge, Outline;
    var x := ExtentOf(bio);
    assert ([x] + Outline(rq.bios))[1..] == Outline(rq.bios);
  }

  lemma MergeRun(lim: Limits, a: Request, b: Request)
    requires RqOk(a) && RqOk(b) && Key(a) == b.sector && a.write == b.write && a.disk == b.disk
    ensures a.bios[|a.bios| - 1].vecs != [] && b.bios[0].vecs != []
    ensures var m := MergeRequests(lim, a, b); RqOk(m.rq) && (!m.ok ==> RqOk(m.next))
  {
    MergeOutline(lim, a, b);
    hide MergeRequests, Outline;
    if MergeRequests(lim, a, b).ok { LaidAppend(a.sector, a.write, a.disk, Outline(a.bios), Outline(b.bios)); }
  }

  // ------------------------------------------------------------- the hash

  lemma {:induction false} WithoutUniq(s: seq<Id>, x: Id)
    requires Uniq(s)
    ensures Uniq(Without(s, x)) && (x !in s ==> Without(s, x) == s)
  {
    if s != [] {
      assert s == [s[0]] + s[1..];
      WithoutUniq(s[1..], x);
      if s[0] != x { assert Without(s, x)[1..] == Without(s[1..], x); }
    }
  }

  // The hash is right for every request but x.
  ghost predicate HashBut(e: Elv, x: Id) {
    && |e.hash| == HASH_ENTRIES
    && (forall i :: 0 <= i < HASH_ENTRIES ==> Uniq(e.hash[i]))
    && (forall i, y :: 0 <= i < HASH_ENTRIES && y in e.hash[i] && y != x ==> y in e.rqs && Slot(e, Key(e.rqs[y])) == i)
    && (forall y <- e.rqs :: y != x && Mergeable(e.rqs[y]) ==> y in e.hash[Slot(e, Key(e.rqs[y]))])
  }

  // Changing a request's record leaves the rest of the hash right.
  lemma TouchedHash(e: Elv, x: Id, rq: Request)
    requires HashOk(e) && x in e.rqs
    ensures HashBut(e.(rqs := e.rqs[x := rq]), x)
    ensures Key(rq) == Key(e.rqs[x]) && (Mergeable(rq) ==> Mergeable(e.rqs[x])) ==> HashOk(e.(rqs := e.rqs[x := rq]))
  {
    hide Uniq, Key;
  }

  lemma UnhashedOk(e: Elv, x: Id)
    requires HashBut(e, x)
    ensures var u := Unhashed(e.hash, x);
            && |u| == HASH_ENTRIES && (forall i :: 0 <= i < HASH_ENTRIES ==> Uniq(u[i]))
            && (forall i, y :: 0 <= i < HASH_ENTRIES ==> (y in u[i] <==> y in e.hash[i] && y != x))
  {
    forall i | 0 <= i < HASH_ENTRIES ensures Uniq(Unhashed(e.hash, x)[i]) { WithoutUniq(e.hash[i], x); }
    hide Uniq, Key;
  }

  // elv_rqhash_del of a request that leaves.
  lemma DroppedHash(e: Elv, x: Id)
    requires HashBut(e, x)
    ensures HashOk(e.(rqs := e.rqs - {x}, hash := Unhashed(e.hash, x)))
  {
    UnhashedOk(e, x);
    hide Uniq, Key, Unhashed;
  }

  // elv_rqhash_reposition of a request that stays: it does not matter where the
  // hash had it.
  lemma RepositionedHash(e: Elv, x: Id)
    requires HashBut(e, x) && x in e.rqs
    ensures HashOk(Repositioned(e, x))
  {
    UnhashedOk(e, x);
    var u := Unhashed(e.hash, x);
    var i := Slot(e, Key(e.rqs[x]));
    assert ([x] + u[i])[1..] == u[i];
    assert Uniq([x] + u[i]);
    hide Uniq, Key, Unhashed;
  }

  lemma AddedHash(e: Elv, x: Id, rq: Request)
    requires HashOk(e) && x !in e.rqs
    ensures |e.hash| == HASH_ENTRIES
    ensures HashOk(e.(rqs := e.rqs[x := rq], hash := Hashed(e.hash, Slot(e, Key(rq)), x)))
  {
    var i := Slot(e, Key(rq));
    assert ([x] + e.hash[i])[1..] == e.hash[i];
    assert Uniq([x] + e.hash[i]);
    hide Uniq, Key;
  }

  // Another request leaves.
  lemma OtherDropped(e: Elv, x: Id, y: Id)
    requires HashBut(e, x) && x != y
    ensures HashBut(e.(rqs := e.rqs - {y}, hash := Unhashed(e.hash, y)), x)
  {
    var u := Unhashed(e.hash, y);
    forall i | 0 <= i < HASH_ENTRIES ensures Uniq(u[i]) { WithoutUniq(e.hash[i], y); }
    hide Uniq, Key;
  }

  lemma TouchedBut(e: Elv, x: Id, rq: Request)
    requires HashBut(e, x) && x in e.rqs
    ensures HashBut(e.(rqs := e.rqs[x := rq]), x)
  {
    hide Uniq, Key;
  }

  // ---------------------------------------------------------- what is kept

  ghost predicate RqsOk(rqs: map<Id, Request>) { forall x <- rqs :: RqOk(rqs[x]) }

  ghost predicate Rest(e: Elv) {
    RqsOk(e.rqs) && (e.last.At? ==> e.last.id in e.rqs) && e.nrSorted == |e.rqs|
  }

  ghost predicate HInv(e: Elv) { HashOk(e) && Rest(e) }

  ghost predicate EInv(e: Elv) { HInv(e) && SortsOk(e.rqs, e.sort) }

  lemma ChainedAll(e: Elv)
    requires Rest(e) && |e.hash| == HASH_ENTRIES
    ensures AllChained(e)
  {
  }

  // Bio ids of a chain, and of all requests.
  function IdSeq(xs: seq<Extent>): seq<nat> { seq(|xs|, i requires 0 <= i < |xs| => xs[i].id) }

  function IdsOf(xs: seq<Extent>): multiset<nat> { multiset(IdSeq(xs)) }

  lemma IdsAppend(a: seq<Extent>, b: seq<Extent>)
    ensures IdsOf(a + b) == IdsOf(a) + IdsOf(b)
  {
    assert IdSeq(a + b) == IdSeq(a) + IdSeq(b);
  }

  ghost function Held(rqs: map<Id, Request>): map<Id, multiset<nat>> {
    map x | x in rqs :: IdsOf(Outline(rqs[x].bios))
  }

  ghost function Bios(e: Elv): multiset<nat> { Bag(Held(e.rqs)) }

  lemma HeldSet(rqs: map<Id, Request>, x: Id, rq: Request)
    ensures var v := IdsOf(Outline(rq.bios));
            && (x in rqs ==> Bag(Held(rqs[x := rq])) + IdsOf(Outline(rqs[x].bios)) == Bag(Held(rqs)) + v)
            && (x !in rqs ==> Bag(Held(rqs[x := rq])) == Bag(Held(rqs)) + v)
  {
    hide IdsOf, Outline;
    assert Held(rqs[x := rq]) == Held(rqs)[x := IdsOf(Outline(rq.bios))];
    BagSet(Held(rqs), x, IdsOf(Outline(rq.bios)));
  }

  lemma HeldDrop(rqs: map<Id, Request>, x: Id)
    requires x in rqs
    ensures Bag(Held(rqs)) == IdsOf(Outline(rqs[x].bios)) + Bag(Held(rqs - {x}))
  {
    hide IdsOf, Outline;
    assert Held(rqs - {x}) == Held(rqs) - {x};
    BagSplit(Held(rqs), x);
  }

  lemma RqsSet(rqs: map<Id, Request>, x: Id, rq: Request)
    requires RqsOk(rqs) && RqOk(rq)
    ensures RqsOk(rqs[x := rq]) && RqsOk(rqs - {x})
  {
  }

  lemma SizeSet(rqs: map<Id, Request>, x: Id, rq: Request)
    ensures |rqs[x := rq]| == |rqs| + (if x in rqs then 0 else 1)
    ensures x in rqs ==> |rqs - {x}| == |rqs| - 1
  {
    assert rqs[x := rq].Keys == rqs.Keys + {x};
    if x in rqs {
      assert (rqs - {x}).Keys == rqs.Keys - {x};
    }
  }

  // ------------------------------------------------------- request merges

  // The requests after a has absorbed b, in any order of asking.
  lemma AbsorbedBag(rqs: map<Id, Request>, a: Id, b: Id, m: Request)
    requires a in rqs && b in rqs && a != b && Outline(m.bios) == Outline(rqs[a].bios) + Outline(rqs[b].bios)
    ensures Bag(Held((rqs - {b})[a := m])) == Bag(Held(rqs))
  {
    hide Held, Bag, Outline, IdsOf;
    var d := rqs - {b};
    assert d[a] == rqs[a];
    HeldDrop(rqs, b);
    HeldSet(d, a, m);
    IdsAppend(Outline(rqs[a].bios), Outline(rqs[b].bios));
    Rebag(Bag(Held(d[a := m])), Bag(Held(d)), Bag(Held(rqs)), IdsOf(Outline(rqs[a].bios)), IdsOf(Outline(rqs[b].bios)));
  }

  lemma Rebag(now: multiset<nat>, rest: multiset<nat>, was: multiset<nat>, x: multiset<nat>, y: multiset<nat>)
    requires now + x == rest + (x + y) && was == y + rest
    ensures now == was
  {
    forall i ensures now[i] == was[i] {
      assert (now + x)[i] == (rest + (x + y))[i];
      assert was[i] == (y + rest)[i];
    }
  }

  lemma CachesBag(rqs: map<Id, Request>, a: Id, b: Id, m: Request, n: Request)
    requires a in rqs && b in rqs && a != b && Outline(m.bios) == Outline(rqs[a].bios)
             && Outline(n.bios) == Outline(rqs[b].bios)
    ensures Bag(Held(rqs[a := m][b := n])) == Bag(Held(rqs))
  {
    hide Held, Bag, Outline, IdsOf;
    HeldSet(rqs, a, m);
    HeldSet(rqs[a := m], b, n);
    Cancel(Bag(Held(rqs[a := m])), Bag(Held(rqs)), IdsOf(Outline(m.bios)));
    Cancel(Bag(Held(rqs[a := m][b := n])), Bag(Held(rqs[a := m])), IdsOf(Outline(n.bios)));
  }

  // attempt_merge, starting where the hash may still be wrong about a.
  lemma AttemptKeeps(e: Elv, a: Id, b: Id)
    requires HashBut(e, a) && Rest(e) && a in e.rqs && b in e.rqs && a != b
    ensures AllChained(e)
    ensures var r := Attempt(e, a, b);
            && Rest(r.e) && Bios(r.e) == Bios(e) && r.e.lim == e.lim
            && (r.done ==> HashOk(r.e))
            && (!r.done ==> HashBut(r.e, a) && r.e.last == e.last && (HashOk(e) ==> HashOk(r.e)))
  {
    ChainedAll(e);
    if CanJoin(e.rqs[a], e.rqs[b]) {
      MergeOutline(e.lim, e.rqs[a], e.rqs[b]);
      MergeRun(e.lim, e.rqs[a], e.rqs[b]);
      var m := MergeRequests(e.lim, e.rqs[a], e.rqs[b]);
      if m.ok { AbsorbKeeps(e, a, b, m.rq); } else { CachesKeep(e, a, b, m.rq, m.next); }
    }
  }

  lemma AbsorbKeeps(e: Elv, a: Id, b: Id, m: Request)
    requires HashBut(e, a) && Rest(e) && a in e.rqs && b in e.rqs && a != b && RqOk(m)
    requires Outline(m.bios) == Outline(e.rqs[a].bios) + Outline(e.rqs[b].bios)
    ensures |Absorbed(e, a, b, m).hash| == HASH_ENTRIES
    ensures var r := Repositioned(Absorbed(e, a, b, m), a); Rest(r) && HashOk(r) && Bios(r) == Bios(e)
  {
    hide RqOk, HashBut, HashOk, Unhashed, Held, Bag, Hashed;
    assert RqsOk(e.rqs - {b}) by { RqsSet(e.rqs, b, e.rqs[b]); }
    RqsSet(e.rqs - {b}, a, m);
    SizeSet(e.rqs, b, m);
    SizeSet(e.rqs - {b}, a, m);
    AbsorbedBag(e.rqs, a, b, m);
    OtherDropped(e, a, b);
    var d := e.(rqs := e.rqs - {b}, hash := Unhashed(e.hash, b));
    TouchedBut(d, a, m);
    HashOf(d.(rqs := d.rqs[a := m]), Absorbed(e, a, b, m), a);
    RepositionedHash(Absorbed(e, a, b, m), a);
  }

  // The hash does not depend on the trees, the cache or the count.
  lemma HashOf(e: Elv, r: Elv, x: Id)
    requires r == e.(sort := r.sort, nrSorted := r.nrSorted, last := r.last)
    ensures HashOk(e) ==> HashOk(r)
    ensures HashBut(e, x) ==> HashBut(r, x) && |e.hash| == HASH_ENTRIES
  {
    hide Uniq, Key;
  }

  lemma CachesKeep(e: Elv, a: Id, b: Id, m: Request, n: Request)
    requires HashBut(e, a) && Rest(e) && a in e.rqs && b in e.rqs && a != b && RqOk(m) && RqOk(n)
    requires Same(e.rqs[a], m) && Same(e.rqs[b], n) && m.noMerge == e.rqs[a].noMerge && n.noMerge == e.rqs[b].noMerge
    ensures var r := e.(rqs := e.rqs[a := m][b := n]);
            Rest(r) && HashBut(r, a) && Bios(r) == Bios(e) && (HashOk(e) ==> HashOk(r))
  {
    hide RqOk, HashBut, HashOk, Held, Bag, Outline;
    RqsSet(e.rqs, a, m);
    RqsSet(e.rqs[a := m], b, n);
    SizeSet(e.rqs, a, m);
    SizeSet(e.rqs[a := m], b, n);
    CachesBag(e.rqs, a, b, m, n);
    TouchedBut(e, a, m);
    TouchedOther(e.(rqs := e.rqs[a := m]), a, b, n);
    if HashOk(e) {
      TouchedHash(e, a, m);
      TouchedHash(e.(rqs := e.rqs[a := m]), b, n);
    }
  }

  lemma TouchedOther(e: Elv, x: Id, y: Id, rq: Request)
    requires HashBut(e, x) && y in e.rqs && x != y && Key(rq) == Key(e.rqs[y]) && rq.noMerge == e.rqs[y].noMerge
    ensures HashBut(e.(rqs := e.rqs[y := rq]), x)
  {
    hide Uniq, Key;
  }

  // ------------------------------------------------------------ bio merges

  // A data bio as the elevator gets it.
  ghost predicate WholeBio(bio: Bio) { bio.vecs != [] && bio.size % SECTOR == 0 }

  // One request changed, the hash wrong about it at most.
  lemma ChangedRest(e: Elv, x: Id, rq: Request)
    requires Rest(e) && x in e.rqs && RqOk(rq)
    ensures Rest(e.(rqs := e.rqs[x := rq]))
  {
    hide RqOk;
    RqsSet(e.rqs, x, rq);
    SizeSet(e.rqs, x, rq);
  }

  lemma RefusedKeeps(e: Elv, x: Id, rq: Request)
    requires HInv(e) && x in e.rqs && RqOk(rq) && Same(e.rqs[x], rq) && rq.noMerge
    ensures HInv(Refused(e, x, rq)) && Bios(Refused(e, x, rq)) == Bios(e)
  {
    hide RqOk, HashOk, HashBut, Bag, Held, Outline;
    ChangedRest(e, x, rq);
    TouchedHash(e, x, rq);
    HashOf(e.(rqs := e.rqs[x := rq]), Refused(e, x, rq), x);
    HeldSet(e.rqs, x, rq);
    Cancel(Bag(Held(e.rqs[x := rq])), Bag(Held(e.rqs)), IdsOf(Outline(rq.bios)));
  }

  // A bio appended to a request found for a back merge.
  lemma BackBioKeeps(e: Elv, x: Id, bio: Bio, latter: Link)
    requires HInv(e) && x in e.rqs && WholeBio(bio) && bio.sector == Key(e.rqs[x])
    requires bio.write == e.rqs[x].write && bio.disk == e.rqs[x].disk
    requires latter.At? ==> latter.id in e.rqs && latter.id != x
    ensures AllChained(e)
    ensures var r := BackBio(e, x, bio, latter);
            HInv(r.e) && r.e.lim == e.lim && Bios(r.e) == (if r.done then Bios(e) + multiset{bio.id} else Bios(e))
  {
    assert AllChained(e) by { assert |e.hash| == HASH_ENTRIES; ChainedAll(e); }
    hide HashOk, HashBut, Bios, RqOk, RqsOk, BackMerge, Attempt, Repositioned;
    assert RqOk(e.rqs[x]) by { OkOf(e, x); }
    ChainedOf(e.rqs[x]);
    BackOutline(e.lim, e.rqs[x], bio);
    BackRun(e.lim, e.rqs[x], bio);
    var m := BackMerge(e.lim, e.rqs[x], bio);
    if !m.ok {
      RefusedKeeps(e, x, m.rq);
    } else {
      var g := e.(rqs := e.rqs[x := m.rq]);
      ChangedRest(e, x, m.rq);
      TouchedHash(e, x, m.rq);
      GrownBag(e, x, m.rq, bio);
      if latter.At? { AttemptKeeps(g, x, latter.id); }
      var a := if latter.At? then Attempt(g, x, latter.id) else Outcome(g, false);
      if !a.done { Settled(a.e, x); }
    }
  }

  lemma OkOf(e: Elv, x: Id)
    requires Rest(e) && x in e.rqs
    ensures RqOk(e.rqs[x])
  {
  }

  lemma ChainedOf(rq: Request)
    requires RqOk(rq)
    ensures Chained(rq)
  {
  }

  lemma GrownBag(e: Elv, x: Id, rq: Request, bio: Bio)
    requires x in e.rqs && (Outline(rq.bios) == Outline(e.rqs[x].bios) + [ExtentOf(bio)] ||
                            Outline(rq.bios) == [ExtentOf(bio)] + Outline(e.rqs[x].bios))
    ensures Bios(e.(rqs := e.rqs[x := rq])) == Bios(e) + multiset{bio.id}
  {
    hide Bag, Held, Outline;
    HeldSet(e.rqs, x, rq);
    var o := Outline(e.rqs[x].bios);
    IdsAppend(o, [ExtentOf(bio)]);
    IdsAppend([ExtentOf(bio)], o);
    assert IdSeq([ExtentOf(bio)]) == [bio.id];
    hide IdsOf, IdSeq;
    var v := IdsOf(o);
    assert Bag(Held(e.rqs[x := rq])) + v == (Bag(Held(e.rqs)) + multiset{bio.id}) + v;
    Cancel(Bag(Held(e.rqs[x := rq])), Bag(Held(e.rqs)) + multiset{bio.id}, v);
  }

  lemma Settled(e: Elv, x: Id)
    requires HashBut(e, x) && Rest(e) && x in e.rqs
    ensures |e.hash| == HASH_ENTRIES
    ensures var r := Repositioned(e, x).(last := At(x)); HInv(r) && Bios(r) == Bios(e)
  {
    RepositionedHash(e, x);
    hide HashOk, HashBut, Bios, RqsOk, Hashed, Unhashed;
    HashOf(Repositioned(e, x), Repositioned(e, x).(last := At(x)), x);
    BiosOf(e, Repositioned(e, x).(last := At(x)));
  }

  lemma BiosOf(e: Elv, r: Elv)
    requires r.rqs == e.rqs
    ensures Bios(r) == Bios(e)
  {
  }

  // A bio put in front of a request that starts where it ends.
  lemma FrontBioKeeps(e: Elv, x: Id, bio: Bio, former: Link)
    requires HInv(e) && x in e.rqs && WholeBio(bio) && bio.sector + Sectors(bio.size) == e.rqs[x].sector
    requires bio.write == e.rqs[x].write && bio.disk == e.rqs[x].disk
    requires SortedIn(e) && (former.At? ==> former.id in e.rqs && former.id != x)
    ensures AllChained(e)
    ensures var r := FrontBio(e, x, bio, former);
            HInv(r.e) && r.e.lim == e.lim && Bios(r.e) == (if r.done then Bios(e) + multiset{bio.id} else Bios(e))
  {
    assert AllChained(e) by { assert |e.hash| == HASH_ENTRIES; ChainedAll(e); }
    hide HashOk, HashBut, Bios, RqOk, RqsOk, FrontMerge, Attempt, Key, SortAdd, SortDel;
    assert RqOk(e.rqs[x]) by { OkOf(e, x); }
    ChainedOf(e.rqs[x]);
    FrontOutline(e.lim, e.rqs[x], bio);
    FrontRun(e.lim, e.rqs[x], bio);
    var m := FrontMerge(e.lim, e.rqs[x], bio);
    if !m.ok {
      RefusedKeeps(e, x, m.rq);
    } else {
      var g := e.(rqs := e.rqs[x := m.rq]);
      ChangedRest(e, x, m.rq);
      FrontKey(e.rqs[x], bio, m.rq);
      TouchedHash(e, x, m.rq);
      GrownBag(e, x, m.rq, bio);
      if former.At? {
        HashAny(g, former.id);
        AttemptKeeps(g, former.id, x);
      }
      var a := if former.At? then Attempt(g, former.id, x) else Outcome(g, false);
      if !a.done {
        var r := Resorted(a.e, x).(last := At(x));
        HashOf(a.e, r, x);
        BiosOf(a.e, r);
      }
    }
  }

  // A front merge moves the start, not the end.
  lemma FrontKey(rq: Request, bio: Bio, r: Request)
    requires RqOk(rq) && r.sector == bio.sector && r.dataLen == rq.dataLen + bio.size && bio.size % SECTOR == 0
    requires bio.sector + Sectors(bio.size) == rq.sector
    ensures Key(r) == Key(rq)
  {
    LaidSize(rq.sector, rq.write, rq.disk, Outline(rq.bios));
  }

  lemma HashAny(e: Elv, x: Id)
    requires HashOk(e)
    ensures HashBut(e, x)
  {
    hide Uniq, Key;
  }

  // ------------------------------------------------------- coming and going

  lemma InsertedKeeps(e: Elv, x: Id, bio: Bio)
    requires HInv(e) && x !in e.rqs && WholeBio(bio) && SortedIn(e)
    ensures |e.hash| == HASH_ENTRIES
    ensures var r := Inserted(e, x, FromBio(e.lim, bio));
            HInv(r) && Bios(r) == Bios(e) + multiset{bio.id} && r.lim == e.lim
  {
    hide RqOk, RqsOk, FromBio, Bag, Held, Outline, IdsOf, HashOk, HashBut, Hashed, Key, SortAdd;
    var rq := FromBio(e.lim, bio);
    NewRq(e.lim, bio);
    AddedHash(e, x, rq);
    RqsSet(e.rqs, x, rq);
    SizeSet(e.rqs, x, rq);
    HeldSet(e.rqs, x, rq);
    HashOf(e.(rqs := e.rqs[x := rq], hash := Hashed(e.hash, Slot(e, Key(rq)), x)), Inserted(e, x, rq), x);
  }

  lemma NewRq(lim: Limits, bio: Bio)
    requires WholeBio(bio)
    ensures var rq := FromBio(lim, bio);
            RqOk(rq) && !rq.noMerge && IdsOf(Outline(rq.bios)) == multiset{bio.id}
  {
    CountedSame(lim, bio);
    CountedOne(lim, bio);
    hide Counted, Outline;
    var x := ExtentOf(bio);
    assert IdSeq([x]) == [bio.id];
    assert [x][1..] == [];
    assert Laid(bio.sector, bio.write, bio.disk, [x]);
    assert Size([x]) == x.size + Size([x][1..]);
  }

  lemma DispatchedKeeps(e: Elv, x: Id)
    requires HInv(e) && x in e.rqs
    ensures var r := Dispatched(e, x);
            HInv(r) && Bios(e) == Bios(r) + IdsOf(Outline(e.rqs[x].bios)) && r.lim == e.lim
  {
    hide RqOk, Bag, Held, Outline, IdsOf, HashOk, HashBut, Unhashed;
    HashAny(e, x);
    DroppedHash(e, x);
    assert RqsOk(e.rqs - {x}) by { RqsSet(e.rqs, x, e.rqs[x]); }
    SizeSet(e.rqs, x, e.rqs[x]);
    HeldDrop(e.rqs, x);
    var d := e.(rqs := e.rqs - {x}, hash := Unhashed(e.hash, x));
    HashOf(d, Dispatched(e, x), x);
  }

  // ------------------------------------------------------------- the trees

  // A request leaves.
  lemma SortDelOk(rqs: map<Id, Request>, s: Sorts, x: Id)
    requires SortsOk(rqs, s) && x in rqs
    ensures SortsOk(rqs - {x}, SortDel(s, rqs[x].write, x))
  {
    SideDel(rqs, false, s.rd, x);
    SideDel(rqs, true, s.wr, x);
  }

  lemma SideDel(rqs: map<Id, Request>, write: bool, s: seq<Id>, x: Id)
    requires SideOk(rqs, write, s) && x in rqs
    ensures SideOk(rqs - {x}, write, if rqs[x].write == write then KeyOrder.Without(s, x) else s)
  {
    KeyOrder.WithoutOk(Starts(rqs), s, x);
    var r := if rqs[x].write == write then KeyOrder.Without(s, x) else s;
    KeyOrder.OrderOf(Starts(rqs), Starts(rqs - {x}), r);
  }

  // A request comes.
  lemma SortAddOk(rqs: map<Id, Request>, s: Sorts, x: Id, rq: Request)
    requires SortsOk(rqs, s) && x !in rqs
    ensures forall y <- SortOf(s, rq.write) :: y in rqs
    ensures SortsOk(rqs[x := rq], SortAdd(s, rqs[x := rq], x))
  {
    SideAdd(rqs, false, s.rd, x, rq);
    SideAdd(rqs, true, s.wr, x, rq);
  }

  lemma SideAdd(rqs: map<Id, Request>, write: bool, s: seq<Id>, x: Id, rq: Request)
    requires SideOk(rqs, write, s) && x !in rqs
    ensures forall y <- s :: y in rqs
    ensures var key := Starts(rqs[x := rq]);
            SideOk(rqs[x := rq], write, if rq.write == write then KeyOrder.Insert(key, s, x) else s)
  {
    var key := Starts(rqs[x := rq]);
    KeyOrder.OrderOf(Starts(rqs), key, s);
    if rq.write == write { KeyOrder.InsertOk(key, s, x); }
  }

  // A request changes, but neither its start nor its direction.
  lemma SortTouch(rqs: map<Id, Request>, s: Sorts, x: Id, rq: Request)
    requires SortsOk(rqs, s) && x in rqs && rq.sector == rqs[x].sector && rq.write == rqs[x].write
    ensures SortsOk(rqs[x := rq], s)
  {
    assert Starts(rqs[x := rq]) == Starts(rqs);
  }

  // The trees are right once x is out of them.
  ghost predicate SortBut(rqs: map<Id, Request>, s: Sorts, x: Id) {
    x in rqs && SortsOk(rqs - {x}, SortDel(s, rqs[x].write, x))
  }

  // What x itself has become does not matter to that.
  lemma SortButTouch(rqs: map<Id, Request>, s: Sorts, x: Id, rq: Request)
    requires SortBut(rqs, s, x) && rq.write == rqs[x].write
    ensures SortBut(rqs[x := rq], s, x)
  {
    assert rqs[x := rq] - {x} == rqs - {x};
  }

  lemma SortButOther(rqs: map<Id, Request>, s: Sorts, x: Id, y: Id, rq: Request)
    requires SortBut(rqs, s, x) && y in rqs && x != y && rq.sector == rqs[y].sector && rq.write == rqs[y].write
    ensures SortBut(rqs[y := rq], s, x) && SortsOk((rqs - {x})[y := rq], SortDel(s, rqs[x].write, x))
  {
    hide SortsOk, SortDel;
    SortTouch(rqs - {x}, SortDel(s, rqs[x].write, x), y, rq);
    assert rqs[y := rq] - {x} == (rqs - {x})[y := rq];
  }

  // Taking it out and putting it back in puts them right.
  lemma ResortedOk(e: Elv, x: Id)
    requires SortBut(e.rqs, e.sort, x) && SortedIn(e)
    ensures SortsOk(Resorted(e, x).rqs, Resorted(e, x).sort)
  {
    hide SortsOk, SortDel;
    var d := SortDel(e.sort, e.rqs[x].write, x);
    SortAddOk(e.rqs - {x}, d, x, e.rqs[x]);
    assert (e.rqs - {x})[x := e.rqs[x]] == e.rqs;
  }

  lemma SortsIn(e: Elv)
    requires SortsOk(e.rqs, e.sort)
    ensures SortedIn(e)
  {
  }

  // attempt_merge, starting where the tree may still be wrong about b.
  lemma AttemptSort(e: Elv, a: Id, b: Id)
    requires AllChained(e) && a in e.rqs && b in e.rqs && a != b && SortBut(e.rqs, e.sort, b)
    ensures var r := Attempt(e, a, b);
            && (r.done ==> SortsOk(r.e.rqs, r.e.sort))
            && (!r.done ==> SortBut(r.e.rqs, r.e.sort, b))
            && (!r.done && SortsOk(e.rqs, e.sort) ==> SortsOk(r.e.rqs, r.e.sort))
  {
    hide SortsOk, SortBut, SortDel, MergeRequests, Chained, Unhashed, Hashed, Key;
    if CanJoin(e.rqs[a], e.rqs[b]) {
      MergeStarts(e, a, b);
      var m := MergeRequests(e.lim, e.rqs[a], e.rqs[b]);
      if m.ok {
        SortButOther(e.rqs, e.sort, b, a, m.rq);
      } else {
        CachesSort(e.rqs, e.sort, a, b, m.rq, m.next);
      }
    }
  }

  lemma MergeStarts(e: Elv, a: Id, b: Id)
    requires AllChained(e) && a in e.rqs && b in e.rqs
    ensures var x, y := e.rqs[a], e.rqs[b];
            && x.bios != [] && x.bios[|x.bios| - 1].vecs != [] && y.bios != [] && y.bios[0].vecs != []
            && var m := MergeRequests(e.lim, x, y);
               && m.rq.sector == x.sector && m.rq.write == x.write
               && (!m.ok ==> m.next.sector == y.sector && m.next.write == y.write)
  {
    ChainEnds(e.rqs[a].bios);
    ChainEnds(e.rqs[b].bios);
    MergeOutline(e.lim, e.rqs[a], e.rqs[b]);
  }

  lemma CachesSort(rqs: map<Id, Request>, s: Sorts, a: Id, b: Id, m: Request, n: Request)
    requires a in rqs && b in rqs && a != b && SortBut(rqs, s, b)
    requires m.sector == rqs[a].sector && m.write == rqs[a].write && n.sector == rqs[b].sector
             && n.write == rqs[b].write
    ensures SortBut(rqs[a := m][b := n], s, b)
    ensures SortsOk(rqs, s) ==> SortsOk(rqs[a := m][b := n], s)
  {
    hide SortsOk, SortBut;
    SortButOther(rqs, s, b, a, m);
    SortButTouch(rqs[a := m], s, b, n);
    if SortsOk(rqs, s) {
      SortTouch(rqs, s, a, m);
      SortTouch(rqs[a := m], s, b, n);
    }
  }

  lemma SortButOf(rqs: map<Id, Request>, s: Sorts, x: Id)
    requires SortsOk(rqs, s) && x in rqs
    ensures SortBut(rqs, s, x)
  {
    SortDelOk(rqs, s, x);
  }

  // A back merge moves no start.
  lemma BackSort(e: Elv, x: Id, bio: Bio, latter: Link)
    requires AllChained(e) && x in e.rqs && bio.vecs != [] && (latter.At? ==> latter.id in e.rqs && latter.id != x)
    requires SortsOk(e.rqs, e.sort)
    ensures var r := BackBio(e, x, bio, latter).e; SortsOk(r.rqs, r.sort)
  {
    hide SortsOk, SortBut, BackMerge, Attempt, Hashed, Unhashed, Key, Chained;
    assert Chained(e.rqs[x]);
    BackOutline(e.lim, e.rqs[x], bio);
    BackChained(e.lim, e.rqs[x], bio);
    var m := BackMerge(e.lim, e.rqs[x], bio);
    SortTouch(e.rqs, e.sort, x, m.rq);
    if m.ok && latter.At? {
      var g := e.(rqs := e.rqs[x := m.rq]);
      SortButOf(g.rqs, g.sort, latter.id);
      AttemptSort(g, x, latter.id);
    }
  }

  // A front merge moves one, and the request is moved after it or absorbed.
  lemma FrontSort(e: Elv, x: Id, bio: Bio, former: Link)
    requires AllChained(e) && x in e.rqs && bio.vecs != [] && (former.At? ==> former.id in e.rqs && former.id != x)
    requires SortsOk(e.rqs, e.sort) && SortedIn(e)
    ensures var r := FrontBio(e, x, bio, former).e; SortsOk(r.rqs, r.sort)
  {
    hide SortsOk, SortBut, SortedIn, FrontMerge, Attempt, Chained, Resorted;
    assert Chained(e.rqs[x]);
    FrontOutline(e.lim, e.rqs[x], bio);
    FrontChained(e.lim, e.rqs[x], bio);
    var m := FrontMerge(e.lim, e.rqs[x], bio);
    if !m.ok {
      SortTouch(e.rqs, e.sort, x, m.rq);
    } else {
      var g := e.(rqs := e.rqs[x := m.rq]);
      SortButOf(e.rqs, e.sort, x);
      SortButTouch(e.rqs, e.sort, x, m.rq);
      if former.At? { AttemptSort(g, former.id, x); }
      var a := if former.At? then Attempt(g, former.id, x) else Outcome(g, false);
      if !a.done {
        SortedInOf(e, a.e);
        ResortedOk(a.e, x);
      }
    }
  }

  lemma SortedInOf(e: Elv, r: Elv)
    requires SortedIn(e) && r.sort == e.sort && r.rqs.Keys == e.rqs.Keys
    ensures SortedIn(r)
  {
    forall y | y in r.sort.rd + r.sort.wr ensures y in r.rqs { assert y in e.rqs.Keys; }
  }

  // ------------------------------------------------------------- submission

  // The state elv_merge leaves, having cleaned a bucket if it looked there.
  function Searched(e: Elv, bio: Bio, allow: Id -> bool): Elv
    requires Shape(e) && (e.last.At? ==> e.last.id in e.rqs)
  {
    if e.last.At? && TryMerge(e.rqs[e.last.id], bio, allow(e.last.id)) != No then e else Cleaned(e, bio.sector)
  }

  // The tree of the bio's direction, in any shape.
  ghost predicate Shapes(e: Elv, bio: Bio, tree: Tree) { Nodes(tree) == SortOf(e.sort, bio.write) }

  // A candidate may take the bio, and is really next to it.
  ghost predicate Fits(e: Elv, bio: Bio, c: Candidate, allow: Id -> bool) {
    c.Cand? ==>
      && c.id in e.rqs && MergeOk(e.rqs[c.id], bio, allow(c.id)) && c.kind != No
      && (c.kind == Back ==> Key(e.rqs[c.id]) == bio.sector)
      && (c.kind == Front ==> e.rqs[c.id].sector == bio.sector + Sectors(bio.size))
  }

  lemma PartsOf(e: Elv)
    requires EInv(e)
    ensures HInv(e) && HashOk(e) && SortsOk(e.rqs, e.sort) && SortedIn(e) && (e.last.At? ==> e.last.id in e.rqs)
    ensures |e.hash| == HASH_ENTRIES
  {
    SortsIn(e);
  }

  // What elv_merge finds in the cache, the hash or the tree is right.
  lemma LookoutRight(e: Elv, bio: Bio, tree: Tree, allow: Id -> bool)
    requires EInv(e) && Shapes(e, bio, tree)
    ensures Shape(e) && (e.last.At? ==> e.last.id in e.rqs) && forall y <- Nodes(tree) :: y in e.rqs
    ensures Fits(e, bio, Lookout(e, bio, tree, allow), allow)
  {
    hide EInv, HInv, HashOk, SortsOk, SortedIn, Find, RbFind, Nodes, SortOf, Key;
    PartsOf(e);
    FindIsScan(e, bio.sector);
    RbFindIsScan(e, bio.write, tree, bio.sector + Sectors(bio.size));
  }

  lemma SearchedKeeps(e: Elv, bio: Bio, allow: Id -> bool)
    requires EInv(e)
    ensures Shape(e) && (e.last.At? ==> e.last.id in e.rqs) && EInv(Searched(e, bio, allow))
    ensures Searched(e, bio, allow) == e.(hash := Searched(e, bio, allow).hash)
  {
    FindIsScan(e, bio.sector);
    hide HashOk, RqsOk, Scan, SortsOk, TryMerge;
  }

  // The merge of a bio with the request found for it.
  function Joined(e: Elv, y: Id, kind: Kind, bio: Bio, near: Link): Outcome
    requires AllChained(e) && SortedIn(e) && y in e.rqs && bio.vecs != []
    requires near.At? ==> near.id in e.rqs && near.id != y
  {
    if kind == Back then BackBio(e, y, bio, near) else FrontBio(e, y, bio, near)
  }

  lemma JoinedKeeps(e: Elv, y: Id, kind: Kind, bio: Bio, near: Link, allow: Id -> bool)
    requires EInv(e) && WholeBio(bio) && Fits(e, bio, Cand(y, kind), allow)
    requires near.At? ==> near.id in e.rqs && near.id != y
    ensures AllChained(e) && SortedIn(e)
    ensures var r := Joined(e, y, kind, bio, near);
            && EInv(r.e) && r.e.lim == e.lim
            && Bios(r.e) == (if r.done then Bios(e) + multiset{bio.id} else Bios(e))
            && (!r.done ==> r.e.rqs.Keys == e.rqs.Keys)
  {
    hide EInv, HInv, HashOk, SortsOk, SortedIn, AllChained, BackBio, FrontBio, Bios, Key;
    PartsOf(e);
    assert AllChained(e) by { RestOf(e); ChainedAll(e); }
    if kind == Back {
      BackBioKeeps(e, y, bio, near);
      BackSort(e, y, bio, near);
      Together(BackBio(e, y, bio, near).e);
    } else {
      FrontBioKeeps(e, y, bio, near);
      FrontSort(e, y, bio, near);
      Together(FrontBio(e, y, bio, near).e);
    }
    RefusedKeys(e, y, bio, near);
  }

  lemma RestOf(e: Elv)
    requires HInv(e)
    ensures Rest(e)
  {
  }

  lemma Together(e: Elv)
    requires HInv(e) && SortsOk(e.rqs, e.sort)
    ensures EInv(e)
  {
  }

  lemma RefusedKeys(e: Elv, y: Id, bio: Bio, near: Link)
    requires AllChained(e) && SortedIn(e) && y in e.rqs && bio.vecs != []
    requires near.At? ==> near.id in e.rqs && near.id != y
    ensures !BackBio(e, y, bio, near).done ==> BackBio(e, y, bio, near).e.rqs.Keys == e.rqs.Keys
    ensures !FrontBio(e, y, bio, near).done ==> FrontBio(e, y, bio, near).e.rqs.Keys == e.rqs.Keys
  {
    hide BackMerge, FrontMerge, Attempt, Repositioned, Resorted;
  }

  // A new request goes into the hash and into its tree.
  lemma PlacedKeeps(e: Elv, x: Id, bio: Bio)
    requires EInv(e) && x !in e.rqs && WholeBio(bio)
    ensures |e.hash| == HASH_ENTRIES && SortedIn(e)
    ensures var r := Inserted(e, x, FromBio(e.lim, bio));
            EInv(r) && Bios(r) == Bios(e) + multiset{bio.id} && r.lim == e.lim
  {
    hide EInv, HInv, HashOk, SortsOk, SortedIn, SortAdd, FromBio, Bios, Key, Hashed;
    PartsOf(e);
    InsertedKeeps(e, x, bio);
    var rq := FromBio(e.lim, bio);
    SortAddOk(e.rqs, e.sort, x, rq);
    assert Inserted(e, x, rq).sort == SortAdd(e.sort, e.rqs[x := rq], x);
    Together(Inserted(e, x, rq));
  }

  // A request sent on leaves both.
  lemma SentKeeps(e: Elv, x: Id)
    requires EInv(e) && x in e.rqs
    ensures var r := Dispatched(e, x);
            EInv(r) && Bios(e) == Bios(r) + IdsOf(Outline(e.rqs[x].bios)) && r.lim == e.lim
  {
    hide EInv, HInv, HashOk, SortsOk, SortedIn, SortDel, Bios, IdsOf, Unhashed;
    PartsOf(e);
    DispatchedKeeps(e, x);
    SortDelOk(e.rqs, e.sort, x);
    Together(Dispatched(e, x));
  }

  // The bio joins the request found for it, if it can.  The neighbour offered for
  // a request merge is any request.
  function Chosen(e: Elv, c: Candidate, bio: Bio, beside: Link, allow: Id -> bool): Outcome
    requires EInv(e) && WholeBio(bio) && Fits(e, bio, c, allow) && (beside.At? ==> beside.id in e.rqs)
  {
    match c
    case None => Outcome(e, false)
    case Cand(y, kind) =>
      var near := if beside == At(y) then End else beside;
      JoinedKeeps(e, y, kind, bio, near, allow);
      Joined(e, y, kind, bio, near)
  }

  lemma ChosenKeeps(e: Elv, c: Candidate, bio: Bio, beside: Link, allow: Id -> bool)
    requires EInv(e) && WholeBio(bio) && Fits(e, bio, c, allow) && (beside.At? ==> beside.id in e.rqs)
    ensures var r := Chosen(e, c, bio, beside, allow);
            && EInv(r.e) && r.e.lim == e.lim
            && Bios(r.e) == (if r.done then Bios(e) + multiset{bio.id} else Bios(e))
            && (!r.done ==> r.e.rqs.Keys == e.rqs.Keys)
  {
    hide EInv, Bios, Joined;
    if c.Cand? { JoinedKeeps(e, c.id, c.kind, bio, if beside == At(c.id) then End else beside, allow); }
  }

  // If it did not, it becomes a request.
  function Placed(e: Elv, x: Id, bio: Bio): Elv
    requires EInv(e)
  {
    PartsOf(e);
    Inserted(e, x, FromBio(e.lim, bio))
  }

  lemma LookoutAfter(e: Elv, bio: Bio, tree: Tree, allow: Id -> bool)
    requires EInv(e) && Shapes(e, bio, tree)
    ensures Shape(e) && (e.last.At? ==> e.last.id in e.rqs) && (forall y <- Nodes(tree) :: y in e.rqs)
    ensures var s := Searched(e, bio, allow);
            EInv(s) && s == e.(hash := s.hash) && Fits(s, bio, Lookout(e, bio, tree, allow), allow)
  {
    hide EInv, Shape, Lookout, Searched, Nodes, Key;
    LookoutRight(e, bio, tree, allow);
    SearchedKeeps(e, bio, allow);
  }

  // The merge part of blk_queue_bio: merge the bio if a place for it is found,
  // else make a request of it.
  function Submit(e: Elv, x: Id, bio: Bio, tree: Tree, beside: Link, allow: Id -> bool): Elv
    requires EInv(e) && x !in e.rqs && WholeBio(bio) && Shapes(e, bio, tree) && (beside.At? ==> beside.id in e.rqs)
  {
    LookoutAfter(e, bio, tree, allow);
    var s, c := Searched(e, bio, allow), Lookout(e, bio, tree, allow);
    ChosenKeeps(s, c, bio, beside, allow);
    var o := Chosen(s, c, bio, beside, allow);
    if o.done then o.e else Placed(o.e, x, bio)
  }

  // Submitting a bio adds exactly that bio, and every request stays a run of
  // sectors.
  lemma SubmitKeeps(e: Elv, x: Id, bio: Bio, tree: Tree, beside: Link, allow: Id -> bool)
    requires EInv(e) && x !in e.rqs && WholeBio(bio) && Shapes(e, bio, tree) && (beside.At? ==> beside.id in e.rqs)
    ensures var r := Submit(e, x, bio, tree, beside, allow); EInv(r) && Bios(r) == Bios(e) + multiset{bio.id}
  {
    hide EInv, Shape, Lookout, Searched, Chosen, Inserted, FromBio, Bios, Fits, Nodes;
    LookoutAfter(e, bio, tree, allow);
    var s, c := Searched(e, bio, allow), Lookout(e, bio, tree, allow);
    BiosOf(e, s);
    ChosenKeeps(s, c, bio, beside, allow);
    var o := Chosen(s, c, bio, beside, allow);
    if !o.done {
      assert x !in o.e.rqs.Keys;
      PlacedKeeps(o.e, x, bio);
    }
  }

  // ------------------------------------------------------------- whole runs

  // The elevator, every bio handed in, and every bio handed on.
  datatype World = World(e: Elv, submitted: multiset<nat>, gone: multiset<nat>)

  // A bio comes: its tree as it stands, a neighbour the scheduler may offer for a
  // request merge, and which requests it lets the bio join.
  datatype Event =
    | Arrive(x: Id, bio: Bio, tree: Tree, beside: Link, allow: Id -> bool)
    | Send(x: Id)

  ghost predicate Enabled(w: World, v: Event) {
    match v
    case Arrive(x, bio, tree, beside, _) =>
      x !in w.e.rqs && WholeBio(bio) && Shapes(w.e, bio, tree) && (beside.At? ==> beside.id in w.e.rqs)
    case Send(x) => x in w.e.rqs
  }

  ghost predicate WInv(w: World) { EInv(w.e) && w.submitted == Bios(w.e) + w.gone }

  function Next(w: World, v: Event): World
    requires WInv(w) && Enabled(w, v)
  {
    match v
    case Arrive(x, bio, tree, beside, allow) =>
      w.(e := Submit(w.e, x, bio, tree, beside, allow), submitted := w.submitted + multiset{bio.id})
    case Send(x) => w.(e := Dispatched(w.e, x), gone := w.gone + IdsOf(Outline(w.e.rqs[x].bios)))
  }

  lemma NextKeeps(w: World, v: Event)
    requires WInv(w) && Enabled(w, v)
    ensures WInv(Next(w, v))
  {
    hide EInv, Submit, Bios, Dispatched, IdsOf;
    match v
    case Arrive(x, bio, tree, beside, allow) =>
      SubmitKeeps(w.e, x, bio, tree, beside, allow);
      Aside(Bios(w.e), multiset{bio.id}, w.gone);
    case Send(x) =>
      SentKeeps(w.e, x);
      Sums.Regroup(Bios(Dispatched(w.e, x)), IdsOf(Outline(w.e.rqs[x].bios)), w.gone);
      Swapped(IdsOf(Outline(w.e.rqs[x].bios)), w.gone);
  }

  lemma Aside(a: multiset<nat>, b: multiset<nat>, c: multiset<nat>)
    ensures (a + c) + b == (a + b) + c
  {
  }

  lemma Swapped(a: multiset<nat>, b: multiset<nat>)
    ensures a + b == b + a
  {
  }

  function Start(lim: Limits, bucket: int -> nat): World {
    World(Elv(lim, bucket, map[], seq(HASH_ENTRIES, i => []), Sorts([], []), End, 0), multiset{}, multiset{})
  }

  lemma StartOk(lim: Limits, bucket: int -> nat)
    ensures WInv(Start(lim, bucket))
  {
    assert Held(map[]) == map[];
  }

  ghost predicate Run(lim: Limits, bucket: int -> nat, ws: seq<World>, vs: seq<Event>) {
    && |ws| == |vs| + 1 && ws[0] == Start(lim, bucket)
    && forall i :: 0 <= i < |vs| ==> Enabled(ws[i], vs[i]) && (WInv(ws[i]) ==> ws[i + 1] == Next(ws[i], vs[i]))
  }

  lemma {:induction false} RunKeeps(lim: Limits, bucket: int -> nat, ws: seq<World>, vs: seq<Event>, n: nat)
    requires Run(lim, bucket, ws, vs) && n < |ws|
    ensures WInv(ws[n])
  {
    hide WInv, Next, Enabled;
    if n == 0 { StartOk(lim, bucket); } else {
      RunKeeps(lim, bucket, ws, vs, n - 1);
      NextKeeps(ws[n - 1], vs[n - 1]);
    }
  }

  // In every reachable state: each request is one run of sectors from its start,
  // of the length it says, all one way to one disk; the bios handed in are those
  // queued and those handed on, each as often as it was handed in; and the hash
  // and the trees, in any shape, answer as a scan of all requests would.
  lemma MergingPreservesMeaning(lim: Limits, bucket: int -> nat, ws: seq<World>, vs: seq<Event>, n: nat, sector: int)
    requires Run(lim, bucket, ws, vs) && n < |ws|
    ensures forall x <- ws[n].e.rqs :: RqOk(ws[n].e.rqs[x])
    ensures ws[n].submitted == Bios(ws[n].e) + ws[n].gone && ws[n].e.nrSorted == |ws[n].e.rqs|
    ensures Shape(ws[n].e) && SortsOk(ws[n].e.rqs, ws[n].e.sort)
    ensures Find(ws[n].e, sector) == End <==>
              forall x <- ws[n].e.rqs :: !(Mergeable(ws[n].e.rqs[x]) && Key(ws[n].e.rqs[x]) == sector)
    ensures Find(ws[n].e, sector).At? ==>
              var rq := ws[n].e.rqs[Find(ws[n].e, sector).id]; Mergeable(rq) && Key(rq) == sector
  {
    RunKeeps(lim, bucket, ws, vs, n);
    FindIsScan(ws[n].e, sector);
    hide HashOk, Bios, Find, RqOk, SortsOk;
  }

  // The same of the trees.
  lemma TreesAnswer(lim: Limits, bucket: int -> nat, ws: seq<World>, vs: seq<Event>, n: nat,
                    write: bool, tree: Tree, sector: int)
    requires Run(lim, bucket, ws, vs) && n < |ws| && Nodes(tree) == SortOf(ws[n].e.sort, write)
    ensures forall y <- Nodes(tree) :: y in ws[n].e.rqs
    ensures var rqs := ws[n].e.rqs;
            && (RbFind(rqs, tree, sector) == End
                <==> forall x <- rqs :: !(rqs[x].write == write && rqs[x].sector == sector))
            && (RbFind(rqs, tree, sector).At? ==>
                  var rq := rqs[RbFind(rqs, tree, sector).id]; rq.write == write && rq.sector == sector)
  {
    hide RbFind, SortOf, HInv, SortsOk;
    RunKeeps(lim, bucket, ws, vs, n);
    RbFindIsScan(ws[n].e, write, tree, sector);
  }
}
