/**
 Finding and doing merges (elevator.c, with the merge parts of blk-core.c and
 blk-merge.c, and the sorted trees of deadline-iosched.c): the one-hit cache, the
 hash of requests by end sector, the trees of requests by start sector, and the
 merges themselves.
 */
module Elevator {
  import opened BlockTypes
  import opened Segments
  import KeyOrder

  type Id = nat

  const HASH_ENTRIES: nat := 64

  datatype Link = End | At(id: Id)

  // The sorted trees of either direction, in order.
  datatype Sorts = Sorts(rd: seq<Id>, wr: seq<Id>)

  datatype Elv = Elv(
    lim: Limits,
    bucket: int -> nat,             // hash_long, any function
    rqs: map<Id, Request>,          // the sorted requests
    hash: seq<seq<Id>>,             // by end sector
    sort: Sorts,                    // by start sector
    last: Link,                     // q->last_merge
    nrSorted: int)

  // rq_hash_key
  function Key(rq: Request): int { rq.sector + Sectors(rq.dataLen) }

  function Slot(e: Elv, key: int): nat { e.bucket(key) % HASH_ENTRIES }

  // rq_mergeable
  predicate Mergeable(rq: Request) { !rq.noMerge }

  // elv_rq_merge_ok, with the scheduler's say
  predicate MergeOk(rq: Request, bio: Bio, allow: bool) {
    Mergeable(rq) && rq.write == bio.write && rq.disk == bio.disk && !rq.special && allow
  }

  datatype Kind = No | Back | Front

  // elv_try_merge
  function TryMerge(rq: Request, bio: Bio, allow: bool): Kind {
    if !MergeOk(rq, bio, allow) then No
    else if Key(rq) == bio.sector then Back
    else if rq.sector - Sectors(bio.size) == bio.sector then Front
    else No
  }

  // ---------------------------------------------------------------- the hash

  function Without(s: seq<Id>, x: Id): (r: seq<Id>)
    ensures forall y :: y in r <==> y in s && y != x
  {
    if s == [] then [] else if s[0] == x then Without(s[1..], x) else [s[0]] + Without(s[1..], x)
  }

  // elv_rqhash_del
  function Unhashed(hash: seq<seq<Id>>, x: Id): seq<seq<Id>> {
    seq(|hash|, i requires 0 <= i < |hash| => Without(hash[i], x))
  }

  // elv_rqhash_add
  function Hashed(hash: seq<seq<Id>>, slot: nat, x: Id): seq<seq<Id>>
    requires slot < |hash|
  {
    hash[slot := [x] + hash[slot]]
  }

  datatype Lookup = Lookup(found: Link, list: seq<Id>)

  // The walk of elv_rqhash_find, which drops requests that can no longer merge.
  function Scan(rqs: map<Id, Request>, list: seq<Id>, offset: int): (r: Lookup)
    requires forall x <- list :: x in rqs
    ensures r.found.At? ==> r.found.id in rqs
  {
    if list == [] then Lookup(End, [])
    else if !Mergeable(rqs[list[0]]) then Scan(rqs, list[1..], offset)
    else if Key(rqs[list[0]]) == offset then Lookup(At(list[0]), list)
    else
      var r := Scan(rqs, list[1..], offset);
      r.(list := [list[0]] + r.list)
  }

  ghost predicate Shape(e: Elv) {
    |e.hash| == HASH_ENTRIES && forall i, x :: 0 <= i < |e.hash| && x in e.hash[i] ==> x in e.rqs
  }

  // elv_rqhash_find
  function Find(e: Elv, offset: int): (r: Link)
    requires Shape(e)
    ensures r.At? ==> r.id in e.rqs
  {
    Scan(e.rqs, e.hash[Slot(e, offset)], offset).found
  }

  function Cleaned(e: Elv, offset: int): Elv
    requires Shape(e)
  {
    var i := Slot(e, offset);
    e.(hash := e.hash[i := Scan(e.rqs, e.hash[i], offset).list])
  }

  // elv_rqhash_reposition, for a request whose record has changed
  function Repositioned(e: Elv, x: Id): Elv
    requires x in e.rqs && |e.hash| == HASH_ENTRIES
  {
    e.(hash := Hashed(Unhashed(e.hash, x), Slot(e, Key(e.rqs[x])), x))
  }

  // -------------------------------------------------------------- the trees

  function SortOf(s: Sorts, write: bool): seq<Id> { if write then s.wr else s.rd }

  function WithSort(s: Sorts, write: bool, ids: seq<Id>): Sorts {
    if write then s.(wr := ids) else s.(rd := ids)
  }

  // Where each request starts.
  function Starts(rqs: map<Id, Request>): KeyOrder.Keys { map x | x in rqs :: rqs[x].sector }

  // elv_rb_add
  function SortAdd(s: Sorts, rqs: map<Id, Request>, x: Id): Sorts
    requires x in rqs && forall y <- SortOf(s, rqs[x].write) :: y in rqs
  {
    WithSort(s, rqs[x].write, KeyOrder.Insert(Starts(rqs), SortOf(s, rqs[x].write), x))
  }

  // elv_rb_del
  function SortDel(s: Sorts, write: bool, x: Id): Sorts {
    WithSort(s, write, KeyOrder.Without(SortOf(s, write), x))
  }

  // A search tree, in whatever shape balancing left it.
  datatype Tree = Leaf | Node(left: Tree, id: Id, right: Tree)

  function Nodes(t: Tree): seq<Id> {
    match t
    case Leaf => []
    case Node(l, y, r) => Nodes(l) + [y] + Nodes(r)
  }

  // elv_rb_find
  function RbFind(rqs: map<Id, Request>, t: Tree, sector: int): (l: Link)
    requires forall y <- Nodes(t) :: y in rqs
    ensures l.At? ==> l.id in rqs
  {
    match t
    case Leaf => End
    case Node(l, y, r) =>
      if sector < rqs[y].sector then RbFind(rqs, l, sector)
      else if sector > rqs[y].sector then RbFind(rqs, r, sector)
      else At(y)
  }

  // ------------------------------------------------------------- the lookup

  datatype Candidate = None | Cand(id: Id, kind: Kind)

  // elv_merge with deadline_merge: the cache, then the hash, then the sorted tree
  // for a front merge.
  function Lookout(e: Elv, bio: Bio, tree: Tree, allow: Id -> bool): Candidate
    requires Shape(e) && (e.last.At? ==> e.last.id in e.rqs) && forall y <- Nodes(tree) :: y in e.rqs
  {
    if e.last.At? && TryMerge(e.rqs[e.last.id], bio, allow(e.last.id)) != No then
      Cand(e.last.id, TryMerge(e.rqs[e.last.id], bio, allow(e.last.id)))
    else
      var f := Find(e, bio.sector);
      if f.At? && MergeOk(e.rqs[f.id], bio, allow(f.id)) then Cand(f.id, Back)
      else
        var g := RbFind(e.rqs, tree, bio.sector + Sectors(bio.size));
        if g.At? && MergeOk(e.rqs[g.id], bio, allow(g.id)) then Cand(g.id, Front) else None
  }

  // ------------------------------------------------------------- the merges

  // A request holds bios with data.
  ghost predicate Chained(rq: Request) { DataChain(rq.bios) }

  // The trees hold requests.
  ghost predicate SortedIn(e: Elv) { forall y <- e.sort.rd + e.sort.wr :: y in e.rqs }

  ghost predicate AllChained(e: Elv) {
    |e.hash| == HASH_ENTRIES && forall x <- e.rqs :: Chained(e.rqs[x])
  }

  // Requests attempt_merge can join.
  predicate CanJoin(a: Request, b: Request) {
    Mergeable(a) && Mergeable(b) && Key(a) == b.sector && a.write == b.write && a.disk == b.disk && !b.special
  }

  datatype Outcome = Outcome(e: Elv, done: bool)

  function Absorbed(e: Elv, a: Id, b: Id, rq: Request): Elv
    requires b in e.rqs
  {
    e.(rqs := (e.rqs - {b})[a := rq], hash := Unhashed(e.hash, b), sort := SortDel(e.sort, e.rqs[b].write, b),
       nrSorted := e.nrSorted - 1, last := At(a))
  }

  // attempt_merge and elv_merge_requests: a absorbs b, which leaves its tree, or
  // neither changes but for its size caches.
  function Attempt(e: Elv, a: Id, b: Id): (r: Outcome)
    requires AllChained(e) && a in e.rqs && b in e.rqs && a != b
    ensures |r.e.hash| == HASH_ENTRIES && (!r.done ==> r.e.rqs.Keys == e.rqs.Keys && r.e.sort == e.sort)
  {
    if !CanJoin(e.rqs[a], e.rqs[b]) then Outcome(e, false)
    else
      var m := MergeRequests(e.lim, e.rqs[a], e.rqs[b]);
      if !m.ok then Outcome(e.(rqs := e.rqs[a := m.rq][b := m.next]), false)
      else
        Outcome(Repositioned(Absorbed(e, a, b, m.rq), a), true)
  }

  // A bio joined to x, at one end; a refusal bars x from further merges.
  function Refused(e: Elv, x: Id, rq: Request): Elv {
    e.(rqs := e.rqs[x := rq], last := if e.last == At(x) then End else e.last)
  }

  // bio_attempt_back_merge, attempt_back_merge, elv_merged_request
  function BackBio(e: Elv, x: Id, bio: Bio, latter: Link): Outcome
    requires AllChained(e) && x in e.rqs && bio.vecs != [] && (latter.At? ==> latter.id in e.rqs && latter.id != x)
  {
    var m := BackMerge(e.lim, e.rqs[x], bio);
    if !m.ok then Outcome(Refused(e, x, m.rq), false)
    else
      BackChained(e.lim, e.rqs[x], bio);
      var g := e.(rqs := e.rqs[x := m.rq]);
      var a := if latter.At? then Attempt(g, x, latter.id) else Outcome(g, false);
      Outcome(if a.done then a.e else Repositioned(a.e, x).(last := At(x)), true)
  }

  // deadline_merged_request: a request whose start has changed is moved.
  function Resorted(e: Elv, x: Id): Elv
    requires x in e.rqs && SortedIn(e)
  {
    e.(sort := SortAdd(SortDel(e.sort, e.rqs[x].write, x), e.rqs, x))
  }

  // ... and the same at the front, where it is x that may be absorbed, or has to
  // move in its tree.
  function FrontBio(e: Elv, x: Id, bio: Bio, former: Link): Outcome
    requires AllChained(e) && x in e.rqs && bio.vecs != [] && (former.At? ==> former.id in e.rqs && former.id != x)
    requires SortedIn(e)
  {
    var m := FrontMerge(e.lim, e.rqs[x], bio);
    if !m.ok then Outcome(Refused(e, x, m.rq), false)
    else
      FrontChained(e.lim, e.rqs[x], bio);
      var g := e.(rqs := e.rqs[x := m.rq]);
      var a := if former.At? then Attempt(g, former.id, x) else Outcome(g, false);
      Outcome(if a.done then a.e else Resorted(a.e, x).(last := At(x)), true)
  }

  // Recounting a bio leaves its data alone.
  lemma CountedSame(lim: Limits, b: Bio)
    ensures var c := Counted(lim, b);
            c == b.(segValid := c.segValid, physSegs := c.physSegs, segFront := c.segFront, segBack := c.segBack)
  {
  }

  lemma CountedChained(lim: Limits, bios: seq<Bio>, k: int)
    requires DataChain(bios) && 0 <= k < |bios|
    ensures DataChain(bios[k := Counted(lim, bios[k])])
  {
    CountedSame(lim, bios[k]);
    hide Counted;
  }

  lemma CountedVecs(lim: Limits, b: Bio)
    requires b.vecs != []
    ensures DataChain([Counted(lim, b)])
  {
    CountedSame(lim, b);
    hide Counted;
  }

  lemma BackChained(lim: Limits, rq: Request, bio: Bio)
    requires Chained(rq) && bio.vecs != []
    ensures rq.bios != [] && Chained(BackMerge(lim, rq, bio).rq)
  {
    hide Counted, DataChain;
    ChainEnds(rq.bios);
    var k := |rq.bios| - 1;
    CountedChained(lim, rq.bios, k);
    CountedVecs(lim, bio);
    DataAppend(rq.bios[k := Counted(lim, rq.bios[k])], [Counted(lim, bio)]);
  }

  lemma FrontChained(lim: Limits, rq: Request, bio: Bio)
    requires Chained(rq) && bio.vecs != []
    ensures rq.bios != [] && Chained(FrontMerge(lim, rq, bio).rq)
  {
    hide Counted, DataChain;
    ChainEnds(rq.bios);
    CountedChained(lim, rq.bios, 0);
    CountedVecs(lim, bio);
    DataAppend([Counted(lim, bio)], rq.bios[0 := Counted(lim, rq.bios[0])]);
  }

  // ELEVATOR_INSERT_SORT
  function Inserted(e: Elv, x: Id, rq: Request): Elv
    requires |e.hash| == HASH_ENTRIES && SortedIn(e)
  {
    var g := e.(rqs := e.rqs[x := rq], sort := SortAdd(e.sort, e.rqs[x := rq], x), nrSorted := e.nrSorted + 1);
    if !Mergeable(rq) then g
    else g.(hash := Hashed(e.hash, Slot(e, Key(rq)), x), last := if e.last == End then At(x) else e.last)
  }

  // deadline_move_to_dispatch and elv_dispatch_add_tail
  function Dispatched(e: Elv, x: Id): Elv
    requires x in e.rqs
  {
    e.(rqs := e.rqs - {x}, hash := Unhashed(e.hash, x), sort := SortDel(e.sort, e.rqs[x].write, x),
       nrSorted := e.nrSorted - 1,
       last := if e.last == At(x) then End else e.last)
  }

  // ------------------------------------------------ the lookup is a full scan

  ghost predicate Uniq(s: seq<Id>) { s == [] || (s[0] !in s[1..] && Uniq(s[1..])) }

  // Every request that can merge is in the bucket of its end sector; a bucket
  // holds nothing else but requests that were there and can no longer merge.
  ghost predicate HashOk(e: Elv) {
    && |e.hash| == HASH_ENTRIES
    && (forall i :: 0 <= i < HASH_ENTRIES ==> Uniq(e.hash[i]))
    && (forall i, x :: 0 <= i < HASH_ENTRIES && x in e.hash[i] ==> x in e.rqs && Slot(e, Key(e.rqs[x])) == i)
    && (forall x <- e.rqs :: Mergeable(e.rqs[x]) ==> x in e.hash[Slot(e, Key(e.rqs[x]))])
  }

  lemma {:induction false} ScanOk(rqs: map<Id, Request>, list: seq<Id>, offset: int)
    requires (forall x <- list :: x in rqs) && Uniq(list)
    ensures var r := Scan(rqs, list, offset);
            && (r.found.At? ==> r.found.id in list && Mergeable(rqs[r.found.id]) && Key(rqs[r.found.id]) == offset)
            && (r.found == End ==> forall x <- list :: !(Mergeable(rqs[x]) && Key(rqs[x]) == offset))
            && Uniq(r.list) && (forall x <- r.list :: x in list)
            && (forall x <- list :: Mergeable(rqs[x]) ==> x in r.list)
  {
    if list != [] {
      assert list == [list[0]] + list[1..];
      ScanOk(rqs, list[1..], offset);
      var r := Scan(rqs, list[1..], offset);
      assert ([list[0]] + r.list)[1..] == r.list;
    }
  }

  // The hash finds a mergeable request ending at the sector exactly when a scan
  // of all requests would.
  lemma FindIsScan(e: Elv, offset: int)
    requires HashOk(e)
    ensures Shape(e)
    ensures Find(e, offset).At? ==>
              var x := Find(e, offset).id; x in e.rqs && Mergeable(e.rqs[x]) && Key(e.rqs[x]) == offset
    ensures Find(e, offset) == End <==> forall x <- e.rqs :: !(Mergeable(e.rqs[x]) && Key(e.rqs[x]) == offset)
    ensures HashOk(Cleaned(e, offset))
  {
    ScanOk(e.rqs, e.hash[Slot(e, offset)], offset);
    hide Scan;
  }

  // ------------------------------------------------- so is that in the trees

  // One direction's tree holds exactly its requests, by start sector.
  ghost predicate SideOk(rqs: map<Id, Request>, write: bool, s: seq<Id>) {
    KeyOrder.InOrder(Starts(rqs), s) && forall x :: x in s <==> x in rqs && rqs[x].write == write
  }

  ghost predicate SortsOk(rqs: map<Id, Request>, s: Sorts) {
    SideOk(rqs, false, s.rd) && SideOk(rqs, true, s.wr)
  }

  // The search finds a request starting at the sector exactly when there is one,
  // in any shape of the tree.
  lemma {:induction false} RbFindOk(rqs: map<Id, Request>, t: Tree, sector: int)
    requires KeyOrder.InOrder(Starts(rqs), Nodes(t)) && forall y <- Nodes(t) :: y in rqs
    ensures var l := RbFind(rqs, t, sector);
            && (l.At? ==> l.id in Nodes(t) && rqs[l.id].sector == sector)
            && (l == End ==> forall y <- Nodes(t) :: rqs[y].sector != sector)
  {
    match t
    case Leaf =>
    case Node(l, y, r) =>
      KeyOrder.OrderParts(Starts(rqs), Nodes(l), y, Nodes(r));
      if sector < rqs[y].sector { RbFindOk(rqs, l, sector); }
      if sector > rqs[y].sector { RbFindOk(rqs, r, sector); }
  }

  lemma RbFindIsScan(e: Elv, write: bool, t: Tree, sector: int)
    requires SortsOk(e.rqs, e.sort) && Nodes(t) == SortOf(e.sort, write)
    ensures forall y <- Nodes(t) :: y in e.rqs
    ensures RbFind(e.rqs, t, sector).At? ==>
              var x := RbFind(e.rqs, t, sector).id; e.rqs[x].write == write && e.rqs[x].sector == sector
    ensures RbFind(e.rqs, t, sector) == End <==>
              forall x <- e.rqs :: !(e.rqs[x].write == write && e.rqs[x].sector == sector)
  {
    assert SideOk(e.rqs, write, Nodes(t));
    RbFindOk(e.rqs, t, sector);
    hide RbFind;
  }
}
