/**
 What merging does besides keeping the meaning: no request of any run outgrows the
 queue's limits, a merge that is possible is found and done, and the cache names
 the request merged last, which can still merge.
 */
module ElevatorExact {
  import opened BlockTypes
  import opened Segments
  import opened MergeLimits
  import opened Elevator
  import opened ElevatorRuns

  // ---------------------------------------------------------------- limits

  ghost predicate AllIn(lim: Limits, rqs: map<Id, Request>) {
    forall x <- rqs :: InLimits(lim, rqs[x])
  }

  lemma WholeOf(e: Elv, x: Id)
    requires Rest(e) && x in e.rqs
    ensures Whole(e.rqs[x].dataLen) && Chained(e.rqs[x]) && e.rqs[x].bios != []
  {
    var rq := e.rqs[x];
    assert RqOk(rq);
    LaidSize(rq.sector, rq.write, rq.disk, Outline(rq.bios));
    ChainEnds(rq.bios);
  }

  lemma AllInSet(lim: Limits, rqs: map<Id, Request>, x: Id, rq: Request)
    requires AllIn(lim, rqs) && InLimits(lim, rq)
    ensures AllIn(lim, rqs[x := rq]) && AllIn(lim, rqs - {x})
  {
  }

  lemma InOf(lim: Limits, rqs: map<Id, Request>, x: Id)
    requires AllIn(lim, rqs) && x in rqs
    ensures InLimits(lim, rqs[x])
  {
  }

  lemma AttemptIn(e: Elv, a: Id, b: Id)
    requires AllChained(e) && Rest(e) && a in e.rqs && b in e.rqs && a != b && AllIn(e.lim, e.rqs)
    ensures Attempt(e, a, b).e.lim == e.lim && AllIn(e.lim, Attempt(e, a, b).e.rqs)
  {
    hide MergeRequests, InLimits, Hashed, Unhashed, Key, Rest, Chained;
    if CanJoin(e.rqs[a], e.rqs[b]) {
      WholeOf(e, a);
      WholeOf(e, b);
      MergeStarts(e, a, b);
      MergeWithin(e.lim, e.rqs[a], e.rqs[b]);
      var m := MergeRequests(e.lim, e.rqs[a], e.rqs[b]);
      if m.ok {
        AllInSet(e.lim, e.rqs, b, e.rqs[b]);
        AllInSet(e.lim, e.rqs - {b}, a, m.rq);
      } else {
        AllInSet(e.lim, e.rqs, a, m.rq);
        AllInSet(e.lim, e.rqs[a := m.rq], b, m.next);
      }
    }
  }

  lemma GrownRest(e: Elv, x: Id, rq: Request)
    requires Rest(e) && x in e.rqs && RqOk(rq) && rq.noMerge == e.rqs[x].noMerge
    ensures Rest(e.(rqs := e.rqs[x := rq]))
  {
    ChangedRest(e, x, rq);
  }

  lemma BackIn(e: Elv, x: Id, bio: Bio, latter: Link)
    requires HInv(e) && AllChained(e) && x in e.rqs && WholeBio(bio) && bio.sector == Key(e.rqs[x])
    requires bio.write == e.rqs[x].write && bio.disk == e.rqs[x].disk
    requires (latter.At? ==> latter.id in e.rqs && latter.id != x) && AllIn(e.lim, e.rqs)
    ensures AllIn(e.lim, BackBio(e, x, bio, latter).e.rqs)
  {
    hide HashOk, RqsOk, BackMerge, InLimits, AllIn, Attempt, Hashed, Unhashed, Key, Chained;
    WholeOf(e, x);
    BackExactly(e.lim, e.rqs[x], bio);
    BackRun(e.lim, e.rqs[x], bio) by { OkOf(e, x); }
    BackChained(e.lim, e.rqs[x], bio);
    var m := BackMerge(e.lim, e.rqs[x], bio);
    InOf(e.lim, e.rqs, x);
    SameIn(e.lim, e.rqs[x], m.rq);
    AllInSet(e.lim, e.rqs, x, m.rq);
    if m.ok && latter.At? {
      GrownRest(e, x, m.rq);
      AttemptIn(e.(rqs := e.rqs[x := m.rq]), x, latter.id);
    }
  }

  lemma SameIn(lim: Limits, a: Request, b: Request)
    ensures InLimits(lim, a) && b.dataLen == a.dataLen && b.nrSegs == a.nrSegs ==> InLimits(lim, b)
  {
  }

  lemma FrontIn(e: Elv, x: Id, bio: Bio, former: Link)
    requires HInv(e) && AllChained(e) && SortedIn(e) && x in e.rqs && WholeBio(bio)
    requires bio.sector + Sectors(bio.size) == e.rqs[x].sector
    requires bio.write == e.rqs[x].write && bio.disk == e.rqs[x].disk
    requires (former.At? ==> former.id in e.rqs && former.id != x) && AllIn(e.lim, e.rqs)
    ensures AllIn(e.lim, FrontBio(e, x, bio, former).e.rqs)
  {
    hide HashOk, RqsOk, FrontMerge, InLimits, AllIn, Attempt, SortAdd, SortDel, Key, Chained;
    WholeOf(e, x);
    FrontExactly(e.lim, e.rqs[x], bio);
    FrontRun(e.lim, e.rqs[x], bio) by { OkOf(e, x); }
    FrontChained(e.lim, e.rqs[x], bio);
    var m := FrontMerge(e.lim, e.rqs[x], bio);
    InOf(e.lim, e.rqs, x);
    SameIn(e.lim, e.rqs[x], m.rq);
    AllInSet(e.lim, e.rqs, x, m.rq);
    if m.ok && former.At? {
      GrownRest(e, x, m.rq);
      AttemptIn(e.(rqs := e.rqs[x := m.rq]), former.id, x);
    }
  }

  lemma JoinedIn(e: Elv, y: Id, kind: Kind, bio: Bio, near: Link, allow: Id -> bool)
    requires EInv(e) && WholeBio(bio) && Fits(e, bio, Cand(y, kind), allow) && AllChained(e) && SortedIn(e)
    requires (near.At? ==> near.id in e.rqs && near.id != y) && AllIn(e.lim, e.rqs)
    ensures AllIn(e.lim, Joined(e, y, kind, bio, near).e.rqs)
  {
    hide EInv, HInv, AllIn, BackBio, FrontBio, AllChained, SortedIn, Key;
    PartsOf(e);
    if kind == Back { BackIn(e, y, bio, near); } else { FrontIn(e, y, bio, near); }
  }

  lemma ChosenIn(e: Elv, c: Candidate, bio: Bio, beside: Link, allow: Id -> bool)
    requires EInv(e) && WholeBio(bio) && Fits(e, bio, c, allow) && (beside.At? ==> beside.id in e.rqs)
    requires AllIn(e.lim, e.rqs)
    ensures AllIn(e.lim, Chosen(e, c, bio, beside, allow).e.rqs)
  {
    hide EInv, Joined, AllIn, AllChained, SortedIn, Key;
    if c.Cand? {
      var near := if beside == At(c.id) then End else beside;
      ElevatorRuns.JoinedKeeps(e, c.id, c.kind, bio, near, allow);
      JoinedIn(e, c.id, c.kind, bio, near, allow);
    }
  }

  // The bio is within the limits by itself.
  ghost predicate Fitting(lim: Limits, bio: Bio) {
    Sectors(bio.size) <= lim.maxSectors && SegsOf(lim, bio) <= lim.maxSegs
  }

  lemma PlacedIn(e: Elv, x: Id, bio: Bio)
    requires EInv(e) && AllIn(e.lim, e.rqs) && Fitting(e.lim, bio)
    ensures AllIn(e.lim, Placed(e, x, bio).rqs) && Placed(e, x, bio).lim == e.lim
  {
    hide EInv, AllIn, FromBio, SortAdd, Hashed, Key, InLimits, SortedIn;
    PartsOf(e);
    FromExactly(e.lim, bio);
    AllInSet(e.lim, e.rqs, x, FromBio(e.lim, bio));
  }

  // Submitting such a bio keeps every request within them.
  lemma SubmitIn(e: Elv, x: Id, bio: Bio, tree: Tree, beside: Link, allow: Id -> bool)
    requires EInv(e) && x !in e.rqs && WholeBio(bio) && Shapes(e, bio, tree) && (beside.At? ==> beside.id in e.rqs)
    requires AllIn(e.lim, e.rqs) && Fitting(e.lim, bio)
    ensures var r := Submit(e, x, bio, tree, beside, allow); r.lim == e.lim && AllIn(e.lim, r.rqs)
  {
    hide EInv, Shape, Lookout, Searched, Chosen, Placed, Fits, Nodes, AllIn, Fitting;
    LookoutAfter(e, bio, tree, allow);
    var s, c := Searched(e, bio, allow), Lookout(e, bio, tree, allow);
    ChosenKeeps(s, c, bio, beside, allow);
    ChosenIn(s, c, bio, beside, allow);
    var o := Chosen(s, c, bio, beside, allow);
    if !o.done { PlacedIn(o.e, x, bio); }
  }

  // In every run in which each bio is within max_sectors and max_segments by itself,
  // so is every request.
  lemma {:induction false} RunWithinLimits(lim: Limits, bucket: int -> nat, ws: seq<World>, vs: seq<Event>, n: nat)
    requires ElevatorRuns.Run(lim, bucket, ws, vs) && n < |ws|
    requires forall i :: 0 <= i < |vs| && vs[i].Arrive? ==> Fitting(lim, vs[i].bio)
    ensures ws[n].e.lim == lim && AllIn(lim, ws[n].e.rqs)
  {
    hide WInv, Next, Enabled, AllIn, Fitting;
    if n == 0 {
      NoneIn(lim);
    } else {
      RunWithinLimits(lim, bucket, ws, vs, n - 1);
      RunKeeps(lim, bucket, ws, vs, n - 1);
      NextIn(ws[n - 1], vs[n - 1]);
    }
  }

  lemma NoneIn(lim: Limits)
    ensures AllIn(lim, map[])
  {
  }

  lemma NextIn(w: World, v: Event)
    requires WInv(w) && Enabled(w, v) && AllIn(w.e.lim, w.e.rqs) && (v.Arrive? ==> Fitting(w.e.lim, v.bio))
    ensures Next(w, v).e.lim == w.e.lim && AllIn(w.e.lim, Next(w, v).e.rqs)
  {
    hide EInv, Submit, Bios, SortDel, Unhashed, IdsOf;
    if v.Arrive? { SubmitIn(w.e, v.x, v.bio, v.tree, v.beside, v.allow); }
  }

  // ---------------------------------------------------- when merges are found

  // What a request must be to take the bio.
  ghost predicate May(rq: Request, bio: Bio, allowed: bool) {
    !rq.noMerge && !rq.special && rq.write == bio.write && rq.disk == bio.disk && allowed
  }

  // A request next to the bio that may take it.
  ghost predicate Takes(e: Elv, bio: Bio, allow: Id -> bool, x: Id)
    requires x in e.rqs
  {
    var rq := e.rqs[x];
    && May(rq, bio, allow(x))
    && (rq.sector + Sectors(rq.dataLen) == bio.sector || bio.sector + Sectors(bio.size) == rq.sector)
  }

  // y stands in the way: it is next to the bio on the same side, can be found there,
  // and may not take the bio.
  ghost predicate InTheWay(e: Elv, bio: Bio, allow: Id -> bool, back: bool, y: Id)
    requires y in e.rqs
  {
    var rq := e.rqs[y];
    && !May(rq, bio, allow(y))
    && (if back then !rq.noMerge && rq.sector + Sectors(rq.dataLen) == bio.sector
        else rq.write == bio.write && bio.sector + Sectors(bio.size) == rq.sector)
  }

  // What elv_merge finds takes the bio, and it is the cached request if that does.
  // It passes over one that takes the bio only if a request that does not is on the
  // same side, and takes it in front of a request other than the cached one only if
  // the end of every taker is so blocked.
  lemma LookoutMisses(e: Elv, bio: Bio, tree: Tree, allow: Id -> bool)
    requires EInv(e) && Shapes(e, bio, tree)
    ensures Shape(e) && (e.last.At? ==> e.last.id in e.rqs) && forall y <- Nodes(tree) :: y in e.rqs
    ensures var c := Lookout(e, bio, tree, allow);
            && (c.Cand? ==> c.id in e.rqs && Takes(e, bio, allow, c.id))
            && (e.last.At? && Takes(e, bio, allow, e.last.id) ==>
                  c == Cand(e.last.id, if Key(e.rqs[e.last.id]) == bio.sector then Back else Front))
            && (c == None || (c.kind == Front && e.last != At(c.id)) ==>
                  forall x <- e.rqs ::
                    May(e.rqs[x], bio, allow(x)) && Key(e.rqs[x]) == bio.sector ==>
                      exists y <- e.rqs :: InTheWay(e, bio, allow, true, y))
            && (c == None ==>
                  forall x <- e.rqs ::
                    May(e.rqs[x], bio, allow(x)) && bio.sector + Sectors(bio.size) == e.rqs[x].sector ==>
                      exists y <- e.rqs :: InTheWay(e, bio, allow, false, y))
  {
    hide EInv, HInv, HashOk, SortsOk, SortedIn, Find, RbFind, Nodes, SortOf, Sectors;
    PartsOf(e);
    FindIsScan(e, bio.sector);
    RbFindIsScan(e, bio.write, tree, bio.sector + Sectors(bio.size));
    LookoutRight(e, bio, tree, allow);
  }

  // So with none in the way it finds a request exactly when one takes the bio, and
  // one that takes it at its end before one that takes it in front.
  lemma LookoutExactly(e: Elv, bio: Bio, tree: Tree, allow: Id -> bool)
    requires EInv(e) && Shapes(e, bio, tree)
    requires forall y <- e.rqs :: !InTheWay(e, bio, allow, true, y) && !InTheWay(e, bio, allow, false, y)
    ensures Shape(e) && (e.last.At? ==> e.last.id in e.rqs) && forall y <- Nodes(tree) :: y in e.rqs
    ensures Lookout(e, bio, tree, allow) == None <==> forall x <- e.rqs :: !Takes(e, bio, allow, x)
    ensures var c := Lookout(e, bio, tree, allow);
            c.Cand? && c.kind == Front && e.last != At(c.id) ==>
              forall x <- e.rqs :: !(May(e.rqs[x], bio, allow(x)) && Key(e.rqs[x]) == bio.sector)
  {
    hide EInv, Shape, Lookout, May, Nodes, Sectors;
    LookoutMisses(e, bio, tree, allow);
  }

  // A lookup that finds nothing leaves in its bucket just what can still merge.
  lemma CleanedDrops(e: Elv, offset: int)
    requires EInv(e)
    ensures Shape(e) && |Cleaned(e, offset).hash| == HASH_ENTRIES
    ensures Find(e, offset) == End ==>
              forall x <- e.rqs :: x in Cleaned(e, offset).hash[Slot(e, offset)] <==>
                                   x in e.hash[Slot(e, offset)] && !e.rqs[x].noMerge
  {
    hide EInv, HInv, HashOk, SortsOk, SortedIn, Scan;
    PartsOf(e);
    ScanKeeps(e.rqs, e.hash[Slot(e, offset)], offset);
  }

  lemma {:induction false} ScanKeeps(rqs: map<Id, Request>, list: seq<Id>, offset: int)
    requires forall x <- list :: x in rqs
    ensures Scan(rqs, list, offset).found == End ==>
              forall x <- rqs :: x in Scan(rqs, list, offset).list <==> x in list && !rqs[x].noMerge
  {
    if list != [] {
      ScanKeeps(rqs, list[1..], offset);
      assert list == [list[0]] + list[1..];
    }
  }

  // attempt_merge joins two requests exactly when both can merge, the second starts
  // where the first ends, they go the same way to the same disk, neither was
  // requeued, and the result is within the limits.
  lemma AttemptExactly(e: Elv, a: Id, b: Id)
    requires AllChained(e) && a in e.rqs && b in e.rqs && a != b && e.rqs[a].nrSegs + e.rqs[b].nrSegs >= 1
    ensures var x, y := e.rqs[a], e.rqs[b];
            && x.bios != [] && y.bios != [] && x.bios[|x.bios| - 1].vecs != [] && y.bios[0].vecs != []
            && var meet := if Meets(e.lim, x.bios[|x.bios| - 1], y.bios[0]) then 1 else 0;
               Attempt(e, a, b).done <==>
                 && !x.noMerge && !y.noMerge && !x.special && !y.special
                 && x.sector + Sectors(x.dataLen) == y.sector && x.write == y.write && x.disk == y.disk
                 && Sectors(x.dataLen) + Sectors(y.dataLen) <= e.lim.maxSectors
                 && x.nrSegs + y.nrSegs - meet <= e.lim.maxSegs
  {
    hide MergeRequests, Meets, Hashed, Unhashed, Sectors, Chained, SortDel;
    MergeStarts(e, a, b);
    MergeExactly(e.lim, e.rqs[a], e.rqs[b]);
  }

  // A bio taken at the end of a request has the request behind it joined as well,
  // exactly when attempt_merge can ...
  lemma BackJoins(e: Elv, x: Id, bio: Bio, y: Id)
    requires AllChained(e) && x in e.rqs && bio.vecs != [] && y in e.rqs && y != x
    ensures e.rqs[x].bios != []
    ensures var m := BackMerge(e.lim, e.rqs[x], bio);
            var g := e.(rqs := e.rqs[x := m.rq]);
            var r := BackBio(e, x, bio, At(y));
            r.done == m.ok && AllChained(g) && (m.ok ==> (y !in r.e.rqs <==> Attempt(g, x, y).done))
  {
    hide BackMerge, MergeRequests, Hashed, Unhashed, SortDel, Chained, CanJoin;
    BackChained(e.lim, e.rqs[x], bio);
  }

  // ... and one taken at the start likewise has the request before it joined.
  lemma FrontJoins(e: Elv, x: Id, bio: Bio, y: Id)
    requires AllChained(e) && SortedIn(e) && x in e.rqs && bio.vecs != [] && y in e.rqs && y != x
    ensures e.rqs[x].bios != []
    ensures var m := FrontMerge(e.lim, e.rqs[x], bio);
            var g := e.(rqs := e.rqs[x := m.rq]);
            var r := FrontBio(e, x, bio, At(y));
            r.done == m.ok && AllChained(g) && (m.ok ==> (x !in r.e.rqs <==> Attempt(g, y, x).done))
  {
    hide FrontMerge, MergeRequests, Hashed, Unhashed, SortDel, SortAdd, Chained, CanJoin;
    FrontChained(e.lim, e.rqs[x], bio);
  }

  // --------------------------------------------------------------- the cache

  // The cached request is queued and can still merge.
  ghost predicate CacheOk(e: Elv) {
    e.last.At? ==> e.last.id in e.rqs && Mergeable(e.rqs[e.last.id])
  }

  // It holds the bio.
  ghost predicate Caches(e: Elv, id: nat) {
    e.last.At? && e.last.id in e.rqs && id in IdsOf(Outline(e.rqs[e.last.id].bios))
  }

  lemma AttemptCache(e: Elv, a: Id, b: Id, id: nat)
    requires AllChained(e) && a in e.rqs && b in e.rqs && a != b && CacheOk(e)
    ensures var r := Attempt(e, a, b);
            && CacheOk(r.e)
            && (if r.done then
                  (id in IdsOf(Outline(e.rqs[a].bios)) || id in IdsOf(Outline(e.rqs[b].bios)) ==> Caches(r.e, id))
                else r.e.last == e.last && forall x :: x in e.rqs && x in r.e.rqs ==>
                       r.e.rqs[x].noMerge == e.rqs[x].noMerge && Outline(r.e.rqs[x].bios) == Outline(e.rqs[x].bios))
  {
    hide MergeRequests, Outline, IdsOf, Hashed, Unhashed, Key, Chained, SortDel;
    if CanJoin(e.rqs[a], e.rqs[b]) {
      assert Chained(e.rqs[a]) && Chained(e.rqs[b]);
      MergeStarts(e, a, b);
      MergeOutline(e.lim, e.rqs[a], e.rqs[b]);
      IdsAppend(Outline(e.rqs[a].bios), Outline(e.rqs[b].bios));
    }
  }

  lemma HasEnd(xs: seq<Extent>, x: Extent)
    ensures x.id in IdsOf(xs + [x]) && x.id in IdsOf([x] + xs)
  {
    assert IdSeq(xs + [x])[|xs|] == x.id && IdSeq([x] + xs)[0] == x.id;
  }

  lemma BackCache(e: Elv, x: Id, bio: Bio, latter: Link)
    requires AllChained(e) && x in e.rqs && bio.vecs != [] && (latter.At? ==> latter.id in e.rqs && latter.id != x)
    requires CacheOk(e) && Mergeable(e.rqs[x])
    ensures var r := BackBio(e, x, bio, latter);
            CacheOk(r.e) && (r.done ==> Caches(r.e, bio.id)) && (!r.done ==> r.e.last != At(x))
  {
    hide BackMerge, Attempt, Hashed, Unhashed, Key, Chained, Outline, IdsOf;
    assert Chained(e.rqs[x]);
    BackOutline(e.lim, e.rqs[x], bio);
    BackChained(e.lim, e.rqs[x], bio);
    HasEnd(Outline(e.rqs[x].bios), ExtentOf(bio));
    var m := BackMerge(e.lim, e.rqs[x], bio);
    if m.ok && latter.At? { AttemptCache(e.(rqs := e.rqs[x := m.rq]), x, latter.id, bio.id); }
  }

  lemma FrontCache(e: Elv, x: Id, bio: Bio, former: Link)
    requires AllChained(e) && SortedIn(e) && x in e.rqs && bio.vecs != []
    requires (former.At? ==> former.id in e.rqs && former.id != x) && CacheOk(e) && Mergeable(e.rqs[x])
    ensures var r := FrontBio(e, x, bio, former);
            CacheOk(r.e) && (r.done ==> Caches(r.e, bio.id)) && (!r.done ==> r.e.last != At(x))
  {
    hide FrontMerge, Attempt, SortAdd, SortDel, Key, Chained, Outline, IdsOf;
    assert Chained(e.rqs[x]);
    FrontOutline(e.lim, e.rqs[x], bio);
    FrontChained(e.lim, e.rqs[x], bio);
    HasEnd(Outline(e.rqs[x].bios), ExtentOf(bio));
    var m := FrontMerge(e.lim, e.rqs[x], bio);
    if m.ok && former.At? { AttemptCache(e.(rqs := e.rqs[x := m.rq]), former.id, x, bio.id); }
  }

  lemma ChosenCache(e: Elv, c: Candidate, bio: Bio, beside: Link, allow: Id -> bool)
    requires EInv(e) && WholeBio(bio) && Fits(e, bio, c, allow) && (beside.At? ==> beside.id in e.rqs) && CacheOk(e)
    ensures var r := Chosen(e, c, bio, beside, allow); CacheOk(r.e) && (r.done ==> Caches(r.e, bio.id))
  {
    hide EInv, BackBio, FrontBio, AllChained, SortedIn, Key, CacheOk, Caches;
    if c.Cand? {
      var near := if beside == At(c.id) then End else beside;
      ElevatorRuns.JoinedKeeps(e, c.id, c.kind, bio, near, allow);
      if c.kind == Back { BackCache(e, c.id, bio, near); } else { FrontCache(e, c.id, bio, near); }
    }
  }

  // A new request is cached only if none was.
  lemma PlacedCache(e: Elv, x: Id, bio: Bio)
    requires EInv(e) && x !in e.rqs && CacheOk(e)
    ensures var r := Placed(e, x, bio);
            CacheOk(r) && r.last == (if e.last.At? then e.last else At(x)) && x in r.rqs
  {
    hide EInv, SortAdd, Hashed, Key, SortedIn, Counted;
    PartsOf(e);
  }

  // After any submission the cached request can merge; if the bio was merged, it is
  // the one that holds the bio.
  lemma SubmitCache(e: Elv, x: Id, bio: Bio, tree: Tree, beside: Link, allow: Id -> bool)
    requires EInv(e) && x !in e.rqs && WholeBio(bio) && Shapes(e, bio, tree) && (beside.At? ==> beside.id in e.rqs)
    requires CacheOk(e)
    ensures var r := Submit(e, x, bio, tree, beside, allow); CacheOk(r) && (x in r.rqs || Caches(r, bio.id))
  {
    hide EInv, Shape, Lookout, Searched, Chosen, Placed, Fits, Nodes, Caches;
    LookoutAfter(e, bio, tree, allow);
    var s, c := Searched(e, bio, allow), Lookout(e, bio, tree, allow);
    ChosenKeeps(s, c, bio, beside, allow);
    ChosenCache(s, c, bio, beside, allow);
    var o := Chosen(s, c, bio, beside, allow);
    if !o.done {
      assert x !in o.e.rqs.Keys;
      PlacedCache(o.e, x, bio);
    }
  }

  lemma NextCache(w: World, v: Event)
    requires WInv(w) && Enabled(w, v) && CacheOk(w.e)
    ensures CacheOk(Next(w, v).e)
  {
    hide EInv, Submit, Bios, SortDel, Unhashed, IdsOf;
    if v.Arrive? { SubmitCache(w.e, v.x, v.bio, v.tree, v.beside, v.allow); }
  }

  // In every run the cached request is one that can merge.
  lemma {:induction false} RunCaches(lim: Limits, bucket: int -> nat, ws: seq<World>, vs: seq<Event>, n: nat)
    requires ElevatorRuns.Run(lim, bucket, ws, vs) && n < |ws|
    ensures CacheOk(ws[n].e)
  {
    hide WInv, Next, Enabled;
    if n > 0 {
      RunCaches(lim, bucket, ws, vs, n - 1);
      RunKeeps(lim, bucket, ws, vs, n - 1);
      NextCache(ws[n - 1], vs[n - 1]);
    }
  }
}
