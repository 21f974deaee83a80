/**
 The segment bound over whole histories: whatever bios a request was built
 from, whatever requests it absorbed or was refused by, and however much of it
 was completed in between, its counter bounds its scatterlist.
 */
module RequestHistory {
  import opened BlockTypes
  import opened Segments
  import opened Completion

  // How a request came to be what it is.
  datatype History =
    | Fresh(bio: Bio)
    | BackBio(h: History, bio: Bio)
    | FrontBio(h: History, bio: Bio)
    | Absorb(h: History, next: History)      // attempt_merge(h, next), seen from h
    | Offered(h: History, prev: History)     // refused by attempt_merge(prev, h), seen from h
    | Part(h: History, error: int, n: nat)

  predicate Mergeable(rq: Request) {
    rq.bios != [] && rq.bios[0].vecs != [] && rq.bios[|rq.bios| - 1].vecs != []
  }

  function Build(q: Limits, h: History): Request {
    match h
    case Fresh(bio) => FromBio(q, bio)
    case BackBio(h', bio) =>
      var r := Build(q, h');
      if r.bios == [] then r else BackMerge(q, r, bio).rq
    case FrontBio(h', bio) =>
      var r := Build(q, h');
      if r.bios == [] then r else FrontMerge(q, r, bio).rq
    case Absorb(h', next) =>
      var r, s := Build(q, h'), Build(q, next);
      if Mergeable(r) && Mergeable(s) then MergeRequests(q, r, s).rq else r
    case Offered(h', prev) =>
      var r, s := Build(q, prev), Build(q, h');
      if Mergeable(r) && Mergeable(s) && !MergeRequests(q, r, s).ok then MergeRequests(q, r, s).next else s
    case Part(h', error, n) => Update(q, Build(q, h'), error, n).rq
  }

  // Every bio handed in is a data bio whose cached counters, if any, are right.
  ghost predicate GoodInputs(q: Limits, h: History) {
    match h
    case Fresh(bio) => DataBio(bio) && BioOk(q, bio)
    case BackBio(h', bio) => GoodInputs(q, h') && DataBio(bio) && BioOk(q, bio)
    case FrontBio(h', bio) => GoodInputs(q, h') && DataBio(bio) && BioOk(q, bio)
    case Absorb(h', next) => GoodInputs(q, h') && GoodInputs(q, next)
    case Offered(h', prev) => GoodInputs(q, h') && GoodInputs(q, prev)
    case Part(h', _, _) => GoodInputs(q, h')
  }

  ghost predicate RqInv(q: Limits, rq: Request) {
    LiveRq(rq) && (rq.bios != [] ==> SegInv(q, rq))
  }

  lemma {:induction false} BytesAppend(a: seq<Bio>, b: seq<Bio>)
    ensures Bytes(a + b) == Bytes(a) + Bytes(b)
  {
    if a == [] {
      assert a + b == b;
    } else {
      BytesAppend(a[1..], b);
      assert (a + b)[1..] == a[1..] + b;
    }
  }

  lemma BytesOne(b: Bio)
    ensures Bytes([b]) == b.size
  {
  }

  lemma CountedInChain(q: Limits, bios: seq<Bio>, i: nat)
    requires Live(bios) && i < |bios|
    ensures var r := bios[i := Counted(q, bios[i])]; Live(r) && Bytes(r) == Bytes(bios)
  {
    assert DataBio(bios[i]);
    CountedShape(q, bios[i]);
    BytesUpdate(bios, i, Counted(q, bios[i]));
  }

  lemma CountedShape(q: Limits, b: Bio)
    requires DataBio(b)
    ensures var c := Counted(q, b); DataBio(c) && c.size == b.size && c.vecs == b.vecs
  {
    if !b.segValid { CountedOk(q, b); }
  }

  lemma {:induction false} BytesUpdate(bios: seq<Bio>, i: nat, b: Bio)
    requires i < |bios| && b.size == bios[i].size
    ensures Bytes(bios[i := b]) == Bytes(bios)
  {
    if i > 0 {
      BytesUpdate(bios[1..], i - 1, b);
      assert bios[i := b][1..] == bios[1..][i - 1 := b];
    } else {
      assert bios[i := b][1..] == bios[1..];
    }
  }

  lemma LiveAppend(a: seq<Bio>, b: seq<Bio>)
    requires Live(a) && Live(b)
    ensures Live(a + b) && Bytes(a + b) == Bytes(a) + Bytes(b)
  {
    BytesAppend(a, b);
  }

  lemma FreshKeeps(q: Limits, bio: Bio)
    requires DataBio(bio) && BioOk(q, bio)
    ensures RqInv(q, FromBio(q, bio))
  {
    CountedShape(q, bio);
    CountedOk(q, bio);
    OneBioChain(q, Counted(q, bio));
    BytesOne(Counted(q, bio));
  }

  lemma LinkLive(q: Limits, rq: Request, bio: Bio, front: bool)
    requires LiveRq(rq) && DataBio(bio)
    ensures LiveRq(NewHwSegment(q, rq, bio, front).rq)
  {
    BytesOne(bio);
    if front {
      LiveAppend([bio], rq.bios);
    } else {
      LiveAppend(rq.bios, [bio]);
    }
  }

  lemma BackKeeps(q: Limits, rq: Request, bio: Bio)
    requires RqInv(q, rq) && rq.bios != [] && DataBio(bio) && BioOk(q, bio)
    ensures RqInv(q, BackMerge(q, rq, bio).rq)
  {
    BackMergeKeeps(q, rq, bio);
    CountedShape(q, bio);
    var k := |rq.bios| - 1;
    CountedInChain(q, rq.bios, k);
    LinkLive(q, rq.(bios := rq.bios[k := Counted(q, rq.bios[k])]), Counted(q, bio), false);
  }

  lemma FrontKeeps(q: Limits, rq: Request, bio: Bio)
    requires RqInv(q, rq) && rq.bios != [] && DataBio(bio) && BioOk(q, bio)
    ensures RqInv(q, FrontMerge(q, rq, bio).rq)
  {
    FrontMergeKeeps(q, rq, bio);
    CountedShape(q, bio);
    CountedInChain(q, rq.bios, 0);
    LinkLive(q, rq.(bios := rq.bios[0 := Counted(q, rq.bios[0])]), Counted(q, bio), true);
  }

  lemma FrontedLive(bios: seq<Bio>, segs: nat, n: nat)
    requires Live(bios) && bios != []
    ensures Live(Fronted(bios, segs, n)) && Bytes(Fronted(bios, segs, n)) == Bytes(bios)
    ensures Live(Backed(bios, segs, n)) && Bytes(Backed(bios, segs, n)) == Bytes(bios)
  {
    LikeBytes(Fronted(bios, segs, n), bios);
    LikeBytes(Backed(bios, segs, n), bios);
  }

  lemma MergedLive(q: Limits, rq: Request, next: Request)
    requires LiveRq(rq) && LiveRq(next) && Mergeable(rq) && Mergeable(next)
    requires MergeRequests(q, rq, next).ok
    ensures LiveRq(MergeRequests(q, rq, next).rq)
  {
    hide Live, Bytes, Fronted, Backed, Contig;
    var n := rq.bios[|rq.bios| - 1].segBack + next.bios[0].segFront;
    if Contig(q, rq.bios[|rq.bios| - 1], next.bios[0]) {
      FrontedLive(rq.bios, rq.nrSegs, n);
      FrontedLive(next.bios, next.nrSegs, n);
      LiveAppend(Fronted(rq.bios, rq.nrSegs, n), Backed(next.bios, next.nrSegs, n));
    } else {
      LiveAppend(rq.bios, next.bios);
    }
  }

  lemma RefusedLive(q: Limits, rq: Request, next: Request)
    requires LiveRq(rq) && LiveRq(next) && Mergeable(rq) && Mergeable(next)
    requires !MergeRequests(q, rq, next).ok
    ensures LiveRq(MergeRequests(q, rq, next).rq) && LiveRq(MergeRequests(q, rq, next).next)
  {
    var n := rq.bios[|rq.bios| - 1].segBack + next.bios[0].segFront;
    FrontedLive(rq.bios, rq.nrSegs, n);
    FrontedLive(next.bios, next.nrSegs, n);
  }

  lemma MergeKeeps(q: Limits, rq: Request, next: Request)
    requires RqInv(q, rq) && RqInv(q, next) && Mergeable(rq) && Mergeable(next)
    ensures var m := MergeRequests(q, rq, next);
            RqInv(q, m.rq) && (!m.ok ==> RqInv(q, m.next))
  {
    if MergeRequests(q, rq, next).ok {
      MergedLive(q, rq, next);
      MergedRequestKeeps(q, rq, next);
    } else {
      RefusedLive(q, rq, next);
      RefusedMergeKeeps(q, rq, next);
    }
  }

  lemma {:induction false} HistoryKeeps(q: Limits, h: History)
    requires GoodInputs(q, h)
    ensures RqInv(q, Build(q, h))
    decreases h
  {
    match h
    case Fresh(bio) => FreshKeeps(q, bio);
    case BackBio(h', bio) =>
      HistoryKeeps(q, h');
      if Build(q, h').bios != [] { BackKeeps(q, Build(q, h'), bio); }
    case FrontBio(h', bio) =>
      HistoryKeeps(q, h');
      if Build(q, h').bios != [] { FrontKeeps(q, Build(q, h'), bio); }
    case Absorb(h', next) =>
      HistoryKeeps(q, h');
      HistoryKeeps(q, next);
      var r, s := Build(q, h'), Build(q, next);
      if Mergeable(r) && Mergeable(s) { MergeKeeps(q, r, s); }
    case Offered(h', prev) =>
      HistoryKeeps(q, h');
      HistoryKeeps(q, prev);
      var r, s := Build(q, prev), Build(q, h');
      if Mergeable(r) && Mergeable(s) { MergeKeeps(q, r, s); }
    case Part(h', error, n) =>
      HistoryKeeps(q, h');
      UpdateAccounts(q, Build(q, h'), error, n);
  }

  // After any history of merges and completions, mapping the request yields at
  // most nr_phys_segments entries.
  method MapWithinCount(q: Limits, h: History) returns (rq: Request, sg: seq<Sg>)
    requires GoodInputs(q, h)
    ensures rq == Build(q, h)
    ensures Describes(sg, Greedy(q, false, Flatten(rq.bios)))
    ensures |sg| <= rq.nrSegs
  {
    rq := Build(q, h);
    HistoryKeeps(q, h);
    sg := MapSg(q, rq.bios);
    if rq.bios != [] { SegmentBound(q, rq); }
  }
}
