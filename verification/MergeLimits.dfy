/**
 When merges are allowed (blk-merge.c), exactly: a merge is refused only when the
 request would outgrow the queue's limits or was requeued, and what is merged is
 within them.
 */
module MergeLimits {
  import opened BlockTypes
  import opened Segments

  // Within max_sectors and max_segments.
  predicate InLimits(q: Limits, rq: Request) {
    Sectors(rq.dataLen) <= q.maxSectors && rq.nrSegs <= q.maxSegs
  }

  predicate Whole(bytes: nat) { bytes % SECTOR == 0 }

  lemma WholeSum(a: nat, b: nat)
    requires Whole(a) && Whole(b)
    ensures Whole(a + b) && Sectors(a + b) == Sectors(a) + Sectors(b)
  {
  }

  // The segments a bio counts for: its own count if valid, and else the segments a
  // greedy pass over its vectors finds.
  function SegsOf(q: Limits, bio: Bio): nat {
    if bio.segValid then bio.physSegs else |Greedy(q, true, bio.vecs)|
  }

  lemma CountedSegs(q: Limits, bio: Bio)
    ensures Counted(q, bio).physSegs == SegsOf(q, bio) && Counted(q, bio).size == bio.size
    ensures Counted(q, bio).sector == bio.sector && Counted(q, bio).vecs == bio.vecs
  {
    FlattenOne(bio);
    if !bio.segValid && bio.vecs == [] { assert Greedy(q, true, []) == []; }
  }

  // ll_back_merge_fn
  lemma BackExactly(q: Limits, rq: Request, bio: Bio)
    requires rq.bios != []
    ensures var m := BackMerge(q, rq, bio);
            && (m.ok <==> Sectors(rq.dataLen) + Sectors(bio.size) <= q.maxSectors
                          && rq.nrSegs + SegsOf(q, bio) <= q.maxSegs)
            && (if m.ok then
                  && m.rq.nrSegs == rq.nrSegs + SegsOf(q, bio) && m.rq.noMerge == rq.noMerge
                  && m.rq.dataLen == rq.dataLen + bio.size && m.rq.sector == rq.sector
                  && (Whole(rq.dataLen) && Whole(bio.size) ==> InLimits(q, m.rq))
                else m.rq == rq.(noMerge := true, bios := m.rq.bios))
  {
    hide Counted;
    CountedSegs(q, bio);
    if Whole(rq.dataLen) && Whole(bio.size) { WholeSum(rq.dataLen, bio.size); }
    hide Sectors;
  }

  // ll_front_merge_fn
  lemma FrontExactly(q: Limits, rq: Request, bio: Bio)
    requires rq.bios != []
    ensures var m := FrontMerge(q, rq, bio);
            && (m.ok <==> Sectors(rq.dataLen) + Sectors(bio.size) <= q.maxSectors
                          && rq.nrSegs + SegsOf(q, bio) <= q.maxSegs)
            && (if m.ok then
                  && m.rq.nrSegs == rq.nrSegs + SegsOf(q, bio) && m.rq.noMerge == rq.noMerge
                  && m.rq.dataLen == rq.dataLen + bio.size && m.rq.sector == bio.sector
                  && (Whole(rq.dataLen) && Whole(bio.size) ==> InLimits(q, m.rq))
                else m.rq == rq.(noMerge := true, bios := m.rq.bios))
  {
    hide Counted;
    CountedSegs(q, bio);
    if Whole(rq.dataLen) && Whole(bio.size) { WholeSum(rq.dataLen, bio.size); }
    hide Sectors;
  }

  // Two requests meet in one segment: the pages are contiguous and on the same side
  // of every boundary, and the two segments together are not too large.
  ghost predicate Meets(q: Limits, a: Bio, b: Bio)
    requires a.vecs != [] && b.vecs != []
  {
    var v, w := a.vecs[|a.vecs| - 1], b.vecs[0];
    && q.cluster && a.segBack + b.segFront <= q.maxSegSize
    && v.phys + v.len == w.phys && q.window(v.phys) == q.window(w.phys + w.len - 1)
  }

  // ll_merge_requests_fn
  lemma MergeExactly(q: Limits, rq: Request, next: Request)
    requires rq.bios != [] && next.bios != []
    requires rq.bios[|rq.bios| - 1].vecs != [] && next.bios[0].vecs != []
    requires rq.nrSegs + next.nrSegs >= 1
    ensures var m := MergeRequests(q, rq, next);
            var meet := if Meets(q, rq.bios[|rq.bios| - 1], next.bios[0]) then 1 else 0;
            && (m.ok <==> !rq.special && !next.special && Sectors(rq.dataLen) + Sectors(next.dataLen) <= q.maxSectors
                          && rq.nrSegs + next.nrSegs - meet <= q.maxSegs)
            && (if m.ok then
                  && m.rq.nrSegs == rq.nrSegs + next.nrSegs - meet && m.rq.noMerge == rq.noMerge
                  && m.rq.dataLen == rq.dataLen + next.dataLen && m.rq.sector == rq.sector
                  && (Whole(rq.dataLen) && Whole(next.dataLen) ==> InLimits(q, m.rq))
                else
                  m.rq == rq.(bios := m.rq.bios) && m.next == next.(bios := m.next.bios))
  {
    hide Fronted, Backed;
    if Whole(rq.dataLen) && Whole(next.dataLen) { WholeSum(rq.dataLen, next.dataLen); }
    hide Sectors;
  }

  lemma MergeWithin(q: Limits, rq: Request, next: Request)
    requires rq.bios != [] && next.bios != []
    requires rq.bios[|rq.bios| - 1].vecs != [] && next.bios[0].vecs != []
    requires Whole(rq.dataLen) && Whole(next.dataLen) && InLimits(q, rq) && InLimits(q, next)
    ensures var m := MergeRequests(q, rq, next); InLimits(q, m.rq) && (!m.ok ==> InLimits(q, m.next))
  {
    hide Fronted, Backed, Contig;
    WholeSum(rq.dataLen, next.dataLen);
    hide Sectors;
  }

  // A request of one bio.
  lemma FromExactly(q: Limits, bio: Bio)
    ensures InLimits(q, FromBio(q, bio)) <==> Sectors(bio.size) <= q.maxSectors && SegsOf(q, bio) <= q.maxSegs
    ensures FromBio(q, bio).sector == bio.sector && FromBio(q, bio).dataLen == bio.size
  {
    hide Counted;
    CountedSegs(q, bio);
  }
}
