/**
 Physical segment accounting (blk-merge.c): the cheap per-request counter
 `nr_phys_segments` is never below the number of scatterlist entries that
 `blk_rq_map_sg` builds, through any history of merges and completions.
 */
module Segments {
  import opened BlockTypes

  type Parts = seq<seq<Vec>>

  // BIOVEC_PHYS_MERGEABLE and BIOVEC_SEG_BOUNDARY for two consecutive vectors.
  predicate Joinable(q: Limits, a: Vec, b: Vec) {
    a.phys + a.len == b.phys && q.window(a.phys) == q.window(b.phys + b.len - 1)
  }

  // Consecutive vectors of s are joinable.
  predicate Run(q: Limits, s: seq<Vec>) {
    |s| <= 1 || (Run(q, s[..|s| - 1]) && Joinable(q, s[|s| - 2], s[|s| - 1]))
  }

  // What one scatterlist entry may hold: one vector of any length, or a run of
  // pairwise joinable vectors within the segment size limit.
  predicate SegOk(q: Limits, s: seq<Vec>) {
    s != [] && (|s| == 1 || (q.cluster && Total(s) <= q.maxSegSize && Run(q, s)))
  }

  function Concat(p: Parts): seq<Vec> {
    if p == [] then [] else Concat(p[..|p| - 1]) + p[|p| - 1]
  }

  lemma {:induction false} ConcatAppend(a: Parts, b: Parts)
    ensures Concat(a + b) == Concat(a) + Concat(b)
  {
    if b == [] {
      assert a + b == a;
    } else {
      ConcatAppend(a, b[..|b| - 1]);
      assert (a + b)[..|a + b| - 1] == a + b[..|b| - 1];
    }
  }

  // p splits vs into legal segments.
  ghost predicate Segmentation(q: Limits, p: Parts, vs: seq<Vec>) {
    && Concat(p) == vs
    && forall s <- p :: SegOk(q, s)
  }

  // ---------------------------------------------------------------- greedy

  // May v extend the segment s?  `bounce` makes high pages start segments, as
  // the counting pass does and the mapping pass does not.
  predicate Extends(q: Limits, bounce: bool, s: seq<Vec>, v: Vec)
    requires s != []
  {
    && q.cluster
    && !(bounce && (v.high || s[|s| - 1].high))
    && Total(s) + v.len <= q.maxSegSize
    && Joinable(q, s[|s| - 1], v)
  }

  function Put(q: Limits, bounce: bool, p: Parts, v: Vec): Parts {
    if p != [] && p[|p| - 1] != [] && Extends(q, bounce, p[|p| - 1], v)
    then p[..|p| - 1] + [p[|p| - 1] + [v]]
    else p + [[v]]
  }

  // The segmentation a left-to-right pass builds.
  function Greedy(q: Limits, bounce: bool, vs: seq<Vec>): Parts {
    if vs == [] then [] else Put(q, bounce, Greedy(q, bounce, vs[..|vs| - 1]), vs[|vs| - 1])
  }

  lemma ExtendedSegOk(q: Limits, bounce: bool, s: seq<Vec>, v: Vec)
    requires SegOk(q, s) && Extends(q, bounce, s, v)
    ensures SegOk(q, s + [v])
  {
    assert (s + [v])[..|s|] == s;
  }

  lemma PutSegments(q: Limits, bounce: bool, p: Parts, vs: seq<Vec>, v: Vec)
    requires Segmentation(q, p, vs)
    ensures Segmentation(q, Put(q, bounce, p, v), vs + [v])
  {
    var k := |p| - 1;
    var r := Put(q, bounce, p, v);
    if p != [] && p[k] != [] && Extends(q, bounce, p[k], v) {
      assert r[..k] == p[..k];
      ExtendedSegOk(q, bounce, p[k], v);
    } else {
      assert r[..|p|] == p;
    }
  }

  // A left-to-right pass builds a legal segmentation.
  lemma {:induction false} GreedySegments(q: Limits, bounce: bool, vs: seq<Vec>)
    ensures Segmentation(q, Greedy(q, bounce, vs), vs)
    ensures vs != [] ==> Greedy(q, bounce, vs) != []
  {
    if vs != [] {
      var n := |vs| - 1;
      GreedySegments(q, bounce, vs[..n]);
      PutSegments(q, bounce, Greedy(q, bounce, vs[..n]), vs[..n], vs[n]);
      assert vs == vs[..n] + [vs[n]];
    }
  }

  lemma {:induction false} RunSuffix(q: Limits, s: seq<Vec>, k: nat)
    requires Run(q, s) && k < |s|
    ensures Run(q, s[k..])
  {
    var n := |s| - 1;
    if k < n {
      RunSuffix(q, s[..n], k);
      assert s[k..][..n - k] == s[..n][k..];
    }
  }

  lemma SegOkSuffix(q: Limits, s: seq<Vec>, k: nat)
    requires SegOk(q, s) && k < |s|
    ensures SegOk(q, s[k..])
  {
    if |s| > 1 {
      RunSuffix(q, s, k);
      TotalAppend(s[..k], s[k..]);
      assert s == s[..k] + s[k..];
    }
  }

  lemma ConcatSuffix(p: Parts)
    requires p != []
    ensures |p[|p| - 1]| <= |Concat(p)| && Concat(p)[|Concat(p)| - |p[|p| - 1]|..] == p[|p| - 1]
  {
  }

  // If v may close a segment after s, it may close one after any suffix of s.
  lemma ExtendsSuffix(q: Limits, s: seq<Vec>, t: seq<Vec>, v: Vec)
    requires SegOk(q, s + [v]) && t != [] && |t| <= |s| && s[|s| - |t|..] == t
    ensures Extends(q, false, t, v)
  {
    var k := |s| - |t|;
    SegOkSuffix(q, s + [v], k);
    var u := (s + [v])[k..];
    assert u == t + [v];
    assert u[..|t|] == t;
  }

  ghost predicate NoWorse(g: Parts, p: Parts) {
    |g| < |p| || (|g| == |p| && (p != [] ==> |g[|p| - 1]| <= |p[|p| - 1]|))
  }

  lemma LastIsSuffix(g: Parts, p: Parts)
    requires Concat(g) == Concat(p) && g != [] && |g| == |p| && NoWorse(g, p)
    ensures var s, t := p[|p| - 1], g[|p| - 1]; s[|s| - |t|..] == t
  {
    ConcatSuffix(g);
    ConcatSuffix(p);
  }

  lemma MinimalStep(q: Limits, vs: seq<Vec>, g: Parts, p: Parts, p': Parts)
    requires vs != [] && Segmentation(q, g, vs[..|vs| - 1]) && Segmentation(q, p', vs[..|vs| - 1])
    requires NoWorse(g, p')
    requires p != [] && SegOk(q, p[|p| - 1])
    requires |p'| == |p| ==> p[|p| - 1] == p'[|p| - 1] + [vs[|vs| - 1]]
    requires |p'| == |p| || |p'| == |p| - 1
    ensures NoWorse(Put(q, false, g, vs[|vs| - 1]), p)
  {
    var k := |p| - 1;
    if |g| == |p| {
      LastIsSuffix(g, p');
      assert SegOk(q, g[k]);
      ExtendsSuffix(q, p'[k], g[k], vs[|vs| - 1]);
    }
  }

  // The mapping pass is optimal: no legal segmentation has fewer segments, and
  // one with equally many has a last segment at least as long.
  lemma {:induction false} GreedyIsMinimal(q: Limits, vs: seq<Vec>, p: Parts)
    requires Segmentation(q, p, vs)
    ensures NoWorse(Greedy(q, false, vs), p)
    decreases |vs|
  {
    if vs != [] {
      var p' := Shortened(q, vs, p);
      GreedyIsMinimal(q, vs[..|vs| - 1], p');
      GreedySegments(q, false, vs[..|vs| - 1]);
      MinimalStep(q, vs, Greedy(q, false, vs[..|vs| - 1]), p, p');
    }
  }

  // Dropping the last vector from a segmentation.
  lemma Shortened(q: Limits, vs: seq<Vec>, p: Parts) returns (p': Parts)
    requires Segmentation(q, p, vs) && vs != []
    ensures p != [] && SegOk(q, p[|p| - 1]) && Segmentation(q, p', vs[..|vs| - 1])
    ensures |p'| == |p| ==> p[|p| - 1] == p'[|p| - 1] + [vs[|vs| - 1]]
    ensures |p'| == |p| || |p'| == |p| - 1
  {
    var k := |p| - 1;
    var s := p[k];
    assert SegOk(q, s);
    assert vs == Concat(p[..k]) + s;
    if |s| == 1 {
      p' := p[..k];
    } else {
      var s' := s[..|s| - 1];
      p' := p[..k] + [s'];
      assert p'[..k] == p[..k];
      assert SegOk(q, s');
    }
  }

  // ------------------------------------------------- cached segment counts

  ghost predicate CutBy(q: Limits, p: Parts, vs: seq<Vec>, n: nat, front: nat, back: nat) {
    Segmentation(q, p, vs) && p != [] && |p| == n && Total(p[0]) <= front && Total(p[n - 1]) <= back
  }

  // vs can be cut into exactly n legal segments, the first holding at most
  // `front` bytes and the last at most `back`.
  ghost predicate Cut(q: Limits, vs: seq<Vec>, n: nat, front: nat, back: nat) {
    exists p :: CutBy(q, p, vs, n, front, back)
  }

  // What a bio's cached counters promise once BIO_SEG_VALID is set.
  ghost predicate BioOk(q: Limits, b: Bio) {
    b.vecs != [] && (b.segValid ==> Cut(q, b.vecs, b.physSegs, b.segFront, b.segBack))
  }

  // A chain of bios that carry data.
  ghost predicate DataChain(bios: seq<Bio>) {
    bios != [] && forall b <- bios :: b.vecs != []
  }

  // The invariant of a queued request: its counter is the size of some legal
  // segmentation, whose outer segments its outer bios bound.
  ghost predicate ChainInv(q: Limits, bios: seq<Bio>, n: nat) {
    DataChain(bios) && Cut(q, Flatten(bios), n, bios[0].segFront, bios[|bios| - 1].segBack)
  }

  ghost predicate SegInv(q: Limits, rq: Request) {
    ChainInv(q, rq.bios, rq.nrSegs)
  }

  function Max(a: nat, b: nat): nat { if a < b then b else a }

  function WithFront(bios: seq<Bio>, n: nat): (r: seq<Bio>)
    requires bios != []
    ensures |r| == |bios|
  {
    bios[0 := bios[0].(segFront := n)]
  }

  function WithBack(bios: seq<Bio>, n: nat): (r: seq<Bio>)
    requires bios != []
    ensures |r| == |bios|
  {
    bios[|bios| - 1 := bios[|bios| - 1].(segBack := n)]
  }

  // The chain with its outer size caches raised to at least f and b.
  function Raised(bios: seq<Bio>, f: nat, b: nat): seq<Bio>
    requires bios != []
  {
    var r := WithFront(bios, Max(bios[0].segFront, f));
    WithBack(r, Max(r[|r| - 1].segBack, b))
  }

  // __blk_recalc_rq_segments: the count, and the chain with its outer size
  // caches raised to the sizes of the outer segments.
  function RecalcCount(q: Limits, bios: seq<Bio>): nat {
    |Greedy(q, true, Flatten(bios))|
  }

  function RecalcBios(q: Limits, bios: seq<Bio>): seq<Bio> {
    var p := Greedy(q, true, Flatten(bios));
    if bios == [] || p == [] then bios else Raised(bios, Total(p[0]), Total(p[|p| - 1]))
  }

  // blk_recount_segments
  function Recount(q: Limits, b: Bio): Bio {
    if b.vecs == [] then b.(physSegs := 0, segValid := true)
    else RecalcBios(q, [b])[0].(physSegs := RecalcCount(q, [b]), segValid := true)
  }

  function Counted(q: Limits, b: Bio): Bio {
    if b.segValid then b else Recount(q, b)
  }

  // init_request_from_bio
  function FromBio(q: Limits, bio: Bio): Request {
    var b := Counted(q, bio);
    Request(b.sector, b.size, [b], b.physSegs, b.write, b.disk, false, false, false)
  }

  // blk_phys_contig_segment
  predicate Contig(q: Limits, b: Bio, nxt: Bio)
    requires b.vecs != [] && nxt.vecs != []
  {
    && q.cluster
    && b.segBack + nxt.segFront <= q.maxSegSize
    && Joinable(q, b.vecs[|b.vecs| - 1], nxt.vecs[0])
  }

  function Sectors(bytes: nat): nat { bytes / SECTOR }

  datatype BioMerge = BioMerge(ok: bool, rq: Request, bio: Bio)
  datatype RqMerge = RqMerge(ok: bool, rq: Request, next: Request)

  // ll_back_merge_fn, and the chaining done by bio_attempt_back_merge.
  function BackMerge(q: Limits, rq: Request, bio: Bio): BioMerge
    requires rq.bios != []
  {
    var k := |rq.bios| - 1;
    if Sectors(rq.dataLen) + Sectors(bio.size) > q.maxSectors then
      BioMerge(false, rq.(noMerge := true), bio)
    else
      NewHwSegment(q, rq.(bios := rq.bios[k := Counted(q, rq.bios[k])]), Counted(q, bio), false)
  }

  // ll_front_merge_fn and bio_attempt_front_merge.
  function FrontMerge(q: Limits, rq: Request, bio: Bio): BioMerge
    requires rq.bios != []
  {
    if Sectors(rq.dataLen) + Sectors(bio.size) > q.maxSectors then
      BioMerge(false, rq.(noMerge := true), bio)
    else
      NewHwSegment(q, rq.(bios := rq.bios[0 := Counted(q, rq.bios[0])]), Counted(q, bio), true)
  }

  // ll_new_hw_segment, then linking the bio at the front or the back.
  function NewHwSegment(q: Limits, rq: Request, bio: Bio, front: bool): BioMerge {
    var segs := rq.nrSegs + bio.physSegs;
    if segs > q.maxSegs then BioMerge(false, rq.(noMerge := true), bio)
    else
      var rq' := rq.(dataLen := rq.dataLen + bio.size, nrSegs := segs);
      BioMerge(true, if front then rq'.(bios := [bio] + rq.bios, sector := bio.sector)
                     else rq'.(bios := rq.bios + [bio]), bio)
  }

  // ll_merge_requests_fn and the chaining done by attempt_merge.  The outer
  // size caches are changed before the last test, so also when it fails.
  function MergeRequests(q: Limits, rq: Request, next: Request): RqMerge
    requires rq.bios != [] && next.bios != []
    requires rq.bios[|rq.bios| - 1].vecs != [] && next.bios[0].vecs != []
  {
    var tail, head := rq.bios[|rq.bios| - 1], next.bios[0];
    var segSize := tail.segBack + head.segFront;
    if rq.special || next.special ||
       Sectors(rq.dataLen) + Sectors(next.dataLen) > q.maxSectors then
      RqMerge(false, rq, next)
    else
      var contig := Contig(q, tail, head);
      var a := if contig then Fronted(rq.bios, rq.nrSegs, segSize) else rq.bios;
      var b := if contig then Backed(next.bios, next.nrSegs, segSize) else next.bios;
      var total: int := rq.nrSegs + next.nrSegs - (if contig then 1 else 0);
      if total > q.maxSegs || total < 0 then RqMerge(false, rq.(bios := a), next.(bios := b))
      else
        RqMerge(true, rq.(bios := a + b, dataLen := rq.dataLen + next.dataLen, nrSegs := total),
                next.(bios := []))
  }

  // ------------------------------------------------------------ the bound

  // What blk_rq_map_sg's callers rely on: the counter bounds the list.
  lemma SegmentBound(q: Limits, rq: Request)
    requires SegInv(q, rq)
    ensures |Greedy(q, false, Flatten(rq.bios))| <= rq.nrSegs
  {
    var p :| CutBy(q, p, Flatten(rq.bios), rq.nrSegs, rq.bios[0].segFront,
                   rq.bios[|rq.bios| - 1].segBack);
    GreedyIsMinimal(q, Flatten(rq.bios), p);
  }

  lemma CutWeaken(q: Limits, vs: seq<Vec>, n: nat, f: nat, b: nat, f': nat, b': nat)
    requires Cut(q, vs, n, f, b) && f <= f' && b <= b'
    ensures Cut(q, vs, n, f', b')
  {
    var p :| CutBy(q, p, vs, n, f, b);
    assert CutBy(q, p, vs, n, f', b');
  }

  // Two cuts side by side.
  lemma CutAppend(q: Limits, va: seq<Vec>, na: nat, fa: nat, ba: nat,
                  vb: seq<Vec>, nb: nat, fb: nat, bb: nat)
    requires Cut(q, va, na, fa, ba) && Cut(q, vb, nb, fb, bb)
    ensures Cut(q, va + vb, na + nb, fa, bb)
  {
    var p :| CutBy(q, p, va, na, fa, ba);
    var r :| CutBy(q, r, vb, nb, fb, bb);
    ConcatAppend(p, r);
    assert CutBy(q, p + r, va + vb, na + nb, fa, bb);
  }

  lemma {:induction false} RunJoin(q: Limits, s: seq<Vec>, t: seq<Vec>)
    requires s != [] && t != [] && Run(q, s) && Run(q, t) && Joinable(q, s[|s| - 1], t[0])
    ensures Run(q, s + t)
  {
    var n := |t| - 1;
    assert (s + t)[..|s| + n] == s + t[..n];
    if n == 0 {
      assert s + t[..n] == s;
    } else {
      RunJoin(q, s, t[..n]);
    }
  }

  lemma SegJoin(q: Limits, s: seq<Vec>, t: seq<Vec>)
    requires SegOk(q, s) && SegOk(q, t) && q.cluster && Joinable(q, s[|s| - 1], t[0])
    requires Total(s) + Total(t) <= q.maxSegSize
    ensures SegOk(q, s + t) && Total(s + t) == Total(s) + Total(t)
  {
    RunJoin(q, s, t);
    TotalAppend(s, t);
  }

  // Concat can be peeled from the front as well.
  lemma ConcatHead(p: Parts)
    requires p != []
    ensures Concat(p) == p[0] + Concat(p[1..])
  {
    assert p == [p[0]] + p[1..];
    ConcatAppend([p[0]], p[1..]);
    assert [p[0]][..0] == [];
    assert Concat([p[0]]) == p[0];
  }

  // The parts of a and b with a's last and b's first segment made one.
  function Glue(a: Parts, b: Parts): Parts
    requires a != [] && b != []
  {
    a[..|a| - 1] + ([a[|a| - 1] + b[0]] + b[1..])
  }

  lemma Regroup(a: seq<Vec>, x: seq<Vec>, y: seq<Vec>, b: seq<Vec>)
    ensures a + ((x + y) + b) == (a + x) + (y + b)
  {
  }

  lemma GlueConcat(a: Parts, b: Parts)
    requires a != [] && b != []
    ensures Concat(Glue(a, b)) == Concat(a) + Concat(b)
  {
    var k := |a| - 1;
    var mid := [a[k] + b[0]] + b[1..];
    ConcatAppend(a[..k], mid);
    ConcatHead(mid);
    assert mid[1..] == b[1..];
    ConcatHead(b);
    Regroup(Concat(a[..k]), a[k], b[0], Concat(b[1..]));
  }

  lemma GlueSegments(q: Limits, a: Parts, va: seq<Vec>, b: Parts, vb: seq<Vec>)
    requires a != [] && b != [] && Segmentation(q, a, va) && Segmentation(q, b, vb)
    requires SegOk(q, a[|a| - 1] + b[0])
    ensures Segmentation(q, Glue(a, b), va + vb)
  {
    GlueConcat(a, b);
  }

  lemma EndsMeet(q: Limits, a: Parts, b: Parts)
    requires a != [] && b != [] && a[|a| - 1] != [] && b[0] != []
    ensures Concat(a) != [] && Concat(b) != []
    ensures Concat(a)[|Concat(a)| - 1] == a[|a| - 1][|a[|a| - 1]| - 1]
    ensures Concat(b)[0] == b[0][0]
  {
    ConcatSuffix(a);
    ConcatHead(b);
  }

  // Two cuts whose meeting segments become one.
  lemma CutJoin(q: Limits, va: seq<Vec>, na: nat, fa: nat, ba: nat,
                vb: seq<Vec>, nb: nat, fb: nat, bb: nat)
    requires Cut(q, va, na, fa, ba) && Cut(q, vb, nb, fb, bb)
    requires q.cluster && ba + fb <= q.maxSegSize
    requires va != [] && vb != [] && Joinable(q, va[|va| - 1], vb[0])
    ensures na + nb >= 2
    ensures Cut(q, va + vb, na + nb - 1,
                if na == 1 then ba + fb else fa, if nb == 1 then ba + fb else bb)
  {
    var a :| CutBy(q, a, va, na, fa, ba);
    var b :| CutBy(q, b, vb, nb, fb, bb);
    assert SegOk(q, a[na - 1]) && SegOk(q, b[0]);
    EndsMeet(q, a, b);
    SegJoin(q, a[na - 1], b[0]);
    GlueSegments(q, a, va, b, vb);
    assert CutBy(q, Glue(a, b), va + vb, na + nb - 1,
                 if na == 1 then ba + fb else fa, if nb == 1 then ba + fb else bb);
  }

  lemma RaisedShape(bios: seq<Bio>, f: nat, b: nat)
    requires bios != []
    ensures var r := Raised(bios, f, b);
            && |r| == |bios| && f <= r[0].segFront && b <= r[|r| - 1].segBack
            && bios[0].segFront <= r[0].segFront && bios[|r| - 1].segBack <= r[|r| - 1].segBack
            && forall i :: 0 <= i < |r| ==>
                 r[i] == bios[i].(segFront := r[i].segFront, segBack := r[i].segBack)
  {
  }

  lemma RaisedData(bios: seq<Bio>, r: seq<Bio>)
    requires DataChain(bios) && |r| == |bios|
    requires forall i :: 0 <= i < |r| ==>
               r[i] == bios[i].(segFront := r[i].segFront, segBack := r[i].segBack)
    ensures DataChain(r) && Flatten(r) == Flatten(bios)
  {
    SameVecs(r, bios);
  }

  lemma CutIntro(q: Limits, p: Parts, vs: seq<Vec>, n: nat, f: nat, b: nat)
    requires CutBy(q, p, vs, n, f, b)
    ensures Cut(q, vs, n, f, b)
  {
  }

  // Counting a chain afresh establishes the invariant.
  lemma RecalcEstablishes(q: Limits, bios: seq<Bio>)
    requires DataChain(bios)
    ensures ChainInv(q, RecalcBios(q, bios), RecalcCount(q, bios))
  {
    var vs := Flatten(bios);
    var p := Greedy(q, true, vs);
    FlattenNonempty(bios);
    GreedySegments(q, true, vs);
    var f, b := Total(p[0]), Total(p[|p| - 1]);
    var r := Raised(bios, f, b);
    RaisedShape(bios, f, b);
    RaisedData(bios, r);
    CutIntro(q, p, vs, |p|, r[0].segFront, r[|r| - 1].segBack);
  }

  lemma FlattenNonempty(bios: seq<Bio>)
    requires DataChain(bios)
    ensures Flatten(bios) != []
  {
  }

  lemma {:induction false} SameVecs(a: seq<Bio>, b: seq<Bio>)
    requires |a| == |b| && forall i :: 0 <= i < |a| ==> a[i].vecs == b[i].vecs
    ensures Flatten(a) == Flatten(b)
  {
    if a != [] {
      SameVecs(a[..|a| - 1], b[..|a| - 1]);
    }
  }

  lemma CountedOk(q: Limits, b: Bio)
    requires BioOk(q, b)
    ensures var c := Counted(q, b);
            && BioOk(q, c) && c.segValid
            && c == b.(segValid := true, physSegs := c.physSegs, segFront := c.segFront, segBack := c.segBack)
            && b.segFront <= c.segFront && b.segBack <= c.segBack
  {
    if !b.segValid {
      var p := Greedy(q, true, b.vecs);
      assert Flatten([b][..0]) == [];
      assert Flatten([b]) == b.vecs;
      GreedySegments(q, true, b.vecs);
      var c := Recount(q, b);
      assert CutBy(q, p, c.vecs, c.physSegs, c.segFront, c.segBack);
    }
  }

  // Recounting one bio of a chain only raises its size caches.
  lemma RecountInChain(q: Limits, bios: seq<Bio>, n: nat, i: nat)
    requires ChainInv(q, bios, n) && i < |bios|
    ensures ChainInv(q, bios[i := Counted(q, bios[i])], n)
  {
    var b := bios[i];
    if !b.segValid {
      CountedOk(q, b);
      var r := bios[i := Counted(q, b)];
      SameVecs(bios, r);
      CutWeaken(q, Flatten(r), n, bios[0].segFront, bios[|r| - 1].segBack, r[0].segFront, r[|r| - 1].segBack);
    } else {
      assert bios[i := b] == bios;
    }
  }

  lemma FlattenOne(b: Bio)
    ensures Flatten([b]) == b.vecs
  {
    assert [b][..0] == [];
  }

  lemma OneBioChain(q: Limits, b: Bio)
    requires BioOk(q, b) && b.segValid
    ensures ChainInv(q, [b], b.physSegs)
  {
    FlattenOne(b);
  }

  lemma ChainAppend(q: Limits, a: seq<Bio>, na: nat, b: seq<Bio>, nb: nat)
    requires ChainInv(q, a, na) && ChainInv(q, b, nb)
    ensures ChainInv(q, a + b, na + nb)
  {
    FlattenAppend(a, b);
    CutAppend(q, Flatten(a), na, a[0].segFront, a[|a| - 1].segBack,
              Flatten(b), nb, b[0].segFront, b[|b| - 1].segBack);
  }

  lemma CountedChains(q: Limits, rq: Request, i: nat, bio: Bio)
    requires SegInv(q, rq) && i < |rq.bios| && BioOk(q, bio)
    ensures ChainInv(q, rq.bios[i := Counted(q, rq.bios[i])], rq.nrSegs)
    ensures ChainInv(q, [Counted(q, bio)], Counted(q, bio).physSegs) && BioOk(q, Counted(q, bio))
  {
    RecountInChain(q, rq.bios, rq.nrSegs, i);
    CountedOk(q, bio);
    OneBioChain(q, Counted(q, bio));
  }

  lemma NewHwSegmentKeeps(q: Limits, rq: Request, bio: Bio, front: bool)
    requires SegInv(q, rq) && ChainInv(q, [bio], bio.physSegs)
    ensures SegInv(q, NewHwSegment(q, rq, bio, front).rq)
  {
    hide ChainInv;
    if front {
      ChainAppend(q, [bio], bio.physSegs, rq.bios, rq.nrSegs);
    } else {
      ChainAppend(q, rq.bios, rq.nrSegs, [bio], bio.physSegs);
    }
  }

  // ll_back_merge_fn keeps the invariant whether or not it merges.
  lemma BackMergeKeeps(q: Limits, rq: Request, bio: Bio)
    requires SegInv(q, rq) && BioOk(q, bio)
    ensures SegInv(q, BackMerge(q, rq, bio).rq) && BioOk(q, BackMerge(q, rq, bio).bio)
  {
    var k := |rq.bios| - 1;
    CountedChains(q, rq, k, bio);
    hide ChainInv, Counted, Cut;
    NewHwSegmentKeeps(q, rq.(bios := rq.bios[k := Counted(q, rq.bios[k])]), Counted(q, bio), false);
  }

  lemma FrontMergeKeeps(q: Limits, rq: Request, bio: Bio)
    requires SegInv(q, rq) && BioOk(q, bio)
    ensures SegInv(q, FrontMerge(q, rq, bio).rq) && BioOk(q, FrontMerge(q, rq, bio).bio)
  {
    CountedChains(q, rq, 0, bio);
    hide ChainInv, Counted, Cut;
    NewHwSegmentKeeps(q, rq.(bios := rq.bios[0 := Counted(q, rq.bios[0])]), Counted(q, bio), true);
  }

  lemma ChainEnds(bios: seq<Bio>)
    requires DataChain(bios)
    ensures bios != [] && bios[|bios| - 1].vecs != [] && bios[0].vecs != []
  {
  }

  lemma FlattenEnds(bios: seq<Bio>)
    requires bios != [] && bios[0].vecs != [] && bios[|bios| - 1].vecs != []
    ensures Flatten(bios) != [] && Flatten(bios)[0] == bios[0].vecs[0]
    ensures var v := bios[|bios| - 1].vecs; Flatten(bios)[|Flatten(bios)| - 1] == v[|v| - 1]
  {
    assert bios == [bios[0]] + bios[1..];
    FlattenAppend([bios[0]], bios[1..]);
    FlattenOne(bios[0]);
  }

  lemma OneSegment(q: Limits, vs: seq<Vec>, f: nat, b: nat)
    requires Cut(q, vs, 1, f, b)
    ensures Cut(q, vs, 1, b, b) && Cut(q, vs, 1, f, f)
  {
    var p :| CutBy(q, p, vs, 1, f, b);
    assert CutBy(q, p, vs, 1, b, b) && CutBy(q, p, vs, 1, f, f);
  }

  // A chain counted as one segment may take any front or back size that is at
  // least what bounds that segment from the other side.
  lemma WithFrontKeeps(q: Limits, bios: seq<Bio>, n: nat)
    requires ChainInv(q, bios, 1) && n >= bios[|bios| - 1].segBack
    ensures ChainInv(q, WithFront(bios, n), 1)
  {
    var a, b := WithFront(bios, n), bios[|bios| - 1].segBack;
    RaisedData(bios, a);
    OneSegment(q, Flatten(a), bios[0].segFront, b);
    CutWeaken(q, Flatten(a), 1, b, b, n, a[|a| - 1].segBack);
  }

  lemma WithBackKeeps(q: Limits, bios: seq<Bio>, n: nat)
    requires ChainInv(q, bios, 1) && n >= bios[0].segFront
    ensures ChainInv(q, WithBack(bios, n), 1)
  {
    var a, f := WithBack(bios, n), bios[0].segFront;
    RaisedData(bios, a);
    OneSegment(q, Flatten(a), f, bios[|bios| - 1].segBack);
    CutWeaken(q, Flatten(a), 1, f, f, a[0].segFront, n);
  }

  lemma DataAppend(a: seq<Bio>, b: seq<Bio>)
    requires DataChain(a) && DataChain(b)
    ensures DataChain(a + b)
  {
  }

  lemma JoinedCut(q: Limits, a: seq<Bio>, na: nat, b: seq<Bio>, nb: nat)
    requires ChainInv(q, a, na) && ChainInv(q, b, nb)
    requires a[|a| - 1].vecs != [] && b[0].vecs != [] && Contig(q, a[|a| - 1], b[0])
    ensures na + nb >= 1
    ensures var n := a[|a| - 1].segBack + b[0].segFront;
            Cut(q, Flatten(a) + Flatten(b), na + nb - 1, if na == 1 then n else a[0].segFront,
                if nb == 1 then n else b[|b| - 1].segBack)
  {
    hide Cut, Flatten, DataChain, Joinable;
    ChainEnds(a);
    ChainEnds(b);
    FlattenEnds(a);
    FlattenEnds(b);
    CutJoin(q, Flatten(a), na, a[0].segFront, a[|a| - 1].segBack,
            Flatten(b), nb, b[0].segFront, b[|b| - 1].segBack);
  }

  function Fronted(bios: seq<Bio>, segs: nat, n: nat): seq<Bio>
    requires bios != []
  {
    if segs == 1 then WithFront(bios, n) else bios
  }

  function Backed(bios: seq<Bio>, segs: nat, n: nat): seq<Bio>
    requires bios != []
  {
    if segs == 1 then WithBack(bios, n) else bios
  }

  lemma JoinedKeeps(q: Limits, a: seq<Bio>, na: nat, b: seq<Bio>, nb: nat)
    requires ChainInv(q, a, na) && ChainInv(q, b, nb)
    requires a[|a| - 1].vecs != [] && b[0].vecs != [] && Contig(q, a[|a| - 1], b[0])
    ensures na + nb >= 1
    ensures var n := a[|a| - 1].segBack + b[0].segFront;
            ChainInv(q, Fronted(a, na, n) + Backed(b, nb, n), na + nb - 1)
  {
    var n := a[|a| - 1].segBack + b[0].segFront;
    var a', b' := Fronted(a, na, n), Backed(b, nb, n);
    JoinedCut(q, a, na, b, nb);
    RaisedData(a, a');
    RaisedData(b, b');
    FlattenAppend(a', b');
    DataAppend(a', b');
  }

  // A successful ll_merge_requests_fn keeps the invariant.
  lemma NotEmpty(q: Limits, bios: seq<Bio>, n: nat)
    requires ChainInv(q, bios, n)
    ensures bios != []
  {
  }

  lemma MergedRequestKeeps(q: Limits, rq: Request, next: Request)
    requires SegInv(q, rq) && SegInv(q, next)
    requires rq.bios[|rq.bios| - 1].vecs != [] && next.bios[0].vecs != []
    requires MergeRequests(q, rq, next).ok
    ensures SegInv(q, MergeRequests(q, rq, next).rq)
  {
    hide ChainInv, Contig;
    var a, b := rq.bios, next.bios;
    NotEmpty(q, a, rq.nrSegs);
    NotEmpty(q, b, next.nrSegs);
    if Contig(q, a[|a| - 1], b[0]) {
      JoinedKeeps(q, a, rq.nrSegs, b, next.nrSegs);
    } else {
      ChainAppend(q, a, rq.nrSegs, b, next.nrSegs);
    }
  }

  // So does a refused one for both requests, even though it may already have
  // rewritten their outer size caches.
  lemma RefusedMergeKeeps(q: Limits, rq: Request, next: Request)
    requires SegInv(q, rq) && SegInv(q, next)
    requires rq.bios[|rq.bios| - 1].vecs != [] && next.bios[0].vecs != []
    requires !MergeRequests(q, rq, next).ok
    ensures var m := MergeRequests(q, rq, next); SegInv(q, m.rq) && SegInv(q, m.next)
  {
    var a, b := rq.bios, next.bios;
    var n := a[|a| - 1].segBack + b[0].segFront;
    if rq.nrSegs == 1 { WithFrontKeeps(q, a, n); }
    if next.nrSegs == 1 { WithBackKeeps(q, b, n); }
  }

  // --------------------------------------------------- the two passes, run

  lemma GreedyNext(q: Limits, bounce: bool, vs: seq<Vec>, v: Vec)
    ensures Greedy(q, bounce, vs + [v]) == Put(q, bounce, Greedy(q, bounce, vs), v)
  {
    assert (vs + [v])[..|vs|] == vs;
  }

  lemma FlattenNext(bios: seq<Bio>, i: nat)
    requires i < |bios|
    ensures Flatten(bios[..i + 1]) == Flatten(bios[..i]) + bios[i].vecs
  {
    assert bios[..i + 1][..i] == bios[..i];
  }

  // A scatterlist entry, and the mapping pass's locals: the list built so far
  // and bvprv.
  datatype Sg = Sg(phys: nat, len: nat)
  datatype Mapping = Mapping(sg: seq<Sg>, prev: Vec)

  // sg describes exactly the segments of p, in order.
  ghost predicate Describes(sg: seq<Sg>, p: Parts) {
    && |sg| == |p|
    && forall i :: 0 <= i < |p| ==> p[i] != [] && sg[i] == Sg(p[i][0].phys, Total(p[i]))
  }

  ghost predicate Maps(m: Mapping, p: Parts) {
    Describes(m.sg, p) && (p != [] ==> var s := p[|p| - 1]; s != [] && m.prev == s[|s| - 1])
  }

  // The mapping pass's step for one vector.
  function MapVec(q: Limits, m: Mapping, v: Vec): Mapping {
    var k := |m.sg| - 1;
    if m.sg != [] && q.cluster && m.sg[k].len + v.len <= q.maxSegSize && Joinable(q, m.prev, v)
    then Mapping(m.sg[k := Sg(m.sg[k].phys, m.sg[k].len + v.len)], v)
    else Mapping(m.sg + [Sg(v.phys, v.len)], v)
  }

  function MapVecs(q: Limits, m: Mapping, vs: seq<Vec>): Mapping {
    if vs == [] then m else MapVec(q, MapVecs(q, m, vs[..|vs| - 1]), vs[|vs| - 1])
  }

  lemma MapVecPut(q: Limits, m: Mapping, p: Parts, v: Vec)
    requires Maps(m, p)
    ensures Maps(MapVec(q, m, v), Put(q, false, p, v))
  {
    assert [v][..0] == [];
    if p != [] {
      var s := p[|p| - 1];
      assert (s + [v])[..|s|] == s;
    }
  }

  lemma {:induction false} MapVecsGreedy(q: Limits, m: Mapping, done: seq<Vec>, vs: seq<Vec>)
    requires Maps(m, Greedy(q, false, done))
    ensures Maps(MapVecs(q, m, vs), Greedy(q, false, done + vs))
  {
    if vs == [] {
      assert done + vs == done;
    } else {
      var n := |vs| - 1;
      MapVecsGreedy(q, m, done, vs[..n]);
      MapVecPut(q, MapVecs(q, m, vs[..n]), Greedy(q, false, done + vs[..n]), vs[n]);
      GreedyNext(q, false, done + vs[..n], vs[n]);
      assert done + vs == done + vs[..n] + [vs[n]];
    }
  }

  // The mapping pass over one bio.
  method MapBio(q: Limits, vecs: seq<Vec>, m0: Mapping) returns (m: Mapping)
    ensures m == MapVecs(q, m0, vecs)
  {
    m := m0;
    for j := 0 to |vecs|
      invariant m == MapVecs(q, m0, vecs[..j])
    {
      assert vecs[..j + 1][..j] == vecs[..j];
      var v, k := vecs[j], |m.sg| - 1;
      if m.sg != [] && q.cluster && m.sg[k].len + v.len <= q.maxSegSize && Joinable(q, m.prev, v) {
        m := m.(sg := m.sg[k := Sg(m.sg[k].phys, m.sg[k].len + v.len)]);
      } else {
        m := m.(sg := m.sg + [Sg(v.phys, v.len)]);
      }
      m := m.(prev := v);
    }
    assert vecs[..|vecs|] == vecs;
  }

  // blk_rq_map_sg, without padding and drain.
  method MapSg(q: Limits, bios: seq<Bio>) returns (sg: seq<Sg>)
    ensures Describes(sg, Greedy(q, false, Flatten(bios)))
  {
    var m := Mapping([], Vec(0, 0, false));
    for i := 0 to |bios|
      invariant Maps(m, Greedy(q, false, Flatten(bios[..i])))
    {
      MapVecsGreedy(q, m, Flatten(bios[..i]), bios[i].vecs);
      FlattenNext(bios, i);
      m := MapBio(q, bios[i].vecs, m);
    }
    assert bios[..|bios|] == bios;
    sg := m.sg;
  }

  // The counting pass's locals: the count, the size of the open segment, the
  // front size seen so far, highprv and bvprv.
  datatype Pass = Pass(n: nat, segSize: nat, front: nat, highPrv: bool, prev: Vec)

  ghost predicate Tallies(p: Parts, front0: nat, c: Pass) {
    && c.n == |p|
    && c.front == (if |p| <= 1 then front0 else Max(front0, Total(p[0])))
    && (p == [] ==> c.segSize == 0 && c.highPrv)
    && (p != [] ==>
          var s := p[|p| - 1];
          s != [] && c.segSize == Total(s) && c.prev == s[|s| - 1] && c.highPrv == c.prev.high)
  }

  // The counting pass's step for one vector.
  function Tally(q: Limits, c: Pass, v: Vec): Pass {
    if !v.high && !c.highPrv && q.cluster && c.segSize + v.len <= q.maxSegSize && Joinable(q, c.prev, v)
    then c.(segSize := c.segSize + v.len, prev := v)
    else Pass(c.n + 1, v.len, if c.n == 1 then Max(c.front, c.segSize) else c.front, v.high, v)
  }

  function TallyVecs(q: Limits, c: Pass, vs: seq<Vec>): Pass {
    if vs == [] then c else Tally(q, TallyVecs(q, c, vs[..|vs| - 1]), vs[|vs| - 1])
  }

  lemma TallyPut(q: Limits, p: Parts, front0: nat, c: Pass, v: Vec)
    requires Tallies(p, front0, c)
    ensures Tallies(Put(q, true, p, v), front0, Tally(q, c, v))
  {
    assert [v][..0] == [];
    if p != [] {
      var s := p[|p| - 1];
      assert (s + [v])[..|s|] == s;
    }
  }

  lemma {:induction false} TallyVecsGreedy(q: Limits, front0: nat, c: Pass, done: seq<Vec>, vs: seq<Vec>)
    requires Tallies(Greedy(q, true, done), front0, c)
    ensures Tallies(Greedy(q, true, done + vs), front0, TallyVecs(q, c, vs))
  {
    if vs == [] {
      assert done + vs == done;
    } else {
      var n := |vs| - 1;
      TallyVecsGreedy(q, front0, c, done, vs[..n]);
      TallyPut(q, Greedy(q, true, done + vs[..n]), front0, TallyVecs(q, c, vs[..n]), vs[n]);
      GreedyNext(q, true, done + vs[..n], vs[n]);
      assert done + vs == done + vs[..n] + [vs[n]];
    }
  }

  // The counting pass over one bio.
  method CountBio(q: Limits, vecs: seq<Vec>, c0: Pass) returns (c: Pass)
    ensures c == TallyVecs(q, c0, vecs)
  {
    c := c0;
    for j := 0 to |vecs|
      invariant c == TallyVecs(q, c0, vecs[..j])
    {
      assert vecs[..j + 1][..j] == vecs[..j];
      var v := vecs[j];
      if !v.high && !c.highPrv && q.cluster && c.segSize + v.len <= q.maxSegSize && Joinable(q, c.prev, v) {
        c := c.(segSize := c.segSize + v.len, prev := v);
      } else {
        if c.n == 1 && c.segSize > c.front { c := c.(front := c.segSize); }
        c := Pass(c.n + 1, v.len, c.front, v.high, v);
      }
    }
    assert vecs[..|vecs|] == vecs;
  }

  lemma TallyEnds(p: Parts, front0: nat, c: Pass)
    requires Tallies(p, front0, c) && p != []
    ensures (if c.n == 1 then Max(c.front, c.segSize) else c.front) == Max(front0, Total(p[0]))
    ensures c.segSize == Total(p[|p| - 1])
  {
  }

  lemma RaisedAgain(bios: seq<Bio>, f: nat, b: nat)
    requires bios != []
    ensures Raised(bios, Max(bios[0].segFront, f), b) == Raised(bios, f, b)
  {
  }

  lemma CountingDone(q: Limits, bios: seq<Bio>, c: Pass)
    requires DataChain(bios) && Tallies(Greedy(q, true, Flatten(bios)), bios[0].segFront, c)
    ensures c.n == RecalcCount(q, bios) && RaiseEnds(bios, c) == RecalcBios(q, bios)
  {
    var p := Greedy(q, true, Flatten(bios));
    FlattenNonempty(bios);
    assert p != [] by { GreedySegments(q, true, Flatten(bios)); }
    hide Greedy, Total, Raised;
    TallyEnds(p, bios[0].segFront, c);
    RaisedAgain(bios, Total(p[0]), Total(p[|p| - 1]));
  }

  // __blk_recalc_rq_segments
  method RecalcRqSegments(q: Limits, bios: seq<Bio>) returns (out: seq<Bio>, n: nat)
    requires forall b <- bios :: b.vecs != []
    ensures n == RecalcCount(q, bios) && out == RecalcBios(q, bios)
  {
    if bios == [] { return bios, 0; }
    var c := Pass(0, 0, bios[0].segFront, true, bios[0].vecs[0]);
    for i := 0 to |bios|
      invariant Tallies(Greedy(q, true, Flatten(bios[..i])), bios[0].segFront, c)
    {
      TallyVecsGreedy(q, bios[0].segFront, c, Flatten(bios[..i]), bios[i].vecs);
      FlattenNext(bios, i);
      c := CountBio(q, bios[i].vecs, c);
    }
    assert bios[..|bios|] == bios;
    CountingDone(q, bios, c);
    out, n := RaiseEnds(bios, c), c.n;
  }

  // The pass's last lines: the outer size caches only ever grow.
  function RaiseEnds(bios: seq<Bio>, c: Pass): seq<Bio>
    requires bios != []
  {
    Raised(bios, if c.n == 1 then Max(c.front, c.segSize) else c.front, c.segSize)
  }
}
