/**
 Which bytes, bios and sectors a partial completion leaves (blk-core.c): the
 physical address of every byte still to be transferred, the bios ended and how,
 and where the rest starts.
 */
module CompletionExact {
  import opened BlockTypes
  import opened Segments
  import opened Completion

  // ------------------------------------------------------------- the bytes

  // The address of a byte, and whether its page is above the bounce limit.
  datatype Place = Place(addr: nat, high: bool)

  function Span(v: Vec): seq<Place> { seq(v.len, i requires 0 <= i < v.len => Place(v.phys + i, v.high)) }

  // Every byte of a list of vectors, in order.
  function Places(vs: seq<Vec>): seq<Place> {
    if vs == [] then [] else Span(vs[0]) + Places(vs[1..])
  }

  lemma {:induction false} PlacesLength(vs: seq<Vec>)
    ensures |Places(vs)| == Total(vs)
  {
    if vs != [] {
      TotalHead(vs);
      PlacesLength(vs[1..]);
    }
  }

  lemma SpanDrop(v: Vec, n: nat)
    requires n < v.len
    ensures |Span(v)| == v.len && Span(v.(phys := v.phys + n, len := v.len - n)) == Span(v)[n..]
  {
  }

  lemma DropIn(a: seq<Place>, b: seq<Place>, n: nat)
    requires n <= |a| + |b|
    ensures (a + b)[n..] == if n <= |a| then a[n..] + b else b[n - |a|..]
  {
  }

  // Dropping n bytes leaves exactly the others, where they were.
  lemma {:induction false} DropPlaces(vs: seq<Vec>, n: nat)
    requires n <= Total(vs)
    ensures n <= |Places(vs)| && Places(DropBytes(vs, n)) == Places(vs)[n..]
  {
    PlacesLength(vs);
    if vs != [] {
      var v := vs[0];
      TotalHead(vs);
      PlacesLength(vs[1..]);
      assert |Span(v)| == v.len;
      DropIn(Span(v), Places(vs[1..]), n);
      if n >= v.len {
        DropPlaces(vs[1..], n - v.len);
        hide Span, Total;
      } else {
        SpanDrop(v, n);
        hide Span, Total;
        assert DropBytes(vs, n)[1..] == vs[1..];
      }
    }
  }

  // ... and the same of a chain.
  function ChainPlaces(bios: seq<Bio>): seq<Place> {
    if bios == [] then [] else Places(bios[0].vecs) + ChainPlaces(bios[1..])
  }

  lemma {:induction false} ChainLength(bios: seq<Bio>)
    requires Live(bios)
    ensures |ChainPlaces(bios)| == Bytes(bios)
  {
    if bios != [] {
      assert DataBio(bios[0]);
      PlacesLength(bios[0].vecs);
      ChainLength(bios[1..]);
    }
  }

  lemma {:induction false} ConsumePlaces(flushSeq: bool, bios: seq<Bio>, n: nat, error: int)
    requires Live(bios) && n <= Bytes(bios)
    ensures n <= |ChainPlaces(bios)|
    ensures ChainPlaces(Consume(flushSeq, bios, n, error).bios) == ChainPlaces(bios)[n..]
  {
    ChainLength(bios);
    if bios != [] {
      var b := bios[0];
      assert DataBio(b);
      PlacesLength(b.vecs);
      ChainLength(bios[1..]);
      if n > b.size {
        ConsumePlaces(flushSeq, bios[1..], n - b.size, error);
        assert ChainPlaces(bios)[n..] == ChainPlaces(bios[1..])[n - b.size..];
      } else if n == b.size {
        assert ChainPlaces(bios)[n..] == ChainPlaces(bios[1..]);
      } else if n > 0 {
        DropPlaces(b.vecs, n);
        var r := [Advance(b, n, error)] + bios[1..];
        assert r[1..] == bios[1..];
        assert ChainPlaces(bios)[n..] == Places(b.vecs)[n..] + ChainPlaces(bios[1..]);
      }
    }
  }

  lemma {:induction false} SamePlaces(a: seq<Bio>, b: seq<Bio>)
    requires SameData(a, b)
    ensures ChainPlaces(a) == ChainPlaces(b)
  {
    if a != [] { SamePlaces(a[1..], b[1..]); }
  }

  // blk_update_request leaves exactly the bytes after the first n, in order and
  // where they were.
  lemma UpdatePlaces(q: Limits, rq: Request, error: int, n: nat)
    requires LiveRq(rq) && n <= rq.dataLen
    ensures n <= |ChainPlaces(rq.bios)|
    ensures ChainPlaces(Update(q, rq, error, n).rq.bios) == ChainPlaces(rq.bios)[n..]
  {
    ConsumePlaces(rq.flushSeq, rq.bios, n, error);
    if rq.bios != [] {
      var c := Consume(rq.flushSeq, rq.bios, n, error);
      if c.bios != [] {
        RecalcLike(q, c.bios);
        LikeData(RecalcBios(q, c.bios), c.bios);
        SamePlaces(RecalcBios(q, c.bios), c.bios);
      }
    }
  }

  lemma LikeData(a: seq<Bio>, b: seq<Bio>)
    requires Like(a, b)
    ensures SameData(a, b)
  {
    forall i | 0 <= i < |a| ensures a[i].vecs == b[i].vecs && a[i].size == b[i].size { assert LikeBio(a[i], b[i]); }
  }

  // -------------------------------------------------------- bios and sectors

  // How many bios n bytes finish.
  function Finished(bios: seq<Bio>, n: nat): (k: nat)
    ensures k <= |bios|
  {
    if bios == [] || n < bios[0].size then 0 else 1 + Finished(bios[1..], n - bios[0].size)
  }

  lemma {:induction false} FinishedIs(bios: seq<Bio>, n: nat)
    ensures var k := Finished(bios, n);
            Bytes(bios[..k]) <= n && (k < |bios| ==> n < Bytes(bios[..k + 1]))
            && (k < |bios| ==> Bytes(bios[..k + 1]) == Bytes(bios[..k]) + bios[k].size)
  {
    if bios != [] {
      var k := Finished(bios, n);
      if n < bios[0].size {
        assert bios[..1][1..] == [];
      } else {
        FinishedIs(bios[1..], n - bios[0].size);
        assert bios[..k][1..] == bios[1..][..k - 1];
        if k < |bios| { assert bios[..k + 1][1..] == bios[1..][..k]; }
      }
    }
  }

  // How a bio is ended.
  function EndingOf(b: Bio, error: int): Ending {
    Ending(b.id, if error != 0 then error else if b.uptodate then 0 else -EIO)
  }

  // The bio that completion stops in, p of its bytes done.
  ghost predicate Trimmed(b: Bio, a: Bio, p: nat, error: int) {
    && a.size == b.size - p && a.sector == b.sector + p / SECTOR
    && a.uptodate == (b.uptodate && (error == 0 || p == 0))
    && a == b.(size := a.size, sector := a.sector, uptodate := a.uptodate, vecs := a.vecs)
  }

  // The bios wholly covered by n are ended, in order and each with the error or
  // the failure recorded in it, unless the request is in a flush sequence; the next
  // one is trimmed and the others are left alone.
  ghost predicate Ends(flushSeq: bool, bios: seq<Bio>, n: nat, error: int, r: Consumed) {
    var k := Finished(bios, n);
    && |r.bios| == |bios| - k
    && (k < |bios| ==> n >= Bytes(bios[..k]) && Trimmed(bios[k], r.bios[0], n - Bytes(bios[..k]), error))
    && (forall i :: 1 <= i < |r.bios| ==> r.bios[i] == bios[k + i])
    && |r.ended| == (if flushSeq then 0 else k)
    && forall i :: 0 <= i < |r.ended| ==> r.ended[i] == EndingOf(bios[i], error)
  }

  lemma {:induction false} ConsumeEnds(flushSeq: bool, bios: seq<Bio>, n: nat, error: int)
    requires Live(bios)
    ensures Ends(flushSeq, bios, n, error, Consume(flushSeq, bios, n, error))
  {
    if bios != [] {
      var b := bios[0];
      assert DataBio(b);
      DataBioSize(b);
      FinishedIs(bios, n);
      if n > b.size {
        ConsumeEnds(flushSeq, bios[1..], n - b.size, error);
        PastHead(flushSeq, bios, n, error);
      } else if n == b.size {
        NoneFinished(bios[1..]);
        assert bios[..1][1..] == [];
      } else {
        assert bios[..0] == [];
      }
    }
  }

  lemma NoneFinished(bios: seq<Bio>)
    requires Live(bios)
    ensures Finished(bios, 0) == 0
  {
    if bios != [] {
      assert DataBio(bios[0]);
      DataBioSize(bios[0]);
    }
  }

  lemma PastHead(flushSeq: bool, bios: seq<Bio>, n: nat, error: int)
    requires bios != [] && n > bios[0].size
    requires Ends(flushSeq, bios[1..], n - bios[0].size, error, Consume(flushSeq, bios[1..], n - bios[0].size, error))
    ensures Ends(flushSeq, bios, n, error, Consume(flushSeq, bios, n, error))
  {
    hide Ends, Endings;
    HeadEnding(flushSeq, bios[0], error);
    HeadEnds(flushSeq, bios, n, error, Consume(flushSeq, bios[1..], n - bios[0].size, error));
  }

  lemma HeadEnds(flushSeq: bool, bios: seq<Bio>, n: nat, error: int, c: Consumed)
    requires bios != [] && n > bios[0].size && Ends(flushSeq, bios[1..], n - bios[0].size, error, c)
    ensures var e := if flushSeq then [] else [EndingOf(bios[0], error)];
            Ends(flushSeq, bios, n, error, Consumed(c.bios, e + c.ended))
  {
    hide Trimmed, EndingOf, Finished, Bytes;
    var k := Finished(bios[1..], n - bios[0].size);
    HeadFinished(bios, n);
    var e := if flushSeq then [] else [EndingOf(bios[0], error)];
    forall i | 1 <= i < |c.bios| ensures c.bios[i] == bios[k + 1 + i] {}
    forall i | 0 <= i < |e + c.ended| ensures (e + c.ended)[i] == EndingOf(bios[i], error) {
      if i > 0 { assert (e + c.ended)[i] == c.ended[i - 1]; }
    }
  }

  lemma HeadFinished(bios: seq<Bio>, n: nat)
    requires bios != [] && n >= bios[0].size
    ensures var k := Finished(bios[1..], n - bios[0].size);
            Finished(bios, n) == k + 1 && Bytes(bios[..k + 1]) == bios[0].size + Bytes(bios[1..][..k])
  {
    var k := Finished(bios[1..], n - bios[0].size);
    assert bios[..k + 1][1..] == bios[1..][..k];
  }

  lemma HeadEnding(flushSeq: bool, b: Bio, error: int)
    ensures Endings(flushSeq, b, b.size, error) == if flushSeq then [] else [EndingOf(b, error)]
  {
  }

  // The request left: its start moved on by the whole sectors done, its length less
  // the bytes done, and otherwise as it was but for its segments.
  lemma UpdateExactly(q: Limits, rq: Request, error: int, n: nat)
    requires LiveRq(rq) && n < rq.dataLen
    ensures var u := Update(q, rq, error, n);
            && u.more && u.rq.sector == rq.sector + n / SECTOR && u.rq.dataLen == rq.dataLen - n
            && u.rq == rq.(sector := u.rq.sector, dataLen := u.rq.dataLen, bios := u.rq.bios, nrSegs := u.rq.nrSegs)
            && exists r: Consumed :: Ends(rq.flushSeq, rq.bios, n, error, r) && u.ended == r.ended
                                     && Like(u.rq.bios, r.bios) && SameSectors(u.rq.bios, r.bios, true)
  {
    UpdateAccounts(q, rq, error, n);
    ConsumeEnds(rq.flushSeq, rq.bios, n, error);
    var c := Consume(rq.flushSeq, rq.bios, n, error);
    RecalcLike(q, c.bios);
    hide Ends, Consume, RecalcBios, RecalcCount, SegInv;
  }

  // ... and when all of it is done, every bio is ended.
  lemma UpdateAll(q: Limits, rq: Request, error: int, n: nat)
    requires LiveRq(rq) && n >= rq.dataLen && !rq.flushSeq
    ensures var u := Update(q, rq, error, n);
            && !u.more && u.rq.bios == [] && |u.ended| == |rq.bios|
            && forall i :: 0 <= i < |rq.bios| ==> u.ended[i] == EndingOf(rq.bios[i], error)
  {
    UpdateAccounts(q, rq, error, n);
    ConsumeEnds(rq.flushSeq, rq.bios, n, error);
    ConsumeBytes(rq.flushSeq, rq.bios, n, error);
  }
}
