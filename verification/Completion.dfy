/**
 Partial completion of requests (blk-core.c).  Completing bytes of a request
 ends whole bios in order and trims the first unfinished one; the effect does
 not depend on how the bytes are split over calls.
 */
module Completion {
  import opened BlockTypes
  import opened Segments

  // One call of bio_endio.
  datatype Ending = Ending(id: nat, error: int)

  const EIO: int := 5

  // req_bio_endio on a bio, for n of its bytes.
  function EndBytes(b: Bio, n: nat, error: int): Bio {
    var m := if n < b.size then n else b.size;
    b.(size := b.size - m, sector := b.sector + m / SECTOR, uptodate := b.uptodate && error == 0)
  }

  // The bio_endio call it makes: none while bytes are left, none for a request
  // in a flush sequence.
  function Endings(flushSeq: bool, b: Bio, n: nat, error: int): seq<Ending> {
    if b.size <= n && !flushSeq
    then [Ending(b.id, if error != 0 then error else if b.uptodate then 0 else -EIO)]
    else []
  }

  // vs without its first n bytes.
  function DropBytes(vs: seq<Vec>, n: nat): seq<Vec> {
    if vs == [] then []
    else if n >= vs[0].len then DropBytes(vs[1..], n - vs[0].len)
    else [vs[0].(phys := vs[0].phys + n, len := vs[0].len - n)] + vs[1..]
  }

  function Advance(b: Bio, n: nat, error: int): Bio {
    EndBytes(b, n, error).(vecs := DropBytes(b.vecs, n))
  }

  datatype Consumed = Consumed(bios: seq<Bio>, ended: seq<Ending>)

  // What completing n bytes leaves of a chain, and the bios it ends.
  function Consume(flushSeq: bool, bios: seq<Bio>, n: nat, error: int): Consumed {
    if bios == [] then Consumed([], [])
    else
      var b := bios[0];
      if n > b.size then
        var r := Consume(flushSeq, bios[1..], n - b.size, error);
        Consumed(r.bios, Endings(flushSeq, b, b.size, error) + r.ended)
      else if n == b.size then Consumed(bios[1..], Endings(flushSeq, b, b.size, error))
      else if n == 0 then Consumed(bios, [])
      else Consumed([Advance(b, n, error)] + bios[1..], [])
  }

  datatype Updated = Updated(rq: Request, ended: seq<Ending>, more: bool)

  // blk_update_request for a file system request.
  function Update(q: Limits, rq: Request, error: int, n: nat): Updated {
    if rq.bios == [] then Updated(rq, [], false)
    else
      var c := Consume(rq.flushSeq, rq.bios, n, error);
      if c.bios == [] then Updated(rq.(bios := [], dataLen := 0), c.ended, false)
      else
        Updated(rq.(bios := RecalcBios(q, c.bios), nrSegs := RecalcCount(q, c.bios),
                    sector := rq.sector + n / SECTOR,
                    dataLen := LeftLen(rq.dataLen - n, c.bios[0])), c.ended, true)
  }

  // __data_len afterwards, with the repair for a "botched" request.
  function LeftLen(left: int, b: Bio): nat {
    var cur := if b.vecs == [] then b.size else b.vecs[0].len;
    if left < cur then cur else left
  }

  // ------------------------------------------------------------ live chains

  function Bytes(bios: seq<Bio>): nat {
    if bios == [] then 0 else bios[0].size + Bytes(bios[1..])
  }

  ghost predicate Live(bios: seq<Bio>) {
    forall b <- bios :: DataBio(b)
  }

  // A request as a driver holds it: data bios whose sizes add up.
  ghost predicate LiveRq(rq: Request) {
    Live(rq.bios) && rq.dataLen == Bytes(rq.bios)
  }

  lemma {:induction false} TotalHead(vs: seq<Vec>)
    requires vs != []
    ensures Total(vs) == vs[0].len + Total(vs[1..])
  {
    assert vs == [vs[0]] + vs[1..];
    TotalAppend([vs[0]], vs[1..]);
    assert [vs[0]][..0] == [];
  }

  ghost predicate Positive(vs: seq<Vec>) {
    forall v <- vs :: v.len > 0
  }

  // Dropping bytes leaves the other bytes, in nonempty vectors.
  lemma {:induction false} DropBytesData(vs: seq<Vec>, n: nat)
    requires Positive(vs) && n < Total(vs)
    ensures Positive(DropBytes(vs, n)) && DropBytes(vs, n) != []
    ensures Total(DropBytes(vs, n)) == Total(vs) - n
  {
    TotalHead(vs);
    if n >= vs[0].len {
      DropBytesData(vs[1..], n - vs[0].len);
    } else {
      TotalHead(DropBytes(vs, n));
      assert DropBytes(vs, n)[1..] == vs[1..];
    }
  }

  lemma {:induction false} DropBytesTwice(vs: seq<Vec>, n: nat, m: nat)
    ensures DropBytes(DropBytes(vs, n), m) == DropBytes(vs, n + m)
  {
    if vs != [] {
      if n >= vs[0].len {
        DropBytesTwice(vs[1..], n - vs[0].len, m);
      } else {
        var w := DropBytes(vs, n);
        assert w[1..] == vs[1..];
      }
    }
  }

  lemma AdvanceData(b: Bio, n: nat, error: int)
    requires DataBio(b) && n < b.size
    ensures DataBio(Advance(b, n, error)) && Advance(b, n, error).size == b.size - n
  {
    DropBytesData(b.vecs, n);
  }

  // Completion removes exactly the bytes completed; the chain is used up
  // exactly when the count reaches its length.
  lemma {:induction false} ConsumeBytes(flushSeq: bool, bios: seq<Bio>, n: nat, error: int)
    requires Live(bios)
    ensures var r := Consume(flushSeq, bios, n, error).bios;
            && Live(r) && (r == [] <==> n >= Bytes(bios))
            && Bytes(r) == if n >= Bytes(bios) then 0 else Bytes(bios) - n
  {
    if bios != [] {
      var b := bios[0];
      assert DataBio(b);
      if n > b.size {
        ConsumeBytes(flushSeq, bios[1..], n - b.size, error);
      } else if n == b.size {
        BytesPositive(bios[1..]);
      } else if n > 0 {
        AdvanceData(b, n, error);
        assert ([Advance(b, n, error)] + bios[1..])[1..] == bios[1..];
      }
    }
  }

  lemma BytesPositive(bios: seq<Bio>)
    requires Live(bios)
    ensures bios == [] <==> Bytes(bios) == 0
  {
    if bios != [] {
      assert DataBio(bios[0]);
      DataBioSize(bios[0]);
    }
  }

  lemma DataBioSize(b: Bio)
    requires DataBio(b)
    ensures b.size > 0
  {
    assert b.vecs[|b.vecs| - 1] in b.vecs;
  }

  // ------------------------------------------------------ split completion

  // Equal but for sectors, and with segment size caches at least as large.
  predicate LikeBio(a: Bio, b: Bio) {
    && a == b.(sector := a.sector, segFront := a.segFront, segBack := a.segBack)
    && a.segFront >= b.segFront && a.segBack >= b.segBack
  }

  predicate SameData(a: seq<Bio>, b: seq<Bio>) {
    |a| == |b| && forall i :: 0 <= i < |a| ==> a[i].vecs == b[i].vecs && a[i].size == b[i].size
  }

  predicate Like(a: seq<Bio>, b: seq<Bio>) {
    |a| == |b| && forall i :: 0 <= i < |a| ==> LikeBio(a[i], b[i])
  }

  // The sectors agree, that of the first bio exactly when head does.
  predicate SameSectors(a: seq<Bio>, b: seq<Bio>, head: bool) {
    && |a| == |b| && (a != [] ==> (a[0].sector == b[0].sector <==> head))
    && forall i :: 1 <= i < |a| ==> a[i].sector == b[i].sector
  }

  lemma {:induction false} ConsumeLike(flushSeq: bool, a: seq<Bio>, b: seq<Bio>, n: nat, error: int)
    requires Like(a, b)
    ensures Consume(flushSeq, a, n, error).ended == Consume(flushSeq, b, n, error).ended
    ensures Like(Consume(flushSeq, a, n, error).bios, Consume(flushSeq, b, n, error).bios)
  {
    if a != [] {
      assert LikeBio(a[0], b[0]);
      if n > a[0].size {
        ConsumeLike(flushSeq, a[1..], b[1..], n - a[0].size, error);
      }
    }
  }

  lemma {:induction false} ConsumeSectors(flushSeq: bool, a: seq<Bio>, b: seq<Bio>, n: nat, error: int)
    requires Like(a, b) && SameSectors(a, b, true)
    ensures SameSectors(Consume(flushSeq, a, n, error).bios, Consume(flushSeq, b, n, error).bios, true)
  {
    if a != [] {
      assert LikeBio(a[0], b[0]);
      hide LikeBio, DropBytes;
      if n > a[0].size {
        assert Like(a[1..], b[1..]);
        ConsumeSectors(flushSeq, a[1..], b[1..], n - a[0].size, error);
      }
    }
  }

  // Where completing n bytes stops: the bytes it takes of a bio that it does not
  // finish, and those it leaves of it.
  datatype Stop = Stop(taken: nat, left: nat)

  function StopOf(bios: seq<Bio>, n: nat): Stop {
    if bios == [] then Stop(0, 0)
    else if n >= bios[0].size then StopOf(bios[1..], n - bios[0].size)
    else Stop(n, bios[0].size - n)
  }

  // Completing n bytes and then m leaves the first bio the sector that completing
  // both at once does: the second call finishes the bio that the first one
  // trimmed, or what the two take of it does not carry into another sector.
  predicate SectorKept(bios: seq<Bio>, n: nat, m: nat) {
    var s := StopOf(bios, n);
    m >= s.left || s.taken % SECTOR + m % SECTOR < SECTOR
  }

  lemma SectorFloors(n: nat, m: nat)
    ensures n / SECTOR + m / SECTOR == (n + m) / SECTOR <==> n % SECTOR + m % SECTOR < SECTOR
  {
  }

  lemma AdvanceTwice(b: Bio, n: nat, m: nat, error: int)
    requires DataBio(b) && n + m < b.size
    ensures var a, c := Advance(Advance(b, n, error), m, error), Advance(b, n + m, error);
            LikeBio(a, c) && (a.sector == c.sector <==> n % SECTOR + m % SECTOR < SECTOR)
  {
    DropBytesTwice(b.vecs, n, m);
    SectorFloors(n, m);
  }

  // Completing n and then m bytes ends the same bios, in the same order and
  // with the same errors, as completing n + m at once, and leaves the same
  // chain, but for the sector of the first bio where SectorKept fails.
  predicate SplitsAlike(flushSeq: bool, bios: seq<Bio>, n: nat, m: nat, error: int) {
    var c1 := Consume(flushSeq, bios, n, error);
    var c2 := Consume(flushSeq, c1.bios, m, error);
    var c := Consume(flushSeq, bios, n + m, error);
    && c1.ended + c2.ended == c.ended && Like(c2.bios, c.bios)
    && SameSectors(c2.bios, c.bios, SectorKept(bios, n, m))
  }

  lemma LikeTail(a: Bio, b: Bio, rest: seq<Bio>)
    requires LikeBio(a, b)
    ensures Like([a] + rest, [b] + rest) && SameSectors([a] + rest, [b] + rest, a.sector == b.sector)
  {
  }

  lemma ConsumeTrims(flushSeq: bool, bios: seq<Bio>, n: nat, error: int)
    requires bios != [] && n < bios[0].size
    ensures var b := if n == 0 then bios[0] else Advance(bios[0], n, error);
            Consume(flushSeq, bios, n, error) == Consumed([b] + bios[1..], [])
    ensures StopOf(bios, n) == Stop(n, bios[0].size - n)
  {
    hide Advance;
  }

  // The bio split by a first call is trimmed further by the second ...
  lemma SplitTrim(flushSeq: bool, bios: seq<Bio>, n: nat, m: nat, error: int)
    requires bios != [] && DataBio(bios[0]) && 0 < n && n + m < bios[0].size
    ensures SplitsAlike(flushSeq, bios, n, m, error)
  {
    hide Advance, LikeBio, DataBio, Consume, Like, SameSectors, StopOf;
    var b := bios[0];
    var b' := Advance(b, n, error);
    var rest := [b'] + bios[1..];
    assert rest[1..] == bios[1..];
    AdvanceData(b, n, error);
    AdvanceTwice(b, n, m, error);
    ConsumeTrims(flushSeq, bios, n, error);
    ConsumeTrims(flushSeq, rest, m, error);
    ConsumeTrims(flushSeq, bios, n + m, error);
    LikeSelf(b');
    LikeTail(if m == 0 then b' else Advance(b', m, error), Advance(b, n + m, error), bios[1..]);
  }

  lemma LikeSelf(b: Bio)
    ensures LikeBio(b, b)
  {
  }

  // ... or finished by it.
  lemma SplitFinish(flushSeq: bool, bios: seq<Bio>, n: nat, m: nat, error: int)
    requires bios != [] && DataBio(bios[0]) && 0 < n < bios[0].size <= n + m
    ensures SplitsAlike(flushSeq, bios, n, m, error)
  {
    var b := bios[0];
    var b' := Advance(b, n, error);
    var rest := [b'] + bios[1..];
    assert rest[1..] == bios[1..];
    AdvanceData(b, n, error);
    assert Endings(flushSeq, b', b'.size, error) == Endings(flushSeq, b, b.size, error);
    assert Consume(flushSeq, rest, m, error) == Consume(flushSeq, bios, n + m, error);
  }

  lemma SplitPastHead(flushSeq: bool, bios: seq<Bio>, n: nat, m: nat, error: int)
    requires bios != [] && n > bios[0].size
    requires SplitsAlike(flushSeq, bios[1..], n - bios[0].size, m, error)
    ensures SplitsAlike(flushSeq, bios, n, m, error)
  {
    var b := bios[0];
    var e := Endings(flushSeq, b, b.size, error);
    var c1 := Consume(flushSeq, bios[1..], n - b.size, error);
    var c2 := Consume(flushSeq, c1.bios, m, error);
    assert e + c1.ended + c2.ended == e + (c1.ended + c2.ended);
  }

  lemma {:induction false} SplitConsume(flushSeq: bool, bios: seq<Bio>, n: nat, m: nat, error: int)
    requires Live(bios)
    ensures SplitsAlike(flushSeq, bios, n, m, error)
  {
    if bios != [] {
      var b := bios[0];
      assert DataBio(b);
      DataBioSize(b);
      if n > b.size {
        SplitConsume(flushSeq, bios[1..], n - b.size, m, error);
        SplitPastHead(flushSeq, bios, n, m, error);
      } else if n == b.size {
        if m == 0 { ConsumeNothing(flushSeq, bios[1..], error); }
        StopAtStart(bios[1..]);
      } else if n > 0 {
        if n + m < b.size {
          SplitTrim(flushSeq, bios, n, m, error);
        } else {
          SplitFinish(flushSeq, bios, n, m, error);
        }
      }
    }
  }

  lemma StopAtStart(bios: seq<Bio>)
    requires Live(bios)
    ensures StopOf(bios, 0).taken == 0
  {
    if bios != [] {
      assert DataBio(bios[0]);
      DataBioSize(bios[0]);
    }
  }

  lemma ConsumeNothing(flushSeq: bool, bios: seq<Bio>, error: int)
    requires Live(bios)
    ensures Consume(flushSeq, bios, 0, error) == Consumed(bios, [])
  {
    if bios != [] {
      assert DataBio(bios[0]);
      DataBioSize(bios[0]);
    }
  }

  lemma {:induction false} LikeBytes(a: seq<Bio>, b: seq<Bio>)
    requires SameData(a, b)
    ensures Bytes(a) == Bytes(b) && (Live(b) ==> Live(a)) && Flatten(a) == Flatten(b)
  {
    SameVecs(a, b);
    if a != [] {
      LikeBytes(a[1..], b[1..]);
      forall x | x in a && Live(b) ensures DataBio(x) {
        var i :| 0 <= i < |a| && a[i] == x;
        assert DataBio(b[i]);
      }
    }
  }

  lemma RecalcLike(q: Limits, bios: seq<Bio>)
    ensures Like(RecalcBios(q, bios), bios) && SameSectors(RecalcBios(q, bios), bios, true)
  {
  }

  lemma FirstVecFits(b: Bio)
    requires DataBio(b)
    ensures b.vecs[0].len <= b.size
  {
    TotalHead(b.vecs);
  }

  // The result is false exactly when the count reaches the length left, the
  // rest is accounted for byte by byte, and the "request botched" repair is
  // never taken.
  lemma UpdateAccounts(q: Limits, rq: Request, error: int, n: nat)
    requires LiveRq(rq)
    ensures var u := Update(q, rq, error, n);
            && LiveRq(u.rq) && (u.more <==> n < rq.dataLen)
            && u.rq.dataLen == (if u.more then rq.dataLen - n else 0)
            && (u.more ==> SegInv(q, u.rq))
  {
    if rq.bios != [] {
      var c := Consume(rq.flushSeq, rq.bios, n, error);
      ConsumeBytes(rq.flushSeq, rq.bios, n, error);
      if c.bios != [] {
        RecalcLike(q, c.bios);
        LikeBytes(RecalcBios(q, c.bios), c.bios);
        assert DataBio(c.bios[0]);
        FirstVecFits(c.bios[0]);
        RecalcEstablishes(q, c.bios);
      }
    }
  }

  lemma {:induction false} LikeTrans(a: seq<Bio>, b: seq<Bio>, c: seq<Bio>)
    requires Like(a, b) && Like(b, c)
    ensures Like(a, c)
  {
    forall i | 0 <= i < |a| ensures LikeBio(a[i], c[i]) {
      assert LikeBio(a[i], b[i]) && LikeBio(b[i], c[i]);
    }
  }

  // The chains of the two completions, with the recount in between.
  lemma SplitChains(q: Limits, flushSeq: bool, bios: seq<Bio>, n: nat, m: nat, error: int)
    requires Live(bios)
    ensures var c1 := Consume(flushSeq, bios, n, error);
            var c2 := Consume(flushSeq, RecalcBios(q, c1.bios), m, error);
            var c := Consume(flushSeq, bios, n + m, error);
            && c1.ended + c2.ended == c.ended && Like(c2.bios, c.bios)
            && SameSectors(c2.bios, c.bios, SectorKept(bios, n, m))
  {
    var c1 := Consume(flushSeq, bios, n, error);
    SplitConsume(flushSeq, bios, n, m, error);
    RecalcLike(q, c1.bios);
    ConsumeLike(flushSeq, RecalcBios(q, c1.bios), c1.bios, m, error);
    ConsumeSectors(flushSeq, RecalcBios(q, c1.bios), c1.bios, m, error);
    LikeTrans(Consume(flushSeq, RecalcBios(q, c1.bios), m, error).bios,
              Consume(flushSeq, c1.bios, m, error).bios, Consume(flushSeq, bios, n + m, error).bios);
  }

  lemma RecalcBothLike(q: Limits, a: seq<Bio>, b: seq<Bio>, head: bool)
    requires Like(a, b) && SameSectors(a, b, head)
    ensures Like(RecalcBios(q, a), RecalcBios(q, b)) && RecalcCount(q, a) == RecalcCount(q, b)
    ensures SameSectors(RecalcBios(q, a), RecalcBios(q, b), head)
  {
    LikeBytes(a, b);
    var p := Greedy(q, true, Flatten(a));
    if a != [] && p != [] { RaisedBothLike(a, b, Total(p[0]), Total(p[|p| - 1]), head); }
  }

  lemma RaisedBothLike(a: seq<Bio>, b: seq<Bio>, front: nat, back: nat, head: bool)
    requires a != [] && Like(a, b) && SameSectors(a, b, head)
    ensures Like(Raised(a, front, back), Raised(b, front, back))
    ensures SameSectors(Raised(a, front, back), Raised(b, front, back), head)
  {
    var r, t := Raised(a, front, back), Raised(b, front, back);
    forall i | 0 <= i < |a|
      ensures LikeBio(r[i], t[i]) && (r[i].sector == t[i].sector <==> a[i].sector == b[i].sector) {
      assert LikeBio(a[i], b[i]);
    }
  }

  // Split-independent completion: the same notifications, the same answer and
  // the same request left over.  Only sectors may differ: the request's agrees
  // exactly when the sub-sector remainders of the two counts do not carry, the
  // first bio's exactly when SectorKept says so, and the others always.
  predicate UpdatesAlike(q: Limits, rq: Request, error: int, n: nat, m: nat) {
    var u1 := Update(q, rq, error, n);
    var u2 := Update(q, u1.rq, error, m);
    var u := Update(q, rq, error, n + m);
    && u1.ended + u2.ended == u.ended && u2.more == u.more
    && Like(u2.rq.bios, u.rq.bios) && u2.rq.dataLen == u.rq.dataLen
    && SameSectors(u2.rq.bios, u.rq.bios, SectorKept(rq.bios, n, m))
    && (u.more ==>
          && u2.rq.nrSegs == u.rq.nrSegs
          && (u2.rq.sector == u.rq.sector <==> n % SECTOR + m % SECTOR < SECTOR))
  }

  // The request an unfinished completion leaves, written out.
  function Remainder(q: Limits, rq: Request, bios: seq<Bio>, n: nat): Request
    requires n <= rq.dataLen
  {
    rq.(bios := RecalcBios(q, bios), nrSegs := RecalcCount(q, bios),
        sector := rq.sector + n / SECTOR, dataLen := rq.dataLen - n)
  }

  lemma UpdateLeaves(q: Limits, rq: Request, error: int, n: nat)
    requires LiveRq(rq) && n < rq.dataLen
    ensures var c := Consume(rq.flushSeq, rq.bios, n, error);
            Update(q, rq, error, n) == Updated(Remainder(q, rq, c.bios, n), c.ended, true)
    ensures LiveRq(Update(q, rq, error, n).rq)
  {
    UpdateAccounts(q, rq, error, n);
  }

  lemma LiveIs(rq: Request)
    requires LiveRq(rq)
    ensures Live(rq.bios)
  {
  }

  lemma SplitLeaves(q: Limits, rq: Request, error: int, n: nat, m: nat)
    requires LiveRq(rq) && n + m < rq.dataLen
    ensures UpdatesAlike(q, rq, error, n, m)
  {
    hide LiveRq, Live, Consume, Update, Like, SameSectors, SectorKept, RecalcBios, RecalcCount;
    LiveIs(rq);
    var c1 := Consume(rq.flushSeq, rq.bios, n, error);
    var r1 := Remainder(q, rq, c1.bios, n);
    var c2 := Consume(rq.flushSeq, r1.bios, m, error);
    var c := Consume(rq.flushSeq, rq.bios, n + m, error);
    assert Update(q, rq, error, n) == Updated(r1, c1.ended, true) && LiveRq(r1) by {
      UpdateLeaves(q, rq, error, n);
    }
    assert Update(q, r1, error, m) == Updated(Remainder(q, r1, c2.bios, m), c2.ended, true) by {
      UpdateLeaves(q, r1, error, m);
    }
    assert Update(q, rq, error, n + m) == Updated(Remainder(q, rq, c.bios, n + m), c.ended, true) by {
      UpdateLeaves(q, rq, error, n + m);
    }
    var kept := SectorKept(rq.bios, n, m);
    assert c1.ended + c2.ended == c.ended && Like(c2.bios, c.bios) && SameSectors(c2.bios, c.bios, kept) by {
      SplitChains(q, rq.flushSeq, rq.bios, n, m, error);
    }
    RecalcBothLike(q, c2.bios, c.bios, kept);
    SectorFloors(n, m);
  }

  lemma SplitFinishes(q: Limits, rq: Request, error: int, n: nat, m: nat)
    requires LiveRq(rq) && n + m >= rq.dataLen
    ensures UpdatesAlike(q, rq, error, n, m)
  {
    UpdateAccounts(q, rq, error, n);
    UpdateAccounts(q, Update(q, rq, error, n).rq, error, m);
    UpdateAccounts(q, rq, error, n + m);
    SplitChains(q, rq.flushSeq, rq.bios, n, m, error);
    hide Consume, SectorKept, RecalcBios, RecalcCount, SegInv, LeftLen;
  }

  lemma SplitUpdate(q: Limits, rq: Request, error: int, n: nat, m: nat)
    requires LiveRq(rq)
    ensures UpdatesAlike(q, rq, error, n, m)
  {
    if n + m < rq.dataLen {
      SplitLeaves(q, rq, error, n, m);
    } else {
      SplitFinishes(q, rq, error, n, m);
    }
  }

  // Three hundred bytes twice are less than a sector each time, and more at once.
  function OneBio(): Request {
    Request(8, 2048, [Bio(0, 8, 2048, [Vec(0, 2048, false)], true, 0, true, false, 0, 0, 0)],
            1, true, 0, false, false, false)
  }

  lemma SplitSectorDiffers(q: Limits)
    ensures LiveRq(OneBio()) && !SectorKept(OneBio().bios, 300, 300)
    ensures var u2, u := Update(q, Update(q, OneBio(), 0, 300).rq, 0, 300), Update(q, OneBio(), 0, 600);
            |u2.rq.bios| == |u.rq.bios| == 1 && u2.rq.bios[0].sector == 8 && u.rq.bios[0].sector == 9
  {
    hide Update;
    assert [Vec(0, 2048, false)][..0] == [];
    TrimHead(q, OneBio(), 300);
    TrimHead(q, Update(q, OneBio(), 0, 300).rq, 300);
    TrimHead(q, OneBio(), 600);
  }

  lemma TrimHead(q: Limits, rq: Request, n: nat)
    requires LiveRq(rq) && |rq.bios| == 1 && 0 < n < rq.bios[0].size
    ensures var u := Update(q, rq, 0, n);
            && u.more && LiveRq(u.rq) && |u.rq.bios| == 1 && u.rq.bios[0].size == rq.bios[0].size - n
            && u.rq.bios[0].sector == rq.bios[0].sector + n / SECTOR
  {
    UpdateAccounts(q, rq, 0, n);
    RecalcLike(q, [Advance(rq.bios[0], n, 0)]);
  }

  // ---------------------------------------------------------- the loop, run

  // A chain as the loop may meet it: data bios, or one bio already counted
  // down to nothing and restored for its final completion.
  ghost predicate Ready(bios: seq<Bio>) {
    Live(bios) || (|bios| == 1 && bios[0].size == 0)
  }

  // The vectors left when k vectors and r bytes of the next are done.
  function SkipTo(vs: seq<Vec>, k: nat, r: nat): seq<Vec>
    requires k < |vs| && r < vs[k].len
  {
    [vs[k].(phys := vs[k].phys + r, len := vs[k].len - r)] + vs[k + 1..]
  }

  lemma {:induction false} DropPrefix(vs: seq<Vec>, k: nat, r: nat)
    requires k < |vs| && r < vs[k].len
    ensures DropBytes(vs, Total(vs[..k]) + r) == SkipTo(vs, k, r)
  {
    if k > 0 {
      DropPrefix(vs[1..], k - 1, r);
      TotalHead(vs[..k]);
      assert vs[..k][1..] == vs[1..][..k - 1];
      assert vs[1..][k..] == vs[k + 1..];
    }
  }

  lemma PrefixTotal(vs: seq<Vec>, k: nat)
    requires k < |vs|
    ensures Total(vs[..k + 1]) == Total(vs[..k]) + vs[k].len
    ensures Total(vs[..k + 1]) <= Total(vs)
  {
    assert vs[..k + 1][..k] == vs[..k];
    assert vs == vs[..k + 1] + vs[k + 1..];
    TotalAppend(vs[..k + 1], vs[k + 1..]);
  }

  // The vector steps of the loop, for a count below the bio's size: k whole
  // vectors and then r bytes of the next.
  method WalkVecs(vs: seq<Vec>, n: nat) returns (k: nat, r: nat)
    requires n < Total(vs)
    ensures k < |vs| && r < vs[k].len && n == Total(vs[..k]) + r
    ensures DropBytes(vs, n) == SkipTo(vs, k, r)
  {
    k, r := 0, n;
    assert vs[..|vs|] == vs;
    while vs[k].len <= r
      invariant k < |vs| && n == Total(vs[..k]) + r
      decreases |vs| - k
    {
      PrefixTotal(vs, k);
      k, r := k + 1, r - vs[k].len;
    }
    DropPrefix(vs, k, r);
  }

  // With `sofar` ended and m bytes still to take from bios, c is where it leads.
  ghost predicate Tracks(flushSeq: bool, c: Consumed, sofar: seq<Ending>, bios: seq<Bio>, m: nat, error: int) {
    var d := Consume(flushSeq, bios, m, error);
    c == Consumed(d.bios, sofar + d.ended)
  }

  lemma TracksPop(flushSeq: bool, c: Consumed, sofar: seq<Ending>, bios: seq<Bio>, m: nat, error: int)
    requires bios != [] && bios[0].size <= m && Tracks(flushSeq, c, sofar, bios, m, error)
    ensures var sofar' := sofar + Endings(flushSeq, bios[0], bios[0].size, error);
            if m == bios[0].size then c == Consumed(bios[1..], sofar')
            else Tracks(flushSeq, c, sofar', bios[1..], m - bios[0].size, error)
  {
    var e := Endings(flushSeq, bios[0], bios[0].size, error);
    if m > bios[0].size {
      var d := Consume(flushSeq, bios[1..], m - bios[0].size, error);
      assert sofar + (e + d.ended) == sofar + e + d.ended;
    }
  }

  lemma TracksStop(flushSeq: bool, c: Consumed, sofar: seq<Ending>, bios: seq<Bio>, m: nat, error: int)
    requires bios != [] && m < bios[0].size && Tracks(flushSeq, c, sofar, bios, m, error)
    ensures c == Consumed(if m == 0 then bios else [Advance(bios[0], m, error)] + bios[1..], sofar)
  {
  }

  // What is left over is data, and its bytes were not asked for.
  lemma ConsumeLeft(flushSeq: bool, bios: seq<Bio>, n: nat, error: int)
    requires Ready(bios)
    ensures var r := Consume(flushSeq, bios, n, error).bios;
            r != [] ==> n < Bytes(bios) && Live(r) && DataBio(r[0])
  {
    if Live(bios) {
      ConsumeBytes(flushSeq, bios, n, error);
    }
  }

  // A request's mutable part.
  class LiveRequest {
    const frame: Request
    var sector: nat
    var dataLen: nat
    var bios: seq<Bio>
    var nrSegs: nat
    var ended: seq<Ending>

    function View(): Request
      reads this
    {
      frame.(sector := sector, dataLen := dataLen, bios := bios, nrSegs := nrSegs)
    }

    constructor (rq: Request)
      ensures View() == rq && ended == []
    {
      frame, sector, dataLen, bios, nrSegs, ended := rq, rq.sector, rq.dataLen, rq.bios, rq.nrSegs, [];
    }

    // The loop of blk_update_request: ends whole bios, trims the first
    // unfinished one.
    method EndBios(error: int, nrBytes: nat)
      requires Ready(bios)
      modifies `bios, `ended
      ensures var c := Consume(frame.flushSeq, old(bios), nrBytes, error);
              bios == c.bios && ended == old(ended) + c.ended
    {
      var nr: nat := nrBytes;
      ghost var c := Consume(frame.flushSeq, bios, nrBytes, error);
      ghost var sofar: seq<Ending> := [];
      while bios != []
        invariant Ready(bios)
        invariant ended == old(ended) + sofar && Tracks(frame.flushSeq, c, sofar, bios, nr, error)
        decreases |bios|
      {
        var bio := bios[0];
        if nr >= bio.size {
          TracksPop(frame.flushSeq, c, sofar, bios, nr, error);
          bios := bios[1..];
          ghost var e := Endings(frame.flushSeq, bio, bio.size, error);
          ended := ended + Endings(frame.flushSeq, bio, bio.size, error);
          assert old(ended) + sofar + e == old(ended) + (sofar + e);
          sofar, nr := sofar + e, nr - bio.size;
          if nr == 0 { return; }
        } else {
          assert DataBio(bio);
          TracksStop(frame.flushSeq, c, sofar, bios, nr, error);
          var k, r := WalkVecs(bio.vecs, nr);
          if nr > 0 {
            bios := [EndBytes(bio, nr, error).(vecs := SkipTo(bio.vecs, k, r))] + bios[1..];
          }
          return;
        }
      }
    }

    // blk_update_request
    method UpdateRequest(q: Limits, error: int, nrBytes: nat) returns (more: bool)
      requires Ready(bios) && dataLen == Bytes(bios)
      modifies this
      ensures var u := Update(q, old(View()), error, nrBytes);
              View() == u.rq && ended == old(ended) + u.ended && more == u.more
    {
      hide Greedy, RecalcBios, RecalcCount, Consume;
      if bios == [] { return false; }
      ConsumeLeft(frame.flushSeq, bios, nrBytes, error);
      EndBios(error, nrBytes);
      if bios == [] {
        dataLen := 0;
        return false;
      }
      dataLen := dataLen - nrBytes;
      sector := sector + nrBytes / SECTOR;
      var cur := bios[0].vecs[0].len;
      if dataLen < cur { dataLen := cur; }
      var chain, segs := RecalcRqSegments(q, bios);
      bios, nrSegs := chain, segs;
      return true;
    }
  }
}
