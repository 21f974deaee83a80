/**
 Bio vectors, bios, requests and queue limits, as the block layer's merge and
 completion code sees them.  A bio's `vecs` are its remaining vectors, from
 `bi_idx` on; a request's `bios` are its chain from `rq->bio` to `rq->biotail`.
 */
module BlockTypes {

  // A vector is a physically contiguous range; `high` says that its page lies
  // above the queue's bounce limit.
  datatype Vec = Vec(phys: nat, len: nat, high: bool)

  datatype Bio = Bio(
    id: nat,
    sector: nat,
    size: nat,            // bi_size
    vecs: seq<Vec>,
    write: bool,
    disk: nat,
    uptodate: bool,       // BIO_UPTODATE
    segValid: bool,       // BIO_SEG_VALID
    physSegs: nat,        // bi_phys_segments
    segFront: nat,        // bi_seg_front_size
    segBack: nat)         // bi_seg_back_size

  datatype Request = Request(
    sector: nat,          // __sector
    dataLen: nat,         // __data_len
    bios: seq<Bio>,
    nrSegs: nat,          // nr_phys_segments
    write: bool,
    disk: nat,
    noMerge: bool,        // REQ_NOMERGE
    special: bool,        // rq->special != NULL
    flushSeq: bool)       // REQ_FLUSH_SEQ

  // Queue limits.  `window(a) == window(b)` is the segment boundary test: for a
  // boundary mask m it is the function mapping x to x | m.
  datatype Limits = Limits(
    cluster: bool,
    maxSegSize: nat,
    maxSegs: nat,
    maxSectors: nat,
    window: int -> int)

  const SECTOR: nat := 512

  function Total(vs: seq<Vec>): nat {
    if vs == [] then 0 else Total(vs[..|vs| - 1]) + vs[|vs| - 1].len
  }

  lemma {:induction false} TotalAppend(a: seq<Vec>, b: seq<Vec>)
    ensures Total(a + b) == Total(a) + Total(b)
  {
    if b == [] {
      assert a + b == a;
    } else {
      TotalAppend(a, b[..|b| - 1]);
      assert (a + b)[..|a + b| - 1] == a + b[..|b| - 1];
    }
  }

  // A data bio: its size is what its vectors hold, and no vector is empty.
  predicate DataBio(b: Bio) {
    && b.vecs != []
    && (forall v <- b.vecs :: v.len > 0)
    && b.size == Total(b.vecs)
  }

  function Flatten(bios: seq<Bio>): seq<Vec> {
    if bios == [] then [] else Flatten(bios[..|bios| - 1]) + bios[|bios| - 1].vecs
  }

  lemma {:induction false} FlattenAppend(a: seq<Bio>, b: seq<Bio>)
    ensures Flatten(a + b) == Flatten(a) + Flatten(b)
  {
    if b == [] {
      assert a + b == a;
    } else {
      FlattenAppend(a, b[..|b| - 1]);
      assert (a + b)[..|a + b| - 1] == a + b[..|b| - 1];
    }
  }
}
