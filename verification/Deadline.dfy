/**
 The deadline scheduler (deadline-iosched.c): per direction a fifo by expiry and
 a list by sector over the same requests, batches along the sector order, and a
 bound on how long reads may starve writes.
 */
module Deadline {
  import opened KeyOrder

  datatype Dir = Read | Write
  datatype Link = End | At(id: Id)

  // One direction.
  datatype Lane = Lane(fifo: seq<Id>, sort: seq<Id>, next: Link)

  // fifo_expire, fifo_batch, writes_starved
  datatype Tunables = Tunables(readExpire: int, writeExpire: int, batch: nat, starved: nat)

  datatype Dd = Dd(
    tun: Tunables,
    rd: Lane,
    wr: Lane,
    pos: Keys,                 // start sector of each request
    expire: Keys,              // its fifo time
    batching: nat,
    starved: nat,
    nrSorted: int)

  function Of(dd: Dd, d: Dir): Lane { if d.Read? then dd.rd else dd.wr }

  function With(dd: Dd, d: Dir, l: Lane): Dd { if d.Read? then dd.(rd := l) else dd.(wr := l) }

  function Expire(t: Tunables, d: Dir): int { if d.Read? then t.readExpire else t.writeExpire }

  // deadline_latter_request
  function Latter(s: seq<Id>, x: Id): Link {
    if s == [] then End
    else if s[0] == x then (if |s| == 1 then End else At(s[1]))
    else Latter(s[1..], x)
  }

  // deadline_add_request
  function Add(dd: Dd, x: Id, d: Dir, pos: int, now: int): Dd
    requires forall y <- Of(dd, d).sort :: y in dd.pos
  {
    var l := Of(dd, d);
    var key := dd.pos[x := pos];
    With(dd, d, l.(sort := Insert(key, l.sort, x), fifo := l.fifo + [x]))
      .(pos := key, expire := dd.expire[x := now + Expire(dd.tun, d)], nrSorted := dd.nrSorted + 1)
  }

  // deadline_remove_request, for its lane
  function Removed(l: Lane, x: Id): Lane {
    Lane(Without(l.fifo, x), Without(l.sort, x), if l.next == At(x) then Latter(l.sort, x) else l.next)
  }

  // deadline_merged_request after a front merge: a new, smaller start sector
  function FrontMerged(dd: Dd, x: Id, d: Dir, pos: int): Dd
    requires forall y <- Of(dd, d).sort :: y in dd.pos
  {
    var l := Of(dd, d);
    var key := dd.pos[x := pos];
    With(dd, d, l.(sort := Insert(key, Without(l.sort, x), x))).(pos := key)
  }

  // list_move of x to behind y
  function MoveBehind(s: seq<Id>, x: Id, y: Id): seq<Id> {
    Behind(Without(s, x), x, y)
  }

  function Behind(s: seq<Id>, x: Id, y: Id): seq<Id> {
    if s == [] then [] else if s[0] == y then [y, x] + s[1..] else [s[0]] + Behind(s[1..], x, y)
  }

  // deadline_merged_requests: req absorbs next
  function Merged(dd: Dd, req: Id, next: Id, d: Dir): Dd
    requires req in dd.expire && next in dd.expire
  {
    var l := Of(dd, d);
    var earlier := dd.expire[next] < dd.expire[req];
    var l' := if earlier then l.(fifo := MoveBehind(l.fifo, req, next)) else l;
    With(dd, d, Removed(l', next))
      .(expire := if earlier then dd.expire[req := dd.expire[next]] else dd.expire, nrSorted := dd.nrSorted - 1)
  }

  // What deadline_dispatch_requests chooses: the request, its direction, and
  // whether a new batch starts.
  datatype Choice = None | Pick(id: Id, d: Dir, anew: bool, starved: nat)

  // deadline_check_fifo
  predicate Expired(dd: Dd, d: Dir, now: int) {
    Of(dd, d).fifo != [] && Of(dd, d).fifo[0] in dd.expire && now > dd.expire[Of(dd, d).fifo[0]]
  }

  // A new batch in direction d.
  function Find(dd: Dd, d: Dir, starved: nat, now: int): Choice {
    var l := Of(dd, d);
    if l.fifo == [] then None
    else if Expired(dd, d, now) || l.next == End then Pick(l.fifo[0], d, true, starved)
    else Pick(l.next.id, d, true, starved)
  }

  function Choose(dd: Dd, now: int): Choice {
    var next := if dd.wr.next.At? then dd.wr.next else dd.rd.next;
    if next.At? && dd.batching < dd.tun.batch then
      Pick(next.id, if dd.wr.next.At? then Write else Read, false, dd.starved)
    else if dd.rd.fifo != [] then
      if dd.wr.fifo != [] then
        if dd.starved >= dd.tun.starved then Find(dd, Write, 0, now) else Find(dd, Read, dd.starved + 1, now)
      else Find(dd, Read, dd.starved, now)
    else if dd.wr.fifo != [] then Find(dd, Write, 0, now)
    else None
  }

  // deadline_move_request
  function Moved(dd: Dd, x: Id, d: Dir): Dd {
    var l := Of(dd, d);
    With(dd.(rd := dd.rd.(next := End), wr := dd.wr.(next := End)), d, Removed(l.(next := Latter(l.sort, x)), x))
      .(nrSorted := dd.nrSorted - 1)
  }

  // deadline_dispatch_requests; without a choice it returns 0.
  function Dispatch(dd: Dd, now: int): Dd {
    match Choose(dd, now)
    case None => dd
    case Pick(x, d, anew, starved) =>
      Moved(dd.(batching := (if anew then 0 else dd.batching) + 1, starved := starved), x, d)
  }

  // ------------------------------------------------------------- sequences

  lemma {:induction false} LatterIn(key: Keys, s: seq<Id>, x: Id)
    requires InOrder(key, s)
    ensures Latter(s, x).At? ==>
              Latter(s, x).id in s && Latter(s, x).id != x && x in s && key[x] <= key[Latter(s, x).id]
  {
    if s != [] {
      if s[0] == x {
        if |s| > 1 { assert s[1] in s[1..]; }
      } else {
        LatterIn(key, s[1..], x);
      }
    }
  }

  // Putting x where y was, under y's key: x behind y, then y removed.
  function Replace(s: seq<Id>, x: Id, y: Id): seq<Id> {
    if s == [] then [] else [if s[0] == y then x else s[0]] + Replace(s[1..], x, y)
  }

  lemma {:induction false} BehindThenGone(s: seq<Id>, x: Id, y: Id)
    requires x !in s && x != y && forall i, j :: 0 <= i < j < |s| ==> s[i] != s[j]
    ensures Without(Behind(s, x, y), y) == Replace(s, x, y)
  {
    if s != [] {
      if s[0] == y {
        assert Behind(s, x, y) == [y] + ([x] + s[1..]);
        assert y !in s[1..];
        ReplaceNone(s[1..], x, y);
      } else {
        BehindThenGone(s[1..], x, y);
        assert Behind(s, x, y)[1..] == Behind(s[1..], x, y);
      }
    }
  }

  lemma {:induction false} ReplaceNone(s: seq<Id>, x: Id, y: Id)
    requires y !in s
    ensures Replace(s, x, y) == s
  {
    if s != [] { ReplaceNone(s[1..], x, y); }
  }

  lemma {:induction false} ReplaceOk(key: Keys, s: seq<Id>, x: Id, y: Id)
    requires InOrder(key, s) && x !in s && y in key
    ensures InOrder(key[x := key[y]], Replace(s, x, y))
    ensures forall z :: z in Replace(s, x, y) <==> (z in s && z != y) || (z == x && y in s)
  {
    if s != [] {
      ReplaceOk(key, s[1..], x, y);
      var r := Replace(s, x, y);
      assert r[1..] == Replace(s[1..], x, y);
      assert s == [s[0]] + s[1..];
    }
  }


}
