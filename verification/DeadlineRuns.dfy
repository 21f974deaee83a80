/**
 What every operation of the deadline scheduler keeps, and how long a write can
 be starved.
 */
module DeadlineRuns {
  import opened KeyOrder
  import opened Deadline

  // Both lists of a direction hold the same requests, each in its order, and
  // the next request of a batch is one of them.
  ghost predicate LaneOk(l: Lane, pos: Keys, expire: Keys) {
    && InOrder(pos, l.sort) && InOrder(expire, l.fifo) && |l.sort| == |l.fifo|
    && (forall x :: x in l.fifo <==> x in l.sort)
    && (l.next.At? ==> l.next.id in l.sort)
  }

  ghost predicate InTime(l: Lane, expire: Keys, limit: int) {
    forall x <- l.fifo :: x in expire && expire[x] <= limit
  }

  ghost predicate DInv(dd: Dd, now: int) {
    && LaneOk(dd.rd, dd.pos, dd.expire) && LaneOk(dd.wr, dd.pos, dd.expire)
    && (forall x <- dd.rd.fifo :: x !in dd.wr.fifo)
    && InTime(dd.rd, dd.expire, now + dd.tun.readExpire) && InTime(dd.wr, dd.expire, now + dd.tun.writeExpire)
    && (dd.rd.next == End || dd.wr.next == End)
    && (dd.rd.next.At? || dd.wr.next.At? ==> dd.batching >= 1)
    && dd.starved <= dd.tun.starved && dd.nrSorted == |dd.rd.fifo| + |dd.wr.fifo|
  }

  // ---------------------------------------------------------------- one lane

  lemma RemovedOk(l: Lane, pos: Keys, expire: Keys, x: Id)
    requires LaneOk(l, pos, expire) && x in l.fifo
    ensures LaneOk(Removed(l, x), pos, expire) && |Removed(l, x).fifo| == |l.fifo| - 1
    ensures forall y :: y in Removed(l, x).fifo <==> y in l.fifo && y != x
  {
    WithoutOk(pos, l.sort, x);
    WithoutOk(expire, l.fifo, x);
    LatterIn(pos, l.sort, x);
    hide InOrder, Without, Latter;
  }

  lemma NewKeys(l: Lane, pos: Keys, expire: Keys, pos': Keys, expire': Keys)
    requires LaneOk(l, pos, expire)
    requires forall x <- l.fifo :: x in pos && x in expire ==>
               x in pos' && x in expire' && pos'[x] == pos[x] && expire'[x] == expire[x]
    ensures LaneOk(l, pos', expire')
  {
    InKeys(pos, l.sort);
    InKeys(expire, l.fifo);
    OrderOf(pos, pos', l.sort);
    OrderOf(expire, expire', l.fifo);
  }

  lemma AddedOk(l: Lane, pos: Keys, expire: Keys, x: Id)
    requires LaneOk(l, pos, expire) && x !in l.fifo && x in pos && x in expire && forall y <- l.sort :: y in pos
    requires InTime(l, expire, expire[x])
    ensures var r := l.(sort := Insert(pos, l.sort, x), fifo := l.fifo + [x]);
            LaneOk(r, pos, expire) && |r.fifo| == |l.fifo| + 1
  {
    InsertOk(pos, l.sort, x);
    AppendOk(expire, l.fifo, x);
    hide InOrder, Insert;
  }

  lemma FrontMergedOk(l: Lane, pos: Keys, expire: Keys, x: Id, p: int)
    requires LaneOk(l, pos, expire) && x in l.fifo
    ensures forall y <- l.sort :: y in pos
    ensures var key := pos[x := p];
            LaneOk(l.(sort := Insert(key, Without(l.sort, x), x)), key, expire)
  {
    var key := pos[x := p];
    var rest := Without(l.sort, x);
    InKeys(pos, l.sort);
    WithoutOk(pos, l.sort, x);
    InKeys(pos, rest);
    OrderOf(pos, key, rest);
    hide InOrder, Without;
    InsertOk(key, rest, x);
  }

  // The fifo after req took the place and the expiry of next.
  lemma TakeoverFifo(fifo: seq<Id>, expire: Keys, req: Id, next: Id)
    requires InOrder(expire, fifo) && req in fifo && next in fifo && req != next && req in expire && next in expire
    ensures var f := Without(MoveBehind(fifo, req, next), next);
            && InOrder(expire[req := expire[next]], f) && |f| == |fifo| - 1
            && (forall y :: y in f <==> y in fifo && y != next)
  {
    var s := Without(fifo, req);
    WithoutOk(expire, fifo, req);
    OrderDistinct(expire, s);
    BehindThenGone(s, req, next);
    ReplaceOk(expire, s, req, next);
    ReplaceLength(s, req, next);
  }

  lemma {:induction false} ReplaceLength(s: seq<Id>, x: Id, y: Id)
    ensures |Replace(s, x, y)| == |s|
  {
    if s != [] { ReplaceLength(s[1..], x, y); }
  }

  lemma TakeoverOk(l: Lane, pos: Keys, expire: Keys, req: Id, next: Id)
    requires LaneOk(l, pos, expire) && req in l.fifo && next in l.fifo && req != next && req in expire && next in expire
    ensures var r := Removed(l.(fifo := MoveBehind(l.fifo, req, next)), next);
            && LaneOk(r, pos, expire[req := expire[next]]) && |r.fifo| == |l.fifo| - 1
            && (forall y :: y in r.fifo <==> y in l.fifo && y != next)
  {
    TakeoverFifo(l.fifo, expire, req, next);
    WithoutOk(pos, l.sort, next);
    LatterIn(pos, l.sort, next);
    hide InOrder, Without, Latter, MoveBehind;
  }

  // ---------------------------------------------------------- the operations

  lemma LaneKeys(l: Lane, pos: Keys, expire: Keys)
    requires LaneOk(l, pos, expire)
    ensures forall y <- l.sort :: y in pos
    ensures forall y <- l.fifo :: y in pos && y in expire
  {
    InKeys(pos, l.sort);
    InKeys(expire, l.fifo);
  }

  lemma AddKeeps(dd: Dd, x: Id, d: Dir, pos: int, now: int)
    requires DInv(dd, now) && x !in dd.rd.fifo && x !in dd.wr.fifo
    ensures forall y <- Of(dd, d).sort :: y in dd.pos
    ensures DInv(Add(dd, x, d, pos, now), now)
  {
    hide LaneOk, Insert;
    LaneKeys(dd.rd, dd.pos, dd.expire);
    LaneKeys(dd.wr, dd.pos, dd.expire);
    var key, exp := dd.pos[x := pos], dd.expire[x := now + Expire(dd.tun, d)];
    NewKeys(dd.rd, dd.pos, dd.expire, key, exp);
    NewKeys(dd.wr, dd.pos, dd.expire, key, exp);
    AddedOk(Of(dd, d), key, exp, x);
  }

  lemma FrontMergeKeeps(dd: Dd, x: Id, d: Dir, pos: int, now: int)
    requires DInv(dd, now) && x in Of(dd, d).fifo
    ensures forall y <- Of(dd, d).sort :: y in dd.pos
    ensures DInv(FrontMerged(dd, x, d, pos), now)
  {
    hide LaneOk, Insert, Without;
    var other := if d.Read? then Write else Read;
    FrontMergedOk(Of(dd, d), dd.pos, dd.expire, x, pos);
    NewKeys(Of(dd, other), dd.pos, dd.expire, dd.pos[x := pos], dd.expire);
  }

  lemma MergeKeeps(dd: Dd, req: Id, next: Id, d: Dir, now: int)
    requires DInv(dd, now) && req in Of(dd, d).fifo && next in Of(dd, d).fifo && req != next
    ensures req in dd.expire && next in dd.expire
    ensures DInv(Merged(dd, req, next, d), now)
  {
    hide LaneOk, Removed, MoveBehind;
    var l := Of(dd, d);
    var other := if d.Read? then Write else Read;
    LaneKeys(l, dd.pos, dd.expire);
    if dd.expire[next] < dd.expire[req] {
      TakeoverOk(l, dd.pos, dd.expire, req, next);
      TakeoverNext(l, req, next);
      NewKeys(Of(dd, other), dd.pos, dd.expire, dd.pos, dd.expire[req := dd.expire[next]]);
    } else {
      RemovedOk(l, dd.pos, dd.expire, next);
      RemovedNext(l, next);
    }
  }

  // Removing a request does not open a batch.
  lemma RemovedNext(l: Lane, x: Id)
    ensures Removed(l, x).next.At? ==> l.next.At?
  {
  }

  lemma TakeoverNext(l: Lane, req: Id, next: Id)
    ensures Removed(l.(fifo := MoveBehind(l.fifo, req, next)), next).next.At? ==> l.next.At?
  {
  }

  // The request chosen is queued in its direction; there is one unless both
  // directions are empty.
  lemma ChosenIsQueued(dd: Dd, now: int)
    requires DInv(dd, now)
    ensures Choose(dd, now) == None <==> dd.rd.fifo == [] && dd.wr.fifo == []
    ensures Choose(dd, now).Pick? ==> Choose(dd, now).id in Of(dd, Choose(dd, now).d).fifo
    ensures Choose(dd, now).Pick? ==> Choose(dd, now).starved <= dd.tun.starved
  {
    hide InOrder;
    assert dd.rd.next.At? ==> dd.rd.next.id in dd.rd.fifo;
    assert dd.wr.next.At? ==> dd.wr.next.id in dd.wr.fifo;
  }

  lemma LatterLane(l: Lane, pos: Keys, expire: Keys, x: Id)
    requires LaneOk(l, pos, expire)
    ensures LaneOk(l.(next := Latter(l.sort, x)), pos, expire)
  {
    LatterIn(pos, l.sort, x);
  }

  lemma LaneEnd(l: Lane, pos: Keys, expire: Keys)
    requires LaneOk(l, pos, expire)
    ensures LaneOk(l.(next := End), pos, expire)
  {
  }

  lemma MovedKeeps(dd: Dd, x: Id, d: Dir, now: int)
    requires DInv(dd, now) && x in Of(dd, d).fifo && dd.batching >= 1
    ensures DInv(Moved(dd, x, d), now)
    ensures forall e, y :: y in Of(Moved(dd, x, d), e).fifo <==> y in Of(dd, e).fifo && !(y == x && e == d)
  {
    hide LaneOk, Removed;
    var l := Of(dd, d);
    LatterLane(l, dd.pos, dd.expire, x);
    LaneEnd(dd.rd, dd.pos, dd.expire);
    LaneEnd(dd.wr, dd.pos, dd.expire);
    RemovedOk(l.(next := Latter(l.sort, x)), dd.pos, dd.expire, x);
  }

  // One dispatch: it hands out a queued request, and only that one, unless
  // nothing is queued.
  lemma DispatchKeeps(dd: Dd, now: int)
    requires DInv(dd, now)
    ensures DInv(Dispatch(dd, now), now)
    ensures match Choose(dd, now)
            case None => Dispatch(dd, now) == dd
            case Pick(x, d, _, _) =>
              && Dispatch(dd, now).nrSorted == dd.nrSorted - 1
              && forall e, y :: y in Of(Dispatch(dd, now), e).fifo <==> y in Of(dd, e).fifo && !(y == x && e == d)
  {
    hide DInv, Choose, Moved;
    ChosenIsQueued(dd, now);
    match Choose(dd, now)
    case None =>
    case Pick(x, d, anew, starved) =>
      var b := dd.(batching := (if anew then 0 else dd.batching) + 1, starved := starved);
      Batched(dd, b.batching, starved, now);
      MovedKeeps(b, x, d, now);
      MovedCounts(b, x, d);
  }

  lemma Batched(dd: Dd, batching: nat, starved: nat, now: int)
    requires DInv(dd, now) && batching >= 1 && starved <= dd.tun.starved
    ensures DInv(dd.(batching := batching, starved := starved), now)
  {
    hide LaneOk;
  }

  lemma MovedCounts(dd: Dd, x: Id, d: Dir)
    ensures Moved(dd, x, d).nrSorted == dd.nrSorted - 1
  {
  }

  // ---------------------------------------------------------------- draining

  // elv_drain_elevator: dispatch until there is nothing to choose.
  function Drain(dd: Dd, now: int): Dd
    requires DInv(dd, now)
    decreases |dd.rd.fifo| + |dd.wr.fifo|
  {
    DispatchKeeps(dd, now);
    if Choose(dd, now) == None then dd else Drain(Dispatch(dd, now), now)
  }

  lemma {:induction false} DrainEmpties(dd: Dd, now: int)
    requires DInv(dd, now)
    ensures var r := Drain(dd, now);
            DInv(r, now) && r.rd.fifo == [] && r.rd.sort == [] && r.wr.fifo == [] && r.wr.sort == [] && r.nrSorted == 0
    decreases |dd.rd.fifo| + |dd.wr.fifo|
  {
    DispatchKeeps(dd, now);
    if Choose(dd, now) == None {
      ChosenIsQueued(dd, now);
    } else {
      hide Choose, Dispatch;
      DrainEmpties(Dispatch(dd, now), now);
    }
  }

  // -------------------------------------------------------------- starvation

  // max(1, fifo_batch)
  function BatchSize(t: Tunables): nat { if t.batch == 0 then 1 else t.batch }

  // Requests of direction d the present batch may still send.
  function Left(dd: Dd, d: Dir): nat {
    if Of(dd, d).next.At? && dd.batching < dd.tun.batch then dd.tun.batch - dd.batching else 0
  }

  // Reads that can still go before a waiting write.
  function Credit(dd: Dd): int {
    Left(dd, Read) + (dd.tun.starved - dd.starved) * BatchSize(dd.tun)
  }

  lemma CreditBound(dd: Dd, now: int)
    requires DInv(dd, now)
    ensures 0 <= Credit(dd) <= (dd.tun.starved + 1) * BatchSize(dd.tun) - 1
  {
    var k, m := dd.tun.starved, BatchSize(dd.tun);
    assert (k + 1) * m == k * m + m;
    assert 0 <= (k - dd.starved) * m <= k * m;
  }

  // Each read sent past a waiting write uses some of it up.
  lemma ReadSpends(dd: Dd, now: int)
    requires DInv(dd, now) && dd.wr.fifo != [] && Choose(dd, now).Pick? && Choose(dd, now).d == Read
    ensures Credit(Dispatch(dd, now)) <= Credit(dd) - 1
  {
    hide LaneOk, Latter, Without;
    var c := Choose(dd, now);
    var r := Dispatch(dd, now);
    var m := BatchSize(dd.tun);
    if c.anew {
      assert r.starved == dd.starved + 1 && r.batching == 1;
      assert (dd.tun.starved - r.starved) * m == (dd.tun.starved - dd.starved) * m - m;
    }
  }

  // ------------------------------------------------------------- whole runs

  datatype World = World(dd: Dd, now: int)

  datatype Event =
    | Arrive(x: Id, d: Dir, pos: int, t: int)
    | Front(x: Id, d: Dir, pos: int)             // a bio merged at the front of x
    | Merge(req: Id, next: Id, d: Dir)
    | Send(t: int)

  ghost predicate Enabled(w: World, e: Event) {
    match e
    case Arrive(x, _, _, t) => x !in w.dd.rd.fifo && x !in w.dd.wr.fifo && w.now <= t
    case Front(x, d, _) => x in Of(w.dd, d).fifo
    case Merge(req, next, d) => req in Of(w.dd, d).fifo && next in Of(w.dd, d).fifo && req != next
    case Send(t) => w.now <= t
  }

  // The requests named are known, and no BUG_ON fires: a direction with a
  // request on its fifo has one on its sorted list.
  ghost predicate Sound(w: World, e: Event) {
    match e
    case Arrive(_, d, _, _) => forall y <- Of(w.dd, d).sort :: y in w.dd.pos
    case Front(_, d, _) => forall y <- Of(w.dd, d).sort :: y in w.dd.pos
    case Merge(req, next, _) => req in w.dd.expire && next in w.dd.expire
    case Send(_) => (w.dd.rd.fifo != [] <==> w.dd.rd.sort != []) && (w.dd.wr.fifo != [] <==> w.dd.wr.sort != [])
  }

  function Next(w: World, e: Event): World
    requires Sound(w, e)
  {
    match e
    case Arrive(x, d, pos, t) => World(Add(w.dd, x, d, pos, t), t)
    case Front(x, d, pos) => w.(dd := FrontMerged(w.dd, x, d, pos))
    case Merge(req, next, d) => w.(dd := Merged(w.dd, req, next, d))
    case Send(t) => World(Dispatch(w.dd, t), t)
  }

  lemma Later(dd: Dd, now: int, t: int)
    requires DInv(dd, now) && now <= t
    ensures DInv(dd, t)
  {
    hide LaneOk;
  }

  lemma NextKeeps(w: World, e: Event)
    requires DInv(w.dd, w.now) && Enabled(w, e)
    ensures Sound(w, e) && DInv(Next(w, e).dd, Next(w, e).now) && Next(w, e).dd.tun == w.dd.tun
  {
    match e
    case Arrive(x, d, pos, t) => Later(w.dd, w.now, t); hide DInv; AddKeeps(w.dd, x, d, pos, t);
    case Front(x, d, pos) => hide DInv; FrontMergeKeeps(w.dd, x, d, pos, w.now);
    case Merge(req, next, d) => hide DInv; MergeKeeps(w.dd, req, next, d, w.now);
    case Send(t) => SendSound(w.dd, w.now); Later(w.dd, w.now, t); hide DInv; DispatchKeeps(w.dd, t);
  }

  lemma SendSound(dd: Dd, now: int)
    requires DInv(dd, now)
    ensures (dd.rd.fifo != [] <==> dd.rd.sort != []) && (dd.wr.fifo != [] <==> dd.wr.sort != [])
  {
  }

  function Start(t: Tunables): World {
    World(Dd(t, Lane([], [], End), Lane([], [], End), map[], map[], 0, 0, 0), 0)
  }

  lemma StartOk(t: Tunables)
    ensures DInv(Start(t).dd, 0)
  {
  }

  ghost predicate Run(t: Tunables, ws: seq<World>, es: seq<Event>) {
    && |ws| == |es| + 1 && ws[0] == Start(t)
    && forall i :: 0 <= i < |es| ==> Enabled(ws[i], es[i]) && (Sound(ws[i], es[i]) ==> ws[i + 1] == Next(ws[i], es[i]))
  }

  lemma {:induction false} RunKeeps(t: Tunables, ws: seq<World>, es: seq<Event>, n: nat)
    requires Run(t, ws, es) && n < |ws|
    ensures DInv(ws[n].dd, ws[n].now) && ws[n].dd.tun == t && (n < |es| ==> Sound(ws[n], es[n]))
  {
    hide DInv, Next, Enabled, Sound;
    if n == 0 {
      StartOk(t);
    } else {
      RunKeeps(t, ws, es, n - 1);
      NextKeeps(ws[n - 1], es[n - 1]);
    }
    if n < |es| { NextKeeps(ws[n], es[n]); }
  }

  // A read, or a write, leaves at step i.
  predicate Sends(w: World, e: Event, d: Dir) {
    e.Send? && Choose(w.dd, e.t).Pick? && Choose(w.dd, e.t).d == d
  }

  // The requests of a direction sent from step i to step n.
  function Sent(ws: seq<World>, es: seq<Event>, d: Dir, i: nat, n: nat): nat
    requires |ws| == |es| + 1 && i <= n <= |es|
    decreases n
  {
    if i == n then 0 else Sent(ws, es, d, i, n - 1) + (if Sends(ws[n - 1], es[n - 1], d) then 1 else 0)
  }

  // Nothing but sending a write adds credit.
  lemma CreditKept(w: World, e: Event)
    requires DInv(w.dd, w.now) && Enabled(w, e) && !Sends(w, e, Write)
    requires w.dd.wr.fifo != []
    ensures Sound(w, e)
    ensures Credit(Next(w, e).dd) <= Credit(w.dd) - (if Sends(w, e, Read) then 1 else 0)
  {
    hide DInv;
    NextKeeps(w, e);
    match e
    case Arrive(x, d, pos, t) => hide Insert;
    case Front(x, d, pos) => hide Insert, Without;
    case Merge(req, next, d) => MergeCredit(w.dd, req, next, d);
    case Send(t) =>
      Later(w.dd, w.now, t);
      hide Dispatch, Choose, Credit;
      if Sends(w, e, Read) { ReadSpends(w.dd, t); } else { NothingSent(w.dd, t); }
  }

  lemma MergeCredit(dd: Dd, req: Id, next: Id, d: Dir)
    requires req in dd.expire && next in dd.expire
    ensures Credit(Merged(dd, req, next, d)) <= Credit(dd)
  {
    hide Without, MoveBehind, Latter;
  }

  lemma NothingSent(dd: Dd, now: int)
    requires Choose(dd, now).Pick? ==> Choose(dd, now).d == Write
    ensures Choose(dd, now) == None ==> Credit(Dispatch(dd, now)) == Credit(dd)
  {
    hide Choose;
  }

  // The starvation bound: while some write is queued and none is sent, at most
  // (writes_starved + 1) * max(1, fifo_batch) - 1 reads are sent.
  lemma {:induction false} ReadsSpend(t: Tunables, ws: seq<World>, es: seq<Event>, i: nat, n: nat)
    requires Run(t, ws, es) && i <= n <= |es|
    requires forall j :: i <= j < n ==> ws[j].dd.wr.fifo != [] && !Sends(ws[j], es[j], Write)
    ensures Sent(ws, es, Read, i, n) + Credit(ws[n].dd) <= Credit(ws[i].dd)
    decreases n
  {
    if i < n {
      ReadsSpend(t, ws, es, i, n - 1);
      RunKeeps(t, ws, es, n - 1);
      hide DInv, Credit, Enabled, Next, Sends;
      CreditKept(ws[n - 1], es[n - 1]);
    }
  }

  lemma StarvationBound(t: Tunables, ws: seq<World>, es: seq<Event>, i: nat, n: nat)
    requires Run(t, ws, es) && i <= n <= |es|
    requires forall j :: i <= j < n ==> ws[j].dd.wr.fifo != [] && !Sends(ws[j], es[j], Write)
    ensures Sent(ws, es, Read, i, n) <= (t.starved + 1) * BatchSize(t) - 1
  {
    hide DInv, Credit, Enabled, Sound, Next, Sends;
    ReadsSpend(t, ws, es, i, n);
    RunKeeps(t, ws, es, i);
    RunKeeps(t, ws, es, n);
    CreditBound(ws[i].dd, ws[i].now);
    CreditBound(ws[n].dd, ws[n].now);
  }

  // --------------------------------------------------------------- deadlines

  // h is the oldest request of its direction, and its time is up.
  ghost predicate Overdue(w: World, d: Dir, h: Id) {
    Of(w.dd, d).fifo != [] && Of(w.dd, d).fifo[0] == h && h in w.dd.expire && w.now > w.dd.expire[h]
  }

  // A new batch in its direction would start with it.
  lemma FreshTakesOldest(dd: Dd, d: Dir, h: Id, now: int)
    requires Of(dd, d).fifo != [] && Of(dd, d).fifo[0] == h && h in dd.expire && now > dd.expire[h]
    requires var c := Choose(dd, now); c.Pick? && c.d == d && c.anew
    ensures Choose(dd, now).id == h
  {
  }

  // Sending one uses up the batch; sending in the other direction ends it.
  lemma SendUsesLeft(dd: Dd, d: Dir, h: Id, now: int)
    requires DInv(dd, now) && Of(dd, d).fifo != [] && Of(dd, d).fifo[0] == h && h in dd.expire && now > dd.expire[h]
    requires Choose(dd, now).Pick? && (Choose(dd, now).d == d ==> Choose(dd, now).id != h)
    ensures Left(Dispatch(dd, now), d) <= Left(dd, d) - (if Choose(dd, now).d == d then 1 else 0)
  {
    hide LaneOk, Latter, Without;
    if Choose(dd, now).d == d && Choose(dd, now).anew { FreshTakesOldest(dd, d, h, now); }
  }

  lemma LeftKept(w: World, e: Event, d: Dir, h: Id)
    requires DInv(w.dd, w.now) && Enabled(w, e) && Overdue(w, d, h)
    requires Sound(w, e) && Overdue(Next(w, e), d, h)
    ensures Left(Next(w, e).dd, d) <= Left(w.dd, d) - (if Sends(w, e, d) then 1 else 0)
  {
    match e
    case Arrive(x, f, pos, t) => hide Insert, DInv;
    case Front(x, f, pos) => hide Insert, Without, DInv;
    case Merge(req, next, f) => hide Without, MoveBehind, Latter, DInv;
    case Send(t) =>
      Later(w.dd, w.now, t);
      if Choose(w.dd, t).Pick? {
        DispatchKeeps(w.dd, t);
        hide DInv, Dispatch, Choose, Left;
        assert h in Of(Dispatch(w.dd, t), d).fifo;
        SendUsesLeft(w.dd, d, h, t);
      }
  }

  // An expired request is overtaken only by the rest of the running batch: while
  // it stays the oldest of its direction, at most max(1, fifo_batch) - 1 others of
  // that direction are sent.
  lemma {:induction false} OvertakeSpends(t: Tunables, ws: seq<World>, es: seq<Event>, d: Dir, h: Id, i: nat, n: nat)
    requires Run(t, ws, es) && i <= n <= |es| && forall j :: i <= j <= n ==> Overdue(ws[j], d, h)
    ensures Sent(ws, es, d, i, n) + Left(ws[n].dd, d) <= Left(ws[i].dd, d)
    decreases n
  {
    hide DInv, Left, Enabled, Next, Sends, Overdue, Sound;
    if i < n {
      OvertakeSpends(t, ws, es, d, h, i, n - 1);
      RunKeeps(t, ws, es, n - 1);
      assert Overdue(ws[n - 1], d, h) && Overdue(ws[n], d, h);
      LeftKept(ws[n - 1], es[n - 1], d, h);
    }
  }

  lemma OvertakeBound(t: Tunables, ws: seq<World>, es: seq<Event>, d: Dir, h: Id, i: nat, n: nat)
    requires Run(t, ws, es) && i <= n <= |es| && forall j :: i <= j <= n ==> Overdue(ws[j], d, h)
    ensures Sent(ws, es, d, i, n) <= BatchSize(t) - 1
  {
    OvertakeSpends(t, ws, es, d, h, i, n);
    RunKeeps(t, ws, es, i);
    hide LaneOk, Run, Overdue, Sends;
  }

  // ------------------------------------------------------ the bounds are met

  // e leads from w to w'.
  ghost predicate Leads(w: World, e: Event, w': World) {
    Enabled(w, e) && Sound(w, e) && w' == Next(w, e)
  }

  lemma RunOf(t: Tunables, ws: seq<World>, es: seq<Event>)
    requires |ws| == |es| + 1 && ws[0] == Start(t) && forall i :: 0 <= i < |es| ==> Leads(ws[i], es[i], ws[i + 1])
    ensures Run(t, ws, es)
  {
    hide Enabled, Sound, Next;
    forall i | 0 <= i < |es|
      ensures Enabled(ws[i], es[i]) && (Sound(ws[i], es[i]) ==> ws[i + 1] == Next(ws[i], es[i])) {
      assert Leads(ws[i], es[i], ws[i + 1]);
    }
  }

  lemma InsertTwo(key: Keys, x: Id, y: Id)
    requires x in key && y in key
    ensures Insert(key, [x], y) == if key[y] < key[x] then [y, x] else [x, y]
  {
    assert [x][1..] == [] && Insert(key, [], y) == [y];
  }

  // Batches of two, and reads that may not pass a write again.
  function Twos(): Tunables { Tunables(500, 5000, 2, 0) }

  function State(rd: Lane, wr: Lane, pos: Keys, expire: Keys, batching: nat, sorted: int, now: int): World {
    World(Dd(Twos(), rd, wr, pos, expire, batching, 0, sorted), now)
  }

  // A first read.
  lemma FirstRead(pos: int)
    ensures Leads(Start(Twos()), Arrive(1, Read, pos, 0),
                  State(Lane([1], [1], End), Lane([], [], End), map[1 := pos], map[1 := 500], 0, 1, 0))
  {
  }

  // A second one, beyond the first or before it.
  lemma SecondRead(p: int, pos: int)
    ensures Leads(State(Lane([1], [1], End), Lane([], [], End), map[1 := p], map[1 := 500], 0, 1, 0),
                  Arrive(2, Read, pos, 0),
                  State(Lane([1, 2], if pos < p then [2, 1] else [1, 2], End), Lane([], [], End),
                        map[1 := p, 2 := pos], map[1 := 500, 2 := 500], 0, 2, 0))
  {
    var key := map[1 := p, 2 := pos];
    InsertTwo(key, 1, 2);
    hide Insert;
    assert map[1 := p][2 := pos] == key && map[1 := 500][2 := 500] == map[1 := 500, 2 := 500];
  }

  // A write, while reads wait.
  lemma FirstWrite(rd: Lane, pos: Keys, expire: Keys, x: Id, batching: nat, sorted: int, now: int, t: int)
    requires x !in rd.fifo && now <= t
    ensures Leads(State(rd, Lane([], [], End), pos, expire, batching, sorted, now), Arrive(x, Write, 5, t),
                  State(rd, Lane([x], [x], End), pos[x := 5], expire[x := t + 5000], batching, sorted + 1, t))
  {
    assert [] + [x] == [x];
  }

  // A third read, beyond the other two.
  lemma ThirdRead()
    ensures var p, x := map[1 := 20, 2 := 10], map[1 := 500, 2 := 500];
            Leads(State(Lane([1, 2], [2, 1], End), Lane([], [], End), p, x, 0, 2, 0), Arrive(3, Read, 30, 0),
                  State(Lane([1, 2, 3], [2, 1, 3], End), Lane([], [], End), p[3 := 30], x[3 := 500], 0, 3, 0))
  {
    var key: Keys := map[1 := 20, 2 := 10][3 := 30];
    InsertTwo(key, 1, 3);
    assert [2, 1][1..] == [1] && Insert(key, [2, 1], 3) == [2] + Insert(key, [1], 3);
    hide Insert;
    assert [1, 2] + [3] == [1, 2, 3];
  }

  // The first of three, with one before it and one beyond it.
  lemma SendMiddle(pos: Keys, expire: Keys)
    ensures Leads(State(Lane([1, 2, 3], [2, 1, 3], End), Lane([], [], End), pos, expire, 0, 3, 0), Send(0),
                  State(Lane([2, 3], [2, 3], At(3)), Lane([], [], End), pos, expire, 1, 2, 0))
  {
    assert [1, 2, 3][1..] == [2, 3] && [2, 1, 3][1..] == [1, 3] && [1, 3][1..] == [3];
  }

  // The rest of the batch, past an older read.
  lemma SendPast(wr: Lane, pos: Keys, expire: Keys)
    requires wr.next == End && wr.fifo != [] && wr.sort != []
    ensures Leads(State(Lane([2, 3], [2, 3], At(3)), wr, pos, expire, 1, 3, 1000), Send(1000),
                  State(Lane([2], [2], End), wr, pos, expire, 2, 2, 1000))
  {
    assert [2, 3][1..] == [3] && [3][1..] == [];
  }

  // A read starts a batch, and the next along the sectors is sent before an older
  // one whose time is up.
  lemma OvertakeReached() returns (ws: seq<World>, es: seq<Event>)
    ensures Run(Twos(), ws, es) && |es| == 6 && Overdue(ws[5], Read, 2) && Overdue(ws[6], Read, 2)
    ensures Sent(ws, es, Read, 5, 6) == BatchSize(Twos()) - 1 == 1
  {
    hide Leads, Run, Next;
    var none, wr := Lane([], [], End), Lane([4], [4], End);
    var p, x := map[1 := 20, 2 := 10], map[1 := 500, 2 := 500];
    var q, y := p[3 := 30][4 := 5], x[3 := 500][4 := 6000];
    var w1 := State(Lane([1], [1], End), none, map[1 := 20], map[1 := 500], 0, 1, 0);
    var w2 := State(Lane([1, 2], [2, 1], End), none, p, x, 0, 2, 0);
    var w3 := State(Lane([1, 2, 3], [2, 1, 3], End), none, p[3 := 30], x[3 := 500], 0, 3, 0);
    var w4 := State(Lane([2, 3], [2, 3], At(3)), none, p[3 := 30], x[3 := 500], 1, 2, 0);
    var w5 := State(Lane([2, 3], [2, 3], At(3)), wr, q, y, 1, 3, 1000);
    var w6 := State(Lane([2], [2], End), wr, q, y, 2, 2, 1000);
    FirstRead(20);
    SecondRead(20, 10);
    ThirdRead();
    SendMiddle(p[3 := 30], x[3 := 500]);
    FirstWrite(w4.dd.rd, p[3 := 30], x[3 := 500], 4, 1, 2, 0, 1000);
    SendPast(wr, q, y);
    ws := [Start(Twos()), w1, w2, w3, w4, w5, w6];
    es := [Arrive(1, Read, 20, 0), Arrive(2, Read, 10, 0), Arrive(3, Read, 30, 0), Send(0),
           Arrive(4, Write, 5, 1000), Send(1000)];
    RunOf(Twos(), ws, es);
    assert Sends(w5, Send(1000), Read);
  }
}
