/**
 What every step of the flush machinery keeps: each sequenced request is on
 exactly one list, the one its current step asks for; at most one flush is in
 flight and its list is frozen; no pending flush is forgotten; every bio is
 ended exactly once.
 */
module FlushProtocol {
  import opened BlockTypes
  import opened Completion
  import opened Flush

  // -------------------------------------------------------------- sequences

  ghost predicate NoDup<T>(s: seq<T>) {
    forall i, j :: 0 <= i < j < |s| ==> s[i] != s[j]
  }

  lemma {:induction false} WithoutMembers(s: seq<RqId>, id: RqId)
    ensures forall x :: x in Without(s, id) <==> x in s && x != id
    ensures NoDup(s) ==> NoDup(Without(s, id))
    ensures id !in s ==> Without(s, id) == s
  {
    if s != [] {
      var t := Without(s[1..], id);
      WithoutMembers(s[1..], id);
      assert s == [s[0]] + s[1..];
      if NoDup(s) && s[0] != id {
        assert s[0] !in t by { assert forall i :: 0 < i < |s| ==> s[i] != s[0]; }
        PrependNoDup(s[0], t);
      }
    }
  }

  lemma PrependNoDup<T>(x: T, s: seq<T>)
    requires NoDup(s) && x !in s
    ensures NoDup([x] + s)
  {
  }

  lemma WithoutFirst(s: seq<RqId>)
    requires s != [] && NoDup(s)
    ensures Without(s, s[0]) == s[1..]
  {
    WithoutMembers(s[1..], s[0]);
  }

  // -------------------------------------------------------------- placement

  // A sequenced request is on exactly one list, matching its current step.
  ghost predicate Placed(q: Queue, id: RqId)
    requires Shape(q) && id in q.rqs
  {
    var a, b, d := id in q.lists[0], id in q.lists[1], id in q.data;
    if !q.rqs[id].live then !a && !b && !d
    else
      match CurSeq(q.rqs[id].done)
      case Data => d && !a && !b
      case Done => false
      case _ => !d && a != b
  }

  ghost predicate Listed(q: Queue, id: RqId)
    requires Shape(q)
  {
    id in q.lists[0] || id in q.lists[1] || id in q.data
  }

  ghost predicate Unique(q: Queue)
    requires Shape(q)
  {
    NoDup(q.lists[0]) && NoDup(q.lists[1]) && NoDup(q.data)
  }

  // All requests but x are where they belong.
  ghost predicate PlacedBut(q: Queue, x: RqId)
    requires Shape(q)
  {
    && Unique(q)
    && (forall id :: Listed(q, id) ==> id in q.rqs)
    && (forall id <- q.rqs :: id != x ==> Placed(q, id))
  }

  ghost predicate PlacedAll(q: Queue)
    requires Shape(q)
  {
    && Unique(q)
    && (forall id :: Listed(q, id) ==> id in q.rqs)
    && (forall id <- q.rqs :: Placed(q, id))
  }

  lemma UnlinkPlaces(q: Queue, x: RqId)
    requires Shape(q) && x in q.rqs && PlacedBut(q, x)
    ensures PlacedBut(Unlink(q, x), x) && !Listed(Unlink(q, x), x)
  {
    WithoutMembers(q.lists[0], x);
    WithoutMembers(q.lists[1], x);
    WithoutMembers(q.data, x);
    var u := Unlink(q, x);
    forall id | id in u.rqs && id != x ensures Placed(u, id) { assert Placed(q, id); }
    forall id | Listed(u, id) ensures id in u.rqs { assert Listed(q, id); }
  }

  lemma AppendNoDup<T>(s: seq<T>, x: T)
    requires NoDup(s) && x !in s
    ensures NoDup(s + [x])
  {
  }

  // q' agrees with q but for x: its record, its place.
  ghost predicate SameOthers(q: Queue, q': Queue, x: RqId)
    requires Shape(q) && Shape(q')
  {
    && q'.rqs.Keys == q.rqs.Keys
    && forall id :: id != x ==>
         && (id in q.rqs ==> q'.rqs[id] == q.rqs[id])
         && (id in q'.lists[0] <==> id in q.lists[0])
         && (id in q'.lists[1] <==> id in q.lists[1])
         && (id in q'.data <==> id in q.data)
  }

  lemma OthersStayPlaced(q: Queue, q': Queue, x: RqId)
    requires Shape(q) && Shape(q') && x in q.rqs && PlacedBut(q, x) && SameOthers(q, q', x)
    requires Unique(q') && Placed(q', x)
    ensures PlacedAll(q')
  {
    forall id | id in q'.rqs ensures Placed(q', id) {
      if id != x { assert Placed(q, id); }
    }
    forall id | Listed(q', id) ensures id in q'.rqs {
      if id != x { assert Listed(q, id); }
    }
  }

  // Wherever the request goes, it is placed there and nothing else moves.
  lemma EnterPlaces(q: Queue, x: RqId, next: Step, error: int, now: int)
    requires Shape(q) && x in q.rqs && PlacedBut(q, x) && q.rqs[x].live
    requires next == CurSeq(q.rqs[x].done) || next == Done
    ensures PlacedAll(Enter(q, x, next, error, now))
  {
    var u := Unlink(q, x);
    var e := Enter(q, x, next, error, now);
    UnlinkPlaces(q, x);
    if next == Pre || next == Post {
      AppendNoDup(u.lists[q.p], x);
    } else if next == Data {
      AppendNoDup(u.data, x);
    }
    OthersStayPlaced(u, e, x);
  }

  lemma KickPlaces(q: Queue, now: int)
    requires Shape(q) && PlacedAll(q)
    ensures PlacedAll(Kick(q, now))
  {
    var k := Kick(q, now);
    assert k.lists == q.lists && k.data == q.data && k.rqs == q.rqs;
    forall id | id in k.rqs ensures Placed(k, id) { assert Placed(q, id); }
    forall id | Listed(k, id) ensures id in k.rqs { assert Listed(q, id); }
  }

  lemma MarkPlaces(q: Queue, x: RqId, steps: Steps)
    requires Shape(q) && x in q.rqs && PlacedBut(q, x)
    ensures PlacedBut(Mark(q, x, steps), x)
  {
    var m := Mark(q, x, steps);
    forall id | id in m.rqs && id != x ensures Placed(m, id) { assert Placed(q, id); }
    forall id | Listed(m, id) ensures id in m.rqs { assert Listed(q, id); }
  }

  lemma CompletePlaces(q: Queue, x: RqId, steps: Steps, error: int, now: int)
    requires Shape(q) && x in q.rqs && PlacedBut(q, x) && q.rqs[x].live
    ensures PlacedAll(CompleteSeq(q, x, steps, error, now))
  {
    var m := Mark(q, x, steps);
    MarkPlaces(q, x, steps);
    EnterPlaces(m, x, NextStep(m, x, error), error, now);
    KickPlaces(Enter(m, x, NextStep(m, x, error), error, now), now);
  }

  // ------------------------------------------------------- each request alone

  // The steps a request needs follow from its flags and the device, and a
  // request with both flush steps has data between them.
  ghost predicate PolicyOk(caps: Caps, r: FlushRq) {
    && r.policy.pre == (caps.flush && r.flush)
    && r.policy.post == (caps.flush && !caps.fua && r.fua)
    && r.devFua == (r.fua && caps.fua)
    && (r.live ==>
          && (r.policy.pre || r.done.pre) && (r.policy.data || r.done.data) && (r.policy.post || r.done.post)
          && !(r.policy.pre && r.policy.post && !r.policy.data)
          && (r.policy.data && r.done.data ==> r.done.pre)
          && (r.policy.post && r.done.post ==> r.done.pre && r.done.data))
  }

  // Until its data is done a sequenced request holds its one bio; afterwards
  // only rq->biotail still points to it, counted down to nothing.
  ghost predicate PayloadOk(id: RqId, r: FlushRq) {
    && r.tail.id == id
    && (r.live ==>
          && r.rq.flushSeq && r.rq.dataLen == r.tail.size
          && (if r.policy.data && !r.done.data then r.rq.bios == [r.tail] && DataBio(r.tail)
              else r.tail.size == 0))
  }

  ghost predicate LocalOk(caps: Caps, id: RqId, r: FlushRq) {
    PolicyOk(caps, r) && PayloadOk(id, r)
  }

  ghost predicate LocalAll(q: Queue) {
    forall id <- q.rqs :: LocalOk(q.caps, id, q.rqs[id])
  }

  // ------------------------------------------------------------ notification

  function Count(log: seq<Ending>, id: RqId): nat {
    if log == [] then 0 else Count(log[..|log| - 1], id) + (if log[|log| - 1].id == id then 1 else 0)
  }

  lemma {:induction false} CountAppend(a: seq<Ending>, b: seq<Ending>, id: RqId)
    ensures Count(a + b, id) == Count(a, id) + Count(b, id)
  {
    if b == [] {
      assert a + b == a;
    } else {
      CountAppend(a, b[..|b| - 1], id);
      assert (a + b)[..|a + b| - 1] == a + b[..|b| - 1];
    }
  }

  // The restored bio is ended by the final completion, once, whether or not
  // its data was transferred before.
  lemma RestoredEnds(lim: Limits, rq: Request, tail: Bio, error: int)
    requires rq.dataLen == tail.size
    ensures var u := Update(lim, Restored(rq, tail), error, rq.dataLen);
            && u.ended == [Ending(tail.id, if error != 0 then error else if tail.uptodate then 0 else -EIO)]
            && !u.more && u.rq.bios == []
  {
  }

  // The data completion of a sequenced request ends nothing.
  lemma SequencedDataSilent(lim: Limits, rq: Request, error: int)
    requires rq.flushSeq && |rq.bios| == 1 && rq.dataLen == rq.bios[0].size
    ensures var u := Update(lim, rq, error, rq.dataLen);
            u.ended == [] && !u.more && u.rq == rq.(bios := [], dataLen := 0)
  {
  }

  // A bio is ended once when its request is finished, and not before.
  ghost predicate InFlight(q: Queue, x: Item) {
    x in q.head || x in q.driver
  }

  ghost predicate EndedOk(q: Queue, id: RqId)
    requires id in q.rqs
  {
    Count(q.log, id) == if q.rqs[id].live || InFlight(q, PlainItem(id)) then 0 else 1
  }

  ghost predicate EndedAll(q: Queue) {
    && (forall id <- q.rqs :: EndedOk(q, id))
    && (forall id :: id !in q.rqs ==> Count(q.log, id) == 0 && !InFlight(q, PlainItem(id)))
  }

  // A request executed as a normal one still holds its bio.
  ghost predicate PlainsOk(q: Queue) {
    forall id :: id in q.rqs && InFlight(q, PlainItem(id)) ==>
      var r := q.rqs[id];
      !r.live && !r.policy.pre && !r.policy.post && !r.rq.flushSeq
      && r.rq.bios == [r.tail] && r.rq.dataLen == r.tail.size && (r.tail.size > 0 ==> DataBio(r.tail))
  }

  // ------------------------------------------------------------------- items

  // What is queued or started is exactly the flush in flight and the data
  // requests in flight, each once.
  ghost predicate ItemsOk(q: Queue) {
    && NoDup(q.head)
    && (forall x <- q.head :: x !in q.driver)
    && (InFlight(q, FlushItem) <==> q.p != q.r)
    && (forall id :: InFlight(q, DataItem(id)) <==> id in q.data)
    && (forall id :: id in q.rqs && q.rqs[id].live ==> !InFlight(q, PlainItem(id)))
  }

  // --------------------------------------------------------- double buffering

  // One flush in flight at most, on the list that is not pending; and a flush
  // that is wanted is only put off while data is in flight.
  ghost predicate BuffersOk(q: Queue)
    requires Shape(q)
  {
    && (q.p == q.r ==> q.lists[1 - q.p] == [])
    && (q.p != q.r ==> q.lists[q.r] != [])
    && (q.p == q.r && q.lists[q.p] != [] ==> q.data != [])
  }

  // Every request of the running list joined before the running flush was
  // issued.
  ghost predicate JoinedOk(q: Queue)
    requires Shape(q)
  {
    && (forall id :: id in q.rqs && Listed(q, id) ==> q.rqs[id].joined <= q.issued)
    && (q.p != q.r ==> forall id :: id in q.rqs && id in q.lists[q.r] ==> q.rqs[id].joined < q.issued)
  }

  ghost predicate QInv(q: Queue) {
    && Shape(q) && PlacedAll(q) && LocalAll(q) && EndedAll(q) && PlainsOk(q) && ItemsOk(q)
    && BuffersOk(q) && JoinedOk(q)
  }

  // ---------------------------------------- one blk_flush_complete_seq, piecewise

  // What a step changes in the request's record.
  lemma EnterRecord(q: Queue, x: RqId, next: Step, error: int, now: int)
    requires Shape(q) && x in q.rqs
    ensures var e := Enter(q, x, next, error, now);
            var r, r' := q.rqs[x], e.rqs[x];
            && e.rqs == q.rqs[x := r'] && e.caps == q.caps && e.p == q.p && e.r == q.r && e.issued == q.issued
            && r' == r.(joined := r'.joined, at := r'.at, live := r.live && next != Done, rq := r'.rq)
            && (next != Done ==> r'.rq == r.rq)
            && r'.joined == (if next == Pre || next == Post then q.issued else r.joined)
            && r'.at == (if next == Pre || next == Post then now else r.at)
  {
  }

  lemma KickRecord(q: Queue, now: int)
    requires Shape(q)
    ensures var k := Kick(q, now);
            k.rqs == q.rqs && k.caps == q.caps && k.log == q.log && k.lists == q.lists && k.data == q.data && k.r == q.r
  {
  }

  lemma CompleteLocal(q: Queue, x: RqId, steps: Steps, error: int, now: int)
    requires Shape(q) && x in q.rqs && LocalAll(Mark(q, x, steps))
    ensures LocalAll(CompleteSeq(q, x, steps, error, now))
  {
    var m := Mark(q, x, steps);
    var e := Enter(m, x, NextStep(m, x, error), error, now);
    EnterRecord(m, x, NextStep(m, x, error), error, now);
    KickRecord(e, now);
    assert LocalOk(m.caps, x, m.rqs[x]);
    RecordLocal(m.caps, x, m.rqs[x], e.rqs[x]);
  }

  lemma RecordLocal(caps: Caps, x: RqId, r: FlushRq, r': FlushRq)
    requires LocalOk(caps, x, r) && r' == r.(joined := r'.joined, at := r'.at, live := r'.live, rq := r'.rq)
    requires r'.live ==> r.live && r'.rq == r.rq
    ensures LocalOk(caps, x, r')
  {
  }

  lemma EnterLog(q: Queue, x: RqId, next: Step, error: int, now: int)
    requires Shape(q) && x in q.rqs && q.rqs[x].live && PayloadOk(x, q.rqs[x])
    ensures var e := Enter(q, x, next, error, now);
            if next == Done then |e.log| == |q.log| + 1 && e.log[..|q.log|] == q.log && e.log[|q.log|].id == x
            else e.log == q.log
  {
    if next == Done {
      RestoredEnds(q.lim, q.rqs[x].rq, q.rqs[x].tail, error);
    }
  }

  lemma EnterEnded(q: Queue, x: RqId, next: Step, error: int, now: int)
    requires Shape(q) && x in q.rqs && q.rqs[x].live && PayloadOk(x, q.rqs[x])
    requires EndedAll(q) && !InFlight(q, PlainItem(x))
    ensures EndedAll(Enter(q, x, next, error, now))
  {
    var e := Enter(q, x, next, error, now);
    EnterLog(q, x, next, error, now);
    forall id ensures Count(e.log, id) == Count(q.log, id) + (if next == Done && id == x then 1 else 0) {
    }
    forall id | id in e.rqs ensures EndedOk(e, id) {
      assert EndedOk(q, id);
      assert InFlight(e, PlainItem(id)) == InFlight(q, PlainItem(id));
    }
    forall id | id !in e.rqs ensures Count(e.log, id) == 0 && !InFlight(e, PlainItem(id)) {
      assert InFlight(e, PlainItem(id)) == InFlight(q, PlainItem(id));
    }
  }

  lemma KickEnded(q: Queue, now: int)
    requires Shape(q) && EndedAll(q)
    ensures EndedAll(Kick(q, now))
  {
    var k := Kick(q, now);
    forall id ensures InFlight(k, PlainItem(id)) == InFlight(q, PlainItem(id)) {}
    forall id | id in k.rqs ensures EndedOk(k, id) { assert EndedOk(q, id); }
  }

  lemma CompleteEnded(q: Queue, x: RqId, steps: Steps, error: int, now: int)
    requires Shape(q) && x in q.rqs && q.rqs[x].live && EndedAll(q) && !InFlight(q, PlainItem(x))
    requires PayloadOk(x, Mark(q, x, steps).rqs[x])
    ensures EndedAll(CompleteSeq(q, x, steps, error, now))
  {
    var m := Mark(q, x, steps);
    forall id | id in m.rqs ensures EndedOk(m, id) { assert EndedOk(q, id); }
    forall id | id !in m.rqs ensures Count(m.log, id) == 0 && !InFlight(m, PlainItem(id)) {
      assert InFlight(m, PlainItem(id)) == InFlight(q, PlainItem(id));
    }
    EnterEnded(m, x, NextStep(m, x, error), error, now);
    KickEnded(Enter(m, x, NextStep(m, x, error), error, now), now);
  }

  lemma CompletePlains(q: Queue, x: RqId, steps: Steps, error: int, now: int)
    requires Shape(q) && x in q.rqs && PlainsOk(q) && !InFlight(q, PlainItem(x))
    ensures PlainsOk(CompleteSeq(q, x, steps, error, now))
  {
    var m := Mark(q, x, steps);
    var e := Enter(m, x, NextStep(m, x, error), error, now);
    EnterRecord(m, x, NextStep(m, x, error), error, now);
    KickRecord(e, now);
    forall id ensures InFlight(Kick(e, now), PlainItem(id)) == InFlight(q, PlainItem(id)) {}
  }

  // The items, leaving x's data out: it has just been completed, or was never
  // started.
  ghost predicate ItemsBut(q: Queue, x: RqId) {
    && NoDup(q.head)
    && (forall i <- q.head :: i !in q.driver)
    && (InFlight(q, FlushItem) <==> q.p != q.r)
    && !InFlight(q, DataItem(x))
    && (forall id :: id != x ==> (InFlight(q, DataItem(id)) <==> id in q.data))
    && (forall id :: id in q.rqs && q.rqs[id].live ==> !InFlight(q, PlainItem(id)))
  }

  lemma EnterItems(q: Queue, x: RqId, next: Step, error: int, now: int)
    requires Shape(q) && x in q.rqs && q.rqs[x].live && ItemsBut(q, x)
    ensures ItemsOk(Enter(q, x, next, error, now))
  {
    var e := Enter(q, x, next, error, now);
    WithoutMembers(q.data, x);
    if next == Data { PrependNoDup(DataItem(x), q.head); }
    forall i ensures InFlight(e, i) <==> InFlight(q, i) || (next == Data && i == DataItem(x)) {}
  }

  lemma KickItems(q: Queue, now: int)
    requires Shape(q) && ItemsOk(q)
    ensures ItemsOk(Kick(q, now))
  {
    var k := Kick(q, now);
    if k != q {
      assert FlushItem !in q.head;
      AppendNoDup(q.head, FlushItem);
    }
    forall i ensures InFlight(k, i) <==> InFlight(q, i) || (k.p != q.p && i == FlushItem) {}
  }

  lemma CompleteItems(q: Queue, x: RqId, steps: Steps, error: int, now: int)
    requires Shape(q) && x in q.rqs && q.rqs[x].live && ItemsBut(q, x)
    ensures ItemsOk(CompleteSeq(q, x, steps, error, now))
    ensures !Overlap(q.rqs[x].done, steps) ==> SeqOk(q, x, steps, error)
  {
    var m := Mark(q, x, steps);
    forall i ensures InFlight(m, i) == InFlight(q, i) {}
    EnterItems(m, x, NextStep(m, x, error), error, now);
    KickItems(Enter(m, x, NextStep(m, x, error), error, now), now);
  }

  lemma EnterJoined(q: Queue, x: RqId, next: Step, error: int, now: int)
    requires Shape(q) && x in q.rqs && JoinedOk(q) && q.rqs[x].joined <= q.issued
    requires q.p != q.r ==> x !in q.lists[q.r]
    ensures JoinedOk(Enter(q, x, next, error, now))
  {
    var e := Enter(q, x, next, error, now);
    EnterRecord(q, x, next, error, now);
    WithoutMembers(q.lists[0], x);
    WithoutMembers(q.lists[1], x);
    WithoutMembers(q.data, x);
    forall id | id in e.rqs && Listed(e, id) ensures e.rqs[id].joined <= e.issued {
      assert Listed(q, id) || id == x;
    }
  }

  lemma KickJoined(q: Queue, now: int)
    requires Shape(q) && JoinedOk(q)
    ensures JoinedOk(Kick(q, now))
  {
    var k := Kick(q, now);
    forall id | id in k.rqs && Listed(k, id) ensures k.rqs[id].joined <= k.issued {
      assert Listed(q, id);
    }
    if k.p != k.r && k.p != q.p {
      forall id | id in k.rqs && id in k.lists[k.r] ensures k.rqs[id].joined < k.issued {
        assert Listed(q, id);
      }
    }
  }

  // --------------------------------------------------- outside flush_end_io

  lemma EnterLists(q: Queue, x: RqId, next: Step, error: int, now: int, i: nat)
    requires Shape(q) && x in q.rqs && i < 2 && x !in q.lists[i]
    ensures var e := Enter(q, x, next, error, now);
            e.lists[i] == if i == q.p && (next == Pre || next == Post) then q.lists[i] + [x] else q.lists[i]
  {
    WithoutMembers(q.lists[i], x);
  }

  // A running flush's list is frozen by every other step.
  lemma CompleteBuffers(q: Queue, x: RqId, steps: Steps, error: int, now: int)
    requires Shape(q) && x in q.rqs
    requires q.p == q.r ==> q.lists[1 - q.p] == []
    requires q.p != q.r ==> q.lists[q.r] != [] && x !in q.lists[q.r]
    ensures var c := CompleteSeq(q, x, steps, error, now);
            BuffersOk(c) && (q.p != q.r ==> c.p == q.p && c.r == q.r && c.lists[q.r] == q.lists[q.r])
  {
    var m := Mark(q, x, steps);
    EnterRecord(m, x, NextStep(m, x, error), error, now);
    EnterLists(m, x, NextStep(m, x, error), error, now, if q.p == q.r then 1 - q.p else q.r);
  }

  lemma CompleteJoined(q: Queue, x: RqId, steps: Steps, error: int, now: int)
    requires Shape(q) && x in q.rqs && JoinedOk(q) && q.rqs[x].joined <= q.issued
    requires q.p != q.r ==> x !in q.lists[q.r]
    ensures JoinedOk(CompleteSeq(q, x, steps, error, now))
  {
    var m := Mark(q, x, steps);
    forall id | id in m.rqs && Listed(m, id) ensures m.rqs[id].joined <= m.issued { assert Listed(q, id); }
    EnterJoined(m, x, NextStep(m, x, error), error, now);
    KickJoined(Enter(m, x, NextStep(m, x, error), error, now), now);
  }

  // What is known when blk_flush_complete_seq is entered for x.
  ghost predicate CompleteReady(q: Queue, x: RqId, steps: Steps) {
    && Shape(q) && x in q.rqs && q.rqs[x].live && q.rqs[x].joined <= q.issued
    && PlacedBut(q, x) && LocalAll(Mark(q, x, steps)) && EndedAll(q) && PlainsOk(q) && ItemsBut(q, x)
    && JoinedOk(q) && !InFlight(q, PlainItem(x))
  }

  lemma CompleteKeeps(q: Queue, x: RqId, steps: Steps, error: int, now: int)
    requires CompleteReady(q, x, steps)
    requires q.p == q.r ==> q.lists[1 - q.p] == []
    requires q.p != q.r ==> q.lists[q.r] != [] && x !in q.lists[q.r]
    ensures QInv(CompleteSeq(q, x, steps, error, now))
  {
    CompletePlaces(q, x, steps, error, now);
    CompleteLocal(q, x, steps, error, now);
    assert LocalOk(q.caps, x, Mark(q, x, steps).rqs[x]);
    CompleteEnded(q, x, steps, error, now);
    CompletePlains(q, x, steps, error, now);
    CompleteItems(q, x, steps, error, now);
    CompleteBuffers(q, x, steps, error, now);
    CompleteJoined(q, x, steps, error, now);
  }

  // ---------------------------------------------------- inside flush_end_io

  // While the list w is walked, with ids still to come: the next flush may
  // already be in flight, and then w is the pending list again.
  ghost predicate WalkInv(q: Queue, w: nat, ids: seq<RqId>) {
    && Shape(q) && PlacedAll(q) && LocalAll(q) && EndedAll(q) && PlainsOk(q) && ItemsOk(q) && JoinedOk(q)
    && w < 2 && q.r == 1 - w && q.lists[w] == ids
    && (q.p != q.r ==> q.lists[q.r] != [])
  }

  // A request leaving its flush step goes on to its data or is done: it never
  // rejoins a list during the walk.
  lemma WalkedStep(q: Queue, w: nat, ids: seq<RqId>, x: RqId, error: int)
    requires WalkInv(q, w, ids) && x in ids
    ensures x in q.rqs && q.rqs[x].live && x !in q.data && x !in q.lists[1 - w]
    ensures var cur := CurSeq(q.rqs[x].done);
            && (cur == Pre || cur == Post)
            && var next := NextStep(Mark(q, x, Only(cur)), x, error); next == Data || next == Done
  {
    assert Listed(q, x);
    assert Placed(q, x) && LocalOk(q.caps, x, q.rqs[x]);
  }

  lemma WalkReady(q: Queue, w: nat, ids: seq<RqId>, x: RqId)
    requires WalkInv(q, w, ids) && x in ids
    ensures CompleteReady(q, x, Only(CurSeq(q.rqs[x].done)))
  {
    WalkedStep(q, w, ids, x, 0);
    var m := Mark(q, x, Only(CurSeq(q.rqs[x].done)));
    assert LocalOk(q.caps, x, q.rqs[x]);
    forall id | id in m.rqs ensures LocalOk(m.caps, id, m.rqs[id]) {
      assert LocalOk(q.caps, id, q.rqs[id]);
    }
    assert Listed(q, x);
  }

  lemma WalkUnique(q: Queue, w: nat, ids: seq<RqId>)
    requires WalkInv(q, w, ids)
    ensures NoDup(ids) && NoDup(q.lists[1 - w])
  {
  }

  lemma WalkLists(q: Queue, w: nat, ids: seq<RqId>, error: int, now: int)
    requires WalkInv(q, w, ids) && ids != []
    ensures var c := CompleteSeq(q, ids[0], Only(CurSeq(q.rqs[ids[0]].done)), error, now);
            && c.lists[w] == ids[1..] && c.lists[1 - w] == q.lists[1 - w] && c.r == q.r
            && (c.p != c.r ==> c.lists[c.r] != [])
            && (c.p == c.r && c.lists[c.p] != [] ==> c.data != [])
  {
    hide PlacedAll, LocalAll, EndedAll, PlainsOk, ItemsOk, JoinedOk, Without, NoDup;
    var x := ids[0];
    WalkedStep(q, w, ids, x, error);
    WalkUnique(q, w, ids);
    var m := Mark(q, x, Only(CurSeq(q.rqs[x].done)));
    var e := Enter(m, x, NextStep(m, x, error), error, now);
    EnterRecord(m, x, NextStep(m, x, error), error, now);
    WithoutFirst(ids);
    WithoutMembers(q.lists[1 - w], x);
    assert e.lists[w] == ids[1..] && e.lists[1 - w] == q.lists[1 - w];
    KickRecord(e, now);
  }

  lemma LocalOf(q: Queue, x: RqId)
    requires LocalAll(q) && x in q.rqs
    ensures LocalOk(q.caps, x, q.rqs[x])
  {
  }

  lemma WalkStepKeeps(q: Queue, w: nat, ids: seq<RqId>, error: int, now: int)
    requires WalkInv(q, w, ids) && ids != []
    ensures var c := CompleteSeq(q, ids[0], Only(CurSeq(q.rqs[ids[0]].done)), error, now);
            WalkInv(c, w, ids[1..]) && (c.p == c.r && c.lists[c.p] != [] ==> c.data != [])
  {
    hide PlacedAll, PlacedBut, LocalAll, EndedAll, PlainsOk, ItemsOk, ItemsBut, JoinedOk, InFlight, PayloadOk,
         CompleteSeq;
    var x := ids[0];
    WalkedStep(q, w, ids, x, error);
    var steps := Only(CurSeq(q.rqs[x].done));
    WalkReady(q, w, ids, x);
    CompletePlaces(q, x, steps, error, now);
    CompleteLocal(q, x, steps, error, now);
    LocalOf(Mark(q, x, steps), x);
    CompleteEnded(q, x, steps, error, now);
    CompletePlains(q, x, steps, error, now);
    CompleteItems(q, x, steps, error, now);
    CompleteJoined(q, x, steps, error, now);
    WalkLists(q, w, ids, error, now);
  }

  // No BUG_ON fires during the walk.
  ghost predicate WalkSafe(q: Queue, ids: seq<RqId>, error: int, now: int)
    requires Shape(q) && forall id <- ids :: id in q.rqs
    decreases |ids|
  {
    ids == [] ||
      var cur := CurSeq(q.rqs[ids[0]].done);
      && (cur == Pre || cur == Post) && SeqOk(q, ids[0], Only(cur), error)
      && WalkSafe(CompleteSeq(q, ids[0], Only(cur), error, now), ids[1..], error, now)
  }

  lemma {:induction false} WalkKeeps(q: Queue, w: nat, ids: seq<RqId>, error: int, now: int)
    requires WalkInv(q, w, ids)
    requires forall id <- ids :: id in q.rqs
    requires ids == [] ==> (q.p == q.r && q.lists[q.p] != [] ==> q.data != [])
    ensures QInv(Walk(q, ids, error, now)) && WalkSafe(q, ids, error, now)
    decreases |ids|
  {
    if ids != [] {
      var x := ids[0];
      var cur := CurSeq(q.rqs[x].done);
      WalkedStep(q, w, ids, x, error);
      WalkReady(q, w, ids, x);
      CompleteItems(q, x, Only(cur), error, now);
      WalkStepKeeps(q, w, ids, error, now);
      WalkKeeps(CompleteSeq(q, x, Only(cur), error, now), w, ids[1..], error, now);
    }
  }

  // --------------------------------------------------------------- the steps

  lemma FlushEndStart(q: Queue)
    requires QInv(q) && FlushItem in q.driver
    ensures q.p != q.r
    ensures WalkInv(AfterFlush(q), q.r, q.lists[q.r])
    ensures q.lists[q.r] != [] && forall id <- q.lists[q.r] :: id in q.rqs
  {
    assert InFlight(q, FlushItem);
    var q1 := AfterFlush(q);
    forall i ensures InFlight(q1, i) <==> InFlight(q, i) && i != FlushItem {}
    forall id | Listed(q1, id) ensures id in q1.rqs { assert Listed(q, id); }
    forall id | id in q1.rqs ensures Placed(q1, id) && EndedOk(q1, id) { assert Placed(q, id) && EndedOk(q, id); }
    forall id | id in q1.rqs && Listed(q1, id) ensures q1.rqs[id].joined <= q1.issued { assert Listed(q, id); }
    forall id | id in q.lists[q.r] ensures id in q.rqs { assert Listed(q, id); }
  }

  // flush_end_io keeps the invariant and fires no BUG_ON.
  lemma FlushEndKeeps(q: Queue, error: int, now: int)
    requires QInv(q) && FlushItem in q.driver
    ensures q.p != q.r && forall id <- q.lists[q.r] :: id in q.rqs
    ensures QInv(FlushEndIo(q, error, now))
    ensures WalkSafe(AfterFlush(q), q.lists[q.r], error, now)
  {
    FlushEndStart(q);
    WalkKeeps(AfterFlush(q), q.r, q.lists[q.r], error, now);
  }

  lemma DataInFlight(q: Queue, id: RqId)
    requires QInv(q) && DataItem(id) in q.driver
    ensures id in q.rqs && id in q.data && q.rqs[id].live && CurSeq(q.rqs[id].done) == Data
    ensures var r := q.rqs[id]; r.rq.bios == [r.tail] && DataBio(r.tail) && r.rq.dataLen == r.tail.size && r.rq.flushSeq
    ensures id !in q.lists[0] && id !in q.lists[1] && DataItem(id) !in q.head && q.rqs[id].joined <= q.issued
  {
    assert InFlight(q, DataItem(id));
    assert Listed(q, id);
    assert Placed(q, id) && LocalOk(q.caps, id, q.rqs[id]);
  }

  lemma AfterDataRecord(q: Queue, id: RqId, error: int)
    requires QInv(q) && DataItem(id) in q.driver
    ensures id in q.rqs
    ensures var a := AfterData(q, id, error); var r := q.rqs[id];
            && a.rqs == q.rqs[id := r.(rq := r.rq.(bios := [], dataLen := 0),
                                       tail := EndBytes(r.tail, r.tail.size, error))]
            && a.log == q.log
  {
    DataInFlight(q, id);
    SequencedDataSilent(q.lim, q.rqs[id].rq, error);
  }

  lemma AfterDataReady(q: Queue, id: RqId, error: int)
    requires QInv(q) && DataItem(id) in q.driver && id in q.rqs
    ensures CompleteReady(AfterData(q, id, error), id, Only(Data))
  {
    var a := AfterData(q, id, error);
    DataInFlight(q, id);
    AfterDataRecord(q, id, error);
    forall i ensures InFlight(a, i) <==> InFlight(q, i) && i != DataItem(id) {}
    forall x | Listed(a, x) ensures x in a.rqs { assert Listed(q, x); }
    forall x | x in a.rqs && x != id ensures Placed(a, x) { assert Placed(q, x); }
    forall x | x in a.rqs ensures EndedOk(a, x) { assert EndedOk(q, x); }
    forall x | x in a.rqs && Listed(a, x) ensures a.rqs[x].joined <= a.issued { assert Listed(q, x); }
    var m := Mark(a, id, Only(Data));
    forall x | x in m.rqs ensures LocalOk(m.caps, x, m.rqs[x]) { assert LocalOk(q.caps, x, q.rqs[x]); }
  }

  // flush_data_end_io keeps the invariant, fires no BUG_ON and leaves a running
  // flush's list alone.
  lemma DataEndKeeps(q: Queue, id: RqId, error: int, now: int)
    requires QInv(q) && DataItem(id) in q.driver
    ensures id in q.rqs
    ensures QInv(DataEndIo(q, id, error, now)) && SeqOk(AfterData(q, id, error), id, Only(Data), error)
    ensures q.p != q.r ==> DataEndIo(q, id, error, now).lists[q.r] == q.lists[q.r]
  {
    DataInFlight(q, id);
    var a := AfterData(q, id, error);
    assert CompleteReady(a, id, Only(Data)) by { AfterDataReady(q, id, error); }
    AfterDataLists(q, id, error);
    ReadySteps(a, id, Only(Data), error, now);
  }

  lemma AfterDataLists(q: Queue, id: RqId, error: int)
    requires QInv(q) && DataItem(id) in q.driver && id in q.rqs
    ensures var a := AfterData(q, id, error);
            && a.lists == q.lists && a.p == q.p && a.r == q.r && !Overlap(a.rqs[id].done, Only(Data))
            && (q.p == q.r ==> q.lists[1 - q.p] == [])
            && (q.p != q.r ==> q.lists[q.r] != [] && id !in q.lists[q.r])
  {
    DataInFlight(q, id);
    AfterDataRecord(q, id, error);
  }

  // A request that is ready takes its step safely.
  lemma ReadySteps(a: Queue, x: RqId, steps: Steps, error: int, now: int)
    requires CompleteReady(a, x, steps) && !Overlap(a.rqs[x].done, steps)
    requires a.p == a.r ==> a.lists[1 - a.p] == []
    requires a.p != a.r ==> a.lists[a.r] != [] && x !in a.lists[a.r]
    ensures QInv(CompleteSeq(a, x, steps, error, now)) && SeqOk(a, x, steps, error)
    ensures a.p != a.r ==> CompleteSeq(a, x, steps, error, now).lists[a.r] == a.lists[a.r]
  {
    assert QInv(CompleteSeq(a, x, steps, error, now)) by { CompleteKeeps(a, x, steps, error, now); }
    assert SeqOk(a, x, steps, error) by { CompleteItems(a, x, steps, error, now); }
    CompleteBuffers(a, x, steps, error, now);
  }

  // ------------------------------------------------------------- submissions

  // A request as it reaches blk_insert_flush: one bio, which carries whole
  // sectors or nothing.
  ghost predicate Submittable(id: RqId, rq: Request) {
    && |rq.bios| == 1 && !rq.flushSeq && rq.bios[0].id == id
    && rq.dataLen == rq.bios[0].size && rq.dataLen % SECTOR == 0
    && (rq.dataLen > 0 ==> DataBio(rq.bios[0]))
  }

  // The file's own rule: a flush before and a flush after only make sense with
  // data in between.
  ghost predicate PolicyMakesSense(p: Steps) { !(p.pre && p.post && !p.data) }

  function Inserted(q: Queue, id: RqId, r: FlushRq): Queue {
    q.(rqs := q.rqs[id := r])
  }

  lemma InsertedReady(q: Queue, id: RqId, flush: bool, fua: bool, rq: Request)
    requires QInv(q) && id !in q.rqs && Submittable(id, rq)
    requires var p := Policy(q.caps, flush, fua, rq.dataLen); PolicyMakesSense(p)
    ensures var r := NewRq(q, flush, fua, rq);
            CompleteReady(Inserted(q, id, r.(live := true, rq := rq.(flushSeq := true))), id, Not(r.policy))
  {
    hide PlacedAll, PlacedBut, LocalAll, EndedAll, PlainsOk, ItemsOk, ItemsBut, JoinedOk, BuffersOk, InFlight;
    var r := NewRq(q, flush, fua, rq).(live := true, rq := rq.(flushSeq := true));
    InsertedPlaces(q, id, r);
    InsertedItems(q, id, r);
    InsertedLocal(q, id, flush, fua, rq);
  }

  lemma InsertedPlaces(q: Queue, id: RqId, r: FlushRq)
    requires Shape(q) && PlacedAll(q) && JoinedOk(q) && id !in q.rqs
    ensures var a := Inserted(q, id, r); PlacedBut(a, id) && JoinedOk(a)
  {
    var a := Inserted(q, id, r);
    assert !Listed(q, id);
    forall x | Listed(a, x) ensures x in a.rqs { assert Listed(q, x); }
    forall x | x in a.rqs && x != id ensures Placed(a, x) { assert Placed(q, x); }
    forall x | x in a.rqs && Listed(a, x) ensures a.rqs[x].joined <= a.issued { assert Listed(q, x); }
  }

  lemma InsertedItems(q: Queue, id: RqId, r: FlushRq)
    requires Shape(q) && PlacedAll(q) && ItemsOk(q) && EndedAll(q) && PlainsOk(q) && id !in q.rqs && r.live
    ensures var a := Inserted(q, id, r); EndedAll(a) && PlainsOk(a) && ItemsBut(a, id) && !InFlight(a, PlainItem(id))
  {
    var a := Inserted(q, id, r);
    assert !Listed(q, id);
    hide PlacedAll;
    forall i ensures InFlight(a, i) == InFlight(q, i) {}
    assert !InFlight(q, PlainItem(id));
    forall x | x in a.rqs ensures EndedOk(a, x) { if x != id { assert EndedOk(q, x); } }
  }

  lemma InsertedLocal(q: Queue, id: RqId, flush: bool, fua: bool, rq: Request)
    requires LocalAll(q) && id !in q.rqs && Submittable(id, rq)
    requires PolicyMakesSense(Policy(q.caps, flush, fua, rq.dataLen))
    ensures var r := NewRq(q, flush, fua, rq);
            LocalAll(Mark(Inserted(q, id, r.(live := true, rq := rq.(flushSeq := true))), id, Not(r.policy)))
  {
    var r := NewRq(q, flush, fua, rq).(live := true, rq := rq.(flushSeq := true));
    var m := Mark(Inserted(q, id, r), id, Not(r.policy));
    forall x | x in m.rqs ensures LocalOk(m.caps, x, m.rqs[x]) {
      if x != id { assert LocalOk(q.caps, x, q.rqs[x]); }
    }
  }

  // Touching one record, without moving its request, keeps all places.
  lemma PlacesKept(q: Queue, a: Queue, id: RqId)
    requires QInv(q) && id in a.rqs && a.rqs == q.rqs[id := a.rqs[id]] && LocalOk(q.caps, id, a.rqs[id])
    requires a.lists == q.lists && a.data == q.data && a.p == q.p && a.r == q.r && a.issued == q.issued
             && a.caps == q.caps
    requires if id in q.rqs then
               var r, r' := q.rqs[id], a.rqs[id];
               r'.live == r.live && r'.done == r.done && r'.joined == r.joined
             else !a.rqs[id].live
    ensures Shape(a) && PlacedAll(a) && BuffersOk(a) && JoinedOk(a) && LocalAll(a)
  {
    forall x | Listed(a, x) ensures x in a.rqs { assert Listed(q, x); }
    forall x | x in a.rqs ensures Placed(a, x) && LocalOk(a.caps, x, a.rqs[x]) {
      if x in q.rqs { assert Placed(q, x) && LocalOk(q.caps, x, q.rqs[x]); }
    }
    forall x | x in a.rqs && Listed(a, x) ensures a.rqs[x].joined <= a.issued { assert Listed(q, x); }
  }

  // A request that skips the machinery and is finished at once ...
  lemma FinishedKeeps(q: Queue, id: RqId, r: FlushRq, e: Ending)
    requires QInv(q) && id !in q.rqs && LocalOk(q.caps, id, r) && !r.live && e.id == id
    ensures QInv(Inserted(q, id, r).(log := q.log + [e]))
  {
    var a := Inserted(q, id, r).(log := q.log + [e]);
    assert !Listed(q, id);
    assert !InFlight(q, PlainItem(id));
    forall i ensures InFlight(a, i) <==> InFlight(q, i) {}
    forall x ensures Count(a.log, x) == Count(q.log, x) + (if x == id then 1 else 0) {}
    PlacesKept(q, a, id);
    forall x | x in a.rqs ensures EndedOk(a, x) { if x != id { assert EndedOk(q, x); } }
  }

  // ... or queued as a normal request.
  lemma QueuedKeeps(q: Queue, id: RqId, r: FlushRq)
    requires QInv(q) && id !in q.rqs && LocalOk(q.caps, id, r) && !r.live
    requires !r.rq.flushSeq && r.rq.bios == [r.tail] && r.rq.dataLen == r.tail.size
    requires !r.policy.pre && !r.policy.post && (r.tail.size > 0 ==> DataBio(r.tail))
    ensures QInv(Inserted(q, id, r).(head := q.head + [PlainItem(id)]))
  {
    var a := Inserted(q, id, r).(head := q.head + [PlainItem(id)]);
    assert !Listed(q, id);
    assert !InFlight(q, PlainItem(id));
    AppendNoDup(q.head, PlainItem(id));
    forall i ensures InFlight(a, i) <==> InFlight(q, i) || i == PlainItem(id) {}
    PlacesKept(q, a, id);
    forall x | x in a.rqs ensures EndedOk(a, x) { if x != id { assert EndedOk(q, x); } }
  }

  // blk_insert_flush keeps the invariant, whichever way it takes.
  lemma InsertKeeps(q: Queue, id: RqId, flush: bool, fua: bool, rq: Request, now: int)
    requires QInv(q) && id !in q.rqs && Submittable(id, rq)
    requires PolicyMakesSense(Policy(q.caps, flush, fua, rq.dataLen))
    ensures QInv(InsertFlush(q, id, flush, fua, rq, now))
    ensures q.p != q.r ==> InsertFlush(q, id, flush, fua, rq, now).lists[q.r] == q.lists[q.r]
  {
    hide QInv, CompleteReady, CompleteSeq, BuffersOk, PayloadOk;
    var r := NewRq(q, flush, fua, rq);
    Unlisted(q, id);
    if r.policy == Steps(false, false, false) {
      EmptyEnds(q, id, flush, fua, rq);
      var u := Update(q.lim, rq, 0, 0);
      FinishedKeeps(q, id, r.(rq := u.rq), u.ended[0]);
    } else if r.policy == Steps(false, true, false) {
      PlainLocal(q, id, flush, fua, rq);
      QueuedKeeps(q, id, r);
    } else {
      InsertedReady(q, id, flush, fua, rq);
      var a := Inserted(q, id, r.(live := true, rq := rq.(flushSeq := true)));
      CompleteKeeps(a, id, Not(r.policy), 0, now);
      CompleteBuffers(a, id, Not(r.policy), 0, now);
    }
  }

  lemma Unlisted(q: Queue, id: RqId)
    requires QInv(q) && id !in q.rqs
    ensures Shape(q) && id !in q.lists[0] && id !in q.lists[1]
    ensures (q.p == q.r ==> q.lists[1 - q.p] == []) && (q.p != q.r ==> q.lists[q.r] != [])
  {
    assert !Listed(q, id);
  }

  // An empty request that needs no flush is ended at once.
  lemma EmptyEnds(q: Queue, id: RqId, flush: bool, fua: bool, rq: Request)
    requires Submittable(id, rq) && Policy(q.caps, flush, fua, rq.dataLen) == Steps(false, false, false)
    ensures var u := Update(q.lim, rq, 0, 0);
            |u.ended| == 1 && u.ended[0].id == id && LocalOk(q.caps, id, NewRq(q, flush, fua, rq).(rq := u.rq))
  {
  }

  lemma PlainLocal(q: Queue, id: RqId, flush: bool, fua: bool, rq: Request)
    requires Submittable(id, rq)
    ensures LocalOk(q.caps, id, NewRq(q, flush, fua, rq))
  {
  }

  lemma PlainInsertKeeps(q: Queue, id: RqId, rq: Request)
    requires QInv(q) && id !in q.rqs && Submittable(id, rq)
    ensures QInv(InsertPlain(q, id, rq))
  {
    QueuedKeeps(q, id, NewRq(q, false, false, rq));
  }

  lemma FetchKeeps(q: Queue, i: nat)
    requires QInv(q) && i < |q.head|
    ensures QInv(Fetch(q, i))
  {
    var a := Fetch(q, i);
    assert q.head == q.head[..i] + [q.head[i]] + q.head[i + 1..];
    forall x ensures InFlight(a, x) <==> InFlight(q, x) {}
    forall x | Listed(a, x) ensures x in a.rqs { assert Listed(q, x); }
    forall x | x in a.rqs ensures Placed(a, x) && EndedOk(a, x) { assert Placed(q, x) && EndedOk(q, x); }
    forall x | x in a.rqs && Listed(a, x) ensures a.rqs[x].joined <= a.issued { assert Listed(q, x); }
  }

  // A partial completion trims the bio and ends nothing.
  lemma PartUpdates(lim: Limits, rq: Request, tail: Bio, error: int, n: nat)
    requires rq.bios == [tail] && DataBio(tail) && rq.dataLen == tail.size && n < tail.size
    ensures var u := Update(lim, rq, error, n);
            && u.ended == [] && |u.rq.bios| == 1 && u.rq.flushSeq == rq.flushSeq
            && var b := u.rq.bios[0];
               && DataBio(b) && b.id == tail.id && u.rq.dataLen == b.size
               && b.uptodate == (tail.uptodate && (error == 0 || n == 0))
  {
    UpdateAccounts(lim, rq, error, n);
    var c := Consume(rq.flushSeq, rq.bios, n, error);
    RecalcLike(lim, c.bios);
    assert LikeBio(Update(lim, rq, error, n).rq.bios[0], c.bios[0]);
  }

  // Changing a request's payload only.
  lemma PayloadKeeps(q: Queue, id: RqId, rq: Request, tail: Bio)
    requires QInv(q) && id in q.rqs
    requires LocalOk(q.caps, id, q.rqs[id].(rq := rq, tail := tail))
    requires InFlight(q, PlainItem(id)) ==>
               !rq.flushSeq && rq.bios == [tail] && rq.dataLen == tail.size && DataBio(tail)
    ensures QInv(q.(rqs := q.rqs[id := q.rqs[id].(rq := rq, tail := tail)]))
  {
    var a := q.(rqs := q.rqs[id := q.rqs[id].(rq := rq, tail := tail)]);
    forall i ensures InFlight(a, i) <==> InFlight(q, i) {}
    PlacesKept(q, a, id);
    forall x | x in a.rqs ensures EndedOk(a, x) { assert EndedOk(q, x); }
  }

  // What a started data or plain item tells about its request.
  lemma StartedPayload(q: Queue, id: RqId)
    requires QInv(q) && (DataItem(id) in q.driver || PlainItem(id) in q.driver)
    ensures id in q.rqs
    ensures var r := q.rqs[id];
            && r.tail.id == id && r.rq.bios == [r.tail] && r.rq.dataLen == r.tail.size
            && r.rq.flushSeq == r.live && (r.tail.size > 0 ==> DataBio(r.tail))
            && r.live == (DataItem(id) in q.driver) && (!r.live ==> !r.policy.pre && !r.policy.post)
            && LocalOk(q.caps, id, r) && (InFlight(q, PlainItem(id)) ==> !r.live)
  {
    if DataItem(id) in q.driver {
      DataInFlight(q, id);
    } else {
      assert InFlight(q, PlainItem(id));
    }
    assert LocalOk(q.caps, id, q.rqs[id]);
    assert EndedOk(q, id);
  }

  lemma DataPartKeeps(q: Queue, id: RqId, error: int, n: nat)
    requires QInv(q) && (DataItem(id) in q.driver || PlainItem(id) in q.driver)
    requires id in q.rqs && n < q.rqs[id].rq.dataLen
    ensures QInv(DataPart(q, id, error, n))
  {
    hide QInv, Update, DataBio;
    var r := q.rqs[id];
    StartedPayload(q, id);
    PartUpdates(q.lim, r.rq, r.tail, error, n);
    var u := Update(q.lim, r.rq, error, n);
    if r.live { DataInFlight(q, id); }
    PayloadKeeps(q, id, u.rq, u.rq.bios[0]);
    assert q.log + u.ended == q.log;
  }

  lemma PlainEndKeeps(q: Queue, id: RqId, error: int)
    requires QInv(q) && PlainItem(id) in q.driver
    ensures id in q.rqs && QInv(PlainEndIo(q, id, error))
    ensures PlainEndIo(q, id, error).log ==
              q.log + [Ending(id, if error != 0 then error else if q.rqs[id].tail.uptodate then 0 else -EIO)]
  {
    StartedPayload(q, id);
    PlainEnds(q, id, error);
    hide PlacedAll, LocalAll, EndedAll, JoinedOk, PlainEndIo, Count;
    var a := PlainEndIo(q, id, error);
    assert InFlight(q, PlainItem(id));
    forall i ensures InFlight(a, i) <==> InFlight(q, i) && i != PlainItem(id) {}
    PlacesKept(q, a, id);
    PlainEndedOk(q, id, a);
  }

  // What the completion of an ordinary request changes.
  lemma PlainEnds(q: Queue, id: RqId, error: int)
    requires QInv(q) && PlainItem(id) in q.driver && id in q.rqs
    ensures var a := PlainEndIo(q, id, error);
            var e := Ending(id, if error != 0 then error else if q.rqs[id].tail.uptodate then 0 else -EIO);
            && a == q.(rqs := q.rqs[id := a.rqs[id]], driver := q.driver - {PlainItem(id)}, log := q.log + [e])
            && a.rqs[id] == q.rqs[id].(rq := a.rqs[id].rq) && LocalOk(q.caps, id, a.rqs[id]) && !a.rqs[id].live
  {
    StartedPayload(q, id);
    hide QInv;
  }

  lemma PlainEndedOk(q: Queue, id: RqId, a: Queue)
    requires EndedAll(q) && id in q.rqs && InFlight(q, PlainItem(id)) && !q.rqs[id].live
    requires id in a.rqs && a.rqs == q.rqs[id := a.rqs[id]] && !a.rqs[id].live
    requires |a.log| == |q.log| + 1 && a.log[|q.log|].id == id && a.log[..|q.log|] == q.log
    requires forall i :: InFlight(a, i) <==> InFlight(q, i) && i != PlainItem(id)
    ensures EndedAll(a)
  {
    hide InFlight;
    forall x ensures Count(a.log, x) == Count(q.log, x) + (if x == id then 1 else 0) {}
    forall x | x in a.rqs ensures EndedOk(a, x) { assert EndedOk(q, x); }
  }

  // How a request whose bio is b is ended.
  function Outcome(b: Bio, error: int): Ending {
    Ending(b.id, if error != 0 then error else if b.uptodate then 0 else -EIO)
  }

  lemma EnterGoes(q: Queue, x: RqId, next: Step, error: int, now: int)
    requires Shape(q) && x in q.rqs && q.rqs[x].rq.dataLen == q.rqs[x].tail.size
    ensures var e := Enter(q, x, next, error, now);
            && e.head == (if next == Data then [DataItem(x)] else []) + q.head
            && (if next == Done then !e.rqs[x].live && e.log == q.log + [Outcome(q.rqs[x].tail, error)]
                else e.log == q.log && e.rqs[x].live == q.rqs[x].live)
  {
    hide Without, Update;
    RestoredEnds(q.lim, q.rqs[x].rq, q.rqs[x].tail, error);
    assert [] + q.head == q.head;
  }

  // Where a step leaves the dispatch queue and the request: its data goes to the
  // front, a flush to the back, and a finished or failed request is ended at once.
  lemma StepGoes(q: Queue, x: RqId, steps: Steps, error: int, now: int)
    requires Shape(q) && x in q.rqs && q.rqs[x].rq.dataLen == q.rqs[x].tail.size
    ensures var c := CompleteSeq(q, x, steps, error, now);
            var next := if error != 0 then Done else CurSeq(Or(q.rqs[x].done, steps));
            && (c.issued == q.issued || c.issued == q.issued + 1) && c.rqs[x].devFua == q.rqs[x].devFua
            && c.head == (if next == Data then [DataItem(x)] else []) + q.head +
                         (if c.issued > q.issued then [FlushItem] else [])
            && (if next == Done then !c.rqs[x].live && c.log == q.log + [Outcome(q.rqs[x].tail, error)]
                else c.log == q.log && c.rqs[x].live == q.rqs[x].live)
  {
    hide Enter, Outcome;
    var m := Mark(q, x, steps);
    EnterGoes(m, x, NextStep(m, x, error), error, now);
    EnterRecord(m, x, NextStep(m, x, error), error, now);
  }

  // Where a submission goes.  A device without a cache needs no flush, one with FUA
  // none after the data.  What needs none is queued at the back as it is, or ended if
  // it has no data either; what needs one waits for it, before its data if FLUSH asks
  // so, and else its data goes to the front.
  lemma InsertGoes(q: Queue, id: RqId, flush: bool, fua: bool, rq: Request, now: int)
    requires Shape(q) && Submittable(id, rq)
    ensures var i := InsertFlush(q, id, flush, fua, rq, now);
            var pre, post := q.caps.flush && flush, q.caps.flush && fua && !q.caps.fua;
            var flushed := if i.issued > q.issued then [FlushItem] else [];
            && id in i.rqs && i.rqs[id].devFua == (fua && q.caps.fua) && i.rqs[id].live == (pre || post)
            && (if !pre && !post then
                  && i.lists == q.lists && i.issued == q.issued
                  && i.head == q.head + (if rq.dataLen > 0 then [PlainItem(id)] else [])
                  && i.log == q.log + (if rq.dataLen > 0 then [] else [Outcome(rq.bios[0], 0)])
                else if pre || rq.dataLen == 0 then
                  i.log == q.log && i.head == q.head + flushed
                else i.log == q.log && i.head == [DataItem(id)] + q.head + flushed)
  {
    hide CompleteSeq, Update;
    assert SECTOR == 512;
    var r := NewRq(q, flush, fua, rq);
    if r.policy == Steps(false, false, false) {
      EmptyEnds(q, id, flush, fua, rq);
      EmptyOutcome(q.lim, rq);
    } else if r.policy != Steps(false, true, false) {
      var a := q.(rqs := q.rqs[id := r.(live := true, rq := rq.(flushSeq := true))]);
      StepGoes(a, id, Not(r.policy), 0, now);
      assert [] + q.head == q.head;
    }
  }

  lemma EmptyOutcome(lim: Limits, rq: Request)
    requires |rq.bios| == 1 && !rq.flushSeq && rq.bios[0].size == 0
    ensures Update(lim, rq, 0, 0).ended == [Outcome(rq.bios[0], 0)]
  {
  }
}
