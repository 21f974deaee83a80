/**
 No flush is put off for long (blk-flush.c): one that is wanted while none is in
 flight waits only for data in flight, and only until five seconds after the
 oldest request joined the pending list.
 */
module FlushTimely {
  import opened BlockTypes
  import opened Completion
  import opened Flush
  import opened FlushProtocol
  import opened FlushDurability
  import opened FlushRuns

  // What a step at time now leaves: a flush that is wanted is in flight, or put off
  // for data and not yet for too long.
  ghost predicate Timely(q: Queue, now: int)
    requires Shape(q)
  {
    q.p == q.r && q.lists[q.p] != [] ==> q.data != [] && now < q.since + 5 * q.hz
  }

  // flush_pending_since is when the oldest pending request joined.
  ghost predicate SinceOk(q: Queue)
    requires Shape(q)
  {
    q.lists[q.p] != [] ==> q.lists[q.p][0] in q.rqs && q.rqs[q.lists[q.p][0]].at == q.since
  }

  lemma CompleteTimely(q: Queue, x: RqId, steps: Steps, error: int, now: int)
    requires Shape(q) && x in q.rqs
    ensures Timely(CompleteSeq(q, x, steps, error, now), now)
  {
    hide Enter;
  }

  lemma {:induction false} WalkTimely(q: Queue, ids: seq<RqId>, error: int, now: int)
    requires Shape(q) && (forall id <- ids :: id in q.rqs) && (ids == [] ==> Timely(q, now))
    ensures Timely(Walk(q, ids, error, now), now)
    decreases |ids|
  {
    hide CompleteSeq, Timely;
    if ids != [] {
      var steps := Only(CurSeq(q.rqs[ids[0]].done));
      CompleteTimely(q, ids[0], steps, error, now);
      WalkTimely(CompleteSeq(q, ids[0], steps, error, now), ids[1..], error, now);
    }
  }

  // ------------------------------------------------- since when a flush waits

  // A step of a request that does not itself wait on the pending list.
  lemma CompleteSince(q: Queue, x: RqId, steps: Steps, error: int, now: int)
    requires Shape(q) && x in q.rqs && SinceOk(q) && x !in q.lists[q.p]
    ensures var c := CompleteSeq(q, x, steps, error, now);
            && (c.p == q.p ==> SinceOk(c)) && (c.p != q.p ==> q.p == q.r && c.lists[c.p] == Without(q.lists[c.p], x))
            && c.r == q.r && c.hz == q.hz
            && (c.p == q.p && q.lists[q.p] != [] ==> c.since == q.since && c.lists[q.p] != [])
  {
    var m := Mark(q, x, steps);
    var e := Enter(m, x, NextStep(m, x, error), error, now);
    WithoutMembers(q.lists[q.p], x);
    EnterSince(m, x, NextStep(m, x, error), error, now);
    hide Enter;
  }

  lemma EnterSince(q: Queue, x: RqId, next: Step, error: int, now: int)
    requires Shape(q) && x in q.rqs && SinceOk(q) && Without(q.lists[q.p], x) == q.lists[q.p] && x !in q.lists[q.p]
    ensures var e := Enter(q, x, next, error, now);
            && SinceOk(e) && e.p == q.p && e.r == q.r && e.hz == q.hz
            && e.lists[1 - q.p] == Without(q.lists[1 - q.p], x)
            && (q.lists[q.p] != [] ==> e.since == q.since && e.lists[q.p] != [])
  {
    hide Without, Update;
  }

  // In the walk the pending list is another one, until a flush is issued from it.
  lemma {:induction false} WalkSince(q: Queue, w: nat, ids: seq<RqId>, error: int, now: int)
    requires WalkInv(q, w, ids) && (forall id <- ids :: id in q.rqs) && (q.p == q.r ==> SinceOk(q))
    requires ids == [] ==> (q.p == q.r && q.lists[q.p] != [] ==> q.data != [])
    ensures SinceOk(Walk(q, ids, error, now)) && Walk(q, ids, error, now).hz == q.hz
    decreases |ids|
  {
    hide SinceOk;
    if ids == [] {
      if q.p != q.r { NoPending(q, w); }
    } else {
      var x := ids[0];
      WalkedStep(q, w, ids, x, error);
      var steps := Only(CurSeq(q.rqs[x].done));
      WalkStepKeeps(q, w, ids, error, now);
      WalkLists(q, w, ids, error, now);
      StepHz(q, x, steps, error, now);
      if q.p == q.r { CompleteSince(q, x, steps, error, now); }
      hide WalkInv, CompleteSeq;
      KeysStay(q, x, steps, error, now, ids[1..]);
      WalkSince(CompleteSeq(q, x, steps, error, now), w, ids[1..], error, now);
    }
  }

  lemma KeysStay(q: Queue, x: RqId, steps: Steps, error: int, now: int, ids: seq<RqId>)
    requires Shape(q) && x in q.rqs && forall id <- ids :: id in q.rqs
    ensures forall id <- ids :: id in CompleteSeq(q, x, steps, error, now).rqs
  {
    hide CompleteSeq;
    forall id | id in ids ensures id in CompleteSeq(q, x, steps, error, now).rqs.Keys {}
  }

  lemma StepHz(q: Queue, x: RqId, steps: Steps, error: int, now: int)
    requires Shape(q) && x in q.rqs
    ensures var c := CompleteSeq(q, x, steps, error, now);
            c.hz == q.hz && c.r == q.r && (q.p != q.r ==> c.p == q.p)
  {
    hide Without, Update;
  }

  lemma NoPending(q: Queue, w: nat)
    requires WalkInv(q, w, []) && q.p != q.r
    ensures SinceOk(q)
  {
    assert q.p == w;
  }

  // ---------------------------------------------------------------- each event

  // The events that complete a step of a sequence.
  predicate Completes(w: World, e: Event)
    requires Shape(w.q)
  {
    match e
    case Submit(id, flush, fua, rq, now) =>
      var p := Policy(w.q.caps, flush, fua, rq.dataLen); p.pre || p.post
    case FlushDone(_, _) => true
    case DataDone(_, _, _) => true
    case _ => false
  }

  function TimeOf(e: Event): int {
    match e
    case Submit(_, _, _, _, now) => now
    case FlushDone(_, now) => now
    case DataDone(_, _, now) => now
    case _ => 0
  }

  lemma NextTimely(w: World, e: Event)
    requires WInv(w) && Enabled(w, e) && Shape(w.q) && Completes(w, e)
    ensures Defined(w, e) && Shape(Next(w, e).q) && Timely(Next(w, e).q, TimeOf(e))
  {
    EnabledDefined(w, e);
    NextKeeps(w, e);
    QueueOk(Next(w, e));
    QueueOk(w);
    match e
    case Submit(id, flush, fua, rq, now) => {
      var r := NewRq(w.q, flush, fua, rq);
      var a := w.q.(rqs := w.q.rqs[id := r.(live := true, rq := rq.(flushSeq := true))]);
      hide WInv, CompleteSeq, Timely;
      CompleteTimely(a, id, Not(r.policy), 0, now);
    }
    case FlushDone(error, now) => {
      RunningListed(w.q);
      hide WInv, Walk, Timely;
      WalkTimely(AfterFlush(w.q), w.q.lists[w.q.r], error, now);
    }
    case DataDone(id, error, now) => {
      hide WInv, CompleteSeq, Timely, Update;
      CompleteTimely(AfterData(w.q, id, error), id, Only(Data), error, now);
    }
  }

  lemma QueueOk(w: World)
    requires WInv(w)
    ensures QInv(w.q) && Shape(w.q)
  {
  }

  lemma RunningListed(q: Queue)
    requires QInv(q) && FlushItem in q.driver
    ensures q.p != q.r && q.lists[q.r] != [] && forall id <- q.lists[q.r] :: id in q.rqs
  {
    FlushEndKeeps(q, 0, 0);
  }

  // Every event keeps track of since when a flush waits.
  lemma NextSince(w: World, e: Event)
    requires WInv(w) && Enabled(w, e) && Shape(w.q) && SinceOk(w.q)
    ensures Defined(w, e) && Shape(Next(w, e).q) && SinceOk(Next(w, e).q) && Next(w, e).q.hz == w.q.hz
  {
    hide WInv, QInv, SinceOk, InsertFlush, FlushEndIo, DataEndIo, Update;
    EnabledDefined(w, e);
    QueueOk(w);
    NextKeeps(w, e);
    QueueOk(Next(w, e));
    match e
    case Submit(id, flush, fua, rq, now) => SubmitSince(w.q, id, flush, fua, rq, now);
    case FlushDone(error, now) => FlushSince(w.q, error, now);
    case DataDone(id, error, now) => DataDoneSince(w.q, id, error, now);
    case SubmitPlain(id, rq) => Unlisted(w.q, id); PlainSince(w.q, InsertPlain(w.q, id, rq), id);
    case Take(i) => PlainSince(w.q, Fetch(w.q, i), 0);
    case PlainDone(id, error) => PlainSince(w.q, PlainEndIo(w.q, id, error), id);
    case Part(id, error, n) => PlainSince(w.q, DataPart(w.q, id, error, n), id);
    case _ =>
  }

  lemma SubmitSince(q: Queue, id: RqId, flush: bool, fua: bool, rq: Request, now: int)
    requires QInv(q) && Shape(q) && SinceOk(q) && id !in q.rqs && rq.bios != []
    ensures var c := InsertFlush(q, id, flush, fua, rq, now); Shape(c) && SinceOk(c) && c.hz == q.hz
  {
    hide QInv, InsertFlush, SinceOk;
    Unlisted(q, id);
    InsertSince(q, id, flush, fua, rq, now);
  }

  lemma FlushSince(q: Queue, error: int, now: int)
    requires QInv(q) && Shape(q) && SinceOk(q) && FlushItem in q.driver && forall id <- q.lists[q.r] :: id in q.rqs
    ensures SinceOk(FlushEndIo(q, error, now)) && FlushEndIo(q, error, now).hz == q.hz
  {
    hide QInv, SinceOk, WalkInv, Walk;
    RunningListed(q);
    FlushEndStarts(q);
    SinceAfter(q);
    WalkSince(AfterFlush(q), q.r, q.lists[q.r], error, now);
  }

  lemma DataDoneSince(q: Queue, id: RqId, error: int, now: int)
    requires QInv(q) && Shape(q) && SinceOk(q) && DataItem(id) in q.driver && id in q.rqs
    ensures SinceOk(DataEndIo(q, id, error, now)) && DataEndIo(q, id, error, now).hz == q.hz
  {
    hide QInv, SinceOk, DataEndIo;
    PendingOther(q, id);
    DataSince(q, id, error, now);
  }

  // What moves no request between lists changes nothing of this.
  lemma PlainSince(q: Queue, c: Queue, x: RqId)
    requires Shape(q) && SinceOk(q) && c.lists == q.lists && c.p == q.p && c.since == q.since
    requires c.rqs == q.rqs || (x in c.rqs && c.rqs == q.rqs[x := c.rqs[x]])
    requires x in q.rqs && x in c.rqs ==> c.rqs[x].at == q.rqs[x].at
    requires c.rqs != q.rqs && x !in q.rqs ==> x !in q.lists[q.p]
    requires Shape(c)
    ensures SinceOk(c)
  {
  }

  lemma SinceAfter(q: Queue)
    requires Shape(q) && SinceOk(q)
    ensures SinceOk(AfterFlush(q))
  {
  }

  lemma FlushEndStarts(q: Queue)
    requires QInv(q) && FlushItem in q.driver && q.p != q.r
    ensures WalkInv(AfterFlush(q), q.r, q.lists[q.r])
  {
    FlushEndStart(q);
  }

  lemma PendingOther(q: Queue, id: RqId)
    requires QInv(q) && DataItem(id) in q.driver
    ensures id !in q.lists[q.p] && (q.p == q.r ==> q.lists[1 - q.p] == [])
  {
    DataInFlight(q, id);
  }

  lemma DataSince(q: Queue, id: RqId, error: int, now: int)
    requires Shape(q) && id in q.rqs && SinceOk(q) && id !in q.lists[q.p] && (q.p == q.r ==> q.lists[1 - q.p] == [])
    ensures Shape(DataEndIo(q, id, error, now)) && SinceOk(DataEndIo(q, id, error, now))
    ensures DataEndIo(q, id, error, now).hz == q.hz
    ensures var c := DataEndIo(q, id, error, now);
            c.p == q.p && q.lists[q.p] != [] ==> c.since == q.since && c.lists[q.p] != [] && c.r == q.r
  {
    hide CompleteSeq, Update;
    var a := AfterData(q, id, error);
    CompleteSince(a, id, Only(Data), error, now);
    assert Without([], id) == [];
  }

  lemma InsertSince(q: Queue, id: RqId, flush: bool, fua: bool, rq: Request, now: int)
    requires Shape(q) && id !in q.rqs && SinceOk(q) && id !in q.lists[q.p] && rq.bios != []
    requires q.p == q.r ==> q.lists[1 - q.p] == []
    ensures var c := InsertFlush(q, id, flush, fua, rq, now); Shape(c) && SinceOk(c) && c.hz == q.hz
  {
    hide CompleteSeq, Update;
    var r := NewRq(q, flush, fua, rq);
    var a := q.(rqs := q.rqs[id := r.(live := true, rq := rq.(flushSeq := true))]);
    CompleteSince(a, id, Not(r.policy), 0, now);
    assert Without([], id) == [];
  }

  // -------------------------------------------------------------- whole runs

  lemma {:induction false} RunSince(ws: seq<World>, es: seq<Event>, n: nat)
    requires Run(ws, es) && n < |ws|
    ensures Shape(ws[n].q) && SinceOk(ws[n].q) && ws[n].q.hz == ws[0].q.hz
  {
    hide WInv, Next, Enabled;
    RunKeeps(ws, es, n);
    QueueOk(ws[n]);
    if n > 0 {
      RunSince(ws, es, n - 1);
      RunKeeps(ws, es, n - 1);
      NextSince(ws[n - 1], es[n - 1]);
    }
  }

  // After every event that completes a step, a flush that is wanted is in flight, or
  // data is and the oldest request waiting for the flush joined less than five
  // seconds before the event.
  lemma FlushNotPutOff(ws: seq<World>, es: seq<Event>, n: nat)
    requires Run(ws, es) && n < |es|
    ensures Shape(ws[n].q) && Shape(ws[n + 1].q)
    ensures var q := ws[n + 1].q;
            Completes(ws[n], es[n]) && q.p == q.r && q.lists[q.p] != [] ==>
              && q.data != [] && q.lists[q.p][0] in q.rqs
              && TimeOf(es[n]) < q.rqs[q.lists[q.p][0]].at + 5 * q.hz
  {
    hide WInv, Next, Enabled, Completes, TimeOf;
    RunSince(ws, es, n);
    RunSince(ws, es, n + 1);
    RunKeeps(ws, es, n);
    if Completes(ws[n], es[n]) { NextTimely(ws[n], es[n]); }
  }

  // So the first data completion five seconds after the oldest request joined finds
  // the flush in flight or issues it.
  lemma OldFlushIssued(ws: seq<World>, es: seq<Event>, n: nat)
    requires Run(ws, es) && n < |es| && es[n].DataDone? && Shape(ws[n].q) && ws[n].q.lists[ws[n].q.p] != []
    requires ws[n].q.lists[ws[n].q.p][0] in ws[n].q.rqs
    requires es[n].now >= ws[n].q.rqs[ws[n].q.lists[ws[n].q.p][0]].at + 5 * ws[n].q.hz
    ensures ws[n + 1].q.p != ws[n + 1].q.r
  {
    hide WInv, QInv, DataEndIo, SinceOk;
    RunSince(ws, es, n);
    RunKeeps(ws, es, n);
    var w, e := ws[n], es[n];
    QueueOk(w);
    NextTimely(w, e);
    PendingOther(w.q, e.id);
    SinceIs(w.q);
    DataSince(w.q, e.id, e.error, e.now);
    DataKicks(w.q, e.id, e.error, e.now);
  }

  lemma SinceIs(q: Queue)
    requires Shape(q) && SinceOk(q) && q.lists[q.p] != []
    ensures q.lists[q.p][0] in q.rqs && q.rqs[q.lists[q.p][0]].at == q.since
  {
  }

  lemma DataKicks(q: Queue, id: RqId, error: int, now: int)
    requires Shape(q) && id in q.rqs
    ensures var c := DataEndIo(q, id, error, now); c.r == q.r && (c.p != q.p ==> c.p != c.r || q.p != q.r)
    ensures q.p != q.r ==> DataEndIo(q, id, error, now).p == q.p
  {
    hide Update, Without;
  }
}
