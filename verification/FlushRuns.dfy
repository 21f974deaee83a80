/**
 Whole runs of the flush machinery, from an empty queue: no BUG_ON fires, no
 request is lost or ended twice, and what the submitter of a FLUSH or FUA
 request is told is true of the device.
 */
module FlushRuns {
  import opened BlockTypes
  import opened Completion
  import opened Flush
  import opened FlushProtocol
  import opened FlushDurability

  function Start(flush: bool, fua: bool, lim: Limits, hz: nat): World {
    World(Queue(QueueFlush(flush, fua), lim, hz, [[], []], 0, 0, 0, [], [], {}, 0, map[], []),
          Device({}, {}, {}, map[]))
  }

  lemma StartOk(flush: bool, fua: bool, lim: Limits, hz: nat)
    ensures WInv(Start(flush, fua, lim, hz))
  {
  }

  // ws is what the events es make of the initial world; a step whose links
  // led nowhere would be unconstrained.
  ghost predicate Run(ws: seq<World>, es: seq<Event>) {
    && |ws| == |es| + 1
    && (exists flush, fua, lim, hz :: ws[0] == Start(flush, fua, lim, hz))
    && forall i :: 0 <= i < |es| ==>
         Enabled(ws[i], es[i]) && (Defined(ws[i], es[i]) ==> ws[i + 1] == Next(ws[i], es[i]))
  }

  lemma {:induction false} RunKeeps(ws: seq<World>, es: seq<Event>, n: nat)
    requires Run(ws, es) && n < |ws|
    ensures WInv(ws[n]) && (n < |es| ==> Defined(ws[n], es[n]))
  {
    hide WInv, Defined, Next, Enabled;
    if n == 0 {
      var flush, fua, lim, hz :| ws[0] == Start(flush, fua, lim, hz);
      StartOk(flush, fua, lim, hz);
    } else {
      RunKeeps(ws, es, n - 1);
      NextKeeps(ws[n - 1], es[n - 1]);
    }
    if n < |es| { NextKeeps(ws[n], es[n]); }
  }

  // ---------------------------------------------------------------- BUG_ONs

  // No BUG_ON of blk-flush.c fires at this event.
  ghost predicate Quiet(w: World, e: Event)
    requires Defined(w, e)
  {
    var q := w.q;
    match e
    case Submit(id, flush, fua, rq, _) =>
      var r := NewRq(q, flush, fua, rq);
      r.policy != Steps(false, false, false) ==>
        && |rq.bios| == 1
        && (r.policy.pre || r.policy.post ==>
              SeqOk(Inserted(q, id, r.(live := true, rq := rq.(flushSeq := true))), id, Not(r.policy), 0))
    case FlushDone(error, now) => q.p != q.r && WalkSafe(AfterFlush(q), q.lists[q.r], error, now)
    case DataDone(id, error, _) => SeqOk(AfterData(q, id, error), id, Only(Data), error)
    case _ => true
  }

  lemma SubmitQuiet(q: Queue, id: RqId, flush: bool, fua: bool, rq: Request)
    requires QInv(q) && id !in q.rqs && Submittable(id, rq)
    requires PolicyMakesSense(Policy(q.caps, flush, fua, rq.dataLen))
    ensures var r := NewRq(q, flush, fua, rq);
            SeqOk(Inserted(q, id, r.(live := true, rq := rq.(flushSeq := true))), id, Not(r.policy), 0)
  {
    var r := NewRq(q, flush, fua, rq);
    InsertedReady(q, id, flush, fua, rq);
    CompleteItems(Inserted(q, id, r.(live := true, rq := rq.(flushSeq := true))), id, Not(r.policy), 0, 0);
  }

  lemma EventQuiet(w: World, e: Event)
    requires WInv(w) && Enabled(w, e)
    ensures Defined(w, e) && Quiet(w, e)
  {
    EnabledDefined(w, e);
    match e
    case Submit(id, flush, fua, rq, now) => SubmitQuiet(w.q, id, flush, fua, rq);
    case FlushDone(error, now) => FlushEndKeeps(w.q, error, now);
    case DataDone(id, error, now) => DataEndKeeps(w.q, id, error, now);
    case _ =>
  }

  // ---------------------------------------------------------- nothing is lost

  // When nothing is queued and nothing is with the driver, every request ever
  // submitted has been ended exactly once: no flush is forgotten.
  lemma IdleMeansEnded(q: Queue, id: RqId)
    requires QInv(q) && q.head == [] && q.driver == {} && id in q.rqs
    ensures Count(q.log, id) == 1
  {
    assert Placed(q, id) && EndedOk(q, id);
    assert !InFlight(q, FlushItem) && !InFlight(q, PlainItem(id));
    if q.data != [] { DataStillQueued(q); }
  }

  lemma DataStillQueued(q: Queue)
    requires QInv(q) && q.data != []
    ensures q.head != [] || q.driver != {}
  {
    assert InFlight(q, DataItem(q.data[0]));
  }

  // -------------------------------------------------- what a submission fixes

  ghost predicate SameRq(r: FlushRq, r': FlushRq) {
    r'.flush == r.flush && r'.fua == r.fua && r'.policy == r.policy && r'.rq.write == r.rq.write
  }

  ghost predicate Keeps(q: Queue, q': Queue) {
    forall id <- q.rqs :: id in q'.rqs && SameRq(q.rqs[id], q'.rqs[id])
  }

  lemma CompleteSame(q: Queue, x: RqId, steps: Steps, error: int, now: int)
    requires Shape(q) && x in q.rqs
    ensures Keeps(q, CompleteSeq(q, x, steps, error, now))
  {
    var m := Mark(q, x, steps);
    EnterSame(m, x, NextStep(m, x, error), error, now);
    hide Enter, Update;
    KickRecord(Enter(m, x, NextStep(m, x, error), error, now), now);
  }

  lemma EnterSame(q: Queue, x: RqId, next: Step, error: int, now: int)
    requires Shape(q) && x in q.rqs
    ensures Keeps(q, Enter(q, x, next, error, now))
  {
    EnterRecord(q, x, next, error, now);
    if next == Done {
      UpdateWrite(q.lim, Restored(q.rqs[x].rq, q.rqs[x].tail), error, q.rqs[x].rq.dataLen);
    }
    hide Update;
  }

  lemma UpdateWrite(lim: Limits, rq: Request, error: int, n: nat)
    ensures Update(lim, rq, error, n).rq.write == rq.write
  {
  }

  lemma {:induction false} WalkSame(q: Queue, ids: seq<RqId>, error: int, now: int)
    requires Shape(q) && forall id <- ids :: id in q.rqs
    ensures Keeps(q, Walk(q, ids, error, now))
    decreases |ids|
  {
    if ids != [] {
      var x := ids[0];
      var c := CompleteSeq(q, x, Only(CurSeq(q.rqs[x].done)), error, now);
      CompleteSame(q, x, Only(CurSeq(q.rqs[x].done)), error, now);
      hide CompleteSeq;
      WalkSame(c, ids[1..], error, now);
    }
  }

  lemma InsertSame(q: Queue, id: RqId, flush: bool, fua: bool, rq: Request, now: int)
    requires Shape(q) && id !in q.rqs && rq.bios != []
    ensures Keeps(q, InsertFlush(q, id, flush, fua, rq, now))
  {
    var r := NewRq(q, flush, fua, rq);
    if r.policy != Steps(false, false, false) && r.policy != Steps(false, true, false) {
      var a := q.(rqs := q.rqs[id := r.(live := true, rq := rq.(flushSeq := true))]);
      assert Keeps(a, CompleteSeq(a, id, Not(r.policy), 0, now)) by { CompleteSame(a, id, Not(r.policy), 0, now); }
      hide CompleteSeq;
    }
  }

  lemma DataEndSame(q: Queue, id: RqId, error: int, now: int)
    requires Shape(q) && id in q.rqs
    ensures Keeps(q, DataEndIo(q, id, error, now))
  {
    var r := q.rqs[id];
    UpdateWrite(q.lim, r.rq, error, r.rq.dataLen);
    hide CompleteSeq, Update;
    CompleteSame(AfterData(q, id, error), id, Only(Data), error, now);
  }

  lemma NextSame(w: World, e: Event)
    requires Enabled(w, e) && Defined(w, e)
    ensures Keeps(w.q, Next(w, e).q)
    ensures forall id <- w.q.rqs :: id in w.dev.before ==>
              id in Next(w, e).dev.before && Next(w, e).dev.before[id] == w.dev.before[id]
  {
    var q := w.q;
    hide InsertFlush, Walk, DataEndIo, Update;
    match e
    case Submit(id, flush, fua, rq, now) => InsertSame(q, id, flush, fua, rq, now);
    case FlushDone(error, now) => WalkSame(AfterFlush(q), q.lists[q.r], error, now);
    case DataDone(id, error, now) => DataEndSame(q, id, error, now);
    case Part(id, error, n) => UpdateWrite(q.lim, q.rqs[id].rq, error, n);
    case PlainDone(id, error) => UpdateWrite(q.lim, q.rqs[id].rq, error, q.rqs[id].rq.dataLen);
    case _ =>
  }

  // A request as it was submitted at step i of the run.
  ghost predicate Submitted(w: World, id: RqId, flush: bool, fua: bool, rq: Request, before: set<RqId>) {
    && id in w.q.rqs && id in w.dev.before && w.dev.before[id] == before
    && var r := w.q.rqs[id];
       r.flush == flush && r.fua == fua && r.rq.write == rq.write && r.policy.data == (rq.dataLen / SECTOR != 0)
  }

  lemma JustSubmitted(w: World, id: RqId, flush: bool, fua: bool, rq: Request, now: int)
    requires Enabled(w, Submit(id, flush, fua, rq, now)) && Shape(w.q)
    ensures Submitted(Next(w, Submit(id, flush, fua, rq, now)), id, flush, fua, rq, w.dev.completed)
  {
    hide CompleteSeq, Update;
    var q := w.q;
    var r := NewRq(q, flush, fua, rq);
    UpdateWrite(q.lim, rq, 0, 0);
    if r.policy != Steps(false, false, false) && r.policy != Steps(false, true, false) {
      CompleteSame(q.(rqs := q.rqs[id := r.(live := true, rq := rq.(flushSeq := true))]), id, Not(r.policy), 0, now);
    }
  }

  lemma {:induction false} StaysSubmitted(ws: seq<World>, es: seq<Event>, i: nat, n: nat,
                                          id: RqId, flush: bool, fua: bool, rq: Request, now: int)
    requires Run(ws, es) && i < n < |ws| && es[i] == Submit(id, flush, fua, rq, now)
    ensures Submitted(ws[n], id, flush, fua, rq, ws[i].dev.completed)
    decreases n
  {
    hide WInv, Next;
    RunKeeps(ws, es, n - 1);
    if n == i + 1 {
      JustSubmitted(ws[i], id, flush, fua, rq, now);
    } else {
      StaysSubmitted(ws, es, i, n - 1, id, flush, fua, rq, now);
      NextSame(ws[n - 1], es[n - 1]);
    }
  }

  // ------------------------------------------------------------ the theorems

  // Durability: once the submitter of a FLUSH or FUA request is told of its
  // success, every write completed before the submission is durable (FLUSH),
  // and so is the request's own data (FUA).
  lemma FlushMakesDurable(ws: seq<World>, es: seq<Event>, i: nat, n: nat,
                          id: RqId, flush: bool, fua: bool, rq: Request, now: int)
    requires Run(ws, es) && i < n < |ws| && es[i] == Submit(id, flush, fua, rq, now)
    requires Ending(id, 0) in ws[n].q.log
    ensures flush ==> ws[i].dev.completed <= ws[n].dev.durable
    ensures fua && rq.write && rq.dataLen > 0 ==> id in ws[n].dev.durable
  {
    StaysSubmitted(ws, es, i, n, id, flush, fua, rq, now);
    RunKeeps(ws, es, n);
    hide Next, QInv;
    assert Safe(ws[n].dev, id, ws[n].q.rqs[id]);
    assert Enabled(ws[i], es[i]);
  }

  // Ordering: the data of a FLUSH request is not even queued before the writes
  // completed at its submission are durable.
  lemma FlushBeforeData(ws: seq<World>, es: seq<Event>, i: nat, n: nat,
                        id: RqId, fua: bool, rq: Request, now: int)
    requires Run(ws, es) && i < n < |ws| && es[i] == Submit(id, true, fua, rq, now)
    requires InFlight(ws[n].q, DataItem(id)) || InFlight(ws[n].q, PlainItem(id))
    ensures ws[i].dev.completed <= ws[n].dev.durable
  {
    StaysSubmitted(ws, es, i, n, id, true, fua, rq, now);
    RunKeeps(ws, es, n);
    InFlightFlushed(ws[n], id);
  }

  lemma InFlightFlushed(w: World, id: RqId)
    requires WInv(w) && id in w.q.rqs && w.q.rqs[id].flush
    requires InFlight(w.q, DataItem(id)) || InFlight(w.q, PlainItem(id))
    ensures id in w.dev.before && w.dev.before[id] <= w.dev.durable
  {
    var q := w.q;
    if InFlight(q, DataItem(id)) { assert Listed(q, id); }
    assert Placed(q, id) && LocalOk(q.caps, id, q.rqs[id]);
  }

  // Notification: at most once at any time, exactly once when the queue is
  // idle; and no BUG_ON ever fires.
  lemma RunNotifies(ws: seq<World>, es: seq<Event>, n: nat, id: RqId)
    requires Run(ws, es) && n < |ws|
    ensures Count(ws[n].q.log, id) <= 1
    ensures ws[n].q.head == [] && ws[n].q.driver == {} && id in ws[n].q.rqs ==> Count(ws[n].q.log, id) == 1
    ensures n < |es| ==> Defined(ws[n], es[n]) && Quiet(ws[n], es[n])
  {
    RunKeeps(ws, es, n);
    var q := ws[n].q;
    if n < |es| { EventQuiet(ws[n], es[n]); }
    if id in q.rqs {
      assert EndedOk(q, id);
      if q.head == [] && q.driver == {} { IdleMeansEnded(q, id); }
    }
  }
}
