/**
 The flush fields of a request queue, updated in place as blk-flush.c does.
 Every method is proved against the queue-to-queue function of the same step.
 */
module FlushQueue {
  import opened BlockTypes
  import opened Completion
  import opened Flush
  import opened FlushProtocol

  datatype Link = End | At(id: RqId)

  // list_first_entry and the successor that list_for_each_entry_safe remembers.
  function First(s: seq<RqId>): Link { if s == [] then End else At(s[0]) }

  function After(s: seq<RqId>, id: RqId): Link {
    if s == [] then End else if s[0] == id then First(s[1..]) else After(s[1..], id)
  }

  // One turn of the walk, whose list only loses the request just stepped.
  lemma WalkTurn(q: Queue, w: nat, ids: seq<RqId>, error: int, now: int)
    requires WalkInv(q, w, ids) && ids != [] && (forall id <- ids :: id in q.rqs) && WalkSafe(q, ids, error, now)
    ensures var x := ids[0];
            var steps := Only(CurSeq(q.rqs[x].done));
            var c := CompleteSeq(q, x, steps, error, now);
            && SeqOk(q, x, steps, error) && c.lists[w] == ids[1..] && WalkInv(c, w, ids[1..])
            && (forall id <- ids[1..] :: id in c.rqs)
            && WalkSafe(c, ids[1..], error, now) && Walk(c, ids[1..], error, now) == Walk(q, ids, error, now)
    ensures After(ids, ids[0]) == First(ids[1..])
  {
    WalkStepKeeps(q, w, ids, error, now);
    WalkLists(q, w, ids, error, now);
  }

  class RequestQueue {
    const caps: Caps
    const lim: Limits
    const hz: nat
    var flushQueue: seq<seq<RqId>>
    var pendingIdx: nat
    var runningIdx: nat
    var pendingSince: int
    var dataInFlight: seq<RqId>
    var queueHead: seq<Item>
    var driver: set<Item>
    var issued: nat
    var rqs: map<RqId, FlushRq>
    var log: seq<Ending>
    var delayed: bool               // flush_queue_delayed

    function View(): Queue
      reads this
    {
      Queue(caps, lim, hz, flushQueue, pendingIdx, runningIdx, pendingSince, dataInFlight, queueHead, driver,
            issued, rqs, log)
    }

    constructor (flush: bool, fua: bool, lim: Limits, hz: nat)
      ensures QInv(View()) && rqs == map[] && !delayed
    {
      caps, this.lim, this.hz := QueueFlush(flush, fua), lim, hz;
      flushQueue, pendingIdx, runningIdx, pendingSince := [[], []], 0, 0, 0;
      dataInFlight, queueHead, driver, issued, rqs, log, delayed := [], [], {}, 0, map[], [], false;
    }

    // blk_kick_flush
    method KickFlush(now: int) returns (queued: bool)
      requires Shape(View())
      modifies this
      ensures View() == Kick(old(View()), now) && delayed == old(delayed)
      ensures queued <==> queueHead != old(queueHead)
      ensures |queueHead| == |old(queueHead)| + (if queued then 1 else 0)
    {
      if pendingIdx != runningIdx || flushQueue[pendingIdx] == [] { return false; }
      if dataInFlight != [] && now < pendingSince + FLUSH_PENDING_TIMEOUT_SECS * hz { return false; }
      pendingIdx := 1 - pendingIdx;
      queueHead := queueHead + [FlushItem];
      issued := issued + 1;
      return true;
    }

    // blk_flush_restore_request and __blk_end_request_all
    method EndRequest(id: RqId, error: int)
      requires id in rqs
      modifies this
      ensures View() == EndAll(old(View()), id, error) && delayed == old(delayed)
    {
      var r := rqs[id];
      var u := Update(lim, Restored(r.rq, r.tail), error, r.rq.dataLen);
      rqs := rqs[id := r.(rq := u.rq, live := false)];
      log := log + u.ended;
    }

    // The switch of blk_flush_complete_seq.
    method EnterStep(id: RqId, next: Step, error: int, now: int) returns (queued: bool)
      requires Shape(View()) && id in rqs
      modifies this
      ensures View() == Enter(old(View()), id, next, error, now) && delayed == old(delayed)
      ensures |queueHead| == |old(queueHead)| + (if queued then 1 else 0)
      ensures !queued ==> queueHead == old(queueHead)
    {
      queued := false;
      var pendingEmpty := flushQueue[pendingIdx] == [];
      flushQueue := [Without(flushQueue[0], id), Without(flushQueue[1], id)];
      dataInFlight := Without(dataInFlight, id);
      match next {
      case Data =>
        dataInFlight := dataInFlight + [id];
        queueHead := [DataItem(id)] + queueHead;
        queued := true;
      case Done =>
        EndRequest(id, error);
      case _ =>
        if pendingEmpty { pendingSince := now; }
        flushQueue := flushQueue[pendingIdx := flushQueue[pendingIdx] + [id]];
        rqs := rqs[id := rqs[id].(joined := issued, at := now)];
      }
    }

    // blk_flush_complete_seq, whose result says whether the dispatch queue grew.
    method CompleteStep(id: RqId, steps: Steps, error: int, now: int) returns (queued: bool)
      requires Shape(View()) && id in rqs && SeqOk(View(), id, steps, error)
      modifies this
      ensures View() == CompleteSeq(old(View()), id, steps, error, now) && delayed == old(delayed)
      ensures queued <==> queueHead != old(queueHead)
      ensures |queueHead| >= |old(queueHead)| + (if queued then 1 else 0)
    {
      hide Enter;
      rqs := rqs[id := rqs[id].(done := Or(rqs[id].done, steps))];
      var moved := EnterStep(id, if error == 0 then CurSeq(rqs[id].done) else Done, error, now);
      var kicked := KickFlush(now);
      queued := kicked || moved;
    }

    // flush_end_io: account completion of the flush request ...
    method FlushEnd(error: int, now: int) returns (run: bool)
      requires QInv(View()) && FlushItem in driver
      modifies this
      ensures forall id <- old(flushQueue[runningIdx]) :: id in old(rqs)
      ensures View() == FlushEndIo(old(View()), error, now) && QInv(View()) && !delayed
      ensures run <==> old(delayed) || queueHead != old(queueHead)
    {
      hide QInv, WalkInv, WalkSafe, Walk;
      FlushEndStart(View());
      FlushEndKeeps(View(), error, now);
      runningIdx := 1 - runningIdx;
      driver := driver - {FlushItem};
      var queued := PushWaiting(1 - runningIdx, error, now);
      run := queued || delayed;
      delayed := false;
    }

    // ... and push the waiting requests to the next stage: the list is walked
    // in place, one element ahead.
    method PushWaiting(w: nat, error: int, now: int) returns (queued: bool)
      requires Shape(View()) && w < 2 && WalkInv(View(), w, flushQueue[w])
      requires (forall id <- flushQueue[w] :: id in rqs) && WalkSafe(View(), flushQueue[w], error, now)
      modifies this
      ensures View() == Walk(old(View()), old(flushQueue[w]), error, now) && delayed == old(delayed)
      ensures queued <==> queueHead != old(queueHead)
    {
      hide WalkInv, WalkSafe, CompleteSeq, SeqOk;
      queued := false;
      var cur := First(flushQueue[w]);
      while cur != End
        invariant Shape(View()) && WalkInv(View(), w, flushQueue[w]) && delayed == old(delayed)
        invariant cur == First(flushQueue[w])
        invariant forall id <- flushQueue[w] :: id in rqs
        invariant Walk(View(), flushQueue[w], error, now) == Walk(old(View()), old(flushQueue[w]), error, now)
        invariant WalkSafe(View(), flushQueue[w], error, now)
        invariant |queueHead| >= |old(queueHead)| + (if queued then 1 else 0)
        invariant !queued ==> queueHead == old(queueHead)
        decreases |flushQueue[w]|
      {
        WalkTurn(View(), w, flushQueue[w], error, now);
        var next := After(flushQueue[w], cur.id);
        var more := CompleteStep(cur.id, Only(CurSeq(rqs[cur.id].done)), error, now);
        queued := more || queued;
        cur := next;
      }
    }

    // Completion of a sequenced request's data: blk_update_request ...
    method UpdateData(id: RqId, error: int)
      requires id in rqs
      modifies this
      ensures View() == AfterData(old(View()), id, error) && delayed == old(delayed) && queueHead == old(queueHead)
    {
      var r := rqs[id];
      var u := Update(lim, r.rq, error, r.rq.dataLen);
      rqs := rqs[id := r.(rq := u.rq, tail := EndBytes(r.tail, r.tail.size, error))];
      driver := driver - {DataItem(id)};
      log := log + u.ended;
    }

    // ... then flush_data_end_io.
    method DataEnd(id: RqId, error: int, now: int) returns (run: bool)
      requires QInv(View()) && DataItem(id) in driver
      modifies this
      ensures id in old(rqs)
      ensures View() == DataEndIo(old(View()), id, error, now) && QInv(View()) && delayed == old(delayed)
      ensures run <==> queueHead != old(queueHead)
    {
      hide QInv, CompleteSeq, SeqOk, Update;
      ShapeOf(View());
      DataEndKeeps(View(), id, error, now);
      UpdateData(id, error);
      run := CompleteStep(id, Only(Data), error, now);
    }

    // blk_insert_flush
    method Insert(id: RqId, flush: bool, fua: bool, rq: Request, now: int)
      requires QInv(View()) && id !in rqs && Submittable(id, rq)
      requires PolicyMakesSense(Policy(caps, flush, fua, rq.dataLen))
      modifies this
      ensures View() == InsertFlush(old(View()), id, flush, fua, rq, now) && QInv(View()) && delayed == old(delayed)
      ensures old(pendingIdx != runningIdx) ==> flushQueue[old(runningIdx)] == old(flushQueue[runningIdx])
    {
      hide QInv, CompleteReady, CompleteSeq, Update, SeqOk;
      ghost var q0 := View();
      InsertKeeps(q0, id, flush, fua, rq, now);
      ShapeOf(q0);
      var r := NewRq(View(), flush, fua, rq);
      if r.policy == Steps(false, false, false) {
        var u := Update(lim, rq, 0, 0);
        rqs := rqs[id := r.(rq := u.rq)];
        log := log + u.ended;
      } else if r.policy == Steps(false, true, false) {
        rqs := rqs[id := r];
        queueHead := queueHead + [PlainItem(id)];
      } else {
        InsertedReady(q0, id, flush, fua, rq);
        rqs := rqs[id := r.(live := true, rq := rq.(flushSeq := true))];
        ReadyOk(View(), id, Not(r.policy));
        var _ := CompleteStep(id, Not(r.policy), 0, now);
      }
    }
  }

  lemma ShapeOf(q: Queue)
    requires QInv(q)
    ensures Shape(q)
  {
  }

  // A request ready for its first step, with none done, fires no BUG_ON.
  lemma ReadyOk(q: Queue, id: RqId, steps: Steps)
    requires CompleteReady(q, id, steps) && q.rqs[id].done == Steps(false, false, false)
    ensures Shape(q) && SeqOk(q, id, steps, 0)
  {
    CompleteItems(q, id, steps, 0, 0);
  }
}
