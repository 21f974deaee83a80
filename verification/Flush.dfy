/**
 FLUSH and FUA sequencing (blk-flush.c).  A flagged request goes through up to
 three steps, PREFLUSH, DATA and POSTFLUSH; the flush steps of many requests
 share one device flush, double buffered over two lists.
 */
module Flush {
  import opened BlockTypes
  import opened Completion

  type RqId = nat

  const FLUSH_PENDING_TIMEOUT_SECS: nat := 5

  // A set of steps (a mask over REQ_FSEQ_ACTIONS), and the current one.
  datatype Steps = Steps(pre: bool, data: bool, post: bool)
  datatype Step = Pre | Data | Post | Done

  function Or(a: Steps, b: Steps): Steps {
    Steps(a.pre || b.pre, a.data || b.data, a.post || b.post)
  }

  predicate Overlap(a: Steps, b: Steps) {
    (a.pre && b.pre) || (a.data && b.data) || (a.post && b.post)
  }

  function Not(a: Steps): Steps { Steps(!a.pre, !a.data, !a.post) }

  function Only(s: Step): Steps { Steps(s.Pre?, s.Data?, s.Post?) }

  // blk_flush_cur_seq: the first step not done yet.
  function CurSeq(done: Steps): Step {
    if !done.pre then Pre else if !done.data then Data else if !done.post then Post else Done
  }

  // The queue's cache flush capability; blk_queue_flush never stores FUA alone.
  datatype Caps = Caps(flush: bool, fua: bool)

  function QueueFlush(flush: bool, fua: bool): Caps { Caps(flush, fua && flush) }

  // blk_flush_policy
  function Policy(caps: Caps, flush: bool, fua: bool, dataLen: nat): Steps {
    Steps(caps.flush && flush, dataLen / SECTOR != 0, caps.flush && !caps.fua && fua)
  }

  // What waits on the dispatch queue or sits in the driver.
  datatype Item = FlushItem | DataItem(id: RqId) | PlainItem(id: RqId)

  datatype FlushRq = FlushRq(
    flush: bool,          // REQ_FLUSH and REQ_FUA as submitted
    fua: bool,
    devFua: bool,         // REQ_FUA as the driver sees it
    policy: Steps,
    done: Steps,          // flush.seq: steps done
    live: bool,           // going through the sequence
    joined: nat,          // flushes issued when it was last put on a pending list
    at: int,              // ... and the time
    rq: Request,
    tail: Bio)            // *rq->biotail

  datatype Queue = Queue(
    caps: Caps,
    lim: Limits,
    hz: nat,
    lists: seq<seq<RqId>>,        // flush_queue
    p: nat,                       // flush_pending_idx
    r: nat,                       // flush_running_idx
    since: int,                   // flush_pending_since
    data: seq<RqId>,              // flush_data_in_flight
    head: seq<Item>,              // queue_head
    driver: set<Item>,            // started and not yet completed
    issued: nat,                  // flush requests issued so far
    rqs: map<RqId, FlushRq>,
    log: seq<Ending>)             // bio_endio calls

  function Without(s: seq<RqId>, id: RqId): seq<RqId> {
    if s == [] then [] else if s[0] == id then Without(s[1..], id) else [s[0]] + Without(s[1..], id)
  }

  predicate Shape(q: Queue) { |q.lists| == 2 && q.p < 2 && q.r < 2 }

  // list_del on whichever flush list the request is on.
  function Unlink(q: Queue, id: RqId): Queue
    requires Shape(q)
  {
    q.(lists := [Without(q.lists[0], id), Without(q.lists[1], id)], data := Without(q.data, id))
  }

  // blk_kick_flush
  function Kick(q: Queue, now: int): (k: Queue)
    requires Shape(q)
    ensures Shape(k)
  {
    if q.p != q.r || q.lists[q.p] == [] then q
    else if q.data != [] && now < q.since + FLUSH_PENDING_TIMEOUT_SECS * q.hz then q
    else q.(p := 1 - q.p, head := q.head + [FlushItem], issued := q.issued + 1)
  }

  // blk_flush_restore_request
  function Restored(rq: Request, tail: Bio): Request {
    rq.(bios := [tail], flushSeq := false)
  }

  // ... followed by __blk_end_request_all.
  function EndAll(q: Queue, id: RqId, error: int): Queue
    requires id in q.rqs
  {
    var r := q.rqs[id];
    var u := Update(q.lim, Restored(r.rq, r.tail), error, r.rq.dataLen);
    q.(rqs := q.rqs[id := r.(rq := u.rq, live := false)], log := q.log + u.ended)
  }

  // The switch of blk_flush_complete_seq: where the request goes next.
  function Enter(q: Queue, id: RqId, next: Step, error: int, now: int): (e: Queue)
    requires id in q.rqs && Shape(q)
    ensures Shape(e) && e.rqs.Keys == q.rqs.Keys
  {
    var u := Unlink(q, id);
    match next
    case Pre => Pending(u, id, if q.lists[q.p] == [] then now else q.since, now)
    case Post => Pending(u, id, if q.lists[q.p] == [] then now else q.since, now)
    case Data => u.(data := u.data + [id], head := [DataItem(id)] + q.head)
    case Done => EndAll(u, id, error)
  }

  function Pending(q: Queue, id: RqId, since: int, now: int): Queue
    requires id in q.rqs && Shape(q)
  {
    q.(since := since, lists := q.lists[q.p := q.lists[q.p] + [id]],
       rqs := q.rqs[id := q.rqs[id].(joined := q.issued, at := now)])
  }

  function Mark(q: Queue, id: RqId, steps: Steps): Queue
    requires id in q.rqs
  {
    q.(rqs := q.rqs[id := q.rqs[id].(done := Or(q.rqs[id].done, steps))])
  }

  function NextStep(q: Queue, id: RqId, error: int): Step
    requires id in q.rqs
  {
    if error == 0 then CurSeq(q.rqs[id].done) else Done
  }

  // The BUG_ONs of blk_flush_complete_seq.
  predicate SeqOk(q: Queue, id: RqId, steps: Steps, error: int)
    requires id in q.rqs
  {
    && !Overlap(q.rqs[id].done, steps)
    && (NextStep(Mark(q, id, steps), id, error) == Done ==> DataItem(id) !in q.head)
  }

  // blk_flush_complete_seq
  function CompleteSeq(q: Queue, id: RqId, steps: Steps, error: int, now: int): (c: Queue)
    requires id in q.rqs && Shape(q)
    ensures Shape(c) && c.rqs.Keys == q.rqs.Keys
  {
    var m := Mark(q, id, steps);
    Kick(Enter(m, id, NextStep(m, id, error), error, now), now)
  }

  // The walk of flush_end_io over the requests of the running list.
  function Walk(q: Queue, ids: seq<RqId>, error: int, now: int): (w: Queue)
    requires Shape(q) && forall id <- ids :: id in q.rqs
    ensures Shape(w) && w.rqs.Keys == q.rqs.Keys
    decreases |ids|
  {
    if ids == [] then q
    else Walk(CompleteSeq(q, ids[0], Only(CurSeq(q.rqs[ids[0]].done)), error, now), ids[1..], error, now)
  }

  // flush_end_io: the flush request is accounted as completed ...
  function AfterFlush(q: Queue): Queue
    requires Shape(q)
  {
    q.(r := 1 - q.r, driver := q.driver - {FlushItem})
  }

  // ... and its list is walked.
  function FlushEndIo(q: Queue, error: int, now: int): Queue
    requires Shape(q) && forall id <- q.lists[q.r] :: id in q.rqs
  {
    Walk(AfterFlush(q), q.lists[q.r], error, now)
  }

  // The completion path of a sequenced request's data: blk_update_request ...
  function AfterData(q: Queue, id: RqId, error: int): Queue
    requires id in q.rqs
  {
    var r := q.rqs[id];
    var u := Update(q.lim, r.rq, error, r.rq.dataLen);
    q.(rqs := q.rqs[id := r.(rq := u.rq, tail := EndBytes(r.tail, r.tail.size, error))],
       driver := q.driver - {DataItem(id)}, log := q.log + u.ended)
  }

  // ... then flush_data_end_io.
  function DataEndIo(q: Queue, id: RqId, error: int, now: int): Queue
    requires Shape(q) && id in q.rqs
  {
    CompleteSeq(AfterData(q, id, error), id, Only(Data), error, now)
  }

  // Partial completion of a request's data, sequenced or not.
  function DataPart(q: Queue, id: RqId, error: int, n: nat): Queue
    requires id in q.rqs
  {
    var r := q.rqs[id];
    var u := Update(q.lim, r.rq, error, n);
    q.(rqs := q.rqs[id := r.(rq := u.rq, tail := if u.rq.bios == [] then r.tail else u.rq.bios[0])],
       log := q.log + u.ended)
  }

  // Completion of a request executed as a normal one.
  function PlainEndIo(q: Queue, id: RqId, error: int): Queue
    requires id in q.rqs
  {
    var r := q.rqs[id];
    var u := Update(q.lim, r.rq, error, r.rq.dataLen);
    q.(rqs := q.rqs[id := r.(rq := u.rq)], driver := q.driver - {PlainItem(id)}, log := q.log + u.ended)
  }

  function NewRq(q: Queue, flush: bool, fua: bool, rq: Request): FlushRq
    requires rq.bios != []
  {
    FlushRq(flush, fua, fua && q.caps.fua, Policy(q.caps, flush, fua, rq.dataLen),
            Steps(false, false, false), false, 0, 0, rq, rq.bios[0])
  }

  // blk_insert_flush
  function InsertFlush(q: Queue, id: RqId, flush: bool, fua: bool, rq: Request, now: int): Queue
    requires Shape(q) && rq.bios != []
  {
    var r := NewRq(q, flush, fua, rq);
    if r.policy == Steps(false, false, false) then
      var u := Update(q.lim, rq, 0, 0);
      q.(rqs := q.rqs[id := r.(rq := u.rq)], log := q.log + u.ended)
    else if r.policy == Steps(false, true, false) then
      q.(rqs := q.rqs[id := r], head := q.head + [PlainItem(id)])
    else
      CompleteSeq(q.(rqs := q.rqs[id := r.(live := true, rq := rq.(flushSeq := true))]),
                  id, Not(r.policy), 0, now)
  }

  // An ordinary request, straight to the dispatch queue.
  function InsertPlain(q: Queue, id: RqId, rq: Request): Queue
    requires rq.bios != []
  {
    q.(rqs := q.rqs[id := NewRq(q, false, false, rq)], head := q.head + [PlainItem(id)])
  }

  // The driver takes a request off the dispatch queue.
  function Fetch(q: Queue, i: nat): Queue
    requires i < |q.head|
  {
    q.(head := q.head[..i] + q.head[i + 1..], driver := q.driver + {q.head[i]})
  }
}
