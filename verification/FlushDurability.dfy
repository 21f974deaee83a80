/**
 Durability over whole runs.  The flush machinery drives an abstract device
 with a volatile write cache: a device flush makes durable every write that had
 completed when the flush was issued, a write sent with FUA is durable when it
 completes, and a device without a cache has no undurable writes.
 */
module FlushDurability {
  import opened BlockTypes
  import opened Completion
  import opened Flush
  import opened FlushProtocol

  // The device, and for each request the writes completed at its submission.
  datatype Device = Device(
    completed: set<RqId>,
    durable: set<RqId>,
    snapshot: set<RqId>,              // completed when the running flush was issued
    before: map<RqId, set<RqId>>)

  datatype World = World(q: Queue, dev: Device)

  datatype Event =
    | Submit(id: RqId, flush: bool, fua: bool, rq: Request, now: int)
    | SubmitPlain(id: RqId, rq: Request)
    | Take(i: nat)
    | FlushDone(error: int, now: int)
    | DataDone(id: RqId, error: int, now: int)
    | PlainDone(id: RqId, error: int)
    | Part(id: RqId, error: int, n: nat)
    | Settle(ids: set<RqId>)          // the device empties some of its cache unasked

  ghost predicate Enabled(w: World, e: Event) {
    match e
    case Submit(id, flush, fua, rq, _) =>
      id !in w.q.rqs && Submittable(id, rq) && PolicyMakesSense(Policy(w.q.caps, flush, fua, rq.dataLen))
    case SubmitPlain(id, rq) => id !in w.q.rqs && Submittable(id, rq)
    case Take(i) => i < |w.q.head|
    case FlushDone(_, _) => FlushItem in w.q.driver
    case DataDone(id, _, _) => DataItem(id) in w.q.driver
    case PlainDone(id, _) => PlainItem(id) in w.q.driver
    case Part(id, _, n) =>
      (DataItem(id) in w.q.driver || PlainItem(id) in w.q.driver)
      && id in w.q.rqs && n < w.q.rqs[id].rq.dataLen
    case Settle(ids) => ids <= w.dev.completed
  }

  predicate IsWrite(r: FlushRq) { r.policy.data && r.rq.write }

  // A request's data has been executed; whether all of it succeeded shows in
  // the bio.
  function Written(caps: Caps, d: Device, id: RqId, r: FlushRq, error: int): Device {
    if error != 0 || !r.tail.uptodate || !IsWrite(r) then d
    else d.(completed := d.completed + {id},
            durable := if r.devFua || !caps.flush then d.durable + {id} else d.durable)
  }

  // The device takes note of a newly issued flush.
  function Noted(d: Device, q: Queue, q': Queue): Device {
    if q'.issued == q.issued then d else d.(snapshot := d.completed)
  }

  // A device flush has ended.
  function Settled(d: Device, error: int): Device {
    if error == 0 then d.(durable := d.durable + d.snapshot) else d
  }

  // The links the code follows lead to requests.
  predicate Defined(w: World, e: Event) {
    && Shape(w.q)
    && (match e
        case Submit(_, _, _, rq, _) => rq.bios != []
        case SubmitPlain(_, rq) => rq.bios != []
        case Take(i) => i < |w.q.head|
        case FlushDone(_, _) => forall id <- w.q.lists[w.q.r] :: id in w.q.rqs
        case DataDone(id, _, _) => id in w.q.rqs
        case PlainDone(id, _) => id in w.q.rqs
        case Part(id, _, _) => id in w.q.rqs
        case Settle(_) => true)
  }

  function Next(w: World, e: Event): World
    requires Defined(w, e)
  {
    var q, d := w.q, w.dev;
    match e
    case Submit(id, flush, fua, rq, now) =>
      var q' := InsertFlush(q, id, flush, fua, rq, now);
      World(q', Noted(Registered(d, id), q, q'))
    case SubmitPlain(id, rq) => World(InsertPlain(q, id, rq), Registered(d, id))
    case Take(i) => World(Fetch(q, i), d)
    case FlushDone(error, now) =>
      var q' := FlushEndIo(q, error, now);
      World(q', Noted(Settled(d, error), q, q'))
    case DataDone(id, error, now) =>
      var q' := DataEndIo(q, id, error, now);
      World(q', Noted(Written(q.caps, d, id, q.rqs[id], error), q, q'))
    case PlainDone(id, error) => World(PlainEndIo(q, id, error), Written(q.caps, d, id, q.rqs[id], error))
    case Part(id, error, n) => World(DataPart(q, id, error, n), d)
    case Settle(ids) => World(q, d.(durable := d.durable + ids))
  }

  // A submission is remembered with the writes completed before it.
  function Registered(d: Device, id: RqId): Device {
    d.(before := d.before[id := d.completed])
  }

  // ------------------------------------------------------ what is guaranteed

  // What a successful request may rely on once its submitter is told.
  ghost predicate Safe(d: Device, id: RqId, r: FlushRq) {
    && (r.flush ==> id in d.before && d.before[id] <= d.durable)
    && (r.fua && IsWrite(r) ==> id in d.durable)
  }

  ghost predicate LogSafe(q: Queue, d: Device) {
    forall e <- q.log :: e.error == 0 && e.id in q.rqs ==> Safe(d, e.id, q.rqs[e.id])
  }

  // What each finished step has achieved.
  ghost predicate Honest(d: Device, id: RqId, r: FlushRq)
    requires id in d.before
  {
    && (r.policy.pre && r.done.pre ==> d.before[id] <= d.durable)
    && (IsWrite(r) && r.done.data && r.tail.uptodate ==>
          id in d.completed && (r.devFua || (r.policy.post && r.done.post) ==> id in d.durable))
  }

  ghost predicate HonestAll(q: Queue, d: Device) {
    forall id <- q.rqs :: id in d.before && d.before[id] <= d.completed && (q.rqs[id].live ==> Honest(d, id, q.rqs[id]))
  }

  // The running flush covers what its requests wait for.
  ghost predicate Covered(S: set<RqId>, d: Device, id: RqId, r: FlushRq)
    requires id in d.before
  {
    && (CurSeq(r.done) == Pre ==> d.before[id] <= S)
    && (CurSeq(r.done) == Post && IsWrite(r) && r.tail.uptodate ==> id in S)
  }

  ghost predicate RunningCovered(q: Queue, d: Device)
    requires Shape(q)
  {
    q.p != q.r ==> forall id <- q.lists[q.r] :: id in q.rqs && id in d.before && Covered(d.snapshot, d, id, q.rqs[id])
  }

  ghost predicate DevOk(caps: Caps, d: Device) {
    d.snapshot <= d.completed && (!caps.flush ==> d.completed <= d.durable)
  }

  ghost predicate WInv(w: World) {
    && QInv(w.q) && HonestAll(w.q, w.dev) && LogSafe(w.q, w.dev)
    && RunningCovered(w.q, w.dev) && DevOk(w.q.caps, w.dev)
  }

  // ---------------------------------------------------- one completed step

  // d' knows at least what d knows.
  ghost predicate Grows(d: Device, d': Device) {
    d.completed <= d'.completed && d.durable <= d'.durable && d'.before == d.before
  }

  lemma EnterLogTail(q: Queue, x: RqId, next: Step, error: int, now: int)
    requires Shape(q) && x in q.rqs && q.rqs[x].live && PayloadOk(x, q.rqs[x])
    ensures var e := Enter(q, x, next, error, now);
            e.log == if next == Done
                     then q.log + [Ending(x, if error != 0 then error else if q.rqs[x].tail.uptodate then 0 else -EIO)]
                     else q.log
    ensures Enter(q, x, next, error, now).rqs[x].rq.write == q.rqs[x].rq.write
  {
    if next == Done {
      RestoredEnds(q.lim, q.rqs[x].rq, q.rqs[x].tail, error);
    }
  }

  // A request that went through all its steps is safe.
  lemma DoneIsSafe(caps: Caps, d: Device, x: RqId, r: FlushRq)
    requires x in d.before && d.before[x] <= d.completed && DevOk(caps, d) && PolicyOk(caps, r)
    requires Honest(d, x, r) && CurSeq(r.done) == Done && r.tail.uptodate
    ensures Safe(d, x, r)
  {
  }

  lemma CompleteHonest(q: Queue, d: Device, x: RqId, steps: Steps, error: int, now: int)
    requires CompleteReady(q, x, steps) && HonestBut(q, d, x)
    requires error == 0 ==> Honest(d, x, Mark(q, x, steps).rqs[x])
    ensures HonestAll(CompleteSeq(q, x, steps, error, now), d)
  {
    var m := Mark(q, x, steps);
    var next := NextStep(m, x, error);
    var e := Enter(m, x, next, error, now);
    EnterRecord(m, x, next, error, now);
    KickRecord(e, now);
  }

  // The record and the log after a step, for the log's claims.
  lemma EnterLog(m: Queue, x: RqId, next: Step, error: int, now: int)
    requires Shape(m) && x in m.rqs && m.rqs[x].live && PayloadOk(x, m.rqs[x])
    ensures var c := Kick(Enter(m, x, next, error, now), now);
            var r, r' := m.rqs[x], c.rqs[x];
            && c.rqs == m.rqs[x := r']
            && r'.flush == r.flush && r'.fua == r.fua && r'.policy == r.policy && r'.rq.write == r.rq.write
            && c.log == if next == Done
                        then m.log + [Ending(x, if error != 0 then error else if r.tail.uptodate then 0 else -EIO)]
                        else m.log
  {
    EnterRecord(m, x, next, error, now);
    EnterLogTail(m, x, next, error, now);
    KickRecord(Enter(m, x, next, error, now), now);
  }

  lemma CompleteLog(q: Queue, x: RqId, steps: Steps, error: int, now: int)
    requires Shape(q) && x in q.rqs && q.rqs[x].live && PayloadOk(x, Mark(q, x, steps).rqs[x])
    ensures var c := CompleteSeq(q, x, steps, error, now);
            var r, r' := Mark(q, x, steps).rqs[x], c.rqs[x];
            && c.rqs == q.rqs[x := r']
            && r'.flush == r.flush && r'.fua == r.fua && r'.policy == r.policy && r'.rq.write == r.rq.write
            && c.log == if NextStep(Mark(q, x, steps), x, error) == Done
                        then q.log + [Ending(x, if error != 0 then error else if r.tail.uptodate then 0 else -EIO)]
                        else q.log
  {
    var m := Mark(q, x, steps);
    EnterLog(m, x, NextStep(m, x, error), error, now);
  }

  lemma ReadyPayload(q: Queue, x: RqId, steps: Steps)
    requires CompleteReady(q, x, steps)
    ensures Shape(q) && x in q.rqs && q.rqs[x].live && PayloadOk(x, Mark(q, x, steps).rqs[x])
  {
    assert LocalOk(q.caps, x, Mark(q, x, steps).rqs[x]);
  }

  lemma CompleteLogSafe(q: Queue, d: Device, x: RqId, steps: Steps, error: int, now: int)
    requires CompleteReady(q, x, steps) && HonestBut(q, d, x) && LogSafe(q, d) && DevOk(q.caps, d)
    requires error == 0 ==> Honest(d, x, Mark(q, x, steps).rqs[x])
    ensures LogSafe(CompleteSeq(q, x, steps, error, now), d)
  {
    var m := Mark(q, x, steps);
    var c := CompleteSeq(q, x, steps, error, now);
    ReadyPayload(q, x, steps);
    CompleteLog(q, x, steps, error, now);
    assert LocalOk(m.caps, x, m.rqs[x]);
    if NextStep(m, x, error) == Done && error == 0 && m.rqs[x].tail.uptodate {
      DoneIsSafe(q.caps, d, x, m.rqs[x]);
    }
    assert EndedOk(q, x);
    forall l | l in c.log && l.error == 0 && l.id in c.rqs ensures Safe(d, l.id, c.rqs[l.id]) {
      if l in q.log { LoggedOther(q.log, l, x); }
    }
  }

  ghost predicate HonestBut(q: Queue, d: Device, x: RqId) {
    && (forall id <- q.rqs :: id in d.before && d.before[id] <= d.completed)
    && (forall id <- q.rqs :: id != x && q.rqs[id].live ==> Honest(d, id, q.rqs[id]))
  }

  lemma {:induction false} LoggedOther(log: seq<Ending>, l: Ending, x: RqId)
    requires l in log && Count(log, x) == 0
    ensures l.id != x
  {
    if log[|log| - 1] != l {
      LoggedOther(log[..|log| - 1], l, x);
    }
  }

  // A running flush keeps covering its list while other requests step.
  lemma CompleteCovered(q: Queue, d: Device, x: RqId, steps: Steps, error: int, now: int)
    requires Shape(q) && x in q.rqs && RunningCovered(q, d)
    requires q.p == q.r ==> q.lists[1 - q.p] == []
    requires q.p != q.r ==> q.lists[q.r] != [] && x !in q.lists[q.r]
    ensures var c := CompleteSeq(q, x, steps, error, now);
            if c.issued == q.issued then c.p == q.p && c.r == q.r && RunningCovered(c, d) else q.p == q.r
  {
    var m := Mark(q, x, steps);
    EnterRecord(m, x, NextStep(m, x, error), error, now);
    KickRecord(Enter(m, x, NextStep(m, x, error), error, now), now);
    CompleteBuffers(q, x, steps, error, now);
  }

  // A flush issued now covers every request that waits for it.
  lemma FreshFlushCovers(q: Queue, d: Device)
    requires QInv(q) && HonestAll(q, d) && d.snapshot == d.completed
    ensures RunningCovered(q, d)
  {
    if q.p != q.r {
      forall id | id in q.lists[q.r] ensures id in q.rqs && id in d.before && Covered(d.snapshot, d, id, q.rqs[id]) {
        assert Listed(q, id);
        assert Placed(q, id) && LocalOk(q.caps, id, q.rqs[id]);
      }
    }
  }

  // The claims survive any gain of the device.
  lemma GrowthKeeps(q: Queue, d: Device, d': Device)
    requires HonestAll(q, d) && LogSafe(q, d) && Grows(d, d')
    ensures HonestAll(q, d') && LogSafe(q, d')
  {
    forall id | id in q.rqs ensures
        id in d'.before && d'.before[id] <= d'.completed && (q.rqs[id].live ==> Honest(d', id, q.rqs[id])) {
      assert id in d.before;
    }
    forall l | l in q.log && l.error == 0 && l.id in q.rqs ensures Safe(d', l.id, q.rqs[l.id]) {
      assert Safe(d, l.id, q.rqs[l.id]);
    }
  }

  // Taking note of an issued flush: what remains to be shown after a step.
  lemma NotedKeeps(q: Queue, q': Queue, d: Device)
    requires QInv(q') && HonestAll(q', d) && LogSafe(q', d) && DevOk(q'.caps, d)
    requires q'.issued == q.issued ==> RunningCovered(q', d)
    ensures WInv(World(q', Noted(d, q, q')))
  {
    var d' := Noted(d, q, q');
    GrowthKeeps(q', d, d');
    if q'.issued != q.issued { FreshFlushCovers(q', d'); }
  }

  // ---------------------------------------------------------------- the walk

  // The flush that just ended has done for the requests of ids what they
  // waited for.
  ghost predicate Flushed(q: Queue, d: Device, ids: seq<RqId>) {
    forall id <- ids :: id in q.rqs && id in d.before && Covered(d.durable, d, id, q.rqs[id])
  }

  lemma WalkedHonest(q: Queue, w: nat, ids: seq<RqId>, d: Device, x: RqId)
    requires WalkInv(q, w, ids) && x in ids && HonestAll(q, d) && Flushed(q, d, ids)
    ensures x in q.rqs && x in d.before && Honest(d, x, Mark(q, x, Only(CurSeq(q.rqs[x].done))).rqs[x])
  {
    WalkedStep(q, w, ids, x, 0);
    assert LocalOk(q.caps, x, q.rqs[x]) && Covered(d.durable, d, x, q.rqs[x]);
  }

  lemma WalkOneHonest(q: Queue, w: nat, ids: seq<RqId>, d: Device, error: int, now: int)
    requires WalkInv(q, w, ids) && ids != []
    requires HonestAll(q, d) && LogSafe(q, d) && DevOk(q.caps, d) && (error == 0 ==> Flushed(q, d, ids))
    ensures ids[0] in q.rqs
    ensures var c := CompleteSeq(q, ids[0], Only(CurSeq(q.rqs[ids[0]].done)), error, now);
            HonestAll(c, d) && LogSafe(c, d)
  {
    var x := ids[0];
    assert x in q.rqs by { WalkedStep(q, w, ids, x, error); }
    var cur := CurSeq(q.rqs[x].done);
    assert CompleteReady(q, x, Only(cur)) by { WalkReady(q, w, ids, x); }
    assert HonestBut(q, d, x);
    if error == 0 { WalkedHonest(q, w, ids, d, x); }
    CompleteHonest(q, d, x, Only(cur), error, now);
    CompleteLogSafe(q, d, x, Only(cur), error, now);
  }

  lemma CompleteIssues(q: Queue, x: RqId, steps: Steps, error: int, now: int)
    requires Shape(q) && x in q.rqs
    ensures var c := CompleteSeq(q, x, steps, error, now);
            && c.caps == q.caps && c.r == q.r && c.rqs == q.rqs[x := c.rqs[x]]
            && c.issued >= q.issued && (c.p == q.p || c.issued > q.issued)
  {
    var m := Mark(q, x, steps);
    EnterRecord(m, x, NextStep(m, x, error), error, now);
    KickRecord(Enter(m, x, NextStep(m, x, error), error, now), now);
  }

  lemma WalkOneFlushed(q: Queue, ids: seq<RqId>, c: Queue, d: Device)
    requires ids != [] && NoDup(ids) && Flushed(q, d, ids) && ids[0] in q.rqs && ids[0] in c.rqs
    requires c.rqs == q.rqs[ids[0] := c.rqs[ids[0]]]
    ensures Flushed(c, d, ids[1..])
  {
    forall id | id in ids[1..] ensures id in c.rqs && id in d.before && Covered(d.durable, d, id, c.rqs[id]) {
      assert id in ids && id != ids[0];
    }
  }

  lemma {:induction false} WalkHonest(q: Queue, w: nat, ids: seq<RqId>, d: Device, error: int, now: int)
    requires WalkInv(q, w, ids) && forall id <- ids :: id in q.rqs
    requires HonestAll(q, d) && LogSafe(q, d) && DevOk(q.caps, d) && (error == 0 ==> Flushed(q, d, ids))
    ensures var k := Walk(q, ids, error, now);
            && HonestAll(k, d) && LogSafe(k, d) && k.caps == q.caps && k.r == q.r
            && k.issued >= q.issued && (k.p == q.p || k.issued > q.issued)
    decreases |ids|
  {
    if ids != [] {
      assert NoDup(ids) by { assert ids == q.lists[w]; }
      hide PlacedAll, LocalAll, EndedAll, PlainsOk, ItemsOk, JoinedOk, HonestAll, LogSafe, CompleteSeq;
      var x := ids[0];
      var steps := Only(CurSeq(q.rqs[x].done));
      var c := CompleteSeq(q, x, steps, error, now);
      WalkOneHonest(q, w, ids, d, error, now);
      WalkStepKeeps(q, w, ids, error, now);
      CompleteIssues(q, x, steps, error, now);
      if error == 0 { WalkOneFlushed(q, ids, c, d); }
      WalkHonest(c, w, ids[1..], d, error, now);
    }
  }

  // --------------------------------------------------------------- the steps

  // What flush_end_io leaves, for a device that has settled the snapshot.
  lemma FlushDoneHonest(q: Queue, d: Device, error: int, now: int)
    requires QInv(q) && FlushItem in q.driver && HonestAll(q, d) && LogSafe(q, d) && DevOk(q.caps, d)
    requires forall id <- q.lists[q.r] :: id in q.rqs
    requires error == 0 ==> Flushed(AfterFlush(q), d, q.lists[q.r])
    ensures var k := FlushEndIo(q, error, now);
            HonestAll(k, d) && LogSafe(k, d) && k.caps == q.caps && (k.issued == q.issued ==> k.p == k.r)
  {
    assert WalkInv(AfterFlush(q), q.r, q.lists[q.r]) && q.p != q.r by { FlushEndStart(q); }
    WalkHonest(AfterFlush(q), q.r, q.lists[q.r], d, error, now);
  }

  lemma FlushDoneKeeps(w: World, error: int, now: int)
    requires WInv(w) && FlushItem in w.q.driver && forall id <- w.q.lists[w.q.r] :: id in w.q.rqs
    ensures var k := FlushEndIo(w.q, error, now);
            WInv(World(k, Noted(Settled(w.dev, error), w.q, k)))
  {
    var q := w.q;
    var d := Settled(w.dev, error);
    assert q.p != q.r && forall id <- q.lists[q.r] :: id in q.rqs by { FlushEndStart(q); }
    var k := FlushEndIo(q, error, now);
    assert QInv(k) by { FlushEndKeeps(q, error, now); }
    assert HonestAll(k, d) && LogSafe(k, d) && k.caps == q.caps && (k.issued == q.issued ==> k.p == k.r) by {
      GrowthKeeps(q, w.dev, d);
      if error == 0 { AfterFlushed(q, w.dev, d); }
      FlushDoneHonest(q, d, error, now);
    }
    NotedKeeps(q, k, d);
  }

  lemma AfterFlushed(q: Queue, d: Device, d': Device)
    requires Shape(q) && q.p != q.r && RunningCovered(q, d) && d' == d.(durable := d.durable + d.snapshot)
    ensures Flushed(AfterFlush(q), d', q.lists[q.r])
  {
    forall id | id in q.lists[q.r] ensures id in q.rqs && id in d'.before && Covered(d'.durable, d', id, q.rqs[id]) {
      assert Covered(d.snapshot, d, id, q.rqs[id]);
    }
  }

  // The device has taken the data of id.
  ghost predicate Took(q: Queue, d: Device, id: RqId, error: int)
    requires id in q.rqs
  {
    error == 0 && q.rqs[id].tail.uptodate && IsWrite(q.rqs[id]) ==>
      id in d.completed && (q.rqs[id].devFua ==> id in d.durable)
  }

  // What flush_data_end_io leaves.
  lemma DataDoneHonest(q: Queue, d: Device, id: RqId, error: int, now: int)
    requires QInv(q) && DataItem(id) in q.driver && id in q.rqs && Took(q, d, id, error)
    requires HonestAll(q, d) && LogSafe(q, d) && DevOk(q.caps, d)
    ensures HonestAll(DataEndIo(q, id, error, now), d) && LogSafe(DataEndIo(q, id, error, now), d)
  {
    var a := AfterData(q, id, error);
    assert CompleteReady(a, id, Only(Data)) by { AfterDataReady(q, id, error); }
    AfterDataHonest(q, d, id, error);
    CompleteHonest(a, d, id, Only(Data), error, now);
    CompleteLogSafe(a, d, id, Only(Data), error, now);
  }

  lemma DataDoneCovered(q: Queue, d: Device, id: RqId, error: int, now: int)
    requires QInv(q) && DataItem(id) in q.driver && id in q.rqs && RunningCovered(q, d)
    ensures var k := DataEndIo(q, id, error, now);
            k.caps == q.caps && (k.issued == q.issued ==> RunningCovered(k, d))
  {
    var a := AfterData(q, id, error);
    assert RunningCovered(a, d) by { AfterDataCovered(q, d, id, error); }
    DataBuffers(q, id, error);
    hide QInv, RunningCovered, CompleteSeq, AfterData;
    CompleteIssues(a, id, Only(Data), error, now);
    CompleteCovered(a, d, id, Only(Data), error, now);
  }

  lemma AfterDataCovered(q: Queue, d: Device, id: RqId, error: int)
    requires QInv(q) && DataItem(id) in q.driver && id in q.rqs && RunningCovered(q, d)
    ensures RunningCovered(AfterData(q, id, error), d)
  {
    var a := AfterData(q, id, error);
    DataInFlight(q, id);
    AfterDataRecord(q, id, error);
    forall x | a.p != a.r && x in a.lists[a.r]
      ensures x in a.rqs && x in d.before && Covered(d.snapshot, d, x, a.rqs[x]) {
      assert x != id;
    }
  }

  lemma DataBuffers(q: Queue, id: RqId, error: int)
    requires QInv(q) && DataItem(id) in q.driver && id in q.rqs
    ensures var a := AfterData(q, id, error);
            && a.issued == q.issued && a.caps == q.caps
            && (a.p == a.r ==> a.lists[1 - a.p] == [])
            && (a.p != a.r ==> a.lists[a.r] != [] && id !in a.lists[a.r])
  {
    DataInFlight(q, id);
  }

  lemma DataDoneKeeps(w: World, id: RqId, error: int, now: int)
    requires WInv(w) && DataItem(id) in w.q.driver && id in w.q.rqs
    ensures var k := DataEndIo(w.q, id, error, now);
            WInv(World(k, Noted(Written(w.q.caps, w.dev, id, w.q.rqs[id], error), w.q, k)))
  {
    var q := w.q;
    var d := Written(q.caps, w.dev, id, q.rqs[id], error);
    var k := DataEndIo(q, id, error, now);
    assert QInv(k) by { DataEndKeeps(q, id, error, now); }
    assert WInv(World(q, d)) by { WrittenKeeps(w, id, error); }
    hide QInv, HonestAll, LogSafe, RunningCovered, DataEndIo;
    DataDoneHonest(q, d, id, error, now);
    DataDoneCovered(q, d, id, error, now);
    NotedKeeps(q, k, d);
  }

  lemma AfterDataHonest(q: Queue, d: Device, id: RqId, error: int)
    requires QInv(q) && DataItem(id) in q.driver && id in q.rqs && HonestAll(q, d) && LogSafe(q, d)
    requires Took(q, d, id, error)
    ensures var a := AfterData(q, id, error);
            && HonestBut(a, d, id) && LogSafe(a, d)
            && (error == 0 ==> Honest(d, id, Mark(a, id, Only(Data)).rqs[id]))
  {
    var a := AfterData(q, id, error);
    DataInFlight(q, id);
    AfterDataRecord(q, id, error);
    assert LocalOk(q.caps, id, q.rqs[id]) && Honest(d, id, q.rqs[id]);
    forall l | l in a.log && l.error == 0 && l.id in a.rqs ensures Safe(d, l.id, a.rqs[l.id]) {
      assert Safe(d, l.id, q.rqs[l.id]);
    }
  }

  lemma RegisteredKeeps(q: Queue, d: Device, id: RqId)
    requires WInv(World(q, d)) && id !in q.rqs
    ensures WInv(World(q, Registered(d, id)))
  {
    var d' := Registered(d, id);
    forall x | x in q.rqs
      ensures x in d'.before && d'.before[x] <= d'.completed && (q.rqs[x].live ==> Honest(d', x, q.rqs[x])) {
      assert x in d.before;
    }
    forall l | l in q.log && l.error == 0 && l.id in q.rqs ensures Safe(d', l.id, q.rqs[l.id]) {
      assert Safe(d, l.id, q.rqs[l.id]);
    }
    if q.p != q.r {
      forall x | x in q.lists[q.r] ensures x in q.rqs && x in d'.before && Covered(d'.snapshot, d', x, q.rqs[x]) {
        assert Covered(d.snapshot, d, x, q.rqs[x]);
      }
    }
  }

  // Touching one request outside the running list, with its notification if it
  // is finished.
  ghost predicate Touched(q: Queue, a: Queue, d: Device, id: RqId) {
    && QInv(a) && id in a.rqs && a.rqs == q.rqs[id := a.rqs[id]]
    && id in d.before && d.before[id] <= d.completed && (a.rqs[id].live ==> Honest(d, id, a.rqs[id]))
    && a.lists == q.lists && a.p == q.p && a.r == q.r && a.caps == q.caps
    && (a.log == q.log ||
        exists e: Ending :: a.log == q.log + [e] && e.id == id && (e.error == 0 ==> Safe(d, id, a.rqs[id])))
  }

  lemma TouchedLog(q: Queue, a: Queue, d: Device, id: RqId)
    requires Touched(q, a, d, id) && LogSafe(q, d) && Count(q.log, id) == 0
    ensures LogSafe(a, d)
  {
    hide QInv, Honest;
    forall l | l in a.log && l.error == 0 && l.id in a.rqs ensures Safe(d, l.id, a.rqs[l.id]) {
      if l in q.log { LoggedOther(q.log, l, id); }
    }
  }

  lemma TouchedCovered(q: Queue, a: Queue, d: Device, id: RqId)
    requires Touched(q, a, d, id) && QInv(q) && RunningCovered(q, d) && id !in q.lists[q.r]
    ensures RunningCovered(a, d)
  {
    hide QInv, Honest, Safe, Covered;
  }

  lemma TouchedKeeps(q: Queue, a: Queue, d: Device, id: RqId)
    requires WInv(World(q, d)) && Touched(q, a, d, id) && Count(q.log, id) == 0 && id !in q.lists[q.r]
    ensures WInv(World(a, d))
  {
    TouchedLog(q, a, d, id);
    TouchedCovered(q, a, d, id);
    hide QInv, Honest, Safe, Covered, LogSafe, RunningCovered;
    assert HonestAll(a, d);
  }

  lemma SequencedKeeps(q: Queue, d: Device, id: RqId, flush: bool, fua: bool, rq: Request, now: int)
    requires WInv(World(q, d)) && id !in q.rqs && Submittable(id, rq) && id in d.before && d.before[id] <= d.completed
    requires PolicyMakesSense(Policy(q.caps, flush, fua, rq.dataLen))
    ensures var r := NewRq(q, flush, fua, rq);
            var a := Inserted(q, id, r.(live := true, rq := rq.(flushSeq := true)));
            var k := CompleteSeq(a, id, Not(r.policy), 0, now);
            && HonestAll(k, d) && LogSafe(k, d) && k.caps == q.caps
            && (k.issued == q.issued ==> RunningCovered(k, d))
  {
    var r := NewRq(q, flush, fua, rq);
    var a := Inserted(q, id, r.(live := true, rq := rq.(flushSeq := true)));
    assert CompleteReady(a, id, Not(r.policy)) by { InsertedReady(q, id, flush, fua, rq); }
    InsertedHonest(q, a, d, id);
    CompleteHonest(a, d, id, Not(r.policy), 0, now);
    CompleteLogSafe(a, d, id, Not(r.policy), 0, now);
    CompleteIssues(a, id, Not(r.policy), 0, now);
    CompleteCovered(a, d, id, Not(r.policy), 0, now);
  }

  lemma InsertedHonest(q: Queue, a: Queue, d: Device, id: RqId)
    requires WInv(World(q, d)) && id !in q.rqs && id in d.before && d.before[id] <= d.completed
    requires id in a.rqs && a == Inserted(q, id, a.rqs[id])
    ensures HonestBut(a, d, id) && LogSafe(a, d) && RunningCovered(a, d)
    ensures a.p == a.r ==> a.lists[1 - a.p] == []
    ensures a.p != a.r ==> a.lists[a.r] != [] && id !in a.lists[a.r]
  {
    assert Count(q.log, id) == 0;
    assert !Listed(q, id);
    forall l | l in a.log && l.error == 0 && l.id in a.rqs ensures Safe(d, l.id, a.rqs[l.id]) {
      LoggedOther(q.log, l, id);
    }
  }

  // ------------------------------------------------- the remaining events

  // A submission that needs no sequence.
  lemma NewKeeps(q: Queue, d: Device, id: RqId, a: Queue)
    requires WInv(World(q, d)) && id !in q.rqs && Touched(q, a, d, id)
    ensures WInv(World(a, d))
  {
    assert Count(q.log, id) == 0;
    assert !Listed(q, id);
    TouchedKeeps(q, a, d, id);
  }

  lemma SubmitKeeps(w: World, id: RqId, flush: bool, fua: bool, rq: Request, now: int)
    requires WInv(w) && Enabled(w, Submit(id, flush, fua, rq, now))
    ensures var k := InsertFlush(w.q, id, flush, fua, rq, now);
            WInv(World(k, Noted(Registered(w.dev, id), w.q, k)))
  {
    var q, d := w.q, Registered(w.dev, id);
    var k := InsertFlush(q, id, flush, fua, rq, now);
    var r := NewRq(q, flush, fua, rq);
    assert WInv(World(q, d)) by { RegisteredKeeps(q, w.dev, id); }
    assert QInv(k) by { InsertKeeps(q, id, flush, fua, rq, now); }
    hide QInv, HonestAll, LogSafe, RunningCovered, CompleteSeq;
    if r.policy == Steps(false, false, false) {
      var u := Update(q.lim, rq, 0, 0);
      assert |u.ended| == 1 && u.ended[0].id == id;
      assert k.log == q.log + [u.ended[0]];
      NewKeeps(q, d, id, k);
    } else if r.policy == Steps(false, true, false) {
      NewKeeps(q, d, id, k);
    } else {
      SequencedKeeps(q, d, id, flush, fua, rq, now);
      NotedKeeps(q, k, d);
    }
  }

  lemma SubmitPlainKeeps(w: World, id: RqId, rq: Request)
    requires WInv(w) && Enabled(w, SubmitPlain(id, rq))
    ensures WInv(World(InsertPlain(w.q, id, rq), Registered(w.dev, id)))
  {
    var d := Registered(w.dev, id);
    RegisteredKeeps(w.q, w.dev, id);
    PlainInsertKeeps(w.q, id, rq);
    NewKeeps(w.q, d, id, InsertPlain(w.q, id, rq));
  }

  lemma TakeKeeps(w: World, i: nat)
    requires WInv(w) && i < |w.q.head|
    ensures WInv(World(Fetch(w.q, i), w.dev))
  {
    FetchKeeps(w.q, i);
    hide QInv, Covered, Honest, Safe;
  }

  lemma PlainDoneKeeps(w: World, id: RqId, error: int)
    requires WInv(w) && PlainItem(id) in w.q.driver && id in w.q.rqs
    ensures WInv(World(PlainEndIo(w.q, id, error), Written(w.q.caps, w.dev, id, w.q.rqs[id], error)))
  {
    var q := w.q;
    var d := Written(q.caps, w.dev, id, q.rqs[id], error);
    var a := PlainEndIo(q, id, error);
    PlainEndKeeps(q, id, error);
    PlainInFlight(q, id);
    assert WInv(World(q, d)) by { WrittenKeeps(w, id, error); }
    hide QInv, HonestAll, LogSafe, RunningCovered;
    TouchedKeeps(q, a, d, id);
  }

  lemma PlainInFlight(q: Queue, id: RqId)
    requires QInv(q) && PlainItem(id) in q.driver && id in q.rqs
    ensures Count(q.log, id) == 0 && id !in q.lists[q.r]
    ensures var r := q.rqs[id]; !r.live && !r.policy.pre && !r.policy.post && PolicyOk(q.caps, r)
  {
    assert InFlight(q, PlainItem(id));
    assert EndedOk(q, id) && Placed(q, id) && LocalOk(q.caps, id, q.rqs[id]);
  }

  lemma WrittenKeeps(w: World, id: RqId, error: int)
    requires WInv(w) && id in w.q.rqs
    ensures WInv(World(w.q, Written(w.q.caps, w.dev, id, w.q.rqs[id], error)))
  {
    GrowthKeeps(w.q, w.dev, Written(w.q.caps, w.dev, id, w.q.rqs[id], error));
    hide QInv, Honest, Safe, HonestAll, LogSafe;
  }

  lemma PartKeeps(w: World, id: RqId, error: int, n: nat)
    requires WInv(w) && id in w.q.rqs && n < w.q.rqs[id].rq.dataLen
    requires DataItem(id) in w.q.driver || PlainItem(id) in w.q.driver
    ensures WInv(World(DataPart(w.q, id, error, n), w.dev))
  {
    var q := w.q;
    var a := DataPart(q, id, error, n);
    assert QInv(a) by { DataPartKeeps(q, id, error, n); }
    PartRecord(q, id, error, n);
    assert id in w.dev.before;
    hide QInv, HonestAll, LogSafe, RunningCovered, DataPart;
    TouchedKeeps(q, a, w.dev, id);
  }

  lemma PartRecord(q: Queue, id: RqId, error: int, n: nat)
    requires QInv(q) && id in q.rqs && n < q.rqs[id].rq.dataLen
    requires DataItem(id) in q.driver || PlainItem(id) in q.driver
    ensures var a := DataPart(q, id, error, n); var r, r' := q.rqs[id], a.rqs[id];
            && a == q.(rqs := q.rqs[id := r']) && r' == r.(rq := r'.rq, tail := r'.tail)
    ensures q.rqs[id].live ==> CurSeq(q.rqs[id].done) == Data
    ensures Count(q.log, id) == 0 && id !in q.lists[q.r]
  {
    StartedPayload(q, id);
    PartSilent(q, id, error, n);
    StartedUnlogged(q, id);
  }

  lemma PartSilent(q: Queue, id: RqId, error: int, n: nat)
    requires id in q.rqs && n < q.rqs[id].rq.dataLen
    requires var r := q.rqs[id]; r.rq.bios == [r.tail] && DataBio(r.tail) && r.rq.dataLen == r.tail.size
    ensures DataPart(q, id, error, n).log == q.log
  {
    var r := q.rqs[id];
    PartUpdates(q.lim, r.rq, r.tail, error, n);
    assert q.log + [] == q.log;
  }

  lemma StartedUnlogged(q: Queue, id: RqId)
    requires QInv(q) && id in q.rqs && (DataItem(id) in q.driver || PlainItem(id) in q.driver)
    ensures Count(q.log, id) == 0 && id !in q.lists[q.r]
    ensures q.rqs[id].live ==> CurSeq(q.rqs[id].done) == Data
  {
    StartedPayload(q, id);
    assert EndedOk(q, id);
    if q.rqs[id].live { DataInFlight(q, id); } else { PlainInFlight(q, id); }
  }

  lemma SettleKeeps(w: World, ids: set<RqId>)
    requires WInv(w)
    ensures WInv(World(w.q, w.dev.(durable := w.dev.durable + ids)))
  {
    GrowthKeeps(w.q, w.dev, w.dev.(durable := w.dev.durable + ids));
    hide QInv, Honest, Safe, HonestAll, LogSafe;
  }

  // Every event finds the links it follows valid, and keeps the invariant.
  lemma NextKeeps(w: World, e: Event)
    requires WInv(w) && Enabled(w, e)
    ensures Defined(w, e) && WInv(Next(w, e))
  {
    EnabledDefined(w, e);
    hide WInv;
    match e
    case Submit(id, flush, fua, rq, now) => SubmitKeeps(w, id, flush, fua, rq, now);
    case SubmitPlain(id, rq) => SubmitPlainKeeps(w, id, rq);
    case Take(i) => TakeKeeps(w, i);
    case FlushDone(error, now) => FlushDoneKeeps(w, error, now);
    case DataDone(id, error, now) => DataDoneKeeps(w, id, error, now);
    case PlainDone(id, error) => PlainDoneKeeps(w, id, error);
    case Part(id, error, n) => PartKeeps(w, id, error, n);
    case Settle(ids) => SettleKeeps(w, ids);
  }

  lemma EnabledDefined(w: World, e: Event)
    requires WInv(w) && Enabled(w, e)
    ensures Defined(w, e)
  {
    match e
    case FlushDone(_, _) => FlushEndStart(w.q);
    case DataDone(id, _, _) => DataInFlight(w.q, id);
    case PlainDone(id, _) => StartedPayload(w.q, id);
    case _ =>
  }
}
