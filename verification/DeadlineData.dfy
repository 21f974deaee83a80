/**
 The deadline scheduler's data, updated in place as deadline-iosched.c does.
 */
module DeadlineData {
  import opened KeyOrder
  import opened Deadline
  import opened DeadlineRuns

  ghost predicate HeadsKnown(dd: Dd) {
    && (dd.rd.fifo != [] ==> dd.rd.fifo[0] in dd.expire)
    && (dd.wr.fifo != [] ==> dd.wr.fifo[0] in dd.expire)
  }

  lemma HeadsAre(dd: Dd, now: int)
    requires DInv(dd, now)
    ensures HeadsKnown(dd)
  {
  }

  class DeadlineQueue {
    const tun: Tunables
    var readFifo: seq<Id>
    var writeFifo: seq<Id>
    var readSort: seq<Id>
    var writeSort: seq<Id>
    var readNext: Link
    var writeNext: Link
    var pos: Keys
    var expire: Keys
    var batching: nat
    var starved: nat
    var nrSorted: int
    var dispatched: seq<Id>

    function View(): Dd
      reads this
    {
      Dd(tun, Lane(readFifo, readSort, readNext), Lane(writeFifo, writeSort, writeNext), pos, expire, batching, starved,
         nrSorted)
    }

    constructor (tun: Tunables)
      ensures View() == Start(tun).dd && dispatched == []
    {
      this.tun := tun;
      readFifo, writeFifo, readSort, writeSort := [], [], [], [];
      readNext, writeNext, pos, expire, batching, starved, nrSorted, dispatched := End, End, map[], map[], 0, 0, 0, [];
    }

    // deadline_add_request
    method AddRequest(x: Id, d: Dir, sector: int, now: int)
      requires DInv(View(), now) && x !in readFifo && x !in writeFifo
      modifies this
      ensures forall y <- Of(old(View()), d).sort :: y in old(pos)
      ensures View() == Add(old(View()), x, d, sector, now) && DInv(View(), now) && dispatched == old(dispatched)
    {
      hide DInv;
      AddKeeps(View(), x, d, sector, now);
      pos := pos[x := sector];
      if d == Read { readSort := Insert(pos, readSort, x); } else { writeSort := Insert(pos, writeSort, x); }
      expire := expire[x := now + Expire(tun, d)];
      if d == Read { readFifo := readFifo + [x]; } else { writeFifo := writeFifo + [x]; }
      nrSorted := nrSorted + 1;
    }

    // deadline_remove_request
    method RemoveRequest(x: Id, d: Dir)
      modifies this
      ensures View() == With(old(View()), d, Removed(Of(old(View()), d), x)) && dispatched == old(dispatched)
    {
      if d == Read {
        readFifo := Without(readFifo, x);
        if readNext == At(x) { readNext := Latter(readSort, x); }
        readSort := Without(readSort, x);
      } else {
        writeFifo := Without(writeFifo, x);
        if writeNext == At(x) { writeNext := Latter(writeSort, x); }
        writeSort := Without(writeSort, x);
      }
    }

    // deadline_merged_requests
    method MergedRequests(req: Id, next: Id, d: Dir, ghost now: int)
      requires DInv(View(), now) && req in Of(View(), d).fifo && next in Of(View(), d).fifo && req != next
      modifies this
      ensures req in old(expire) && next in old(expire)
      ensures View() == Merged(old(View()), req, next, d) && DInv(View(), now) && dispatched == old(dispatched)
    {
      hide DInv, Without, MoveBehind, Latter;
      MergeKeeps(View(), req, next, d, now);
      if expire[next] < expire[req] {
        if d == Read {
          readFifo := MoveBehind(readFifo, req, next);
        } else {
          writeFifo := MoveBehind(writeFifo, req, next);
        }
        expire := expire[req := expire[next]];
      }
      RemoveRequest(next, d);
      nrSorted := nrSorted - 1;
    }

    // deadline_move_request
    method MoveRequest(x: Id, d: Dir)
      modifies this
      ensures View() == Moved(old(View()), x, d) && dispatched == old(dispatched) + [x]
    {
      hide Without, Latter;
      readNext, writeNext := End, End;
      if d == Read { readNext := Latter(readSort, x); } else { writeNext := Latter(writeSort, x); }
      RemoveRequest(x, d);
      nrSorted := nrSorted - 1;
      dispatched := dispatched + [x];
    }

    // deadline_dispatch_requests, up to the choice
    method SelectRequest(now: int) returns (rq: Link, d: Dir)
      requires HeadsKnown(View())
      modifies this`batching, this`starved
      ensures match Choose(old(View()), now)
              case None => rq == End && View() == old(View())
              case Pick(x, e, anew, s) =>
                rq == At(x) && d == e && starved == s && batching == (if anew then 0 else old(batching)) + 1
    {
      rq := if writeNext.At? then writeNext else readNext;
      d := if writeNext.At? then Write else Read;
      if !(rq.At? && batching < tun.batch) {
        if readFifo != [] {
          d := Read;
          if writeFifo != [] {
            if starved >= tun.starved { d := Write; starved := 0; } else { starved := starved + 1; }
          }
        } else if writeFifo != [] {
          starved := 0;
          d := Write;
        } else {
          return End, d;
        }
        var head := if d == Read then readFifo[0] else writeFifo[0];
        var next := if d == Read then readNext else writeNext;
        rq := if now > expire[head] || next == End then At(head) else next;
        batching := 0;
      }
      batching := batching + 1;
    }

    // deadline_dispatch_requests
    method DispatchRequests(now: int) returns (sent: bool)
      requires DInv(View(), now)
      modifies this
      ensures View() == Dispatch(old(View()), now) && DInv(View(), now)
      ensures sent <==> old(readFifo) != [] || old(writeFifo) != []
      ensures dispatched == old(dispatched) + (if sent then [Choose(old(View()), now).id] else [])
    {
      hide DInv, Choose, Moved;
      ChosenIsQueued(View(), now);
      DispatchKeeps(View(), now);
      assert HeadsKnown(View()) by { HeadsAre(View(), now); }
      var rq, d := SelectRequest(now);
      if rq == End { return false; }
      MoveRequest(rq.id, d);
      return true;
    }

    // elv_drain_elevator
    method DrainAll(now: int)
      requires DInv(View(), now)
      modifies this
      ensures View() == Drain(old(View()), now)
      ensures readFifo == [] && readSort == [] && writeFifo == [] && writeSort == [] && nrSorted == 0
    {
      ghost var dd := View();
      DrainEmpties(dd, now);
      hide DInv, Choose, Dispatch;
      var more := true;
      while more
        invariant DInv(View(), now)
        invariant Drain(View(), now) == Drain(dd, now)
        invariant !more ==> Choose(View(), now) == None
        decreases |readFifo| + |writeFifo|, more
      {
        ChosenIsQueued(View(), now);
        DispatchKeeps(View(), now);
        QueueShrinks(View(), now);
        more := DispatchRequests(now);
      }
    }
  }

  lemma QueueShrinks(dd: Dd, now: int)
    requires DInv(dd, now)
    ensures var r := Dispatch(dd, now);
            Choose(dd, now) != None ==> |r.rd.fifo| + |r.wr.fifo| < |dd.rd.fifo| + |dd.wr.fifo|
  {
    DispatchKeeps(dd, now);
    hide LaneOk, Choose, Dispatch;
  }
}
