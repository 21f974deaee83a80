/**
 The other half of throttling: no bio is held back that may go.  A dispatch stops
 only at its share, at the end of a queue or at a bio that has to wait; a bio that
 comes waits only behind others or for its own limit; and the work is scheduled
 for the moment the first group is due.
 */
module ThrottleExact {
  import opened ThrottleSlice
  import opened Throttle
  import opened ThrottleInv
  import opened ThrottleOps
  import opened ThrottleRuns
  import opened ThrottleRate

  // The head of a direction's queue has to wait.
  ghost predicate Held(c: Clock, w: Way, now: int)
    requires ClockOk(c) && RateOk(w.rate)
  {
    w.queue != [] && !MayDispatch(c, w.rate, w.slice, w.queue[0].size, now).ok
  }

  // A direction has sent k of at most max, and stopped for a reason.
  ghost predicate Stops(c: Clock, w: Way, v: Way, max: nat, now: int)
    requires ClockOk(c) && RateOk(v.rate)
  {
    var k := |w.queue| - |v.queue|;
    0 <= k <= max && v.queue == w.queue[k..] && (k == max || v.queue == [] || Held(c, v, now))
  }

  lemma {:induction false} DriveStops(c: Clock, g: Grp, d: Dir, now: int, max: nat)
    requires ClockOk(c) && Fit(g, now)
    ensures var r := Drive(c, g, d, now, max); RateOk(Of(r, d).rate) && Stops(c, Of(g, d), Of(r, d), max, now)
    decreases max
  {
    hide MayDispatch, SendHead;
    var w := Of(g, d);
    if max > 0 && w.queue != [] {
      var v := MayDispatch(c, w.rate, w.slice, w.queue[0].size, now);
      var a := With(g, d, w.(slice := v.slice));
      AskedOk(c, g, d, w.queue[0], now);
      if v.ok {
        var s := SendHead(c, a, d, now);
        SendHeadOk(c, a, d, now);
        DriveStops(c, s, d, now, max - 1);
        assert forall i :: 0 <= i <= |w.queue[1..]| ==> w.queue[1..][i..] == w.queue[1 + i..];
      } else {
        MayDispatchStable(c, w.rate, w.slice, w.queue[0].size, now);
      }
    }
  }

  // throtl_dispatch_tg: at most three quarters of the quantum in reads and one in
  // writes, each in order, and either less only for want of bios or because the
  // next one has to wait.
  lemma DispatchTgStops(c: Clock, g: Grp, now: int)
    requires ClockOk(c) && Fit(g, now)
    ensures var r := DispatchTg(c, g, now);
            && RateOk(r.rd.rate) && RateOk(r.wr.rate)
            && Stops(c, g.rd, r.rd, 6, now) && Stops(c, g.wr, r.wr, 2, now)
  {
    hide Drive, Stops;
    var m := Drive(c, g, Read, now, 6);
    DriveOk(c, g, Read, now, 6);
    DriveOk(c, m, Write, now, 2);
    DriveStops(c, g, Read, now, 6);
    DriveStops(c, m, Write, now, 2);
  }

  // tg_update_disptime: the group is due when the first of its directions may
  // send, and not before.
  lemma TimedExactly(c: Clock, g: Grp, now: int, d: Dir)
    requires Clocked(c, g) && (g.rd.queue != [] || g.wr.queue != []) && Of(g, d).queue != []
    ensures var t := Timed(c, g, now).disptime;
            && t <= now + WaitOf(c, g, d, now)
            && ((g.rd.queue != [] && t == now + WaitOf(c, g, Read, now)) ||
                (g.wr.queue != [] && t == now + WaitOf(c, g, Write, now)))
  {
    hide MayDispatch, WaitOf;
  }

  // throtl_schedule_next_dispatch: the work comes when the head of the tree is
  // due, or at once.
  lemma ScheduledExactly(td: Td, now: int)
    requires TInv(td, now) && Queued(td) != 0
    ensures td.tree.nodes != []
    ensures Scheduled(td, now).work == DueAt(if td.tree.nodes[0].key <= now then now else td.tree.nodes[0].key)
    ensures forall n <- td.tree.nodes :: td.tree.nodes[0].key <= n.key
  {
    QueuedMeans(td, now);
    FirstIsLeast(td.tree);
  }

  lemma FirstIsLeast(t: Tree)
    requires TreeOk(t)
    ensures forall n <- t.nodes :: t.nodes[0].key <= n.key
  {
    forall n | n in t.nodes ensures t.nodes[0].key <= n.key {
      if n != t.nodes[0] { assert n in t.nodes[1..]; }
    }
  }

  // How long the head of a direction waits if its slice starts afresh.
  ghost function FreshWait(c: Clock, w: Way, now: int): int
    requires ClockOk(c) && RateOk(w.rate) && w.queue != []
  {
    MayDispatch(c, w.rate, Fresh(c, w.slice, now), w.queue[0].size, now).wait
  }

  // throtl_process_limit_change: a group whose limits changed is due anew, when the
  // first of its directions may send under them from a fresh slice.
  lemma RestartedExactly(td: Td, x: Gid, now: int)
    requires TInv(td, now) && x in td.groups && td.groups[x].changed
    ensures Clocked(td.clock, td.groups[x]) && x in Restarted(td, x, now).groups
    ensures var c, g, r := td.clock, td.groups[x], Restarted(td, x, now).groups[x];
            && !r.changed && r.rd.queue == g.rd.queue && r.wr.queue == g.wr.queue
            && (g.rd.queue != [] ==> r.disptime <= now + FreshWait(c, g.rd, now))
            && (g.wr.queue != [] ==> r.disptime <= now + FreshWait(c, g.wr, now))
            && (g.rd.queue != [] || g.wr.queue != [] ==>
                  (g.rd.queue != [] && r.disptime == now + FreshWait(c, g.rd, now)) ||
                  (g.wr.queue != [] && r.disptime == now + FreshWait(c, g.wr, now)))
  {
    hide TInv, MayDispatch, Timed, Add, Erase, Fit;
    var g := td.groups[x];
    GroupIs(td, x, now);
    NrIsLength(g, now);
    FreshGroup(td.clock, g, now);
    if g.onRr {
      TimedOk(td.clock, g.(rd := g.rd.(slice := Fresh(td.clock, g.rd.slice, now)),
                           wr := g.wr.(slice := Fresh(td.clock, g.wr.slice, now)), changed := false), now);
    }
  }

  // blk_throtl_bio: without a rule the bio goes and nothing is charged; otherwise
  // it goes at once exactly when none of its direction waits and its limits let it,
  // and else it waits behind them.
  lemma SubmitExactly(td: Td, x: Gid, d: Dir, b: TBio, now: int)
    requires TInv(td, now) && x in td.groups
    ensures Clocked(td.clock, td.groups[x]) && x in Submit(td, x, d, b, now).groups
    ensures var w, v := Of(td.groups[x], d), Of(Submit(td, x, d, b, now).groups[x], d);
            if NoRule(w.rate) then v == w
            else if w.queue == [] && MayDispatch(td.clock, w.rate, w.slice, b.size, now).ok then
              && v.queue == [] && v.slice.sent == w.slice.sent + [b]
              && v.slice == Sent(td.clock, w.rate, MayDispatch(td.clock, w.rate, w.slice, b.size, now).slice, b, now)
            else v.queue == w.queue + [b] && v.slice.sent == w.slice.sent
  {
    hide TInv, MayDispatch, Sent, Timed, Cached, Fit, Rekey, Scheduled;
    var c, g := td.clock, td.groups[x];
    var w := Of(g, d);
    GroupIs(td, x, now);
    NrIsLength(g, now);
    var v := MayDispatch(c, w.rate, w.slice, b.size, now);
    if !NoRule(w.rate) && w.nr == 0 {
      if v.ok {
        SentInOrder(c, g, d, b, now);
      } else {
        SubmitRefused(td, x, d, b, now);
        RefusedQueues(c, g, d, b, now);
      }
    }
  }

  lemma RefusedQueues(c: Clock, g: Grp, d: Dir, b: TBio, now: int)
    requires ClockOk(c) && GroupOk(g, now) && Clocked(c, g)
    ensures var w := Of(g, d);
            var f := Fed(With(g, d, w.(slice := MayDispatch(c, w.rate, w.slice, b.size, now).slice)), d, b);
            && Clocked(c, f) && (f.rd.queue != [] || f.wr.queue != [])
            && var v := Of(Timed(c, f, now), d); v.queue == w.queue + [b] && v.slice.sent == w.slice.sent
  {
    hide MayDispatch, Timed;
    var w := Of(g, d);
    var a := With(g, d, w.(slice := MayDispatch(c, w.rate, w.slice, b.size, now).slice));
    LookedOk(c, g, d, b, now);
    SliceSteps(c, w.rate, w.slice, b, now);
    FedOk(a, d, b, now);
    TimedLawful(c, Fed(a, d, b), d, now, 0, 0);
    TimedOk(c, Fed(a, d, b), now);
  }
}
