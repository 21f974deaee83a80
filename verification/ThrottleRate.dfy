/**
 The rate bound over whole runs: from any point on, and as long as its limits
 stay, what a direction sends by time t is within limit * (t - start + one
 slice), for bytes and for bios, where start is that of the slice found there.
 */
module ThrottleRate {
  import opened Sums
  import opened ThrottleSlice
  import opened Throttle
  import opened ThrottleInv
  import opened ThrottleOps
  import opened ThrottleRuns

  // From w to v a direction stays within its account, and what it sends at this
  // time is within the bound.
  ghost predicate Lawful(c: Clock, w: Way, v: Way, k: nat, s0: int, now: int) {
    && v.rate == w.rate && w.slice.sent <= v.slice.sent
    && (Held(c, w.rate, w.slice, k, s0) && s0 <= now && w.slice.start <= now && !NoRule(w.rate) ==>
          && Held(c, w.rate, v.slice, k, s0) && v.slice.start <= now
          && (|w.slice.sent| < |v.slice.sent| ==> RateBound(c, w.rate, v.slice, k, s0, now)))
  }

  lemma LawfulTrans(c: Clock, a: Way, b: Way, d: Way, k: nat, s0: int, now: int)
    requires Lawful(c, a, b, k, s0, now) && Lawful(c, b, d, k, s0, now)
    ensures Lawful(c, a, d, k, s0, now)
  {
    if |d.slice.sent| == |b.slice.sent| { assert d.slice.sent == b.slice.sent; }
  }

  // The slice that the account is of, once asked for.
  lemma Present(c: Clock, w: Way, size: nat, k: nat, s0: int, now: int) returns (s: Slice)
    requires ClockOk(c) && RateOk(w.rate) && !NoRule(w.rate)
    requires Held(c, w.rate, w.slice, k, s0) && s0 <= now && w.slice.start <= now
    ensures InRate(c, w.rate, s, k, s0) && s.start <= now && s.sent == w.slice.sent
    ensures MayDispatch(c, w.rate, w.slice, size, now) == MayDispatch(c, w.rate, s, size, now)
  {
    hide MayDispatch, InRate;
    s := w.slice;
    if !InRate(c, w.rate, s, k, s0) {
      UsedIsFresh(c, w.rate, s, size, now);
      FreshInRate(c, w.rate, s, s0, now);
      s := Fresh(c, s, now);
    }
  }

  // Asking, and sending what was allowed.
  lemma AskLawful(c: Clock, w: Way, size: nat, k: nat, s0: int, now: int)
    requires ClockOk(c) && RateOk(w.rate)
    ensures var v := w.(slice := MayDispatch(c, w.rate, w.slice, size, now).slice);
            Lawful(c, w, v, k, s0, now) && v.slice.sent == w.slice.sent
  {
    if Held(c, w.rate, w.slice, k, s0) && s0 <= now && w.slice.start <= now && !NoRule(w.rate) {
      var s := Present(c, w, size, k, s0, now);
      AskKeeps(c, w.rate, s, size, now, k, s0);
    }
  }

  lemma SendLawful(c: Clock, w: Way, v: Way, b: TBio, k: nat, s0: int, now: int)
    requires ClockOk(c) && RateOk(w.rate) && SliceOk(w.slice, now) && MayDispatch(c, w.rate, w.slice, b.size, now).ok
    requires v.rate == w.rate && v.slice == Sent(c, w.rate, MayDispatch(c, w.rate, w.slice, b.size, now).slice, b, now)
    ensures Lawful(c, w, v, k, s0, now)
  {
    SliceSteps(c, w.rate, w.slice, b, now);
    SentSteps(c, w.rate, MayDispatch(c, w.rate, w.slice, b.size, now).slice, b, now);
    hide MayDispatch, Sent, InRate, RateBound;
    if Held(c, w.rate, w.slice, k, s0) && s0 <= now && w.slice.start <= now && !NoRule(w.rate) {
      var s := Present(c, w, b.size, k, s0, now);
      SendKeeps(c, w.rate, s, b, now, k, s0);
    }
  }

  lemma LawfulSelf(c: Clock, w: Way, k: nat, s0: int, now: int)
    ensures Lawful(c, w, w, k, s0, now)
  {
  }

  // Queueing a bio spends nothing.
  lemma LawfulQueue(c: Clock, w: Way, v: Way, k: nat, s0: int, now: int)
    requires v.rate == w.rate && v.slice == w.slice
    ensures Lawful(c, w, v, k, s0, now)
  {
  }

  // ------------------------------------------------------------- one group

  lemma {:induction false} DriveLawful(c: Clock, g: Grp, d: Dir, now: int, max: nat, k: nat, s0: int)
    requires ClockOk(c) && Fit(g, now)
    ensures Lawful(c, Of(g, d), Of(Drive(c, g, d, now, max), d), k, s0, now)
    decreases max
  {
    hide Held, RateBound, Sent, MayDispatch;
    var w := Of(g, d);
    if max > 0 && w.queue != [] {
      var b := w.queue[0];
      var v := MayDispatch(c, w.rate, w.slice, b.size, now);
      var a := With(g, d, w.(slice := v.slice));
      AskedOk(c, g, d, b, now);
      if v.ok {
        var h := SendHead(c, a, d, now);
        SendHeadOk(c, a, d, now);
        SendLawful(c, w, Of(h, d), b, k, s0, now);
        DriveLawful(c, h, d, now, max - 1, k, s0);
        LawfulTrans(c, w, Of(h, d), Of(Drive(c, h, d, now, max - 1), d), k, s0, now);
      } else {
        AskLawful(c, w, b.size, k, s0, now);
      }
    }
  }

  lemma DispatchTgLawful(c: Clock, g: Grp, d: Dir, now: int, k: nat, s0: int)
    requires ClockOk(c) && Fit(g, now)
    ensures Lawful(c, Of(g, d), Of(DispatchTg(c, g, now), d), k, s0, now)
  {
    var m := Drive(c, g, Read, now, 6);
    var r := Drive(c, m, Write, now, 2);
    assert r == DispatchTg(c, g, now);
    hide Drive, DispatchTg, Lawful;
    DriveOk(c, g, Read, now, 6);
    DriveOk(c, m, Write, now, 2);
    DriveLawful(c, g, Read, now, 6, k, s0);
    DriveLawful(c, m, Write, now, 2, k, s0);
  }

  lemma TimedLawful(c: Clock, g: Grp, d: Dir, now: int, k: nat, s0: int)
    requires Clocked(c, g) && (g.rd.queue != [] || g.wr.queue != [])
    ensures Lawful(c, Of(g, d), Of(Timed(c, g, now), d), k, s0, now)
    ensures Of(Timed(c, g, now), d).slice.sent == Of(g, d).slice.sent
  {
    hide MayDispatch, Lawful;
    var w := Of(g, d);
    if w.queue == [] { LawfulSelf(c, w, k, s0, now); } else { AskLawful(c, w, w.queue[0].size, k, s0, now); }
  }

  lemma PassedLawful(c: Clock, g: Grp, d: Dir, now: int, k: nat, s0: int)
    requires ClockOk(c) && Fit(g, now)
    ensures Lawful(c, Of(g, d), Of(Passed(c, g, now), d), k, s0, now)
  {
    hide DispatchTg, Lawful, Timed;
    var r := DispatchTg(c, g, now);
    DispatchTgOk(c, g, now);
    DispatchTgLawful(c, g, d, now, k, s0);
    if Busy(r) && (r.rd.queue != [] || r.wr.queue != []) {
      TimedLawful(c, r, d, now, k, s0);
      LawfulTrans(c, Of(g, d), Of(r, d), Of(Timed(c, r, now), d), k, s0, now);
    }
  }

  // ------------------------------------------------------------- the queue

  lemma PassLawful(td: Td, y: Gid, x: Gid, d: Dir, now: int, k: nat, s0: int)
    requires TInv(td, now) && y in td.groups && x in td.groups && Clocked(td.clock, td.groups[y])
    ensures x in Pass(td, y, now).groups
    ensures Lawful(td.clock, Of(td.groups[x], d), Of(Pass(td, y, now).groups[x], d), k, s0, now)
  {
    hide TInv, Lawful, Passed, Clocked, Fit, Erase, Cached, Add;
    GroupIs(td, y, now);
    if x == y {
      PassedLawful(td.clock, td.groups[x], d, now, k, s0);
    } else {
      LawfulSelf(td.clock, Of(td.groups[x], d), k, s0, now);
    }
  }

  lemma {:induction false} SelectLawful(td: Td, now: int, n: nat, x: Gid, d: Dir, k: nat, s0: int)
    requires TInv(td, now) && Queued(td) >= 0 && x in td.groups
    ensures x in Select(td, now, n).groups
    ensures Lawful(td.clock, Of(td.groups[x], d), Of(Select(td, now, n).groups[x], d), k, s0, now)
    decreases Queued(td), |DueSet(td, now)|
  {
    hide TInv, Lawful, Pass, Clocked, DueSet, First, Cached;
    LawfulSelf(td.clock, Of(td.groups[x], d), k, s0, now);
    match First(td.tree)
    case End =>
    case At(y) =>
      SelectStep(td, y, now);
      if td.groups[y].disptime <= now {
        var p := Pass(td, y, now);
        PassKeeps(td, y, now);
        PassLawful(td, y, x, d, now, k, s0);
        var n' := n + (Queued(td) - Queued(p));
        if n' < QUANTUM {
          SelectLawful(p, now, n', x, d, k, s0);
          LawfulTrans(td.clock, Of(td.groups[x], d), Of(p.groups[x], d), Of(Select(p, now, n').groups[x], d), k, s0,
                      now);
        }
      }
  }

  // A limit change elsewhere leaves the group alone.
  lemma {:induction false} RestartAllOther(td: Td, ids: seq<Gid>, now: int, x: Gid)
    requires forall y <- td.groups :: Clocked(td.clock, td.groups[y])
    requires (forall y <- ids :: y in td.groups) && x in td.groups && !td.groups[x].changed
    ensures RestartAll(td, ids, now).groups[x] == td.groups[x]
    decreases |ids|
  {
    if ids != [] {
      var t := Restarted(td, ids[0], now);
      RestartedOther(td, ids[0], now, x);
      RestartedClocked(td, ids[0], now);
      hide Restarted, Clocked;
      RestartAllOther(t, ids[1..], now, x);
    }
  }

  // The group's own limit change renews its slices.
  lemma RestartedRenews(td: Td, x: Gid, now: int, d: Dir)
    requires TInv(td, now) && x in td.groups && td.groups[x].changed && Clocked(td.clock, td.groups[x])
    ensures var r := Restarted(td, x, now);
            && x in r.groups && !r.groups[x].changed
            && Renewed(td.clock, Of(td.groups[x], d), Of(r.groups[x], d), now)
  {
    hide TInv, Timed;
    var c, g := td.clock, td.groups[x];
    var g' := g.(rd := g.rd.(slice := Fresh(c, g.rd.slice, now)), wr := g.wr.(slice := Fresh(c, g.wr.slice, now)),
                 changed := false);
    if g'.rd.queue != [] || g'.wr.queue != [] { TimedRenewed(c, g', now, d); }
  }

  lemma TimedRenewed(c: Clock, g: Grp, now: int, d: Dir)
    requires Clocked(c, g) && (g.rd.queue != [] || g.wr.queue != [])
    requires Of(g, d).slice == Fresh(c, Of(g, d).slice, now)
    ensures Renewed(c, Of(g, d), Of(Timed(c, g, now), d), now) && Timed(c, g, now).changed == g.changed
  {
    hide MayDispatch, MinWait;
    var w := Of(g, d);
    if w.queue != [] { AskRenewed(c, w.rate, w.slice, w.queue[0].size, now); }
  }

  lemma AskRenewed(c: Clock, r: Rate, s: Slice, size: nat, now: int)
    requires ClockOk(c) && RateOk(r)
    ensures var t := MayDispatch(c, r, Fresh(c, s, now), size, now).slice;
            t == Fresh(c, s, now).(end := t.end) && t.end >= now
  {
    RoundUpBounds(now + MayDispatch(c, r, Fresh(c, s, now), size, now).wait, c.slice);
    hide BpsWait, IopsWait, RoundUp;
  }

  lemma RestartedOther(td: Td, y: Gid, now: int, x: Gid)
    requires y in td.groups && Clocked(td.clock, td.groups[y]) && x in td.groups && !td.groups[x].changed
    ensures x in Restarted(td, y, now).groups && Restarted(td, y, now).groups[x] == td.groups[x]
  {
    hide Timed;
  }

  // A slice started at this time, which may have been extended since.
  ghost predicate Renewed(c: Clock, w: Way, v: Way, now: int) {
    v.rate == w.rate && v.slice == Fresh(c, w.slice, now).(end := v.slice.end) && v.slice.end >= now
  }

  lemma RenewedHeld(c: Clock, w: Way, v: Way, now: int)
    requires ClockOk(c) && Renewed(c, w, v, now)
    ensures Held(c, v.rate, v.slice, |w.slice.sent|, now) && v.slice.sent == w.slice.sent && v.slice.start == now
  {
    StartInRate(c, v.rate, v.slice);
  }

  // Processing a limit change of the group renews both slices.
  lemma {:induction false} RestartAllRenews(td: Td, ids: seq<Gid>, now: int, x: Gid, d: Dir)
    requires TInv(td, now) && (forall y <- td.groups :: Clocked(td.clock, td.groups[y]))
    requires (forall y <- ids :: y in td.groups) && x in ids && x in td.groups && td.groups[x].changed
    ensures var g := RestartAll(td, ids, now).groups[x];
            !g.changed && Renewed(td.clock, Of(td.groups[x], d), Of(g, d), now)
    decreases |ids|
  {
    hide TInv, Restarted, Clocked, Renewed;
    var t := Restarted(td, ids[0], now);
    RestartedKeeps(td, ids[0], now);
    AllClocked(t, now);
    if ids[0] == x {
      RestartedRenews(td, x, now, d);
      RestartAllOther(t, ids[1..], now, x);
    } else {
      RestartedElse(td, ids[0], now, x);
      RestartAllRenews(t, ids[1..], now, x, d);
    }
  }

  lemma RestartedElse(td: Td, y: Gid, now: int, x: Gid)
    requires y in td.groups && Clocked(td.clock, td.groups[y]) && x in td.groups && x != y
    ensures x in Restarted(td, y, now).groups && Restarted(td, y, now).groups[x] == td.groups[x]
  {
    hide Timed;
  }

  lemma RestartedClocked(td: Td, y: Gid, now: int)
    requires (forall z <- td.groups :: Clocked(td.clock, td.groups[z])) && y in td.groups
    ensures var t := Restarted(td, y, now);
            t.clock == td.clock && t.groups.Keys == td.groups.Keys
            && forall z <- t.groups :: Clocked(t.clock, t.groups[z])
  {
  }

  lemma WorkLawful(td: Td, now: int, x: Gid, d: Dir, k: nat, s0: int)
    requires TInv(td, now) && x in td.groups && !td.groups[x].changed
    ensures var r := Work(td, now);
            && x in r.groups && Lawful(td.clock, Of(td.groups[x], d), Of(r.groups[x], d), k, s0, now)
            && !r.groups[x].changed && r.clock == td.clock
  {
    hide TInv, RestartAll, Select, Lawful, Clocked, Cached, Flows, DueSet;
    AllClocked(td, now);
    ProcessKeeps(td, now);
    var p := Process(td, now).(work := Idle);
    TInvOf(p, Process(td, now), now);
    QueuedMeans(p, now);
    if td.changed { RestartAllOther(td.(changed := false), td.list, now, x); }
    if Queued(p) == 0 {
      LawfulSelf(td.clock, Of(td.groups[x], d), k, s0, now);
    } else {
      SelectLawful(p, now, 0, x, d, k, s0);
      SelectOk(p, now, 0);
      FlowsUnchanged(p, Select(p, now, 0), x);
    }
  }

  // The work processes a limit change of the group, and then sends on the account
  // of the slices it renewed.
  lemma RestartAccounted(w: World, t: int, x: Gid, d: Dir)
    requires WInv(w) && Enabled(w, Timer(t)) && x in w.td.groups
    requires w.td.changed && w.td.groups[x].changed && w.td.groups[x].hashed && !NoRule(Of(w.td.groups[x], d).rate)
    ensures var v := Of(w.td.groups[x], d);
            OnAccount(w.td.clock, v.slice, Next(w, Timer(t)), x, d, v.rate, |v.slice.sent|, t)
  {
    hide TInv, RestartAll, Select, Lawful, Clocked, Held, RateBound, Cached, Flows, DueSet, Owned, Awake;
    var td := w.td;
    var v := Of(td.groups[x], d);
    Later(td, w.now, t);
    AllClocked(td, t);
    ProcessKeeps(td, t);
    var p := Process(td, t).(work := Idle);
    TInvOf(p, Process(td, t), t);
    TInvOf(td.(changed := false), td, t);
    ListedIs(td, x, t);
    RestartAllRenews(td.(changed := false), td.list, t, x, d);
    GroupIs(td, x, t);
    RenewedHeld(td.clock, v, Of(p.groups[x], d), t);
    QueuedMeans(p, t);
    if Queued(p) != 0 {
      SelectLawful(p, t, 0, x, d, |v.slice.sent|, t);
      SelectOk(p, t, 0);
      FlowsUnchanged(p, Select(p, t, 0), x);
      LawfulIs(td.clock, Of(p.groups[x], d), Of(Select(p, t, 0).groups[x], d), |v.slice.sent|, t, t);
    }
  }

  lemma ListedIs(td: Td, x: Gid, now: int)
    requires TInv(td, now) && x in td.groups && td.groups[x].hashed
    ensures x in td.list
  {
  }

  lemma LawfulIs(c: Clock, w: Way, v: Way, k: nat, s0: int, now: int)
    requires Lawful(c, w, v, k, s0, now) && Held(c, w.rate, w.slice, k, s0) && s0 <= now && w.slice.start <= now
    requires !NoRule(w.rate)
    ensures v.rate == w.rate && w.slice.sent <= v.slice.sent && Held(c, w.rate, v.slice, k, s0) && v.slice.start <= now
    ensures |w.slice.sent| < |v.slice.sent| ==> RateBound(c, w.rate, v.slice, k, s0, now)
  {
  }

  lemma FlowsUnchanged(td: Td, r: Td, x: Gid)
    requires Flows(td, r) && x in td.groups
    ensures x in r.groups && r.groups[x].changed == td.groups[x].changed && r.clock == td.clock
  {
  }

  // A bio submitted to some group, in some direction.
  lemma SubmitLawful(td: Td, y: Gid, e: Dir, b: TBio, now: int, x: Gid, d: Dir, k: nat, s0: int)
    requires TInv(td, now) && y in td.groups && x in td.groups && Clocked(td.clock, td.groups[y])
    ensures var r := Submit(td, y, e, b, now);
            && x in r.groups && Lawful(td.clock, Of(td.groups[x], d), Of(r.groups[x], d), k, s0, now)
            && r.groups[x].changed == td.groups[x].changed && r.clock == td.clock
  {
    hide TInv, Lawful, MayDispatch, Sent, Fit, Timed, Cached;
    GroupIs(td, y, now);
    LawfulSelf(td.clock, Of(td.groups[x], d), k, s0, now);
    if x == y { SubmitLawfulSame(td, x, e, b, now, d, k, s0); } else { SubmitOther(td, y, e, b, now, x); }
  }

  lemma SubmitOther(td: Td, y: Gid, e: Dir, b: TBio, now: int, x: Gid)
    requires TInv(td, now) && y in td.groups && x in td.groups && x != y && Clocked(td.clock, td.groups[y])
    ensures var r := Submit(td, y, e, b, now); x in r.groups && r.groups[x] == td.groups[x] && r.clock == td.clock
  {
    hide TInv, MayDispatch, Sent, Timed, Cached;
  }

  lemma SubmitLawfulSame(td: Td, x: Gid, e: Dir, b: TBio, now: int, d: Dir, k: nat, s0: int)
    requires TInv(td, now) && x in td.groups && Clocked(td.clock, td.groups[x])
    ensures var r := Submit(td, x, e, b, now);
            && x in r.groups && Lawful(td.clock, Of(td.groups[x], d), Of(r.groups[x], d), k, s0, now)
            && r.groups[x].changed == td.groups[x].changed && r.clock == td.clock
  {
    hide TInv, Lawful, MayDispatch, Sent, Timed, Cached;
    var c, g := td.clock, td.groups[x];
    GroupIs(td, x, now);
    LawfulSelf(c, Of(g, d), k, s0, now);
    var w := Of(g, e);
    var v := MayDispatch(c, w.rate, w.slice, b.size, now);
    if NoRule(w.rate) {
    } else if w.nr != 0 {
      LawfulQueue(c, Of(g, d), Of(Fed(g, e, b), d), k, s0, now);
    } else if v.ok {
      if d == e { SendLawful(c, w, Of(Submit(td, x, e, b, now).groups[x], d), b, k, s0, now); }
    } else {
      RefusedLawful(c, g, e, b, now, d, k, s0);
      SubmitRefused(td, x, e, b, now);
    }
  }

  // What a refused bio makes of its group.
  lemma SubmitRefused(td: Td, x: Gid, e: Dir, b: TBio, now: int)
    requires TInv(td, now) && x in td.groups && Clocked(td.clock, td.groups[x])
    requires var w := Of(td.groups[x], e);
             !NoRule(w.rate) && w.nr == 0 && !MayDispatch(td.clock, w.rate, w.slice, b.size, now).ok
    ensures var c, g := td.clock, td.groups[x];
            var w := Of(g, e);
            var f := Fed(With(g, e, w.(slice := MayDispatch(c, w.rate, w.slice, b.size, now).slice)), e, b);
            var r := Submit(td, x, e, b, now);
            && Clocked(c, f) && (f.rd.queue != [] || f.wr.queue != [])
            && x in r.groups && r.groups[x] == Timed(c, f, now).(onRr := true) && r.clock == c
            && r.groups[x].changed == g.changed
  {
    hide TInv, MayDispatch, Cached, Fit;
  }

  // A bio never overtakes another of its group and direction: sent at once or
  // queued, it comes last in the order of all of them.
  lemma SubmitInOrder(td: Td, x: Gid, d: Dir, b: TBio, now: int)
    requires TInv(td, now) && x in td.groups && !NoRule(Of(td.groups[x], d).rate)
    ensures Clocked(td.clock, td.groups[x]) && x in Submit(td, x, d, b, now).groups
    ensures var w, v := Of(td.groups[x], d), Of(Submit(td, x, d, b, now).groups[x], d);
            v.slice.sent + v.queue == w.slice.sent + w.queue + [b]
  {
    hide TInv, MayDispatch, Sent, Timed, Cached, Fit, Rekey, Scheduled;
    var c, g := td.clock, td.groups[x];
    var w := Of(g, d);
    GroupIs(td, x, now);
    var v := MayDispatch(c, w.rate, w.slice, b.size, now);
    if w.nr == 0 {
      NrIsLength(g, now);
      if v.ok { SentInOrder(c, g, d, b, now); } else {
        SubmitRefused(td, x, d, b, now);
        RefusedInOrder(c, g, d, b, now);
      }
    }
  }

  lemma SentInOrder(c: Clock, g: Grp, d: Dir, b: TBio, now: int)
    requires ClockOk(c) && Fit(g, now)
    ensures var w := Of(g, d);
            && RateOk(w.rate)
            && Sent(c, w.rate, MayDispatch(c, w.rate, w.slice, b.size, now).slice, b, now).sent == w.slice.sent + [b]
  {
    var w := Of(g, d);
    SliceSteps(c, w.rate, w.slice, b, now);
    SentSteps(c, w.rate, MayDispatch(c, w.rate, w.slice, b.size, now).slice, b, now);
  }

  lemma RefusedInOrder(c: Clock, g: Grp, d: Dir, b: TBio, now: int)
    requires ClockOk(c) && GroupOk(g, now) && Clocked(c, g)
    ensures var w := Of(g, d);
            var f := Fed(With(g, d, w.(slice := MayDispatch(c, w.rate, w.slice, b.size, now).slice)), d, b);
            && Clocked(c, f) && (f.rd.queue != [] || f.wr.queue != [])
            && var v := Of(Timed(c, f, now), d); v.slice.sent + v.queue == w.slice.sent + (w.queue + [b])
  {
    hide MayDispatch, Timed;
    var w := Of(g, d);
    var a := With(g, d, w.(slice := MayDispatch(c, w.rate, w.slice, b.size, now).slice));
    LookedOk(c, g, d, b, now);
    SliceSteps(c, w.rate, w.slice, b, now);
    FedOk(a, d, b, now);
    TimedOk(c, Fed(a, d, b), now);
  }

  // A refused bio: the slice was looked at, the bio queued, the waits asked for.
  lemma RefusedLawful(c: Clock, g: Grp, e: Dir, b: TBio, now: int, d: Dir, k: nat, s0: int)
    requires ClockOk(c) && GroupOk(g, now) && Clocked(c, g)
    ensures var w := Of(g, e);
            var f := Fed(With(g, e, w.(slice := MayDispatch(c, w.rate, w.slice, b.size, now).slice)), e, b);
            && Clocked(c, f) && (f.rd.queue != [] || f.wr.queue != [])
            && Lawful(c, Of(g, d), Of(Timed(c, f, now), d), k, s0, now)
  {
    hide Lawful, MayDispatch, Timed, Fit;
    var w := Of(g, e);
    var a := With(g, e, w.(slice := MayDispatch(c, w.rate, w.slice, b.size, now).slice));
    var f := Fed(a, e, b);
    if d == e { AskLawful(c, w, b.size, k, s0, now); } else { LawfulSelf(c, Of(g, d), k, s0, now); }
    LawfulQueue(c, Of(a, d), Of(f, d), k, s0, now);
    LawfulTrans(c, Of(g, d), Of(a, d), Of(f, d), k, s0, now);
    TimedLawful(c, f, d, now, k, s0);
    LawfulTrans(c, Of(g, d), Of(f, d), Of(Timed(c, f, now), d), k, s0, now);
  }

  // ------------------------------------------------------------- whole runs

  function Start(c: Clock): World {
    World(Td(c, map[], [], Tree([], End, 0), 0, 0, 0, false, Idle, false), 0, {}, Alive)
  }

  lemma StartOk(c: Clock)
    requires ClockOk(c)
    ensures WInv(Start(c))
  {
    assert Nrs(map[], Read) == map[] && Nrs(map[], Write) == map[] && Hashes(map[]) == map[];
  }

  ghost predicate Run(c: Clock, ws: seq<World>, es: seq<Event>) {
    && ClockOk(c) && |ws| == |es| + 1 && ws[0] == Start(c)
    && forall i :: 0 <= i < |es| ==> Enabled(ws[i], es[i]) && (WInv(ws[i]) ==> ws[i + 1] == Next(ws[i], es[i]))
  }

  // In every reachable state the books are right, and every next event is sound.
  lemma {:induction false} RunKeeps(c: Clock, ws: seq<World>, es: seq<Event>, n: nat)
    requires Run(c, ws, es) && n < |ws|
    ensures WInv(ws[n]) && (n < |es| ==> Sound(ws[n], es[n]))
  {
    hide WInv, Next, Enabled;
    if n == 0 { StartOk(c); } else {
      RunKeeps(c, ws, es, n - 1);
      NextKeeps(ws[n - 1], es[n - 1]);
    }
    if n < |es| { NextKeeps(ws[n], es[n]); }
  }

  // The books of every reachable state, in the source's terms.
  lemma RunBooks(c: Clock, ws: seq<World>, es: seq<Event>, n: nat)
    requires Run(c, ws, es) && n < |ws|
    ensures var td := ws[n].td;
            && td.rdQueued == Total(Nrs(td.groups, Read)) && td.wrQueued == Total(Nrs(td.groups, Write))
            && td.undestroyed == Total(Hashes(td.groups)) && td.tree.count == |td.tree.nodes|
            && (Queued(td) != 0 ==> td.tree.count > 0 && td.work.DueAt? &&
                                    td.work.time <= Max(td.tree.nodes[0].key, ws[n].now))
    ensures forall x <- ws[n].td.groups ::
              var g := ws[n].td.groups[x];
              && g.rd.nr == |g.rd.queue| && g.wr.nr == |g.wr.queue|
              && (g.onRr <==> g.rd.queue != [] || g.wr.queue != [])
              && (g.onRr <==> Node(g.disptime, x) in ws[n].td.tree.nodes)
              && g.ref == |g.rd.queue| + |g.wr.queue| + One(g.hashed)
              && g.dropped == 1 - One(g.hashed)
  {
    RunKeeps(c, ws, es, n);
    hide Total, Nrs, Hashes;
    forall x | x in ws[n].td.groups ensures GroupOk(ws[n].td.groups[x], ws[n].now) {}
  }

  // Once the queue's data is freed every group has lost its creation reference,
  // once, and no cgroup removal is on its way to it.
  lemma FreedIsFinal(c: Clock, ws: seq<World>, es: seq<Event>, n: nat)
    requires Run(c, ws, es) && n < |ws| && ws[n].phase == Freed
    ensures ws[n].claims == {} && ws[n].td.work == Idle
    ensures forall x <- ws[n].td.groups :: ws[n].td.groups[x].dropped == 1 && ws[n].td.groups[x].ref == 0
  {
    RunKeeps(c, ws, es, n);
    hide Run, TInv, Awake;
    var w := ws[n];
    QueuedMeans(w.td, w.now);
    forall x | x in w.td.groups ensures w.td.groups[x].dropped == 1 && w.td.groups[x].ref == 0 {
      GroupIs(w.td, x, w.now);
      assert x !in w.claims;
    }
  }

  // ------------------------------------------------------------ the rate bound

  // The direction d of group x, at its own limits since s0.
  ghost predicate Accounted(w: World, x: Gid, d: Dir, r: Rate, k: nat, s0: int) {
    && x in w.td.groups && !w.td.groups[x].changed
    && var v := Of(w.td.groups[x], d);
       v.rate == r && Held(w.td.clock, r, v.slice, k, s0) && v.slice.start <= w.now
  }

  predicate Undisturbed(e: Event, x: Gid) {
    !e.Cleanup? && !(e.Limit? && e.x == x) && !(e.NewGroup? && e.x == x)
  }

  // What an event sends of a direction is on its account, and within the bound.
  ghost predicate OnAccount(c: Clock, v: Slice, w': World, x: Gid, d: Dir, r: Rate, k: nat, s0: int) {
    && Accounted(w', x, d, r, k, s0)
    && var v' := Of(w'.td.groups[x], d).slice;
       v.sent <= v'.sent && (v'.sent != v.sent ==> RateBound(c, r, v', k, s0, w'.now))
  }

  lemma NextAccounted(w: World, e: Event, x: Gid, d: Dir, r: Rate, k: nat, s0: int)
    requires WInv(w) && Enabled(w, e) && Undisturbed(e, x) && Accounted(w, x, d, r, k, s0) && !NoRule(r)
    requires s0 <= Next(w, e).now
    ensures OnAccount(w.td.clock, Of(w.td.groups[x], d).slice, Next(w, e), x, d, r, k, s0)
  {
    hide Held, RateBound, TInv, Work, Submit, Awake, Owned, Unhash;
    match e
    case Bio(y, f, b, t) =>
      Later(w.td, w.now, t);
      SubmitKeeps(w.td, y, f, b, t);
      SubmitLawful(w.td, y, f, b, t, x, d, k, s0);
    case Timer(t) =>
      Later(w.td, w.now, t);
      WorkLawful(w.td, t, x, d, k, s0);
    case _ =>
  }

  // Where the account of a direction begins, in event e at time t: with the start
  // of the slice it finds; with any time up to t by which that slice has run out,
  // so that the first bio starts a new one; or with t, when the work has a limit
  // change of the group to process and restarts its slices.
  ghost predicate Begins(w: World, e: Event, t: int, x: Gid, d: Dir, s0: int) {
    && x in w.td.groups
    && var g := w.td.groups[x];
       var s := Of(g, d).slice;
       if g.changed then e.Timer? && w.td.changed && g.hashed && s0 == t
       else (s0 == s.start || s.end < s0) && s0 <= t
  }

  lemma TimeRuns(w: World, e: Event)
    requires WInv(w) && Enabled(w, e)
    ensures w.now <= Next(w, e).now
  {
  }

  // The first event of an account.
  lemma BeginsAccounted(w: World, e: Event, x: Gid, d: Dir, s0: int)
    requires WInv(w) && Enabled(w, e) && Undisturbed(e, x) && Begins(w, e, Next(w, e).now, x, d, s0)
    requires !NoRule(Of(w.td.groups[x], d).rate)
    ensures var v := Of(w.td.groups[x], d);
            OnAccount(w.td.clock, v.slice, Next(w, e), x, d, v.rate, |v.slice.sent|, s0)
  {
    var v := Of(w.td.groups[x], d);
    GroupIs(w.td, x, w.now);
    if w.td.groups[x].changed {
      RestartAccounted(w, e.t, x, d);
    } else {
      StartInRate(w.td.clock, v.rate, v.slice);
      hide WInv, Enabled, Next, InRate;
      NextAccounted(w, e, x, d, v.rate, |v.slice.sent|, s0);
    }
  }

  lemma {:induction false} RunAccounted(c: Clock, ws: seq<World>, es: seq<Event>, i: nat, n: nat, x: Gid, d: Dir,
                                        s0: int)
    requires Run(c, ws, es) && i <= n < |es| && Begins(ws[i], es[i], ws[i + 1].now, x, d, s0)
    requires !NoRule(Of(ws[i].td.groups[x], d).rate) && forall j :: i <= j <= n ==> Undisturbed(es[j], x)
    ensures x in ws[n].td.groups && s0 <= ws[n + 1].now
    ensures var v := Of(ws[i].td.groups[x], d);
            && v.slice.sent <= Of(ws[n].td.groups[x], d).slice.sent
            && OnAccount(c, Of(ws[n].td.groups[x], d).slice, ws[n + 1], x, d, v.rate, |v.slice.sent|, s0)
    decreases n
  {
    hide WInv, Next, Enabled, Held, RateBound;
    var v := Of(ws[i].td.groups[x], d);
    ClockFixed(c, ws, es, n);
    RunKeeps(c, ws, es, n);
    if i == n {
      BeginsAccounted(ws[i], es[i], x, d, s0);
    } else {
      RunAccounted(c, ws, es, i, n - 1, x, d, s0);
      TimeRuns(ws[n], es[n]);
      NextAccounted(ws[n], es[n], x, d, v.rate, |v.slice.sent|, s0);
    }
  }

  // The rate bound.  From any event i on, through any event n that sends a bio of
  // that direction, with the limits left alone: the bytes sent are at most
  // bps * (t - s0 + slice) / HZ, and likewise the bios.
  lemma RateLimit(c: Clock, ws: seq<World>, es: seq<Event>, i: nat, n: nat, x: Gid, d: Dir, s0: int)
    requires Run(c, ws, es) && i <= n < |es| && Begins(ws[i], es[i], ws[i + 1].now, x, d, s0)
    requires !NoRule(Of(ws[i].td.groups[x], d).rate) && forall j :: i <= j <= n ==> Undisturbed(es[j], x)
    ensures x in ws[n].td.groups && x in ws[n + 1].td.groups
    ensures var v := Of(ws[i].td.groups[x], d);
            var k, r := |v.slice.sent|, v.rate;
            var sent := Of(ws[n + 1].td.groups[x], d).slice.sent;
            sent != Of(ws[n].td.groups[x], d).slice.sent ==>
              && v.slice.sent <= sent
              && c.hz * Bytes(sent[k..]) <= r.bps * (ws[n + 1].now - s0 + c.slice)
              && c.hz * |sent[k..]| <= r.iops * (ws[n + 1].now - s0 + c.slice)
  {
    hide WInv, Next, Enabled, Held;
    var v := Of(ws[i].td.groups[x], d);
    RunAccounted(c, ws, es, i, n, x, d, s0);
    BytesFrom(Of(ws[n + 1].td.groups[x], d).slice.sent, |v.slice.sent|);
  }

  lemma {:induction false} ClockFixed(c: Clock, ws: seq<World>, es: seq<Event>, n: nat)
    requires Run(c, ws, es) && n < |ws|
    ensures ws[n].td.clock == c
  {
    hide WInv, Enabled, Next;
    if n > 0 {
      ClockFixed(c, ws, es, n - 1);
      RunKeeps(c, ws, es, n - 1);
      NextKeeps(ws[n - 1], es[n - 1]);
    }
  }

  lemma {:induction false} BytesFrom(sent: seq<TBio>, k: nat)
    requires k <= |sent|
    ensures Bytes(sent[k..]) == Bytes(sent) - Bytes(sent[..k])
  {
    if k < |sent| {
      var last := sent[..|sent| - 1];
      BytesFrom(last, k);
      assert sent[k..][..|sent[k..]| - 1] == last[k..];
      assert last[..k] == sent[..k];
    } else {
      assert sent[..k] == sent;
    }
  }
}
