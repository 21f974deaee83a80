/**
 Whole runs of the throttler: bios come and go, limits change, cgroups are
 removed while the queue is torn down.
 */
module ThrottleRuns {
  import opened Sums
  import opened ThrottleSlice
  import opened Throttle
  import opened ThrottleInv
  import opened ThrottleOps

  // ---------------------------------------------------------------- the work

  lemma {:induction false} RestartAllKeeps(td: Td, ids: seq<Gid>, now: int)
    requires TInv(td, now) && forall x <- ids :: x in td.groups
    ensures forall x <- td.groups :: Clocked(td.clock, td.groups[x])
    ensures var r := RestartAll(td, ids, now);
            TInv(r, now) && r.rdQueued == td.rdQueued && r.wrQueued == td.wrQueued && r.list == td.list
    decreases |ids|
  {
    hide TInv, Restarted, Clocked;
    AllClocked(td, now);
    if ids != [] {
      RestartedKeeps(td, ids[0], now);
      var t := Restarted(td, ids[0], now);
      AllClocked(t, now);
      RestartAllKeeps(t, ids[1..], now);
    }
  }

  lemma AllClocked(td: Td, now: int)
    requires TInv(td, now)
    ensures forall x <- td.groups :: Clocked(td.clock, td.groups[x])
    ensures forall x <- td.list :: x in td.groups
  {
    forall x | x in td.groups ensures Clocked(td.clock, td.groups[x]) { GroupIs(td, x, now); }
  }

  lemma ProcessKeeps(td: Td, now: int)
    requires TInv(td, now)
    ensures (forall x <- td.groups :: Clocked(td.clock, td.groups[x])) && (forall x <- td.list :: x in td.groups)
    ensures var r := Process(td, now);
            TInv(r, now) && r.rdQueued == td.rdQueued && r.wrQueued == td.wrQueued && r.list == td.list
  {
    hide TInv, RestartAll, Clocked;
    AllClocked(td, now);
    if td.changed {
      TInvOf(td.(changed := false), td, now);
      RestartAllKeeps(td.(changed := false), td.list, now);
    }
  }

  // throtl_dispatch: limit changes first, then a round, then the next one is
  // scheduled.
  function Work(td: Td, now: int): Td
    requires TInv(td, now)
  {
    AllClocked(td, now);
    ProcessKeeps(td, now);
    var p := Process(td, now).(work := Idle);
    TInvOf(p, Process(td, now), now);
    QueuedMeans(p, now);
    if Queued(p) == 0 then p else Scheduled(Select(p, now, 0), now)
  }

  // Waiting bios are never forgotten: the work is due no later than the head of
  // the tree.
  ghost predicate Awake(td: Td, now: int) {
    Queued(td) != 0 ==> td.tree.nodes != [] && td.work.DueAt? && td.work.time <= Max(td.tree.nodes[0].key, now)
  }

  lemma ScheduledAwake(td: Td, now: int)
    requires TInv(td, now)
    ensures Awake(Scheduled(td, now), now)
  {
    QueuedMeans(td, now);
    CachedKeeps(td.tree);
  }

  lemma WorkKeeps(td: Td, now: int)
    requires TInv(td, now)
    ensures TInv(Work(td, now), now) && Awake(Work(td, now), now) && 0 <= Queued(Work(td, now)) <= Queued(td)
  {
    hide TInv, Process, Select, Scheduled, Awake, Flows, DueSet;
    AllClocked(td, now);
    ProcessKeeps(td, now);
    var p := Process(td, now).(work := Idle);
    TInvOf(p, Process(td, now), now);
    QueuedMeans(p, now);
    if Queued(p) == 0 {
      NoneAwake(p, now);
    } else {
      SelectOk(p, now, 0);
      var r := Select(p, now, 0);
      QueuedMeans(r, now);
      ScheduledKeeps(r, now);
      ScheduledAwake(r, now);
      ScheduledQueued(r, now);
    }
  }

  lemma NoneAwake(td: Td, now: int)
    requires Queued(td) == 0
    ensures Awake(td, now)
  {
  }

  lemma ScheduledQueued(td: Td, now: int)
    ensures Queued(Scheduled(td, now)) == Queued(td)
  {
  }

  // ---------------------------------------------------------------- draining

  lemma {:induction false} DrainWayOk(c: Clock, g: Grp, d: Dir, now: int)
    requires ClockOk(c) && Fit(g, now)
    ensures var r := DrainWay(c, g, d, now); Fit(r, now) && Advanced(g, r, d) && Of(r, d).queue == []
    decreases |Of(g, d).queue|
  {
    if Of(g, d).queue != [] {
      SendHeadOk(c, g, d, now);
      hide SendHead;
      DrainWayOk(c, SendHead(c, g, d, now), d, now);
      AdvancedTrans(g, SendHead(c, g, d, now), DrainWay(c, g, d, now), d);
    }
  }

  lemma DrainedKeeps(td: Td, x: Gid, now: int)
    requires TInv(td, now) && First(td.tree) == At(x)
    ensures x in td.groups && ClockOk(td.clock)
    ensures var r := Drained(td, x, now);
            TInv(r, now) && |r.tree.nodes| == |td.tree.nodes| - 1 && r.groups.Keys == td.groups.Keys
  {
    hide TreeOk, Hung, Counted, Listed, GroupsOk, DrainWay, Erase, Cached;
    HeadOk(td, now);
    GroupIs(td, x, now);
    var g := td.groups[x];
    var m := DrainWay(td.clock, g, Read, now);
    var r := DrainWay(td.clock, m, Write, now);
    DrainWayOk(td.clock, g, Read, now);
    DrainWayOk(td.clock, m, Write, now);
    RequeuedKeeps(td, x, r, now);
    HeadErased(td.tree, x);
  }

  lemma HeadErased(t: Tree, x: Gid)
    requires TreeOk(t) && First(t) == At(x)
    ensures |Erase(Cached(t), x).nodes| == |t.nodes| - 1
  {
    CachedKeeps(t);
  }

  // blk_throtl_drain
  function Drain(td: Td, now: int): (r: Td)
    requires TInv(td, now)
    decreases |td.tree.nodes|
  {
    match First(td.tree)
    case End => td
    case At(x) => DrainedKeeps(td, x, now); Drain(Drained(td, x, now), now)
  }

  lemma {:induction false} DrainKeeps(td: Td, now: int)
    requires TInv(td, now)
    ensures TInv(Drain(td, now), now) && Queued(Drain(td, now)) == 0 && Drain(td, now).groups.Keys == td.groups.Keys
    decreases |td.tree.nodes|
  {
    hide TInv, Drained, First;
    match First(td.tree)
    case End => DrainEnd(td, now);
    case At(x) =>
      DrainedKeeps(td, x, now);
      DrainKeeps(Drained(td, x, now), now);
  }

  lemma DrainEnd(td: Td, now: int)
    requires TInv(td, now) && First(td.tree) == End
    ensures Queued(td) == 0
  {
    CachedKeeps(td.tree);
    QueuedMeans(td, now);
  }

  // ------------------------------------------------------ groups come and go

  lemma CreateKeeps(td: Td, x: Gid, rd: Rate, wr: Rate, now: int)
    requires TInv(td, now) && x !in td.groups && RateOk(rd) && RateOk(wr) && now >= 0
    ensures TInv(Create(td, x, rd, wr), now)
  {
    hide Counted, TreeOk, GroupsOk, Listed, Hung, GroupOk;
    var g := Create(td, x, rd, wr).groups[x];
    assert GroupOk(g, now) by { NewGroupOk(rd, wr, now); }
    CountedSet(td.groups, td.rdQueued, td.wrQueued, td.undestroyed, x, g);
    GroupsSet(td.groups, x, g, now);
    CreateLists(td, x, g);
  }

  lemma NewGroupOk(rd: Rate, wr: Rate, now: int)
    requires RateOk(rd) && RateOk(wr) && now >= 0
    ensures GroupOk(Grp(Way([], 0, Never(), rd), Way([], 0, Never(), wr), 0, false, 1, 0, true, true, false), now)
  {
  }

  lemma CreateLists(td: Td, x: Gid, g: Grp)
    requires Listed(td.groups, td.list) && Hung(td.groups, td.tree.nodes) && x !in td.groups && g.hashed && !g.onRr
    ensures Listed(td.groups[x := g], [x] + td.list) && Hung(td.groups[x := g], td.tree.nodes)
  {
    assert x !in td.list;
    assert ([x] + td.list)[1..] == td.list;
  }

  lemma UnlinkedKeeps(td: Td, x: Gid, now: int)
    requires TInv(td, now) && x in td.groups
    ensures TInv(Unlinked(td, x), now)
  {
    hide TInv;
    GroupIs(td, x, now);
    SetKeeps(td, x, td.groups[x].(linked := false), now);
  }

  lemma {:induction false} UnhashMembers(s: seq<Gid>, x: Gid)
    requires Uniq(s)
    ensures Uniq(Unhash(s, x)) && forall y :: y in Unhash(s, x) <==> y in s && y != x
  {
    if s != [] {
      assert s == [s[0]] + s[1..];
      if s[0] != x {
        UnhashMembers(s[1..], x);
        assert Unhash(s, x)[1..] == Unhash(s[1..], x);
      }
    }
  }

  lemma DropLists(groups: map<Gid, Grp>, list: seq<Gid>, x: Gid, g: Grp)
    requires Listed(groups, list) && x in groups && !g.hashed
    ensures Listed(groups[x := g], Unhash(list, x))
  {
    UnhashMembers(list, x);
  }

  lemma DroppedOk(g: Grp, now: int)
    requires GroupOk(g, now) && g.hashed && !g.linked
    ensures GroupOk(g.(hashed := false, ref := g.ref - 1, dropped := g.dropped + 1), now) && g.ref >= 1
  {
  }

  // throtl_destroy_tg drops the creation reference of a group on the list.
  lemma DestroyedKeeps(td: Td, x: Gid, now: int)
    requires TInv(td, now) && x in td.groups && td.groups[x].hashed && !td.groups[x].linked
    ensures TInv(Destroyed(td, x), now) && td.groups[x].ref >= 1
  {
    hide Counted, TreeOk, GroupsOk, Listed, Hung, GroupOk, Unhash;
    var g := td.groups[x];
    GroupIs(td, x, now);
    DroppedOk(g, now);
    var g' := g.(hashed := false, ref := g.ref - 1, dropped := g.dropped + 1);
    CountedSet(td.groups, td.rdQueued, td.wrQueued, td.undestroyed, x, g');
    GroupsSet(td.groups, x, g', now);
    HungSet(td.groups, td.tree.nodes, x, g');
    DropLists(td.groups, td.list, x, g');
  }

  // ------------------------------------------------------------- the teardown

  // Queue exit stops the work, holds the queue lock while it releases the groups
  // one by one, waits if it has to, and stops the work again.
  datatype Phase = Alive | Stopped | Releasing(rest: seq<Gid>) | Exited(waits: bool) | Closed | Freed

  // The queue's throttle data, the clock, and the groups a cgroup removal has
  // taken off its list and is about to destroy.
  datatype World = World(td: Td, now: int, claims: set<Gid>, phase: Phase)

  datatype Event =
    | NewGroup(x: Gid, rd: Rate, wr: Rate)
    | Bio(x: Gid, d: Dir, b: TBio, t: int)
    | Timer(t: int)
    | Limit(x: Gid, d: Dir, r: Rate, t: int)
    | Unlink(x: Gid)                    // cgroup removal, under the cgroup's lock
    | Destroy(x: Gid)                   // cgroup removal, under the queue lock
    | Cleanup(t: int)                   // the queue is marked dead and drained
    | BeginExit                         // the first throtl_shutdown_wq
    | BeginRelease                      // the queue lock is taken
    | Release
    | EndRelease                        // ... and given back
    | Shutdown                          // synchronize_rcu and the second throtl_shutdown_wq
    | Free                              // blk_throtl_release

  // What is under the queue lock waits while exit holds it; only the queue's dead
  // flag and the links of a group keep the rest of the kernel out.
  ghost predicate Enabled(w: World, e: Event) {
    var td := w.td;
    var free := !w.phase.Releasing?;
    match e
    case NewGroup(x, rd, wr) => free && !td.dead && x !in td.groups && RateOk(rd) && RateOk(wr)
    case Bio(x, _, _, t) => free && !td.dead && x in td.groups && td.groups[x].hashed && w.now <= t
    case Timer(t) => free && td.work.DueAt? && td.work.time <= t && w.now <= t
    case Limit(x, _, r, t) => x in td.groups && td.groups[x].linked && RateOk(r) && w.now <= t
    case Unlink(x) => x in td.groups && td.groups[x].linked
    case Destroy(x) => free && x in w.claims
    case Cleanup(t) => w.phase == Alive && w.now <= t
    case BeginExit => td.dead && w.phase == Alive
    case BeginRelease => w.phase == Stopped
    case Release => w.phase.Releasing? && w.phase.rest != []
    case EndRelease => w.phase == Releasing([])
    case Shutdown => w.phase.Exited? && (w.phase.waits ==> w.claims == {})
    case Free => w.phase == Closed
  }

  // The groups and who is to destroy them.
  ghost predicate Owned(groups: map<Gid, Grp>, claims: set<Gid>, phase: Phase) {
    && (forall x :: x in claims <==> x in groups && groups[x].hashed && !groups[x].linked)
    && (match phase
        case Alive => true
        case Stopped => true
        case Releasing(rest) =>
          && Uniq(rest) && (forall x <- rest :: x in groups && groups[x].hashed)
          && (forall x <- groups :: groups[x].linked ==> x in rest)
        case Exited(waits) => (forall x <- groups :: !groups[x].linked) && (waits || claims == {})
        case Closed => (forall x <- groups :: !groups[x].linked) && claims == {}
        case Freed => (forall x <- groups :: !groups[x].linked) && claims == {})
  }

  ghost predicate WInv(w: World) {
    && TInv(w.td, w.now) && Awake(w.td, w.now) && w.now >= 0
    && Owned(w.td.groups, w.claims, w.phase)
    && (w.td.dead ==> Queued(w.td) == 0) && (w.phase != Alive ==> w.td.dead)
    && (w.phase == Closed || w.phase == Freed ==> w.td.work == Idle)
  }

  // The queue data is still there, the group is too, and no BUG_ON fires.
  ghost predicate Sound(w: World, e: Event) {
    var td := w.td;
    match e
    case Bio(x, _, _, _) => w.phase != Freed && x in td.groups && td.groups[x].ref >= 1
    case Timer(t) => w.phase != Freed
    case Destroy(x) => w.phase != Freed && x in td.groups && td.groups[x].hashed && td.groups[x].ref >= 1
    case Limit(_, _, _, _) => w.phase != Freed
    case Unlink(_) => w.phase != Freed
    case Release =>
      w.phase.Releasing? && w.phase.rest != [] && var x := w.phase.rest[0];
      x in td.groups && (td.groups[x].linked ==> td.groups[x].hashed && td.groups[x].ref >= 1)
    case _ => true
  }

  function Next(w: World, e: Event): World
    requires WInv(w) && Enabled(w, e)
  {
    var td := w.td;
    match e
    case NewGroup(x, rd, wr) => w.(td := Create(td, x, rd, wr))
    case Bio(x, d, b, t) => Later(td, w.now, t); SubmitKeeps(td, x, d, b, t); w.(td := Submit(td, x, d, b, t), now := t)
    case Timer(t) => Later(td, w.now, t); w.(td := Work(td, t), now := t)
    case Limit(x, d, r, t) => w.(td := SetRate(td, x, d, r, t), now := t)
    case Unlink(x) => w.(td := Unlinked(td, x), claims := w.claims + {x})
    case Destroy(x) => w.(td := Destroyed(td, x), claims := w.claims - {x})
    case Cleanup(t) =>
      Later(td, w.now, t);
      TInvOf(td.(dead := true), td, t);
      w.(td := Drain(td.(dead := true), t), now := t)
    case BeginExit => w.(td := td.(work := Idle), phase := Stopped)
    case BeginRelease => w.(phase := Releasing(td.list))
    case Release => w.(td := Released(td, w.phase.rest[0]), phase := Releasing(w.phase.rest[1..]))
    case EndRelease => w.(phase := Exited(td.undestroyed > 0))
    case Shutdown => w.(td := td.(work := Idle), phase := Closed)
    case Free => w.(phase := Freed)
  }

  // Nothing comes or goes, and the owners stay the same.
  ghost predicate Steady(td: Td, r: Td) {
    && r.groups.Keys == td.groups.Keys && r.dead == td.dead && r.clock == td.clock
    && forall x <- td.groups :: r.groups[x].hashed == td.groups[x].hashed && r.groups[x].linked == td.groups[x].linked
  }

  lemma SteadyOwned(td: Td, r: Td, claims: set<Gid>, phase: Phase)
    requires Steady(td, r) && Owned(td.groups, claims, phase)
    ensures Owned(r.groups, claims, phase)
  {
  }

  lemma SteadyTrans(a: Td, b: Td, c: Td)
    requires Steady(a, b) && Steady(b, c)
    ensures Steady(a, c)
  {
    forall x | x in a.groups
      ensures x in c.groups && c.groups[x].hashed == a.groups[x].hashed && c.groups[x].linked == a.groups[x].linked {
      assert x in b.groups;
    }
  }

  lemma FlowsSteady(td: Td, r: Td)
    requires Flows(td, r)
    ensures Steady(td, r)
  {
  }

  lemma SubmitSteady(td: Td, x: Gid, d: Dir, b: TBio, now: int)
    requires TInv(td, now) && x in td.groups && Awake(td, now) && Clocked(td.clock, td.groups[x])
    ensures var r := Submit(td, x, d, b, now); Steady(td, r) && Awake(r, now)
  {
    hide TInv, Awake, Steady, MayDispatch, Sent, Rekey, Scheduled, Fit, AddBio, Clocked;
    var g := td.groups[x];
    var w := Of(g, d);
    GroupIs(td, x, now);
    if NoRule(w.rate) {
      FlowsSelf(td);
      FlowsSteady(td, td);
    } else if w.nr != 0 {
      AddBioSteady(td, x, d, b);
      AddBioAwake(td, x, d, b, now);
    } else {
      var v := MayDispatch(td.clock, w.rate, w.slice, b.size, now);
      if v.ok {
        SliceSteady(td, x, d, Sent(td.clock, w.rate, v.slice, b, now), now);
      } else {
        SliceSteady(td, x, d, v.slice, now);
        var t := td.(groups := td.groups[x := With(g, d, w.(slice := v.slice))]);
        LookedOk(td.clock, g, d, b, now);
        SetSlice(td, x, d, v.slice, now);
        QueuedSteady(t, x, d, b, now);
        SteadyTrans(td, t, Submit(td, x, d, b, now));
      }
    }
  }

  lemma SliceSteady(td: Td, x: Gid, d: Dir, s: Slice, now: int)
    requires x in td.groups && Awake(td, now)
    ensures var r := td.(groups := td.groups[x := With(td.groups[x], d, Of(td.groups[x], d).(slice := s))]);
            Steady(td, r) && Awake(r, now)
  {
  }

  lemma AddBioSteady(td: Td, x: Gid, d: Dir, b: TBio)
    requires x in td.groups
    ensures Steady(td, AddBio(td, x, d, b))
  {
  }

  lemma AddBioAwake(td: Td, x: Gid, d: Dir, b: TBio, now: int)
    requires TInv(td, now) && x in td.groups && Awake(td, now) && Of(td.groups[x], d).nr != 0
    ensures Awake(AddBio(td, x, d, b), now)
  {
    hide TInv;
    GroupIs(td, x, now);
    QueuedMeans(td, now);
  }

  // A refused bio is queued, and the work scheduled for it.
  lemma QueuedSteady(td: Td, x: Gid, d: Dir, b: TBio, now: int)
    requires TInv(td, now) && x in td.groups
    ensures TInv(AddBio(td, x, d, b), now)
    ensures var a := AddBio(td, x, d, b);
            && Clocked(a.clock, a.groups[x]) && (a.groups[x].rd.queue != [] || a.groups[x].wr.queue != [])
            && Steady(td, Scheduled(Rekey(a, x, now), now)) && Awake(Scheduled(Rekey(a, x, now), now), now)
  {
    hide TInv, Awake, Steady, Rekey, Scheduled, Flows, AddBio, Clocked;
    var a := AddBio(td, x, d, b);
    AddBioKeeps(td, x, d, b, now);
    FedBusy(td, x, d, b, now);
    RekeyKeeps(a, x, now);
    var r := Rekey(a, x, now);
    FlowsSteady(a, r);
    ScheduledAwake(r, now);
    ScheduledSteady(r, now);
    AddBioSteady(td, x, d, b);
    SteadyTrans(td, a, r);
    SteadyTrans(td, r, Scheduled(r, now));
  }

  lemma ScheduledSteady(td: Td, now: int)
    ensures Steady(td, Scheduled(td, now))
  {
  }

  lemma RestartedSteady(td: Td, x: Gid, now: int)
    requires TInv(td, now) && x in td.groups && Clocked(td.clock, td.groups[x])
    ensures Steady(td, Restarted(td, x, now))
  {
    hide TInv, Rekey, Fit, Flows, Moved;
    var g := td.groups[x];
    GroupIs(td, x, now);
    if g.changed {
      var c := td.clock;
      var g' := g.(rd := g.rd.(slice := Fresh(c, g.rd.slice, now)), wr := g.wr.(slice := Fresh(c, g.wr.slice, now)),
                   changed := false);
      var t := td.(groups := td.groups[x := g']);
      assert Steady(td, t);
      if g.onRr && (g.rd.queue != [] || g.wr.queue != []) {
        FreshGroup(c, g, now);
        SetKeeps(td, x, g', now);
        RekeyKeeps(t, x, now);
        FlowsSteady(t, Rekey(t, x, now));
        SteadyTrans(td, t, Rekey(t, x, now));
      }
    }
  }

  lemma {:induction false} RestartAllSteady(td: Td, ids: seq<Gid>, now: int)
    requires TInv(td, now) && forall x <- ids :: x in td.groups
    requires forall x <- td.groups :: Clocked(td.clock, td.groups[x])
    ensures Steady(td, RestartAll(td, ids, now))
    decreases |ids|
  {
    hide TInv, Restarted, Clocked;
    if ids != [] {
      var t := Restarted(td, ids[0], now);
      RestartedKeeps(td, ids[0], now);
      RestartedSteady(td, ids[0], now);
      AllClocked(t, now);
      RestartAllSteady(t, ids[1..], now);
      SteadyTrans(td, t, RestartAll(td, ids, now));
    }
  }

  lemma WorkSteady(td: Td, now: int)
    requires TInv(td, now)
    ensures Steady(td, Work(td, now))
  {
    hide TInv, RestartAll, Select, Scheduled, Flows, DueSet, Clocked;
    AllClocked(td, now);
    ProcessKeeps(td, now);
    var p := Process(td, now).(work := Idle);
    TInvOf(p, Process(td, now), now);
    QueuedMeans(p, now);
    assert Steady(td, p) by {
      if td.changed {
        TInvOf(td.(changed := false), td, now);
        RestartAllSteady(td.(changed := false), td.list, now);
      }
    }
    if Queued(p) != 0 {
      SelectOk(p, now, 0);
      FlowsSteady(p, Select(p, now, 0));
      ScheduledSteady(Select(p, now, 0), now);
      SteadyTrans(p, Select(p, now, 0), Work(td, now));
      SteadyTrans(td, p, Work(td, now));
    }
  }

  lemma {:induction false} DrainSteady(td: Td, now: int)
    requires TInv(td, now)
    ensures Steady(td, Drain(td, now))
    decreases |td.tree.nodes|
  {
    hide TInv, Drained, First;
    match First(td.tree)
    case End =>
    case At(x) =>
      DrainedKeeps(td, x, now);
      DrainedSteady(td, x, now);
      DrainSteady(Drained(td, x, now), now);
      SteadyTrans(td, Drained(td, x, now), Drain(td, now));
  }

  lemma DrainedSteady(td: Td, x: Gid, now: int)
    requires TInv(td, now) && x in td.groups && ClockOk(td.clock)
    ensures Steady(td, Drained(td, x, now))
  {
    hide TInv, DrainWay, Fit, Erase, Cached, Add;
    GroupIs(td, x, now);
    var g := td.groups[x];
    var m := DrainWay(td.clock, g, Read, now);
    DrainWayOk(td.clock, g, Read, now);
    DrainWayOk(td.clock, m, Write, now);
  }

  // ---------------------------------------------------------------- events

  lemma BioKeeps(w: World, x: Gid, d: Dir, b: TBio, t: int)
    requires WInv(w) && Enabled(w, Bio(x, d, b, t))
    ensures WInv(Next(w, Bio(x, d, b, t))) && Next(w, Bio(x, d, b, t)).td.clock == w.td.clock
  {
    hide TInv, Submit, Owned, Awake, Steady, Clocked;
    Later(w.td, w.now, t);
    AwakeLater(w.td, w.now, t);
    SubmitKeeps(w.td, x, d, b, t);
    SubmitSteady(w.td, x, d, b, t);
    SteadyDead(w.td, Submit(w.td, x, d, b, t));
    SteadyOwned(w.td, Submit(w.td, x, d, b, t), w.claims, w.phase);
  }

  lemma SteadyDead(td: Td, r: Td)
    requires Steady(td, r)
    ensures r.dead == td.dead && r.clock == td.clock
  {
  }

  lemma AwakeLater(td: Td, now: int, t: int)
    requires Awake(td, now) && now <= t
    ensures Awake(td, t)
  {
  }

  lemma TimerKeeps(w: World, t: int)
    requires WInv(w) && Enabled(w, Timer(t))
    ensures WInv(Next(w, Timer(t))) && Next(w, Timer(t)).td.clock == w.td.clock
  {
    hide TInv, Work, Owned, Awake, Steady;
    Later(w.td, w.now, t);
    WorkKeeps(w.td, t);
    WorkSteady(w.td, t);
    SteadyDead(w.td, Work(w.td, t));
    SteadyOwned(w.td, Work(w.td, t), w.claims, w.phase);
  }

  lemma CleanupKeeps(w: World, t: int)
    requires WInv(w) && Enabled(w, Cleanup(t))
    ensures WInv(Next(w, Cleanup(t))) && Next(w, Cleanup(t)).td.clock == w.td.clock
  {
    hide TInv, Drain, Owned, Awake, Steady;
    var td := w.td.(dead := true);
    Later(w.td, w.now, t);
    TInvOf(td, w.td, t);
    DrainKeeps(td, t);
    DrainSteady(td, t);
    SteadyDead(td, Drain(td, t));
    SteadyOwned(td, Drain(td, t), w.claims, w.phase);
    NoneAwake(Drain(td, t), t);
  }

  lemma LimitKeeps(w: World, x: Gid, d: Dir, r: Rate, t: int)
    requires WInv(w) && Enabled(w, Limit(x, d, r, t))
    ensures WInv(Next(w, Limit(x, d, r, t)))
  {
    hide TInv, Owned;
    Later(w.td, w.now, t);
    SetRateKeeps(w.td, x, d, r, t);
    assert Steady(w.td, SetRate(w.td, x, d, r, t));
    SteadyOwned(w.td, SetRate(w.td, x, d, r, t), w.claims, w.phase);
  }

  // Being awake is about the counters, the tree and the work only.
  lemma AwakeOf(a: Td, b: Td, now: int)
    requires Awake(b, now) && Queued(a) == Queued(b) && a.tree == b.tree && a.work == b.work
    ensures Awake(a, now)
  {
  }

  lemma OwnedNew(groups: map<Gid, Grp>, claims: set<Gid>, x: Gid, g: Grp)
    requires Owned(groups, claims, Alive) && x !in groups && g.linked && g.hashed
    ensures Owned(groups[x := g], claims, Alive)
  {
  }

  lemma OwnedUnlink(groups: map<Gid, Grp>, claims: set<Gid>, phase: Phase, x: Gid)
    requires Owned(groups, claims, phase) && x in groups && groups[x].linked && groups[x].hashed
    ensures Owned(groups[x := groups[x].(linked := false)], claims + {x}, phase)
  {
  }

  lemma OwnedDestroy(groups: map<Gid, Grp>, claims: set<Gid>, phase: Phase, x: Gid, g: Grp)
    requires Owned(groups, claims, phase) && x in claims && !phase.Releasing? && !g.hashed && !g.linked
    ensures Owned(groups[x := g], claims - {x}, phase)
  {
  }

  lemma OwnedRelease(groups: map<Gid, Grp>, claims: set<Gid>, rest: seq<Gid>, g: Grp)
    requires rest != [] && Owned(groups, claims, Releasing(rest)) && groups[rest[0]].linked && !g.hashed && !g.linked
    ensures Owned(groups[rest[0] := g], claims, Releasing(rest[1..]))
  {
    assert rest == [rest[0]] + rest[1..];
  }

  lemma OwnedSkip(groups: map<Gid, Grp>, claims: set<Gid>, rest: seq<Gid>)
    requires rest != [] && Owned(groups, claims, Releasing(rest)) && !groups[rest[0]].linked
    ensures Owned(groups, claims, Releasing(rest[1..]))
  {
    assert rest == [rest[0]] + rest[1..];
  }

  // Groups still undestroyed when the queue exits are exactly the claimed ones.
  lemma OwnedExit(groups: map<Gid, Grp>, claims: set<Gid>, n: int)
    requires Owned(groups, claims, Releasing([])) && n == Total(Hashes(groups))
    ensures Owned(groups, claims, Exited(n > 0))
  {
    TotalNonneg(Hashes(groups));
    forall x | x in groups && n == 0 ensures !groups[x].hashed {
      assert Hashes(groups)[x] == 0;
    }
    hide Total;
  }

  lemma ClaimIs(groups: map<Gid, Grp>, claims: set<Gid>, phase: Phase, x: Gid)
    requires Owned(groups, claims, phase) && x in claims
    ensures x in groups && groups[x].hashed && !groups[x].linked && phase != Freed
  {
  }

  lemma RestIs(groups: map<Gid, Grp>, claims: set<Gid>, rest: seq<Gid>)
    requires Owned(groups, claims, Releasing(rest)) && rest != []
    ensures rest[0] in groups && groups[rest[0]].hashed
  {
  }

  lemma NewGroupKeeps(w: World, x: Gid, rd: Rate, wr: Rate)
    requires WInv(w) && Enabled(w, NewGroup(x, rd, wr))
    ensures WInv(Next(w, NewGroup(x, rd, wr)))
  {
    hide TInv, Owned, Awake;
    var t := Create(w.td, x, rd, wr);
    CreateKeeps(w.td, x, rd, wr, w.now);
    AwakeOf(t, w.td, w.now);
    OwnedNew(w.td.groups, w.claims, x, t.groups[x]);
  }

  lemma UnlinkKeeps(w: World, x: Gid)
    requires WInv(w) && Enabled(w, Unlink(x))
    ensures WInv(Next(w, Unlink(x)))
  {
    hide TInv, Owned, Awake;
    GroupIs(w.td, x, w.now);
    UnlinkedKeeps(w.td, x, w.now);
    AwakeOf(Unlinked(w.td, x), w.td, w.now);
    OwnedUnlink(w.td.groups, w.claims, w.phase, x);
  }

  lemma DestroyKeeps(w: World, x: Gid)
    requires WInv(w) && Enabled(w, Destroy(x))
    ensures Sound(w, Destroy(x)) && WInv(Next(w, Destroy(x)))
  {
    hide TInv, Owned, Awake, Unhash;
    ClaimIs(w.td.groups, w.claims, w.phase, x);
    var t := Destroyed(w.td, x);
    DestroyedKeeps(w.td, x, w.now);
    AwakeOf(t, w.td, w.now);
    OwnedDestroy(w.td.groups, w.claims, w.phase, x, t.groups[x]);
  }

  // throtl_release_tgs got to the group first.
  lemma ReleasedFirst(td: Td, x: Gid, now: int)
    requires TInv(td, now) && x in td.groups && td.groups[x].linked && td.groups[x].hashed
    ensures var t := Released(td, x);
            && TInv(t, now) && td.groups[x].ref >= 1
            && x in t.groups && t.groups == td.groups[x := t.groups[x]] && !t.groups[x].hashed && !t.groups[x].linked
            && t.rdQueued == td.rdQueued && t.wrQueued == td.wrQueued && t.tree == td.tree && t.work == td.work
            && t.dead == td.dead
  {
    hide TInv, Unhash;
    var u := Unlinked(td, x);
    UnlinkedKeeps(td, x, now);
    DestroyedKeeps(u, x, now);
    var t := Destroyed(u, x);
    assert t.groups == td.groups[x := t.groups[x]];
  }

  lemma ReleaseKeeps(w: World)
    requires WInv(w) && Enabled(w, Release)
    ensures Sound(w, Release) && WInv(Next(w, Release))
  {
    hide TInv, Owned, Awake, Unhash, Released;
    var x := w.phase.rest[0];
    var td := w.td;
    RestIs(td.groups, w.claims, w.phase.rest);
    if td.groups[x].linked {
      ReleasedFirst(td, x, w.now);
      var t := Released(td, x);
      AwakeOf(t, td, w.now);
      OwnedRelease(td.groups, w.claims, w.phase.rest, t.groups[x]);
    } else {
      ReleasedSkips(td, x);
      OwnedSkip(td.groups, w.claims, w.phase.rest);
    }
  }

  lemma ReleasedSkips(td: Td, x: Gid)
    requires x in td.groups && !td.groups[x].linked
    ensures Released(td, x) == td
  {
  }

  lemma EndReleaseKeeps(w: World)
    requires WInv(w) && Enabled(w, EndRelease)
    ensures WInv(Next(w, EndRelease))
  {
    hide Owned, Awake, Total, TreeOk, Hung, GroupsOk, Listed;
    OwnedExit(w.td.groups, w.claims, w.td.undestroyed);
  }

  lemma BeginReleaseKeeps(w: World)
    requires WInv(w) && Enabled(w, BeginRelease)
    ensures WInv(Next(w, BeginRelease))
  {
    hide Awake, Counted, TreeOk, Hung;
    forall x | x in w.td.groups && w.td.groups[x].linked ensures x in w.td.list {
      assert GroupOk(w.td.groups[x], w.now);
    }
  }

  // Stopping the work forgets no bio, since the queue is dead and drained.
  lemma StopKeeps(w: World, e: Event)
    requires WInv(w) && Enabled(w, e) && (e == BeginExit || e == Shutdown)
    ensures WInv(Next(w, e))
  {
    hide TInv, Awake;
    var t := w.td.(work := Idle);
    TInvOf(t, w.td, w.now);
    NoneAwake(t, w.now);
  }

  // A due work is never that of freed data: a limit change that queued it came
  // from a group still linked.
  lemma WorkMeans(w: World, t: int)
    requires WInv(w) && Enabled(w, Timer(t))
    ensures w.phase != Freed && w.phase != Closed
  {
  }

  // Every event is sound, and keeps the books.
  lemma NextKeeps(w: World, e: Event)
    requires WInv(w) && Enabled(w, e)
    ensures Sound(w, e) && WInv(Next(w, e)) && Next(w, e).td.clock == w.td.clock
  {
    match e
    case NewGroup(x, rd, wr) => NewGroupKeeps(w, x, rd, wr);
    case Bio(x, d, b, t) => GroupIs(w.td, x, w.now); hide WInv; BioKeeps(w, x, d, b, t);
    case Timer(t) => WorkMeans(w, t); hide WInv; TimerKeeps(w, t);
    case Limit(x, d, r, t) => LimitKeeps(w, x, d, r, t);
    case Unlink(x) => UnlinkKeeps(w, x);
    case Destroy(x) => DestroyKeeps(w, x);
    case Cleanup(t) => CleanupKeeps(w, t);
    case BeginExit => StopKeeps(w, e);
    case BeginRelease => BeginReleaseKeeps(w);
    case Release => ReleaseKeeps(w);
    case EndRelease => EndReleaseKeeps(w);
    case Shutdown => StopKeeps(w, e);
    case Free => hide TInv, Awake;
  }
}
