/**
 Every operation of the throttler keeps its books, and the dispatch round ends.
 */
module ThrottleOps {
  import opened Sums
  import opened ThrottleSlice
  import opened Throttle
  import opened ThrottleInv

  // ------------------------------------------------------- replacing one group

  lemma ListedSet(groups: map<Gid, Grp>, list: seq<Gid>, x: Gid, g: Grp)
    requires Listed(groups, list) && x in groups && g.hashed == groups[x].hashed
    ensures Listed(groups[x := g], list)
  {
  }

  // A group changed without moving on the tree.
  lemma SetKeeps(td: Td, x: Gid, g: Grp, now: int)
    requires TInv(td, now) && x in td.groups && GroupOk(g, now)
    requires var was := td.groups[x];
             g.hashed == was.hashed && g.onRr == was.onRr && (g.onRr ==> g.disptime == was.disptime)
    ensures TInv(td.(groups := td.groups[x := g], rdQueued := td.rdQueued + g.rd.nr - td.groups[x].rd.nr,
                     wrQueued := td.wrQueued + g.wr.nr - td.groups[x].wr.nr), now)
  {
    hide TreeOk, Counted, GroupsOk, Listed, GroupOk;
    CountedSet(td.groups, td.rdQueued, td.wrQueued, td.undestroyed, x, g);
    GroupsSet(td.groups, x, g, now);
    ListedSet(td.groups, td.list, x, g);
    HungSet(td.groups, td.tree.nodes, x, g);
  }

  lemma HungSet(groups: map<Gid, Grp>, nodes: seq<Node>, x: Gid, g: Grp)
    requires Hung(groups, nodes) && x in groups
    requires var was := groups[x]; g.onRr == was.onRr && (g.onRr ==> g.disptime == was.disptime)
    ensures Hung(groups[x := g], nodes)
  {
  }

  // A group changed and hung again under its dispatch time.
  lemma HangKeeps(td: Td, x: Gid, g: Grp, now: int)
    requires TInv(td, now) && x in td.groups && GroupOk(g, now) && g.hashed == td.groups[x].hashed
    ensures var u := if td.groups[x].onRr then Erase(td.tree, x) else td.tree;
            TInv(td.(groups := td.groups[x := g], tree := if g.onRr then Add(u, Node(g.disptime, x)) else u,
                     rdQueued := td.rdQueued + g.rd.nr - td.groups[x].rd.nr,
                     wrQueued := td.wrQueued + g.wr.nr - td.groups[x].wr.nr), now)
  {
    hide TreeOk, Hung, Counted, GroupsOk, Listed, GroupOk, Add, Erase;
    CountedSet(td.groups, td.rdQueued, td.wrQueued, td.undestroyed, x, g);
    GroupsSet(td.groups, x, g, now);
    ListedSet(td.groups, td.list, x, g);
    Rehang(td.groups, td.tree, x, g);
  }

  // Time passes.
  lemma Later(td: Td, now: int, now': int)
    requires TInv(td, now) && now <= now'
    ensures TInv(td, now')
  {
    hide TreeOk, Hung, Counted, Listed;
    forall x | x in td.groups ensures GroupOk(td.groups[x], now') { assert GroupOk(td.groups[x], now); }
  }

  lemma ScheduledKeeps(td: Td, now: int)
    requires TInv(td, now)
    ensures TInv(Scheduled(td, now), now)
  {
    hide TreeOk, Hung, Counted, Listed, GroupsOk, Cached;
    CachedKeeps(td.tree);
  }

  // The counters are never negative, and they are zero only when no group has
  // anything queued.
  lemma QueuedMeans(td: Td, now: int)
    requires TInv(td, now)
    ensures td.rdQueued >= 0 && td.wrQueued >= 0
    ensures Queued(td) == 0 <==> forall x <- td.groups :: !Busy(td.groups[x])
    ensures Queued(td) == 0 <==> td.tree.nodes == []
  {
    forall x | x in td.groups ensures Fit(td.groups[x], now) && td.groups[x].onRr == Busy(td.groups[x]) {
      assert GroupOk(td.groups[x], now);
    }
    CountsMean(td.groups, Read);
    CountsMean(td.groups, Write);
    if td.tree.nodes != [] { FirstBusy(td, now); }
    hide GroupsOk, TreeOk, Listed, Total, Nrs, Fit;
    if x :| x in td.groups && Busy(td.groups[x]) {
      assert Node(td.groups[x].disptime, x) in td.tree.nodes;
    }
  }

  lemma CountsMean(groups: map<Gid, Grp>, d: Dir)
    requires forall x <- groups :: Of(groups[x], d).nr >= 0
    ensures var t := Total(Nrs(groups, d));
            t >= 0 && (t == 0 <==> forall x <- groups :: Of(groups[x], d).nr == 0)
  {
    var m := Nrs(groups, d);
    TotalNonneg(m);
    if forall x <- groups :: Of(groups[x], d).nr == 0 { TotalZero(m); }
    forall x | x in groups ensures m[x] == Of(groups[x], d).nr {}
  }

  lemma FirstBusy(td: Td, now: int)
    requires TInv(td, now) && td.tree.nodes != []
    ensures var x := td.tree.nodes[0].id;
            && x in td.groups && Busy(td.groups[x]) && td.groups[x].onRr
            && td.tree.nodes[0].key == td.groups[x].disptime
  {
    var n := td.tree.nodes[0];
    assert n in td.tree.nodes;
    assert GroupOk(td.groups[n.id], now);
  }

  // ------------------------------------------------------- the dispatch round

  ghost function Load(g: Grp): int { g.rd.nr + g.wr.nr }

  // One pass over a group: its bios leave in order, at most a quantum of them,
  // and if none left the group is not due any more.
  lemma PassedOk(c: Clock, g: Grp, now: int)
    requires ClockOk(c) && Fit(g, now) && Busy(g)
    ensures var r := Passed(c, g, now);
            && Fit(r, now) && Moved(g, r)
            && Load(g) - GRP_QUANTUM <= Load(r) <= Load(g) && (Load(r) == Load(g) ==> r.disptime > now)
  {
    var r := DispatchTg(c, g, now);
    DispatchTgOk(c, g, now);
    if Load(r) == Load(g) { DispatchTgRefused(c, g, now); }
    hide DispatchTg, Flowed;
    if Busy(r) {
      TimedOk(c, r, now);
      assert Moved(r, Timed(c, r, now));
      MovedTrans(g, r, Timed(c, r, now));
    }
  }

  // The groups that may dispatch now.
  ghost function DueSet(td: Td, now: int): set<Gid> {
    set x | x in td.groups && td.groups[x].onRr && td.groups[x].disptime <= now
  }

  lemma PassKeeps(td: Td, x: Gid, now: int)
    requires TInv(td, now) && x in td.groups && td.groups[x].onRr
    ensures Clocked(td.clock, td.groups[x])
    ensures var p := Pass(td, x, now);
            && TInv(p, now) && p == td.(groups := td.groups[x := p.groups[x]], tree := p.tree,
                                        rdQueued := p.rdQueued, wrQueued := p.wrQueued)
            && Moved(td.groups[x], p.groups[x])
            && Queued(td) - GRP_QUANTUM <= Queued(p) <= Queued(td)
            && (Queued(p) == Queued(td) ==> p.groups[x].disptime > now)
  {
    var g := td.groups[x];
    assert GroupOk(g, now);
    hide TreeOk, Hung, Counted, Listed, GroupsOk, Passed, Erase, Cached, Flowed;
    PassedOk(td.clock, g, now);
    RequeuedKeeps(td, x, Passed(td.clock, g, now), now);
  }

  // The group at the head of the tree.
  lemma HeadOk(td: Td, now: int)
    requires TInv(td, now) && First(td.tree).At?
    ensures td.tree.nodes != [] && First(td.tree) == At(td.tree.nodes[0].id)
    ensures var x := First(td.tree).id; x in td.groups && td.groups[x].onRr && Clocked(td.clock, td.groups[x])
    ensures td.tree.nodes[0].key == td.groups[First(td.tree).id].disptime
  {
    CachedKeeps(td.tree);
    FirstBusy(td, now);
    assert GroupOk(td.groups[First(td.tree).id], now);
  }

  lemma DueShrinks(groups: map<Gid, Grp>, p: Td, x: Gid, td: Td, now: int)
    requires td.groups == groups && x in groups && groups[x].onRr && groups[x].disptime <= now
    requires x in p.groups && p.groups == groups[x := p.groups[x]] && p.groups[x].disptime > now
    ensures |DueSet(p, now)| < |DueSet(td, now)|
  {
    assert DueSet(p, now) == DueSet(td, now) - {x};
  }

  // What a pass over it achieves.
  lemma SelectStep(td: Td, x: Gid, now: int)
    requires TInv(td, now) && First(td.tree) == At(x)
    ensures x in td.groups && td.groups[x].onRr && Clocked(td.clock, td.groups[x])
    ensures var p := Pass(td, x, now);
            && TInv(p, now) && 0 <= Queued(p) <= Queued(td)
            && (Queued(p) == Queued(td) && td.groups[x].disptime <= now ==> |DueSet(p, now)| < |DueSet(td, now)|)
  {
    hide TInv, Pass, Moved, DueSet;
    HeadOk(td, now);
    PassKeeps(td, x, now);
    var p := Pass(td, x, now);
    QueuedMeans(p, now);
    if Queued(p) == Queued(td) && td.groups[x].disptime <= now {
      DueShrinks(td.groups, p, x, td, now);
    }
  }

  // throtl_select_dispatch: it ends, since every pass sends a bio or leaves one
  // group fewer due.
  function Select(td: Td, now: int, n: nat): Td
    requires TInv(td, now) && Queued(td) >= 0
    decreases Queued(td), |DueSet(td, now)|
  {
    match First(td.tree)
    case End => td
    case At(x) =>
      SelectStep(td, x, now);
      if now < td.groups[x].disptime then td.(tree := Cached(td.tree))
      else
        var p := Pass(td, x, now);
        var n' := n + (Queued(td) - Queued(p));
        if n' >= QUANTUM then p else Select(p, now, n')
  }

  // What a round changes: every direction of every group only sends from the
  // head of its queue.
  ghost predicate Flows(td: Td, r: Td) {
    && r == td.(groups := r.groups, tree := r.tree, rdQueued := r.rdQueued, wrQueued := r.wrQueued)
    && r.groups.Keys == td.groups.Keys
    && forall x <- td.groups :: Moved(td.groups[x], r.groups[x])
  }

  lemma FlowsTrans(a: Td, b: Td, c: Td)
    requires Flows(a, b) && Flows(b, c)
    ensures Flows(a, c)
  {
    hide Flowed;
    forall x | x in a.groups ensures Moved(a.groups[x], c.groups[x]) {
      assert x in b.groups;
      MovedTrans(a.groups[x], b.groups[x], c.groups[x]);
    }
  }

  lemma PassFlows(td: Td, x: Gid, now: int)
    requires TInv(td, now) && x in td.groups && td.groups[x].onRr && Clocked(td.clock, td.groups[x])
    ensures Flows(td, Pass(td, x, now))
  {
    hide TInv, Pass;
    PassKeeps(td, x, now);
    forall y | y in td.groups && y != x ensures Moved(td.groups[y], td.groups[y]) {}
  }

  // A round keeps the books, sends at most QUANTUM + GRP_QUANTUM - 1 bios, and
  // unless it used up its quantum leaves no group due.
  lemma {:induction false} SelectOk(td: Td, now: int, n: nat)
    requires TInv(td, now) && n < QUANTUM && Queued(td) >= 0
    ensures var r := Select(td, now, n);
            && TInv(r, now) && Flows(td, r)
            && 0 <= Queued(td) - Queued(r) <= QUANTUM + GRP_QUANTUM - 1 - n
            && (Queued(td) - Queued(r) < QUANTUM - n ==> DueSet(r, now) == {})
    decreases Queued(td), |DueSet(td, now)|
  {
    hide TInv, Pass, Moved, DueSet, First, Cached;
    match First(td.tree)
    case End => NoneDue(td, now); FlowsSelf(td);
    case At(x) =>
      HeadOk(td, now);
      if now < td.groups[x].disptime {
        NoneDue(td, now);
        CachedFlows(td, now);
      } else {
        SelectStep(td, x, now);
        PassKeeps(td, x, now);
        PassFlows(td, x, now);
        var p := Pass(td, x, now);
        var n' := n + (Queued(td) - Queued(p));
        if n' < QUANTUM {
          SelectOk(p, now, n');
          FlowsTrans(td, p, Select(td, now, n));
        }
      }
  }

  lemma FlowsSelf(td: Td)
    ensures Flows(td, td)
  {
  }

  lemma CachedFlows(td: Td, now: int)
    requires TInv(td, now)
    ensures var r := td.(tree := Cached(td.tree)); TInv(r, now) && Flows(td, r) && DueSet(r, now) == DueSet(td, now)
  {
    hide TreeOk, Hung, Counted, Listed, GroupsOk, Cached;
    CachedKeeps(td.tree);
    FlowsSelf(td);
  }

  // The head of the tree is due first.
  lemma NoneDue(td: Td, now: int)
    requires TInv(td, now)
    requires First(td.tree).At? ==> First(td.tree).id in td.groups && now < td.groups[First(td.tree).id].disptime
    ensures DueSet(td, now) == {}
  {
    CachedKeeps(td.tree);
    if td.tree.nodes != [] { FirstBusy(td, now); }
    forall x | x in td.groups && td.groups[x].onRr ensures td.groups[x].disptime > now {
      FirstLeast(td.tree, Node(td.groups[x].disptime, x));
    }
  }

  // -------------------------------------------------------- the other operations

  lemma GroupIs(td: Td, x: Gid, now: int)
    requires TInv(td, now) && x in td.groups
    ensures ClockOk(td.clock) && GroupOk(td.groups[x], now) && Clocked(td.clock, td.groups[x])
  {
    assert GroupOk(td.groups[x], now);
  }

  lemma BusyQueues(g: Grp, now: int)
    requires Fit(g, now)
    ensures Busy(g) <==> g.rd.queue != [] || g.wr.queue != []
  {
  }

  lemma RekeyKeeps(td: Td, x: Gid, now: int)
    requires TInv(td, now) && x in td.groups && Busy(td.groups[x])
    ensures Clocked(td.clock, td.groups[x]) && (td.groups[x].rd.queue != [] || td.groups[x].wr.queue != [])
    ensures var r := Rekey(td, x, now);
            TInv(r, now) && Flows(td, r) && r.groups[x].rd.queue == td.groups[x].rd.queue
            && r.groups[x].wr.queue == td.groups[x].wr.queue && r.rdQueued == td.rdQueued && r.wrQueued == td.wrQueued
  {
    hide TInv, Clocked, Timed, Erase, Add, Moved, Fit;
    var g := td.groups[x];
    GroupIs(td, x, now);
    BusyQueues(g, now);
    TimedRehung(td.clock, g, now);
    var t := Timed(td.clock, g, now).(onRr := true);
    HangKeeps(td, x, t, now);
    FlowsSelf(td);
  }

  lemma TimedRehung(c: Clock, g: Grp, now: int)
    requires ClockOk(c) && Fit(g, now) && Busy(g)
    ensures Clocked(c, g) && (g.rd.queue != [] || g.wr.queue != [])
    ensures var t := Timed(c, g, now).(onRr := true);
            && GroupOk(t, now) && Moved(g, t) && t.hashed == g.hashed
            && t.rd.nr == g.rd.nr && t.wr.nr == g.wr.nr && t.rd.queue == g.rd.queue && t.wr.queue == g.wr.queue
  {
    TimedOk(c, g, now);
    hide Timed, Flowed;
  }

  lemma FedOk(g: Grp, d: Dir, b: TBio, now: int)
    requires Fit(g, now)
    ensures GroupOk(Fed(g, d, b), now)
  {
  }

  lemma AddBioKeeps(td: Td, x: Gid, d: Dir, b: TBio, now: int)
    requires TInv(td, now) && x in td.groups
    ensures TInv(AddBio(td, x, d, b), now)
  {
    hide TInv, Erase, Add, Fit;
    var g := td.groups[x];
    GroupIs(td, x, now);
    FedOk(g, d, b, now);
    if g.onRr { SetKeeps(td, x, Fed(g, d, b), now); } else { HangKeeps(td, x, Fed(g, d, b), now); }
  }

  // A group whose slice in one direction was looked at, or used.
  lemma LookedOk(c: Clock, g: Grp, d: Dir, b: TBio, now: int)
    requires ClockOk(c) && GroupOk(g, now)
    ensures Clocked(c, g)
    ensures var w := Of(g, d);
            var v := MayDispatch(c, w.rate, w.slice, b.size, now);
            && GroupOk(With(g, d, w.(slice := v.slice)), now)
            && GroupOk(With(g, d, w.(slice := Sent(c, w.rate, v.slice, b, now))), now)
  {
    var w := Of(g, d);
    SliceSteps(c, w.rate, w.slice, b, now);
    SentSteps(c, w.rate, MayDispatch(c, w.rate, w.slice, b.size, now).slice, b, now);
    hide MayDispatch, Sent;
  }

  lemma WithSame(g: Grp, d: Dir, s: Slice)
    ensures var r := With(g, d, Of(g, d).(slice := s));
            r.rd.nr == g.rd.nr && r.wr.nr == g.wr.nr && r.hashed == g.hashed && r.onRr == g.onRr
            && r.disptime == g.disptime
  {
  }

  lemma SubmitKeeps(td: Td, x: Gid, d: Dir, b: TBio, now: int)
    requires TInv(td, now) && x in td.groups
    ensures Clocked(td.clock, td.groups[x]) && TInv(Submit(td, x, d, b, now), now)
  {
    hide TInv, Fit, MayDispatch, Sent, Clocked, Rekey, Scheduled, AddBio;
    var g := td.groups[x];
    var w := Of(g, d);
    GroupIs(td, x, now);
    LookedOk(td.clock, g, d, b, now);
    if NoRule(w.rate) {
    } else if w.nr != 0 {
      AddBioKeeps(td, x, d, b, now);
    } else {
      var v := MayDispatch(td.clock, w.rate, w.slice, b.size, now);
      if v.ok {
        SetSlice(td, x, d, Sent(td.clock, w.rate, v.slice, b, now), now);
      } else {
        SetSlice(td, x, d, v.slice, now);
        var t := td.(groups := td.groups[x := With(g, d, w.(slice := v.slice))]);
        AddBioKeeps(t, x, d, b, now);
        FedBusy(t, x, d, b, now);
        RekeyKeeps(AddBio(t, x, d, b), x, now);
        ScheduledKeeps(Rekey(AddBio(t, x, d, b), x, now), now);
      }
    }
  }

  lemma SetSlice(td: Td, x: Gid, d: Dir, s: Slice, now: int)
    requires TInv(td, now) && x in td.groups && GroupOk(With(td.groups[x], d, Of(td.groups[x], d).(slice := s)), now)
    ensures TInv(td.(groups := td.groups[x := With(td.groups[x], d, Of(td.groups[x], d).(slice := s))]), now)
  {
    hide TInv, GroupOk;
    WithSame(td.groups[x], d, s);
    SetKeeps(td, x, With(td.groups[x], d, Of(td.groups[x], d).(slice := s)), now);
  }

  lemma FedBusy(td: Td, x: Gid, d: Dir, b: TBio, now: int)
    requires TInv(td, now) && x in td.groups
    ensures x in AddBio(td, x, d, b).groups && Busy(AddBio(td, x, d, b).groups[x])
  {
    GroupIs(td, x, now);
  }

  lemma SetRateKeeps(td: Td, x: Gid, d: Dir, r: Rate, now: int)
    requires TInv(td, now) && x in td.groups && RateOk(r)
    ensures TInv(SetRate(td, x, d, r, now), now)
    ensures SetRate(td, x, d, r, now).changed && SetRate(td, x, d, r, now).work == DueAt(now)
  {
    hide TInv;
    var g := td.groups[x];
    GroupIs(td, x, now);
    SetKeeps(td, x, With(g, d, Of(g, d).(rate := r)).(changed := true), now);
    TInvOf(SetRate(td, x, d, r, now), td.(groups := SetRate(td, x, d, r, now).groups), now);
  }

  // The books do not mention the work or the flags.
  lemma TInvOf(a: Td, b: Td, now: int)
    requires TInv(b, now) && a == b.(changed := a.changed, work := a.work, dead := a.dead)
    ensures TInv(a, now)
  {
  }

  lemma FreshGroup(c: Clock, g: Grp, now: int)
    requires ClockOk(c) && GroupOk(g, now)
    ensures GroupOk(g.(rd := g.rd.(slice := Fresh(c, g.rd.slice, now)), wr := g.wr.(slice := Fresh(c, g.wr.slice, now)),
                       changed := false), now)
  {
  }

  lemma RestartedKeeps(td: Td, x: Gid, now: int)
    requires TInv(td, now) && x in td.groups
    ensures Clocked(td.clock, td.groups[x])
    ensures var r := Restarted(td, x, now);
            TInv(r, now) && r.list == td.list && r.groups.Keys == td.groups.Keys && r.clock == td.clock
            && r.rdQueued == td.rdQueued && r.wrQueued == td.wrQueued
  {
    hide TInv, Clocked, Rekey, Moved, Fit;
    var g := td.groups[x];
    GroupIs(td, x, now);
    if g.changed {
      var c := td.clock;
      var g' := g.(rd := g.rd.(slice := Fresh(c, g.rd.slice, now)), wr := g.wr.(slice := Fresh(c, g.wr.slice, now)),
                   changed := false);
      FreshGroup(c, g, now);
      SetKeeps(td, x, g', now);
      if g.onRr { RekeyKeeps(td.(groups := td.groups[x := g']), x, now); }
    }
  }
}
