/**
 The throttle data of a request queue, updated in place as blk-throttle.c does.
 Every method is proved against the function of the same step.
 */
module ThrottleData {
  import opened Sums
  import opened ThrottleSlice
  import opened Throttle
  import opened ThrottleInv
  import opened ThrottleOps
  import opened ThrottleRuns

  lemma {:induction false} InsertAt(nodes: seq<Node>, n: Node, i: nat)
    requires i <= |nodes| && (forall j :: 0 <= j < i ==> nodes[j].key <= n.key)
             && (i < |nodes| ==> n.key < nodes[i].key)
    ensures Insert(nodes, n) == nodes[..i] + [n] + nodes[i..]
  {
    if i > 0 {
      InsertAt(nodes[1..], n, i - 1);
      assert nodes[..i] == [nodes[0]] + nodes[1..][..i - 1];
    }
  }

  lemma {:induction false} RemoveAt(nodes: seq<Node>, id: Gid, i: nat)
    requires i <= |nodes| && (forall j :: 0 <= j < i ==> nodes[j].id != id) && (i < |nodes| ==> nodes[i].id == id)
    ensures Remove(nodes, id) == nodes[..i] + (if i < |nodes| then nodes[i + 1..] else [])
  {
    if i > 0 {
      RemoveAt(nodes[1..], id, i - 1);
      assert nodes[..i] == [nodes[0]] + nodes[1..][..i - 1];
    }
  }

  // One turn of a dispatch loop: the bio is refused and the loop is over, or it
  // is sent and the loop goes on with one less.
  lemma DriveTurn(c: Clock, g: Grp, d: Dir, now: int, max: nat)
    requires ClockOk(c) && Fit(g, now) && max > 0 && Of(g, d).queue != []
    ensures var w := Of(g, d);
            var v := MayDispatch(c, w.rate, w.slice, w.queue[0].size, now);
            var a := With(g, d, w.(slice := v.slice));
            && Of(a, d).queue == w.queue && Of(a, d).nr == w.nr && Fit(a, now)
            && (if v.ok then
                  var s := SendHead(c, a, d, now);
                  Fit(s, now) && Drive(c, s, d, now, max - 1) == Drive(c, g, d, now, max) && Of(s, d).nr == w.nr - 1
                else Drive(c, g, d, now, max) == a)
  {
    var w := Of(g, d);
    var a := With(g, d, w.(slice := MayDispatch(c, w.rate, w.slice, w.queue[0].size, now).slice));
    AskedOk(c, g, d, w.queue[0], now);
    SendHeadOk(c, a, d, now);
  }

  lemma DriveStart(c: Clock, g: Grp, d: Dir, now: int, max: nat)
    requires ClockOk(c) && Fit(g, now)
    ensures Clocked(c, g) && (max == 0 || Of(g, d).queue == [] ==> Drive(c, g, d, now, max) == g)
  {
  }

  class ThrotlData {
    const clock: Clock
    var groups: map<Gid, Grp>
    var list: seq<Gid>
    var nodes: seq<Node>
    var left: Link
    var count: int
    var rdQueued: int
    var wrQueued: int
    var undestroyed: int
    var limitsChanged: bool
    var work: Due
    var dead: bool

    function View(): Td
      reads this
    {
      Td(clock, groups, list, Tree(nodes, left, count), rdQueued, wrQueued, undestroyed, limitsChanged, work, dead)
    }

    // blk_throtl_init, before the root group
    constructor (clock: Clock)
      requires ClockOk(clock)
      ensures TInv(View(), 0) && Awake(View(), 0) && groups == map[]
    {
      this.clock := clock;
      groups, list, nodes, left, count := map[], [], [], End, 0;
      rdQueued, wrQueued, undestroyed, limitsChanged, work, dead := 0, 0, 0, false, Idle, false;
      new;
      assert Nrs(map[], Read) == map[] && Nrs(map[], Write) == map[] && Hashes(map[]) == map[];
    }

    // throtl_rb_first
    method RbFirst() returns (l: Link)
      modifies this
      ensures l == First(old(View()).tree) && View() == old(View()).(tree := Cached(old(View()).tree))
    {
      if count == 0 { return End; }
      if left == End { left := if nodes == [] then End else At(nodes[0].id); }
      return left;
    }

    // tg_service_tree_add and __throtl_enqueue_tg, the walk down the tree
    // flattened to its key order.
    method TreeAdd(n: Node)
      modifies this
      ensures View() == old(View()).(tree := Add(old(View()).tree, n))
      ensures unchanged(`groups) && unchanged(`list)
    {
      var leftmost := true;
      var i := 0;
      while i < |nodes| && !(n.key < nodes[i].key)
        invariant i <= |nodes| && leftmost == (i == 0)
        invariant forall j :: 0 <= j < i ==> nodes[j].key <= n.key
      {
        leftmost := false;
        i := i + 1;
      }
      InsertAt(nodes, n, i);
      if leftmost { left := At(n.id); }
      nodes := nodes[..i] + [n] + nodes[i..];
      count := count + 1;
    }

    // throtl_rb_erase
    method RbErase(id: Gid)
      modifies this
      ensures View() == old(View()).(tree := Erase(old(View()).tree, id))
      ensures unchanged(`groups) && unchanged(`list)
    {
      if left == At(id) { left := End; }
      var i := 0;
      while i < |nodes| && nodes[i].id != id
        invariant i <= |nodes| && forall j :: 0 <= j < i ==> nodes[j].id != id
      {
        i := i + 1;
      }
      RemoveAt(nodes, id, i);
      nodes := nodes[..i] + (if i < |nodes| then nodes[i + 1..] else []);
      count := count - 1;
    }

    // tg_dispatch_one_bio
    method DispatchOneBio(x: Gid, d: Dir, now: int)
      requires x in groups && ClockOk(clock) && Of(groups[x], d).queue != []
      modifies this`groups, this`rdQueued, this`wrQueued
      ensures groups == old(groups)[x := SendHead(clock, old(groups[x]), d, now)]
      ensures rdQueued == old(rdQueued) - (if d == Read then 1 else 0)
      ensures wrQueued == old(wrQueued) - (if d == Write then 1 else 0)
    {
      var g := groups[x];
      var w := Of(g, d);
      var b := w.queue[0];
      w := w.(queue := w.queue[1..], nr := w.nr - 1);
      g := g.(ref := g.ref - 1);
      if d == Read { rdQueued := rdQueued - 1; } else { wrQueued := wrQueued - 1; }
      w := w.(slice := Charge(w.slice, b));
      w := w.(slice := Trim(clock, w.rate, w.slice, now));
      groups := groups[x := With(g, d, w)];
    }

    // A loop of throtl_dispatch_tg.
    method DispatchWay(x: Gid, d: Dir, now: int, max: nat) returns (n: nat)
      requires x in groups && ClockOk(clock) && Fit(groups[x], now) && max > 0
      modifies this`groups, this`rdQueued, this`wrQueued
      ensures x in old(groups) && Clocked(clock, old(groups[x]))
      ensures groups == old(groups)[x := Drive(clock, old(groups[x]), d, now, max)] && Fit(groups[x], now)
      ensures n <= max && n == Of(old(groups[x]), d).nr - Of(groups[x], d).nr
      ensures rdQueued == old(rdQueued) - (if d == Read then n else 0)
      ensures wrQueued == old(wrQueued) - (if d == Write then n else 0)
    {
      hide Fit, MayDispatch, SendHead, Drive;
      ghost var g0 := groups[x];
      DriveStart(clock, g0, d, now, max);
      n := 0;
      while n < max && Of(groups[x], d).queue != []
        invariant x in groups && groups == old(groups)[x := groups[x]] && Fit(groups[x], now) && n <= max
        invariant Clocked(clock, groups[x])
        invariant Drive(clock, groups[x], d, now, max - n) == Drive(clock, g0, d, now, max)
        invariant n == Of(g0, d).nr - Of(groups[x], d).nr
        invariant rdQueued == old(rdQueued) - (if d == Read then n else 0)
        invariant wrQueued == old(wrQueued) - (if d == Write then n else 0)
      {
        DriveTurn(clock, groups[x], d, now, max - n);
        var w := Of(groups[x], d);
        var v := MayDispatch(clock, w.rate, w.slice, w.queue[0].size, now);
        groups := groups[x := With(groups[x], d, w.(slice := v.slice))];
        if !v.ok { return; }
        DispatchOneBio(x, d, now);
        n := n + 1;
        DriveStart(clock, groups[x], d, now, max - n);
      }
      DriveStart(clock, groups[x], d, now, max - n);
    }

    // throtl_dequeue_tg
    method Dequeue(x: Gid)
      requires x in groups
      modifies this
      ensures View() == old(View()).(groups := old(groups)[x := old(groups[x]).(onRr := false)],
                                     tree := if old(groups[x].onRr) then Erase(old(View()).tree, x)
                                             else old(View()).tree)
    {
      if groups[x].onRr {
        RbErase(x);
        groups := groups[x := groups[x].(onRr := false)];
      } else {
        assert groups[x := groups[x].(onRr := false)] == groups;
      }
    }

    // throtl_enqueue_tg
    method Enqueue(x: Gid)
      requires x in groups
      modifies this
      ensures View() == old(View()).(groups := old(groups)[x := old(groups[x]).(onRr := true)],
                                     tree := if old(groups[x].onRr) then old(View()).tree
                                             else Add(old(View()).tree, Node(old(groups[x].disptime), x)))
    {
      if !groups[x].onRr {
        TreeAdd(Node(groups[x].disptime, x));
        groups := groups[x := groups[x].(onRr := true)];
      } else {
        assert groups[x := groups[x].(onRr := true)] == groups;
      }
    }

    // tg_update_disptime: the waits are asked for, and the group hung again.
    method UpdateDisptime(x: Gid, now: int)
      requires x in groups && Clocked(clock, groups[x]) && (groups[x].rd.queue != [] || groups[x].wr.queue != [])
      modifies this
      ensures View() == Rekey(old(View()), x, now)
    {
      hide MinWait, Ask, Add, Erase, Clocked, Timed;
      ghost var td := View();
      TimedIs(clock, groups[x], now);
      AskRr(clock, groups[x], now);
      var wait := MinWait(clock, groups[x], now);
      groups := groups[x := Ask(clock, Ask(clock, groups[x], Read, now), Write, now)];
      Rehang(x, now + wait);
      assert groups == Rekey(td, x, now).groups;
    }

    // Off the tree, a new key, back on it.
    method Rehang(x: Gid, disptime: int)
      requires x in groups
      modifies this
      ensures View() == old(View()).(
                groups := old(groups)[x := old(groups[x]).(onRr := true, disptime := disptime)],
                tree := Add(if old(groups[x].onRr) then Erase(old(View()).tree, x) else old(View()).tree,
                            Node(disptime, x)))
    {
      hide Add, Erase;
      Dequeue(x);
      groups := groups[x := groups[x].(disptime := disptime)];
      Enqueue(x);
      assert groups == old(groups)[x := old(groups[x]).(onRr := true, disptime := disptime)];
    }

    // throtl_dispatch_tg
    method DispatchGroup(x: Gid, now: int) returns (n: nat)
      requires x in groups && ClockOk(clock) && Fit(groups[x], now)
      modifies this`groups, this`rdQueued, this`wrQueued
      ensures x in old(groups) && Clocked(clock, old(groups[x]))
      ensures groups == old(groups)[x := DispatchTg(clock, old(groups[x]), now)] && Fit(groups[x], now)
      ensures n <= GRP_QUANTUM
      ensures rdQueued == old(rdQueued) - (old(groups[x].rd.nr) - groups[x].rd.nr)
      ensures wrQueued == old(wrQueued) - (old(groups[x].wr.nr) - groups[x].wr.nr)
      ensures n == old(rdQueued + wrQueued) - (rdQueued + wrQueued)
    {
      ghost var g0 := groups[x];
      var maxReads := GRP_QUANTUM * 3 / 4;
      DriveOk(clock, g0, Read, now, maxReads);
      DriveOk(clock, Drive(clock, g0, Read, now, maxReads), Write, now, GRP_QUANTUM - maxReads);
      hide Drive, Fit, Flowed;
      var nrReads := DispatchWay(x, Read, now, maxReads);
      var nrWrites := DispatchWay(x, Write, now, GRP_QUANTUM - maxReads);
      n := nrReads + nrWrites;
    }

    // One pass of throtl_select_dispatch.
    method PassGroup(x: Gid, now: int) returns (n: nat)
      requires TInv(View(), now) && x in groups && groups[x].onRr && View().tree == Cached(View().tree)
      modifies this
      ensures x in old(groups) && Clocked(clock, old(groups[x]))
      ensures View() == Pass(old(View()), x, now) && n == old(Queued(View())) - Queued(View())
    {
      hide TInv, Fit, DispatchTg, Erase, Add, Cached, Clocked, Timed;
      GroupIs(View(), x, now);
      FitOff(groups[x], false, now);
      ghost var td := View();
      Dequeue(x);
      PassTurn(td, x, now);
      n := DispatchGroup(x, now);
      assert groups == td.groups[x := groups[x]];
      ghost var g := groups[x];
      BusyQueues(g, now);
      Settle(x, now);
      assert groups == Pass(td, x, now).groups;
    }

    // The end of the pass: a group with bios left is keyed and hung again.
    method Settle(x: Gid, now: int)
      requires x in groups && Clocked(clock, groups[x]) && Fit(groups[x], now)
      modifies this
      ensures Busy(old(groups[x])) ==> old(groups[x].rd.queue) != [] || old(groups[x].wr.queue) != []
      ensures View() == if Busy(old(groups[x])) then Rekey(old(View()), x, now) else old(View())
    {
      hide Fit, Clocked, Timed, Add, Erase;
      BusyQueues(groups[x], now);
      if groups[x].rd.nr != 0 || groups[x].wr.nr != 0 {
        UpdateDisptime(x, now);
        ghost var was := groups;
        Enqueue(x);
        assert groups == was;
      }
    }

    // throtl_select_dispatch
    method SelectDispatch(now: int) returns (n: nat)
      requires TInv(View(), now)
      modifies this
      ensures old(Queued(View())) >= 0 && View() == Select(old(View()), now, 0) && TInv(View(), now)
      ensures n == old(Queued(View())) - Queued(View()) && n <= QUANTUM + GRP_QUANTUM - 1
      ensures n < QUANTUM ==> DueSet(View(), now) == {}
    {
      hide TInv, TreeOk, Pass, Cached, DueSet, First, Flows;
      ghost var td0 := View();
      QueuedMeans(td0, now);
      SelectOk(td0, now, 0);
      n := 0;
      while true
        invariant TInv(View(), now) && Queued(View()) >= 0 && n < QUANTUM
        invariant n == Queued(td0) - Queued(View())
        invariant Select(View(), now, n) == Select(td0, now, 0)
        decreases Queued(View()), |DueSet(View(), now)|
      {
        ghost var td := View();
        var l := RbFirst();
        CachedFlows(td, now);
        assert TreeOk(td.tree) by { TreeIs(td, now); }
        CachedTwice(td);
        if l == End { break; }
        SelectStep(td, l.id, now);
        PassCached(td, l.id, now);
        if now < groups[l.id].disptime { break; }
        var m := PassGroup(l.id, now);
        n := n + m;
        if n >= QUANTUM { break; }
      }
    }

    // throtl_schedule_next_dispatch: its BUG_ON does not fire.
    method ScheduleNext(now: int)
      requires TInv(View(), now)
      modifies this
      ensures View() == Scheduled(old(View()), now)
    {
      hide TInv, Cached, First;
      HeadIs(View(), now);
      if rdQueued + wrQueued == 0 { return; }
      var _ := RbFirst();
      work := DueAt(if nodes[0].key <= now then now else nodes[0].key);
    }

    // throtl_add_bio_tg
    method AddBioToGroup(x: Gid, d: Dir, b: TBio)
      requires x in groups
      modifies this
      ensures View() == AddBio(old(View()), x, d, b)
    {
      hide Add;
      var w := Of(groups[x], d);
      var on := groups[x].onRr;
      groups := groups[x := With(groups[x], d, w.(queue := w.queue + [b], nr := w.nr + 1)).(ref := groups[x].ref + 1)];
      if d == Read { rdQueued := rdQueued + 1; } else { wrQueued := wrQueued + 1; }
      assert groups[x].onRr == on && groups[x].disptime == old(groups[x].disptime);
      Enqueue(x);
      assert groups == AddBio(old(View()), x, d, b).groups;
    }

    // blk_throtl_bio, past the lookups: true when the bio must wait.
    method ThrotlBio(x: Gid, d: Dir, b: TBio, now: int) returns (throttled: bool)
      requires TInv(View(), now) && x in groups
      modifies this
      ensures Clocked(clock, old(groups[x])) && View() == Submit(old(View()), x, d, b, now) && TInv(View(), now)
      ensures throttled <==> Queued(View()) == old(Queued(View())) + 1
    {
      hide TInv, MayDispatch, Sent, Rekey, Scheduled, Fit, AddBio, Clocked;
      ghost var td := View();
      SubmitKeeps(td, x, d, b, now);
      GroupIs(td, x, now);
      var g := groups[x];
      var w := Of(g, d);
      if NoRule(w.rate) { return false; }
      if w.nr != 0 {
        AddBioCounts(td, x, d, b);
        AddBioToGroup(x, d, b);
        return true;
      }
      var v := MayDispatch(clock, w.rate, w.slice, b.size, now);
      if v.ok {
        groups := groups[x := With(g, d, w.(slice := Sent(clock, w.rate, v.slice, b, now)))];
        return false;
      }
      LookedOk(clock, g, d, b, now);
      SetSlice(td, x, d, v.slice, now);
      groups := groups[x := With(g, d, w.(slice := v.slice))];
      ghost var t := View();
      AddBioCounts(t, x, d, b);
      AddBioKeeps(t, x, d, b, now);
      FedBusy(t, x, d, b, now);
      RekeyKeeps(AddBio(t, x, d, b), x, now);
      ScheduledQueued(Rekey(AddBio(t, x, d, b), x, now), now);
      AddBioToGroup(x, d, b);
      UpdateDisptime(x, now);
      ScheduleNext(now);
      return true;
    }
  }

  lemma AddBioCounts(td: Td, x: Gid, d: Dir, b: TBio)
    requires x in td.groups
    ensures var a := AddBio(td, x, d, b); Queued(a) == Queued(td) + 1 && x in a.groups && a.clock == td.clock
  {
  }

  lemma TreeIs(td: Td, now: int)
    requires TInv(td, now)
    ensures TreeOk(td.tree)
  {
  }

  lemma HeadIs(td: Td, now: int)
    requires TInv(td, now)
    ensures Queued(td) == 0 <==> td.tree.nodes == []
    ensures Cached(td.tree) == td.tree.(left := Cached(td.tree).left)
  {
    QueuedMeans(td, now);
    hide TInv;
  }

  lemma CachedTwice(td: Td)
    requires TreeOk(td.tree)
    ensures var c := td.(tree := Cached(td.tree));
            Cached(c.tree) == c.tree && (First(td.tree) == End ==> c == td)
  {
  }

  lemma PassCached(td: Td, x: Gid, now: int)
    requires x in td.groups && Clocked(td.clock, td.groups[x]) && Cached(Cached(td.tree)) == Cached(td.tree)
    ensures Pass(td.(tree := Cached(td.tree)), x, now) == Pass(td, x, now)
  {
    hide Passed, Cached, Erase, Add;
  }

  lemma TimedIs(c: Clock, g: Grp, now: int)
    requires Clocked(c, g) && (g.rd.queue != [] || g.wr.queue != [])
    ensures Timed(c, g, now) == Ask(c, Ask(c, g, Read, now), Write, now).(disptime := now + MinWait(c, g, now))
  {
  }

  lemma AskRr(c: Clock, g: Grp, now: int)
    requires Clocked(c, g)
    ensures Ask(c, Ask(c, g, Read, now), Write, now).onRr == g.onRr
  {
  }

  // What the pass amounts to, from the group as it was dequeued.
  lemma PassTurn(td: Td, x: Gid, now: int)
    requires TInv(td, now) && x in td.groups && td.groups[x].onRr
    ensures ClockOk(td.clock) && Clocked(td.clock, td.groups[x])
    ensures !DispatchTg(td.clock, td.groups[x].(onRr := false), now).onRr
    ensures var c, g := td.clock, td.groups[x];
            var t := Erase(Cached(td.tree), x);
            var r := DispatchTg(c, g.(onRr := false), now);
            Pass(td, x, now) ==
              if Busy(r) && (r.rd.queue != [] || r.wr.queue != []) then
                var s := Timed(c, r, now).(onRr := true);
                td.(groups := td.groups[x := s], tree := Add(t, Node(s.disptime, x)),
                    rdQueued := td.rdQueued - (g.rd.nr - r.rd.nr), wrQueued := td.wrQueued - (g.wr.nr - r.wr.nr))
              else
                td.(groups := td.groups[x := r], tree := t,
                    rdQueued := td.rdQueued - (g.rd.nr - r.rd.nr), wrQueued := td.wrQueued - (g.wr.nr - r.wr.nr))
  {
    hide TInv, DispatchTg, Erase, Add, Cached, Timed, Flowed;
    var c, g := td.clock, td.groups[x];
    GroupIs(td, x, now);
    PassedOff(c, g, now);
    DispatchTgOk(c, g, now);
    var r := DispatchTg(c, g, now);
    BusyQueues(r, now);
    if Busy(r) {
      TimedOff(c, r, now);
      TimedOk(c, r, now);
    }
  }

  lemma TimedOff(c: Clock, g: Grp, now: int)
    requires Clocked(c, g) && (g.rd.queue != [] || g.wr.queue != [])
    ensures Timed(c, g.(onRr := false), now) == Timed(c, g, now).(onRr := false)
  {
    hide MayDispatch;
  }

  // The mark of being on the tree plays no part in dispatching.
  lemma PassedOff(c: Clock, g: Grp, now: int)
    requires Clocked(c, g)
    ensures DispatchTg(c, g.(onRr := false), now) == DispatchTg(c, g, now).(onRr := false)
  {
    hide Drive, Clocked;
    assert Clocked(c, g.(onRr := false)) by { ClockedOff(c, g); }
    DriveOff(c, g, Read, now, 6);
    DriveOff(c, Drive(c, g, Read, now, 6), Write, now, 2);
  }

  lemma ClockedOff(c: Clock, g: Grp)
    requires Clocked(c, g)
    ensures Clocked(c, g.(onRr := false))
  {
  }

  lemma {:induction false} DriveOff(c: Clock, g: Grp, d: Dir, now: int, max: nat)
    requires Clocked(c, g)
    ensures Clocked(c, g.(onRr := false))
    ensures Drive(c, g.(onRr := false), d, now, max) == Drive(c, g, d, now, max).(onRr := false)
    decreases max
  {
    hide MayDispatch, SendHead;
    var w := Of(g, d);
    if max > 0 && w.queue != [] {
      var v := MayDispatch(c, w.rate, w.slice, w.queue[0].size, now);
      var a := With(g, d, w.(slice := v.slice));
      if v.ok {
        SendHeadOff(c, a, d, now);
        DriveOff(c, SendHead(c, a, d, now), d, now, max - 1);
      }
    }
  }

  lemma SendHeadOff(c: Clock, g: Grp, d: Dir, now: int)
    requires Clocked(c, g) && Of(g, d).queue != []
    ensures Clocked(c, SendHead(c, g, d, now))
    ensures SendHead(c, g.(onRr := false), d, now) == SendHead(c, g, d, now).(onRr := false)
  {
    hide Sent;
  }
}
