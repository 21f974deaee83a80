/**
 What every operation of the throttler keeps: the counters, the service tree,
 the references, and the order and rate of each direction.
 */
module ThrottleInv {
  import opened Sums
  import opened ThrottleSlice
  import opened Throttle

  // ------------------------------------------------------------ service tree

  // In key order, no group twice.
  ghost predicate Ordered(nodes: seq<Node>) {
    nodes == [] ||
      ((forall n <- nodes[1..] :: nodes[0].key <= n.key && nodes[0].id != n.id) && Ordered(nodes[1..]))
  }

  ghost predicate TreeOk(t: Tree) {
    && Ordered(t.nodes) && t.count == |t.nodes|
    && (t.left.At? ==> t.nodes != [] && t.left.id == t.nodes[0].id)
  }

  lemma {:induction false} InsertKeeps(nodes: seq<Node>, n: Node)
    requires Ordered(nodes) && forall m <- nodes :: m.id != n.id
    ensures var r := Insert(nodes, n);
            && Ordered(r) && |r| == |nodes| + 1 && (forall m :: m in r <==> m in nodes || m == n)
            && r[0] == (if nodes == [] || n.key < nodes[0].key then n else nodes[0])
  {
    if nodes == [] {
    } else if n.key < nodes[0].key {
      assert ([n] + nodes)[1..] == nodes;
      forall m | m in nodes ensures n.key <= m.key {
        if m != nodes[0] { assert m in nodes[1..]; }
      }
    } else {
      var rest := Insert(nodes[1..], n);
      InsertKeeps(nodes[1..], n);
      var r := [nodes[0]] + rest;
      assert r[1..] == rest;
      assert nodes == [nodes[0]] + nodes[1..];
    }
  }

  lemma {:induction false} RemoveKeeps(nodes: seq<Node>, id: Gid)
    requires Ordered(nodes)
    ensures var r := Remove(nodes, id);
            && Ordered(r) && (forall m :: m in r <==> m in nodes && m.id != id)
            && |r| == |nodes| - (if exists m <- nodes :: m.id == id then 1 else 0)
            && (nodes != [] && nodes[0].id != id ==> r != [] && r[0] == nodes[0])
  {
    if nodes != [] {
      assert nodes == [nodes[0]] + nodes[1..];
      if nodes[0].id != id {
        var rest := Remove(nodes[1..], id);
        RemoveKeeps(nodes[1..], id);
        var r := [nodes[0]] + rest;
        assert r[1..] == rest;
      }
    }
  }

  lemma AddKeeps(t: Tree, n: Node)
    requires TreeOk(t) && forall m <- t.nodes :: m.id != n.id
    ensures TreeOk(Add(t, n)) && forall m :: m in Add(t, n).nodes <==> m in t.nodes || m == n
  {
    InsertKeeps(t.nodes, n);
  }

  lemma EraseKeeps(t: Tree, n: Node)
    requires TreeOk(t) && n in t.nodes
    ensures TreeOk(Erase(t, n.id)) && forall m :: m in Erase(t, n.id).nodes <==> m in t.nodes && m.id != n.id
  {
    RemoveKeeps(t.nodes, n.id);
  }

  lemma CachedKeeps(t: Tree)
    requires TreeOk(t)
    ensures TreeOk(Cached(t)) && Cached(t).nodes == t.nodes
    ensures First(t) == if t.nodes == [] then End else At(t.nodes[0].id)
  {
  }

  // No node comes before the first.
  lemma FirstLeast(t: Tree, n: Node)
    requires TreeOk(t) && n in t.nodes
    ensures t.nodes[0].key <= n.key
  {
    if n != t.nodes[0] { assert n in t.nodes[1..]; }
  }

  // ------------------------------------------------------------- one group

  ghost predicate SliceOk(s: Slice, now: int) { s.start <= now && s.start <= s.end }

  ghost predicate WayOk(w: Way, now: int) {
    w.nr == |w.queue| && RateOk(w.rate) && SliceOk(w.slice, now)
  }

  // A group's own books: its references are its bios and its creation.
  ghost predicate Fit(g: Grp, now: int) {
    && WayOk(g.rd, now) && WayOk(g.wr, now)
    && g.ref == g.rd.nr + g.wr.nr + (if g.hashed then 1 else 0)
    && (g.linked ==> g.hashed) && g.dropped == (if g.hashed then 0 else 1)
  }

  lemma SliceSteps(c: Clock, r: Rate, s: Slice, b: TBio, now: int)
    requires ClockOk(c) && RateOk(r) && SliceOk(s, now)
    ensures var v := MayDispatch(c, r, s, b.size, now);
            SliceOk(v.slice, now) && v.slice.sent == s.sent
  {
    RoundUpBounds(now + c.slice, c.slice);
    RoundUpBounds(now + MayDispatch(c, r, s, b.size, now).wait, c.slice);
  }

  lemma SentSteps(c: Clock, r: Rate, s: Slice, b: TBio, now: int)
    requires ClockOk(c) && SliceOk(s, now)
    ensures SliceOk(Sent(c, r, s, b, now), now) && Sent(c, r, s, b, now).sent == s.sent + [b]
  {
    if !Used(s, now) { TrimTimes(c, r, Charge(s, b), now); }
  }

  // All a group may change without leaving its place: one direction's queue
  // moves on, in order.
  ghost predicate Advanced(g: Grp, r: Grp, d: Dir) {
    var w, v := Of(g, d), Of(r, d);
    && r == With(g, d, v).(ref := r.ref)
    && v.rate == w.rate && w.slice.sent <= v.slice.sent
    && v.slice.sent + v.queue == w.slice.sent + w.queue
  }

  lemma SendHeadOk(c: Clock, g: Grp, d: Dir, now: int)
    requires ClockOk(c) && Fit(g, now) && Of(g, d).queue != []
    ensures Fit(SendHead(c, g, d, now), now) && Advanced(g, SendHead(c, g, d, now), d)
    ensures Of(SendHead(c, g, d, now), d).queue == Of(g, d).queue[1..]
  {
    var w := Of(g, d);
    SentSteps(c, w.rate, w.slice, w.queue[0], now);
    assert w.queue == [w.queue[0]] + w.queue[1..];
  }

  lemma AskedOk(c: Clock, g: Grp, d: Dir, b: TBio, now: int)
    requires ClockOk(c) && Fit(g, now)
    ensures var w := Of(g, d);
            var a := With(g, d, w.(slice := MayDispatch(c, w.rate, w.slice, b.size, now).slice));
            Fit(a, now) && Advanced(g, a, d) && Of(a, d).queue == w.queue
  {
    SliceSteps(c, Of(g, d).rate, Of(g, d).slice, b, now);
  }

  lemma AdvancedTrans(a: Grp, b: Grp, c: Grp, d: Dir)
    requires Advanced(a, b, d) && Advanced(b, c, d)
    ensures Advanced(a, c, d)
  {
  }

  // A loop of throtl_dispatch_tg sends bios off the head of the queue, at most
  // max of them, and if it sends none it was refused.
  lemma {:induction false} DriveOk(c: Clock, g: Grp, d: Dir, now: int, max: nat)
    requires ClockOk(c) && Fit(g, now)
    ensures var r := Drive(c, g, d, now, max);
            && Fit(r, now) && Advanced(g, r, d)
            && |Of(g, d).queue| - max <= |Of(r, d).queue| <= |Of(g, d).queue|
    decreases max
  {
    var w := Of(g, d);
    if max > 0 && w.queue != [] {
      var v := MayDispatch(c, w.rate, w.slice, w.queue[0].size, now);
      var a := With(g, d, w.(slice := v.slice));
      AskedOk(c, g, d, w.queue[0], now);
      if v.ok {
        var s := SendHead(c, a, d, now);
        SendHeadOk(c, a, d, now);
        hide MayDispatch, SendHead;
        DriveOk(c, s, d, now, max - 1);
        AdvancedTrans(g, a, s, d);
        AdvancedTrans(g, s, Drive(c, s, d, now, max - 1), d);
      }
    }
  }

  lemma DriveRefused(c: Clock, g: Grp, d: Dir, now: int, max: nat)
    requires ClockOk(c) && Fit(g, now) && max > 0 && Of(g, d).queue != []
    requires |Of(Drive(c, g, d, now, max), d).queue| == |Of(g, d).queue|
    ensures var r := Drive(c, g, d, now, max);
            Of(r, d).queue == Of(g, d).queue && WaitOf(c, r, d, now) >= 1
  {
    var w := Of(g, d);
    var v := MayDispatch(c, w.rate, w.slice, w.queue[0].size, now);
    var a := With(g, d, w.(slice := v.slice));
    AskedOk(c, g, d, w.queue[0], now);
    if v.ok {
      SendHeadOk(c, a, d, now);
      DriveOk(c, SendHead(c, a, d, now), d, now, max - 1);
      assert false;
    }
    RefusedWaits(c, w.rate, w.slice, w.queue[0].size, now);
    MayDispatchStable(c, w.rate, w.slice, w.queue[0].size, now);
  }

  // A direction has sent some of its queue, in order, and nothing else.
  ghost predicate Flowed(w: Way, v: Way) {
    v.rate == w.rate && w.slice.sent <= v.slice.sent && v.slice.sent + v.queue == w.slice.sent + w.queue
  }

  ghost predicate Moved(g: Grp, r: Grp) {
    && Flowed(g.rd, r.rd) && Flowed(g.wr, r.wr)
    && r.hashed == g.hashed && r.linked == g.linked && r.changed == g.changed
  }

  lemma AdvancedMoved(g: Grp, r: Grp, d: Dir)
    requires Advanced(g, r, d)
    ensures Moved(g, r) && r.disptime == g.disptime
  {
  }

  lemma MovedTrans(a: Grp, b: Grp, c: Grp)
    requires Moved(a, b) && Moved(b, c)
    ensures Moved(a, c)
  {
  }

  // throtl_dispatch_tg sends at most a group quantum ...
  lemma DispatchTgOk(c: Clock, g: Grp, now: int)
    requires ClockOk(c) && Fit(g, now)
    ensures var r := DispatchTg(c, g, now);
            && Fit(r, now) && Moved(g, r) && r.disptime == g.disptime
            && g.rd.nr + g.wr.nr - GRP_QUANTUM <= r.rd.nr + r.wr.nr <= g.rd.nr + g.wr.nr
  {
    var m := Drive(c, g, Read, now, 6);
    var r := Drive(c, m, Write, now, 2);
    DriveOk(c, g, Read, now, 6);
    DriveOk(c, m, Write, now, 2);
    AdvancedMoved(g, m, Read);
    AdvancedMoved(m, r, Write);
    hide Drive, Flowed;
    MovedTrans(g, m, r);
  }

  lemma NrIsLength(g: Grp, now: int)
    requires Fit(g, now)
    ensures g.rd.nr == |g.rd.queue| && g.wr.nr == |g.wr.queue| && RateOk(g.rd.rate) && RateOk(g.wr.rate)
  {
  }

  // A loop leaves the other direction alone.
  lemma DriveShape(c: Clock, g: Grp, d: Dir, now: int, max: nat)
    requires ClockOk(c) && Fit(g, now)
    ensures var r := Drive(c, g, d, now, max);
            && Fit(r, now)
            && (if d.Read? then r.wr == g.wr && r.rd.nr <= g.rd.nr else r.rd == g.rd && r.wr.nr <= g.wr.nr)
  {
    hide Drive;
    DriveOk(c, g, d, now, max);
  }

  // ... and when it sends nothing every waiting direction was refused.
  lemma DispatchTgRefused(c: Clock, g: Grp, now: int)
    requires ClockOk(c) && Fit(g, now) && Busy(g)
    requires var r := DispatchTg(c, g, now); r.rd.nr + r.wr.nr == g.rd.nr + g.wr.nr
    ensures var r := DispatchTg(c, g, now);
            (r.rd.queue != [] || r.wr.queue != []) && MinWait(c, r, now) >= 1
  {
    hide Fit, Drive, MayDispatch, WaitOf;
    NrIsLength(g, now);
    var m := Drive(c, g, Read, now, 6);
    var r := Drive(c, m, Write, now, 2);
    DriveShape(c, g, Read, now, 6);
    DriveShape(c, m, Write, now, 2);
    NrIsLength(m, now);
    NrIsLength(r, now);
    if g.rd.queue != [] {
      DriveRefused(c, g, Read, now, 6);
      SameWait(c, m, r, Read, now);
    }
    if m.wr.queue != [] { DriveRefused(c, m, Write, now, 2); }
  }

  lemma SameWait(c: Clock, g: Grp, r: Grp, d: Dir, now: int)
    requires Clocked(c, g) && Clocked(c, r) && Of(g, d) == Of(r, d) && Of(g, d).queue != []
    ensures WaitOf(c, r, d, now) == WaitOf(c, g, d, now)
  {
  }

  lemma TimedOk(c: Clock, g: Grp, now: int)
    requires ClockOk(c) && Fit(g, now) && Busy(g)
    ensures var r := Timed(c, g, now);
            && Fit(r, now) && Moved(g, r) && r.rd.queue == g.rd.queue && r.wr.queue == g.wr.queue
            && r.disptime == now + MinWait(c, g, now)
  {
    if g.rd.queue != [] { AskedOk(c, g, Read, g.rd.queue[0], now); }
    var a := Ask(c, g, Read, now);
    if g.wr.queue != [] { AskedOk(c, a, Write, g.wr.queue[0], now); }
  }

  // ------------------------------------------------------------ the queue

  ghost function Nrs(groups: map<Gid, Grp>, d: Dir): map<Gid, int> {
    map x | x in groups :: Of(groups[x], d).nr
  }

  ghost function Hashes(groups: map<Gid, Grp>): map<Gid, int> {
    map x | x in groups :: if groups[x].hashed then 1 else 0
  }

  // The counters of the queue are what they count.
  ghost predicate Counted(groups: map<Gid, Grp>, rd: int, wr: int, undestroyed: int) {
    && rd == Total(Nrs(groups, Read)) && wr == Total(Nrs(groups, Write))
    && undestroyed == Total(Hashes(groups))
  }

  ghost predicate GroupOk(g: Grp, now: int) { Fit(g, now) && g.onRr == Busy(g) }

  ghost predicate GroupsOk(groups: map<Gid, Grp>, now: int) {
    forall x <- groups :: GroupOk(groups[x], now)
  }

  // The tree holds exactly the groups marked as on it, under their dispatch
  // times.
  ghost predicate Hung(groups: map<Gid, Grp>, nodes: seq<Node>) {
    && (forall n <- nodes :: n.id in groups && groups[n.id].onRr && n.key == groups[n.id].disptime)
    && (forall x <- groups :: groups[x].onRr ==> Node(groups[x].disptime, x) in nodes)
  }

  ghost predicate Uniq(s: seq<Gid>) {
    s == [] || (s[0] !in s[1..] && Uniq(s[1..]))
  }

  // The list holds exactly the groups not yet destroyed.
  ghost predicate Listed(groups: map<Gid, Grp>, list: seq<Gid>) {
    && Uniq(list)
    && (forall x :: x in list <==> x in groups && groups[x].hashed)
  }

  ghost predicate TInv(td: Td, now: int) {
    && ClockOk(td.clock) && GroupsOk(td.groups, now) && TreeOk(td.tree) && Hung(td.groups, td.tree.nodes)
    && Counted(td.groups, td.rdQueued, td.wrQueued, td.undestroyed) && Listed(td.groups, td.list)
  }

  lemma NrsSet(groups: map<Gid, Grp>, x: Gid, g: Grp, d: Dir)
    ensures Total(Nrs(groups[x := g], d))
            == Total(Nrs(groups, d)) + Of(g, d).nr - (if x in groups then Of(groups[x], d).nr else 0)
  {
    assert Nrs(groups[x := g], d) == Nrs(groups, d)[x := Of(g, d).nr];
    TotalSet(Nrs(groups, d), x, Of(g, d).nr);
  }

  function One(b: bool): int { if b then 1 else 0 }

  lemma HashesSet(groups: map<Gid, Grp>, x: Gid, g: Grp)
    ensures Total(Hashes(groups[x := g]))
            == Total(Hashes(groups)) + One(g.hashed) - One(x in groups && groups[x].hashed)
  {
    assert Hashes(groups[x := g]) == Hashes(groups)[x := One(g.hashed)];
    TotalSet(Hashes(groups), x, One(g.hashed));
  }

  // Counting again after one group changed.
  lemma CountedSet(groups: map<Gid, Grp>, rd: int, wr: int, n: int, x: Gid, g: Grp)
    requires Counted(groups, rd, wr, n)
    ensures x in groups ==>
              Counted(groups[x := g], rd + g.rd.nr - groups[x].rd.nr, wr + g.wr.nr - groups[x].wr.nr,
                      n + One(g.hashed) - One(groups[x].hashed))
    ensures x !in groups ==> Counted(groups[x := g], rd + g.rd.nr, wr + g.wr.nr, n + One(g.hashed))
  {
    NrsSet(groups, x, g, Read);
    NrsSet(groups, x, g, Write);
    HashesSet(groups, x, g);
    hide Total, Nrs, Hashes;
  }

  // The tree without x, and x off the tree.
  lemma Unhung(groups: map<Gid, Grp>, t: Tree, x: Gid, g: Grp)
    requires TreeOk(t) && Hung(groups, t.nodes) && !g.onRr
    ensures var u := if x in groups && groups[x].onRr then Erase(t, x) else t;
            TreeOk(u) && Hung(groups[x := g], u.nodes) && forall n <- u.nodes :: n.id != x
  {
    if x in groups && groups[x].onRr { EraseKeeps(t, Node(groups[x].disptime, x)); }
    hide TreeOk;
  }

  // x on the tree again.
  lemma Rehung(groups: map<Gid, Grp>, t: Tree, x: Gid, g: Grp)
    requires TreeOk(t) && (forall n <- t.nodes :: n.id != x) && g.onRr
    requires x in groups && Hung(groups, t.nodes)
    ensures var a := Add(t, Node(g.disptime, x)); TreeOk(a) && Hung(groups[x := g], a.nodes)
  {
    AddKeeps(t, Node(g.disptime, x));
    hide TreeOk, Add;
  }

  lemma GroupsSet(groups: map<Gid, Grp>, x: Gid, g: Grp, now: int)
    requires GroupsOk(groups, now) && GroupOk(g, now)
    ensures GroupsOk(groups[x := g], now)
  {
  }

  // x back on the tree, or left off it.
  lemma Rehang(groups: map<Gid, Grp>, t: Tree, x: Gid, g: Grp)
    requires TreeOk(t) && x in groups && Hung(groups, t.nodes)
    ensures var u := if groups[x].onRr then Erase(t, x) else t;
            var a := if g.onRr then Add(u, Node(g.disptime, x)) else u;
            TreeOk(a) && Hung(groups[x := g], a.nodes)
  {
    var off := g.(onRr := false);
    Unhung(groups, t, x, off);
    if g.onRr {
      var u := if groups[x].onRr then Erase(t, x) else t;
      Rehung(groups[x := off], u, x, g);
      assert groups[x := off][x := g] == groups[x := g];
    }
  }

  // A group that took its turn is put back where it belongs.
  lemma RequeuedKeeps(td: Td, x: Gid, g: Grp, now: int)
    requires TInv(td, now) && x in td.groups && td.groups[x].onRr && Fit(g, now) && g.hashed == td.groups[x].hashed
    ensures TInv(Requeued(td, x, Erase(Cached(td.tree), x), g), now)
  {
    hide TreeOk, Hung, Erase, Cached, Counted, Fit, GroupsOk;
    var g' := g.(onRr := Busy(g));
    CachedKeeps(td.tree);
    CountedSet(td.groups, td.rdQueued, td.wrQueued, td.undestroyed, x, g');
    assert Fit(g', now) by { FitOff(g, Busy(g), now); }
    GroupsSet(td.groups, x, g', now);
    Rehang(td.groups, Cached(td.tree), x, g');
  }

  lemma FitOff(g: Grp, on: bool, now: int)
    requires Fit(g, now)
    ensures Fit(g.(onRr := on), now)
  {
  }
}
