/**
 Bio throttling (blk-throttle.c): groups with two bio queues each, kept on a
 service tree ordered by the time they may dispatch next.
 */
module Throttle {
  import opened ThrottleSlice

  type Gid = nat

  const GRP_QUANTUM: nat := 8          // throtl_grp_quantum
  const QUANTUM: nat := 32             // throtl_quantum

  datatype Dir = Read | Write

  // One direction of a group.
  datatype Way = Way(queue: seq<TBio>, nr: int, slice: Slice, rate: Rate)

  datatype Grp = Grp(
    rd: Way,
    wr: Way,
    disptime: int,
    onRr: bool,
    ref: int,
    dropped: nat,                      // times the creation reference was put
    hashed: bool,                      // on td->tg_list
    linked: bool,                      // on the cgroup's list
    changed: bool)                     // limits_changed

  function Of(g: Grp, d: Dir): Way { if d.Read? then g.rd else g.wr }

  function With(g: Grp, d: Dir, w: Way): Grp {
    if d.Read? then g.(rd := w) else g.(wr := w)
  }

  predicate Busy(g: Grp) { g.rd.nr != 0 || g.wr.nr != 0 }

  // ------------------------------------------------------------ service tree

  datatype Node = Node(key: int, id: Gid)
  datatype Link = End | At(id: Gid)

  // The rbtree in key order, the cached leftmost node and the count.
  datatype Tree = Tree(nodes: seq<Node>, left: Link, count: int)

  // A key goes right of its equals.
  function Insert(nodes: seq<Node>, n: Node): seq<Node> {
    if nodes == [] || n.key < nodes[0].key then [n] + nodes
    else [nodes[0]] + Insert(nodes[1..], n)
  }

  // tg_service_tree_add
  function Add(t: Tree, n: Node): Tree {
    Tree(Insert(t.nodes, n), if t.nodes == [] || n.key < t.nodes[0].key then At(n.id) else t.left, t.count + 1)
  }

  function Remove(nodes: seq<Node>, id: Gid): seq<Node> {
    if nodes == [] then [] else if nodes[0].id == id then nodes[1..] else [nodes[0]] + Remove(nodes[1..], id)
  }

  // throtl_rb_erase
  function Erase(t: Tree, id: Gid): Tree {
    Tree(Remove(t.nodes, id), if t.left == At(id) then End else t.left, t.count - 1)
  }

  // throtl_rb_first
  function First(t: Tree): Link {
    if t.count == 0 then End else if t.left.At? then t.left else if t.nodes == [] then End else At(t.nodes[0].id)
  }

  function Cached(t: Tree): Tree { if t.count == 0 then t else t.(left := First(t)) }

  // ------------------------------------------------------------ one group

  ghost predicate Clocked(c: Clock, g: Grp) {
    ClockOk(c) && RateOk(g.rd.rate) && RateOk(g.wr.rate)
  }

  // tg_dispatch_one_bio, for the group
  function SendHead(c: Clock, g: Grp, d: Dir, now: int): Grp
    requires ClockOk(c) && Of(g, d).queue != []
  {
    var w := Of(g, d);
    With(g, d, Way(w.queue[1..], w.nr - 1, Sent(c, w.rate, w.slice, w.queue[0], now), w.rate)).(ref := g.ref - 1)
  }

  // A loop of throtl_dispatch_tg: at most max bios of one direction.
  function Drive(c: Clock, g: Grp, d: Dir, now: int, max: nat): (r: Grp)
    requires Clocked(c, g)
    ensures Clocked(c, r)
    decreases max
  {
    var w := Of(g, d);
    if max == 0 || w.queue == [] then g
    else
      var v := MayDispatch(c, w.rate, w.slice, w.queue[0].size, now);
      var a := With(g, d, w.(slice := v.slice));
      if v.ok then Drive(c, SendHead(c, a, d, now), d, now, max - 1) else a
  }

  // throtl_dispatch_tg
  function DispatchTg(c: Clock, g: Grp, now: int): (r: Grp)
    requires Clocked(c, g)
    ensures Clocked(c, r)
  {
    var maxReads := GRP_QUANTUM * 3 / 4;
    Drive(c, Drive(c, g, Read, now, maxReads), Write, now, GRP_QUANTUM - maxReads)
  }

  // tg_may_dispatch on the head of a queue, for its wait time.
  function Ask(c: Clock, g: Grp, d: Dir, now: int): (r: Grp)
    requires Clocked(c, g)
    ensures Clocked(c, r)
  {
    var w := Of(g, d);
    if w.queue == [] then g
    else With(g, d, w.(slice := MayDispatch(c, w.rate, w.slice, w.queue[0].size, now).slice))
  }

  function WaitOf(c: Clock, g: Grp, d: Dir, now: int): int
    requires Clocked(c, g) && Of(g, d).queue != []
  {
    var w := Of(g, d);
    MayDispatch(c, w.rate, w.slice, w.queue[0].size, now).wait
  }

  // The smaller of the two waits.
  function MinWait(c: Clock, g: Grp, now: int): int
    requires Clocked(c, g) && (g.rd.queue != [] || g.wr.queue != [])
  {
    if g.wr.queue == [] then WaitOf(c, g, Read, now)
    else if g.rd.queue == [] then WaitOf(c, g, Write, now)
    else var a, b := WaitOf(c, g, Read, now), WaitOf(c, g, Write, now); if a < b then a else b
  }

  // tg_update_disptime, for the group
  function Timed(c: Clock, g: Grp, now: int): (r: Grp)
    requires Clocked(c, g) && (g.rd.queue != [] || g.wr.queue != [])
    ensures Clocked(c, r)
  {
    Ask(c, Ask(c, g, Read, now), Write, now).(disptime := now + MinWait(c, g, now))
  }

  // ------------------------------------------------------------ the queue

  datatype Due = Idle | DueAt(time: int)          // the delayed work

  datatype Td = Td(
    clock: Clock,
    groups: map<Gid, Grp>,
    list: seq<Gid>,                    // tg_list
    tree: Tree,
    rdQueued: int,
    wrQueued: int,
    undestroyed: int,
    changed: bool,
    work: Due,
    dead: bool)

  function Queued(td: Td): int { td.rdQueued + td.wrQueued }

  // A group taken off the tree becomes g, and goes back if it still has bios.
  function Requeued(td: Td, x: Gid, t: Tree, g: Grp): Td
    requires x in td.groups
  {
    var was := td.groups[x];
    td.(groups := td.groups[x := g.(onRr := Busy(g))],
        tree := if Busy(g) then Add(t, Node(g.disptime, x)) else t,
        rdQueued := td.rdQueued - (was.rd.nr - g.rd.nr),
        wrQueued := td.wrQueued - (was.wr.nr - g.wr.nr))
  }

  // One pass of throtl_select_dispatch: a group has its turn ...
  function Passed(c: Clock, g: Grp, now: int): Grp
    requires Clocked(c, g)
  {
    var r := DispatchTg(c, g, now);
    if Busy(r) && (r.rd.queue != [] || r.wr.queue != []) then Timed(c, r, now) else r
  }

  // ... and is taken off the tree for it.
  function Pass(td: Td, x: Gid, now: int): Td
    requires x in td.groups && Clocked(td.clock, td.groups[x])
  {
    Requeued(td, x, Erase(Cached(td.tree), x), Passed(td.clock, td.groups[x], now))
  }

  // tg_update_disptime
  function Rekey(td: Td, x: Gid, now: int): Td
    requires x in td.groups && Clocked(td.clock, td.groups[x])
    requires td.groups[x].rd.queue != [] || td.groups[x].wr.queue != []
  {
    var g := Timed(td.clock, td.groups[x], now);
    td.(groups := td.groups[x := g.(onRr := true)],
        tree := Add(if td.groups[x].onRr then Erase(td.tree, x) else td.tree, Node(g.disptime, x)))
  }

  // throtl_schedule_next_dispatch, whose BUG_ON wants a group on the tree.
  function Scheduled(td: Td, now: int): Td {
    if Queued(td) == 0 || td.tree.nodes == [] then td
    else td.(tree := Cached(td.tree), work := DueAt(Max(td.tree.nodes[0].key, now)))
  }

  // throtl_add_bio_tg: the group takes a bio and a reference for it ...
  function Fed(g: Grp, d: Dir, b: TBio): Grp {
    var w := Of(g, d);
    With(g, d, w.(queue := w.queue + [b], nr := w.nr + 1)).(ref := g.ref + 1, onRr := true)
  }

  // ... and goes on the tree.
  function AddBio(td: Td, x: Gid, d: Dir, b: TBio): Td
    requires x in td.groups
  {
    var g := td.groups[x];
    td.(groups := td.groups[x := Fed(g, d, b)],
        rdQueued := td.rdQueued + (if d.Read? then 1 else 0),
        wrQueued := td.wrQueued + (if d.Write? then 1 else 0),
        tree := if g.onRr then td.tree else Add(td.tree, Node(g.disptime, x)))
  }

  // blk_throtl_bio, past the lookups: charge the bio or queue it.
  function Submit(td: Td, x: Gid, d: Dir, b: TBio, now: int): Td
    requires x in td.groups && Clocked(td.clock, td.groups[x])
  {
    var g := td.groups[x];
    var w := Of(g, d);
    if NoRule(w.rate) then td
    else if w.nr != 0 then AddBio(td, x, d, b)
    else
      var v := MayDispatch(td.clock, w.rate, w.slice, b.size, now);
      if v.ok then
        td.(groups := td.groups[x := With(g, d, w.(slice := Sent(td.clock, w.rate, v.slice, b, now)))])
      else
        var a := AddBio(td.(groups := td.groups[x := With(g, d, w.(slice := v.slice))]), x, d, b);
        Scheduled(Rekey(a, x, now), now)
  }

  // throtl_update_blkio_group_*: a new limit, processed by the work.
  function SetRate(td: Td, x: Gid, d: Dir, r: Rate, now: int): Td
    requires x in td.groups
  {
    var g := td.groups[x];
    td.(groups := td.groups[x := With(g, d, Of(g, d).(rate := r)).(changed := true)], changed := true,
        work := DueAt(now))
  }

  // throtl_process_limit_change, for one group of the list ...
  function Restarted(td: Td, x: Gid, now: int): Td
    requires x in td.groups && Clocked(td.clock, td.groups[x])
  {
    var g := td.groups[x];
    if !g.changed then td
    else
      var c := td.clock;
      var g' := g.(rd := g.rd.(slice := Fresh(c, g.rd.slice, now)), wr := g.wr.(slice := Fresh(c, g.wr.slice, now)),
                   changed := false);
      var t := td.(groups := td.groups[x := g']);
      if g.onRr && (g.rd.queue != [] || g.wr.queue != []) then Rekey(t, x, now) else t
  }

  // ... and for all.
  function RestartAll(td: Td, ids: seq<Gid>, now: int): (r: Td)
    requires forall x <- td.groups :: Clocked(td.clock, td.groups[x])
    requires forall x <- ids :: x in td.groups
    ensures r.clock == td.clock && r.groups.Keys == td.groups.Keys
    decreases |ids|
  {
    if ids == [] then td else RestartAll(Restarted(td, ids[0], now), ids[1..], now)
  }

  function Process(td: Td, now: int): (r: Td)
    requires forall x <- td.groups :: Clocked(td.clock, td.groups[x])
    requires forall x <- td.list :: x in td.groups
  {
    if !td.changed then td else RestartAll(td.(changed := false), td.list, now)
  }

  // blk_throtl_drain: every bio of the group, checks or no checks.
  function DrainWay(c: Clock, g: Grp, d: Dir, now: int): Grp
    requires ClockOk(c)
    decreases |Of(g, d).queue|
  {
    if Of(g, d).queue == [] then g else DrainWay(c, SendHead(c, g, d, now), d, now)
  }

  function Drained(td: Td, x: Gid, now: int): Td
    requires x in td.groups && ClockOk(td.clock)
  {
    Requeued(td, x, Erase(Cached(td.tree), x),
             DrainWay(td.clock, DrainWay(td.clock, td.groups[x], Read, now), Write, now))
  }

  // ------------------------------------------------------ groups come and go

  function Never(): Slice { Slice(0, 0, 0, 0, []) }

  // throtl_init_group and throtl_init_add_tg_lists
  function Create(td: Td, x: Gid, rd: Rate, wr: Rate): Td {
    var g := Grp(Way([], 0, Never(), rd), Way([], 0, Never(), wr), 0, false, 1, 0, true, true, false);
    td.(groups := td.groups[x := g],
        list := [x] + td.list, undestroyed := td.undestroyed + 1)
  }

  // The cgroup side takes the group off its list (blkiocg_destroy).
  function Unlinked(td: Td, x: Gid): Td
    requires x in td.groups
  {
    td.(groups := td.groups[x := td.groups[x].(linked := false)])
  }

  function Unhash(s: seq<Gid>, x: Gid): seq<Gid> {
    if s == [] then [] else if s[0] == x then s[1..] else [s[0]] + Unhash(s[1..], x)
  }

  // throtl_destroy_tg, whose BUG_ON wants the group on the list.
  function Destroyed(td: Td, x: Gid): Td
    requires x in td.groups
  {
    var g := td.groups[x];
    td.(groups := td.groups[x := g.(hashed := false, ref := g.ref - 1, dropped := g.dropped + 1)],
        list := Unhash(td.list, x),
        undestroyed := td.undestroyed - 1)
  }

  // throtl_release_tgs, for one group of the list: blkiocg_del_blkio_group
  // decides who destroys it.
  function Released(td: Td, x: Gid): Td
    requires x in td.groups
  {
    if td.groups[x].linked then Destroyed(Unlinked(td, x), x) else td
  }
}
