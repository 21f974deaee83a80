/**
 Why an empty request must not ask for FUA as well as FLUSH (blk-flush.c:13-17).
 On a device with FLUSH and without FUA it needs a flush before and a flush after
 nothing, and the walk of flush_end_io, which remembers one successor, can then
 take a request it has just put back for one whose flush has ended.
 */
module FlushRule {
  import opened BlockTypes
  import opened Completion
  import opened Flush
  import opened FlushProtocol
  import opened FlushQueue

  // An empty request, at some point of its sequence.
  function Empty(id: RqId): Bio { Bio(id, 0, 0, [], true, 0, true, false, 0, 0, 0) }

  function EmptyRq(id: RqId): Request { Request(0, 0, [Empty(id)], 0, true, 0, true, false, false) }

  function Rec(id: RqId, done: Steps, joined: nat): FlushRq {
    FlushRq(true, true, false, Steps(true, false, true), done, true, joined, 0, EmptyRq(id).(flushSeq := true),
            Empty(id))
  }

  function NonePre(): Steps { Steps(false, true, false) }

  function PreDone(): Steps { Steps(true, true, false) }

  // A queue of such requests only.
  function Only3(lim: Limits, hz: nat, l0: seq<RqId>, l1: seq<RqId>, p: nat, r: nat, head: seq<Item>,
                 driver: set<Item>, issued: nat, rqs: map<RqId, FlushRq>, log: seq<Ending>): Queue {
    Queue(Caps(true, false), lim, hz, [l0, l1], p, r, 0, [], head, driver, issued, rqs, log)
  }

  // Putting x on the pending list.
  lemma Waits(q: Queue, x: RqId, steps: Steps)
    requires Shape(q) && x in q.rqs && q.since == 0 && q.data == []
    requires var s := CurSeq(Or(q.rqs[x].done, steps)); s == Pre || s == Post
    ensures var l := [Without(q.lists[0], x), Without(q.lists[1], x)];
            CompleteSeq(q, x, steps, 0, 0) ==
              Kick(q.(lists := l[q.p := l[q.p] + [x]],
                      rqs := q.rqs[x := q.rqs[x].(done := Or(q.rqs[x].done, steps), joined := q.issued, at := 0)]), 0)
  {
    var m := Mark(q, x, steps);
    assert m.rqs[x := m.rqs[x].(joined := m.issued, at := 0)] ==
           q.rqs[x := q.rqs[x].(done := Or(q.rqs[x].done, steps), joined := q.issued, at := 0)];
  }

  lemma Gone(s: seq<RqId>, x: RqId, t: seq<RqId>)
    requires s == [x] + t && x !in t
    ensures Without(s, x) == t
  {
    assert s[1..] == t;
    WithoutMembers(t, x);
  }

  // The first request issues a flush.
  lemma FirstInsert(lim: Limits, hz: nat)
    ensures InsertFlush(Only3(lim, hz, [], [], 0, 0, [], {}, 0, map[], []), 1, true, true, EmptyRq(1), 0) ==
            Only3(lim, hz, [1], [], 1, 0, [FlushItem], {}, 1, map[1 := Rec(1, NonePre(), 0)], [])
  {
    var q := Only3(lim, hz, [], [], 0, 0, [], {}, 0, map[], []);
    var a := q.(rqs := map[1 := Rec(1, Steps(false, false, false), 0)]);
    Waits(a, 1, NonePre());
    hide CompleteSeq;
    assert a.rqs[1 := Rec(1, NonePre(), 0)] == map[1 := Rec(1, NonePre(), 0)] && [] + [1] == [1];
    assert q.rqs[1 := Rec(1, Steps(false, false, false), 0)] == a.rqs;
  }

  // Another one waits for the next.
  lemma NextInsert(lim: Limits, hz: nat, l1: seq<RqId>, x: RqId, rqs: map<RqId, FlushRq>)
    requires x !in l1 && x != 1 && x !in rqs
    ensures InsertFlush(Only3(lim, hz, [1], l1, 1, 0, [FlushItem], {}, 1, rqs, []), x, true, true, EmptyRq(x), 0) ==
            Only3(lim, hz, [1], l1 + [x], 1, 0, [FlushItem], {}, 1, rqs[x := Rec(x, NonePre(), 1)], [])
  {
    var q := Only3(lim, hz, [1], l1, 1, 0, [FlushItem], {}, 1, rqs, []);
    var a := q.(rqs := rqs[x := Rec(x, Steps(false, false, false), 0)]);
    Waits(a, x, NonePre());
    WithoutMembers([1], x);
    WithoutMembers(l1, x);
    hide CompleteSeq, Without;
    assert a.rqs[x := Rec(x, NonePre(), 1)] == rqs[x := Rec(x, NonePre(), 1)];
  }

  // The three requests, before the first flush and after it.
  function Before(): map<RqId, FlushRq> {
    map[1 := Rec(1, NonePre(), 0), 2 := Rec(2, NonePre(), 1), 3 := Rec(3, NonePre(), 1)]
  }

  function Between(): map<RqId, FlushRq> { Before()[1 := Rec(1, PreDone(), 1)] }

  lemma FirstStep(lim: Limits, hz: nat)
    ensures CompleteSeq(Only3(lim, hz, [1], [2, 3], 1, 1, [], {}, 1, Before(), []), 1, Only(Pre), 0, 0) ==
            Only3(lim, hz, [], [2, 3, 1], 0, 1, [FlushItem], {}, 2, Between(), [])
  {
    hide CompleteSeq, Without;
    Waits(Only3(lim, hz, [1], [2, 3], 1, 1, [], {}, 1, Before(), []), 1, Only(Pre));
    Gone([1], 1, []);
    WithoutMembers([2, 3], 1);
    assert [2, 3] + [1] == [2, 3, 1];
  }

  // The flush ends: the first request goes behind the others, and a second flush
  // is issued for all of them.
  lemma FirstFlush(lim: Limits, hz: nat)
    ensures FlushEndIo(Only3(lim, hz, [1], [2, 3], 1, 0, [], {FlushItem}, 1, Before(), []), 0, 0) ==
            Only3(lim, hz, [], [2, 3, 1], 0, 1, [FlushItem], {}, 2, Between(), [])
  {
    hide CompleteSeq;
    FirstStep(lim, hz);
    var a := Only3(lim, hz, [1], [2, 3], 1, 1, [], {}, 1, Before(), []);
    var c := CompleteSeq(a, 1, Only(Pre), 0, 0);
    assert AfterFlush(Only3(lim, hz, [1], [2, 3], 1, 0, [], {FlushItem}, 1, Before(), [])) == a;
    assert [1][1..] == [] && Walk(c, [], 0, 0) == c;
  }

  // That one ends too: the second request's step issues a third flush and swaps
  // the lists, so the third request's step puts it back on the list being walked,
  // behind the first ...
  lemma SecondTurn(lim: Limits, hz: nat)
    ensures CompleteSeq(Only3(lim, hz, [], [2, 3, 1], 0, 0, [], {}, 2, Between(), []), 2, Only(Pre), 0, 0) ==
            Only3(lim, hz, [2], [3, 1], 1, 0, [FlushItem], {}, 3, Between()[2 := Rec(2, PreDone(), 2)], [])
  {
    Waits(Only3(lim, hz, [], [2, 3, 1], 0, 0, [], {}, 2, Between(), []), 2, Only(Pre));
    Gone([2, 3, 1], 2, [3, 1]);
    hide CompleteSeq, Without;
    assert [] + [2] == [2];
  }

  lemma ThirdTurn(lim: Limits, hz: nat, rqs: map<RqId, FlushRq>)
    requires 3 in rqs && rqs[3] == Rec(3, NonePre(), 1)
    ensures CompleteSeq(Only3(lim, hz, [2], [3, 1], 1, 0, [FlushItem], {}, 3, rqs, []), 3, Only(Pre), 0, 0) ==
            Only3(lim, hz, [2], [1, 3], 1, 0, [FlushItem], {}, 3, rqs[3 := Rec(3, PreDone(), 3)], [])
  {
    Waits(Only3(lim, hz, [2], [3, 1], 1, 0, [FlushItem], {}, 3, rqs, []), 3, Only(Pre));
    Gone([3, 1], 3, [1]);
    WithoutMembers([2], 3);
    hide CompleteSeq, Without;
    assert [1] + [3] == [1, 3];
  }

  // ... where the walk finds it at its last step and ends it.
  lemma LastTurn(lim: Limits, hz: nat, x: RqId, rest: seq<RqId>, rqs: map<RqId, FlushRq>, log: seq<Ending>, joined: nat)
    requires x in rqs && rqs[x] == Rec(x, PreDone(), joined) && x !in rest && x != 2
    ensures var q := Only3(lim, hz, [2], [x] + rest, 1, 0, [FlushItem], {}, 3, rqs, log);
            var c := CompleteSeq(q, x, Only(Post), 0, 0);
            c == Only3(lim, hz, [2], rest, 1, 0, [FlushItem], {}, 3, c.rqs, log + [Ending(x, 0)])
            && c.rqs == rqs[x := c.rqs[x]]
  {
    Gone([x] + rest, x, rest);
    WithoutMembers([2], x);
    hide Without;
    RestoredEnds(lim, EmptyRq(x).(flushSeq := true), Empty(x), 0);
    hide Update;
    var q := Only3(lim, hz, [2], [x] + rest, 1, 0, [FlushItem], {}, 3, rqs, log);
    var m := Mark(q, x, Only(Post));
    var e := Enter(m, x, Done, 0, 0);
    assert e.rqs == rqs[x := e.rqs[x]] && e.log == log + [Ending(x, 0)] && e.lists == [[2], rest];
    assert Kick(e, 0) == e;
  }

  // Three such requests come, and a flush ends.
  ghost predicate Comes(q: Queue, x: RqId, q': Queue) {
    Shape(q) && q' == InsertFlush(q, x, true, true, EmptyRq(x), 0)
  }

  ghost predicate FlushEnds(q: Queue, q': Queue) {
    Shape(q) && |q.head| == 1 && (forall id <- q.lists[q.r] :: id in q.rqs) && q' == FlushEndIo(Fetch(q, 0), 0, 0)
  }

  lemma Reached(lim: Limits, hz: nat) returns (q1: Queue, q2: Queue, q3: Queue, q: Queue)
    ensures Comes(Only3(lim, hz, [], [], 0, 0, [], {}, 0, map[], []), 1, q1) && Comes(q1, 2, q2) && Comes(q2, 3, q3)
    ensures FlushEnds(q3, q) && q == Only3(lim, hz, [], [2, 3, 1], 0, 1, [FlushItem], {}, 2, Between(), [])
  {
    hide InsertFlush, FlushEndIo;
    var r1 := map[1 := Rec(1, NonePre(), 0)];
    var r2 := r1[2 := Rec(2, NonePre(), 1)];
    q1 := Only3(lim, hz, [1], [], 1, 0, [FlushItem], {}, 1, r1, []);
    q2 := Only3(lim, hz, [1], [2], 1, 0, [FlushItem], {}, 1, r2, []);
    q3 := Only3(lim, hz, [1], [2, 3], 1, 0, [FlushItem], {}, 1, Before(), []);
    q := Only3(lim, hz, [], [2, 3, 1], 0, 1, [FlushItem], {}, 2, Between(), []);
    FirstInsert(lim, hz);
    NextInsert(lim, hz, [], 2, r1);
    NextInsert(lim, hz, [2], 3, r2);
    assert [] + [2] == [2] && [2] + [3] == [2, 3] && r2[3 := Rec(3, NonePre(), 1)] == Before();
    assert Fetch(q3, 0) == Only3(lim, hz, [1], [2, 3], 1, 0, [], {FlushItem}, 1, Before(), []);
    FirstFlush(lim, hz);
  }

  // One turn of the walk in place: the step, and the successor remembered.
  function Turn(q: Queue, w: nat, x: RqId): (Queue, Link)
    requires Shape(q) && w < 2 && x in q.rqs
  {
    (CompleteSeq(q, x, Only(CurSeq(q.rqs[x].done)), 0, 0), After(q.lists[w], x))
  }

  // The harm, on a queue three such requests lead to: when the second flush ends,
  // the walk comes to the third request twice, and ends it as flushed though the
  // only flush issued since its pre-flush is still in flight.
  lemma EmptyFuaSkipsFlush(lim: Limits, hz: nat)
    returns (q1: Queue, q2: Queue, q3: Queue, q: Queue, c1: Queue, c2: Queue, c3: Queue, c4: Queue)
    ensures Comes(Only3(lim, hz, [], [], 0, 0, [], {}, 0, map[], []), 1, q1) && Comes(q1, 2, q2) && Comes(q2, 3, q3)
    ensures FlushEnds(q3, q) && q.head == [FlushItem] && q.lists[q.r] == [2, 3, 1]
    ensures Turn(AfterFlush(Fetch(q, 0)), 1, 2) == (c1, Link.At(3)) && Turn(c1, 1, 3) == (c2, Link.At(1))
    ensures Turn(c2, 1, 1) == (c3, Link.At(3)) && Turn(c3, 1, 3) == (c4, Link.End)
    ensures CurSeq(c3.rqs[3].done) == Post && c3.rqs[3].joined == c3.issued
    ensures Ending(3, 0) in c4.log && FlushItem in c4.head && c4.issued == c3.issued
  {
    q1, q2, q3, q := Reached(lim, hz);
    hide CompleteSeq, Comes, FlushEnds;
    var r2 := Between()[2 := Rec(2, PreDone(), 2)];
    var r3 := r2[3 := Rec(3, PreDone(), 3)];
    var a := Only3(lim, hz, [], [2, 3, 1], 0, 0, [], {}, 2, Between(), []);
    assert AfterFlush(Fetch(q, 0)) == a;
    SecondTurn(lim, hz);
    c1 := Only3(lim, hz, [2], [3, 1], 1, 0, [FlushItem], {}, 3, r2, []);
    ThirdTurn(lim, hz, r2);
    c2 := Only3(lim, hz, [2], [1, 3], 1, 0, [FlushItem], {}, 3, r3, []);
    LastTurn(lim, hz, 1, [3], r3, [], 1);
    assert [1] + [3] == [1, 3] && [] + [Ending(1, 0)] == [Ending(1, 0)];
    c3 := CompleteSeq(c2, 1, Only(Post), 0, 0);
    LastTurn(lim, hz, 3, [], c3.rqs, [Ending(1, 0)], 3);
    assert [3] + [] == [3];
    c4 := CompleteSeq(c3, 3, Only(Post), 0, 0);
    Successors();
  }

  lemma Successors()
    ensures After([2, 3, 1], 2) == Link.At(3) && After([3, 1], 3) == Link.At(1) && After([1, 3], 1) == Link.At(3)
    ensures After([3], 3) == Link.End
  {
    assert [2, 3, 1][1..] == [3, 1] && [3, 1][1..] == [1] && [1, 3][1..] == [3] && [3][1..] == [];
  }
}
