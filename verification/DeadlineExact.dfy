/**
 What the deadline scheduler sends (deadline-iosched.c), exactly: which request is
 chosen, what a merge does to expiry, and, for every setting of the tunables, a run
 that makes a write wait as long as it ever has to.
 */
module DeadlineExact {
  import opened KeyOrder
  import opened Deadline
  import opened DeadlineRuns

  // ------------------------------------------------------------- the choice

  // A batch goes on while its direction has a next request and fifo_batch is not
  // reached, and it goes on with that request.
  lemma BatchGoesOn(dd: Dd, now: int, d: Dir)
    requires DInv(dd, now) && Of(dd, d).next.At? && dd.batching < dd.tun.batch
    ensures Choose(dd, now) == Pick(Of(dd, d).next.id, d, false, dd.starved)
  {
  }

  // Otherwise a new one starts.  With both directions waiting it is of writes exactly
  // when reads were preferred writes_starved times; this is counted only while
  // writes wait, and starts over with a batch of writes.
  lemma NewBatch(dd: Dd, now: int)
    requires DInv(dd, now) && (dd.rd.next.At? || dd.wr.next.At? ==> dd.batching >= dd.tun.batch)
    ensures var c := Choose(dd, now);
            && (c == None <==> dd.rd.fifo == [] && dd.wr.fifo == [])
            && (c.Pick? ==>
                  && c.anew
                  && (c.d == Write <==>
                        dd.wr.fifo != [] && (dd.rd.fifo == [] || dd.starved >= dd.tun.starved))
                  && c.starved == (if c.d == Write then 0 else if dd.wr.fifo != [] then dd.starved + 1 else dd.starved))
  {
  }

  // It starts with the oldest request if that one's time is up or there is no next
  // one, and else goes on along the sectors.
  lemma BatchStarts(dd: Dd, now: int)
    requires DInv(dd, now) && Choose(dd, now).Pick? && Choose(dd, now).anew
    ensures var c := Choose(dd, now);
            var l := Of(dd, c.d);
            && l.fifo != [] && l.fifo[0] in dd.expire
            && c.id == (if now > dd.expire[l.fifo[0]] || l.next == End then l.fifo[0] else l.next.id)
  {
    hide InOrder;
    ChosenIsQueued(dd, now);
    var l := Of(dd, Choose(dd, now).d);
    assert l.fifo[0] in l.fifo;
  }

  // Sending counts in the batch, and leaves as next the request after the one sent
  // in the order of sectors, and none in the other direction.
  lemma SendLeaves(dd: Dd, now: int)
    requires DInv(dd, now) && Choose(dd, now).Pick?
    ensures var c, r := Choose(dd, now), Dispatch(dd, now);
            var s := Of(dd, c.d).sort;
            && r.batching == (if c.anew then 1 else dd.batching + 1) && r.starved == c.starved
            && Of(r, if c.d == Read then Write else Read).next == End
            && (Of(r, c.d).next == End ==> s != [] && s[|s| - 1] == c.id)
            && (Of(r, c.d).next.At? ==>
                  exists i :: 0 <= i < |s| - 1 && s[i] == c.id && s[i + 1] == Of(r, c.d).next.id)
  {
    ChosenIsQueued(dd, now);
    var c := Choose(dd, now);
    var s := Of(dd, c.d).sort;
    assert c.id in s && InOrder(dd.pos, s);
    LatterIs(dd.pos, s, c.id);
    hide Choose, DInv, Without;
  }

  lemma {:induction false} LatterIs(key: Keys, s: seq<Id>, x: Id)
    requires InOrder(key, s) && x in s
    ensures Latter(s, x) == End ==> s[|s| - 1] == x
    ensures Latter(s, x).At? ==>
              Latter(s, x).id != x &&
              exists i :: 0 <= i < |s| - 1 && s[i] == x && s[i + 1] == Latter(s, x).id
  {
    if s[0] == x {
      if |s| > 1 { assert s[1] in s[1..]; }
    } else {
      LatterIs(key, s[1..], x);
      if Latter(s, x).At? {
        var i :| 0 <= i < |s[1..]| - 1 && s[1..][i] == x && s[1..][i + 1] == Latter(s, x).id;
        assert s[i + 1] == x && s[i + 2] == Latter(s, x).id;
      }
    }
  }

  // ------------------------------------------------------------- the expiry

  // A new request expires after its direction's time, behind all others of it.
  lemma AddExactly(dd: Dd, x: Id, d: Dir, pos: int, now: int)
    requires forall y <- Of(dd, d).sort :: y in dd.pos
    ensures var r := Add(dd, x, d, pos, now);
            && r.expire[x] == now + (if d == Read then dd.tun.readExpire else dd.tun.writeExpire)
            && Of(r, d).fifo == Of(dd, d).fifo + [x] && r.pos[x] == pos
            && forall y :: y != x && y in dd.expire ==> y in r.expire && r.expire[y] == dd.expire[y]
  {
    hide Insert;
  }

  // After a merge the survivor expires when the earlier of the two did, and no other
  // request's expiry or place among the others changes.
  lemma MergeExactly(dd: Dd, req: Id, next: Id, d: Dir, now: int)
    requires DInv(dd, now) && req in Of(dd, d).fifo && next in Of(dd, d).fifo && req != next
    ensures req in dd.expire && next in dd.expire
    ensures var r := Merged(dd, req, next, d);
            var sooner := if dd.expire[next] < dd.expire[req] then dd.expire[next] else dd.expire[req];
            && r.expire == dd.expire[req := sooner]
            && (forall y :: y in Of(r, d).fifo <==> y in Of(dd, d).fifo && y != next)
            && Without(Of(r, d).fifo, req) == Without(Without(Of(dd, d).fifo, next), req)
  {
    hide DInv, Without, MoveBehind;
    FifoOrder(dd, d, now);
    var f := Of(dd, d).fifo;
    OrderDistinct(dd.expire, f);
    WithoutOk(dd.expire, f, req);
    WithoutOk(dd.expire, f, next);
    assert dd.expire[req := dd.expire[req]] == dd.expire;
    if dd.expire[next] < dd.expire[req] { TakesPlace(f, req, next); }
  }

  // If the absorbed request was the next one, the one after it in the order of
  // sectors is now; otherwise the next one stays.
  lemma MergeNext(dd: Dd, req: Id, next: Id, d: Dir, now: int)
    requires DInv(dd, now) && req in Of(dd, d).fifo && next in Of(dd, d).fifo && req != next
    ensures req in dd.expire && next in dd.expire
    ensures var l, r := Of(dd, d), Of(Merged(dd, req, next, d), d);
            var s := l.sort;
            if l.next != At(next) then r.next == l.next
            else if r.next == End then s != [] && s[|s| - 1] == next
            else exists i :: 0 <= i < |s| - 1 && s[i] == next && s[i + 1] == r.next.id
  {
    FifoOrder(dd, d, now);
    var s := Of(dd, d).sort;
    assert next in s && InOrder(dd.pos, s);
    LatterIs(dd.pos, s, next);
    hide DInv, Without, MoveBehind;
  }

  // A front merge changes where a request is, and nothing else of it or of others.
  lemma FrontExactly(dd: Dd, x: Id, d: Dir, pos: int)
    requires forall y <- Of(dd, d).sort :: y in dd.pos
    ensures var r := FrontMerged(dd, x, d, pos);
            && r.pos == dd.pos[x := pos] && r.expire == dd.expire
            && Of(r, d) == Of(dd, d).(sort := Of(r, d).sort)
            && r == With(dd, d, Of(r, d)).(pos := r.pos)
  {
    hide Insert, Without;
  }

  lemma FifoOrder(dd: Dd, d: Dir, now: int)
    requires DInv(dd, now)
    ensures InOrder(dd.expire, Of(dd, d).fifo) && forall x <- Of(dd, d).fifo :: x in dd.expire
  {
    InKeys(dd.expire, Of(dd, d).fifo);
  }

  // Moving req behind next and dropping next moves nothing else.
  lemma TakesPlace(f: seq<Id>, req: Id, next: Id)
    requires req in f && next in f && req != next && forall i, j :: 0 <= i < j < |f| ==> f[i] != f[j]
    ensures var r := Without(MoveBehind(f, req, next), next);
            && (forall y :: y in r <==> y in f && y != next) && Without(r, req) == Without(Without(f, next), req)
  {
    var g := Without(f, req);
    Shorter(f, req);
    BehindThenGone(g, req, next);
    ReplacedMembers(g, req, next);
    Shorter(f, next);
    Swap(f, req, next);
  }

  lemma {:induction false} Shorter(s: seq<Id>, x: Id)
    requires forall i, j :: 0 <= i < j < |s| ==> s[i] != s[j]
    ensures var r := Without(s, x);
            (forall i, j :: 0 <= i < j < |r| ==> r[i] != r[j]) && (forall y :: y in r <==> y in s && y != x)
  {
    if s != [] {
      assert s == [s[0]] + s[1..];
      if s[0] == x {
        assert x !in s[1..];
      } else {
        Shorter(s[1..], x);
        var t := Without(s[1..], x);
        assert s[0] !in t;
        forall i, j | 0 <= i < j < |[s[0]] + t| ensures ([s[0]] + t)[i] != ([s[0]] + t)[j] {
          if i == 0 { assert ([s[0]] + t)[j] in t; }
        }
      }
    }
  }

  lemma {:induction false} ReplacedMembers(s: seq<Id>, x: Id, y: Id)
    requires x !in s && y in s && x != y && forall i, j :: 0 <= i < j < |s| ==> s[i] != s[j]
    ensures var r := Replace(s, x, y);
            (forall z :: z in r <==> (z in s && z != y) || z == x) && Without(r, x) == Without(s, y)
  {
    assert s == [s[0]] + s[1..];
    if s[0] == y {
      assert y !in s[1..];
      ReplaceNone(s[1..], x, y);
    } else {
      ReplacedMembers(s[1..], x, y);
      assert Replace(s, x, y)[1..] == Replace(s[1..], x, y);
    }
  }

  lemma {:induction false} Swap(s: seq<Id>, x: Id, y: Id)
    requires x != y
    ensures Without(Without(s, x), y) == Without(Without(s, y), x)
  {
    if s != [] {
      if s[0] != x && s[0] != y {
        Swap(s[1..], x, y);
        assert Without(s, x)[1..] == Without(s[1..], x) && Without(s, y)[1..] == Without(s[1..], y);
      } else if s[0] == x {
        if Without(s, y) != [] { assert Without(s, y)[1..] == Without(s[1..], y); }
      } else {
        if Without(s, x) != [] { assert Without(s, x)[1..] == Without(s[1..], x); }
      }
    }
  }

  // ------------------------------------------------------ the bound is reached

  // Reads 0 to n - 1 at sectors 0 to n - 1, and a write.
  function Range(a: nat, b: nat): seq<Id>
    requires a <= b
  {
    seq(b - a, i requires 0 <= i < b - a => a + i)
  }

  lemma RangeIn(a: nat, b: nat)
    requires a <= b
    ensures forall x: nat :: x in Range(a, b) <==> a <= x < b
  {
    forall x: nat | a <= x < b ensures x in Range(a, b) { assert Range(a, b)[x - a] == x; }
  }

  function Same(k: nat): Keys { map i | i in Range(0, k) :: i }

  function Times(k: nat, t: int): Keys { map i | i in Range(0, k) :: t }

  // The reads from m on, of which m is next.
  function Rest(m: nat, n: nat): Lane
    requires m <= n
  {
    Lane(Range(m, n), Range(m, n), if m < n then At(m) else End)
  }

  lemma {:induction false} InsertLast(key: Keys, s: seq<Id>, x: Id)
    requires x in key && forall y <- s :: y in key && key[y] <= key[x]
    ensures Insert(key, s, x) == s + [x]
  {
    if s != [] {
      InsertLast(key, s[1..], x);
      assert s == [s[0]] + s[1..];
    }
  }

  lemma HeadOff(m: nat, n: nat)
    requires m < n
    ensures Range(m, n) != [] && Range(m, n)[0] == m && Range(m, n)[1..] == Range(m + 1, n)
    ensures Without(Range(m, n), m) == Range(m + 1, n) && Latter(Range(m, n), m) == Rest(m + 1, n).next
  {
    assert Range(m, n) == [m] + Range(m + 1, n);
  }

  // k reads have come.
  function Coming(t: Tunables, k: nat): World {
    World(Dd(t, Lane(Range(0, k), Range(0, k), End), Lane([], [], End), Same(k), Times(k, t.readExpire), 0, 0, k), 0)
  }

  lemma KeysNext(k: nat, t: int)
    ensures Same(k)[k := k] == Same(k + 1) && Times(k, t)[k := t] == Times(k + 1, t)
  {
    RangeIn(0, k);
    RangeIn(0, k + 1);
    hide Range;
  }

  lemma Comes(t: Tunables, k: nat)
    ensures Leads(Coming(t, k), Arrive(k, Read, k, 0), Coming(t, k + 1))
  {
    var key := Same(k)[k := k];
    RangeIn(0, k);
    RangeIn(0, k + 1);
    KeysNext(k, t.readExpire);
    InsertLast(key, Range(0, k), k);
    assert Range(0, k) + [k] == Range(0, k + 1);
    hide Insert, Range, Same, Times;
  }

  // m reads were sent before the write came or past it; the batches are of size
  // max(1, fifo_batch), and one was running when it came.
  function Passing(t: Tunables, n: nat, m: nat): World
    requires 1 <= m <= n
  {
    var b := BatchSize(t);
    World(Dd(t, Rest(m, n), Lane([n], [n], End), Same(n)[n := n], Times(n, t.readExpire)[n := t.writeExpire],
             (m - 1) % b + 1, (m - 1) / b, n - m + 1), 0)
  }

  function Begun(t: Tunables, n: nat): World
    requires 1 <= n
  {
    World(Dd(t, Rest(1, n), Lane([], [], End), Same(n), Times(n, t.readExpire), 1, 0, n - 1), 0)
  }

  // The first read starts a batch ...
  lemma Begins(t: Tunables, n: nat)
    requires n >= 1
    ensures Leads(Coming(t, n), Send(0), Begun(t, n))
  {
    HeadOff(0, n);
    hide Range, Without, Latter;
  }

  // ... the write comes ...
  lemma WriteComes(t: Tunables, n: nat)
    requires n >= 1
    ensures Leads(Begun(t, n), Arrive(n, Write, n, 0), Passing(t, n, 1))
  {
    assert n !in Range(1, n);
    assert [] + [n] == [n];
    hide Range;
  }

  lemma Counts(m: nat, b: nat)
    requires b >= 1 && m >= 1
    ensures if (m - 1) % b + 1 < b then m % b == (m - 1) % b + 1 && m / b == (m - 1) / b
            else (m - 1) % b + 1 == b && m % b == 0 && m / b == (m - 1) / b + 1
  {
    var q, r := (m - 1) / b, (m - 1) % b;
    assert m == b * q + (r + 1);
    if r + 1 < b {
      Unique(m, b, q, r + 1);
    } else {
      assert b * (q + 1) == b * q + b;
      Unique(m, b, q + 1, 0);
    }
  }

  lemma Unique(m: nat, b: nat, q: int, r: int)
    requires b >= 1 && m == b * q + r && 0 <= r < b
    ensures m / b == q && m % b == r
  {
    var d := m / b - q;
    assert m == b * (m / b) + m % b;
    assert b * d == r - m % b;
    Steps(b, d);
  }

  lemma Steps(b: nat, d: int)
    ensures d >= 1 ==> b * d >= b
    ensures d <= -1 ==> b * d <= 0 - b
  {
  }

  // ... and each read is sent past it until the reads are done.
  lemma Passes(t: Tunables, n: nat, m: nat)
    requires 1 <= m < n && n == (t.starved + 1) * BatchSize(t)
    ensures Leads(Passing(t, n, m), Send(0), Passing(t, n, m + 1)) && Sends(Passing(t, n, m), Send(0), Read)
  {
    var b := BatchSize(t);
    HeadOff(m, n);
    Counts(m, b);
    Under(m, b, t.starved);
    RangeIn(0, n);
    assert m in Same(n)[n := n] && m in Times(n, t.readExpire)[n := t.writeExpire];
    hide Range, Without, Latter, Same, Times;
  }

  lemma Under(m: nat, b: nat, s: nat)
    requires b >= 1 && 1 <= m < (s + 1) * b
    ensures (m - 1) % b + 1 == b ==> (m - 1) / b < s
  {
    var q, r := (m - 1) / b, (m - 1) % b;
    assert m - 1 == b * q + r;
    Steps(b, q - s);
    assert b * (q - s) == b * q - b * s;
  }

  // The run: the reads come, the first is sent, the write comes, the others are sent.
  function WorldAt(t: Tunables, n: nat, i: nat): World
    requires n >= 1 && i <= 2 * n + 1
  {
    if i <= n then Coming(t, i) else if i == n + 1 then Begun(t, n) else Passing(t, n, i - n - 1)
  }

  function EventAt(n: nat, i: nat): Event {
    if i < n then Arrive(i, Read, i, 0) else if i == n + 1 then Arrive(n, Write, n, 0) else Send(0)
  }

  lemma StepAt(t: Tunables, n: nat, i: nat)
    requires n == (t.starved + 1) * BatchSize(t) && n >= 1 && i < 2 * n + 1
    ensures Leads(WorldAt(t, n, i), EventAt(n, i), WorldAt(t, n, i + 1))
    ensures i >= n + 2 ==> Sends(WorldAt(t, n, i), EventAt(n, i), Read)
  {
    hide Leads, Sends, Coming, Begun, Passing;
    if i < n {
      Comes(t, i);
    } else if i == n {
      Begins(t, n);
    } else if i == n + 1 {
      WriteComes(t, n);
    } else {
      Passes(t, n, i - n - 1);
    }
  }

  lemma {:induction false} AllSent(ws: seq<World>, es: seq<Event>, i: nat, n: nat)
    requires |ws| == |es| + 1 && i <= n <= |es| && forall j :: i <= j < n ==> Sends(ws[j], es[j], Read)
    ensures Sent(ws, es, Read, i, n) == n - i
    decreases n
  {
    hide Sends;
    if i < n { AllSent(ws, es, i, n - 1); }
  }

  // For every setting of the tunables a run sends as many reads past a waiting write
  // as the bound allows.
  lemma StarvationReached(t: Tunables) returns (ws: seq<World>, es: seq<Event>, i: nat)
    ensures Run(t, ws, es) && i <= |es|
    ensures forall j :: i <= j < |es| ==> ws[j].dd.wr.fifo != [] && !Sends(ws[j], es[j], Write)
    ensures Sent(ws, es, Read, i, |es|) == (t.starved + 1) * BatchSize(t) - 1
  {
    var n := (t.starved + 1) * BatchSize(t);
    assert n >= 1 by { assert t.starved * BatchSize(t) >= 0; }
    ws := seq(2 * n + 2, k requires 0 <= k < 2 * n + 2 => WorldAt(t, n, k));
    es := seq(2 * n + 1, k requires 0 <= k < 2 * n + 1 => EventAt(n, k));
    i := n + 2;
    hide Leads, Sends, EventAt, Run;
    forall j | 0 <= j < |es|
      ensures Leads(ws[j], es[j], ws[j + 1]) && (j >= n + 2 ==> Sends(ws[j], es[j], Read)) {
      StepAt(t, n, j);
    }
    assert Coming(t, 0) == Start(t) by { Nothing(t); }
    RunOf(t, ws, es);
    AllSent(ws, es, i, |es|);
    forall j | i <= j < |es| ensures ws[j].dd.wr.fifo != [] && !Sends(ws[j], es[j], Write) { NotWrite(ws[j], es[j]); }
  }

  lemma Nothing(t: Tunables)
    ensures Coming(t, 0) == Start(t)
  {
    assert Same(0) == map[] && Times(0, t.readExpire) == map[];
  }

  lemma NotWrite(w: World, e: Event)
    requires Sends(w, e, Read)
    ensures !Sends(w, e, Write)
  {
  }
}
