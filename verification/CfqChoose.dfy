/**
 CFQ's seek-distance choice (cfq-iosched.c): which of two requests is best
 served now, and the next request of a queue found from tree neighbours alone.
 */
module CfqChoose {

  datatype Rq = Rq(id: nat, pos: nat, sync: bool, prio: bool)
  datatype Found = Null | Some(rq: Rq)

  datatype Tunables = Tunables(backMax: nat, penalty: nat)      // KiB, factor

  // ------------------------------------------------------------- the choice

  predicate Wraps(t: Tunables, s: nat, last: nat) {
    s < last && s + t.backMax * 2 < last
  }

  function Distance(t: Tunables, s: nat, last: nat): nat {
    if s >= last then s - last else if s + t.backMax * 2 >= last then (last - s) * t.penalty else 0
  }

  // cfq_choose_req, for two requests
  function Choose(t: Tunables, a: Rq, b: Rq, last: nat): Rq {
    if a == b then b
    else if a.sync != b.sync then (if a.sync then a else b)
    else if a.prio != b.prio then (if a.prio then a else b)
    else
      var wa, wb := Wraps(t, a.pos, last), Wraps(t, b.pos, last);
      var da, db := Distance(t, a.pos, last), Distance(t, b.pos, last);
      if !wa && !wb then
        if da < db then a else if db < da then b else if a.pos >= b.pos then a else b
      else if !wa then a
      else if !wb then b
      else if a.pos <= b.pos then a else b
  }

  // ... or for references that may be null
  function ChooseReq(t: Tunables, a: Found, b: Found, last: nat): Found {
    if a == Null || a == b then b else if b == Null then a else Some(Choose(t, a.rq, b.rq, last))
  }

  // ------------------------------------------------- the order it stands for

  // How a request ranks, most significant first; smaller is better.
  datatype Rank = Rank(async: int, plain: int, behind: int, cost: int, tie: int)

  function RankOf(t: Tunables, r: Rq, last: nat): Rank {
    Rank(if r.sync then 0 else 1, if r.prio then 0 else 1, if Wraps(t, r.pos, last) then 1 else 0,
         Distance(t, r.pos, last), if Wraps(t, r.pos, last) then r.pos else -(r.pos as int))
  }

  predicate Le(x: Rank, y: Rank) {
    if x.async != y.async then x.async < y.async
    else if x.plain != y.plain then x.plain < y.plain
    else if x.behind != y.behind then x.behind < y.behind
    else if x.cost != y.cost then x.cost < y.cost
    else x.tie <= y.tie
  }

  // a is served before b, or they are as good as each other.
  predicate AtLeast(t: Tunables, a: Rq, b: Rq, last: nat) {
    Le(RankOf(t, a, last), RankOf(t, b, last))
  }

  // The choice is the better by rank, the first of two equals.
  lemma ChooseIsBest(t: Tunables, a: Rq, b: Rq, last: nat)
    ensures Choose(t, a, b, last) == if AtLeast(t, a, b, last) then a else b
  {
    assert Wraps(t, a.pos, last) ==> Distance(t, a.pos, last) == 0;
    assert Wraps(t, b.pos, last) ==> Distance(t, b.pos, last) == 0;
  }

  // Choosing is a total preorder: of two requests one wins against the other,
  // winning is transitive, and both orders of asking find equally good ones.
  lemma ChooseIsPreorder(t: Tunables, a: Rq, b: Rq, c: Rq, last: nat)
    ensures Choose(t, a, b, last) == a || Choose(t, b, a, last) == b
    ensures Choose(t, a, b, last) == a && Choose(t, b, c, last) == b ==> Choose(t, a, c, last) == a
    ensures RankOf(t, Choose(t, a, b, last), last) == RankOf(t, Choose(t, b, a, last), last)
  {
    ChooseIsBest(t, a, b, last);
    ChooseIsBest(t, b, a, last);
    ChooseIsBest(t, b, c, last);
    ChooseIsBest(t, a, c, last);
  }

  // ------------------------------------------------- what is best, in sectors

  // Sync goes before async, and then REQ_PRIO before plain, wherever they are.
  lemma ClassFirst(t: Tunables, a: Rq, b: Rq, last: nat)
    ensures a.sync && !b.sync ==> Choose(t, a, b, last) == a && Choose(t, b, a, last) == a
    ensures a.sync == b.sync && a.prio && !b.prio ==> Choose(t, a, b, last) == a && Choose(t, b, a, last) == a
  {
  }

  // Of two requests of a class, one ahead of the head and one behind it within
  // reach: the one ahead is taken exactly when its distance is at most that of the
  // one behind times the penalty; beyond reach it always is.
  lemma AheadOrBehind(t: Tunables, a: Rq, b: Rq, last: nat)
    requires a.sync == b.sync && a.prio == b.prio && b.pos < last <= a.pos
    ensures b.pos + 2 * t.backMax >= last ==>
              (Choose(t, a, b, last) == a <==> a.pos - last <= (last - b.pos) * t.penalty)
    ensures b.pos + 2 * t.backMax < last ==> Choose(t, a, b, last) == a
    ensures Choose(t, b, a, last) == Choose(t, a, b, last)
  {
  }

  // Of two on one side the nearer one is taken, the first of two at one sector;
  // with both behind and out of reach, the one further behind; and one in reach
  // before one that is not.
  lemma OneSide(t: Tunables, a: Rq, b: Rq, last: nat)
    requires a.sync == b.sync && a.prio == b.prio && a != b
    ensures last <= a.pos && last <= b.pos ==> Choose(t, a, b, last) == if a.pos <= b.pos then a else b
    ensures a.pos < last && b.pos < last && last <= a.pos + 2 * t.backMax && last <= b.pos + 2 * t.backMax ==>
              Choose(t, a, b, last) == if a.pos >= b.pos then a else b
    ensures a.pos + 2 * t.backMax < last && b.pos + 2 * t.backMax < last ==>
              Choose(t, a, b, last) == if a.pos <= b.pos then a else b
    ensures a.pos < last && b.pos + 2 * t.backMax < last <= a.pos + 2 * t.backMax ==>
              Choose(t, a, b, last) == a && Choose(t, b, a, last) == a
  {
    if a.pos < last && b.pos < last && a.pos != b.pos {
      if a.pos < b.pos { MulMono(last - b.pos, last - a.pos, t.penalty); }
      else { MulMono(last - a.pos, last - b.pos, t.penalty); }
    }
  }

  lemma MulMono(a: nat, b: nat, k: nat)
    requires a <= b
    ensures a * k <= b * k
  {
  }

  // ---------------------------------------------------------- the next request

  // A queue's sort_list.
  ghost predicate Sorted(s: seq<Rq>) {
    forall i, j :: 0 <= i < j < |s| ==> s[i].pos <= s[j].pos && s[i] != s[j]
  }

  // a's class, sync before async and REQ_PRIO before plain, is at least as good as b's.
  predicate Leads(a: Rq, b: Rq) {
    if a.sync != b.sync then a.sync else a.prio || !b.prio
  }

  // cfq_find_next_rq, from the request at index i
  function FindNext(t: Tunables, s: seq<Rq>, i: nat): Found
    requires i < |s|
  {
    var prev := if i > 0 then Some(s[i - 1]) else Null;
    var next := if i + 1 < |s| then Some(s[i + 1]) else if i > 0 then Some(s[0]) else Null;
    ChooseReq(t, next, prev, s[i].pos)
  }

  // The best of a sequence against one more.
  lemma Beats(t: Tunables, a: Rq, b: Rq, c: Rq, last: nat)
    requires AtLeast(t, a, c, last) || AtLeast(t, b, c, last)
    ensures AtLeast(t, Choose(t, a, b, last), c, last)
  {
    ChooseIsBest(t, a, b, last);
  }

  // Of the requests ahead of the head the nearest is best.
  lemma AheadBest(t: Tunables, a: Rq, b: Rq, last: nat)
    requires Leads(a, b) && last <= a.pos <= b.pos
    ensures AtLeast(t, a, b, last)
  {
  }

  // Of those behind it the nearest is best, unless it wraps.
  lemma BehindBest(t: Tunables, a: Rq, b: Rq, last: nat)
    requires Leads(a, b) && b.pos <= a.pos <= last && !Wraps(t, a.pos, last)
    ensures AtLeast(t, a, b, last)
  {
    MulMono(last - a.pos, last - b.pos, t.penalty);
    assert (last - b.pos) * t.penalty >= 0;
    if b.pos == last { assert a.pos == last; }
    if a.pos < last {
      assert b.pos < last;
      if !Wraps(t, b.pos, last) {
        assert Distance(t, a.pos, last) <= Distance(t, b.pos, last);
      }
    }
  }

  // If the nearest behind wraps, all behind it do, and the first is best.
  lemma WrapBest(t: Tunables, a: Rq, b: Rq, near: Rq, last: nat)
    requires Leads(a, b) && a.pos <= b.pos <= near.pos && Wraps(t, near.pos, last)
    ensures AtLeast(t, a, b, last)
  {
  }

  // Whatever is not wrapped beats whatever is.
  lemma AheadBeatsWrapped(t: Tunables, a: Rq, b: Rq, last: nat)
    requires Leads(a, b) && last <= a.pos && Wraps(t, b.pos, last)
    ensures AtLeast(t, a, b, last)
  {
  }

  // ---------------------------------------------- when the neighbours suffice

  predicate SameClass(a: Rq, b: Rq) { a.sync == b.sync && a.prio == b.prio }

  // The candidate ahead of index i, or the first for want of one.
  function NextOf(s: seq<Rq>, i: nat): (n: nat)
    requires i < |s| && |s| >= 2
    ensures n < |s| && n != i && (n > i ==> n == i + 1)
  {
    if i + 1 < |s| then i + 1 else 0
  }

  // The last request before index i of c's class, or -1.
  function Behind(s: seq<Rq>, i: nat, c: Rq): (q: int)
    requires i <= |s|
    ensures -1 <= q < i && (q >= 0 ==> SameClass(s[q], c))
    ensures forall j :: q < j < i ==> !SameClass(s[j], c)
    decreases i
  {
    if i == 0 then -1 else if SameClass(s[i - 1], c) then i - 1 else Behind(s, i - 1, c)
  }

  // The first request of c's class at or after index i, or -1.
  function Ahead(s: seq<Rq>, i: nat, c: Rq): (q: int)
    requires i <= |s|
    ensures q == -1 || (i <= q < |s| && SameClass(s[q], c))
    ensures forall j :: i <= j < |s| && (q == -1 || j < q) ==> !SameClass(s[j], c)
    decreases |s| - i
  {
    if i == |s| then -1 else if SameClass(s[i], c) then i else Ahead(s, i + 1, c)
  }

  // The first of c's class on the way forward from index i, round to the start.
  function Forward(s: seq<Rq>, i: nat, c: Rq): int
    requires i < |s|
  {
    if Ahead(s, i + 1, c) >= 0 then Ahead(s, i + 1, c) else Ahead(s, 0, c)
  }

  // The request at k is of as good a class as any but the one at i.
  predicate LeadsAll(s: seq<Rq>, i: nat, k: nat)
    requires k < |s|
  {
    forall j :: 0 <= j < |s| && j != i ==> Leads(s[k], s[j])
  }

  // A candidate of the best class there is, and, where the other one is of a
  // lesser class, nothing of the best class on the other one's side that is
  // nearer: only the first on that side has to be compared.
  predicate NeighboursSuffice(t: Tunables, s: seq<Rq>, i: nat)
    requires i < |s| && |s| >= 2
  {
    var n, last := NextOf(s, i), s[i].pos;
    if i == 0 || SameClass(s[n], s[i - 1]) then LeadsAll(s, i, n)
    else if Leads(s[n], s[i - 1]) then
      var q := Behind(s, i, s[n]);
      LeadsAll(s, i, n) && (q >= 0 ==> AtLeast(t, s[n], s[q], last))
    else
      var q := Forward(s, i, s[i - 1]);
      LeadsAll(s, i, i - 1) && (q >= 0 ==> AtLeast(t, s[i - 1], s[q], last))
  }

  // What is found is at least as good as every other request of the queue.
  ghost predicate FindsBest(t: Tunables, s: seq<Rq>, i: nat)
    requires i < |s|
  {
    FindNext(t, s, i).Some? &&
      forall j :: 0 <= j < |s| && j != i ==> AtLeast(t, FindNext(t, s, i).rq, s[j], s[i].pos)
  }

  lemma AtLeastTrans(t: Tunables, a: Rq, b: Rq, c: Rq, last: nat)
    requires AtLeast(t, a, b, last) && AtLeast(t, b, c, last)
    ensures AtLeast(t, a, c, last)
  {
  }

  // A better class decides.
  lemma ClassDecides(t: Tunables, a: Rq, b: Rq, last: nat)
    ensures AtLeast(t, a, b, last) ==> Leads(a, b)
    ensures Leads(a, b) && !SameClass(a, b) ==> AtLeast(t, a, b, last) && Choose(t, a, b, last) == a
    ensures Leads(a, b) && !SameClass(a, b) ==> Choose(t, b, a, last) == a
  {
  }

  // What is found, in terms of the candidates.
  lemma FindNextIs(t: Tunables, s: seq<Rq>, i: nat)
    requires i < |s| && |s| >= 2
    ensures var n := NextOf(s, i);
            FindNext(t, s, i) == Some(if i == 0 then s[n] else Choose(t, s[n], s[i - 1], s[i].pos))
    ensures i > 0 ==> FindNext(t, s, i) == Some(s[NextOf(s, i)]) || FindNext(t, s, i) == Some(s[i - 1])
  {
  }

  // Ahead of the head, and among the wrapped, the candidate from NextOf is best of
  // its class; behind it, the nearest that does not wrap.
  lemma SideBest(t: Tunables, s: seq<Rq>, i: nat, j: nat)
    requires Sorted(s) && |s| >= 2 && i < |s| && j < |s| && j != i
    ensures var n, last := NextOf(s, i), s[i].pos;
            j > i && Leads(s[n], s[j]) ==> AtLeast(t, s[n], s[j], last)
    ensures var n, last := NextOf(s, i), s[i].pos;
            forall q :: j <= q < i && Leads(s[n], s[j]) && Wraps(t, s[q].pos, last) ==> AtLeast(t, s[n], s[j], last)
    ensures forall q :: j <= q < i && Leads(s[q], s[j]) && !Wraps(t, s[q].pos, s[i].pos) ==>
              AtLeast(t, s[q], s[j], s[i].pos)
  {
    hide AtLeast;
    var n, last := NextOf(s, i), s[i].pos;
    if j > i && Leads(s[n], s[j]) {
      assert s[n].pos <= s[j].pos && last <= s[n].pos;
      AheadBest(t, s[n], s[j], last);
    }
    forall q | j <= q < i && Leads(s[n], s[j]) && Wraps(t, s[q].pos, last) ensures AtLeast(t, s[n], s[j], last) {
      assert s[j].pos <= s[q].pos;
      if n > i {
        assert last <= s[n].pos;
        AheadBeatsWrapped(t, s[n], s[j], last);
      } else {
        assert s[n].pos <= s[j].pos;
        WrapBest(t, s[n], s[j], s[q], last);
      }
    }
    forall q | j <= q < i && Leads(s[q], s[j]) && !Wraps(t, s[q].pos, last) ensures AtLeast(t, s[q], s[j], last) {
      assert s[j].pos <= s[q].pos <= last;
      BehindBest(t, s[q], s[j], last);
    }
  }

  // One candidate, or two of a class.
  lemma AlikeSuffice(t: Tunables, s: seq<Rq>, i: nat)
    requires Sorted(s) && |s| >= 2 && i < |s| && (i == 0 || SameClass(s[NextOf(s, i)], s[i - 1]))
    ensures FindsBest(t, s, i) <==> LeadsAll(s, i, NextOf(s, i))
  {
    hide AtLeast, Choose, Sorted;
    var n, last := NextOf(s, i), s[i].pos;
    FindNextIs(t, s, i);
    var c := FindNext(t, s, i).rq;
    forall j | 0 <= j < |s| && j != i ensures AtLeast(t, c, s[j], last) ==> Leads(s[n], s[j]) {
      ClassDecides(t, c, s[j], last);
    }
    forall j | 0 <= j < |s| && j != i && Leads(s[n], s[j]) ensures AtLeast(t, c, s[j], last) {
      SideBest(t, s, i, j);
      if j < i { assert AtLeast(t, s[n], s[j], last) || AtLeast(t, s[i - 1], s[j], last); }
      if i > 0 { Beats(t, s[n], s[i - 1], s[j], last); }
    }
  }

  // The next one is of the better class.
  lemma NextSuffices(t: Tunables, s: seq<Rq>, i: nat)
    requires Sorted(s) && |s| >= 2 && 0 < i < |s|
    requires var n := NextOf(s, i); Leads(s[n], s[i - 1]) && !SameClass(s[n], s[i - 1])
    ensures FindsBest(t, s, i) <==> NeighboursSuffice(t, s, i)
  {
    hide AtLeast, Choose, Sorted;
    var n, last := NextOf(s, i), s[i].pos;
    FindNextIs(t, s, i);
    ClassDecides(t, s[n], s[i - 1], last);
    var q := Behind(s, i, s[n]);
    forall j | 0 <= j < |s| && j != i ensures AtLeast(t, s[n], s[j], last) ==> Leads(s[n], s[j]) {
      ClassDecides(t, s[n], s[j], last);
    }
    if NeighboursSuffice(t, s, i) {
      forall j | 0 <= j < |s| && j != i ensures AtLeast(t, s[n], s[j], last) {
        ClassDecides(t, s[n], s[j], last);
        SideBest(t, s, i, j);
        if j < i && SameClass(s[j], s[n]) && !Wraps(t, s[q].pos, last) {
          AtLeastTrans(t, s[n], s[q], s[j], last);
        }
      }
    }
  }

  // The previous one is.
  lemma PrevSuffices(t: Tunables, s: seq<Rq>, i: nat)
    requires Sorted(s) && |s| >= 2 && 0 < i < |s| && !Leads(s[NextOf(s, i)], s[i - 1])
    ensures FindsBest(t, s, i) <==> NeighboursSuffice(t, s, i)
  {
    hide AtLeast, Choose, Sorted;
    var n, p, last := NextOf(s, i), i - 1, s[i].pos;
    FindNextIs(t, s, i);
    ClassDecides(t, s[p], s[n], last);
    forall j | 0 <= j < |s| && j != i ensures AtLeast(t, s[p], s[j], last) ==> Leads(s[p], s[j]) {
      ClassDecides(t, s[p], s[j], last);
    }
    var q := Forward(s, i, s[p]);
    assert q >= 0 && SameClass(s[q], s[p]) && q != i;
    if NeighboursSuffice(t, s, i) {
      forall j | 0 <= j < |s| && j != i ensures AtLeast(t, s[p], s[j], last) {
        ClassDecides(t, s[p], s[j], last);
        if SameClass(s[j], s[p]) { PrevBeats(t, s, i, j); }
      }
    }
  }

  // ... and beats what it has to when it beats the first on the way forward.
  lemma PrevBeats(t: Tunables, s: seq<Rq>, i: nat, j: nat)
    requires Sorted(s) && 0 < i < |s| && j < |s| && j != i && SameClass(s[j], s[i - 1])
    requires var q := Forward(s, i, s[i - 1]); q >= 0 && q != i && AtLeast(t, s[i - 1], s[q], s[i].pos)
    ensures AtLeast(t, s[i - 1], s[j], s[i].pos)
  {
    hide Choose;
    var p, last := i - 1, s[i].pos;
    var q := Forward(s, i, s[p]);
    assert SameClass(s[q], s[p]);
    if j > i {
      assert i < q <= j && last <= s[q].pos <= s[j].pos;
      AheadBest(t, s[q], s[j], last);
    } else if Wraps(t, s[p].pos, last) {
      assert q <= j <= p && s[q].pos <= s[j].pos <= s[p].pos;
      WrapBest(t, s[q], s[j], s[p], last);
    } else {
      assert s[j].pos <= s[p].pos <= last;
      BehindBest(t, s[p], s[j], last);
    }
  }

  // The neighbours are enough exactly then: what cfq_find_next_rq returns is at
  // least as good as every other request of the queue.
  lemma FindNextIsBest(t: Tunables, s: seq<Rq>, i: nat)
    requires Sorted(s) && |s| >= 2 && i < |s|
    ensures FindsBest(t, s, i) <==> NeighboursSuffice(t, s, i)
  {
    hide FindsBest, AtLeast, Sorted, LeadsAll, Behind, Forward;
    if i == 0 || SameClass(s[NextOf(s, i)], s[i - 1]) {
      AlikeSuffice(t, s, i);
    } else if Leads(s[NextOf(s, i)], s[i - 1]) {
      NextSuffices(t, s, i);
    } else {
      PrevSuffices(t, s, i);
    }
  }

  // In a queue of one class they always are.
  lemma OneClassIsBest(t: Tunables, s: seq<Rq>, i: nat)
    requires Sorted(s) && |s| >= 2 && i < |s|
    requires forall j, k :: 0 <= j < |s| && 0 <= k < |s| && j != i && k != i ==> SameClass(s[j], s[k])
    ensures FindsBest(t, s, i)
  {
    FindNextIsBest(t, s, i);
    assert i > 0 ==> SameClass(s[NextOf(s, i)], s[i - 1]);
  }

  // Where the classes of the neighbours differ both outcomes occur: here from 100
  // with a REQ_PRIO request ten sectors behind, past a plain one, and the next
  // REQ_PRIO request ten or a hundred sectors ahead.
  function Mixed(ahead: nat): seq<Rq> {
    [Rq(0, 90, true, true), Rq(1, 95, true, false), Rq(2, 100, true, true), Rq(3, 100 + ahead, true, true)]
  }

  lemma MixedClassesFind()
    ensures Sorted(Mixed(10)) && FindsBest(Tunables(16384, 2), Mixed(10), 2)
  {
  }

  lemma MixedClassesMiss()
    ensures Sorted(Mixed(100)) && !FindsBest(Tunables(16384, 2), Mixed(100), 2)
  {
    var t, s := Tunables(16384, 2), Mixed(100);
    assert !AtLeast(t, FindNext(t, s, 2).rq, s[0], s[2].pos);
  }
}
