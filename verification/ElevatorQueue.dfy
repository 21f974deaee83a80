/**
 The elevator's hash, trees and cache, updated in place as elevator.c does.
 */
module ElevatorQueue {
  import opened BlockTypes
  import opened Segments
  import opened Elevator
  import opened ElevatorRuns
  import KeyOrder

  class MergeQueue {
    const lim: Limits
    const bucket: int -> nat
    var rqs: map<Id, Request>
    var hash: seq<seq<Id>>
    var sort: Sorts
    var lastMerge: Link
    var nrSorted: int

    function View(): Elv
      reads this
    {
      Elv(lim, bucket, rqs, hash, sort, lastMerge, nrSorted)
    }

    constructor (lim: Limits, bucket: int -> nat)
      ensures View() == Start(lim, bucket).e && EInv(View())
    {
      this.lim, this.bucket := lim, bucket;
      rqs, hash, sort, lastMerge, nrSorted := map[], seq(HASH_ENTRIES, i => []), Sorts([], []), End, 0;
      new;
      StartOk(lim, bucket);
      assert View() == Start(lim, bucket).e;
    }

    // elv_rqhash_find: a walk that unhashes what can no longer merge.
    method RqhashFind(offset: int) returns (l: Link)
      requires HashOk(View())
      modifies this`hash
      ensures Shape(old(View())) && l == Find(old(View()), offset) && View() == Cleaned(old(View()), offset)
      ensures HashOk(View())
      ensures l.At? ==> l.id in rqs && Mergeable(rqs[l.id]) && Key(rqs[l.id]) == offset
      ensures l == End ==> forall x <- rqs :: !(Mergeable(rqs[x]) && Key(rqs[x]) == offset)
    {
      hide HashOk, Key, Mergeable;
      FindIsScan(View(), offset);
      var s := Slot(View(), offset);
      var list;
      l, list := Walk(hash[s], offset);
      hash := hash[s := list];
    }

    // The walk over one bucket: what is kept, and what is found.
    method Walk(bucketList: seq<Id>, offset: int) returns (l: Link, list: seq<Id>)
      requires forall x <- bucketList :: x in rqs
      ensures Lookup(l, list) == Scan(rqs, bucketList, offset)
    {
      hide Key;
      var kept, rest := [], bucketList;
      while rest != []
        invariant forall x <- rest :: x in rqs
        invariant Scan(rqs, bucketList, offset) ==
                    Lookup(Scan(rqs, rest, offset).found, kept + Scan(rqs, rest, offset).list)
      {
        var x := rest[0];
        if !Mergeable(rqs[x]) {
          rest := rest[1..];
        } else if Key(rqs[x]) == offset {
          return At(x), kept + rest;
        } else {
          assert kept + ([x] + Scan(rqs, rest[1..], offset).list) == (kept + [x]) + Scan(rqs, rest[1..], offset).list;
          kept, rest := kept + [x], rest[1..];
        }
      }
      assert kept + [] == kept;
      return End, kept;
    }

    // elv_rqhash_reposition
    method Reposition(x: Id)
      requires x in rqs && HashBut(View(), x)
      modifies this`hash
      ensures |old(hash)| == HASH_ENTRIES && View() == Repositioned(old(View()), x) && HashOk(View())
    {
      RepositionedHash(View(), x);
      hide HashOk, Key;
      hash := Unhashed(hash, x);
      var s := Slot(View(), Key(rqs[x]));
      hash := hash[s := [x] + hash[s]];
    }

    // elv_rb_find: down the tree of a direction, whatever its shape.
    method RbFind(write: bool, tree: Tree, sector: int) returns (l: Link)
      requires SortsOk(rqs, sort) && Nodes(tree) == SortOf(sort, write)
      ensures (forall y <- Nodes(tree) :: y in rqs) && l == Elevator.RbFind(rqs, tree, sector)
      ensures l.At? ==> l.id in rqs && rqs[l.id].write == write && rqs[l.id].sector == sector
      ensures l == End ==> forall x <- rqs :: !(rqs[x].write == write && rqs[x].sector == sector)
    {
      hide SortsOk, SortOf;
      RbFindIsScan(View(), write, tree, sector);
      var n := tree;
      while n.Node?
        invariant forall y <- Nodes(n) :: y in rqs
        invariant Elevator.RbFind(rqs, tree, sector) == Elevator.RbFind(rqs, n, sector)
        decreases n
      {
        if sector < rqs[n.id].sector {
          n := n.left;
        } else if sector > rqs[n.id].sector {
          n := n.right;
        } else {
          return At(n.id);
        }
      }
      return End;
    }

    // elv_rb_add: after the last request that starts no later.
    method RbAdd(x: Id)
      requires x in rqs && forall y <- SortOf(sort, rqs[x].write) :: y in rqs
      modifies this`sort
      ensures sort == SortAdd(old(sort), rqs, x)
    {
      var s := SortOf(sort, rqs[x].write);
      var i := 0;
      while i < |s| && rqs[s[i]].sector <= rqs[x].sector
        invariant 0 <= i <= |s| && forall j :: 0 <= j < i ==> rqs[s[j]].sector <= rqs[x].sector
      {
        i := i + 1;
      }
      InsertAt(rqs, s, x, i);
      sort := WithSort(sort, rqs[x].write, s[..i] + [x] + s[i..]);
    }

    // elv_merged_request with deadline_merged_request: a front merge moves the
    // request in its tree, a back merge in the hash.
    method MergedRequest(x: Id, kind: Kind)
      requires x in rqs && SortedIn(View()) && |hash| == HASH_ENTRIES
      requires if kind == Front then SortBut(rqs, sort, x) else SortsOk(rqs, sort) && HashBut(View(), x)
      modifies this
      ensures var was := old(View());
              x in was.rqs && SortedIn(was) && |was.hash| == HASH_ENTRIES
              && View() == (if kind == Front then Resorted(was, x) else Repositioned(was, x)).(last := At(x))
      ensures SortsOk(rqs, sort) && (kind != Front ==> HashOk(View()))
    {
      hide SortsOk, SortDel, SortAdd, HashOk, HashBut, Key, Hashed, Unhashed;
      if kind == Front {
        ResortedOk(View(), x);
        SortDelIn(View(), x);
        sort := SortDel(sort, rqs[x].write, x);
        RbAdd(x);
      } else {
        Reposition(x);
        HashOf(View(), View().(last := At(x)), x);
      }
      lastMerge := At(x);
    }

    // deadline_move_to_dispatch and elv_dispatch_add_tail
    method DispatchAddTail(x: Id)
      requires EInv(View()) && x in rqs
      modifies this
      ensures View() == Dispatched(old(View()), x) && EInv(View())
    {
      hide EInv, Unhashed, SortDel;
      SentKeeps(View(), x);
      sort := SortDel(sort, rqs[x].write, x);
      if lastMerge == At(x) { lastMerge := End; }
      hash := Unhashed(hash, x);
      nrSorted := nrSorted - 1;
      rqs := rqs - {x};
    }

    // attempt_merge and elv_merge_requests
    method AttemptMerge(a: Id, b: Id) returns (done: bool)
      requires HashBut(View(), a) && Rest(View()) && a in rqs && b in rqs && a != b
      modifies this
      ensures AllChained(old(View())) && View() == Attempt(old(View()), a, b).e
              && done == Attempt(old(View()), a, b).done
      ensures Rest(View()) && (done ==> HashOk(View())) && (!done ==> HashBut(View(), a))
    {
      hide HashBut, HashOk, Rest, Elevator.Without, MergeRequests, Bios, SortDel;
      AttemptKeeps(View(), a, b);
      var x, y := rqs[a], rqs[b];
      assert Chained(x) && Chained(y);
      if !CanJoin(x, y) { return false; }
      ChainEnds(x.bios);
      ChainEnds(y.bios);
      var m := MergeRequests(lim, x, y);
      if !m.ok {
        rqs := rqs[a := m.rq][b := m.next];
        return false;
      }
      sort := SortDel(sort, y.write, b);
      rqs := (rqs - {b})[a := m.rq];
      hash := Unhashed(hash, b);
      nrSorted := nrSorted - 1;
      lastMerge := At(a);
      hash := Unhashed(hash, a);
      var s := Slot(View(), Key(rqs[a]));
      hash := Hashed(hash, s, a);
      return true;
    }
  }

  // Where insertion into a tree's order puts a request.
  lemma {:induction false} InsertAt(rqs: map<Id, Request>, s: seq<Id>, x: Id, i: nat)
    requires x in rqs && (forall y <- s :: y in rqs) && i <= |s|
    requires forall j :: 0 <= j < i ==> rqs[s[j]].sector <= rqs[x].sector
    requires i < |s| ==> rqs[x].sector < rqs[s[i]].sector
    ensures KeyOrder.Insert(Starts(rqs), s, x) == s[..i] + [x] + s[i..]
  {
    if i > 0 {
      assert rqs[s[0]].sector <= rqs[x].sector;
      forall j | 0 <= j < i - 1 ensures rqs[s[1..][j]].sector <= rqs[x].sector { assert s[1..][j] == s[j + 1]; }
      InsertAt(rqs, s[1..], x, i - 1);
      assert s[..i] == [s[0]] + s[1..][..i - 1];
    }
  }

  lemma SortDelIn(e: Elv, x: Id)
    requires SortedIn(e) && x in e.rqs
    ensures forall y <- SortOf(SortDel(e.sort, e.rqs[x].write, x), e.rqs[x].write) :: y in e.rqs
  {
  }
}
