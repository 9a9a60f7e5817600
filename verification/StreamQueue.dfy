/**
 The stream blocking queue: a ring of bytes with direct copy between blocked readers and
 writers. The methods are the critical sections under the queue's lock; between and inside
 them, cancellers may lock the parkers of blocked operations at any time.
 */
module StreamQueue {
  import opened StreamBooks
  import opened Rings

  datatype Outcome = Completed(status: Status, transferred: nat) | MustWait(id: Id)

  function Min(a: int, b: int): int {
    if a < b then a else b
  }

  /** What a call returns, by what it moved: it blocks if it is not complete and does not poll. */
  function OutcomeOf(op: Op, poll: bool, id: Id): Outcome {
    if Remaining(op) == 0 then Completed(Success, op.size)
    else if poll then Completed(TimedOut, |op.done|)
    else MustWait(id)
  }

  class StreamBlockingQueue {
    const items: array<Byte>
    var disposed: bool            // Items == NULL
    var head: nat
    var tail: nat
    var count: nat
    var waitList: seq<Id>
    var ops: seq<Op>
    ghost var leftover: seq<Byte> // what the dispose callback got

    ghost predicate Shape()
      reads this, items
    {
      && head < items.Length && count <= items.Length && tail == After(head, count, items.Length)
      && (disposed ==> count == 0 && waitList == [])
    }

    ghost function Contents(): seq<Byte>
      reads this, items
      requires Shape()
    {
      Ring(items[..], head, count)
    }

    /** The bytes that were written but not read. */
    ghost function Unread(): seq<Byte>
      reads this, items
      requires Shape()
    {
      if disposed then leftover else Contents()
    }

    /** Readers wait only for an empty ring, and writers only for a full one. */
    ghost predicate WaitersFit()
      reads this, items
    {
      && (waitList != [] ==> count == 0 || count == items.Length)
      && Listed(ops, waitList, if count == 0 then Read else Write)
    }

    ghost predicate Valid()
      reads this, items
    {
      && Shape() && WaitersFit() && AllOk(ops)
      && All(ops, Write) == All(ops, Read) + Unread()
    }

    constructor (capacity: nat)
      requires capacity > 0
      ensures Valid() && fresh(items) && items.Length == capacity && ops == [] && !disposed && count == 0
    {
      items := new Byte[capacity];
      disposed, head, tail, count, waitList, ops := false, 0, 0, 0, [], [];
      leftover := [];
    }

    /** Copies bytes to a position of the ring's array. */
    method CopyMemory(at: nat, bs: seq<Byte>)
      requires at + |bs| <= items.Length
      modifies items
      ensures items[..] == Pasted(old(items[..]), at, bs)
    {
      hide Pasted;
      var i := 0;
      NothingPasted(items[..], at);
      while i < |bs|
        invariant i <= |bs|
        invariant items[..] == Pasted(old(items[..]), at, bs[..i])
      {
        PasteOneMore(old(items[..]), at, bs, i);
        items[at + i] := bs[i];
        i := i + 1;
      }
      assert bs[..i] == bs;
    }

    /** Copies bytes to the free part of the ring. */
    method Put(bs: seq<Byte>)
      requires Shape() && !disposed && count + |bs| <= items.Length
      modifies `tail, `count, items
      ensures Shape() && Contents() == old(Contents()) + bs && count == old(count) + |bs|
    {
      hide Ring, Pasted;
      PutAppends(items[..], head, count, bs);
      var tillEnd := items.Length - tail;
      if tillEnd >= |bs| {
        CopyMemory(tail, bs);
        tail := tail + |bs|;
        if tail >= items.Length {
          tail := 0;
        }
      } else {
        var fromBegin := |bs| - tillEnd;
        CopyMemory(tail, bs[..tillEnd]);
        CopyMemory(0, bs[tillEnd..]);
        tail := fromBegin;
      }
      count := count + |bs|;
    }

    /** Copies bytes from the used part of the ring. */
    method Take(n: nat) returns (bs: seq<Byte>)
      requires Shape() && !disposed && n <= count
      modifies `head, `count
      ensures Shape() && bs == old(Contents())[..n] && Contents() == old(Contents())[n..] && count == old(count) - n
    {
      hide All, Listed;
      TakeRemoves(items[..], head, count, n);
      var tillEnd := items.Length - head;
      assert (if tillEnd >= n then items[head..head + n] else items[head..] + items[..n - tillEnd]) == Ring(items[..], head, n);
      if tillEnd >= n {
        bs := items[head..head + n];
        head := head + n;
        if head >= items.Length {
          head := 0;
        }
      } else {
        bs := items[head..] + items[..n - tillEnd];
        head := n - tillEnd;
      }
      count := count - n;
    }

    /** IsParkerLocked, where the cancellers of the given operations have locked theirs by now. */
    predicate IsLocked(w: Id, early: set<Id>)
      requires w < |ops|
      reads this
    {
      !ops[w].parker.Waiting? || w in early
    }

    /** The first blocked operation turns out to be cancelled and leaves the wait list. */
    method DropFront(ghost k: Kind)
      requires waitList != [] && Listed(ops, waitList, k) && AllOk(ops)
      modifies `ops, `waitList
      ensures waitList == old(waitList)[1..] && Listed(ops, waitList, k) && AllOk(ops)
      ensures ops == old(ops)[old(waitList)[0] := old(ops)[old(waitList)[0]].(parker := Cancelled)]
      ensures |ops| == |old(ops)| && Grown(old(ops), {old(waitList)[0]}, ops) && forall k' :: All(ops, k') == old(All(ops, k'))
    {
      hide All, AllOk, OpOk, NoneAfter, Grown;
      DropKeeps(ops, waitList, k, Cancelled);
      ops := ops[waitList[0] := ops[waitList[0]].(parker := Cancelled)];
      waitList := waitList[1..];
    }

    /**
     Moves bytes for the first blocked operation. If these are its last it leaves the wait
     list, and is released unless a canceller locks its parker first.
     */
    method ServeFront(bs: seq<Byte>, races: set<Id>, ghost k: Kind) returns (left: bool)
      requires waitList != [] && Listed(ops, waitList, k) && AllOk(ops) && Fitting(ops[waitList[0]], bs)
      modifies `ops, `waitList
      ensures ops == Served(old(ops), old(waitList), bs, races) && waitList == ListAfter(old(ops), old(waitList), |bs|)
      ensures |ops| == |old(ops)| && (left <==> |bs| == Remaining(old(ops)[old(waitList)[0]]))
      ensures Listed(ops, waitList, k) && AllOk(ops) && Grown(old(ops), {old(waitList)[0]}, ops)
      ensures All(ops, k) == old(All(ops, k)) + bs && forall k' :: k' != k ==> All(ops, k') == old(All(ops, k'))
    {
      hide All, AllOk, OpOk, NoneAfter, Grown;
      ServedKeeps(ops, waitList, k, bs, races);
      ServedAppends(ops, waitList, k, bs, races);
      var f := waitList[0];
      left := |bs| == Remaining(ops[f]);
      ops := MovedAt(ops, f, bs);
      if left {
        waitList := waitList[1..];
        ops := ops[f := ops[f].(parker := Finished(f, races))];
      }
    }

    /** The running operation moves bytes. */
    method Run(id: Id, bs: seq<Byte>, ghost k: Kind)
      requires id == |ops| - 1 && id !in waitList && Listed(ops, waitList, k) && AllOk(ops)
      requires (ops[id].kind != k || waitList == []) && ops[id].parker == Idle && Fitting(ops[id], bs)
      modifies `ops
      ensures ops == MovedAt(old(ops), id, bs)
      ensures Listed(ops, waitList, k) && AllOk(ops) && Grown(old(ops), {id}, ops)
      ensures var k' := ops[id].kind; All(ops, k') == old(All(ops, k')) + bs && forall k'' :: k'' != k' ==> All(ops, k'') == old(All(ops, k''))
    {
      hide All, AllOk, OpOk, NoneAfter, Grown;
      RunnerKeeps(ops, waitList, k, id, bs);
      ops := MovedAt(ops, id, bs);
    }

    /** The loop over blocked readers: the running write hands them bytes directly. */
    method HandToReaders(id: Id, early: set<Id>, races: set<Id>)
      requires id == |ops| - 1 && ops[id].kind == Write && ops[id].parker == Idle
      requires Listed(ops, waitList, Read) && AllOk(ops) && All(ops, Write) == All(ops, Read)
      modifies `ops, `waitList
      ensures |ops| == |old(ops)| && ops[id].kind == Write && ops[id].parker == Idle
      ensures Listed(ops, waitList, Read) && AllOk(ops) && All(ops, Write) == All(ops, Read)
      ensures Remaining(ops[id]) == 0 || waitList == []
      ensures Grown(old(ops), Those(old(waitList)) + {id}, ops) && Those(waitList) <= Those(old(waitList))
      ensures Fair(old(ops), id, early + races, early + races, early, ops)
    {
      hide All, AllOk, OpOk, NoneAfter, Grown, Listed, Those, NextBytes, Fitting, Fair, Served;
      ghost var some := Those(waitList) + {id};
      IdleIsNotListed(ops, waitList, Read, id);
      ghost var locked := early + races;
      GrownNot(ops, some);
      FairNot(ops, id, locked, locked, early);
      while Remaining(ops[id]) != 0 && waitList != []
        invariant |ops| == |old(ops)| && ops[id].kind == Write && ops[id].parker == Idle
        invariant Listed(ops, waitList, Read) && AllOk(ops) && All(ops, Write) == All(ops, Read)
        invariant Grown(old(ops), some, ops) && Those(waitList) <= Those(old(waitList))
        invariant Fair(old(ops), id, locked, locked, early, ops)
        decreases |waitList|
      {
        ghost var was := ops;
        var r := waitList[0];
        FrontIsBlocked(ops, waitList, Read);
        IdleIsNotListed(ops, waitList, Read, id);
        ListShrinks(waitList);
        if IsLocked(r, early) {
          DropFront(Read);
          DroppedIsFair(was, id, r, early, races);
          FairOn(old(ops), id, locked, locked, early, was, ops);
          GrownOn(old(ops), some, was, {r}, ops);
          OthersStay(was, {r}, ops, id);
        } else {
          NoneNegative(ops, id);
          var n := Min(Remaining(ops[r]), Remaining(ops[id]));
          WriteFits(ops, id, n);
          var bs := NextBytes(ops[id], n);
          Run(id, bs, Read);
          GrownOn(old(ops), some, was, {id}, ops);
          ghost var ran, list := ops, waitList;
          FairRun(was, id, locked, locked, early, ran);
          FairOn(old(ops), id, locked, locked, early, was, ran);
          ReadFits(ops, r, bs);
          var left := ServeFront(bs, races, Read);
          ServedIsFair(ran, id, list, bs, early, races);
          FairOn(old(ops), id, locked, locked, early, ran, ops);
          GrownOn(old(ops), some, ran, {r}, ops);
          OthersStay(ran, {r}, ops, id);
          if !left {
            break;
          }
        }
      }
    }

    /** The running write copies what fits to the ring. */
    method FillRing(id: Id)
      requires Shape() && !disposed && id == |ops| - 1 && ops[id].kind == Write && ops[id].parker == Idle
      requires id !in waitList && Listed(ops, waitList, Read) && AllOk(ops)
      requires All(ops, Write) == All(ops, Read) + Contents()
      modifies `ops, `tail, `count, items
      ensures Shape() && Listed(ops, waitList, Read) && AllOk(ops) && Grown(old(ops), {id}, ops) && |ops| == |old(ops)|
      ensures ops[id].kind == Write && ops[id].parker == Idle
      ensures All(ops, Write) == All(ops, Read) + Contents()
      ensures Remaining(ops[id]) == 0 || count == items.Length
      ensures old(Remaining(ops[id])) == 0 ==> count == old(count)
    {
      hide All, AllOk, OpOk, NoneAfter, Grown, Ring, Listed;
      NoneNegative(ops, id);
      var n := Min(Remaining(ops[id]), items.Length - count);
      WriteFits(ops, id, n);
      var bs := NextBytes(ops[id], n);
      Put(bs);
      Run(id, bs, Read);
    }

    /** The loop over blocked writers: the running read draws bytes directly. */
    method DrawFromWriters(id: Id, early: set<Id>, races: set<Id>)
      requires id == |ops| - 1 && ops[id].kind == Read && ops[id].parker == Idle
      requires Listed(ops, waitList, Write) && AllOk(ops) && All(ops, Write) == All(ops, Read)
      modifies `ops, `waitList
      ensures |ops| == |old(ops)| && ops[id].kind == Read && ops[id].parker == Idle
      ensures Listed(ops, waitList, Write) && AllOk(ops) && All(ops, Write) == All(ops, Read)
      ensures Remaining(ops[id]) == 0 || waitList == []
      ensures Grown(old(ops), Those(old(waitList)) + {id}, ops) && Those(waitList) <= Those(old(waitList))
      ensures Fair(old(ops), id, early + races, early + races, early, ops)
    {
      hide All, AllOk, OpOk, NoneAfter, Grown, Listed, Those, NextBytes, Fair, Served;
      ghost var some := Those(waitList) + {id};
      IdleIsNotListed(ops, waitList, Write, id);
      ghost var locked := early + races;
      GrownNot(ops, some);
      FairNot(ops, id, locked, locked, early);
      while Remaining(ops[id]) != 0 && waitList != []
        invariant |ops| == |old(ops)| && ops[id].kind == Read && ops[id].parker == Idle
        invariant Listed(ops, waitList, Write) && AllOk(ops) && All(ops, Write) == All(ops, Read)
        invariant Grown(old(ops), some, ops) && Those(waitList) <= Those(old(waitList))
        invariant Fair(old(ops), id, locked, locked, early, ops)
        decreases |waitList|
      {
        ghost var was := ops;
        var w := waitList[0];
        FrontIsBlocked(ops, waitList, Write);
        IdleIsNotListed(ops, waitList, Write, id);
        ListShrinks(waitList);
        if IsLocked(w, early) {
          DropFront(Write);
          DroppedIsFair(was, id, w, early, races);
          FairOn(old(ops), id, locked, locked, early, was, ops);
          GrownOn(old(ops), some, was, {w}, ops);
          OthersStay(was, {w}, ops, id);
        } else {
          NoneNegative(ops, id);
          var n := Min(Remaining(ops[id]), Remaining(ops[w]));
          WriteFits(ops, w, n);
          var bs := NextBytes(ops[w], n);
          Run(id, bs, Write);
          GrownOn(old(ops), some, was, {id}, ops);
          ghost var ran, list := ops, waitList;
          FairRun(was, id, locked, locked, early, ran);
          FairOn(old(ops), id, locked, locked, early, was, ran);
          var left := ServeFront(bs, races, Write);
          ServedIsFair(ran, id, list, bs, early, races);
          FairOn(old(ops), id, locked, locked, early, ran, ops);
          GrownOn(old(ops), some, ran, {w}, ops);
          OthersStay(ran, {w}, ops, id);
          if !left {
            break;
          }
        }
      }
    }

    /** The first blocked writer copies what fits to the ring. */
    method RefillFromFront(races: set<Id>) returns (left: bool)
      requires Shape() && !disposed && waitList != [] && count < items.Length
      requires Listed(ops, waitList, Write) && AllOk(ops) && All(ops, Write) == All(ops, Read) + Contents()
      modifies `ops, `waitList, `tail, `count, items
      ensures Shape() && |ops| == |old(ops)| && count >= old(count)
      ensures Listed(ops, waitList, Write) && AllOk(ops) && All(ops, Write) == All(ops, Read) + Contents()
      ensures Grown(old(ops), {old(waitList)[0]}, ops)
      ensures exists bs :: ops == Served(old(ops), old(waitList), bs, races)
      ensures if left then waitList == old(waitList)[1..] else waitList == old(waitList) && count == items.Length
    {
      hide All, AllOk, OpOk, NoneAfter, Grown, Ring, Listed;
      var w := waitList[0];
      FrontIsBlocked(ops, waitList, Write);
      var n := Min(Remaining(ops[w]), items.Length - count);
      WriteFits(ops, w, n);
      var bs := NextBytes(ops[w], n);
      Put(bs);
      left := ServeFront(bs, races, Write);
    }

    /** The loop over blocked writers that fills the ring again. */
    method RefillRing(early: set<Id>, races: set<Id>)
      requires Shape() && !disposed
      requires Listed(ops, waitList, Write) && AllOk(ops) && All(ops, Write) == All(ops, Read) + Contents()
      modifies `ops, `waitList, `tail, `count, items
      ensures Shape() && |ops| == |old(ops)|
      ensures Listed(ops, waitList, Write) && AllOk(ops) && All(ops, Write) == All(ops, Read) + Contents()
      ensures count == items.Length || waitList == []
      ensures Grown(old(ops), Those(old(waitList)), ops) && old(count) <= count
      ensures Fair(old(ops), |old(ops)|, early + races, early + races, early, ops)
    {
      hide All, AllOk, OpOk, NoneAfter, Grown, Ring, Those, Listed, After, Fair, Served;
      ghost var some, locked := Those(waitList), early + races;
      GrownNot(ops, some);
      FairNot(ops, |ops|, locked, locked, early);
      while count < items.Length && waitList != []
        invariant Shape() && |ops| == |old(ops)| && old(count) <= count
        invariant Listed(ops, waitList, Write) && AllOk(ops) && All(ops, Write) == All(ops, Read) + Contents()
        invariant Grown(old(ops), some, ops) && Those(waitList) <= some
        invariant Fair(old(ops), |old(ops)|, locked, locked, early, ops)
        decreases |waitList|
      {
        ghost var was := ops;
        var w := waitList[0];
        FrontIsBlocked(ops, waitList, Write);
        ListShrinks(waitList);
        if IsLocked(w, early) {
          DropFront(Write);
          DroppedIsFair(was, |was|, w, early, races);
          FairOn(old(ops), |ops|, locked, locked, early, was, ops);
          GrownOn(old(ops), some, was, {w}, ops);
        } else {
          ghost var list := waitList;
          var left := RefillFromFront(races);
          ghost var bs :| ops == Served(was, list, bs, races);
          ServedIsFair(was, |was|, list, bs, early, races);
          FairOn(old(ops), |ops|, locked, locked, early, was, ops);
          GrownOn(old(ops), some, was, {w}, ops);
          if !left {
            break;
          }
        }
      }
    }

    /** The part of a write that moves bytes. */
    method WriteOut(id: Id, early: set<Id>, races: set<Id>)
      requires Valid() && !disposed && id == |ops| - 1 && ops[id].kind == Write && ops[id].parker == Idle
      modifies `ops, `waitList, `tail, `count, items
      ensures Valid() && |ops| == |old(ops)| && ops[id].kind == Write && ops[id].parker == Idle
      ensures Remaining(ops[id]) == 0 || count == items.Length
      ensures Grown(old(ops), Those(old(waitList)) + {id}, ops)
      ensures Fair(old(ops), id, early + races, early + races, early, ops)
    {
      hide All, AllOk, OpOk, NoneAfter, Grown, Listed, Ring, After, Fair;
      ghost var some, locked := Those(waitList) + {id}, early + races;
      GrownNot(ops, some);
      FairNot(ops, id, locked, locked, early);
      IdleIsNotListed(ops, waitList, if count == 0 then Read else Write, id);
      if count != items.Length {
        if waitList != [] {
          HandToReaders(id, early, races);
          IdleIsNotListed(ops, waitList, Read, id);
        } else {
          EmptySuitsBoth(ops, if count == 0 then Read else Write, Read);
        }
        NoneNegative(ops, id);
        if Remaining(ops[id]) != 0 && count < items.Length {
          ghost var was := ops;
          FillRing(id);
          GrownOn(old(ops), some, was, {id}, ops);
          GrownIsFair(was, id, locked, locked, early, ops, id);
          FairOn(old(ops), id, locked, locked, early, was, ops);
        }
        if waitList == [] {
          EmptySuitsBoth(ops, Read, Write);
        }
      }
    }

    /** The running read copies what it needs from the ring, if that is there. */
    method DrainRing(id: Id)
      requires Shape() && !disposed && id == |ops| - 1 && ops[id].kind == Read && ops[id].parker == Idle
      requires id !in waitList && Listed(ops, waitList, Write) && AllOk(ops)
      requires All(ops, Write) == All(ops, Read) + Contents()
      modifies `ops, `head, `count
      ensures Shape() && Listed(ops, waitList, Write) && AllOk(ops) && Grown(old(ops), {id}, ops) && |ops| == |old(ops)|
      ensures ops[id].kind == Read && ops[id].parker == Idle
      ensures All(ops, Write) == All(ops, Read) + Contents()
      ensures Remaining(ops[id]) == 0 || count == 0
    {
      hide All, AllOk, OpOk, NoneAfter, Grown, Listed, Ring, After;
      NoneNegative(ops, id);
      var n := Min(Remaining(ops[id]), count);
      var bs := Take(n);
      ReadFits(ops, id, bs);
      Run(id, bs, Write);
    }

    /** The part of a read that moves bytes. */
    method ReadIn(id: Id, early: set<Id>, races: set<Id>, early': set<Id>, races': set<Id>)
      requires Valid() && !disposed && id == |ops| - 1 && ops[id].kind == Read && ops[id].parker == Idle
      modifies `ops, `waitList, `head, `tail, `count, items
      ensures Valid() && |ops| == |old(ops)| && ops[id].kind == Read && ops[id].parker == Idle
      ensures Remaining(ops[id]) == 0 || count == 0
      ensures Grown(old(ops), Those(old(waitList)) + {id}, ops)
      ensures Fair(old(ops), id, early + races + early' + races', (early + races) * (early' + races'), early * early', ops)
    {
      hide All, AllOk, OpOk, NoneAfter, Grown, Listed, Ring, After, Fair;
      ghost var some := Those(waitList) + {id};
      ghost var may, must, silent := early + races + early' + races', (early + races) * (early' + races'), early * early';
      GrownNot(ops, some);
      FairNot(ops, id, may, must, silent);
      IdleIsNotListed(ops, waitList, if count == 0 then Read else Write, id);
      if count != 0 {
        DrainRing(id);
        GrownIsFair(old(ops), id, may, must, silent, ops, id);
        GrownOn(old(ops), some, old(ops), {id}, ops);
        ghost var was := ops;
        if Remaining(ops[id]) != 0 && waitList != [] {
          DrawFromWriters(id, early, races);
          FairLess(was, id, early + races, early + races, early, ops, may, must, silent);
          FairOn(old(ops), id, may, must, silent, was, ops);
          GrownOn(old(ops), some, was, some, ops);
        }
        was := ops;
        IdleIsNotListed(ops, waitList, Write, id);
        if count < items.Length && waitList != [] {
          ghost var others := Those(waitList);
          RefillRing(early', races');
          FairOfFirst(was, |was|, id, early' + races', early' + races', early', ops);
          FairLess(was, id, early' + races', early' + races', early', ops, may, must, silent);
          FairOn(old(ops), id, may, must, silent, was, ops);
          OthersStay(was, others, ops, id);
          GrownOn(old(ops), some, was, others, ops);
        }
        if waitList == [] {
          EmptySuitsBoth(ops, Write, Read);
        }
      }
    }

    /** A new operation takes its place behind all others. */
    method Begin(op: Op) returns (id: Id)
      requires Valid() && OpOk(op) && op.done == [] && op.parker == Idle
      modifies `ops
      ensures Valid() && id == |old(ops)| && ops == old(ops) + [op]
    {
      hide All, AllOk, OpOk, NoneAfter, Grown, Ring, After;
      NewKeepsListed(ops, waitList, if count == 0 then Read else Write, op);
      NewMovesNothing(ops, op, Read);
      NewMovesNothing(ops, op, Write);
      NewIsOk(ops, op);
      id := |ops|;
      ops := ops + [op];
    }

    /** CheckForWait: the running operation is complete, or gives up, or blocks. */
    method CheckForWait(id: Id, poll: bool) returns (r: Outcome)
      requires Valid() && !disposed && id == |ops| - 1 && ops[id].parker == Idle
      requires Remaining(ops[id]) == 0 || count == (if ops[id].kind == Write then items.Length else 0)
      modifies `ops, `waitList
      ensures Valid() && ops == old(ops)[id := old(ops)[id].(parker := if r.MustWait? then Waiting else Idle)]
      ensures waitList == old(waitList) + if r.MustWait? then [id] else []
      ensures r == OutcomeOf(ops[id], poll, id)
    {
      hide All, AllOk, OpOk, NoneAfter, Grown, Listed, Ring, After;
      IdleIsNotListed(ops, waitList, if count == 0 then Read else Write, id);
      NoneNegative(ops, id);
      if Remaining(ops[id]) == 0 {
        r := Completed(Success, |ops[id].done|);
      } else if poll {
        r := Completed(TimedOut, |ops[id].done|);
      } else {
        NewBlocks(ops, waitList, ops[id].kind);
        ParkersMoveNothing(ops, id, Waiting);
        ParkerIsOk(ops, id, Waiting);
        ops := ops[id := ops[id].(parker := Waiting)];
        waitList := waitList + [id];
        r := MustWait(id);
      }
      assert old(ops) == old(ops)[id := old(ops)[id].(parker := Idle)];
    }

    /** A write of the given bytes, which polls if its timeout is zero. */
    method WriteEx(buffer: seq<Byte>, poll: bool, early: set<Id>, races: set<Id>) returns (r: Outcome)
      requires Valid()
      modifies `ops, `waitList, `tail, `count, items
      ensures Valid() && Grown(old(ops), Those(old(waitList)), ops)
      ensures buffer == [] ==> r == Completed(Success, 0) && ops == old(ops) && Contents() == old(Contents())
      ensures buffer != [] && disposed ==> r == Completed(Disposed, 0) && ops == old(ops)
      ensures buffer != [] && !disposed ==>
                && |ops| == |old(ops)| + 1
                && ops[|old(ops)|] == Op(Write, buffer, |buffer|, ops[|old(ops)|].done, if r.MustWait? then Waiting else Idle)
                && r == OutcomeOf(ops[|old(ops)|], poll, |old(ops)|)
                && (Remaining(ops[|old(ops)|]) != 0 ==> count == items.Length)
      ensures Fair(old(ops), |old(ops)|, early + races, early + races, early, ops)
    {
      hide Grown, Valid, Ring, Those, OutcomeOf, Fair;
      FairNot(ops, |ops|, early + races, early + races, early);
      if |buffer| == 0 {
        GrownNot(ops, Those(waitList));
        return Completed(Success, 0);
      }
      if disposed {
        GrownNot(ops, Those(waitList));
        return Completed(Disposed, 0);
      }
      ghost var list := waitList;
      var id := Begin(Op(Write, buffer, |buffer|, [], Idle));
      ghost var begun := ops;
      WriteOut(id, early, races);
      ghost var ran := ops;
      r := CheckForWait(id, poll);
      FairSince(old(ops), early + races, early + races, early, begun, ran, ops);
      OnlyRunnerNew(old(ops), Those(list), begun, ran, ops);
    }

    /**
     A read of the given number of bytes. The cancellers may do different things in its
     two loops over the blocked writers.
     */
    method ReadEx(size: nat, poll: bool, early: set<Id>, races: set<Id>, early': set<Id>, races': set<Id>) returns (r: Outcome)
      requires Valid()
      modifies `ops, `waitList, `head, `tail, `count, items
      ensures Valid() && Grown(old(ops), Those(old(waitList)), ops)
      ensures size == 0 ==> r == Completed(Success, 0) && ops == old(ops) && Contents() == old(Contents())
      ensures size != 0 && disposed ==> r == Completed(Disposed, 0) && ops == old(ops)
      ensures size != 0 && !disposed ==>
                && |ops| == |old(ops)| + 1
                && ops[|old(ops)|] == Op(Read, [], size, ops[|old(ops)|].done, if r.MustWait? then Waiting else Idle)
                && r == OutcomeOf(ops[|old(ops)|], poll, |old(ops)|)
                && (Remaining(ops[|old(ops)|]) != 0 ==> count == 0)
      ensures Fair(old(ops), |old(ops)|, early + races + early' + races', (early + races) * (early' + races'), early * early', ops)
    {
      hide Grown, Valid, Ring, Those, OutcomeOf, Fair;
      ghost var may, must, silent := early + races + early' + races', (early + races) * (early' + races'), early * early';
      FairNot(ops, |ops|, may, must, silent);
      if size == 0 {
        GrownNot(ops, Those(waitList));
        return Completed(Success, 0);
      }
      if disposed {
        GrownNot(ops, Those(waitList));
        return Completed(Disposed, 0);
      }
      ghost var list := waitList;
      var id := Begin(Op(Read, [], size, [], Idle));
      ghost var begun := ops;
      ReadIn(id, early, races, early', races');
      ghost var ran := ops;
      r := CheckForWait(id, poll);
      FairSince(old(ops), may, must, silent, begun, ran, ops);
      OnlyRunnerNew(old(ops), Those(list), begun, ran, ops);
    }

    /** A timeout or an alert locks the parker of a blocked operation. */
    method Cancel(w: Id)
      requires Valid() && w < |ops| && ops[w].parker.Waiting?
      modifies `ops
      ensures Valid() && ops == old(ops)[w := old(ops)[w].(parker := Cancelled)]
    {
      hide All, AllOk, OpOk, Grown, Ring, After;
      ParkersMoveNothing(ops, w, Cancelled);
      ParkerIsOk(ops, w, Cancelled);
      ops := ops[w := ops[w].(parker := Cancelled)];
    }

    /** What a cancelled operation does when it runs again. */
    method FinishCancelled(w: Id, cause: Status) returns (r: Outcome)
      requires Valid() && w < |ops| && ops[w].parker.Cancelled?
      modifies `ops, `waitList
      ensures Valid() && ops == old(ops)[w := old(ops)[w].(parker := Idle)] && w !in waitList
      ensures forall i :: i in waitList <==> i in old(waitList) && i != w
      ensures r == Completed(if Remaining(ops[w]) == 0 then Success else cause, |ops[w].done|)
    {
      hide All, AllOk, OpOk, Grown, Ring, After;
      if w in waitList {
        var x :| 0 <= x < |waitList| && waitList[x] == w;
        UnlinkKeeps(ops, waitList, if count == 0 then Read else Write, x);
        OthersRemain(waitList, x);
        waitList := waitList[..x] + waitList[x + 1..];
      }
      ParkerIdle(ops, waitList, if count == 0 then Read else Write, w);
      ParkersMoveNothing(ops, w, Idle);
      ParkerIsOk(ops, w, Idle);
      ops := ops[w := ops[w].(parker := Idle)];
      r := Completed(if Remaining(ops[w]) == 0 then Success else cause, |ops[w].done|);
    }

    /** What a released operation does when it runs again. */
    method FinishReleased(w: Id) returns (r: Outcome)
      requires Valid() && w < |ops| && ops[w].parker.Released?
      modifies `ops
      ensures Valid() && ops == old(ops)[w := old(ops)[w].(parker := Idle)]
      ensures r == Completed(if ops[w].done != [] then Success else Disposed, |ops[w].done|)
      ensures old(ops)[w].parker == Released(Success) ==> r.transferred == ops[w].size
    {
      hide All, OpOk, Grown, Ring, After;
      ParkerIdle(ops, waitList, if count == 0 then Read else Write, w);
      ParkersMoveNothing(ops, w, Idle);
      ParkerIsOk(ops, w, Idle);
      if ops[w].parker == Released(Success) {
        ReleasedIsFull(ops, w);
      }
      ops := ops[w := ops[w].(parker := Idle)];
      r := Completed(if |ops[w].done| != 0 then Success else Disposed, |ops[w].done|);
    }

    /** Disposes the queue; the parts are what the callback gets, part by part. */
    method Dispose(races: set<Id>) returns (ok: bool, parts: seq<seq<Byte>>)
      requires Valid()
      modifies this
      ensures Valid() && disposed && ok == !old(disposed)
      ensures !ok ==> ops == old(ops) && parts == []
      ensures ok ==> ops == Shut(old(ops), old(waitList), races) && Joined(parts) == old(Contents())
    {
      hide All, AllOk, OpOk, Grown, Listed, NoneAfter;
      if disposed {
        return false, [];
      }
      ghost var k := if count == 0 then Read else Write;
      while waitList != []
        invariant Shape() && !disposed && head == old(head) && count == old(count)
        invariant Listed(ops, waitList, k) && AllOk(ops)
        invariant Shut(ops, waitList, races) == Shut(old(ops), old(waitList), races)
        invariant forall k :: All(ops, k) == old(All(ops, k))
        decreases |waitList|
      {
        var w := waitList[0];
        FrontIsBlocked(ops, waitList, k);
        DropKeeps(ops, waitList, k, ShutParker(w, ops[w].parker, races));
        ops := ops[w := ops[w].(parker := ShutParker(w, ops[w].parker, races))];
        waitList := waitList[1..];
      }
      EmptySuitsBoth(ops, k, Read);
      var n, from := count, head;
      leftover := Contents();
      disposed, count, tail := true, 0, head;
      parts := PartsOf(items[..], from, n);
      PartsJoin(items[..], from, n);
      ok := true;
    }

    /** In every state of the queue, each write and each read has its block of the one stream. */
    lemma OneStream(w: Id, r: Id)
      requires Valid() && w < |ops| && ops[w].kind == Write && r < |ops| && ops[r].kind == Read
      ensures var stream, at := All(ops, Read) + Unread(), |All(ops[..w], Write)|;
        && ops[w].done <= ops[w].source && at + |ops[w].done| <= |stream|
        && stream[at..at + |ops[w].done|] == ops[w].done
      ensures var stream, at := All(ops, Write), |All(ops[..r], Read)|;
        at + |ops[r].done| <= |stream| && stream[at..at + |ops[r].done|] == ops[r].done
    {
      StreamOrder(ops, Unread(), w, r);
    }
  }
}
