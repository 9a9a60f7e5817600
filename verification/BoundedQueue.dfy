/**
 The bounded blocking queue: a ring of items in which blocked adds and blocked takes share
 one wait list. The methods are the critical sections under the queue's lock; between and
 inside them, cancellers may lock the parkers of blocked operations at any time.
 */
module BoundedQueue {
  import opened BoundedBooks
  import opened Rings

  datatype Outcome = Completed(status: Status) | Taken(item: Item) | MustWait(id: Id) | Unlocked

  class BoundedBlockingQueue {
    const items: array<Item>
    const lifo: bool              // whether blocked takes are served last in, first out
    var disposed: bool            // Items == NULL
    var head: nat
    var tail: nat
    var count: nat
    var waitList: seq<Id>
    var ops: seq<Op>
    ghost var order: seq<Id>      // the takes in the order in which they got their items
    ghost var leftover: seq<Item> // what the dispose callback got

    ghost predicate Shape()
      reads this, items
    {
      && head < items.Length && count <= items.Length && tail == After(head, count, items.Length)
      && (disposed ==> count == 0 && waitList == [])
    }

    /** The abstract queue. */
    ghost function Contents(): (q: seq<Item>)
      reads this, items
      requires Shape()
      ensures |q| == count
    {
      Ring(items[..], head, count)
    }

    /** The items that were added but not taken. */
    ghost function Untaken(): seq<Item>
      reads this, items
      requires Shape()
    {
      if disposed then leftover else Contents()
    }

    /** Takes wait only for an empty ring, and adds only for a full one. */
    ghost predicate Valid()
      reads this, items
    {
      && Shape()
      && (waitList != [] ==> count == 0 || count == items.Length)
      && Books(ops, waitList, if count == 0 then Take else Add, order, lifo)
      && Added(ops) == Got(ops, order) + Untaken()
    }

    constructor (capacity: nat, lifoTake: bool)
      requires capacity > 0
      ensures Valid() && fresh(items) && items.Length == capacity && lifo == lifoTake && ops == [] && !disposed && count == 0
    {
      items, lifo := new Item[capacity], lifoTake;
      disposed, head, tail, count, waitList, ops := false, 0, 0, 0, [], [];
      order, leftover := [], [];
    }

    /** Puts an item at the end of the ring. */
    method Put(x: Item)
      requires Shape() && !disposed && count < items.Length
      modifies `tail, `count, items
      ensures Shape() && Contents() == old(Contents()) + [x] && count == old(count) + 1
    {
      hide Ring;
      PutOne(items[..], head, count, x);
      items[tail] := x;
      tail := tail + 1;
      if tail >= items.Length {
        tail := 0;
      }
      count := count + 1;
    }

    /** Takes an item from the start of the ring. */
    method Get() returns (x: Item)
      requires Shape() && !disposed && count > 0
      modifies `head, `count
      ensures Shape() && x == old(Contents())[0] && Contents() == old(Contents())[1..] && count == old(count) - 1
    {
      hide Ring;
      TakeOne(items[..], head, count);
      x := items[head];
      head := head + 1;
      if head == items.Length {
        head := 0;
      }
      count := count - 1;
    }

    /** The first blocked operation was cancelled, or the queue is being disposed. */
    method DropFront(p: Parker, ghost k: Kind)
      requires waitList != [] && Books(ops, waitList, k, order, lifo) && waitList[0] < |ops|
      requires p.Cancelled? || p == Released(Disposed)
      modifies `ops, `waitList
      ensures waitList == old(waitList)[1..] && Books(ops, waitList, k, order, lifo)
      ensures ops == Parked(old(ops), old(waitList)[0], p) && Grown(old(ops), {old(waitList)[0]}, ops)
      ensures Added(ops) == old(Added(ops)) && Got(ops, order) == old(Got(ops, order))
    {
      hide Books, Grown, Added, Got;
      DropKeeps(ops, waitList, k, order, lifo, p);
      ops := Parked(ops, waitList[0], p);
      waitList := waitList[1..];
    }

    /** The loop over blocked takes: the first that can be locked gets the item. */
    method HandToTaker(x: Item, races: set<Id>) returns (given: bool)
      requires Books(ops, waitList, Take, order, lifo)
      modifies `ops, `waitList, `order
      ensures Books(ops, waitList, Take, order, lifo) && |ops| == |old(ops)|
      ensures Grown(old(ops), Those(old(waitList)), ops)
      ensures Added(ops) == old(Added(ops)) && Got(ops, order) == old(Got(ops, order)) + if given then [x] else []
      ensures var (swept, rest) := Swept(old(ops), old(waitList), races);
        && (given <==> rest != [])
        && (given ==> rest[0] < |swept| && ops == Given(swept, rest[0], x, Released(Success))
                      && waitList == rest[1..] && order == old(order) + [rest[0]])
        && (!given ==> ops == swept && waitList == [] && order == old(order))
    {
      hide Books, Grown, Added, Got, Those, NoneAfter;
      ghost var some := Those(waitList);
      GrownNot(ops, some);
      while waitList != []
        invariant Books(ops, waitList, Take, order, lifo) && |ops| == |old(ops)|
        invariant Grown(old(ops), some, ops) && Those(waitList) <= some && order == old(order)
        invariant Swept(ops, waitList, races) == Swept(old(ops), old(waitList), races)
        invariant Added(ops) == old(Added(ops)) && Got(ops, order) == old(Got(ops, order))
        decreases |waitList|
      {
        ghost var was := ops;
        var t := waitList[0];
        FrontOfBooks(ops, waitList, Take, order, lifo);
        ListShrinks(waitList);
        if Lockable(ops, waitList[0], races) {
          GiveKeeps(ops, waitList, order, lifo, x);
          ops := Given(ops, t, x, Released(Success));
          waitList := waitList[1..];
          order := order + [t];
          GrownOn(old(ops), some, was, {t}, ops);
          return true;
        }
        DropFront(Cancelled, Take);
        GrownOn(old(ops), some, was, {t}, ops);
      }
      given := false;
    }

    /** The loop over blocked adds: the first that can be locked puts its item into the free slot. */
    method ReleaseAdder(races: set<Id>)
      requires Shape() && !disposed && Books(ops, waitList, Add, order, lifo)
      requires count < items.Length && Added(ops) == Got(ops, order) + Contents()
      modifies `ops, `waitList, `tail, `count, items
      ensures Shape() && Books(ops, waitList, Add, order, lifo) && |ops| == |old(ops)|
      ensures Grown(old(ops), Those(old(waitList)), ops)
      ensures Added(ops) == Got(ops, order) + Contents()
      ensures var (swept, rest) := Swept(old(ops), old(waitList), races);
        && (rest != [] ==> rest[0] < |swept| && ops == Accepted(swept, rest[0], Released(Success))
                           && waitList == rest[1..] && Contents() == old(Contents()) + [swept[rest[0]].item])
        && (rest == [] ==> ops == swept && waitList == [] && Contents() == old(Contents()))
    {
      hide Books, Grown, Added, Got, Those, NoneAfter, Ring, After;
      ghost var some := Those(waitList);
      GrownNot(ops, some);
      while waitList != []
        invariant Shape() && !disposed && Books(ops, waitList, Add, order, lifo) && |ops| == |old(ops)|
        invariant Grown(old(ops), some, ops) && Those(waitList) <= some
        invariant count == old(count) && Contents() == old(Contents()) && Added(ops) == Got(ops, order) + Contents()
        invariant Swept(ops, waitList, races) == Swept(old(ops), old(waitList), races)
        decreases |waitList|
      {
        ghost var was := ops;
        var a := waitList[0];
        FrontOfBooks(ops, waitList, Add, order, lifo);
        ListShrinks(waitList);
        if Lockable(ops, waitList[0], races) {
          AcceptKeeps(ops, waitList, order, lifo);
          Put(ops[a].item);
          ops := Accepted(ops, a, Released(Success));
          waitList := waitList[1..];
          GrownOn(old(ops), some, was, {a}, ops);
          return;
        }
        DropFront(Cancelled, Add);
        GrownOn(old(ops), some, was, {a}, ops);
      }
    }

    /** A new operation takes its place behind all others. */
    method Begin(op: Op) returns (id: Id)
      requires Valid() && !op.done && op.parker == Idle
      modifies `ops
      ensures Valid() && id == |old(ops)| && ops == old(ops) + [op]
    {
      hide Books, Grown, Added, Got, NoneAfter, Ring, After;
      NewKeeps(ops, waitList, if count == 0 then Take else Add, order, lifo, op);
      OrderInRange(ops, waitList, if count == 0 then Take else Add, order, lifo);
      NewChangesNothing(ops, op, order);
      id := |ops|;
      ops := ops + [op];
    }

    /** The running operation blocks, at the end of the wait list or at its start. */
    method Block(id: Id, first: bool)
      requires Valid() && !disposed && id == |ops| - 1 && ops[id].parker == Idle && !ops[id].done
      requires count == (if ops[id].kind == Add then items.Length else 0) && (first ==> lifo && ops[id].kind == Take)
      modifies `ops, `waitList
      ensures Valid() && ops == Parked(old(ops), id, Waiting)
      ensures waitList == if first then [id] + old(waitList) else old(waitList) + [id]
    {
      hide Added, Got, NoneAfter, Ring, After, Listed, Ordered, AllOk;
      NewBlocks(ops, waitList, ops[id].kind, lifo, first);
      NewLast(ops, waitList, order, lifo, if first then [id] + waitList else waitList + [id]);
      ParkedPasses(ops, waitList, order, lifo, id, Waiting, waitList);
      ops := Parked(ops, id, Waiting);
      waitList := if first then [id] + waitList else waitList + [id];
    }

    /** The running add passes its item on, to a blocked take or to the ring. */
    method PassOn(id: Id, races: set<Id>)
      requires Valid() && !disposed && id == |ops| - 1 && ops[id].kind == Add && ops[id].parker == Idle && !ops[id].done
      requires count < items.Length
      modifies `ops, `waitList, `order, `tail, `count, items
      ensures Valid() && |ops| == |old(ops)| && ops[id] == old(ops)[id].(done := true)
      ensures Grown(old(ops), Those(old(waitList)) + {id}, ops)
      ensures Handed(old(ops), id, old(waitList), old(order), old(Contents()), races, old(ops)[id].item, ops, waitList, order, Contents())
    {
      hide Books, Grown, Added, Got, NoneAfter, Ring, After, Swept, Lockable, Handed, Distinct;
      NothingSwept(ops, races);
      ghost var some := Those(waitList) + {id};
      GrownNot(ops, some);
      ListedInRange(ops, waitList, if count == 0 then Take else Add, order, lifo);
      IdleIsNotInBooks(ops, waitList, if count == 0 then Take else Add, order, lifo, id);
      var given := false;
      if waitList != [] {
        IdleIsNotInBooks(ops, waitList, Take, order, lifo, id);
        ghost var taker := Those(waitList);
        given := HandToTaker(ops[id].item, races);
        OthersStay(old(ops), taker, ops, id);
        GrownOn(old(ops), some, old(ops), taker, ops);
      } else {
        EmptyBooks(ops, if count == 0 then Take else Add, Take, order, lifo);
      }
      ghost var was := ops;
      AddGivenKeeps(ops, waitList, order, lifo);
      if !given {
        Put(ops[id].item);
      }
      ops := Accepted(ops, id, Idle);
      GrownOn(old(ops), some, was, {id}, ops);
      GivenIsHanded(old(ops), id, old(waitList), old(order), old(Contents()), races, old(ops)[id].item, ops, waitList, order, Contents());
      if waitList == [] {
        EmptyBooks(ops, Take, if count == 0 then Take else Add, order, lifo);
      }
    }

    /** The running take gets the first item of the ring. */
    method GetFor(id: Id)
      requires Valid() && !disposed && id == |ops| - 1 && ops[id].kind == Take && ops[id].parker == Idle && !ops[id].done
      requires count > 0
      modifies `ops, `order, `head, `count
      ensures Shape() && count == old(count) - 1 && Books(ops, waitList, Add, order, lifo) && id !in Those(waitList)
      ensures Added(ops) == Got(ops, order) + Contents() && Contents() == old(Contents())[1..]
      ensures ops == Given(old(ops), id, old(Contents())[0], Idle) && Grown(old(ops), {id}, ops) && order == old(order) + [id]
    {
      hide Books, Grown, Added, Got, NoneAfter, Ring, After, Those;
      IdleIsNotInBooks(ops, waitList, Add, order, lifo, id);
      var x := Get();
      TakeKeeps(ops, waitList, order, lifo, x);
      ops := Given(ops, id, x, Idle);
      order := order + [id];
    }

    /** The running take gets the first item of the ring, and a blocked add uses the slot that becomes free. */
    method Receive(id: Id, races: set<Id>)
      requires Valid() && !disposed && id == |ops| - 1 && ops[id].kind == Take && ops[id].parker == Idle && !ops[id].done
      requires count > 0
      modifies `ops, `waitList, `order, `head, `tail, `count, items
      ensures Valid() && |ops| == |old(ops)| && ops[id] == old(ops)[id].(item := old(Contents())[0], done := true)
      ensures Grown(old(ops), Those(old(waitList)) + {id}, ops)
      ensures order == old(order) + [id]
      ensures Refilled(old(ops), id, old(waitList), old(Contents())[1..], races, ops, waitList, Contents())
    {
      hide Books, Grown, Added, Got, NoneAfter, Ring, After, Swept, Lockable, Refilled, Distinct;
      ghost var some := Those(waitList) + {id};
      GrownNot(ops, some);
      ListedInRange(ops, waitList, if count == 0 then Take else Add, order, lifo);
      IdleIsNotInBooks(ops, waitList, if count == 0 then Take else Add, order, lifo, id);
      GetFor(id);
      GrownOn(old(ops), some, old(ops), {id}, ops);
      ghost var was, adders := ops, Those(waitList);
      NothingSwept(was, races);
      if waitList != [] {
        ReleaseAdder(races);
        OthersStay(was, adders, ops, id);
        GrownOn(old(ops), some, was, adders, ops);
      }
      AcceptedIsRefilled(was, id, old(waitList), old(Contents())[1..], races, ops, waitList, Contents());
      RefilledOfSame(old(ops), was, id, old(waitList), old(Contents())[1..], races, ops, waitList, Contents());
      if waitList == [] {
        EmptyBooks(ops, Add, if count == 0 then Take else Add, order, lifo);
      }
    }

    /** Adds an item; with a zero timeout the add polls. */
    method AddEx(x: Item, poll: bool, races: set<Id>) returns (r: Outcome)
      requires Valid()
      modifies `ops, `waitList, `order, `tail, `count, items
      ensures Valid() && Grown(old(ops), Those(old(waitList)), ops)
      ensures disposed ==> r == Completed(Disposed) && ops == old(ops)
      ensures !disposed ==>
                && |ops| == |old(ops)| + 1
                && ops[|old(ops)|] == Op(Add, x, old(count) < items.Length, if r.MustWait? then Waiting else Idle)
                && r == (if old(count) < items.Length then Completed(Success) else if poll then Completed(TimedOut) else MustWait(|old(ops)|))
      ensures !disposed && old(count) < items.Length ==>
                Handed(old(ops), |old(ops)|, old(waitList), old(order), old(Contents()), races, x, ops, waitList, order, Contents())
      ensures old(count) == items.Length ==> order == old(order) && Contents() == old(Contents())
      ensures old(count) == items.Length && !disposed ==> ops[..|old(ops)|] == old(ops)
      ensures old(count) == items.Length && !disposed ==> waitList == old(waitList) + if poll then [] else [|old(ops)|]
    {
      hide Grown, Books, Added, Got, Ring, Those, After, Lockable, FirstLockable, NoneLockable, Skipped, Distinct;
      ListedInRange(ops, waitList, if count == 0 then Take else Add, order, lifo);
      GrownNot(ops, Those(waitList));
      if disposed {
        return Completed(Disposed);
      }
      ghost var some := Those(waitList);
      var id := Begin(Op(Add, x, false, Idle));
      ghost var begun := ops;
      GrownNot(ops, some + {id});
      if count < items.Length {
        FirstOfEarlier(old(ops), ops, waitList, races);
        PassOn(id, races);
        r := Completed(Success);
      } else if poll {
        r := Completed(TimedOut);
      } else {
        Block(id, false);
        r := MustWait(id);
      }
      OnlyRunnerNew(old(ops), some, begun, ops);
    }

    /** Takes an item; with a zero timeout the take polls, and does so before it looks whether the queue was disposed. */
    method TakeEx(poll: bool, races: set<Id>) returns (r: Outcome)
      requires Valid()
      modifies `ops, `waitList, `order, `head, `tail, `count, items
      ensures Valid() && Grown(old(ops), Those(old(waitList)), ops)
      ensures old(count) == 0 && poll ==> r == Completed(TimedOut) && ops == old(ops) && Contents() == old(Contents())
      ensures old(count) == 0 && !poll && disposed ==> r == Completed(Disposed) && ops == old(ops)
      ensures old(count) == 0 && !poll && !disposed ==> (
                  && r == MustWait(|old(ops)|)
                  && |ops| == |old(ops)| + 1 && ops[|old(ops)|] == Op(Take, 0, false, Waiting)
                  && waitList == if lifo then [|old(ops)|] + old(waitList) else old(waitList) + [|old(ops)|])
      ensures old(count) != 0 ==> (
                  && r == Taken(old(Contents())[0]) && order == old(order) + [|old(ops)|]
                  && |ops| == |old(ops)| + 1 && ops[|old(ops)|] == Op(Take, old(Contents())[0], true, Idle)
                  && Refilled(old(ops), |old(ops)|, old(waitList), old(Contents())[1..], races, ops, waitList, Contents()))
      ensures old(count) == 0 ==> order == old(order) && Contents() == old(Contents()) && old(ops) <= ops
    {
      hide Grown, Books, Added, Got, Ring, Those, After, Lockable, FirstLockable, NoneLockable, Skipped, Distinct;
      ListedInRange(ops, waitList, if count == 0 then Take else Add, order, lifo);
      GrownNot(ops, Those(waitList));
      if poll && count == 0 {
        return Completed(TimedOut);
      }
      if disposed {
        return Completed(Disposed);
      }
      ghost var some := Those(waitList);
      var id := Begin(Op(Take, 0, false, Idle));
      ghost var begun := ops;
      GrownNot(ops, some + {id});
      if count != 0 {
        FirstOfEarlier(old(ops), ops, waitList, races);
        Receive(id, races);
        r := Taken(ops[id].item);
      } else {
        Block(id, lifo);
        r := MustWait(id);
      }
      OnlyRunnerNew(old(ops), some, begun, ops);
    }

    /** A take that never waits. */
    method TryTake(races: set<Id>) returns (r: Outcome)
      requires Valid()
      modifies `ops, `waitList, `order, `head, `tail, `count, items
      ensures Valid() && Grown(old(ops), Those(old(waitList)), ops)
      ensures r.Taken? <==> old(count) != 0
      ensures r.Taken? ==> r.item == old(Contents())[0] && order == old(order) + [|old(ops)|]
      ensures r.Taken? ==> Refilled(old(ops), |old(ops)|, old(waitList), old(Contents())[1..], races, ops, waitList, Contents())
      ensures !r.Taken? ==> ops == old(ops) && Contents() == old(Contents())
    {
      hide Grown, Books, Added, Got, Ring, Those, After, Refilled;
      r := TakeEx(true, races);
    }

    /**
     The queue's part of a take-any: the caller's parker may have been locked through
     another queue already, and then no item is taken.
     */
    method TakePrologue(mine: bool, races: set<Id>) returns (r: Outcome)
      requires Valid()
      modifies `ops, `waitList, `order, `head, `tail, `count, items
      ensures Valid() && Grown(old(ops), Those(old(waitList)), ops)
      ensures r.Unlocked? <==> !mine && (old(count) != 0 || disposed)
      ensures r.Unlocked? ==> ops == old(ops) && Contents() == old(Contents())
      ensures mine && old(count) != 0 ==> r == Taken(old(Contents())[0]) && order == old(order) + [|old(ops)|]
      ensures mine && old(count) != 0 ==> Refilled(old(ops), |old(ops)|, old(waitList), old(Contents())[1..], races, ops, waitList, Contents())
      ensures mine && disposed ==> r == Completed(Disposed) && ops == old(ops)
      ensures old(count) == 0 && !disposed ==> (
                  && r == MustWait(|old(ops)|)
                  && |ops| == |old(ops)| + 1 && ops[|old(ops)|] == Op(Take, 0, false, Waiting)
                  && waitList == if lifo then [|old(ops)|] + old(waitList) else old(waitList) + [|old(ops)|])
    {
      hide Grown, Books, Added, Got, Ring, Those, After;
      GrownNot(ops, Those(waitList));
      if count != 0 {
        if mine {
          r := TakeEx(true, races);
        } else {
          r := Unlocked;
        }
      } else if disposed {
        r := if mine then Completed(Disposed) else Unlocked;
      } else {
        r := TakeEx(false, races);
      }
    }

    /** A timeout, an alert or another queue of a take-any locks the parker of a blocked operation. */
    method Cancel(w: Id)
      requires Valid() && w < |ops| && ops[w].parker.Waiting?
      modifies `ops
      ensures Valid() && ops == Parked(old(ops), w, Cancelled)
    {
      hide Added, Got, Ring, After, NoneAfter;
      CancelKeeps(ops, waitList, if count == 0 then Take else Add, lifo, w);
      ParkedPasses(ops, waitList, order, lifo, w, Cancelled, waitList);
      ops := Parked(ops, w, Cancelled);
    }

    /** UnlinkEntryList: a cancelled operation takes itself off the wait list if it is still there. */
    method FinishCancelled(w: Id, cause: Status) returns (r: Outcome)
      requires Valid() && w < |ops| && ops[w].parker.Cancelled?
      modifies `ops, `waitList
      ensures Valid() && ops == Parked(old(ops), w, Idle) && w !in waitList
      ensures w !in old(waitList) ==> waitList == old(waitList)
      ensures w in old(waitList) ==> exists x :: 0 <= x < |old(waitList)| && old(waitList)[x] == w && waitList == WithoutAt(old(waitList), x)
      ensures r == Completed(cause) && !ops[w].done
    {
      hide Added, Got, Ring, After, NoneAfter, WithoutAt;
      ghost var k := if count == 0 then Take else Add;
      ghost var list := waitList;
      if w in waitList {
        var x :| 0 <= x < |waitList| && waitList[x] == w;
        UnlinkKeeps(ops, waitList, k, lifo, x);
        WithoutAtKeeps(waitList, x);
        waitList := WithoutAt(waitList, x);
      }
      ParkerIdle(ops, waitList, k, lifo, w);
      ParkedPasses(ops, list, order, lifo, w, Idle, waitList);
      ops := Parked(ops, w, Idle);
      r := Completed(cause);
    }

    /** What a released operation does when it runs again. */
    method FinishReleased(w: Id) returns (r: Outcome)
      requires Valid() && w < |ops| && ops[w].parker.Released?
      requires ops[w].parker.status == Success || ops[w].parker.status == Disposed
      modifies `ops
      ensures Valid() && ops == Parked(old(ops), w, Idle)
      ensures ops[w].done ==> r == if ops[w].kind == Add then Completed(Success) else Taken(ops[w].item)
      ensures !ops[w].done ==> r == Completed(Disposed)
    {
      hide Added, Got, Ring, After, NoneAfter;
      var p := ops[w].parker;
      ParkerIdle(ops, waitList, if count == 0 then Take else Add, lifo, w);
      ParkedPasses(ops, waitList, order, lifo, w, Idle, waitList);
      ops := Parked(ops, w, Idle);
      if p.status == Disposed {
        r := Completed(Disposed);
      } else {
        r := if ops[w].kind == Add then Completed(Success) else Taken(ops[w].item);
      }
    }

    /** Disposes the queue; the parts are what the callback gets, part by part. */
    method Dispose(races: set<Id>) returns (ok: bool, parts: seq<seq<Item>>)
      requires Valid()
      modifies this
      ensures Valid() && disposed && ok == !old(disposed)
      ensures !ok ==> ops == old(ops) && parts == []
      ensures ok ==> ops == Shut(old(ops), old(waitList), races) && Joined(parts) == old(Contents())
    {
      hide Added, Got, Books, Grown, NoneAfter;
      if disposed {
        return false, [];
      }
      ghost var k := if count == 0 then Take else Add;
      while waitList != []
        invariant Shape() && !disposed && head == old(head) && count == old(count) && order == old(order)
        invariant Books(ops, waitList, k, order, lifo)
        invariant Shut(ops, waitList, races) == Shut(old(ops), old(waitList), races)
        invariant Added(ops) == old(Added(ops)) && Got(ops, order) == old(Got(ops, order))
        decreases |waitList|
      {
        FrontOfBooks(ops, waitList, k, order, lifo);
        DropFront(ShutParker(waitList[0], ops[waitList[0]].parker, races), k);
      }
      EmptyBooks(ops, k, Take, order, lifo);
      leftover := Contents();
      parts := PartsOf(items[..], head, count);
      PartsJoin(items[..], head, count);
      disposed, count, tail := true, 0, head;
      ok := true;
    }

    /**
     In every state of the queue: the i-th delivery is the i-th item added, and it goes to a
     take of its own, in order of arrival if takes are served so.
     */
    lemma DeliveredInOrder(i: nat)
      requires Valid()
      ensures |Added(ops)| == |order| + |Untaken()|
      ensures i < |order| ==> order[i] < |ops| && HasTaken(ops, order[i]) && ops[order[i]].item == Added(ops)[i]
      ensures Distinct(order) && (!lifo ==> Increasing(order)) && forall t: Id :: t in order <==> HasTaken(ops, t)
    {
      DeliveredOnceInOrder(ops, waitList, order, lifo, Untaken(), i);
    }
  }
}
