/**
 The adds and takes that a bounded queue has seen, in the order in which they took its
 lock, the wait list of those that are blocked in it, and the order of deliveries.
 */
module BoundedBooks {

  /** A data item is a pointer, which the queue does not look at. */
  type Item = int

  datatype Kind = Add | Take
  datatype Status = Success | Disposed | TimedOut | Alerted

  /** The parker of an operation: not in use, parked, locked by a canceller, or locked and released by another thread. */
  datatype Parker = Idle | Waiting | Cancelled | Released(status: Status)

  /** An add of an item, or a take and the item it got; done tells whether the item has passed. */
  datatype Op = Op(kind: Kind, item: Item, done: bool, parker: Parker)

  type Id = nat

  /** The items of the adds that succeeded, in the order of the adds. */
  function Added(ops: seq<Op>): seq<Item> {
    if ops == [] then []
    else if ops[|ops| - 1].kind == Add && ops[|ops| - 1].done then Added(ops[..|ops| - 1]) + [ops[|ops| - 1].item]
    else Added(ops[..|ops| - 1])
  }

  /** The items that the given takes got. */
  function Got(ops: seq<Op>, order: seq<Id>): seq<Item> {
    if order == [] then []
    else Got(ops, order[..|order| - 1]) + [if order[|order| - 1] < |ops| then ops[order[|order| - 1]].item else 0]
  }

  predicate Increasing(list: seq<Id>) {
    forall i, j :: 0 <= i < j < |list| ==> list[i] < list[j]
  }

  predicate Distinct(list: seq<Id>) {
    forall i, j :: 0 <= i < j < |list| ==> list[i] != list[j]
  }

  /** No add that came later has succeeded. */
  predicate NoneAfter(ops: seq<Op>, i: Id) {
    forall j :: i < j < |ops| && ops[j].kind == Add ==> !ops[j].done
  }

  /** An operation in the wait list: it is parked, or was cancelled just now. */
  predicate Blocked(ops: seq<Op>, w: Id, k: Kind) {
    && w < |ops| && ops[w].kind == k && !ops[w].done
    && (ops[w].parker.Waiting? || ops[w].parker.Cancelled?)
    && (k == Add ==> NoneAfter(ops, w))
  }

  /** The wait list holds operations of one kind, and all that are parked; only takes may be out of order. */
  predicate Listed(ops: seq<Op>, list: seq<Id>, k: Kind, lifo: bool) {
    && Distinct(list) && (k == Add || !lifo ==> Increasing(list))
    && (forall i :: 0 <= i < |list| ==> Blocked(ops, list[i], k))
    && (forall i :: 0 <= i < |ops| && ops[i].parker.Waiting? ==> i in list)
  }

  /** An operation has succeeded if it was released with success, and not if it was cancelled or the queue disposed. */
  predicate OpOk(op: Op) {
    && (op.parker == Released(Success) ==> op.done)
    && (op.parker == Released(Disposed) || op.parker.Cancelled? ==> !op.done)
  }

  predicate AllOk(ops: seq<Op>) {
    forall i :: 0 <= i < |ops| ==> OpOk(ops[i])
  }

  predicate IsTake(ops: seq<Op>, i: Id) {
    i < |ops| && ops[i].kind == Take
  }

  /** The operation is a take that has got an item. */
  predicate HasTaken(ops: seq<Op>, i: Id) {
    IsTake(ops, i) && ops[i].done
  }

  /** The order of deliveries names each take that has got an item once, in order of arrival unless takes are served last in, first out. */
  ghost predicate Ordered(ops: seq<Op>, list: seq<Id>, order: seq<Id>, lifo: bool) {
    && Distinct(order)
    && (forall i: Id :: i in order <==> HasTaken(ops, i))
    && (!lifo ==> Increasing(order) && forall x, w :: x in order && w in list && IsTake(ops, w) ==> x < w)
  }

  ghost predicate Books(ops: seq<Op>, list: seq<Id>, k: Kind, order: seq<Id>, lifo: bool) {
    Listed(ops, list, k, lifo) && AllOk(ops) && Ordered(ops, list, order, lifo)
  }

  function Those(list: seq<Id>): set<Id> {
    set i | i in list
  }

  /** From one state to a later one, operations are only added, and only the given ones may succeed or be released. */
  predicate Grown(ops: seq<Op>, some: set<Id>, ops': seq<Op>) {
    && |ops| <= |ops'|
    && (forall i :: 0 <= i < |ops| ==> ops'[i].kind == ops[i].kind && (ops[i].kind == Add ==> ops'[i].item == ops[i].item))
    && (forall i :: 0 <= i < |ops| && i !in some ==> ops'[i] == ops[i])
  }

  lemma GrownNot(ops: seq<Op>, some: set<Id>)
    ensures Grown(ops, some, ops)
  {
  }

  lemma GrownOn(ops: seq<Op>, some: set<Id>, ops': seq<Op>, some': set<Id>, ops'': seq<Op>)
    requires Grown(ops, some, ops') && Grown(ops', some', ops'') && some' <= some
    ensures Grown(ops, some, ops'')
  {
  }

  // ---- one operation changes ----

  /** An add succeeds; its parker goes to the given state. */
  function Accepted(ops: seq<Op>, i: Id, p: Parker): seq<Op>
    requires i < |ops|
  {
    ops[i := ops[i].(done := true, parker := p)]
  }

  /** A take gets an item. */
  function Given(ops: seq<Op>, i: Id, x: Item, p: Parker): seq<Op>
    requires i < |ops|
  {
    ops[i := ops[i].(item := x, done := true, parker := p)]
  }

  function Parked(ops: seq<Op>, i: Id, p: Parker): seq<Op>
    requires i < |ops|
  {
    ops[i := ops[i].(parker := p)]
  }

  lemma {:induction false} AcceptAppends(ops: seq<Op>, i: Id, p: Parker)
    requires i < |ops| && ops[i].kind == Add && !ops[i].done && NoneAfter(ops, i)
    ensures Added(Accepted(ops, i, p)) == Added(ops) + [ops[i].item]
  {
    var n := |ops| - 1;
    if i == n {
      assert Accepted(ops, i, p)[..n] == ops[..n];
    } else {
      assert Accepted(ops, i, p)[..n] == Accepted(ops[..n], i, p);
      assert NoneAfter(ops[..n], i);
      AcceptAppends(ops[..n], i, p);
    }
  }

  /** What is added depends on the adds alone. */
  lemma {:induction false} SameAdded(ops: seq<Op>, i: Id, op: Op)
    requires i < |ops| && op.kind == ops[i].kind && (op.kind == Add ==> op.done == ops[i].done && op.item == ops[i].item)
    ensures Added(ops[i := op]) == Added(ops)
  {
    var n := |ops| - 1;
    if i == n {
      assert ops[i := op][..n] == ops[..n];
    } else {
      assert ops[i := op][..n] == ops[..n][i := op];
      SameAdded(ops[..n], i, op);
    }
  }

  /** What was got depends on the takes that have got it. */
  lemma {:induction false} SameGot(ops: seq<Op>, ops': seq<Op>, order: seq<Id>)
    requires forall j :: 0 <= j < |order| ==> order[j] < |ops| && order[j] < |ops'| && ops[order[j]].item == ops'[order[j]].item
    ensures Got(ops, order) == Got(ops', order)
  {
    if order != [] {
      SameGot(ops, ops', order[..|order| - 1]);
    }
  }

  lemma GiveAppends(ops: seq<Op>, i: Id, x: Item, p: Parker, order: seq<Id>)
    requires i < |ops| && i !in order && forall j :: 0 <= j < |order| ==> order[j] < |ops|
    ensures Got(Given(ops, i, x, p), order + [i]) == Got(ops, order) + [x]
  {
    SameGot(ops, Given(ops, i, x, p), order);
    assert (order + [i])[..|order|] == order;
  }

  lemma NewChangesNothing(ops: seq<Op>, op: Op, order: seq<Id>)
    requires !op.done && forall j :: 0 <= j < |order| ==> order[j] < |ops|
    ensures Added(ops + [op]) == Added(ops) && Got(ops + [op], order) == Got(ops, order)
  {
    assert (ops + [op])[..|ops|] == ops;
    SameGot(ops, ops + [op], order);
  }

  /** Each item got is that of one take, and each take that got one has its place. */
  lemma {:induction false} GotAt(ops: seq<Op>, order: seq<Id>, i: nat)
    requires i < |order| && forall j :: 0 <= j < |order| ==> order[j] < |ops|
    ensures |Got(ops, order)| == |order| && Got(ops, order)[i] == ops[order[i]].item
  {
    var n := |order| - 1;
    if i < n {
      GotAt(ops, order[..n], i);
      assert order[..n][i] == order[i];
    } else {
      GotLength(ops, order);
    }
  }

  lemma {:induction false} GotLength(ops: seq<Op>, order: seq<Id>)
    ensures |Got(ops, order)| == |order|
  {
    if order != [] {
      GotLength(ops, order[..|order| - 1]);
    }
  }

  /** Each add that succeeded has its place among the items added, behind those that came before it. */
  lemma {:induction false} AddedAt(ops: seq<Op>, i: Id)
    requires i < |ops| && ops[i].kind == Add && ops[i].done
    ensures |Added(ops[..i])| < |Added(ops)| && Added(ops)[|Added(ops[..i])|] == ops[i].item
  {
    var n := |ops| - 1;
    if i < n {
      AddedAt(ops[..n], i);
      assert ops[..n][..i] == ops[..i];
    }
  }

  // ---- the wait list ----

  /** The first take of the wait list gets an item, and its place in the order. */
  lemma FrontIsNext(ops: seq<Op>, list: seq<Id>, order: seq<Id>, lifo: bool, x: Item, p: Parker)
    requires list != [] && Listed(ops, list, Take, lifo) && Ordered(ops, list, order, lifo) && list[0] < |ops|
    ensures Ordered(Given(ops, list[0], x, p), list[1..], order + [list[0]], lifo)
  {
    var f := list[0];
    var ops', list', order' := Given(ops, f, x, p), list[1..], order + [f];
    assert Blocked(ops, f, Take) && f !in order;
    forall i: Id ensures i in order' <==> HasTaken(ops', i) {
      assert i in order' <==> i in order || i == f;
    }
    if !lifo {
      assert IsTake(ops, f) && forall x :: x in order ==> x < f;
      forall x, w | x in order' && w in list' && IsTake(ops', w) ensures x < w {
        var j :| 0 <= j < |list'| && list'[j] == w;
        assert list[j + 1] == w && w in list && IsTake(ops, w);
        assert x in order || x == f;
      }
      forall i, j | 0 <= i < j < |order'| ensures order'[i] < order'[j] {
        assert order[i] in order;
      }
    }
    forall i, j | 0 <= i < j < |order'| ensures order'[i] != order'[j] {
      assert order[i] in order;
    }
  }

  /** Only the takes that got an item matter for the order. */
  lemma SameOrder(ops: seq<Op>, list: seq<Id>, order: seq<Id>, lifo: bool, i: Id, op: Op, list': seq<Id>)
    requires i < |ops| && op.kind == ops[i].kind && (op.kind == Take ==> op.done == ops[i].done)
    requires Ordered(ops, list, order, lifo) && forall w :: w in list' ==> w in list
    ensures Ordered(ops[i := op], list', order, lifo)
  {
    var ops' := ops[i := op];
    forall j: Id ensures j in order <==> HasTaken(ops', j) {
      assert j in order <==> HasTaken(ops, j);
    }
    forall x, w | !lifo && x in order && w in list' && IsTake(ops', w) ensures x < w {
      assert IsTake(ops, w);
    }
  }

  /** A take that runs gets an item while only adds are blocked. */
  lemma RunnerIsNext(ops: seq<Op>, list: seq<Id>, order: seq<Id>, lifo: bool, x: Item)
    requires ops != [] && Listed(ops, list, Add, lifo) && Ordered(ops, list, order, lifo)
    requires ops[|ops| - 1].kind == Take && !ops[|ops| - 1].done && ops[|ops| - 1].parker == Idle
    ensures var i := |ops| - 1; var ops' := Given(ops, i, x, Idle);
      i !in order && Ordered(ops', list, order + [i], lifo) && Listed(ops', list, Add, lifo)
  {
    var n := |ops| - 1;
    var ops', order' := Given(ops, n, x, Idle), order + [n];
    assert n !in order;
    forall i: Id ensures i in order' <==> HasTaken(ops', i) {
      assert i in order' <==> i in order || i == n;
    }
    forall i | 0 <= i < |list| ensures Blocked(ops', list[i], Add) {
      assert Blocked(ops, list[i], Add);
    }
    forall i, j | !lifo && 0 <= i < j < |order'| ensures order'[i] < order'[j] {
      assert order'[i] in order;
    }
  }

  lemma NewKeeps(ops: seq<Op>, list: seq<Id>, k: Kind, order: seq<Id>, lifo: bool, op: Op)
    requires Books(ops, list, k, order, lifo) && !op.done && op.parker == Idle
    ensures Books(ops + [op], list, k, order, lifo)
  {
    var ops' := ops + [op];
    forall i | 0 <= i < |list| ensures Blocked(ops', list[i], k) {
      assert Blocked(ops, list[i], k);
    }
    forall i: Id ensures i in order <==> HasTaken(ops', i) {
      assert i in order <==> HasTaken(ops, i);
    }
    forall x, w | !lifo && x in order && w in list && IsTake(ops', w) ensures x < w {
      assert IsTake(ops, w);
    }
  }

  /** The latest operation blocks at the end of the list, or a take at its start. */
  lemma NewBlocks(ops: seq<Op>, list: seq<Id>, k: Kind, lifo: bool, first: bool)
    requires ops != [] && Listed(ops, list, k, lifo) && (first ==> lifo && k == Take)
    requires ops[|ops| - 1].kind == k && !ops[|ops| - 1].done && ops[|ops| - 1].parker == Idle
    ensures var n := |ops| - 1;
      Listed(Parked(ops, n, Waiting), if first then [n] + list else list + [n], k, lifo)
  {
    var n := |ops| - 1;
    var ops', list' := Parked(ops, n, Waiting), if first then [n] + list else list + [n];
    forall i | 0 <= i < |list| ensures Blocked(ops', list[i], k) && list[i] < n {
      assert Blocked(ops, list[i], k);
    }
    assert Blocked(ops', n, k);
    forall i | 0 <= i < |list'| ensures Blocked(ops', list'[i], k) {
      assert list'[i] == n || list'[i] in list;
    }
    forall i | 0 <= i < |ops'| && ops'[i].parker.Waiting? ensures i in list' {
      if i == n {
        assert list'[if first then 0 else |list|] == n;
      } else {
        var j :| 0 <= j < |list| && list[j] == i;
        assert list'[if first then j + 1 else j] == i;
      }
    }
  }

  lemma NewLast(ops: seq<Op>, list: seq<Id>, order: seq<Id>, lifo: bool, list': seq<Id>)
    requires ops != [] && Ordered(ops, list, order, lifo) && !ops[|ops| - 1].done
    requires forall w :: w in list' ==> w in list || w == |ops| - 1
    ensures Ordered(Parked(ops, |ops| - 1, Waiting), list', order, lifo)
  {
    var n := |ops| - 1;
    var ops' := Parked(ops, n, Waiting);
    forall j: Id ensures j in order <==> HasTaken(ops', j) {
      assert j in order <==> HasTaken(ops, j);
    }
    forall x, w | !lifo && x in order && w in list' && IsTake(ops', w) ensures x < w {
      assert x != n;
    }
  }

  /** A blocked operation is cancelled but stays in the list for the time being. */
  lemma CancelKeeps(ops: seq<Op>, list: seq<Id>, k: Kind, lifo: bool, w: Id)
    requires Listed(ops, list, k, lifo) && w < |ops| && ops[w].parker.Waiting?
    ensures Listed(Parked(ops, w, Cancelled), list, k, lifo)
  {
    forall x | 0 <= x < |list| ensures Blocked(Parked(ops, w, Cancelled), list[x], k) {
      assert Blocked(ops, list[x], k);
    }
  }

  function WithoutAt(list: seq<Id>, x: nat): seq<Id>
    requires x < |list|
  {
    list[..x] + list[x + 1..]
  }

  lemma WithoutAtKeeps(list: seq<Id>, x: nat)
    requires x < |list| && Distinct(list)
    ensures Distinct(WithoutAt(list, x)) && (Increasing(list) ==> Increasing(WithoutAt(list, x)))
    ensures forall i: Id :: i in WithoutAt(list, x) <==> i in list && i != list[x]
  {
    var list' := WithoutAt(list, x);
    assert forall y :: 0 <= y < |list'| ==> list'[y] == list[if y < x then y else y + 1];
    forall i: Id | i in list && i != list[x] ensures i in list' {
      var y :| 0 <= y < |list| && list[y] == i;
      assert list'[if y < x then y else y - 1] == i;
    }
  }

  /** A cancelled operation takes itself off the list. */
  lemma UnlinkKeeps(ops: seq<Op>, list: seq<Id>, k: Kind, lifo: bool, x: nat)
    requires x < |list| && Listed(ops, list, k, lifo) && list[x] < |ops| && ops[list[x]].parker.Cancelled?
    ensures Listed(ops, WithoutAt(list, x), k, lifo) && list[x] !in WithoutAt(list, x)
  {
    hide WithoutAt, Distinct, Increasing, Blocked;
    WithoutAtKeeps(list, x);
    forall y | 0 <= y < |WithoutAt(list, x)| ensures Blocked(ops, WithoutAt(list, x)[y], k) {
      assert WithoutAt(list, x)[y] in list;
    }
  }

  /** The parker of an operation that is not in the list goes out of use. */
  lemma ParkerIdle(ops: seq<Op>, list: seq<Id>, k: Kind, lifo: bool, w: Id)
    requires Listed(ops, list, k, lifo) && w < |ops| && w !in list
    ensures Listed(Parked(ops, w, Idle), list, k, lifo)
  {
    forall x | 0 <= x < |list| ensures Blocked(Parked(ops, w, Idle), list[x], k) {
      assert Blocked(ops, list[x], k);
    }
  }

  // ---- keeping the books ----

  /** The first blocked operation leaves the list; it no longer waits. */
  lemma FrontLeaves(ops: seq<Op>, list: seq<Id>, k: Kind, lifo: bool, op: Op)
    requires list != [] && Listed(ops, list, k, lifo) && list[0] < |ops|
    requires op.kind == ops[list[0]].kind && !op.parker.Waiting?
    ensures Listed(ops[list[0] := op], list[1..], k, lifo)
  {
    var ops' := ops[list[0] := op];
    forall i | 0 < i < |list| ensures Blocked(ops', list[i], k) {
      assert Blocked(ops, list[i], k);
    }
    forall i | 0 <= i < |ops'| && ops'[i].parker.Waiting? ensures i in list[1..] {
      assert i in list && i != list[0];
    }
  }

  /** The first blocked operation turns out to be cancelled, or is released because of disposal. */
  lemma DropKeeps(ops: seq<Op>, list: seq<Id>, k: Kind, order: seq<Id>, lifo: bool, p: Parker)
    requires list != [] && Books(ops, list, k, order, lifo) && list[0] < |ops|
    requires p.Cancelled? || p == Released(Disposed)
    ensures var ops' := Parked(ops, list[0], p);
      && Books(ops', list[1..], k, order, lifo) && Grown(ops, {list[0]}, ops')
      && Added(ops') == Added(ops) && Got(ops', order) == Got(ops, order)
  {
    hide Listed, Ordered, Added, Got;
    var f := list[0];
    assert Blocked(ops, f, k) by {
      FrontOfBooks(ops, list, k, order, lifo);
    }
    var op := ops[f].(parker := p);
    FrontLeaves(ops, list, k, lifo, op);
    SameOrder(ops, list, order, lifo, f, op, list[1..]);
    SameAdded(ops, f, op);
    TakenInRange(ops, list, order, lifo);
    SameGot(ops, Parked(ops, f, p), order);
  }

  lemma TakenInRange(ops: seq<Op>, list: seq<Id>, order: seq<Id>, lifo: bool)
    requires Ordered(ops, list, order, lifo)
    ensures forall j :: 0 <= j < |order| ==> order[j] < |ops|
  {
    forall j | 0 <= j < |order| ensures order[j] < |ops| {
      assert order[j] in order;
    }
  }

  lemma NotTakenYet(ops: seq<Op>, list: seq<Id>, order: seq<Id>, lifo: bool, f: Id)
    requires Ordered(ops, list, order, lifo) && f < |ops| && !ops[f].done
    ensures f !in order
  {
  }

  /** The first blocked take gets an item. */
  lemma GiveKeeps(ops: seq<Op>, list: seq<Id>, order: seq<Id>, lifo: bool, x: Item)
    requires list != [] && Books(ops, list, Take, order, lifo) && list[0] < |ops|
    ensures var ops' := Given(ops, list[0], x, Released(Success));
      && Books(ops', list[1..], Take, order + [list[0]], lifo) && Grown(ops, {list[0]}, ops')
      && Added(ops') == Added(ops) && Got(ops', order + [list[0]]) == Got(ops, order) + [x]
  {
    hide Listed, Ordered, Added, Got;
    var f, p := list[0], Released(Success);
    assert Blocked(ops, f, Take) by {
      FrontOfBooks(ops, list, Take, order, lifo);
    }
    FrontLeaves(ops, list, Take, lifo, ops[f].(item := x, done := true, parker := p));
    NotTakenYet(ops, list, order, lifo, f);
    FrontIsNext(ops, list, order, lifo, x, p);
    SameAdded(ops, f, ops[f].(item := x, done := true, parker := p));
    TakenInRange(ops, list, order, lifo);
    GiveAppends(ops, f, x, p, order);
  }

  /** The first blocked add succeeds. */
  lemma AcceptKeeps(ops: seq<Op>, list: seq<Id>, order: seq<Id>, lifo: bool)
    requires list != [] && Books(ops, list, Add, order, lifo) && list[0] < |ops|
    ensures var ops' := Accepted(ops, list[0], Released(Success));
      && Books(ops', list[1..], Add, order, lifo) && Grown(ops, {list[0]}, ops')
      && Added(ops') == Added(ops) + [ops[list[0]].item] && Got(ops', order) == Got(ops, order)
  {
    hide Listed, Ordered, Added, Got;
    var f, p := list[0], Released(Success);
    assert Blocked(ops, f, Add) by {
      FrontOfBooks(ops, list, Add, order, lifo);
    }
    var op := ops[f].(done := true, parker := p);
    FrontLeaves(ops, list, Add, lifo, op);
    SameOrder(ops, list, order, lifo, f, op, list[1..]);
    AcceptAppends(ops, f, p);
    TakenInRange(ops, list, order, lifo);
    SameGot(ops, Accepted(ops, f, p), order);
  }

  /** The add that runs has given its item to a blocked take; more takes may be blocked. */
  lemma AddGivenKeeps(ops: seq<Op>, list: seq<Id>, order: seq<Id>, lifo: bool)
    requires ops != [] && Books(ops, list, Take, order, lifo)
    requires ops[|ops| - 1].kind == Add && !ops[|ops| - 1].done && ops[|ops| - 1].parker == Idle
    ensures var n := |ops| - 1; var ops' := Accepted(ops, n, Idle);
      && Books(ops', list, Take, order, lifo) && Grown(ops, {n}, ops')
      && Added(ops') == Added(ops) + [ops[n].item] && Got(ops', order) == Got(ops, order)
  {
    var n := |ops| - 1;
    var op := ops[n].(done := true, parker := Idle);
    forall i | 0 <= i < |list| ensures Blocked(ops[n := op], list[i], Take) {
      assert Blocked(ops, list[i], Take);
    }
    SameOrder(ops, list, order, lifo, n, op, list);
    AcceptAppends(ops, n, Idle);
    TakenInRange(ops, list, order, lifo);
    SameGot(ops, Accepted(ops, n, Idle), order);
  }

  /** The take that runs gets an item while only adds are blocked. */
  lemma TakeKeeps(ops: seq<Op>, list: seq<Id>, order: seq<Id>, lifo: bool, x: Item)
    requires ops != [] && Books(ops, list, Add, order, lifo)
    requires ops[|ops| - 1].kind == Take && !ops[|ops| - 1].done && ops[|ops| - 1].parker == Idle
    ensures var n := |ops| - 1; var ops' := Given(ops, n, x, Idle);
      && Books(ops', list, Add, order + [n], lifo) && Grown(ops, {n}, ops')
      && Added(ops') == Added(ops) && Got(ops', order + [n]) == Got(ops, order) + [x]
  {
    var n := |ops| - 1;
    RunnerIsNext(ops, list, order, lifo, x);
    SameAdded(ops, n, ops[n].(item := x, done := true, parker := Idle));
    TakenInRange(ops, list, order, lifo);
    GiveAppends(ops, n, x, Idle, order);
  }

  /** The parker of an operation changes without an effect on what has passed. */
  lemma ParkedPasses(ops: seq<Op>, list: seq<Id>, order: seq<Id>, lifo: bool, w: Id, p: Parker, list': seq<Id>)
    requires w < |ops| && AllOk(ops) && Ordered(ops, list, order, lifo) && forall i :: i in list' ==> i in list
    requires p == Idle || p == Waiting || (p == Cancelled && !ops[w].done)
    ensures var ops' := Parked(ops, w, p);
      AllOk(ops') && Ordered(ops', list', order, lifo) && Added(ops') == Added(ops) && Got(ops', order) == Got(ops, order)
  {
    var op := ops[w].(parker := p);
    assert OpOk(ops[w]);
    SameOrder(ops, list, order, lifo, w, op, list');
    SameAdded(ops, w, op);
    TakenInRange(ops, list, order, lifo);
    SameGot(ops, Parked(ops, w, p), order);
  }

  lemma FrontOfBooks(ops: seq<Op>, list: seq<Id>, k: Kind, order: seq<Id>, lifo: bool)
    requires list != [] && Books(ops, list, k, order, lifo)
    ensures Blocked(ops, list[0], k)
  {
  }

  lemma OrderInRange(ops: seq<Op>, list: seq<Id>, k: Kind, order: seq<Id>, lifo: bool)
    requires Books(ops, list, k, order, lifo)
    ensures forall j :: 0 <= j < |order| ==> order[j] < |ops|
  {
    TakenInRange(ops, list, order, lifo);
  }

  lemma IdleIsNotInBooks(ops: seq<Op>, list: seq<Id>, k: Kind, order: seq<Id>, lifo: bool, i: Id)
    requires Books(ops, list, k, order, lifo) && i < |ops| && ops[i].parker == Idle
    ensures i !in list && i !in Those(list)
  {
  }

  lemma EmptyBooks(ops: seq<Op>, k: Kind, k': Kind, order: seq<Id>, lifo: bool)
    requires Books(ops, [], k, order, lifo)
    ensures Books(ops, [], k', order, lifo)
  {
  }

  lemma ListShrinks(list: seq<Id>)
    requires list != []
    ensures list[0] in Those(list) && Those(list[1..]) <= Those(list)
  {
  }

  lemma OthersStay(ops: seq<Op>, some: set<Id>, ops': seq<Op>, i: Id)
    requires Grown(ops, some, ops') && i < |ops| && i !in some
    ensures i < |ops'| && ops'[i] == ops[i]
  {
  }

  /** The running operation is none of those there were. */
  lemma OnlyRunnerNew(ops: seq<Op>, some: set<Id>, begun: seq<Op>, ops': seq<Op>)
    requires |begun| == |ops| + 1 && begun[..|ops|] == ops && Grown(begun, some + {|ops|}, ops')
    ensures Grown(ops, some, ops')
  {
    assert forall i :: 0 <= i < |ops| ==> begun[i] == ops[i];
  }

  // ---- whom a release loop serves ----

  /** The parker of a blocked operation can be locked, where cancellers may lock those of the given ones first. */
  predicate Lockable(ops: seq<Op>, w: Id, races: set<Id>) {
    w < |ops| && ops[w].parker.Waiting? && w !in races
  }

  /** What is left of the operations and the list when the loop finds an operation that it can serve, or the end. */
  function Swept(ops: seq<Op>, list: seq<Id>, races: set<Id>): (seq<Op>, seq<Id>)
    decreases |list|
  {
    if list == [] || list[0] >= |ops| || Lockable(ops, list[0], races) then (ops, list)
    else Swept(Parked(ops, list[0], Cancelled), list[1..], races)
  }

  lemma NothingSwept(ops: seq<Op>, races: set<Id>)
    ensures Swept(ops, [], races) == (ops, [])
  {
  }

  /** The result of a sweep that stops at position k. */
  predicate StopsAt(ops: seq<Op>, list: seq<Id>, races: set<Id>, swept: seq<Op>, rest: seq<Id>, k: nat) {
    && k <= |list| && rest == list[k..] && |swept| == |ops|
    && (forall j :: 0 <= j < k ==> !Lockable(ops, list[j], races))
    && (k < |list| ==> Lockable(ops, list[k], races))
    && (forall i :: 0 <= i < |ops| ==> swept[i] == if i in list[..k] then ops[i].(parker := Cancelled) else ops[i])
  }

  /** It is the first one that can be locked; those before it, and no others, were cancelled. */
  lemma {:induction false} SweptFindsFirst(ops: seq<Op>, list: seq<Id>, races: set<Id>) returns (k: nat)
    requires Distinct(list) && forall x :: 0 <= x < |list| ==> list[x] < |ops|
    ensures StopsAt(ops, list, races, Swept(ops, list, races).0, Swept(ops, list, races).1, k)
    decreases |list|
  {
    k := 0;
    if list != [] && !Lockable(ops, list[0], races) {
      var ops' := Parked(ops, list[0], Cancelled);
      hide StopsAt;
      k := SweptFindsFirst(ops', list[1..], races);
      StopsLater(ops, list, races, Swept(ops, list, races).0, Swept(ops, list, races).1, k);
      k := k + 1;
    }
  }

  lemma StopsLater(ops: seq<Op>, list: seq<Id>, races: set<Id>, swept: seq<Op>, rest: seq<Id>, k: nat)
    requires Distinct(list) && list != [] && list[0] < |ops| && !Lockable(ops, list[0], races)
    requires StopsAt(Parked(ops, list[0], Cancelled), list[1..], races, swept, rest, k)
    ensures StopsAt(ops, list, races, swept, rest, k + 1)
  {
    var ops', tail := Parked(ops, list[0], Cancelled), list[1..];
    forall j | 0 < j < |list| ensures list[j] == tail[j - 1] && Lockable(ops', list[j], races) == Lockable(ops, list[j], races) {
    }
    hide Lockable, Distinct;
    forall i | 0 <= i < |ops| ensures i in list[..k + 1] <==> i == list[0] || i in tail[..k] {
      assert list[..k + 1] == [list[0]] + tail[..k];
    }
  }

  /** The first entry of the list whose parker can be locked. */
  predicate FirstLockable(ops: seq<Op>, list: seq<Id>, races: set<Id>, k: nat) {
    k < |list| && Lockable(ops, list[k], races) && forall j :: 0 <= j < k ==> !Lockable(ops, list[j], races)
  }

  predicate NoneLockable(ops: seq<Op>, list: seq<Id>, races: set<Id>) {
    forall j :: 0 <= j < |list| ==> !Lockable(ops, list[j], races)
  }

  /** Of the first n operations, those before position k of the list were cancelled, and no other changed but the one at k. */
  predicate Skipped(ops: seq<Op>, n: nat, list: seq<Id>, k: nat, ops': seq<Op>) {
    && k <= |list| && n <= |ops| && n <= |ops'|
    && forall i :: 0 <= i < n && (k < |list| ==> i != list[k]) ==>
         ops'[i] == if i in list[..k] then ops[i].(parker := Cancelled) else ops[i]
  }

  predicate SameUpto(n: nat, ops: seq<Op>, ops': seq<Op>) {
    n <= |ops| && n <= |ops'| && forall i :: 0 <= i < n ==> ops[i] == ops'[i]
  }

  /** The item of a new add goes to the first blocked take that can be locked, and to the end of the queue if there is none. */
  ghost predicate Handed(ops: seq<Op>, n: nat, list: seq<Id>, order: seq<Id>, q: seq<Item>, races: set<Id>, x: Item,
                   ops': seq<Op>, list': seq<Id>, order': seq<Id>, q': seq<Item>)
  {
    && (forall k: nat :: FirstLockable(ops, list, races, k) ==>
          && list[k] < |ops| && list[k] < |ops'| && Skipped(ops, n, list, k, ops')
          && ops'[list[k]] == ops[list[k]].(item := x, done := true, parker := Released(Success))
          && list' == list[k + 1..] && order' == order + [list[k]] && q' == q)
    && (NoneLockable(ops, list, races) ==>
          Skipped(ops, n, list, |list|, ops') && list' == [] && order' == order && q' == q + [x])
  }

  /** The slot that a take has freed goes to the first blocked add that can be locked, and stays free if there is none. */
  ghost predicate Refilled(ops: seq<Op>, n: nat, list: seq<Id>, q: seq<Item>, races: set<Id>, ops': seq<Op>, list': seq<Id>, q': seq<Item>) {
    && (forall k: nat :: FirstLockable(ops, list, races, k) ==>
          && list[k] < |ops| && list[k] < |ops'| && Skipped(ops, n, list, k, ops')
          && ops'[list[k]] == ops[list[k]].(done := true, parker := Released(Success))
          && list' == list[k + 1..] && q' == q + [ops[list[k]].item])
    && (NoneLockable(ops, list, races) ==> Skipped(ops, n, list, |list|, ops') && list' == [] && q' == q)
  }

  lemma ListedInRange(ops: seq<Op>, list: seq<Id>, k: Kind, order: seq<Id>, lifo: bool)
    requires Books(ops, list, k, order, lifo)
    ensures Distinct(list) && forall x :: 0 <= x < |list| ==> list[x] < |ops|
  {
  }

  /** What is swept, said without the loop. */
  lemma SweptIs(ops: seq<Op>, list: seq<Id>, races: set<Id>, k: nat)
    requires Distinct(list) && forall x :: 0 <= x < |list| ==> list[x] < |ops|
    requires FirstLockable(ops, list, races, k) || (k == |list| && NoneLockable(ops, list, races))
    ensures k <= |list| && (FirstLockable(ops, list, races, k) ==> k < |list|)
    ensures Swept(ops, list, races).1 == list[k..] && |Swept(ops, list, races).0| == |ops|
    ensures Skipped(ops, |ops|, list, k, Swept(ops, list, races).0)
    ensures k < |list| ==> Swept(ops, list, races).0[list[k]] == ops[list[k]]
  {
    hide Swept, Lockable;
    var k' := SweptFindsFirst(ops, list, races);
    assert k' == k;
    assert k < |list| ==> list[k] !in list[..k];
  }

  /** What the loop over blocked takes does, said without the loop. */
  lemma GivenIsHanded(ops: seq<Op>, n: nat, list: seq<Id>, order: seq<Id>, q: seq<Item>, races: set<Id>, x: Item,
                      ops': seq<Op>, list': seq<Id>, order': seq<Id>, q': seq<Item>)
    requires n <= |ops| <= |ops'| && Distinct(list) && forall i :: 0 <= i < |list| ==> list[i] < n
    requires var (swept, rest) := Swept(ops, list, races);
      if rest == [] then SameUpto(n, ops', swept) && list' == [] && order' == order && q' == q + [x]
      else
        && rest[0] < |swept| && SameUpto(n, ops', Given(swept, rest[0], x, Released(Success)))
        && list' == rest[1..] && order' == order + [rest[0]] && q' == q
    ensures Handed(ops, n, list, order, q, races, x, ops', list', order', q')
  {
    hide Swept, Lockable, FirstLockable, NoneLockable, Distinct;
    forall k: nat | FirstLockable(ops, list, races, k)
      ensures k < |list| && Skipped(ops, n, list, k, ops') && q' == q
      ensures ops'[list[k]] == ops[list[k]].(item := x, done := true, parker := Released(Success))
      ensures list' == list[k + 1..] && order' == order + [list[k]]
    {
      SweptIs(ops, list, races, k);
    }
    if NoneLockable(ops, list, races) {
      SweptIs(ops, list, races, |list|);
    }
  }

  /** What the loop over blocked adds does, said without the loop. */
  lemma AcceptedIsRefilled(ops: seq<Op>, n: nat, list: seq<Id>, q: seq<Item>, races: set<Id>, ops': seq<Op>, list': seq<Id>, q': seq<Item>)
    requires n <= |ops| <= |ops'| && Distinct(list) && forall i :: 0 <= i < |list| ==> list[i] < n
    requires var (swept, rest) := Swept(ops, list, races);
      if rest == [] then SameUpto(n, ops', swept) && list' == [] && q' == q
      else
        && rest[0] < |swept| && SameUpto(n, ops', Accepted(swept, rest[0], Released(Success)))
        && list' == rest[1..] && q' == q + [swept[rest[0]].item]
    ensures Refilled(ops, n, list, q, races, ops', list', q')
  {
    hide Swept, Lockable, FirstLockable, NoneLockable, Distinct;
    forall k: nat | FirstLockable(ops, list, races, k)
      ensures k < |list| && Skipped(ops, n, list, k, ops')
      ensures ops'[list[k]] == ops[list[k]].(done := true, parker := Released(Success))
      ensures list' == list[k + 1..] && q' == q + [ops[list[k]].item]
    {
      SweptIs(ops, list, races, k);
    }
    if NoneLockable(ops, list, races) {
      SweptIs(ops, list, races, |list|);
    }
  }

  lemma RefilledOfSame(ops: seq<Op>, was: seq<Op>, n: nat, list: seq<Id>, q: seq<Item>, races: set<Id>,
                       ops': seq<Op>, list': seq<Id>, q': seq<Item>)
    requires |ops| == |was| && SameUpto(n, ops, was) && forall x :: 0 <= x < |list| ==> list[x] < n
    requires Refilled(was, n, list, q, races, ops', list', q')
    ensures Refilled(ops, n, list, q, races, ops', list', q')
  {
    assert forall x :: 0 <= x < |list| ==> Lockable(ops, list[x], races) == Lockable(was, list[x], races);
    assert NoneLockable(ops, list, races) <==> NoneLockable(was, list, races);
    forall k: nat ensures FirstLockable(ops, list, races, k) <==> FirstLockable(was, list, races, k) {
    }
  }

  /** The operations that there were before the running one began. */
  lemma FirstOfEarlier(ops: seq<Op>, begun: seq<Op>, list: seq<Id>, races: set<Id>)
    requires |ops| <= |begun| && begun[..|ops|] == ops && forall x :: 0 <= x < |list| ==> list[x] < |ops|
    ensures forall k: nat :: FirstLockable(ops, list, races, k) <==> FirstLockable(begun, list, races, k)
    ensures NoneLockable(ops, list, races) <==> NoneLockable(begun, list, races)
    ensures forall k: nat, ops': seq<Op> :: Skipped(ops, |ops|, list, k, ops') <==> Skipped(begun, |ops|, list, k, ops')
  {
    assert forall i :: 0 <= i < |ops| ==> begun[i] == ops[i];
    assert forall x :: 0 <= x < |list| ==> Lockable(ops, list[x], races) == Lockable(begun, list[x], races);
  }

  // ---- disposal ----

  /** The parker of a blocked operation after the queue was disposed. */
  function ShutParker(w: Id, p: Parker, races: set<Id>): (r: Parker)
    ensures r.Cancelled? || r == Released(Disposed)
  {
    if p.Waiting? && w !in races then Released(Disposed) else Cancelled
  }

  function Shut(ops: seq<Op>, list: seq<Id>, races: set<Id>): seq<Op>
    decreases |list|
  {
    if list == [] || list[0] >= |ops| then ops
    else Shut(Parked(ops, list[0], ShutParker(list[0], ops[list[0]].parker, races)), list[1..], races)
  }

  /** Disposal releases the blocked operations, each of them once, and no others. */
  lemma {:induction false} ShutReleasesAll(ops: seq<Op>, list: seq<Id>, races: set<Id>, i: Id)
    requires i < |ops| && Distinct(list) && forall x :: 0 <= x < |list| ==> list[x] < |ops|
    ensures |Shut(ops, list, races)| == |ops|
    ensures Shut(ops, list, races)[i] == if i in list then ops[i].(parker := ShutParker(i, ops[i].parker, races)) else ops[i]
    decreases |list|
  {
    if list != [] {
      var w := list[0];
      ShutReleasesAll(Parked(ops, w, ShutParker(w, ops[w].parker, races)), list[1..], races, i);
      assert i in list <==> i == w || i in list[1..];
    }
  }

  // ---- whole runs ----

  /**
   Exactly once and first in, first out. When the items added are the items got followed by
   those left, the i-th delivery is the i-th item added, and it goes to a take of its own.
   */
  lemma DeliveredOnceInOrder(ops: seq<Op>, list: seq<Id>, order: seq<Id>, lifo: bool, unread: seq<Item>, i: nat)
    requires Ordered(ops, list, order, lifo) && Added(ops) == Got(ops, order) + unread
    ensures |Added(ops)| == |order| + |unread|
    ensures i < |order| ==> order[i] < |ops| && HasTaken(ops, order[i]) && ops[order[i]].item == Added(ops)[i]
    ensures !lifo ==> Increasing(order)
  {
    GotLength(ops, order);
    TakenInRange(ops, list, order, lifo);
    if i < |order| {
      GotAt(ops, order, i);
      assert order[i] in order;
    }
  }
}
