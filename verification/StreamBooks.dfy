/**
 The operations that a stream queue has seen, in the order in which they took its lock,
 and the wait list of those that are blocked in it.
 */
module StreamBooks {

  newtype Byte = x: int | 0 <= x < 256

  datatype Kind = Write | Read
  datatype Status = Success | Disposed | TimedOut | Alerted

  /** The parker of an operation: not in use, parked, locked by a canceller, or locked and released by another thread. */
  datatype Parker = Idle | Waiting | Cancelled | Released(status: Status)

  /**
   A write or a read of size bytes, with the bytes it has moved so far. A write takes them
   from its source, in order.
   */
  datatype Op = Op(kind: Kind, source: seq<Byte>, size: nat, done: seq<Byte>, parker: Parker)

  type Id = nat

  function Remaining(op: Op): int {
    op.size - |op.done|
  }

  /** The next n bytes of a write. */
  function NextBytes(op: Op, n: nat): seq<Byte>
    requires op.kind == Write && |op.done| + n <= |op.source|
  {
    op.source[|op.done|..|op.done| + n]
  }

  function Moved(op: Op, bs: seq<Byte>): Op {
    op.(done := op.done + bs)
  }

  predicate OpOk(op: Op) {
    && |op.done| <= op.size
    && (op.kind == Write ==> |op.source| == op.size && op.done == op.source[..|op.done|])
    && (op.parker == Released(Success) ==> |op.done| == op.size)
  }

  /** The bytes that all operations of a kind moved, operation by operation. */
  function All(ops: seq<Op>, k: Kind): seq<Byte> {
    if ops == [] then []
    else if ops[|ops| - 1].kind == k then All(ops[..|ops| - 1], k) + ops[|ops| - 1].done
    else All(ops[..|ops| - 1], k)
  }

  predicate Increasing(list: seq<Id>) {
    forall i, j :: 0 <= i < j < |list| ==> list[i] < list[j]
  }

  /** No operation of the same kind that came later has moved anything. */
  predicate NoneAfter(ops: seq<Op>, i: Id)
    requires i < |ops|
  {
    forall j :: i < j < |ops| && ops[j].kind == ops[i].kind ==> ops[j].done == []
  }

  /** An operation in the wait list: it is parked, or was cancelled just now, and has bytes to move. */
  predicate Blocked(ops: seq<Op>, w: Id, k: Kind) {
    && w < |ops|
    && (ops[w].parker.Waiting? || ops[w].parker.Cancelled?)
    && Remaining(ops[w]) > 0 && ops[w].kind == k
    && NoneAfter(ops, w)
  }

  /** The wait list holds operations of one kind in their order of arrival, and all that are parked. */
  predicate Listed(ops: seq<Op>, list: seq<Id>, k: Kind) {
    && Increasing(list)
    && (forall i :: 0 <= i < |list| ==> Blocked(ops, list[i], k))
    && (forall i :: 0 <= i < |ops| && ops[i].parker.Waiting? ==> i in list)
  }

  predicate AllOk(ops: seq<Op>) {
    forall i :: 0 <= i < |ops| ==> OpOk(ops[i])
  }

  function Those(list: seq<Id>): set<Id> {
    set i | i in list
  }

  /** From one state to a later one, operations are only added, and only the given ones move bytes or are released. */
  predicate Grown(ops: seq<Op>, some: set<Id>, ops': seq<Op>) {
    && |ops| <= |ops'|
    && (forall i :: 0 <= i < |ops| ==> ops'[i] == ops[i].(done := ops'[i].done, parker := ops'[i].parker) && ops[i].done <= ops'[i].done)
    && (forall i :: 0 <= i < |ops| && i !in some ==> ops'[i] == ops[i])
  }

  lemma GrownOn(ops: seq<Op>, some: set<Id>, ops': seq<Op>, some': set<Id>, ops'': seq<Op>)
    requires Grown(ops, some, ops') && Grown(ops', some', ops'') && some' <= some
    ensures Grown(ops, some, ops'')
  {
  }

  lemma GrownNot(ops: seq<Op>, some: set<Id>)
    ensures Grown(ops, some, ops)
  {
  }

  /**
   How the parkers of the first n operations may change when blocked ones are served: an
   operation that leaves the list is cancelled if a canceller has locked its parker and
   released with success otherwise, and one that was locked before it was served moves
   nothing. The cancellers may have locked the parkers in the first set, have surely locked
   those in the second one, and those in the third one before these were looked at.
   */
  predicate Fair(ops: seq<Op>, n: nat, may: set<Id>, must: set<Id>, early: set<Id>, ops': seq<Op>) {
    && n <= |ops| <= |ops'|
    && forall i :: 0 <= i < n ==>
         var p, p' := ops[i].parker, ops'[i].parker;
         && (p' == p || (p.Waiting? && ((p'.Cancelled? && i in may) || (p' == Released(Success) && i !in must))))
         && (p.Cancelled? || i in early ==> ops'[i].done == ops[i].done)
  }

  lemma FairNot(ops: seq<Op>, n: nat, may: set<Id>, must: set<Id>, early: set<Id>)
    requires n <= |ops|
    ensures Fair(ops, n, may, must, early, ops)
  {
  }

  lemma FairOn(ops: seq<Op>, n: nat, may: set<Id>, must: set<Id>, early: set<Id>, ops': seq<Op>, ops'': seq<Op>)
    requires Fair(ops, n, may, must, early, ops') && Fair(ops', n, may, must, early, ops'')
    ensures Fair(ops, n, may, must, early, ops'')
  {
  }

  /** The sets may say less. */
  lemma FairLess(ops: seq<Op>, n: nat, may: set<Id>, must: set<Id>, early: set<Id>, ops': seq<Op>,
                 may': set<Id>, must': set<Id>, early': set<Id>)
    requires Fair(ops, n, may, must, early, ops') && may <= may' && must' <= must && early' <= early
    ensures Fair(ops, n, may', must', early', ops')
  {
  }

  lemma FairOfFirst(ops: seq<Op>, n: nat, m: nat, may: set<Id>, must: set<Id>, early: set<Id>, ops': seq<Op>)
    requires m <= n && Fair(ops, n, may, must, early, ops')
    ensures Fair(ops, m, may, must, early, ops')
  {
  }

  lemma GrownIsFair(ops: seq<Op>, n: nat, may: set<Id>, must: set<Id>, early: set<Id>, ops': seq<Op>, id: Id)
    requires n <= id < |ops| && Grown(ops, {id}, ops')
    ensures Fair(ops, n, may, must, early, ops')
  {
  }

  /** Neither the start of the running operation nor its end concern those that there were. */
  lemma FairSince(ops: seq<Op>, may: set<Id>, must: set<Id>, early: set<Id>, begun: seq<Op>, ran: seq<Op>, ops': seq<Op>)
    requires |begun| == |ops| + 1 && begun[..|ops|] == ops && Fair(begun, |ops|, may, must, early, ran)
    requires |ops'| == |ran| && forall i :: 0 <= i < |ops| ==> ops'[i] == ran[i]
    ensures Fair(ops, |ops|, may, must, early, ops')
  {
    assert forall i :: 0 <= i < |ops| ==> begun[i] == ops[i];
  }

  /** The running operation, which is not among the first n, changes alone. */
  lemma FairRun(ops: seq<Op>, n: nat, may: set<Id>, must: set<Id>, early: set<Id>, ops': seq<Op>)
    requires n <= |ops| <= |ops'| && forall i :: 0 <= i < n ==> ops'[i] == ops[i]
    ensures Fair(ops, n, may, must, early, ops')
  {
  }

  lemma OthersStay(ops: seq<Op>, some: set<Id>, ops': seq<Op>, i: Id)
    requires Grown(ops, some, ops') && i < |ops| && i !in some
    ensures i < |ops'| && ops'[i] == ops[i]
  {
  }

  lemma WriteFits(ops: seq<Op>, i: Id, n: nat)
    requires AllOk(ops) && i < |ops| && ops[i].kind == Write && n <= Remaining(ops[i])
    ensures |ops[i].done| + n <= |ops[i].source| && Fitting(ops[i], NextBytes(ops[i], n)) && |NextBytes(ops[i], n)| == n
  {
    assert OpOk(ops[i]);
  }

  lemma NoneNegative(ops: seq<Op>, i: Id)
    requires AllOk(ops) && i < |ops|
    ensures Remaining(ops[i]) >= 0
  {
    assert OpOk(ops[i]);
  }

  lemma ListShrinks(list: seq<Id>)
    requires list != []
    ensures list[0] in Those(list) && Those(list[1..]) <= Those(list)
  {
  }

  lemma IdleIsNotListed(ops: seq<Op>, list: seq<Id>, k: Kind, i: Id)
    requires Listed(ops, list, k) && i < |ops| && ops[i].parker == Idle
    ensures i !in list && i !in Those(list)
  {
  }

  lemma ReadFits(ops: seq<Op>, i: Id, bs: seq<Byte>)
    requires i < |ops| && ops[i].kind == Read && |bs| <= Remaining(ops[i])
    ensures Fitting(ops[i], bs)
  {
  }

  lemma NewIsOk(ops: seq<Op>, op: Op)
    requires AllOk(ops) && OpOk(op)
    ensures AllOk(ops + [op])
  {
  }

  lemma ParkerIsOk(ops: seq<Op>, i: Id, p: Parker)
    requires AllOk(ops) && i < |ops| && p != Released(Success)
    ensures AllOk(ops[i := ops[i].(parker := p)])
  {
    assert OpOk(ops[i]);
  }

  /** The running operation is none of those there were. */
  lemma OnlyRunnerNew(ops: seq<Op>, some: set<Id>, begun: seq<Op>, ran: seq<Op>, ops': seq<Op>)
    requires |begun| == |ops| + 1 && begun[..|ops|] == ops
    requires Grown(begun, some + {|ops|}, ran)
    requires |ops'| == |ran| && forall i :: 0 <= i < |ops| ==> ops'[i] == ran[i]
    ensures Grown(ops, some, ops')
    ensures |ran| > |ops| && ran[|ops|] == begun[|ops|].(done := ran[|ops|].done, parker := ran[|ops|].parker)
  {
    assert forall i :: 0 <= i < |ops| ==> begun[i] == ops[i];
  }

  // ---- the stream ----

  /** Bytes that an operation moves go to the end of the stream if no later one has moved any. */
  lemma {:induction false} MoveAppends(ops: seq<Op>, i: Id, bs: seq<Byte>)
    requires i < |ops| && NoneAfter(ops, i)
    ensures All(ops[i := Moved(ops[i], bs)], ops[i].kind) == All(ops, ops[i].kind) + bs
  {
    var n := |ops| - 1;
    var ops' := ops[i := Moved(ops[i], bs)];
    var k := ops[i].kind;
    if i == n {
      assert ops'[..n] == ops[..n];
      assert All(ops', k) == All(ops[..n], k) + (ops[n].done + bs);
    } else {
      assert ops'[..n] == ops[..n][i := Moved(ops[i], bs)];
      assert NoneAfter(ops[..n], i);
      MoveAppends(ops[..n], i, bs);
      assert ops'[n] == ops[n];
      if ops[n].kind == k {
        assert ops[n].done == [];
      }
    }
  }

  /** What an operation moves, and its parker, do not concern the stream of the other kind. */
  lemma {:induction false} SameStream(ops: seq<Op>, i: Id, op: Op, k: Kind)
    requires i < |ops| && op.kind == ops[i].kind && (op.kind == k ==> op.done == ops[i].done)
    ensures All(ops[i := op], k) == All(ops, k)
  {
    var n := |ops| - 1;
    if i == n {
      assert ops[i := op][..n] == ops[..n];
    } else {
      assert ops[i := op][..n] == ops[..n][i := op];
      SameStream(ops[..n], i, op, k);
    }
  }

  lemma NewMovesNothing(ops: seq<Op>, op: Op, k: Kind)
    requires op.done == []
    ensures All(ops + [op], k) == All(ops, k)
  {
    assert (ops + [op])[..|ops|] == ops;
  }

  lemma ParkersMoveNothing(ops: seq<Op>, i: Id, p: Parker)
    requires i < |ops|
    ensures forall k :: All(ops[i := ops[i].(parker := p)], k) == All(ops, k)
  {
    forall k ensures All(ops[i := ops[i].(parker := p)], k) == All(ops, k) {
      SameStream(ops, i, ops[i].(parker := p), k);
    }
  }

  /** An operation moves bytes to or from the ring. */
  function MovedAt(ops: seq<Op>, i: Id, bs: seq<Byte>): seq<Op>
    requires i < |ops|
  {
    ops[i := Moved(ops[i], bs)]
  }

  lemma MoveOnlyOwn(ops: seq<Op>, i: Id, bs: seq<Byte>)
    requires i < |ops| && NoneAfter(ops, i)
    ensures All(MovedAt(ops, i, bs), ops[i].kind) == All(ops, ops[i].kind) + bs
    ensures forall k :: k != ops[i].kind ==> All(MovedAt(ops, i, bs), k) == All(ops, k)
  {
    MoveAppends(ops, i, bs);
    forall k | k != ops[i].kind ensures All(MovedAt(ops, i, bs), k) == All(ops, k) {
      SameStream(ops, i, Moved(ops[i], bs), k);
    }
  }

  /** What each operation moved is one contiguous block of the stream of its kind. */
  lemma {:induction false} BlockIsContiguous(ops: seq<Op>, i: Id)
    requires i < |ops|
    ensures var from := |All(ops[..i], ops[i].kind)|;
      && from + |ops[i].done| <= |All(ops, ops[i].kind)|
      && All(ops, ops[i].kind)[from..from + |ops[i].done|] == ops[i].done
  {
    var n := |ops| - 1;
    var from := |All(ops[..i], ops[i].kind)|;
    if i == n {
      assert All(ops, ops[i].kind)[from..] == ops[i].done;
    } else {
      BlockIsContiguous(ops[..n], i);
      assert ops[..n][..i] == ops[..i];
      var m := |All(ops[..n], ops[i].kind)|;
      assert All(ops, ops[i].kind)[..m] == All(ops[..n], ops[i].kind);
      assert All(ops, ops[i].kind)[..m][from..from + |ops[i].done|] == ops[i].done;
    }
  }

  /**
   Whole-run order. When the bytes written are the bytes read followed by those not yet
   read, what a write moved is a prefix of its buffer and one block of the stream, and what
   a read got is one block of the same stream.
   */
  lemma StreamOrder(ops: seq<Op>, unread: seq<Byte>, w: Id, r: Id)
    requires AllOk(ops) && All(ops, Write) == All(ops, Read) + unread
    requires w < |ops| && ops[w].kind == Write && r < |ops| && ops[r].kind == Read
    ensures var stream, at := All(ops, Write), |All(ops[..w], Write)|;
      && ops[w].done <= ops[w].source && at + |ops[w].done| <= |stream|
      && stream[at..at + |ops[w].done|] == ops[w].done
    ensures var stream, at := All(ops, Write), |All(ops[..r], Read)|;
      at + |ops[r].done| <= |stream| && stream[at..at + |ops[r].done|] == ops[r].done
  {
    assert OpOk(ops[w]);
    BlockIsContiguous(ops, w);
    BlockIsContiguous(ops, r);
    var all, at := All(ops, Read), |All(ops[..r], Read)|;
    assert (all + unread)[at..at + |ops[r].done|] == all[at..at + |ops[r].done|];
  }

  /** Writes enter the stream, and reads leave it, in the order in which they took the lock. */
  lemma {:induction false} BlocksInOrder(ops: seq<Op>, i: Id, j: Id)
    requires i < j < |ops| && ops[i].kind == ops[j].kind
    ensures |All(ops[..i], ops[i].kind)| + |ops[i].done| <= |All(ops[..j], ops[j].kind)|
  {
    assert ops[..i + 1][..i] == ops[..i];
    if i + 1 < j {
      LongerHasMore(ops, i + 1, j, ops[i].kind);
    }
  }

  lemma {:induction false} LongerHasMore(ops: seq<Op>, i: nat, j: nat, k: Kind)
    requires i <= j <= |ops|
    ensures |All(ops[..i], k)| <= |All(ops[..j], k)|
  {
    if i < j {
      assert ops[..j][..j - 1] == ops[..j - 1];
      LongerHasMore(ops, i, j - 1, k);
    }
  }

  // ---- the wait list ----

  /** An operation moves bytes but has some left, or is not in the list. */
  lemma MoveKeepsListed(ops: seq<Op>, list: seq<Id>, k: Kind, i: Id, bs: seq<Byte>)
    requires Listed(ops, list, k) && i < |ops|
    requires i in list ==> list[0] == i && |bs| < Remaining(ops[i])
    requires i !in list ==> ops[i].kind != k
    ensures Listed(ops[i := Moved(ops[i], bs)], list, k)
  {
    var ops' := ops[i := Moved(ops[i], bs)];
    forall x | 0 <= x < |list| ensures Blocked(ops', list[x], k) {
      assert Blocked(ops, list[x], k);
      forall j | list[x] < j < |ops'| && ops'[j].kind == ops'[list[x]].kind ensures ops'[j].done == [] {
        assert j != i;
      }
    }
  }

  /** The first operation completes and leaves the list. */
  lemma FrontCompletes(ops: seq<Op>, list: seq<Id>, k: Kind, bs: seq<Byte>, p: Parker)
    requires list != [] && Listed(ops, list, k) && !p.Waiting?
    ensures Listed(ops[list[0] := Moved(ops[list[0]], bs).(parker := p)], list[1..], k)
  {
    var f := list[0];
    var ops' := ops[f := Moved(ops[f], bs).(parker := p)];
    assert Blocked(ops, f, k);
    forall i | 0 <= i < |list[1..]| ensures Blocked(ops', list[1..][i], k) {
      assert Blocked(ops, list[i + 1], k) && list[i + 1] > f;
    }
    forall i | 0 <= i < |ops'| && ops'[i].parker.Waiting? ensures i in list[1..] {
      assert i in list && i != f;
    }
  }

  /** The state of the parker of a blocked operation that has moved its last byte. */
  function Finished(w: Id, races: set<Id>): (p: Parker)
    ensures !p.Waiting?
  {
    if w in races then Cancelled else Released(Success)
  }

  /** The wait list and the operations after the first blocked one was served, and left if it has completed. */
  function Served(ops: seq<Op>, list: seq<Id>, bs: seq<Byte>, races: set<Id>): seq<Op>
    requires list != [] && list[0] < |ops|
  {
    var f := list[0];
    if |bs| < Remaining(ops[f]) then MovedAt(ops, f, bs)
    else ops[f := Moved(ops[f], bs).(parker := Finished(f, races))]
  }

  function ListAfter(ops: seq<Op>, list: seq<Id>, n: nat): seq<Id>
    requires list != [] && list[0] < |ops|
  {
    if n < Remaining(ops[list[0]]) then list else list[1..]
  }

  /** The bytes that the first blocked operation may be served with. */
  predicate Fitting(op: Op, bs: seq<Byte>) {
    |bs| <= Remaining(op) && (op.kind == Write ==> |op.done| + |bs| <= |op.source| && bs == NextBytes(op, |bs|))
  }

  lemma FrontIsBlocked(ops: seq<Op>, list: seq<Id>, k: Kind)
    requires list != [] && Listed(ops, list, k)
    ensures Blocked(ops, list[0], k)
  {
  }

  lemma LastHasNoneAfter(ops: seq<Op>)
    requires ops != []
    ensures NoneAfter(ops, |ops| - 1)
  {
  }

  lemma MovedIsOk(op: Op, bs: seq<Byte>)
    requires OpOk(op) && Fitting(op, bs)
    ensures OpOk(Moved(op, bs)) && Remaining(Moved(op, bs)) == Remaining(op) - |bs| && op.done <= Moved(op, bs).done
  {
  }

  lemma ReleasedIsOk(op: Op, p: Parker)
    requires OpOk(op) && (p == Released(Success) ==> Remaining(op) == 0)
    ensures OpOk(op.(parker := p))
  {
  }

  /** Serving the first blocked operation keeps the books. */
  lemma ServedKeeps(ops: seq<Op>, list: seq<Id>, k: Kind, bs: seq<Byte>, races: set<Id>)
    requires list != [] && Listed(ops, list, k) && AllOk(ops)
    requires Fitting(ops[list[0]], bs)
    ensures var ops' := Served(ops, list, bs, races);
      Listed(ops', ListAfter(ops, list, |bs|), k) && AllOk(ops') && Grown(ops, {list[0]}, ops')
  {
    hide NextBytes, OpOk, Listed, Fitting;
    var f := list[0];
    FrontIsBlocked(ops, list, k);
    MovedIsOk(ops[f], bs);
    ReleasedIsOk(Moved(ops[f], bs), if |bs| < Remaining(ops[f]) then ops[f].parker else Finished(f, races));
    if |bs| < Remaining(ops[f]) {
      MoveKeepsListed(ops, list, k, f, bs);
    } else {
      FrontCompletes(ops, list, k, bs, Finished(f, races));
    }
  }

  lemma ServedAppends(ops: seq<Op>, list: seq<Id>, k: Kind, bs: seq<Byte>, races: set<Id>)
    requires list != [] && Listed(ops, list, k)
    ensures All(Served(ops, list, bs, races), k) == All(ops, k) + bs
    ensures forall k' :: k' != k ==> All(Served(ops, list, bs, races), k') == All(ops, k')
  {
    var f := list[0];
    assert Blocked(ops, f, k);
    MoveOnlyOwn(ops, f, bs);
    var ops1 := MovedAt(ops, f, bs);
    if |bs| >= Remaining(ops[f]) {
      ParkersMoveNothing(ops1, f, Finished(f, races));
      assert ops1[f := ops1[f].(parker := Finished(f, races))] == Served(ops, list, bs, races);
    }
  }

  /** Serving it is fair if its parker was found open. */
  lemma ServedIsFair(ops: seq<Op>, n: nat, list: seq<Id>, bs: seq<Byte>, early: set<Id>, races: set<Id>)
    requires n <= |ops| && list != [] && list[0] < |ops| && ops[list[0]].parker.Waiting? && list[0] !in early
    ensures Fair(ops, n, early + races, early + races, early, Served(ops, list, bs, races))
  {
  }

  /** Dropping it is fair if its parker was found locked. */
  lemma DroppedIsFair(ops: seq<Op>, n: nat, f: Id, early: set<Id>, races: set<Id>)
    requires n <= |ops| && f < |ops| && (ops[f].parker.Cancelled? || f in early)
    requires ops[f].parker.Waiting? || ops[f].parker.Cancelled?
    ensures Fair(ops, n, early + races, early + races, early, ops[f := ops[f].(parker := Cancelled)])
  {
  }

  /** Dropping the first blocked operation keeps the books. */
  lemma DropKeeps(ops: seq<Op>, list: seq<Id>, k: Kind, p: Parker)
    requires list != [] && Listed(ops, list, k) && AllOk(ops) && !p.Waiting? && p != Released(Success)
    ensures var ops' := ops[list[0] := ops[list[0]].(parker := p)];
      && Listed(ops', list[1..], k) && AllOk(ops') && Grown(ops, {list[0]}, ops')
      && forall k' :: All(ops', k') == All(ops, k')
  {
    assert Blocked(ops, list[0], k);
    ParkersMoveNothing(ops, list[0], p);
  }

  /** The operation that runs moves bytes by itself. */
  lemma RunnerKeeps(ops: seq<Op>, list: seq<Id>, k: Kind, i: Id, bs: seq<Byte>)
    requires Listed(ops, list, k) && AllOk(ops) && i == |ops| - 1 && i !in list
    requires ops[i].kind != k || list == []
    requires ops[i].parker == Idle && Fitting(ops[i], bs)
    ensures var ops' := MovedAt(ops, i, bs);
      && Listed(ops', list, k) && AllOk(ops') && Grown(ops, {i}, ops')
      && All(ops', ops[i].kind) == All(ops, ops[i].kind) + bs
      && forall k' :: k' != ops[i].kind ==> All(ops', k') == All(ops, k')
  {
    hide NextBytes, OpOk, Listed, Fitting, All, NoneAfter;
    MovedIsOk(ops[i], bs);
    assert NoneAfter(ops, i) by {
      LastHasNoneAfter(ops);
    }
    if list == [] {
      EmptySuitsBoth(ops, k, if ops[i].kind == Write then Read else Write);
      MoveKeepsListed(ops, list, if ops[i].kind == Write then Read else Write, i, bs);
      EmptySuitsBoth(MovedAt(ops, i, bs), if ops[i].kind == Write then Read else Write, k);
    } else {
      MoveKeepsListed(ops, list, k, i, bs);
    }
    MoveOnlyOwn(ops, i, bs);
  }

  /** An operation is added at the end, as yet without a part in the wait list. */
  lemma NewKeepsListed(ops: seq<Op>, list: seq<Id>, k: Kind, op: Op)
    requires Listed(ops, list, k) && op.done == [] && !op.parker.Waiting?
    ensures Listed(ops + [op], list, k)
  {
    forall x | 0 <= x < |list| ensures Blocked(ops + [op], list[x], k) {
      assert Blocked(ops, list[x], k);
    }
  }

  /** The latest operation blocks. */
  lemma NewBlocks(ops: seq<Op>, list: seq<Id>, k: Kind)
    requires ops != [] && Listed(ops, list, k) && |ops| - 1 !in list
    requires Remaining(ops[|ops| - 1]) > 0 && ops[|ops| - 1].kind == k
    ensures Listed(ops[|ops| - 1 := ops[|ops| - 1].(parker := Waiting)], list + [|ops| - 1], k)
  {
    var n := |ops| - 1;
    var ops', list' := ops[n := ops[n].(parker := Waiting)], list + [n];
    forall x | 0 <= x < |list'| ensures Blocked(ops', list'[x], k) {
      if x < |list| {
        assert Blocked(ops, list[x], k);
        assert list'[x] < n && NoneAfter(ops, list'[x]);
      }
    }
    forall i | 0 <= i < |ops'| && ops'[i].parker.Waiting? ensures i in list' {
      if i == n {
        assert list'[|list|] == n;
      } else {
        assert i in list;
      }
    }
    forall i, j | 0 <= i < j < |list'| ensures list'[i] < list'[j] {
      assert Blocked(ops, list[i], k);
    }
  }

  /** An empty list suits either kind. */
  lemma EmptySuitsBoth(ops: seq<Op>, k: Kind, k': Kind)
    requires Listed(ops, [], k)
    ensures Listed(ops, [], k')
  {
  }

  lemma OthersRemain(list: seq<Id>, x: nat)
    requires Increasing(list) && x < |list|
    ensures forall i :: i in list[..x] + list[x + 1..] <==> i in list && i != list[x]
  {
    var list' := list[..x] + list[x + 1..];
    forall i | i in list && i != list[x] ensures i in list' {
      var y :| 0 <= y < |list| && list[y] == i;
      assert list'[if y < x then y else y - 1] == i;
    }
    forall i | i in list' ensures i in list && i != list[x] {
      var y :| 0 <= y < |list'| && list'[y] == i;
      assert list'[y] == list[if y < x then y else y + 1];
    }
  }

  /** A cancelled operation takes itself off the list. */
  lemma UnlinkKeeps(ops: seq<Op>, list: seq<Id>, k: Kind, x: nat)
    requires Listed(ops, list, k) && x < |list| && ops[list[x]].parker.Cancelled?
    ensures Listed(ops, list[..x] + list[x + 1..], k) && list[x] !in list[..x] + list[x + 1..]
  {
    var list' := list[..x] + list[x + 1..];
    forall y | 0 <= y < |list'| ensures Blocked(ops, list'[y], k) && list'[y] != list[x] {
      assert list'[y] == list[if y < x then y else y + 1];
    }
    forall i | 0 <= i < |ops| && ops[i].parker.Waiting? ensures i in list' {
      var y :| 0 <= y < |list| && list[y] == i;
      assert list'[if y < x then y else y - 1] == i;
    }
  }

  /** The parker of an operation that is not in the list goes out of use. */
  lemma ParkerIdle(ops: seq<Op>, list: seq<Id>, k: Kind, w: Id)
    requires Listed(ops, list, k) && w < |ops| && w !in list
    ensures Listed(ops[w := ops[w].(parker := Idle)], list, k)
  {
    forall x | 0 <= x < |list| ensures Blocked(ops[w := ops[w].(parker := Idle)], list[x], k) {
      assert Blocked(ops, list[x], k);
    }
  }

  lemma ReleasedIsFull(ops: seq<Op>, w: Id)
    requires AllOk(ops) && w < |ops| && ops[w].parker == Released(Success)
    ensures |ops[w].done| == ops[w].size
  {
    assert OpOk(ops[w]);
  }

  // ---- disposal ----

  /** The parker of a blocked operation after the queue was disposed. */
  function ShutParker(w: Id, p: Parker, races: set<Id>): Parker {
    if p.Waiting? && w !in races then Released(Disposed) else Cancelled
  }

  function Shut(ops: seq<Op>, list: seq<Id>, races: set<Id>): seq<Op>
    decreases |list|
  {
    if list == [] || list[0] >= |ops| then ops
    else
      var w := list[0];
      Shut(ops[w := ops[w].(parker := ShutParker(w, ops[w].parker, races))], list[1..], races)
  }

  /** Disposal releases the blocked operations, each of them once, and no others. */
  lemma {:induction false} ShutReleasesAll(ops: seq<Op>, list: seq<Id>, races: set<Id>, i: Id)
    requires i < |ops| && Increasing(list) && forall x :: 0 <= x < |list| ==> list[x] < |ops|
    ensures |Shut(ops, list, races)| == |ops|
    ensures Shut(ops, list, races)[i] == if i in list then ops[i].(parker := ShutParker(i, ops[i].parker, races)) else ops[i]
    decreases |list|
  {
    if list != [] {
      var w := list[0];
      ShutReleasesAll(ops[w := ops[w].(parker := ShutParker(w, ops[w].parker, races))], list[1..], races, i);
      assert i in list <==> i == w || i in list[1..];
    }
  }
}
