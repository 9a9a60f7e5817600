/**
 Threads that wait only for the queue's lock. Each of them has its block in exactly one
 place: on the stack, in the part of the stack being processed, on the private queue, or
 in the list that some former holder is unparking.
 */
module LockedQueueWaiters {
  import opened LockClients
  import opened LockedQueue
  import opened LockedQueueInv

  /** How often x occurs in the list. */
  function Times(list: seq<Tid>, x: Tid): nat {
    if list == [] then 0 else (if list[0] == x then 1 else 0) + Times(list[1..], x)
  }

  /** How many lock-only blocks of x are on the stack. */
  function LockOnlys(stack: seq<Block>, x: Tid): nat {
    if stack == [] then 0 else (if stack[0] == LockOnly(x) then 1 else 0) + LockOnlys(stack[1..], x)
  }

  function UnparkList(th: Thread): seq<Tid> {
    if th.pc.Check? && th.pc.q.Unpark? then th.pc.q.list else []
  }

  /** How often x occurs in the lists of all former holders. */
  function Waking(ths: seq<Thread>, x: Tid): nat {
    if ths == [] then 0 else Times(UnparkList(ths[0]), x) + Waking(ths[1..], x)
  }

  lemma {:induction false} WakingUpdate(ths: seq<Thread>, t: nat, th: Thread, x: Tid)
    requires t < |ths|
    ensures Waking(ths[t := th], x) + Times(UnparkList(ths[t]), x) == Waking(ths, x) + Times(UnparkList(th), x)
  {
    if t == 0 {
      assert ths[t := th][1..] == ths[1..];
    } else {
      assert ths[t := th][1..] == ths[1..][t - 1 := th];
      WakingUpdate(ths[1..], t - 1, th, x);
    }
  }

  lemma {:induction false} WakingSame(ths: seq<Thread>, ths': seq<Thread>, x: Tid)
    requires |ths| == |ths'| && forall y :: 0 <= y < |ths| ==> UnparkList(ths[y]) == UnparkList(ths'[y])
    ensures Waking(ths, x) == Waking(ths', x)
  {
    if ths != [] {
      WakingSame(ths[1..], ths'[1..], x);
    }
  }

  lemma {:induction false} WakingHas(ths: seq<Thread>, t: nat, x: Tid)
    requires t < |ths|
    ensures Times(UnparkList(ths[t]), x) <= Waking(ths, x)
  {
    if t > 0 {
      WakingHas(ths[1..], t - 1, x);
    }
  }

  /** The blocks that ProcessLockQueue has still to look at. */
  function Remaining(pc: Pc): seq<Block> {
    if pc.Hold? && pc.h.Proc? then pc.h.rem else []
  }

  /** The private queue, which a new holder resets before using it. */
  function Private(s: State): seq<Tid> {
    var pc := Holder(s);
    if !pc.Hold? || pc.h.EnqInsert? || pc.h.EnqZero? || pc.h.CZero? || pc.h.KZero? then [] else s.private
  }

  /** How many lock-only blocks of x are in the hands of the lock. */
  function Kept(s: State, x: Tid): nat {
    LockOnlys(Stack(s), x) + LockOnlys(Remaining(Holder(s)), x) + Times(Private(s), x)
  }

  predicate Stuck(th: Thread) {
    th.pc == Wait(KWait(false))
  }

  ghost predicate WaitersOk(s: State) {
    forall x: Tid :: Kept(s, x) + Waking(s.threads, x) == if x < |s.threads| && Stuck(s.threads[x]) then 1 else 0
  }

  /** The thread to be unparked is there and has not been unparked before. */
  lemma FirstIsStuck(s: State, t: Tid, list: seq<Tid>, k: After)
    requires WaitersOk(s) && t < |s.threads| && list != [] && s.threads[t].pc == Check(Unpark(list), k)
    ensures list[0] < |s.threads| && Stuck(s.threads[list[0]])
  {
    WakingHas(s.threads, t, list[0]);
    assert Kept(s, list[0]) + Waking(s.threads, list[0]) > 0;
  }

  /** A step that moves no lock-only block. */
  ghost predicate Still(s: State, s': State) {
    && |s'.threads| == |s.threads| && (forall x: Tid :: Kept(s', x) == Kept(s, x))
    && forall x :: 0 <= x < |s.threads| ==>
         UnparkList(s'.threads[x]) == UnparkList(s.threads[x]) && (Stuck(s'.threads[x]) <==> Stuck(s.threads[x]))
  }

  lemma StillKept(s: State, s': State)
    requires WaitersOk(s) && Still(s, s')
    ensures WaitersOk(s')
  {
    forall x: Tid ensures Kept(s', x) + Waking(s'.threads, x) == if x < |s'.threads| && Stuck(s'.threads[x]) then 1 else 0 {
      WakingSame(s.threads, s'.threads, x);
      assert Kept(s, x) + Waking(s.threads, x) == if x < |s.threads| && Stuck(s.threads[x]) then 1 else 0;
    }
  }

  lemma PushKept(s: State, t: Tid)
    requires Owned(s) && WaitersOk(s) && t < |s.threads| && s.lock.Busy? && s.threads[t].pc == Wait(KTry)
    ensures WaitersOk(PushLockOnly(s, t))
  {
    var s' := PushLockOnly(s, t);
    assert Holder(s') == Holder(s);
    assert ([LockOnly(t)] + s.lock.stack)[1..] == s.lock.stack;
    forall x: Tid ensures Kept(s', x) + Waking(s'.threads, x) == if x < |s'.threads| && Stuck(s'.threads[x]) then 1 else 0 {
      WakingSame(s.threads, s'.threads, x);
      assert Kept(s, x) + Waking(s.threads, x) == if x < |s.threads| && Stuck(s.threads[x]) then 1 else 0;
    }
  }

  lemma UnparkFirstKept(s: State, t: Tid, list: seq<Tid>, k: After)
    requires Owned(s) && WaitersOk(s) && t < |s.threads| && s.threads[t].pc == Check(Unpark(list), k)
    requires list != [] && list[0] < |s.threads| && Stuck(s.threads[list[0]])
    ensures WaitersOk(UnparkFirst(s, t, list, k))
  {
    var s' := UnparkFirst(s, t, list, k);
    assert Holder(s') == Holder(s);
    var ths := s.threads[list[0] := s.threads[list[0]].(pc := Wait(KWait(true)))];
    forall x: Tid ensures Kept(s', x) + Waking(s'.threads, x) == if x < |s'.threads| && Stuck(s'.threads[x]) then 1 else 0 {
      WakingSame(s.threads, ths, x);
      WakingUpdate(ths, t, s'.threads[t], x);
      assert Kept(s, x) + Waking(s.threads, x) == if x < |s.threads| && Stuck(s.threads[x]) then 1 else 0;
    }
  }

  lemma UnlockWaiters(s: State, t: Tid, fast: bool, force: bool, k: After)
    requires Owned(s) && (fast ==> s.private == []) && WaitersOk(s) && t < |s.threads| && s.lock == Busy([])
    requires s.threads[t].pc == Hold(UCas(fast, force), k)
    ensures WaitersOk(Unlock(s, t, if fast then [] else s.private, k))
  {
    var s' := Unlock(s, t, if fast then [] else s.private, k);
    assert Holder(s) == Hold(UCas(fast, force), k) && Holder(s') == Idle;
    forall x: Tid ensures Kept(s', x) + Waking(s'.threads, x) == if x < |s'.threads| && Stuck(s'.threads[x]) then 1 else 0 {
      WakingUpdate(s.threads, t, s'.threads[t], x);
      assert Kept(s, x) + Waking(s.threads, x) == if x < |s.threads| && Stuck(s.threads[x]) then 1 else 0;
    }
  }

  lemma ProcLockOnlyStill(s: State, t: Tid, rem: seq<Block>, pos: nat, changed: bool, force: bool, h: HoldPc, k: After)
    requires Owned(s) && t < |s.threads| && s.threads[t].pc == Hold(Proc(rem, pos, changed, force), k)
    requires rem != [] && rem[0].LockOnly? && ProcAfter(h, rem, pos)
    ensures Still(s, ProcLockOnly(s, t, rem[0].who, h, k))
  {
    var s' := ProcLockOnly(s, t, rem[0].who, h, k);
    assert Holder(s) == Hold(Proc(rem, pos, changed, force), k) && Holder(s') == Hold(h, k);
    assert Remaining(Holder(s')) == rem[1..];
    assert ([rem[0].who] + s.private)[1..] == s.private;
  }

  lemma ProcAcquireStill(s: State, s': State, t: Tid, rem: seq<Block>, pos: nat, h: HoldPc, h': HoldPc, k: After)
    requires Owned(s) && t < |s.threads| && s.threads[t].pc == Hold(h, k) && h.Proc? && h.rem == rem && h.pos == pos
    requires rem != [] && rem[0].Acquire? && ProcAfter(h', rem, pos)
    requires s'.lock == s.lock && s'.private == s.private && s'.owner == s.owner && |s'.threads| == |s.threads| && s'.threads[t].pc == Hold(h', k)
    requires forall x :: 0 <= x < |s.threads| && x != t ==> s'.threads[x].pc == s.threads[x].pc
    ensures Still(s, s')
  {
    assert Holder(s) == Hold(h, k) && Holder(s') == Hold(h', k);
    assert Remaining(Holder(s')) == rem[1..];
  }

  lemma DetachStill(s: State, t: Tid, force: bool, k: After)
    requires Owned(s) && t < |s.threads| && s.lock.Busy? && s.threads[t].pc == Hold(ULoop(force), k)
    ensures Still(s, DetachStack(s, t, force, k))
  {
    var s' := DetachStack(s, t, force, k);
    assert Holder(s) == Hold(ULoop(force), k) && Holder(s') == Hold(Proc(s.lock.stack, |s.head|, false, force), k);
  }

  /** A step of the holder that leaves the stack, the private queue and everybody's position alone. */
  lemma InsideStill(s: State, s': State, t: Tid)
    requires Owned(s) && t < |s.threads| && s.threads[t].pc.Hold? && |s'.threads| == |s.threads|
    requires s'.lock == s.lock && s'.owner == s.owner
    requires forall x :: 0 <= x < |s.threads| && x != t ==> s'.threads[x].pc == s.threads[x].pc
    requires Remaining(s.threads[t].pc) == [] && Remaining(s'.threads[t].pc) == [] && s'.threads[t].pc.Hold?
    requires Private(s) == Private(s')
    ensures Still(s, s')
  {
  }

  /** A step outside the lock by a thread that is neither unparking others nor waiting for the lock. */
  lemma OutsideStill(s: State, s': State, t: Tid)
    requires Owned(s) && t < |s.threads| && SameQueue(s, s') && OthersSame(s, s', t)
    requires !s.threads[t].pc.Hold? && !s'.threads[t].pc.Hold?
    requires UnparkList(s'.threads[t]) == UnparkList(s.threads[t]) && (Stuck(s'.threads[t]) <==> Stuck(s.threads[t]))
    ensures Still(s, s')
  {
    assert Holder(s') == Holder(s);
  }

  lemma TakeLockStill(s: State, s': State, t: Tid, k: After)
    requires Owned(s) && t < |s.threads| && s.lock.Free? && OthersSame(s, s', t) && s'.lock == Busy([]) && s'.owner == t
    requires s'.threads[t].pc == Hold(EnqInsert, k) || s'.threads[t].pc == Hold(CZero, k) || s'.threads[t].pc == Hold(KZero, k)
    requires UnparkList(s.threads[t]) == [] && !Stuck(s.threads[t])
    ensures Still(s, s')
  {
  }

  lemma ArriveBusyStill(s: State, t: Tid)
    requires Owned(s) && t < |s.threads| && s.lock.Busy? && s.threads[t].pc == Try(Enq)
    ensures Still(s, ArriveBusy(s, t))
  {
    assert Holder(ArriveBusy(s, t)) == Holder(s);
    assert ([Acquire(t)] + s.lock.stack)[1..] == s.lock.stack;
  }
}
