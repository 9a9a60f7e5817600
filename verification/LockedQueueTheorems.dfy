/**
 The promises of the locked queue and of its two clients, over every schedule.
 */
module LockedQueueTheorems {
  import opened LockClients
  import opened LockedQueue
  import opened LockedQueueInv
  import opened LockedQueueLedger
  import opened LockedQueueWaiters
  import opened LockedQueueOwed
  import opened LockedQueueSafety

  /** A thread that is outside every operation, or blocked on a parker that nobody has unparked. */
  predicate AtRest(th: Thread) {
    th.pc.Idle? || Stuck(th) || (th.pc == Wait(Park) && (th.parker.Open? || th.parker.Granting?))
  }

  predicate Quiescent(s: State) {
    forall x :: 0 <= x < |s.threads| ==> AtRest(s.threads[x])
  }

  lemma {:induction false} NobodyWaking(ths: seq<Thread>, x: Tid)
    requires forall y :: 0 <= y < |ths| ==> AtRest(ths[y])
    ensures Waking(ths, x) == 0
  {
    if ths != [] {
      NobodyWaking(ths[1..], x);
    }
  }

  /** A free lock has everybody's block in the list, and nobody waits for it alone. */
  lemma RestingThreads(c: Client, s: State)
    requires Inv(c, s) && WaitersOk(s) && Quiescent(s)
    ensures s.lock.Free? && s.queue == s.head
    ensures forall x :: 0 <= x < |s.threads| ==>
              s.threads[x].pc.Idle? || (s.threads[x].pc == Wait(Park) && s.threads[x].parker.Open? && s.threads[x].linked)
  {
    assert forall x :: 0 <= x < |s.threads| ==> AtRest(s.threads[x]) && !s.threads[x].pc.Hold?;
    assert Holder(s) == Idle;
    forall x | 0 <= x < |s.threads|
      ensures s.threads[x].pc.Idle? || (s.threads[x].pc == Wait(Park) && s.threads[x].parker.Open? && s.threads[x].linked)
    {
      NobodyWaking(s.threads, x);
      assert Kept(s, x) + Waking(s.threads, x) == if Stuck(s.threads[x]) then 1 else 0;
      assert AtRest(s.threads[x]);
    }
  }

  /** ExitRead at the maximum: it makes room for a reader, and does not look at the queue. */
  predicate LeavesFull(c: Client, s: State, t: Tid, a: Action) {
    && c.ReadWrite? && a == StartRelease(LOCK_READ) && s.word == MAX_READERS
    && t < |s.threads| && s.threads[t].pc.Idle? && s.threads[t].readers > 0
  }

  ghost predicate NeverLeavesFull(c: Client, n: nat, sched: Schedule) {
    forall i :: 0 <= i < |sched| ==> !LeavesFull(c, Exec(c, n, sched[..i]), sched[i].0, sched[i].1)
  }

  lemma LeavingIsRecorded(c: Client, s: State, t: Tid, a: Action)
    ensures Do(c, s, t, a).leftFull <==> s.leftFull || LeavesFull(c, s, t, a)
  {
    hide Advance;
  }

  lemma NeverLeavesSplit(c: Client, n: nat, sched: Schedule, k: nat)
    requires |sched| == k + 1
    ensures NeverLeavesFull(c, n, sched) <==>
      NeverLeavesFull(c, n, sched[..k]) && !LeavesFull(c, Exec(c, n, sched[..k]), sched[k].0, sched[k].1)
  {
    hide LeavesFull, Exec;
    assert forall i :: 0 <= i < k ==> sched[..k][..i] == sched[..i];
    if NeverLeavesFull(c, n, sched) {
      assert !LeavesFull(c, Exec(c, n, sched[..k]), sched[k].0, sched[k].1);
    }
    if NeverLeavesFull(c, n, sched[..k]) {
      forall i | 0 <= i < k ensures !LeavesFull(c, Exec(c, n, sched[..i]), sched[i].0, sched[i].1) {
        assert !LeavesFull(c, Exec(c, n, sched[..k][..i]), sched[..k][i].0, sched[..k][i].1);
      }
    }
  }

  lemma {:induction false} LeftFullIff(c: Client, n: nat, sched: Schedule)
    ensures Exec(c, n, sched).leftFull <==> !NeverLeavesFull(c, n, sched)
  {
    hide LeavesFull, Do;
    if sched != [] {
      var k := |sched| - 1;
      LeftFullIff(c, n, sched[..k]);
      LeavingIsRecorded(c, Exec(c, n, sched[..k]), sched[k].0, sched[k].1);
      NeverLeavesSplit(c, n, sched, k);
    }
  }

  lemma RestingFront(c: Client, s: State)
    requires Inv(c, s) && DebtOk(c, s) && Quiescent(s) && s.lock.Free? && s.head != [] && !s.leftFull
    ensures s.head[0] < |s.threads| && !CanTake(c, s.word, s.threads[s.head[0]].req)
  {
    FrontValid(c, s);
    forall u: Tid ensures !Owes(s, u) {
      assert u < |s.threads| ==> AtRest(s.threads[u]);
    }
  }

  lemma RestingBlocks(c: Client, s: State, x: Tid)
    requires Inv(c, s) && s.queue == s.head && s.lock.Free? && x < |s.threads|
    requires s.threads[x].pc.Idle? || (s.threads[x].pc == Wait(Park) && s.threads[x].parker.Open? && s.threads[x].linked)
    ensures s.threads[x].pc == Wait(Park) <==> x in s.head
  {
    assert Holder(s) == Idle;
  }

  /** The one thing that may be left at rest: threads in the list, the first of which cannot be served. */
  ghost predicate NobodyStranded(c: Client, s: State) {
    && s.lock.Free?
    && (forall x :: 0 <= x < |s.threads| ==> s.threads[x].pc.Idle? || (s.threads[x].pc == Wait(Park) && s.threads[x].parker.Open?))
    && (forall x :: 0 <= x < |s.threads| ==> (s.threads[x].pc == Wait(Park) <==> x in s.head))
    && (s.head != [] ==> s.head[0] < |s.threads| && !CanTake(c, s.word, s.threads[s.head[0]].req))
  }

  lemma RestingIsNotStranded(c: Client, s: State)
    requires Inv(c, s) && WaitersOk(s) && DebtOk(c, s) && Quiescent(s) && !s.leftFull
    ensures NobodyStranded(c, s)
  {
    RestingThreads(c, s);
    forall x | 0 <= x < |s.threads| ensures s.threads[x].pc == Wait(Park) <==> x in s.head {
      RestingBlocks(c, s, x);
    }
    if s.head != [] {
      RestingFront(c, s);
    }
  }

  /**
   When nobody is in the middle of an operation, nobody waits who could be served: the lock
   is free, no canceller is left waiting for it, the threads in the list are exactly those
   that are blocked, and the request at the front cannot be granted.
   */
  lemma NoStrandedWaiter(c: Client, n: nat, sched: Schedule)
    requires Quiescent(Exec(c, n, sched)) && NeverLeavesFull(c, n, sched)
    ensures NobodyStranded(c, Exec(c, n, sched))
  {
    hide Exec;
    ExecSafe(c, n, sched);
    LeftFullIff(c, n, sched);
    RestingIsNotStranded(c, Exec(c, n, sched));
  }

  /** Of the two clients, only the read/write lock has a reader limit to run into. */
  lemma SemaphoreStrandsNobody(c: Client, n: nat, sched: Schedule)
    requires c.Semaphore? && Quiescent(Exec(c, n, sched))
    ensures NobodyStranded(c, Exec(c, n, sched))
  {
    NoStrandedWaiter(c, n, sched);
  }

  /** What ExitRead does to a state at rest when other readers stay. */
  lemma ExitReadAtRest(s: State, t: Tid)
    requires t < |s.threads| && s.threads[t].pc.Idle? && s.threads[t].readers > 0 && s.word != 1
    ensures var s' := Do(ReadWrite, s, t, StartRelease(LOCK_READ));
      && s'.lock == s.lock && s'.head == s.head && s'.word == s.word - 1
      && (forall x :: 0 <= x < |s.threads| ==>
            var th, th' := s.threads[x], s'.threads[x];
            th'.pc == th.pc && th'.parker == th.parker && th'.req == th.req && th'.linked == th.linked)
  {
  }

  /**
   From a state in which nobody is stranded, a reader that leaves others behind strands
   somebody exactly if a reader is at the front, which is there because the count is at
   its maximum.
   */
  lemma ExitReadStrandsIff(n: nat, sched: Schedule, t: Tid)
    requires var s := Exec(ReadWrite, n, sched);
      NobodyStranded(ReadWrite, s) && t < n && s.threads[t].pc.Idle? && s.threads[t].readers > 0 && s.word != 1
    ensures var s := Exec(ReadWrite, n, sched); var s' := Do(ReadWrite, s, t, StartRelease(LOCK_READ));
      && Quiescent(s')
      && (NobodyStranded(ReadWrite, s') <==> s.head == [] || FrontCode(s) != LOCK_READ)
      && (s.head != [] && FrontCode(s) == LOCK_READ ==> s.word == MAX_READERS)
  {
    hide Do, Exec, WaitersOk, DebtOk, Inv, Ledger;
    var s := Exec(ReadWrite, n, sched);
    ExecSafe(ReadWrite, n, sched);
    ExitReadAtRest(s, t);
    ReadersAreCounted(n, sched, t);
    if s.head != [] {
      FrontValid(ReadWrite, s);
    }
  }

  lemma ReadersAreCounted(n: nat, sched: Schedule, t: Tid)
    requires t < n && Exec(ReadWrite, n, sched).threads[t].readers > 0
    ensures 0 < Exec(ReadWrite, n, sched).word <= MAX_READERS
  {
    hide Exec;
    var s := Exec(ReadWrite, n, sched);
    ExecSafe(ReadWrite, n, sched);
    TotalBounds(s.threads, t, Readers);
    assert Temp(ReadWrite, Holder(s), Readers) >= 0;
  }

  /** At most one thread is between its locking and its unlocking compare-and-swap. */
  lemma MutualExclusion(c: Client, n: nat, sched: Schedule, t: Tid, u: Tid)
    requires t < n && u < n
    requires Exec(c, n, sched).threads[t].pc.Hold? && Exec(c, n, sched).threads[u].pc.Hold?
    ensures t == u
  {
    hide Exec;
    ExecSafe(c, n, sched);
  }

  /** The hint that releasers read without the lock is exact whenever the lock is free. */
  lemma HintIsExact(c: Client, n: nat, sched: Schedule)
    requires Exec(c, n, sched).lock.Free?
    ensures var s := Exec(c, n, sched);
      && (s.hint == 0 <==> s.head == [])
      && (s.head != [] ==> s.head[0] < n && s.hint == s.threads[s.head[0]].req && ValidRequest(c, s.hint))
  {
    hide Exec;
    ExecSafe(c, n, sched);
    if Exec(c, n, sched).head != [] {
      FrontValid(c, Exec(c, n, sched));
    }
  }

  /**
   The list, the holder's position and the reversed stack together are one queue of
   distinct blocks in the order of their arrival tickets, and the blocks in it are exactly
   those of the threads that wait, or have been cancelled and are not unlinked yet.
   */
  lemma QueueIsFifo(c: Client, n: nat, sched: Schedule)
    ensures var s := Exec(c, n, sched); var q := View(s);
      && q == s.queue
      && (forall i :: 0 <= i < |q| ==> q[i] < n)
      && (forall i, j :: 0 <= i < j < |q| ==> s.threads[q[i]].ticket < s.threads[q[j]].ticket)
      && (forall x :: 0 <= x < n ==> (x in q <==> Waiting(s.threads[x]) && !Detached(Holder(s), x)))
  {
    hide Exec;
    ExecSafe(c, n, sched);
    var s := Exec(c, n, sched);
    forall i | 0 <= i < |s.queue| ensures s.queue[i] < n {
      assert s.queue[i] in s.queue;
    }
  }

  lemma FrontIsOldest(s: State, y: Tid)
    requires Lined(s) && s.queue != [] && y in s.queue
    ensures s.queue[0] < |s.threads| && y < |s.threads|
    ensures y == s.queue[0] || s.threads[s.queue[0]].ticket < s.threads[y].ticket
  {
    var i :| 0 <= i < |s.queue| && s.queue[i] == y;
    assert s.queue[0] in s.queue;
  }

  lemma FrontIsNext(c: Client, s: State, t: Tid, r: int, k: After, y: Tid)
    requires Inv(c, s) && t < |s.threads| && s.threads[t].pc == Hold(RRemove(r), k)
    requires y < |s.threads| && Waiting(s.threads[y])
    ensures s.head != [] && s.queue != [] && s.queue[0] == s.head[0] && y in s.queue
  {
    hide ThreadsOk;
    assert Holder(s) == Hold(RRemove(r), k);
  }

  /** The block about to be served has the oldest ticket of all that wait. */
  lemma ServedInOrder(c: Client, n: nat, sched: Schedule, t: Tid, r: int, k: After, y: Tid)
    requires t < n && Exec(c, n, sched).threads[t].pc == Hold(RRemove(r), k)
    requires y < n && Waiting(Exec(c, n, sched).threads[y])
    ensures var s := Exec(c, n, sched);
      && s.head != [] && s.head[0] < n
      && (y == s.head[0] || s.threads[s.head[0]].ticket < s.threads[y].ticket)
  {
    hide Exec;
    ExecSafe(c, n, sched);
    FrontIsNext(c, Exec(c, n, sched), t, r, k, y);
    FrontIsOldest(Exec(c, n, sched), y);
  }

  /** A canceller that removes its own block under the lock finds it in the list, not on the stack. */
  lemma UnlinkFindsBlock(c: Client, n: nat, sched: Schedule, t: Tid)
    requires t < n && Exec(c, n, sched).threads[t].pc.Hold? && Exec(c, n, sched).threads[t].pc.h.KRemove?
    ensures Exec(c, n, sched).threads[t].linked <==> t in Exec(c, n, sched).head
  {
    hide Exec;
    ExecSafe(c, n, sched);
    var s := Exec(c, n, sched);
    assert s.owner == t && Holder(s) == s.threads[t].pc;
    if t in s.head {
      assert t in View(s);
    }
  }

  // ---- conservation ----

  /** Free permits, permits held and temporary grants add up to the initial count plus all releases. */
  lemma PermitsAreConserved(initial: int, maximum: int, n: nat, sched: Schedule)
    requires 0 <= initial <= maximum && maximum + MAX_REQUEST <= LONG_MAX
    ensures var c := Semaphore(initial, maximum); var s := Exec(c, n, sched);
      && s.word >= 0
      && s.word + Total(s.threads, Permits) + Temp(c, Holder(s), Permits) == initial + s.released
  {
    hide Exec;
    ExecSafe(Semaphore(initial, maximum), n, sched);
  }

  /** One writer and no reader, or only readers, counting temporary grants. */
  lemma WritersExcludeReaders(n: nat, sched: Schedule)
    ensures var s := Exec(ReadWrite, n, sched);
      var r, w := Outstanding(ReadWrite, s, Readers), Outstanding(ReadWrite, s, Writers);
      && (s.word == WRITING <==> w == 1) && (w == 1 ==> r == 0)
      && (s.word != WRITING ==> w == 0 && 0 <= s.word == r <= MAX_READERS)
  {
    hide Exec;
    ExecSafe(ReadWrite, n, sched);
  }

  /** While a thread holds the write lock, no other thread holds the lock in any mode. */
  lemma WriterIsAlone(n: nat, sched: Schedule, t: Tid, u: Tid)
    requires t < n && u < n && Exec(ReadWrite, n, sched).threads[t].writers > 0
    ensures var s := Exec(ReadWrite, n, sched);
      && s.word == WRITING && s.threads[t].writers == 1 && s.threads[u].readers == 0
      && (u != t ==> s.threads[u].writers == 0)
  {
    hide Exec;
    var s := Exec(ReadWrite, n, sched);
    ExecSafe(ReadWrite, n, sched);
    TotalBounds(s.threads, t, Writers);
    TotalBounds(s.threads, u, Readers);
    assert Temp(ReadWrite, Holder(s), Readers) >= 0 && Temp(ReadWrite, Holder(s), Writers) >= 0;
    if u != t {
      var rest := s.threads[t := s.threads[t].(writers := 0)];
      TotalUpdate(s.threads, t, rest[t], Writers);
      TotalBounds(rest, u, Writers);
    }
  }

  /** A waiter whose parker was cancelled is granted nothing: its call ends with what it held before. */
  lemma CancelledGetsNothing(c: Client, s: State, t: Tid, a: Action, x: Tid)
    requires Safe(c, s) && x < |s.threads| && Framed(s.threads[x].pc) && s.threads[x].parker.Cancelled?
    ensures var th, th' := s.threads[x], Do(c, s, t, a).threads[x];
      SameCoins(th, th') && th'.parker.Cancelled?
  {
    if t < |s.threads| {
      CancelledKept(c, s, t, a, x);
    }
  }

  predicate StillNothing(th: Thread, th': Thread) {
    SameCoins(th, th') && th'.parker.Cancelled?
  }

  lemma CancelledByTry(c: Client, s: State, t: Tid, a: TryPc, x: Tid)
    requires x < |s.threads| && t < |s.threads| && Framed(s.threads[x].pc) && s.threads[x].parker.Cancelled? && s.threads[t].pc == Try(a)
    ensures StillNothing(s.threads[x], TryStep(c, s, t, a).threads[x])
  {
  }

  lemma CancelledByCheck(c: Client, s: State, t: Tid, q: CheckPc, k: After, x: Tid)
    requires x < |s.threads| && t < |s.threads| && s.threads[x].parker.Cancelled?
    ensures StillNothing(s.threads[x], CheckStep(c, s, t, q, k).threads[x])
  {
  }

  lemma CancelledByWait(s: State, t: Tid, w: WaitPc, x: Tid)
    requires x < |s.threads| && t < |s.threads| && s.threads[x].parker.Cancelled?
    ensures StillNothing(s.threads[x], WaitStep(s, t, w).threads[x])
  {
  }

  lemma CancelledByLoop(c: Client, s: State, t: Tid, h: HoldPc, k: After, x: Tid)
    requires x < |s.threads| && t < |s.threads| && s.threads[x].parker.Cancelled? && Releasing(h)
    requires h.RWake? ==> h.x != x
    ensures StillNothing(s.threads[x], ReleaseStep(c, s, t, h, k).threads[x])
  {
  }

  lemma CancelledByUnlock(s: State, t: Tid, h: HoldPc, k: After, x: Tid)
    requires x < |s.threads| && t < |s.threads| && s.threads[x].parker.Cancelled? && Unlocking(h)
    ensures StillNothing(s.threads[x], UnlockStep(s, t, h, k).threads[x])
  {
  }

  lemma CancelledInside(c: Client, s: State, t: Tid, h: HoldPc, k: After, x: Tid)
    requires x < |s.threads| && t < |s.threads| && s.threads[x].parker.Cancelled?
    requires h.RWake? ==> h.x != x
    ensures StillNothing(s.threads[x], HoldStep(c, s, t, h, k).threads[x])
  {
    if Releasing(h) {
      CancelledByLoop(c, s, t, h, k, x);
    } else if Unlocking(h) {
      CancelledByUnlock(s, t, h, k, x);
    }
  }

  lemma CancelledKept(c: Client, s: State, t: Tid, a: Action, x: Tid)
    requires Owned(s) && HolderOk(s) && x < |s.threads| && t < |s.threads|
    requires Framed(s.threads[x].pc) && s.threads[x].parker.Cancelled?
    ensures StillNothing(s.threads[x], Do(c, s, t, a).threads[x])
  {
    match s.threads[t].pc
    case Idle =>
    case Try(q) => CancelledByTry(c, s, t, q, x);
    case Check(q, k) => CancelledByCheck(c, s, t, q, k, x);
    case Wait(w) => CancelledByWait(s, t, w, x);
    case Hold(h, k) => CancelledInside(c, s, t, h, k, x);
  }
}
