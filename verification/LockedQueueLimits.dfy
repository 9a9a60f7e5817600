/**
 Places where the code meets a promise only under a limit, with runs that show the limit is
 needed. When a grant to a cancelled waiter is undone, the count of a semaphore can pass
 its maximum, and overflow if the maximum exceeds 2^30. A read/write lock whose reader
 count reaches its maximum can leave a reader blocked that could be served.
 */
module LockedQueueLimits {
  import opened LockClients
  import opened LockedQueue
  import opened LockedQueueInv
  import opened LockedQueueLedger
  import opened LockedQueueWaiters
  import opened LockedQueueOwed
  import opened LockedQueueRuns
  import opened LockedQueueSafety
  import opened LockedQueueTheorems

  ghost predicate Reachable(c: Client, n: nat, s: State) {
    exists sched: Schedule :: Exec(c, n, sched) == s
  }

  lemma Move(c: Client, n: nat, s: State, t: Tid, a: Action)
    requires Reachable(c, n, s)
    ensures Reachable(c, n, Do(c, s, t, a))
  {
    var sched: Schedule :| Exec(c, n, sched) == s;
    var longer := sched + [(t, a)];
    assert longer[..|longer| - 1] == sched;
    assert Exec(c, n, longer) == Do(c, s, t, a);
  }

  /** A step of t from a known position. */
  lemma Go(c: Client, n: nat, s: State, t: Tid, s': State)
    requires Reachable(c, n, s) && t < |s.threads| && s' == Advance(c, s, t)
    ensures Reachable(c, n, s')
  {
    Move(c, n, s, t, Run);
  }

  /** Thread t has made its request, found that it cannot be granted, and is parked alone in the list. */
  function Blocked(s: State, t: Tid, q: int): State
    requires t < |s.threads|
  {
    s.(head := [t], hint := q, private := [], owner := t, queue := [t], nextTicket := s.nextTicket + 1,
       threads := s.threads[t := s.threads[t].(pc := Wait(Park), req := q, parker := Open, linked := true, ticket := s.nextTicket)])
  }

  lemma FailRun(c: Client, n: nat, s: State, t: Tid, q: int) returns (e: State)
    requires Reachable(c, n, s) && t < |s.threads| && s.threads[t].pc.Idle? && ValidRequest(c, q) && !CanTake(c, s.word, q)
    ensures Reachable(c, n, e)
    ensures e == s.(threads := s.threads[t := s.threads[t].(pc := Try(Enq), req := q, parker := Open)])
  {
    Move(c, n, s, t, StartAcquire(q, true));
    var s1 := s.(threads := s.threads[t := s.threads[t].(pc := Try(AcqRead(true)), req := q)]);
    e := SetPc(SetParker(s1, t, Open), t, Try(Enq));
    Go(c, n, s1, t, e);
  }

  lemma EnqueueRun(c: Client, n: nat, s: State, t: Tid) returns (e: State)
    requires Reachable(c, n, s) && t < |s.threads| && s.threads[t].pc == Try(Enq)
    requires s.lock.Free? && s.head == [] && s.queue == []
    ensures Reachable(c, n, e)
    ensures e == s.(lock := Busy([]), owner := t, head := [t], hint := 0, private := [], queue := [t], nextTicket := s.nextTicket + 1,
                    threads := s.threads[t := s.threads[t].(pc := Hold(EnqDecide(true), ToPark), linked := true, ticket := s.nextTicket)])
  {
    hide Reachable;
    var s3 := ArriveFree(s, t);
    Go(c, n, s, t, s3);
    var s4 := LinkOwn(s3, t, ToPark);
    Go(c, n, s3, t, s4);
    e := SetPc(s4.(hint := 0, private := []), t, Hold(EnqDecide(true), ToPark));
    Go(c, n, s4, t, e);
  }

  lemma UnlockRun(c: Client, n: nat, e: State, t: Tid) returns (s: State)
    requires Reachable(c, n, e) && t < |e.threads| && e.threads[t].pc == Hold(EnqDecide(true), ToPark)
    requires e.lock == Busy([]) && e.head == [t] && e.private == [] && !CanTake(c, e.word, e.threads[t].req) && e.threads[t].req != 0
    ensures Reachable(c, n, s) && s == SetPc(e.(lock := Free, hint := e.threads[t].req), t, Check(CFront, ToPark))
  {
    hide Reachable;
    var s1 := SetPc(e, t, Hold(UTest(true), ToPark));
    Go(c, n, e, t, s1);
    var s2 := SetPc(s1, t, Hold(UHint(true, true), ToPark));
    Go(c, n, s1, t, s2);
    var s3 := SetPc(s2.(hint := e.threads[t].req), t, Hold(UCas(true, true), ToPark));
    Go(c, n, s2, t, s3);
    var s4 := Unlock(s3, t, [], ToPark);
    Go(c, n, s3, t, s4);
    s := SetPc(s4, t, Check(CFront, ToPark));
    Go(c, n, s4, t, s);
  }

  lemma BlockRun(c: Client, n: nat, s: State, t: Tid, q: int)
    requires Reachable(c, n, s) && t < |s.threads| && s.threads[t].pc.Idle?
    requires s.lock.Free? && s.head == [] && s.queue == [] && ValidRequest(c, q) && !CanTake(c, s.word, q)
    ensures Reachable(c, n, Blocked(s, t, q))
  {
    hide Reachable;
    var f := FailRun(c, n, s, t, q);
    var e := EnqueueRun(c, n, f, t);
    var u := UnlockRun(c, n, e, t);
    var v := SetPc(u, t, Check(CState(q), ToPark));
    Go(c, n, u, t, v);
    PendingIsCanTake(c, s.word, q);
    var w := SetPc(v, t, Wait(Park));
    Go(c, n, v, t, w);
    assert w == Blocked(s, t, q);
  }

  // ---- the semaphore ----

  /** Nobody is in the middle of an operation, and nobody waits. */
  predicate AllIdle(s: State) {
    |s.threads| == 3 && s.lock.Free? && s.head == [] && s.queue == [] && forall x :: 0 <= x < 3 ==> s.threads[x].pc.Idle?
  }

  /** Thread 2 acquires q permits without waiting. */
  lemma AcquireRun(c: Client, s: State, q: int) returns (e: State)
    requires c.Semaphore? && Reachable(c, 3, s) && AllIdle(s) && ValidRequest(c, q) && q <= s.word
    ensures Reachable(c, 3, e) && AllIdle(e) && e.word == s.word - q
  {
    hide Reachable;
    Move(c, 3, s, 2, StartAcquire(q, true));
    var s1 := s.(threads := s.threads[2 := s.threads[2].(pc := Try(AcqRead(true)), req := q)]);
    var s2 := SetPc(s1, 2, Try(AcqLock(s.word, true)));
    Go(c, 3, s1, 2, s2);
    var s3 := SetPc(s2, 2, Try(AcqHead(s.word, true)));
    Go(c, 3, s2, 2, s3);
    var s4 := SetPc(s3, 2, Try(AcqCas(s.word, true)));
    Go(c, 3, s3, 2, s4);
    e := SetPc(Credit(c, SetWord(s4, s.word - q), 2, q), 2, Idle);
    Go(c, 3, s4, 2, e);
  }

  /** Thread 2 acquires all permits there are. */
  lemma {:induction false} DrainRun(c: Client, s: State) returns (e: State)
    requires c.Semaphore? && Reachable(c, 3, s) && AllIdle(s) && 0 <= s.word <= c.maximum
    ensures Reachable(c, 3, e) && AllIdle(e) && e.word == 0
    decreases s.word
  {
    hide Reachable, AllIdle;
    e := s;
    if s.word > 0 {
      e := AcquireRun(c, s, if s.word < MAX_REQUEST then s.word else MAX_REQUEST);
      e := DrainRun(c, e);
    }
  }

  /** Thread 0 waits for q permits and has been cancelled; thread 1 has released q permits and taken them back on its behalf. */
  lemma TakeForCancelled(c: Client, s0: State, q: int) returns (s: State)
    requires c.Semaphore? && 0 < q <= c.maximum <= LONG_MAX && q <= MAX_REQUEST
    requires Reachable(c, 3, s0) && AllIdle(s0) && s0.word == 0
    ensures Reachable(c, 3, s) && |s.threads| == 3 && s.word == 0 && s.head == [0]
    ensures s.threads[0].parker.Cancelled? && s.threads[1].pc == Hold(RRemove(q), ToReturn) && s.threads[2].pc.Idle?
  {
    hide Reachable;
    BlockRun(c, 3, s0, 0, q);
    var b := Blocked(s0, 0, q);
    Move(c, 3, b, 0, Cancel);
    var b1 := SetParker(b, 0, Cancelled);
    Move(c, 3, b1, 1, StartRelease(q));
    var b2 := SetPc(b1.(word := q, released := b1.released + q), 1, Check(CFront, ToReturn));
    assert Do(c, b1, 1, StartRelease(q)) == b2;
    s := TakeRun(c, b2, q);
  }

  lemma TakeRun(c: Client, b: State, q: int) returns (s: State)
    requires c.Semaphore? && q > 0 && Reachable(c, 3, b) && |b.threads| == 3
    requires b.threads[1].pc == Check(CFront, ToReturn) && b.lock.Free? && b.word == q == b.hint && b.head == [0] && b.threads[0].req == q
    ensures Reachable(c, 3, s)
    ensures s == SetPc(b.(lock := Busy([]), owner := 1, hint := 0, private := [], word := 0), 1, Hold(RRemove(q), ToReturn))
  {
    hide Reachable;
    var s1 := SetPc(b, 1, Check(CState(q), ToReturn));
    Go(c, 3, b, 1, s1);
    var s2 := SetPc(s1, 1, Check(CLock, ToReturn));
    Go(c, 3, s1, 1, s2);
    var s3 := TakeLock(s2, 1, CZero, ToReturn);
    Go(c, 3, s2, 1, s3);
    s := TakeLoopRun(c, s3, q);
  }

  lemma TakeLoopRun(c: Client, b: State, q: int) returns (s: State)
    requires c.Semaphore? && q > 0 && Reachable(c, 3, b) && |b.threads| == 3
    requires b.threads[1].pc == Hold(CZero, ToReturn) && b.word == q && b.head == [0] && b.threads[0].req == q
    ensures Reachable(c, 3, s)
    ensures s == SetPc(b.(hint := 0, private := [], word := 0), 1, Hold(RRemove(q), ToReturn))
  {
    hide Reachable;
    var s4 := SetPc(b.(hint := 0, private := []), 1, Hold(RTest, ToReturn));
    Go(c, 3, b, 1, s4);
    var s5 := SetPc(s4, 1, Hold(RTake, ToReturn));
    Go(c, 3, s4, 1, s5);
    s := SetPc(s5.(word := 0), 1, Hold(RRemove(q), ToReturn));
    Go(c, 3, s5, 1, s);
  }

  lemma RefuseRun(c: Client, s: State, q: int, k: After) returns (e: State)
    requires Reachable(c, 3, s) && |s.threads| == 3 && s.head == [0] && c.Semaphore?
    requires s.threads[0].parker.Cancelled? && s.threads[1].pc == Hold(RRemove(q), k)
    ensures Reachable(c, 3, e) && |e.threads| == 3 && e.word == s.word && e.threads[1].pc == Hold(RUnlink(0, q), k)
  {
    hide Reachable;
    var s1 := TakeFront(s, 1, q, k);
    Go(c, 3, s, 1, s1);
    e := SetPc(s1, 1, Hold(RUnlink(0, q), k));
    Go(c, 3, s1, 1, e);
  }

  lemma UndoRun(c: Client, s: State, q: int, k: After) returns (e: State)
    requires Reachable(c, 3, s) && |s.threads| == 3 && c.Semaphore? && s.threads[1].pc == Hold(RUnlink(0, q), k)
    ensures Reachable(c, 3, e) && e.word == Wrap32(s.word + q)
  {
    hide Reachable;
    var s3 := DropFront(s, 1, 0, q, k);
    Go(c, 3, s, 1, s3);
    e := SetPc(SetWord(s3, Undone(c, s3.word, q)), 1, Hold(RTest, k));
    Go(c, 3, s3, 1, e);
  }

  /**
   While a grant of q permits to a cancelled waiter lasts, another thread fills the
   semaphore up to its maximum; then the grant is undone.
   */
  lemma OverfillRun(initial: int, m: int, q: int) returns (e: State)
    requires 0 <= initial <= m <= LONG_MAX && 0 < q <= m && q <= MAX_REQUEST
    ensures Reachable(Semaphore(initial, m), 3, e) && e.word == Wrap32(m + q)
  {
    hide AllIdle;
    var c := Semaphore(initial, m);
    assert Exec(c, 3, []) == Init(c, 3);
    assert AllIdle(Init(c, 3)) by {
      StartIsIdle(c);
    }
    var s0 := DrainRun(c, Init(c, 3));
    var s := TakeForCancelled(c, s0, q);
    Move(c, 3, s, 2, StartRelease(m));
    var s' := SetPc(s.(word := m, released := s.released + m), 2, Check(CFront, ToReturn));
    assert Do(c, s, 2, StartRelease(m)) == s';
    var r := RefuseRun(c, s', q, ToReturn);
    e := UndoRun(c, r, q, ToReturn);
  }

  lemma StartIsIdle(c: Client)
    ensures AllIdle(Init(c, 3))
  {
  }

  /** Whatever its initial count, the count of a semaphore stays in range in every run exactly if its maximum is at most 2^30. */
  lemma CountInRangeIff(initial: int, m: int)
    requires 0 <= initial <= m <= LONG_MAX
    ensures (forall n, s :: Reachable(Semaphore(initial, m), n, s) ==> s.word >= 0) <==> m <= 0x4000_0000
  {
    if m <= 0x4000_0000 {
      forall n, s | Reachable(Semaphore(initial, m), n, s) ensures s.word >= 0 {
        var sched: Schedule :| Exec(Semaphore(initial, m), n, sched) == s;
        PermitsAreConserved(initial, m, n, sched);
      }
    } else {
      var e := OverfillRun(initial, m, MAX_REQUEST);
    }
  }

  lemma ReleasingKeepsMaximum(c: Client, s: State, t: Tid, h: HoldPc, k: After)
    requires Safe(c, s) && c.Semaphore? && (c.maximum == 0 || c.maximum == LONG_MAX) && s.word <= c.maximum
    requires t < |s.threads| && s.threads[t].pc == Hold(h, k) && Releasing(h)
    ensures ReleaseStep(c, s, t, h, k).word <= c.maximum
  {
    hide DebtOk, WaitersOk;
    if h.RTake? {
      HeadKnown(c, s);
      assert s.head[0] in s.queue && Framed(s.threads[s.head[0]].pc);
    }
  }

  lemma StepKeepsMaximum(c: Client, s: State, t: Tid, a: Action)
    requires Safe(c, s) && c.Semaphore? && (c.maximum == 0 || c.maximum == LONG_MAX) && s.word <= c.maximum
    ensures Do(c, s, t, a).word <= c.maximum
  {
    hide CheckStep, WaitStep, EntryStep, UnlockStep, ReleaseStep, Lined, Ledger, DebtOk, WaitersOk;
    if t < |s.threads| && s.threads[t].pc.Hold? && Releasing(s.threads[t].pc.h) {
      ReleasingKeepsMaximum(c, s, t, s.threads[t].pc.h, s.threads[t].pc.k);
    }
  }

  lemma {:induction false} MaximumKept(c: Client, n: nat, sched: Schedule)
    requires c.Semaphore? && (c.maximum == 0 || c.maximum == LONG_MAX) && c.initial <= c.maximum
    ensures Exec(c, n, sched).word <= c.maximum
  {
    hide Do;
    if sched != [] {
      var k := |sched| - 1;
      MaximumKept(c, n, sched[..k]);
      ExecSafe(c, n, sched[..k]);
      StepKeepsMaximum(c, Exec(c, n, sched[..k]), sched[k].0, sched[k].1);
    }
  }

  /**
   Release refuses to go over the maximum, but it does not see the permits that a grant to
   a cancelled waiter has taken for a moment. The count stays below the maximum in every
   run only where no acquire is possible or no larger count can be stored.
   */
  lemma MaximumKeptIff(initial: int, m: int)
    requires 0 <= initial <= m <= LONG_MAX
    ensures (forall n, s :: Reachable(Semaphore(initial, m), n, s) ==> s.word <= m) <==> m == 0 || m == LONG_MAX
  {
    if m == 0 || m == LONG_MAX {
      forall n, s | Reachable(Semaphore(initial, m), n, s) ensures s.word <= m {
        var sched: Schedule :| Exec(Semaphore(initial, m), n, sched) == s;
        MaximumKept(Semaphore(initial, m), n, sched);
      }
    } else {
      var e := OverfillRun(initial, m, 1);
    }
  }

  // ---- the read/write lock ----

  /** Thread 0 has entered the read lock j times. */
  function Readers(j: nat): State {
    var s := Init(ReadWrite, 2);
    s.(word := j,
       threads := s.threads[0 := Thread(Idle, if j == 0 then 0 else LOCK_READ, Open, false, 0, 0, j, 0)])
  }

  lemma OneMoreReader(j: nat)
    requires Reachable(ReadWrite, 2, Readers(j)) && j < MAX_READERS
    ensures Reachable(ReadWrite, 2, Readers(j + 1))
  {
    hide Reachable;
    var c, s := ReadWrite, Readers(j);
    Move(c, 2, s, 0, StartAcquire(LOCK_READ, true));
    var s1 := s.(threads := s.threads[0 := s.threads[0].(pc := Try(AcqRead(true)), req := LOCK_READ)]);
    var s2 := SetPc(s1, 0, Try(AcqLock(j, true)));
    Go(c, 2, s1, 0, s2);
    var s3 := SetPc(s2, 0, Try(AcqHead(j, true)));
    Go(c, 2, s2, 0, s3);
    var s4 := SetPc(s3, 0, Try(AcqCas(j, true)));
    Go(c, 2, s3, 0, s4);
    LastReaderStep(j, s4);
  }

  lemma LastReaderStep(j: nat, s: State)
    requires j < MAX_READERS && Reachable(ReadWrite, 2, s)
    requires s == Readers(j).(threads := Readers(j).threads[0 := Thread(Try(AcqCas(j, true)), LOCK_READ, Open, false, 0, 0, j, 0)])
    ensures Reachable(ReadWrite, 2, Readers(j + 1))
  {
    hide Reachable;
    Go(ReadWrite, 2, s, 0, Readers(j + 1));
  }

  lemma {:induction false} ManyReaders(j: nat)
    requires j <= MAX_READERS
    ensures Reachable(ReadWrite, 2, Readers(j))
  {
    if j == 0 {
      assert Exec(ReadWrite, 2, []) == Readers(0);
    } else {
      ManyReaders(j - 1);
      OneMoreReader(j - 1);
    }
  }

  /**
   A reader that finds the count at its maximum blocks, and the reader that makes room
   for it does not look at the queue, because it is not the last one: at rest, the front
   of the list is a reader that could be served.
   */
  lemma MaximumReadersStrand() returns (sched: Schedule)
    ensures Quiescent(Exec(ReadWrite, 2, sched)) && !NobodyStranded(ReadWrite, Exec(ReadWrite, 2, sched))
  {
    ManyReaders(MAX_READERS);
    var s := Readers(MAX_READERS);
    BlockRun(ReadWrite, 2, s, 1, LOCK_READ);
    var b := Blocked(s, 1, LOCK_READ);
    Move(ReadWrite, 2, b, 0, StartRelease(LOCK_READ));
    var e := b.(word := MAX_READERS - 1, leftFull := true, threads := b.threads[0 := b.threads[0].(readers := MAX_READERS - 1)]);
    assert Do(ReadWrite, b, 0, StartRelease(LOCK_READ)) == e;
    assert Quiescent(e) && e.head[0] == 1 && CanTake(ReadWrite, e.word, e.threads[1].req);
    sched :| Exec(ReadWrite, 2, sched) == e;
  }

  /** At no time there are more than m readers, counting temporary grants. */
  ghost predicate Bounded(n: nat, sched: Schedule, m: int) {
    forall i :: 0 <= i <= |sched| ==> var word := Exec(ReadWrite, n, sched[..i]).word; word == WRITING || word <= m
  }

  /** Every run with at most m readers leaves nobody stranded at rest. */
  ghost predicate BoundSuffices(m: int) {
    forall n, sched :: Bounded(n, sched, m) && Quiescent(Exec(ReadWrite, n, sched)) ==> NobodyStranded(ReadWrite, Exec(ReadWrite, n, sched))
  }

  /** The read/write lock strands nobody exactly if its users keep the reader count below the maximum. */
  lemma ReaderBoundIff(m: int)
    requires 0 <= m <= MAX_READERS
    ensures BoundSuffices(m) <==> m < MAX_READERS
  {
    if m < MAX_READERS {
      forall n, sched | Bounded(n, sched, m) && Quiescent(Exec(ReadWrite, n, sched))
        ensures NobodyStranded(ReadWrite, Exec(ReadWrite, n, sched))
      {
        assert NeverLeavesFull(ReadWrite, n, sched);
        NoStrandedWaiter(ReadWrite, n, sched);
      }
    } else {
      var sched := MaximumReadersStrand();
      forall i | 0 <= i <= |sched| ensures var word := Exec(ReadWrite, 2, sched[..i]).word; word == WRITING || word <= m {
        WritersExcludeReaders(2, sched[..i]);
      }
    }
  }
}
