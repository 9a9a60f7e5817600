/**
 What holds after every schedule of the locked queue, for the semaphore and for the
 read/write lock.
 */
module LockedQueueSafety {
  import opened LockClients
  import opened LockedQueue
  import opened LockedQueueInv
  import opened LockedQueueRuns
  import opened LockedQueueLedger
  import opened LockedQueueWaiters
  import opened LockedQueueOwed

  ghost predicate Safe(c: Client, s: State) {
    Inv(c, s) && Ledger(c, s) && WaitersOk(s) && DebtOk(c, s)
  }

  // ---- one step ----

  lemma StillTry(c: Client, s: State, t: Tid, a: TryPc)
    requires Inv(c, s) && t < |s.threads| && s.threads[t].pc == Try(a)
    ensures Still(s, TryStep(c, s, t, a))
  {
    if !a.Enq? {
      QuietTry(c, s, t, a);
      OutsideStill(s, TryStep(c, s, t, a), t);
    } else if s.lock.Free? {
      TakeLockStill(s, ArriveFree(s, t), t, ToPark);
    } else {
      ArriveBusyStill(s, t);
    }
  }

  lemma TryLedger(c: Client, s: State, t: Tid, a: TryPc)
    requires Inv(c, s) && Ledger(c, s) && t < |s.threads| && s.threads[t].pc == Try(a)
    ensures Ledger(c, TryStep(c, s, t, a))
  {
    if a.AcqCas? && s.word == a.seen {
      AcqCasKept(c, s, t, a.seen, a.block);
    } else {
      NeutralTry(c, s, t, a);
      NeutralKept(c, s, TryStep(c, s, t, a));
    }
  }

  lemma TryDebt(c: Client, s: State, t: Tid, a: TryPc)
    requires Inv(c, s) && Ledger(c, s) && DebtOk(c, s) && t < |s.threads| && s.threads[t].pc == Try(a)
    ensures DebtOk(c, TryStep(c, s, t, a))
  {
    hide Lined, View;
    if a.AcqCas? && s.word == a.seen {
      AcqCasDebt(c, s, t, a.seen, a.block);
    } else if !a.Enq? {
      FreeDebt(c, s, TryStep(c, s, t, a), t);
    }
  }

  lemma TrySafe(c: Client, s: State, t: Tid, a: TryPc)
    requires Safe(c, s) && t < |s.threads| && s.threads[t].pc == Try(a)
    ensures Safe(c, TryStep(c, s, t, a))
  {
    TryKept(c, s, t, a);
    StillTry(c, s, t, a);
    StillKept(s, TryStep(c, s, t, a));
    TryLedger(c, s, t, a);
    TryDebt(c, s, t, a);
  }

  lemma CheckWaiters(c: Client, s: State, t: Tid, q: CheckPc, k: After)
    requires Inv(c, s) && WaitersOk(s) && t < |s.threads| && s.threads[t].pc == Check(q, k)
    ensures WaitersOk(CheckStep(c, s, t, q, k))
    ensures q.Unpark? && q.list != [] ==> q.list[0] < |s.threads| && Stuck(s.threads[q.list[0]])
  {
    var s' := CheckStep(c, s, t, q, k);
    if q.Unpark? && q.list != [] {
      FirstIsStuck(s, t, q.list, k);
      UnparkFirstKept(s, t, q.list, k);
    } else {
      if q.CLock? && s.lock.Free? {
        TakeLockStill(s, s', t, k);
      } else {
        QuietCheck(c, s, t, q, k);
        OutsideStill(s, s', t);
      }
      StillKept(s, s');
    }
  }

  lemma CheckSafe(c: Client, s: State, t: Tid, q: CheckPc, k: After)
    requires Safe(c, s) && t < |s.threads| && s.threads[t].pc == Check(q, k)
    ensures Safe(c, CheckStep(c, s, t, q, k))
  {
    CheckWaiters(c, s, t, q, k);
    CheckKept(c, s, t, q, k);
    NeutralCheck(c, s, t, q, k);
    NeutralKept(c, s, CheckStep(c, s, t, q, k));
    CheckDebt(c, s, t, q, k);
  }

  lemma WaitWaiters(c: Client, s: State, t: Tid, w: WaitPc)
    requires Inv(c, s) && WaitersOk(s) && t < |s.threads| && s.threads[t].pc == Wait(w)
    ensures WaitersOk(WaitStep(s, t, w))
  {
    var s' := WaitStep(s, t, w);
    if w.KTry? && s.lock.Busy? {
      PushKept(s, t);
    } else {
      if w.KTry? {
        TakeLockStill(s, s', t, ToUnlink);
      } else {
        QuietWait(c, s, t, w);
        OutsideStill(s, s', t);
      }
      StillKept(s, s');
    }
  }

  lemma WaitDebt(c: Client, s: State, t: Tid, w: WaitPc)
    requires Inv(c, s) && DebtOk(c, s) && t < |s.threads| && s.threads[t].pc == Wait(w)
    ensures DebtOk(c, WaitStep(s, t, w))
  {
    if !w.KTry? {
      FreeDebt(c, s, WaitStep(s, t, w), t);
    }
  }

  lemma WaitSafe(c: Client, s: State, t: Tid, w: WaitPc)
    requires Safe(c, s) && t < |s.threads| && s.threads[t].pc == Wait(w)
    ensures Safe(c, WaitStep(s, t, w))
  {
    WaitKept(c, s, t, w);
    NeutralWait(c, s, t, w);
    NeutralKept(c, s, WaitStep(s, t, w));
    WaitWaiters(c, s, t, w);
    WaitDebt(c, s, t, w);
  }

  lemma StillEntry(c: Client, s: State, t: Tid, h: HoldPc, k: After)
    requires Owned(s) && t < |s.threads| && s.threads[t].pc == Hold(h, k) && !Unlocking(h) && !Releasing(h)
    ensures Still(s, EntryStep(c, s, t, h, k)) && EntryStep(c, s, t, h, k).lock == s.lock
  {
    InsideStill(s, EntryStep(c, s, t, h, k), t);
  }

  lemma EntrySafe(c: Client, s: State, t: Tid, h: HoldPc, k: After)
    requires Safe(c, s) && t < |s.threads| && s.threads[t].pc == Hold(h, k) && !Unlocking(h) && !Releasing(h)
    ensures Safe(c, EntryStep(c, s, t, h, k))
  {
    var s' := EntryStep(c, s, t, h, k);
    EntryKept(c, s, t, h, k);
    StillEntry(c, s, t, h, k);
    StillKept(s, s');
    NeutralEntry(c, s, t, h, k);
    NeutralKept(c, s, s');
  }

  /** The release loop touches neither the lock word nor the private queue nor anybody's position. */
  ghost predicate LoopOnly(s: State, s': State, t: Tid) {
    && t < |s.threads| && |s'.threads| == |s.threads|
    && s'.lock == s.lock && s'.owner == s.owner && s'.private == s.private
    && (forall x :: 0 <= x < |s.threads| && x != t ==> s'.threads[x].pc == s.threads[x].pc)
    && s'.threads[t].pc.Hold? && (Releasing(s'.threads[t].pc.h) || s'.threads[t].pc.h.UTest?)
  }

  lemma LoopStepsOwn(c: Client, s: State, t: Tid, h: HoldPc, k: After)
    requires t < |s.threads| && s.threads[t].pc == Hold(h, k) && (h.RTest? || h.RTake? || h.RUndo? || h.RForce?)
    ensures LoopOnly(s, ReleaseStep(c, s, t, h, k), t)
  {
  }

  lemma LoopSteps(c: Client, s: State, t: Tid, h: HoldPc, k: After)
    requires t < |s.threads| && s.threads[t].pc == Hold(h, k) && Releasing(h)
    ensures LoopOnly(s, ReleaseStep(c, s, t, h, k), t)
  {
    if h.RTest? || h.RTake? || h.RUndo? || h.RForce? {
      LoopStepsOwn(c, s, t, h, k);
    } else {
      assert h.RRemove? || h.RLock? || h.RWake? || h.RUnlink?;
    }
  }

  lemma StillRelease(c: Client, s: State, t: Tid, h: HoldPc, k: After)
    requires Owned(s) && t < |s.threads| && s.threads[t].pc == Hold(h, k) && Releasing(h)
    ensures Still(s, ReleaseStep(c, s, t, h, k))
  {
    LoopSteps(c, s, t, h, k);
    InsideStill(s, ReleaseStep(c, s, t, h, k), t);
  }

  lemma ReleaseDebt(c: Client, s: State, t: Tid, h: HoldPc, k: After)
    requires Owned(s) && DebtOk(c, s) && t < |s.threads| && s.threads[t].pc == Hold(h, k) && Releasing(h)
    ensures DebtOk(c, ReleaseStep(c, s, t, h, k))
  {
  }

  lemma ReleaseLedger(c: Client, s: State, t: Tid, h: HoldPc, k: After)
    requires Inv(c, s) && Ledger(c, s) && t < |s.threads| && s.threads[t].pc == Hold(h, k) && Releasing(h)
    ensures Ledger(c, ReleaseStep(c, s, t, h, k))
  {
    if h.RTake? {
      HeadKnown(c, s);
    }
    if h.RTake? && CanTake(c, s.word, s.threads[s.head[0]].req) {
      assert s.head[0] in s.queue && Framed(s.threads[s.head[0]].pc);
      TakeKept(c, s, t, k, s.threads[s.head[0]].req);
    } else if h.RWake? {
      LockedQueueLedger.WakeKept(c, s, t, h.x, h.r, k);
    } else if h.RUndo? {
      UndoKept(c, s, t, h.r, k);
    } else {
      NeutralRelease(c, s, t, h, k);
      NeutralKept(c, s, ReleaseStep(c, s, t, h, k));
    }
  }

  lemma ReleasingSafe(c: Client, s: State, t: Tid, h: HoldPc, k: After)
    requires Safe(c, s) && t < |s.threads| && s.threads[t].pc == Hold(h, k) && Releasing(h)
    ensures Safe(c, ReleaseStep(c, s, t, h, k))
  {
    var s' := ReleaseStep(c, s, t, h, k);
    LockedQueueRuns.ReleaseKept(c, s, t, h, k);
    StillRelease(c, s, t, h, k);
    StillKept(s, s');
    ReleaseLedger(c, s, t, h, k);
    ReleaseDebt(c, s, t, h, k);
  }

  lemma ProcWaiters(c: Client, s: State, t: Tid, rem: seq<Block>, pos: nat, changed: bool, force: bool, k: After)
    requires Inv(c, s) && t < |s.threads| && s.threads[t].pc == Hold(Proc(rem, pos, changed, force), k)
    ensures Still(s, ProcStep(s, t, rem, pos, changed, force, k))
  {
    hide Still, Lined, View, ThreadsOk;
    var s' := ProcStep(s, t, rem, pos, changed, force, k);
    if rem[0].LockOnly? {
      ProcLockOnlyStill(s, t, rem, pos, changed, force, ProcNext(rem, pos, changed, force), k);
    } else {
      ProcAcquireStill(s, s', t, rem, pos, Proc(rem, pos, changed, force), s'.threads[t].pc.h, k);
    }
  }

  lemma UnlockWaitersOk(c: Client, s: State, t: Tid, h: HoldPc, k: After)
    requires Inv(c, s) && WaitersOk(s) && t < |s.threads| && s.threads[t].pc == Hold(h, k) && Unlocking(h)
    ensures WaitersOk(UnlockStep(s, t, h, k))
  {
    hide WaitersOk, Still, InsideMove, Lined, View;
    var s' := UnlockStep(s, t, h, k);
    if h.UCas? && s.lock == Busy([]) {
      UnlockWaiters(s, t, h.fast, h.force, k);
    } else if h.Proc? {
      ProcWaiters(c, s, t, h.rem, h.pos, h.changed, h.force, k);
      StillKept(s, s');
    } else if h.ULoop? && s.lock != Busy([]) {
      DetachStill(s, t, h.force, k);
      StillKept(s, s');
    } else {
      if h.UTest? || h.ULoop? { QuietTest(c, s, t, h, k); } else { QuietPublish(c, s, t, h, k); }
      InsideStill(s, s', t);
      StillKept(s, s');
    }
  }

  lemma UnlockingSafe(c: Client, s: State, t: Tid, h: HoldPc, k: After)
    requires Safe(c, s) && t < |s.threads| && s.threads[t].pc == Hold(h, k) && Unlocking(h)
    ensures Safe(c, UnlockStep(s, t, h, k))
  {
    var s' := UnlockStep(s, t, h, k);
    UnlockKept(c, s, t, h, k);
    UnlockWaitersOk(c, s, t, h, k);
    NeutralUnlock(c, s, t, h, k);
    NeutralKept(c, s, s');
    UnlockOwes(c, s, t, h, k);
  }

  lemma UnlockOwes(c: Client, s: State, t: Tid, h: HoldPc, k: After)
    requires Owned(s) && DebtOk(c, s) && t < |s.threads| && s.threads[t].pc == Hold(h, k) && Unlocking(h)
    ensures DebtOk(c, UnlockStep(s, t, h, k))
  {
    var s' := UnlockStep(s, t, h, k);
    if s'.lock.Free? {
      assert Owes(s', t);
    }
  }

  lemma RunSafe(c: Client, s: State, t: Tid)
    requires Safe(c, s) && t < |s.threads|
    ensures Safe(c, Advance(c, s, t))
  {
    match s.threads[t].pc
    case Idle =>
    case Try(a) => TrySafe(c, s, t, a);
    case Check(q, k) => CheckSafe(c, s, t, q, k);
    case Wait(w) => WaitSafe(c, s, t, w);
    case Hold(h, k) =>
      if Unlocking(h) {
        UnlockingSafe(c, s, t, h, k);
      } else if Releasing(h) {
        ReleasingSafe(c, s, t, h, k);
      } else {
        EntrySafe(c, s, t, h, k);
      }
  }

  lemma StartAcquireSafe(c: Client, s: State, t: Tid, r: int, block: bool)
    requires Safe(c, s) && t < |s.threads| && s.threads[t].pc.Idle? && ValidRequest(c, r)
    ensures Safe(c, s.(threads := s.threads[t := s.threads[t].(pc := Try(AcqRead(block)), req := r)]))
  {
    var s' := s.(threads := s.threads[t := s.threads[t].(pc := Try(AcqRead(block)), req := r)]);
    OutsideKept(c, s, s', t);
    OutsideStill(s, s', t);
    StillKept(s, s');
    assert Holder(s') == Holder(s);
    NeutralKept(c, s, s');
    FreeDebt(c, s, s', t);
  }

  lemma StartReleaseMove(c: Client, s: State, t: Tid, n: int)
    requires t < |s.threads| && s.threads[t].pc.Idle?
    ensures OutsideMove(c, s, Release(c, s, t, n), t)
    ensures Release(c, s, t, n).threads[t].pc in {Idle, Check(CFront, ToReturn)}
  {
  }

  lemma StartReleaseSafe(c: Client, s: State, t: Tid, n: int)
    requires Safe(c, s) && t < |s.threads| && s.threads[t].pc.Idle?
    ensures Safe(c, Release(c, s, t, n))
  {
    var s' := Release(c, s, t, n);
    StartReleaseMove(c, s, t, n);
    OutsideKept(c, s, s', t);
    OutsideStill(s, s', t);
    StillKept(s, s');
    LockedQueueLedger.ReleaseKept(c, s, t, n);
    LockedQueueOwed.ReleaseDebt(c, s, t, n);
  }

  lemma CancelQuiet(s: State, t: Tid)
    requires t < |s.threads|
    ensures var s' := SetParker(s, t, Cancelled); Still(s, s') && Neutral(s, s') && FrontCode(s') == FrontCode(s)
  {
    var s' := SetParker(s, t, Cancelled);
    assert Holder(s') == Holder(s);
  }

  lemma CancelSafe(c: Client, s: State, t: Tid)
    requires Safe(c, s) && t < |s.threads| && Framed(s.threads[t].pc) && s.threads[t].parker.Open?
    ensures Safe(c, SetParker(s, t, Cancelled))
  {
    var s' := SetParker(s, t, Cancelled);
    CancelOrdered(c, s, t);
    CancelPlaced(c, s, t);
    CancelQuiet(s, t);
    StillKept(s, s');
    NeutralKept(c, s, s');
    CarryDebt(c, s, s', t);
  }

  lemma SpinSafe(c: Client, s: State, t: Tid)
    requires Safe(c, s) && t < |s.threads| && s.threads[t].pc == Wait(KTry)
    ensures Safe(c, SetPc(s, t, Wait(KLoop)))
  {
    var s' := SetPc(s, t, Wait(KLoop));
    OutsideKept(c, s, s', t);
    OutsideStill(s, s', t);
    StillKept(s, s');
    assert Holder(s') == Holder(s);
    NeutralKept(c, s, s');
    FreeDebt(c, s, s', t);
  }

  /** Every step of every thread keeps the invariant. */
  lemma StepSafe(c: Client, s: State, t: Tid, a: Action)
    requires Safe(c, s)
    ensures Safe(c, Do(c, s, t, a))
  {
    if t < |s.threads| {
      match a
      case Run => RunSafe(c, s, t);
      case StartAcquire(r, block) =>
        if s.threads[t].pc.Idle? && ValidRequest(c, r) { StartAcquireSafe(c, s, t, r, block); }
      case StartRelease(n) =>
        if s.threads[t].pc.Idle? { StartReleaseSafe(c, s, t, n); }
      case Cancel =>
        if Framed(s.threads[t].pc) && s.threads[t].parker.Open? { CancelSafe(c, s, t); }
      case Spin =>
        if s.threads[t].pc == Wait(KTry) { SpinSafe(c, s, t); }
    }
  }

  lemma {:induction false} NothingGranted(ths: seq<Thread>)
    requires forall x :: 0 <= x < |ths| ==> ths[x] == Thread(Idle, 0, Open, false, 0, 0, 0, 0)
    ensures forall k :: Total(ths, k) == 0
    ensures forall x: Tid :: Waking(ths, x) == 0
  {
    if ths != [] {
      NothingGranted(ths[1..]);
    }
  }

  lemma InitSafe(c: Client, n: nat)
    ensures Safe(c, Init(c, n))
  {
    var s := Init(c, n);
    NothingGranted(s.threads);
    assert Holder(s) == Idle && Stack(s) == [];
    forall k ensures Outstanding(c, s, k) == 0 {
    }
  }

  lemma {:induction false} ExecSafe(c: Client, n: nat, sched: Schedule)
    ensures Safe(c, Exec(c, n, sched))
  {
    if sched == [] {
      InitSafe(c, n);
    } else {
      var last := sched[|sched| - 1];
      ExecSafe(c, n, sched[..|sched| - 1]);
      StepSafe(c, Exec(c, n, sched[..|sched| - 1]), last.0, last.1);
    }
  }
}
