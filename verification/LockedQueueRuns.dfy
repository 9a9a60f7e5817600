/**
 Every step keeps the invariant of the locked queue, so every schedule does.
 */
module LockedQueueRuns {
  import opened LockClients
  import opened LockedQueue
  import opened LockedQueueInv

  lemma OutsideKept(c: Client, s: State, s': State, t: Tid)
    requires Inv(c, s) && OutsideMove(c, s, s', t)
    ensures Inv(c, s')
  {
    OutsideOrdered(c, s, s', t);
    OutsidePlaced(c, s, s', t);
  }

  lemma InsideKept(c: Client, s: State, s': State, t: Tid)
    requires Inv(c, s) && InsideMove(c, s, s', t)
    ensures Inv(c, s')
  {
    InsideOrdered(c, s, s', t);
    InsidePlaced(c, s, s', t);
  }

  lemma TakeLockKept(c: Client, s: State, t: Tid, h: HoldPc, k: After)
    requires Inv(c, s) && t < |s.threads| && s.lock.Free?
    requires (h == CZero && s.threads[t].pc == Check(CLock, k)) || (h == KZero && k == ToUnlink && s.threads[t].pc == Wait(KTry))
    ensures Inv(c, TakeLock(s, t, h, k))
  {
    TakeLockOrdered(c, s, t, h, k);
    TakeLockHolder(c, s, t, h, k);
    TakeLockThreads(c, s, t, h, k);
  }

  lemma QuietGo(c: Client, s: State, t: Tid, a: TryPc, a': TryPc)
    requires t < |s.threads| && s.threads[t].pc == Try(a) && !a.Enq? && Sound(c, s.threads[t])
    requires Sound(c, s.threads[t].(pc := Try(a')))
    ensures OutsideMove(c, s, SetPc(s, t, Try(a')), t)
  {
    hide Sound;
  }

  lemma QuietFail(c: Client, s: State, t: Tid, a: TryPc, block: bool)
    requires t < |s.threads| && s.threads[t].pc == Try(a) && !a.Enq? && Sound(c, s.threads[t])
    ensures OutsideMove(c, s, FailFast(s, t, block), t)
    ensures FailFast(s, t, block).threads[t].pc.Try? || FailFast(s, t, block).threads[t].pc.Idle?
  {
  }

  lemma QuietCas(c: Client, s: State, t: Tid, v: int, block: bool)
    requires t < |s.threads| && s.threads[t].pc == Try(AcqCas(v, block)) && Sound(c, s.threads[t]) && s.word == v
    ensures OutsideMove(c, s, TryStep(c, s, t, AcqCas(v, block)), t)
    ensures TryStep(c, s, t, AcqCas(v, block)).threads[t].pc.Idle?
  {
  }

  lemma QuietTry(c: Client, s: State, t: Tid, a: TryPc)
    requires t < |s.threads| && s.threads[t].pc == Try(a) && !a.Enq? && Sound(c, s.threads[t])
    ensures OutsideMove(c, s, TryStep(c, s, t, a), t)
    ensures TryStep(c, s, t, a).threads[t].pc.Try? || TryStep(c, s, t, a).threads[t].pc.Idle?
  {
    hide OutsideMove;
    match a
    case AcqRead(b) =>
      if CanTake(c, s.word, s.threads[t].req) {
        QuietGo(c, s, t, a, AcqLock(s.word, b));
      } else {
        QuietFail(c, s, t, a, b);
      }
    case AcqLock(v, b) =>
      if s.lock.Busy? && s.lock.stack != [] {
        QuietFail(c, s, t, a, b);
      } else {
        QuietGo(c, s, t, a, AcqHead(v, b));
      }
    case AcqHead(v, b) =>
      if s.head != [] {
        QuietFail(c, s, t, a, b);
      } else {
        QuietGo(c, s, t, a, AcqCas(v, b));
      }
    case AcqCas(v, b) =>
      if s.word == v {
        QuietCas(c, s, t, v, b);
      } else {
        QuietGo(c, s, t, a, AcqRead(b));
      }
  }

  lemma TryKept(c: Client, s: State, t: Tid, a: TryPc)
    requires Inv(c, s) && t < |s.threads| && s.threads[t].pc == Try(a)
    ensures Inv(c, TryStep(c, s, t, a))
  {
    if !a.Enq? {
      QuietTry(c, s, t, a);
      OutsideKept(c, s, TryStep(c, s, t, a), t);
    } else if s.lock.Free? {
      ArriveFreeOrdered(c, s, t);
      ArriveFreePlaced(c, s, t);
    } else {
      ArriveBusyOrdered(c, s, t);
      ArriveBusyPlaced(c, s, t);
    }
  }

  lemma QuietCheck(c: Client, s: State, t: Tid, q: CheckPc, k: After)
    requires t < |s.threads| && s.threads[t].pc == Check(q, k) && Sound(c, s.threads[t])
    requires !(q.CLock? && s.lock.Free?) && !(q.Unpark? && q.list != [])
    ensures OutsideMove(c, s, CheckStep(c, s, t, q, k), t)
    ensures CheckStep(c, s, t, q, k).threads[t].pc in {Check(CFront, k), Check(CState(s.hint), k), Check(CLock, k), Leave(k)}
  {
  }

  /** Unparking a lock-only waiter is a move of the waiter and a move of the thread that unparks it. */
  lemma UnparkKept(c: Client, s: State, t: Tid, list: seq<Tid>, k: After)
    requires Inv(c, s) && t < |s.threads| && s.threads[t].pc == Check(Unpark(list), k)
    requires list != [] && list[0] < |s.threads| && s.threads[list[0]].pc == Wait(KWait(false))
    ensures Inv(c, UnparkFirst(s, t, list, k))
  {
    hide Lined, View, HolderOk;
    var s0 := SetPc(s, list[0], Wait(KWait(true)));
    OutsideKept(c, s, s0, list[0]);
    OutsideKept(c, s0, UnparkFirst(s, t, list, k), t);
  }

  lemma CheckKept(c: Client, s: State, t: Tid, q: CheckPc, k: After)
    requires Inv(c, s) && t < |s.threads| && s.threads[t].pc == Check(q, k)
    requires q.Unpark? && q.list != [] ==> q.list[0] < |s.threads| && s.threads[q.list[0]].pc == Wait(KWait(false))
    ensures Inv(c, CheckStep(c, s, t, q, k))
  {
    if q.CLock? && s.lock.Free? {
      TakeLockKept(c, s, t, CZero, k);
    } else if q.Unpark? && q.list != [] {
      UnparkKept(c, s, t, q.list, k);
    } else {
      QuietCheck(c, s, t, q, k);
      OutsideKept(c, s, CheckStep(c, s, t, q, k), t);
    }
  }

  lemma QuietWait(c: Client, s: State, t: Tid, w: WaitPc)
    requires t < |s.threads| && s.threads[t].pc == Wait(w) && Sound(c, s.threads[t]) && !w.KTry?
    ensures OutsideMove(c, s, WaitStep(s, t, w), t)
    ensures WaitStep(s, t, w) == s || WaitStep(s, t, w).threads[t].pc in {Idle, Wait(KLoop), Wait(KTry)}
    ensures w == KWait(false) ==> WaitStep(s, t, w) == s
  {
  }

  lemma WaitKept(c: Client, s: State, t: Tid, w: WaitPc)
    requires Inv(c, s) && t < |s.threads| && s.threads[t].pc == Wait(w)
    ensures Inv(c, WaitStep(s, t, w))
  {
    if !w.KTry? {
      QuietWait(c, s, t, w);
      OutsideKept(c, s, WaitStep(s, t, w), t);
    } else if s.lock.Free? {
      TakeLockKept(c, s, t, KZero, ToUnlink);
    } else {
      PushLockOnlyOrdered(c, s, t);
      PushLockOnlyPlaced(c, s, t);
    }
  }

  lemma QuietEntry(c: Client, s: State, t: Tid, h: HoldPc, k: After)
    requires t < |s.threads| && s.threads[t].pc == Hold(h, k) && Sound(c, s.threads[t])
    requires s.lock.Busy? && HolderAt(s, t, h) && (h.EnqZero? || h.EnqDecide? || h.CZero? || h.KZero? || (h.KRemove? && !s.threads[t].linked))
    ensures InsideMove(c, s, EntryStep(c, s, t, h, k), t)
  {
  }

  lemma QuietLoop(c: Client, s: State, t: Tid, h: HoldPc, k: After)
    requires t < |s.threads| && s.threads[t].pc == Hold(h, k) && Sound(c, s.threads[t])
    requires s.lock.Busy? && HolderAt(s, t, h) && (h.RTest? || h.RForce?)
    ensures InsideMove(c, s, ReleaseStep(c, s, t, h, k), t)
    ensures ReleaseStep(c, s, t, h, k).private == s.private
  {
  }

  lemma QuietTake(c: Client, s: State, t: Tid, h: HoldPc, k: After)
    requires t < |s.threads| && s.threads[t].pc == Hold(h, k) && Sound(c, s.threads[t])
    requires s.lock.Busy? && HolderAt(s, t, h) && h.RTake? && s.head[0] < |s.threads|
    ensures InsideMove(c, s, ReleaseStep(c, s, t, h, k), t)
    ensures ReleaseStep(c, s, t, h, k).private == s.private
  {
  }

  lemma QuietUndo(c: Client, s: State, t: Tid, h: HoldPc, k: After)
    requires t < |s.threads| && s.threads[t].pc == Hold(h, k) && Sound(c, s.threads[t])
    requires s.lock.Busy? && HolderAt(s, t, h) && (h.RUndo? || (h.RLock? && !s.threads[h.x].parker.Open?))
    ensures InsideMove(c, s, ReleaseStep(c, s, t, h, k), t)
    ensures ReleaseStep(c, s, t, h, k).private == s.private
  {
  }

  lemma QuietTest(c: Client, s: State, t: Tid, h: HoldPc, k: After)
    requires t < |s.threads| && s.threads[t].pc == Hold(h, k) && Sound(c, s.threads[t])
    requires s.lock.Busy? && HolderAt(s, t, h) && (h.UTest? || (h.ULoop? && s.lock == Busy([])))
    ensures InsideMove(c, s, UnlockStep(s, t, h, k), t)
    ensures UnlockStep(s, t, h, k).private == s.private
  {
  }

  lemma QuietPublish(c: Client, s: State, t: Tid, h: HoldPc, k: After)
    requires t < |s.threads| && s.threads[t].pc == Hold(h, k) && Sound(c, s.threads[t])
    requires s.lock.Busy? && HolderAt(s, t, h) && (h.UHint? || h.UClear? || (h.UCas? && s.lock != Busy([])))
    ensures InsideMove(c, s, UnlockStep(s, t, h, k), t)
    ensures UnlockStep(s, t, h, k).private == s.private
  {
  }

  lemma ProcKept(c: Client, s: State, t: Tid, rem: seq<Block>, pos: nat, changed: bool, force: bool, k: After)
    requires Inv(c, s) && t < |s.threads| && s.threads[t].pc == Hold(Proc(rem, pos, changed, force), k)
    ensures Inv(c, ProcStep(s, t, rem, pos, changed, force, k))
  {
    var x := rem[0].who;
    if rem[0].LockOnly? {
      var h := ProcNext(rem, pos, changed, force);
      ProcLockOnlyOrdered(c, s, t, rem, pos, changed, force, k, h);
      ProcLockOnlyPlaced(c, s, t, rem, pos, changed, force, k, h);
    } else if s.threads[x].parker.Open? {
      var h := ProcNext(rem, pos, true, force);
      ProcInsertOrdered(c, s, t, rem, pos, changed, force, k, h);
      ProcInsertPlaced(c, s, t, rem, pos, changed, force, k, h);
    } else {
      var h := ProcNext(rem, pos, changed, force);
      ProcDropOrdered(c, s, t, rem, pos, changed, force, k, h);
      ProcDropPlaced(c, s, t, rem, pos, changed, force, k, h);
    }
  }

  lemma EntryKept(c: Client, s: State, t: Tid, h: HoldPc, k: After)
    requires Inv(c, s) && t < |s.threads| && s.threads[t].pc == Hold(h, k) && !Unlocking(h) && !Releasing(h)
    ensures Inv(c, EntryStep(c, s, t, h, k))
  {
    if h.EnqInsert? {
      LinkOwnOrdered(c, s, t, k);
      LinkOwnPlaced(c, s, t, k);
    } else if h.KRemove? && s.threads[t].linked {
      UnlinkOwnOrdered(c, s, t, k);
      UnlinkOwnPlaced(c, s, t, k);
    } else {
      QuietEntry(c, s, t, h, k);
      InsideKept(c, s, EntryStep(c, s, t, h, k), t);
    }
  }

  lemma HeadKnown(c: Client, s: State)
    requires Inv(c, s) && s.head != [] && Near(s) == s.head
    ensures s.head[0] < |s.threads|
  {
    assert s.queue[0] == s.head[0] && s.queue[0] in s.queue;
  }

  lemma ReleaseKept(c: Client, s: State, t: Tid, h: HoldPc, k: After)
    requires Inv(c, s) && t < |s.threads| && s.threads[t].pc == Hold(h, k) && Releasing(h)
    ensures Inv(c, ReleaseStep(c, s, t, h, k))
  {
    if h.RRemove? {
      TakeFrontOrdered(c, s, t, h.r, k);
      TakeFrontPlaced(c, s, t, h.r, k);
    } else if h.RLock? && s.threads[h.x].parker.Open? {
      GrantOrdered(c, s, t, h.x, h.r, k);
      GrantPlaced(c, s, t, h.x, h.r, k);
    } else if h.RWake? {
      WakeOrdered(c, s, t, h.x, h.r, k);
      WakePlaced(c, s, t, h.x, h.r, k);
    } else if h.RUnlink? {
      DropFrontOrdered(c, s, t, h.x, h.r, k);
      DropFrontPlaced(c, s, t, h.x, h.r, k);
    } else {
      if h.RTake? {
        HeadKnown(c, s);
        QuietTake(c, s, t, h, k);
      } else if h.RTest? || h.RForce? {
        QuietLoop(c, s, t, h, k);
      } else {
        QuietUndo(c, s, t, h, k);
      }
      InsideKept(c, s, ReleaseStep(c, s, t, h, k), t);
    }
  }

  lemma UnlockKept(c: Client, s: State, t: Tid, h: HoldPc, k: After)
    requires Inv(c, s) && t < |s.threads| && s.threads[t].pc == Hold(h, k) && Unlocking(h)
    ensures Inv(c, UnlockStep(s, t, h, k))
  {
    if h.UCas? && s.lock == Busy([]) {
      var list := if h.fast then [] else s.private;
      UnlockOrdered(c, s, t, h.fast, h.force, list, k);
      UnlockPlaced(c, s, t, h.fast, h.force, list, k);
    } else if h.ULoop? && s.lock != Busy([]) {
      DetachStackOrdered(c, s, t, h.force, k);
      DetachStackPlaced(c, s, t, h.force, k);
    } else if h.Proc? {
      ProcKept(c, s, t, h.rem, h.pos, h.changed, h.force, k);
    } else {
      if h.UTest? || h.ULoop? {
        QuietTest(c, s, t, h, k);
      } else {
        QuietPublish(c, s, t, h, k);
      }
      InsideKept(c, s, UnlockStep(s, t, h, k), t);
    }
  }
}
