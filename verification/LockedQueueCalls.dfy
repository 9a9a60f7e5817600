/**
 What acquire calls on the locked queue's clients return.
 */
module LockedQueueCalls {
  import opened LockClients
  import opened LockedQueue
  import opened LockedQueueInv
  import opened LockedQueueLedger
  import opened LockedQueueSafety
  import opened LockedQueueTheorems

  /** The call must not wait: it was made with a zero timeout. */
  predicate Polls(a: TryPc) {
    !a.Enq? && !a.block
  }

  /** The thread has been given what it asked for. */
  predicate Given(c: Client, th: Thread, th': Thread) {
    SameCoins(Credited(c, th, th.req), th')
  }

  /** The attempt may fail: the request cannot be granted, or others came first. */
  predicate MayFail(c: Client, s: State, r: int) {
    !CanTake(c, s.word, r) || s.head != [] || Stack(s) != []
  }

  /**
   An attempt ends with the grant of exactly what was asked for, or, if it polls, with
   nothing, and then for a reason; one that does not poll waits instead.
   */
  predicate TriesRight(c: Client, s: State, th: Thread, th': Thread) {
    th.pc.Try? ==>
      && th'.req == th.req
      && (th'.pc.Idle? ==> Given(c, th, th') || (SameCoins(th, th') && Polls(th.pc.a) && MayFail(c, s, th.req)))
      && (Polls(th.pc.a) && !th'.pc.Idle? ==> SameCoins(th, th') && th'.pc.Try? && Polls(th'.pc.a))
      && (!Polls(th.pc.a) && !th'.pc.Idle? ==> SameCoins(th, th') && if th'.pc.Try? then !Polls(th'.pc.a) else Framed(th'.pc))
  }

  /** A thread that waits gets what it asked for at the moment its parker is granted; it returns so, or after a cancellation with nothing. */
  predicate WaitsRight(c: Client, th: Thread, th': Thread) {
    Framed(th.pc) ==>
      && th'.req == th.req
      && (if th.parker.Granting? && th'.parker.Granted? then Given(c, th, th') else SameCoins(th, th') && (th'.parker.Granted? ==> th.parker.Granted?))
      && (!Framed(th'.pc) ==> (th'.pc.Idle? && th.pc == Wait(Park) && th.parker.Granted?) || th.parker.Cancelled?)
      && (th.parker.Cancelled? ==> th'.parker.Cancelled?)
  }

  /** What a step may do to a thread. */
  predicate StepIsRight(c: Client, s: State, s': State, u: Tid)
    requires u < |s.threads| == |s'.threads|
  {
    var th, th' := s.threads[u], s'.threads[u];
    TriesRight(c, s, th, th') && WaitsRight(c, th, th') && (th.pc.Idle? ==> SameCoins(th, th'))
    && (th'.parker.Cancelled? ==> th.parker.Cancelled?)
  }

  lemma EnqIsRight(c: Client, s: State, t: Tid, u: Tid)
    requires t < |s.threads| && u < |s.threads| && s.threads[t].pc == Try(Enq) && Sound(c, s.threads[t])
    ensures StepIsRight(c, s, TryStep(c, s, t, Enq), u)
  {
  }

  lemma CasIsRight(c: Client, s: State, t: Tid, v: int, b: bool, u: Tid)
    requires t < |s.threads| && u < |s.threads| && s.threads[t].pc == Try(AcqCas(v, b))
    ensures StepIsRight(c, s, TryStep(c, s, t, AcqCas(v, b)), u)
  {
  }

  /** An attempt goes on, or fails. */
  lemma AttemptIsRight(c: Client, s: State, t: Tid, th': Thread, u: Tid)
    requires t < |s.threads| && u < |s.threads| && s.threads[t].pc.Try? && !s.threads[t].pc.a.Enq?
    requires var th := s.threads[t];
      && th' == th.(pc := th'.pc, parker := th'.parker)
      && (th'.parker == th.parker || th'.parker.Open?)
      && (th'.pc == Try(Enq) ==> th.pc.a.block)
      && (th'.pc.Idle? ==> !th.pc.a.block && MayFail(c, s, th.req))
      && (th'.pc.Idle? || (th'.pc.Try? && (!th'.pc.a.Enq? ==> th'.pc.a.block == th.pc.a.block)))
    ensures StepIsRight(c, s, s.(threads := s.threads[t := th']), u)
  {
  }

  lemma TryIsRight(c: Client, s: State, t: Tid, a: TryPc, u: Tid)
    requires t < |s.threads| && u < |s.threads| && s.threads[t].pc == Try(a) && Sound(c, s.threads[t])
    ensures StepIsRight(c, s, TryStep(c, s, t, a), u)
  {
    hide StepIsRight, TriesRight, WaitsRight, CanTake;
    if a.Enq? {
      EnqIsRight(c, s, t, u);
    } else if a.AcqCas? {
      CasIsRight(c, s, t, a.seen, a.block, u);
    } else {
      var s' := TryStep(c, s, t, a);
      AttemptIsRight(c, s, t, s'.threads[t], u);
      assert s' == s.(threads := s.threads[t := s'.threads[t]]);
    }
  }

  lemma CheckIsRight(c: Client, s: State, t: Tid, q: CheckPc, k: After, u: Tid)
    requires t < |s.threads| && u < |s.threads| && s.threads[t].pc == Check(q, k) && Sound(c, s.threads[t])
    requires q.Unpark? && q.list != [] ==> q.list[0] < |s.threads| && Framed(s.threads[q.list[0]].pc)
    requires q.Unpark? && q.list != [] ==> q.list[0] != t
    ensures StepIsRight(c, s, CheckStep(c, s, t, q, k), u)
  {
  }

  lemma WaitIsRight(c: Client, s: State, t: Tid, w: WaitPc, u: Tid)
    requires t < |s.threads| && u < |s.threads| && s.threads[t].pc == Wait(w) && Sound(c, s.threads[t])
    ensures StepIsRight(c, s, WaitStep(s, t, w), u)
  {
  }

  lemma EntryIsRight(c: Client, s: State, t: Tid, h: HoldPc, k: After, u: Tid)
    requires t < |s.threads| && u < |s.threads| && s.threads[t].pc == Hold(h, k) && Sound(c, s.threads[t]) && !Unlocking(h) && !Releasing(h)
    ensures StepIsRight(c, s, EntryStep(c, s, t, h, k), u)
  {
  }

  /** The block that the holder works on changes, and the holder goes on. */
  lemma BlockIsRight(c: Client, s: State, s': State, t: Tid, x: Tid, th: Thread, h: HoldPc, h': HoldPc, k: After, u: Tid)
    requires t < |s.threads| && x < |s.threads| && u < |s.threads| && s.threads[t].pc == Hold(h, k)
    requires th.pc == s.threads[x].pc && th.req == s.threads[x].req && (th.parker.Cancelled? <==> s.threads[x].parker.Cancelled?)
    requires if th.parker.Granted? && !s.threads[x].parker.Granted? then s.threads[x].parker.Granting? && Given(c, s.threads[x], th) && Framed(th.pc)
             else SameCoins(s.threads[x], th) && !(s.threads[x].parker.Granting? && th.parker.Granted?)
    requires var ths := s.threads[x := th]; s'.threads == ths[t := ths[t].(pc := Hold(h', k))]
    ensures StepIsRight(c, s, s', u)
  {
  }

  lemma ReleaseIsRight(c: Client, s: State, t: Tid, h: HoldPc, k: After, u: Tid)
    requires t < |s.threads| && u < |s.threads| && s.threads[t].pc == Hold(h, k) && Sound(c, s.threads[t]) && Releasing(h)
    requires HolderAt(s, t, h)
    ensures StepIsRight(c, s, ReleaseStep(c, s, t, h, k), u)
  {
    hide StepIsRight, HolderAt;
    var s' := ReleaseStep(c, s, t, h, k);
    if h.RLock? || h.RWake? || h.RUnlink? {
      ServedIsRight(c, s, t, h, k, u);
    } else {
      SameIsRight(c, s, s', t, h, s'.threads[t].pc.h, k, u);
    }
  }

  /** Only the holder's position changes. */
  lemma SameIsRight(c: Client, s: State, s': State, t: Tid, h: HoldPc, h': HoldPc, k: After, u: Tid)
    requires t < |s.threads| && u < |s.threads| && s.threads[t].pc == Hold(h, k)
    requires s'.threads == s.threads[t := s.threads[t].(pc := Hold(h', k))]
    ensures StepIsRight(c, s, s', u)
  {
  }

  lemma ServedIsRight(c: Client, s: State, t: Tid, h: HoldPc, k: After, u: Tid)
    requires t < |s.threads| && u < |s.threads| && s.threads[t].pc == Hold(h, k) && (h.RLock? || h.RWake? || h.RUnlink?)
    requires HolderAt(s, t, h)
    ensures StepIsRight(c, s, ReleaseStep(c, s, t, h, k), u)
  {
    var s' := ReleaseStep(c, s, t, h, k);
    var x := s.threads[h.x];
    hide StepIsRight, Given;
    match h
    case RLock(_, r) => BlockIsRight(c, s, s', t, h.x, if x.parker.Open? then x.(parker := Granting) else x, h, s'.threads[t].pc.h, k, u);
    case RWake(_, r) => BlockIsRight(c, s, s', t, h.x, Credited(c, x, r).(parker := Granted), h, s'.threads[t].pc.h, k, u);
    case RUnlink(_, r) => BlockIsRight(c, s, s', t, h.x, x.(linked := false), h, s'.threads[t].pc.h, k, u);
  }

  lemma ProcIsRight(c: Client, s: State, t: Tid, rem: seq<Block>, pos: nat, changed: bool, force: bool, k: After, u: Tid)
    requires t < |s.threads| && u < |s.threads| && s.threads[t].pc == Hold(Proc(rem, pos, changed, force), k)
    requires HolderAt(s, t, Proc(rem, pos, changed, force))
    ensures StepIsRight(c, s, ProcStep(s, t, rem, pos, changed, force, k), u)
  {
    hide StepIsRight;
    var s' := ProcStep(s, t, rem, pos, changed, force, k);
    var h, h' := Proc(rem, pos, changed, force), s'.threads[t].pc.h;
    var x := rem[0].who;
    if rem[0].LockOnly? || s.threads[x].parker.Open? {
      SameIsRight(c, s, s', t, h, h', k, u);
    } else {
      BlockIsRight(c, s, s', t, x, s.threads[x].(linked := false), h, h', k, u);
    }
  }

  lemma UnlockIsRight(c: Client, s: State, t: Tid, h: HoldPc, k: After, u: Tid)
    requires t < |s.threads| && u < |s.threads| && s.threads[t].pc == Hold(h, k) && Unlocking(h) && HolderAt(s, t, h)
    ensures StepIsRight(c, s, UnlockStep(s, t, h, k), u)
  {
    hide StepIsRight, HolderAt, FrontCode;
    var s' := UnlockStep(s, t, h, k);
    if h.Proc? {
      ProcIsRight(c, s, t, h.rem, h.pos, h.changed, h.force, k, u);
    } else if h.UCas? && s.lock == Busy([]) {
      FreedIsRight(c, s, t, if h.fast then [] else s.private, k, u);
    } else {
      SameIsRight(c, s, s', t, h, if s'.threads[t].pc.Hold? then s'.threads[t].pc.h else h, k, u);
    }
  }

  lemma FreedIsRight(c: Client, s: State, t: Tid, list: seq<Tid>, k: After, u: Tid)
    requires t < |s.threads| && u < |s.threads| && s.threads[t].pc.Hold? && s.threads[t].pc.k == k
    ensures StepIsRight(c, s, Unlock(s, t, list, k), u)
  {
  }

  lemma RunIsRight(c: Client, s: State, t: Tid, u: Tid)
    requires Safe(c, s) && t < |s.threads| && u < |s.threads|
    ensures StepIsRight(c, s, Advance(c, s, t), u)
  {
    hide StepIsRight, Lined, View, Ledger, Sound, TryStep, CheckStep, WaitStep, EntryStep, ReleaseStep, UnlockStep;
    assert Sound(c, s.threads[t]);
    match s.threads[t].pc
    case Idle => StaysRight(c, s, u);
    case Try(a) => TryIsRight(c, s, t, a, u);
    case Check(q, k) =>
      CheckWaiters(c, s, t, q, k);
      CheckIsRight(c, s, t, q, k, u);
    case Wait(w) => WaitIsRight(c, s, t, w, u);
    case Hold(h, k) =>
      assert HolderAt(s, t, h) by {
        assert Holder(s) == Hold(h, k);
      }
      if Unlocking(h) {
        UnlockIsRight(c, s, t, h, k, u);
      } else if Releasing(h) {
        ReleaseIsRight(c, s, t, h, k, u);
      } else {
        EntryIsRight(c, s, t, h, k, u);
      }
  }

  lemma StaysRight(c: Client, s: State, u: Tid)
    requires u < |s.threads|
    ensures StepIsRight(c, s, s, u)
  {
  }

  /** What every step may do to every thread, in every state that can be reached. */
  lemma StepReturns(c: Client, n: nat, sched: Schedule, t: Tid, a: Action, u: Tid)
    requires t < n && u < n
    ensures var s := Exec(c, n, sched); var th, th' := s.threads[u], Do(c, s, t, a).threads[u];
      && TriesRight(c, s, th, th') && WaitsRight(c, th, th')
      && (th.pc.Idle? && !(u == t && a.StartRelease?) ==> SameCoins(th, th'))
      && (th'.parker.Cancelled? && !th.parker.Cancelled? ==> u == t && a.Cancel?)
  {
    hide Safe, Exec, Advance, TriesRight, WaitsRight;
    var s := Exec(c, n, sched);
    ExecSafe(c, n, sched);
    if a.Run? {
      RunIsRight(c, s, t, u);
    } else {
      ActionIsRight(c, s, t, a, u);
    }
  }

  lemma ActionIsRight(c: Client, s: State, t: Tid, a: Action, u: Tid)
    requires t < |s.threads| && u < |s.threads| && !a.Run?
    ensures var th, th' := s.threads[u], Do(c, s, t, a).threads[u];
      && TriesRight(c, s, th, th') && WaitsRight(c, th, th')
      && (th.pc.Idle? && !(u == t && a.StartRelease?) ==> SameCoins(th, th'))
      && (th'.parker.Cancelled? && !th.parker.Cancelled? ==> u == t && a.Cancel?)
  {
    hide Advance;
  }

  /** A release of any LONG succeeds exactly if the count stays between zero and its maximum, and changes nothing otherwise. */
  lemma ReleaseReturns(initial: int, maximum: int, n: nat, sched: Schedule, t: Tid, k: int)
    requires 0 <= initial <= maximum && maximum + MAX_REQUEST <= LONG_MAX && -0x8000_0000 <= k <= LONG_MAX
    requires t < n && Exec(Semaphore(initial, maximum), n, sched).threads[t].pc.Idle?
    ensures var c := Semaphore(initial, maximum); var s := Exec(c, n, sched); var s' := Do(c, s, t, StartRelease(k));
      if 0 <= s.word + k <= maximum then
        s'.word == s.word + k && s'.released == s.released + k && s'.threads[t].pc == Check(CFront, ToReturn)
      else s' == s
  {
    hide Exec;
    var c := Semaphore(initial, maximum);
    PermitsAreConserved(initial, maximum, n, sched);
    WordIsBounded(c, n, sched);
  }

  lemma WordIsBounded(c: Client, n: nat, sched: Schedule)
    requires c.Semaphore? && Roomy(c)
    ensures Exec(c, n, sched).word <= LONG_MAX
  {
    hide Exec;
    ExecSafe(c, n, sched);
    assert Temp(c, Holder(Exec(c, n, sched)), Permits) >= 0;
  }

  /** An exit gives back one reader, or the write lock. */
  lemma ExitReturns(n: nat, sched: Schedule, t: Tid)
    requires t < n && Exec(ReadWrite, n, sched).threads[t].pc.Idle?
    ensures var s := Exec(ReadWrite, n, sched); var th, s' := s.threads[t], Do(ReadWrite, s, t, StartRelease(LOCK_READ));
      if th.readers > 0 then s'.word == s.word - 1 && s'.threads[t].readers == th.readers - 1 && s'.threads[t].writers == th.writers
      else s' == s
    ensures var s := Exec(ReadWrite, n, sched); var th, s' := s.threads[t], Do(ReadWrite, s, t, StartRelease(LOCK_WRITE));
      if th.writers > 0 then s'.word == 0 && s'.threads[t].writers == 0 && s'.threads[t].readers == th.readers
      else s' == s
  {
    hide Exec;
    if Exec(ReadWrite, n, sched).threads[t].writers > 0 {
      WriterIsAlone(n, sched, t, t);
    }
  }
}
