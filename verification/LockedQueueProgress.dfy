/**
 The locked queue never stops working: whatever state a run has come to, letting the
 threads go on can bring every operation to its end, but for acquires that have to wait.
 */
module LockedQueueProgress {
  import opened LockClients
  import opened LockedQueue
  import opened LockedQueueInv
  import opened LockedQueueLedger
  import opened LockedQueueWaiters
  import opened LockedQueueOwed
  import opened LockedQueueRuns
  import opened LockedQueueSafety
  import opened LockedQueueTheorems

  // ---- a bound on the steps that are left ----

  /** What a blocked thread has left to do: to return, or first to unlink its block. */
  function ParkWeight(th: Thread): nat {
    if th.parker.Cancelled? then 400 else if th.parker.Granted? then 1 else 0
  }

  function Weight(th: Thread): nat {
    match th.pc
    case Idle => 0
    case Try(_) => 0
    case Wait(w) => (
      match w
      case Park => ParkWeight(th)
      case KLoop => 399
      case KTry => 398
      case KWait(woken) => if woken then 400 else 401)
    case Check(q, k) =>
      (match q case Unpark(_) => 5 case CFront => 4 case CState(_) => 301 case CLock => 300)
      + if k.ToPark? then ParkWeight(th) else 0
    case Hold(_, k) => 6 + if k.ToPark? then ParkWeight(th) else 0
  }

  /** The same for the lock holder until it frees the lock, when so many have arrived behind it. */
  function Rank(h: HoldPc, arrived: nat): nat {
    (match h
     case EnqInsert => 66
     case EnqZero(_) => 65
     case EnqDecide(_) => 64
     case CZero => 64
     case KZero => 66
     case KRemove => 65
     case RTest => 60
     case RTake => 59
     case RRemove(_) => 58
     case RLock(_, _) => 70
     case RWake(_, _) => 68
     case RUnlink(_, _) => 68
     case RUndo(_) => 66
     case RForce => 57
     case UTest(_) => 56
     case UHint(_, _) => if arrived == 0 then 51 else 55
     case UCas(_, _) => if arrived == 0 then 50 else 54
     case UClear(_, _) => 53
     case ULoop(_) => 52
     case Proc(rem, _, _, _) => 100 + |rem|)
    + if arrived == 0 then 0 else 200 + 2 * arrived
  }

  function HolderRank(s: State): nat {
    if Holder(s).Hold? then Rank(Holder(s).h, |Stack(s)|) else 0
  }

  function Val(tries: bool, th: Thread): nat {
    if tries then (if th.pc.Try? then 1 else 0) else Weight(th)
  }

  function Sum(tries: bool, ths: seq<Thread>): nat {
    if ths == [] then 0 else Sum(tries, ths[..|ths| - 1]) + Val(tries, ths[|ths| - 1])
  }

  lemma {:induction false} SumUpdate(tries: bool, ths: seq<Thread>, t: Tid, th: Thread)
    requires t < |ths|
    ensures Sum(tries, ths[t := th]) == Sum(tries, ths) - Val(tries, ths[t]) + Val(tries, th)
  {
    var k := |ths| - 1;
    if t == k {
      assert ths[t := th][..k] == ths[..k];
    } else {
      assert ths[t := th][..k] == ths[..k][t := th];
      SumUpdate(tries, ths[..k], t, th);
    }
  }

  /** Requests that have not been settled: those in the queue, and attempts that may still come there. */
  function Unsettled(s: State): nat {
    |s.queue| + 2 * Sum(true, s.threads)
  }

  function Left(s: State): nat {
    Sum(false, s.threads) + HolderRank(s)
  }

  predicate Nearer(s: State, s': State) {
    Unsettled(s') < Unsettled(s) || (Unsettled(s') == Unsettled(s) && Left(s') < Left(s))
  }

  lemma {:induction false} WithoutIsShorter(q: seq<Tid>, x: Tid)
    ensures |Without(q, x)| == |q| - if x in q then 1 else 0
  {
    if q != [] && q[0] != x {
      WithoutIsShorter(q[1..], x);
    }
  }

  /** One thread has changed. */
  lemma OneNearer(s: State, s': State, t: Tid, th': Thread)
    requires t < |s.threads| && s'.threads == s.threads[t := th']
    requires |s'.queue| + 2 * Val(true, th') <= |s.queue| + 2 * Val(true, s.threads[t])
    requires |s'.queue| + 2 * Val(true, th') == |s.queue| + 2 * Val(true, s.threads[t]) ==>
               Weight(th') + HolderRank(s') < Weight(s.threads[t]) + HolderRank(s)
    ensures Nearer(s, s')
  {
    SumUpdate(true, s.threads, t, th');
    SumUpdate(false, s.threads, t, th');
  }

  /** A thread x has changed that is in no attempt, and after that thread t. */
  lemma TwoNearer(s: State, s': State, x: Tid, th: Thread, t: Tid, pc: Pc)
    requires x < |s.threads| && t < |s.threads| && !s.threads[t].pc.Try? && !pc.Try?
    requires var ths := s.threads[x := th]; s'.threads == ths[t := ths[t].(pc := pc)]
    requires th.pc.Try? == s.threads[x].pc.Try? && |s'.queue| <= |s.queue|
    requires |s'.queue| == |s.queue| ==>
               var ths := s.threads[x := th];
               Weight(ths[t].(pc := pc)) + HolderRank(s') + Weight(th) < Weight(ths[t]) + HolderRank(s) + Weight(s.threads[x])
    ensures Nearer(s, s')
  {
    var ths := s.threads[x := th];
    SumUpdate(true, s.threads, x, th);
    SumUpdate(false, s.threads, x, th);
    SumUpdate(true, ths, t, s'.threads[t]);
    SumUpdate(false, ths, t, s'.threads[t]);
  }

  // ---- the lock holder ----

  lemma KnownHolder(s: State, t: Tid)
    requires Owned(s) && t < |s.threads| && s.threads[t].pc.Hold?
    ensures s.lock.Busy? && s.owner == t && Holder(s) == s.threads[t].pc
  {
  }

  /** The holder goes on, and neither the queue nor another thread changes. */
  lemma HolderMoves(s: State, s': State, t: Tid, h: HoldPc, h': HoldPc, k: After)
    requires Owned(s) && t < |s.threads| && s.threads[t].pc == Hold(h, k)
    requires s'.threads == s.threads[t := s.threads[t].(pc := Hold(h', k))] && s'.queue == s.queue && s'.owner == s.owner
    requires s'.lock.Busy? && Rank(h', |Stack(s')|) < Rank(h, |Stack(s)|)
    ensures Nearer(s, s')
  {
    KnownHolder(s, t);
    OneNearer(s, s', t, s'.threads[t]);
  }

  /** The holder goes on after a change to a block, which may have been granted its request. */
  lemma BlockNearer(s: State, s': State, x: Tid, th: Thread, t: Tid, h: HoldPc, h': HoldPc, k: After)
    requires Owned(s) && x < |s.threads| && t < |s.threads| && s.threads[t].pc == Hold(h, k)
    requires th.pc == s.threads[x].pc
    requires th.parker == s.threads[x].parker || (s.threads[x].parker.Open? && th.parker.Granting?) || (s.threads[x].parker.Granting? && th.parker.Granted?)
    requires var ths := s.threads[x := th]; s'.threads == ths[t := ths[t].(pc := Hold(h', k))]
    requires |s'.queue| <= |s.queue| && s'.lock == s.lock && s'.owner == s.owner
    requires Rank(h', |Stack(s)|) + (if th.parker == s.threads[x].parker then 0 else 1) < Rank(h, |Stack(s)|)
    ensures Nearer(s, s')
  {
    hide Nearer, Rank;
    KnownHolder(s, t);
    assert Holder(s') == Hold(h', k) && Stack(s') == Stack(s);
    assert Weight(th) <= Weight(s.threads[x]) + (if th.parker == s.threads[x].parker then 0 else 1);
    TwoNearer(s, s', x, th, t, Hold(h', k));
  }

  lemma EntryNearer(c: Client, s: State, t: Tid, h: HoldPc, k: After)
    requires Inv(c, s) && t < |s.threads| && s.threads[t].pc == Hold(h, k) && !Unlocking(h) && !Releasing(h)
    ensures Nearer(s, EntryStep(c, s, t, h, k))
  {
    hide Nearer, Lined, View;
    var s' := EntryStep(c, s, t, h, k);
    KnownHolder(s, t);
    if h.KRemove? && s.threads[t].linked {
      WithoutIsShorter(s.queue, t);
      assert Sound(c, s.threads[t]);
      OneNearer(s, s', t, s.threads[t].(pc := Hold(RTest, ToReturn)));
    } else {
      assert Sound(c, s.threads[t]);
      HolderChanges(s, s', t, h, s'.threads[t].pc.h, k, s'.threads[t].pc.k);
    }
  }

  /** The same when the holder gives up its own block, so that it has less left to do afterwards. */
  lemma HolderChanges(s: State, s': State, t: Tid, h: HoldPc, h': HoldPc, k: After, k': After)
    requires Owned(s) && t < |s.threads| && s.threads[t].pc == Hold(h, k)
    requires s'.threads == s.threads[t := s.threads[t].(pc := Hold(h', k'))] && s'.queue == s.queue && s'.owner == s.owner
    requires s'.lock.Busy? && Rank(h', |Stack(s')|) < Rank(h, |Stack(s)|) && (k' == k || k'.ToReturn?)
    ensures Nearer(s, s')
  {
    KnownHolder(s, t);
    OneNearer(s, s', t, s'.threads[t]);
  }

  lemma TestNearer(s: State, t: Tid, h: HoldPc, k: After)
    requires Owned(s) && t < |s.threads| && s.threads[t].pc == Hold(h, k) && (h.UTest? || h.UHint? || h.UClear?)
    ensures Nearer(s, UnlockStep(s, t, h, k))
  {
    hide Nearer, FrontCode;
    var s' := UnlockStep(s, t, h, k);
    KnownHolder(s, t);
    HolderMoves(s, s', t, h, s'.threads[t].pc.h, k);
  }

  lemma LoopNearer(s: State, t: Tid, force: bool, k: After)
    requires Owned(s) && t < |s.threads| && s.threads[t].pc == Hold(ULoop(force), k)
    ensures Nearer(s, UnlockStep(s, t, ULoop(force), k))
  {
    hide Nearer;
    var s' := UnlockStep(s, t, ULoop(force), k);
    KnownHolder(s, t);
    HolderMoves(s, s', t, ULoop(force), s'.threads[t].pc.h, k);
  }

  lemma UnlockNearer(c: Client, s: State, t: Tid, h: HoldPc, k: After)
    requires Inv(c, s) && t < |s.threads| && s.threads[t].pc == Hold(h, k) && Unlocking(h) && !h.Proc?
    ensures Nearer(s, UnlockStep(s, t, h, k))
  {
    hide Nearer, UnlockStep, Lined, View, Placed;
    KnownHolder(s, t);
    if h.ULoop? {
      LoopNearer(s, t, h.force, k);
    } else if h.UCas? {
      SwapNearer(s, t, h.fast, h.force, k);
    } else {
      TestNearer(s, t, h, k);
    }
  }

  lemma SwapNearer(s: State, t: Tid, fast: bool, force: bool, k: After)
    requires Owned(s) && t < |s.threads| && s.threads[t].pc == Hold(UCas(fast, force), k)
    ensures Nearer(s, UnlockStep(s, t, UCas(fast, force), k))
  {
    hide Nearer;
    KnownHolder(s, t);
    var h := UCas(fast, force);
    var s' := UnlockStep(s, t, h, k);
    if s.lock == Busy([]) {
      OneNearer(s, s', t, s'.threads[t]);
    } else {
      HolderMoves(s, s', t, h, s'.threads[t].pc.h, k);
    }
  }

  lemma ProcNearer(c: Client, s: State, t: Tid, rem: seq<Block>, pos: nat, changed: bool, force: bool, k: After)
    requires Inv(c, s) && t < |s.threads| && s.threads[t].pc == Hold(Proc(rem, pos, changed, force), k)
    ensures Nearer(s, ProcStep(s, t, rem, pos, changed, force, k))
  {
    hide Nearer, Lined, View;
    var h := Proc(rem, pos, changed, force);
    var s' := ProcStep(s, t, rem, pos, changed, force, k);
    KnownHolder(s, t);
    assert HolderAt(s, t, h);
    var x := rem[0].who;
    if rem[0].LockOnly? || s.threads[x].parker.Open? {
      HolderMoves(s, s', t, h, s'.threads[t].pc.h, k);
    } else {
      WithoutIsShorter(s.queue, x);
      BlockNearer(s, s', x, s.threads[x].(linked := false), t, h, s'.threads[t].pc.h, k);
    }
  }

  lemma ReleaseNearer(c: Client, s: State, t: Tid, h: HoldPc, k: After)
    requires Inv(c, s) && t < |s.threads| && s.threads[t].pc == Hold(h, k) && Releasing(h)
    ensures Nearer(s, ReleaseStep(c, s, t, h, k))
  {
    hide Nearer, Lined, View;
    var s' := ReleaseStep(c, s, t, h, k);
    KnownHolder(s, t);
    assert HolderAt(s, t, h);
    if h.RRemove? {
      FrontInQueue(c, s, t, h.r, k);
      WithoutIsShorter(s.queue, s.head[0]);
      OneNearer(s, s', t, s'.threads[t]);
    } else if h.RLock? || h.RWake? || h.RUnlink? {
      ServeNearer(c, s, t, h, k);
    } else {
      if h.RTake? {
        HeadKnown(c, s);
      }
      HolderMoves(s, s', t, h, s'.threads[t].pc.h, k);
    }
  }

  lemma FrontInQueue(c: Client, s: State, t: Tid, r: int, k: After)
    requires Inv(c, s) && t < |s.threads| && s.threads[t].pc == Hold(RRemove(r), k)
    ensures s.head != [] && s.head[0] in s.queue
  {
    KnownHolder(s, t);
    assert HolderAt(s, t, RRemove(r));
    assert s.queue[0] == s.head[0];
  }

  lemma ServeNearer(c: Client, s: State, t: Tid, h: HoldPc, k: After)
    requires Owned(s) && t < |s.threads| && s.threads[t].pc == Hold(h, k) && (h.RLock? || h.RWake? || h.RUnlink?)
    requires HolderAt(s, t, h)
    ensures Nearer(s, ReleaseStep(c, s, t, h, k))
  {
    hide Nearer;
    var s' := ReleaseStep(c, s, t, h, k);
    var x := s.threads[h.x];
    KnownHolder(s, t);
    match h
    case RLock(_, r) => BlockNearer(s, s', h.x, if x.parker.Open? then x.(parker := Granting) else x, t, h, s'.threads[t].pc.h, k);
    case RWake(_, r) => BlockNearer(s, s', h.x, Credited(c, x, r).(parker := Granted), t, h, s'.threads[t].pc.h, k);
    case RUnlink(_, r) => BlockNearer(s, s', h.x, x.(linked := false), t, h, s'.threads[t].pc.h, k);
  }

  lemma HolderNearer(c: Client, s: State, t: Tid)
    requires Safe(c, s) && t < |s.threads| && s.threads[t].pc.Hold?
    ensures Nearer(s, Do(c, s, t, Run))
  {
    hide Nearer, Inv, EntryStep, UnlockStep, ReleaseStep;
    var h, k := s.threads[t].pc.h, s.threads[t].pc.k;
    if h.Proc? {
      ProcNearer(c, s, t, h.rem, h.pos, h.changed, h.force, k);
      assert UnlockStep(s, t, h, k) == ProcStep(s, t, h.rem, h.pos, h.changed, h.force, k) by {
        ProcIsUnlock(s, t, h, k);
      }
    } else if Unlocking(h) {
      UnlockNearer(c, s, t, h, k);
    } else if Releasing(h) {
      ReleaseNearer(c, s, t, h, k);
    } else {
      EntryNearer(c, s, t, h, k);
    }
  }

  lemma ProcIsUnlock(s: State, t: Tid, h: HoldPc, k: After)
    requires t < |s.threads| && h.Proc?
    ensures UnlockStep(s, t, h, k) == ProcStep(s, t, h.rem, h.pos, h.changed, h.force, k)
  {
  }

  // ---- while the lock is free ----

  /** The threads of a sequence make one step each. */
  function Ran(c: Client, s: State, run: seq<Tid>): (s': State)
    ensures |s'.threads| == |s.threads|
    decreases |run|
  {
    if run == [] then s else Ran(c, Do(c, s, run[0], Run), run[1..])
  }

  lemma RanOne(c: Client, s: State, t: Tid, rest: seq<Tid>)
    ensures Ran(c, s, [t] + rest) == Ran(c, Do(c, s, t, Run), rest)
    ensures Ran(c, s, [t]) == Do(c, s, t, Run)
  {
    assert ([t] + rest)[1..] == rest;
  }

  lemma {:induction false} RanConcat(c: Client, s: State, run: seq<Tid>, more: seq<Tid>)
    ensures Ran(c, s, run + more) == Ran(c, Ran(c, s, run), more)
    decreases |run|
  {
    if run == [] {
      assert run + more == more;
    } else {
      assert (run + more)[1..] == run[1..] + more;
      RanConcat(c, Do(c, s, run[0], Run), run[1..], more);
    }
  }

  lemma {:induction false} RanSafe(c: Client, s: State, run: seq<Tid>)
    requires Safe(c, s)
    ensures Safe(c, Ran(c, s, run))
    decreases |run|
  {
    hide Safe, Do;
    if run != [] {
      StepSafe(c, s, run[0], Run);
      RanSafe(c, Do(c, s, run[0], Run), run[1..]);
    }
  }

  lemma NoHolder(s: State)
    requires Owned(s) && s.lock.Free?
    ensures HolderRank(s) == 0 && Stack(s) == [] && forall t :: 0 <= t < |s.threads| ==> !s.threads[t].pc.Hold?
  {
  }

  /** A waiting thread that is not at rest goes on. */
  lemma WaitNearer(c: Client, s: State, t: Tid, w: WaitPc)
    requires Inv(c, s) && s.lock.Free? && t < |s.threads| && s.threads[t].pc == Wait(w) && !AtRest(s.threads[t])
    ensures Nearer(s, WaitStep(s, t, w))
  {
    hide Nearer, Lined, View;
    NoHolder(s);
    assert Sound(c, s.threads[t]);
    var s' := WaitStep(s, t, w);
    OneNearer(s, s', t, s'.threads[t]);
  }

  /** A thread that unparks others, or is about to look whether it should take the lock. */
  lemma CheckNearer(c: Client, s: State, t: Tid, q: CheckPc, k: After)
    requires Inv(c, s) && s.lock.Free? && t < |s.threads| && s.threads[t].pc == Check(q, k) && !q.CFront?
    requires q.Unpark? && q.list != [] ==> q.list[0] < |s.threads| && Stuck(s.threads[q.list[0]])
    ensures Nearer(s, CheckStep(c, s, t, q, k))
  {
    hide Nearer, Lined, View;
    NoHolder(s);
    assert Sound(c, s.threads[t]);
    var s' := CheckStep(c, s, t, q, k);
    if q.Unpark? && q.list != [] {
      var x := q.list[0];
      TwoNearer(s, s', x, s.threads[x].(pc := Wait(KWait(true))), t, s'.threads[t].pc);
    } else {
      OneNearer(s, s', t, s'.threads[t]);
    }
  }

  /** The thread finds that it should take the lock, and takes it. */
  lemma CheckTakes(c: Client, s: State, t: Tid, k: After)
    requires s.lock.Free? && t < |s.threads| && s.threads[t].pc == Check(CFront, k) && s.hint != 0 && Pending(c, s.word, s.hint)
    ensures Ran(c, s, [t, t, t]) == TakeLock(s, t, CZero, k)
  {
    hide Ran, Pending;
    var s1 := SetPc(s, t, Check(CState(s.hint), k));
    var s2 := SetPc(s1, t, Check(CLock, k));
    RanThree(c, s, t, s1, s2, TakeLock(s, t, CZero, k));
  }

  /** It comes to the front, and deducts its request. */
  lemma HolderTakes(c: Client, s: State, t: Tid, k: After, r: int)
    requires t < |s.threads| && s.threads[t].pc == Hold(CZero, k)
    requires s.head != [] && s.head[0] < |s.threads| && r == s.threads[s.head[0]].req && CanTake(c, s.word, r) && LoopGuard(c, s.word)
    ensures Ran(c, s, [t, t, t]) == SetPc(s.(hint := 0, private := [], word := Taken(c, s.word, r)), t, Hold(RRemove(r), k))
  {
    hide Ran, Taken, CanTake, LoopGuard;
    var s1 := SetPc(s.(hint := 0, private := []), t, Hold(RTest, k));
    var s2 := SetPc(s1, t, Hold(RTake, k));
    var s3 := SetPc(SetWord(s2, Taken(c, s.word, r)), t, Hold(RRemove(r), k));
    assert s3 == SetPc(s.(hint := 0, private := [], word := Taken(c, s.word, r)), t, Hold(RRemove(r), k));
    RanThree(c, s, t, s1, s2, s3);
  }

  lemma HolderRemoves(c: Client, s: State, t: Tid, k: After, r: int)
    requires t < |s.threads| && s.threads[t].pc == Hold(RRemove(r), k) && s.head != []
    ensures Ran(c, s, [t]) == TakeFront(s, t, r, k)
  {
    RanOne(c, s, t, []);
  }

  /** A thread that looks at a front that can be served takes the lock and the front's block. */
  lemma FrontIsTaken(c: Client, s: State, t: Tid, k: After) returns (run: seq<Tid>)
    requires Safe(c, s) && s.lock.Free? && t < |s.threads| && s.threads[t].pc == Check(CFront, k)
    requires s.hint != 0 && Pending(c, s.word, s.hint)
    ensures Nearer(s, Ran(c, s, run))
  {
    hide Nearer, Ran, Lined, Ledger, DebtOk, WaitersOk, ThreadsOk, Taken, Unsettled, Left, Do;
    NoHolder(s);
    HintMeansFront(c, s);
    FrontValid(c, s);
    PendingIsCanTake(c, s.word, s.hint);
    var r, s3 := s.hint, TakeLock(s, t, CZero, k);
    CheckTakes(c, s, t, k);
    assert s3.threads[s.head[0]].req == r;
    HolderTakes(c, s3, t, k, r);
    var s6 := SetPc(s3.(hint := 0, private := [], word := Taken(c, s3.word, r)), t, Hold(RRemove(r), k));
    HolderRemoves(c, s6, t, k, r);
    RanConcat(c, s, [t, t, t], [t, t, t]);
    RanConcat(c, s, [t, t, t] + [t, t, t], [t]);
    run := [t, t, t] + [t, t, t] + [t];
    var e := TakeFront(s6, t, r, k);
    WithoutIsShorter(s.queue, s.head[0]);
    assert s.queue == s.head;
    assert e.threads == s.threads[t := s.threads[t].(pc := Hold(RLock(s.head[0], r), k))];
    OneNearer(s, e, t, s.threads[t].(pc := Hold(RLock(s.head[0], r), k)));
  }

  lemma HintMeansFront(c: Client, s: State)
    requires Inv(c, s) && s.lock.Free? && s.hint != 0
    ensures s.head != []
  {
  }

  lemma RanThree(c: Client, s: State, t: Tid, s1: State, s2: State, s3: State)
    requires t < |s.threads| && |s1.threads| == |s2.threads| == |s.threads|
    requires s1 == Advance(c, s, t) && s2 == Advance(c, s1, t) && s3 == Advance(c, s2, t)
    ensures Ran(c, s, [t, t, t]) == s3
  {
    hide Advance;
    RanOne(c, s, t, [t, t]);
    RanOne(c, s1, t, [t]);
    assert [t] + [t, t] == [t, t, t] && [t] + [t] == [t, t];
  }

  /** A thread at the start of its check ends it, or serves the front. */
  lemma FrontNearer(c: Client, s: State, t: Tid, k: After) returns (run: seq<Tid>)
    requires Safe(c, s) && s.lock.Free? && t < |s.threads| && s.threads[t].pc == Check(CFront, k)
    ensures Nearer(s, Ran(c, s, run))
  {
    hide Nearer, Ran, Lined, View, Ledger, DebtOk, WaitersOk;
    NoHolder(s);
    assert Sound(c, s.threads[t]);
    if s.hint != 0 && Pending(c, s.word, s.hint) {
      run := FrontIsTaken(c, s, t, k);
    } else {
      var e := SetPc(s, t, Leave(k));
      if s.hint == 0 {
        RanOne(c, s, t, []);
        run := [t];
        assert Ran(c, s, run) == e;
      } else {
        var s1 := SetPc(s, t, Check(CState(s.hint), k));
        RanOne(c, s, t, [t]);
        RanOne(c, s1, t, []);
        run := [t] + [t];
        assert Ran(c, s, run) == e;
      }
      OneNearer(s, e, t, e.threads[t]);
    }
  }

  // ---- attempts ----

  /** The steps that an attempt has left; one that has read another word than there is now starts again. */
  function TriesLeft(s: State, a: TryPc): nat {
    match a
    case AcqRead(_) => 5
    case AcqLock(v, _) => if v == s.word then 4 else 8
    case AcqHead(v, _) => if v == s.word then 3 else 7
    case AcqCas(v, _) => if v == s.word then 2 else 6
    case Enq => 1
  }

  /** A step of an attempt brings it nearer to its end, or ends it. */
  predicate TriesOn(s: State, s': State, t: Tid)
    requires t < |s.threads| == |s'.threads| && s.threads[t].pc.Try?
  {
    || Unsettled(s') < Unsettled(s)
    || (Unsettled(s') == Unsettled(s) && s'.lock.Free? && s'.threads[t].pc.Try? && TriesLeft(s', s'.threads[t].pc.a) < TriesLeft(s, s.threads[t].pc.a))
  }

  lemma OneTries(s: State, s': State, t: Tid, th': Thread)
    requires t < |s.threads| && s.threads[t].pc.Try? && s'.threads == s.threads[t := th']
    requires if th'.pc.Try? then s'.lock.Free? && s'.queue == s.queue && TriesLeft(s', th'.pc.a) < TriesLeft(s, s.threads[t].pc.a)
             else |s'.queue| <= |s.queue| + 1
    ensures TriesOn(s, s', t)
  {
    hide Sum, TriesLeft;
    SumUpdate(true, s.threads, t, th');
  }

  lemma TryGoesOn(c: Client, s: State, t: Tid)
    requires s.lock.Free? && t < |s.threads| && s.threads[t].pc.Try?
    ensures TriesOn(s, Do(c, s, t, Run), t)
  {
    hide TriesOn, CanTake, Taken, Credited;
    var s' := TryStep(c, s, t, s.threads[t].pc.a);
    if s.threads[t].pc.a.Enq? {
      OneTries(s, s', t, s'.threads[t]);
    } else if s.threads[t].pc.a.AcqCas? {
      CreditedStays(c, s.threads[t], s.threads[t].req);
      OneTries(s, s', t, s'.threads[t]);
    } else {
      OneTries(s, s', t, s'.threads[t]);
    }
  }

  lemma CreditedStays(c: Client, th: Thread, r: int)
    ensures Credited(c, th, r).pc == th.pc
  {
  }

  lemma {:induction false} TryEnds(c: Client, s: State, t: Tid) returns (run: seq<Tid>)
    requires Safe(c, s) && s.lock.Free? && t < |s.threads| && s.threads[t].pc.Try?
    ensures Unsettled(Ran(c, s, run)) < Unsettled(s)
    decreases TriesLeft(s, s.threads[t].pc.a)
  {
    hide Unsettled, TriesLeft, Do, Inv, Ran;
    assert Owned(s) by {
      SafeIsOwned(c, s);
    }
    TryGoesOn(c, s, t);
    var s' := Do(c, s, t, Run);
    RanOne(c, s, t, []);
    run := [t];
    if !(Unsettled(s') < Unsettled(s)) {
      StepSafe(c, s, t, Run);
      var rest := TryEnds(c, s', t);
      RanOne(c, s, t, rest);
      run := [t] + rest;
    }
  }

  lemma SafeIsOwned(c: Client, s: State)
    requires Safe(c, s)
    ensures Owned(s)
  {
  }

  // ---- everything ends ----

  /** If an operation has not ended, a thread can bring all nearer to their ends. */
  lemma SomeoneGoesOn(c: Client, s: State) returns (run: seq<Tid>)
    requires Safe(c, s) && !Quiescent(s)
    ensures Nearer(s, Ran(c, s, run))
  {
    hide Nearer, Ran, Lined, View, Ledger, DebtOk;
    var t :| 0 <= t < |s.threads| && !AtRest(s.threads[t]);
    run := [t];
    RanOne(c, s, t, []);
    if s.lock.Busy? {
      run := [s.owner];
      RanOne(c, s, s.owner, []);
      HolderNearer(c, s, s.owner);
    } else {
      match s.threads[t].pc
      case Idle =>
      case Try(a) =>
        run := TryEnds(c, s, t);
        assert Nearer(s, Ran(c, s, run)) by {
          FewerIsNearer(s, Ran(c, s, run));
        }
      case Check(q, k) =>
        if q.CFront? {
          run := FrontNearer(c, s, t, k);
        } else {
          CheckWaiters(c, s, t, q, k);
          CheckNearer(c, s, t, q, k);
        }
      case Wait(w) => WaitNearer(c, s, t, w);
      case Hold(h, k) =>
    }
  }

  lemma FewerIsNearer(s: State, s': State)
    requires Unsettled(s') < Unsettled(s)
    ensures Nearer(s, s')
  {
  }

  lemma {:induction false} OperationsEnd(c: Client, s: State) returns (run: seq<Tid>)
    requires Safe(c, s)
    ensures Quiescent(Ran(c, s, run))
    decreases Unsettled(s), Left(s)
  {
    hide Safe, Unsettled, Left, Ran, Quiescent;
    run := [];
    if !Quiescent(s) {
      var steps := SomeoneGoesOn(c, s);
      RanSafe(c, s, steps);
      var rest := OperationsEnd(c, Ran(c, s, steps));
      RanConcat(c, s, steps, rest);
      run := steps + rest;
    } else {
      RanNone(c, s);
    }
  }

  lemma RanNone(c: Client, s: State)
    ensures Ran(c, s, []) == s
  {
  }

  function Runs(run: seq<Tid>): Schedule {
    seq(|run|, i requires 0 <= i < |run| => (run[i], Run))
  }

  lemma {:induction false} RanAfter(c: Client, n: nat, sched: Schedule, run: seq<Tid>)
    ensures Exec(c, n, sched + Runs(run)) == Ran(c, Exec(c, n, sched), run)
    decreases |run|
  {
    hide Do;
    if run == [] {
      assert sched + Runs(run) == sched;
    } else {
      var longer := sched + [(run[0], Run)];
      assert longer[..|longer| - 1] == sched;
      RanAfter(c, n, longer, run[1..]);
      assert longer + Runs(run[1..]) == sched + Runs(run);
    }
  }

  /**
   Whatever a run has come to, letting the threads go on, with no further call, timeout or
   alert, can bring every operation to its end, but for acquires that wait; and then nobody
   waits who could be served, unless a reader left at the maximum reader count before.
   */
  lemma EveryOperationCanEnd(c: Client, n: nat, sched: Schedule) returns (run: seq<Tid>)
    ensures Quiescent(Exec(c, n, sched + Runs(run)))
    ensures NeverLeavesFull(c, n, sched) ==> NobodyStranded(c, Exec(c, n, sched + Runs(run)))
  {
    hide Safe, Exec, Quiescent, NobodyStranded;
    ExecSafe(c, n, sched);
    run := OperationsEnd(c, Exec(c, n, sched));
    RanAfter(c, n, sched, run);
    if NeverLeavesFull(c, n, sched) {
      var all := sched + Runs(run);
      forall i | 0 <= i < |all| ensures !LeavesFull(c, Exec(c, n, all[..i]), all[i].0, all[i].1) {
        if i < |sched| {
          assert all[..i] == sched[..i] && all[i] == sched[i];
        }
      }
      NoStrandedWaiter(c, n, all);
    }
  }
}
