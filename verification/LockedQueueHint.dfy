/**
 The hint that releasers read without the lock, while somebody holds the lock.
 */
module LockedQueueHint {
  import opened LockClients
  import opened LockedQueue
  import opened LockedQueueInv
  import opened LockedQueueWaiters
  import opened LockedQueueSafety

  /** The holder has reset the hint, and is not about to swap the lock word to free. */
  predicate HasReset(h: HoldPc) {
    !h.EnqInsert? && !h.EnqZero? && !h.CZero? && !h.KZero? && !h.UCas? && !h.UClear?
  }

  predicate HintOk(s: State) {
    Holder(s).Hold? && HasReset(Holder(s).h) ==> s.hint == 0
  }

  lemma HoldKeepsHint(c: Client, s: State, t: Tid, h: HoldPc, k: After)
    requires Owned(s) && HintOk(s) && t < |s.threads| && s.threads[t].pc == Hold(h, k)
    ensures HintOk(HoldStep(c, s, t, h, k))
  {
    hide CanTake, Taken, Undone, LoopGuard, Exhausted, Exclusive, Credited, FrontCode, Without;
    assert Holder(s) == Hold(h, k);
  }

  /** A thread without the lock leaves the hint alone, and comes with it to a position before the reset. */
  lemma OthersKeepHint(s: State, s': State, t: Tid)
    requires Owned(s) && HintOk(s) && t < |s.threads| == |s'.threads| && !s.threads[t].pc.Hold?
    requires s'.hint == s.hint && (forall u :: 0 <= u < |s.threads| && u != t ==> (s'.threads[u].pc.Hold? <==> s.threads[u].pc.Hold?))
    requires forall u :: 0 <= u < |s.threads| && u != t && s.threads[u].pc.Hold? ==> s'.threads[u].pc == s.threads[u].pc
    requires if s'.threads[t].pc.Hold? then s'.owner == t && !HasReset(s'.threads[t].pc.h)
             else s'.owner == s.owner && (s'.lock.Busy? <==> s.lock.Busy?)
    ensures HintOk(s')
  {
  }

  lemma TryKeepsHint(c: Client, s: State, t: Tid, a: TryPc)
    requires Owned(s) && HintOk(s) && t < |s.threads| && s.threads[t].pc == Try(a)
    ensures HintOk(TryStep(c, s, t, a))
  {
    hide CanTake, Taken, Credited, HintOk;
    OthersKeepHint(s, TryStep(c, s, t, a), t);
  }

  lemma CheckKeepsHint(c: Client, s: State, t: Tid, q: CheckPc, k: After)
    requires Owned(s) && HintOk(s) && t < |s.threads| && s.threads[t].pc == Check(q, k)
    requires q.Unpark? && q.list != [] ==> q.list[0] < |s.threads| && Stuck(s.threads[q.list[0]])
    ensures HintOk(CheckStep(c, s, t, q, k))
  {
    hide Pending, HintOk;
    OthersKeepHint(s, CheckStep(c, s, t, q, k), t);
  }

  lemma WaitKeepsHint(s: State, t: Tid, w: WaitPc)
    requires Owned(s) && HintOk(s) && t < |s.threads| && s.threads[t].pc == Wait(w)
    ensures HintOk(WaitStep(s, t, w))
  {
    hide HintOk;
    OthersKeepHint(s, WaitStep(s, t, w), t);
  }

  lemma ActionKeepsHint(c: Client, s: State, t: Tid, a: Action)
    requires Owned(s) && HintOk(s) && t < |s.threads| && !a.Run?
    ensures HintOk(Do(c, s, t, a))
  {
    hide Advance, ValidRequest, HintOk;
    var s' := Do(c, s, t, a);
    if s.threads[t].pc.Hold? {
      assert a.Cancel? || s' == s;
      CancelKeepsHint(s, t);
    } else {
      OthersKeepHint(s, s', t);
    }
  }

  lemma CancelKeepsHint(s: State, t: Tid)
    requires HintOk(s) && t < |s.threads|
    ensures HintOk(SetParker(s, t, Cancelled))
  {
    assert Holder(SetParker(s, t, Cancelled)) == Holder(s);
  }

  lemma StepKeepsHint(c: Client, s: State, t: Tid, a: Action)
    requires Safe(c, s) && HintOk(s)
    ensures HintOk(Do(c, s, t, a))
  {
    hide HintOk, TryStep, CheckStep, WaitStep, HoldStep;
    if t < |s.threads| {
      if a.Run? {
        match s.threads[t].pc
        case Idle =>
        case Try(q) => TryKeepsHint(c, s, t, q);
        case Check(q, k) =>
          CheckWaiters(c, s, t, q, k);
          CheckKeepsHint(c, s, t, q, k);
        case Wait(w) => WaitKeepsHint(s, t, w);
        case Hold(h, k) => HoldKeepsHint(c, s, t, h, k);
      } else {
        ActionKeepsHint(c, s, t, a);
      }
    }
  }

  /** From the moment that the holder has reset the hint until it publishes it again, a releaser that reads it sees that it need not take the lock. */
  lemma {:induction false} HeldHintIsReset(c: Client, n: nat, sched: Schedule)
    ensures HintOk(Exec(c, n, sched))
  {
    hide Do, HintOk, Safe;
    if sched == [] {
      FreshHint(c, n);
    } else {
      var k := |sched| - 1;
      HeldHintIsReset(c, n, sched[..k]);
      ExecSafe(c, n, sched[..k]);
      StepKeepsHint(c, Exec(c, n, sched[..k]), sched[k].0, sched[k].1);
    }
  }

  lemma FreshHint(c: Client, n: nat)
    ensures HintOk(Init(c, n))
  {
  }
}
