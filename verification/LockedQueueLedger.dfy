/**
 Conservation: what the state word says is always what has been granted. The lock
 holder's grant on behalf of the front waiter counts as temporary until the waiter's
 parker is unparked, which turns it into the waiter's own, or until it is undone.
 */
module LockedQueueLedger {
  import opened LockClients
  import opened LockedQueue
  import opened LockedQueueInv

  datatype Coin = Permits | Readers | Writers

  function Coins(th: Thread, k: Coin): int {
    match k
    case Permits => th.permits
    case Readers => th.readers
    case Writers => th.writers
  }

  /** The sum over all threads of what they have been granted and not given back. */
  function Total(ths: seq<Thread>, k: Coin): int {
    if ths == [] then 0 else Coins(ths[0], k) + Total(ths[1..], k)
  }

  lemma {:induction false} TotalUpdate(ths: seq<Thread>, t: nat, th: Thread, k: Coin)
    requires t < |ths|
    ensures Total(ths[t := th], k) == Total(ths, k) - Coins(ths[t], k) + Coins(th, k)
  {
    if t == 0 {
      assert ths[t := th][1..] == ths[1..];
    } else {
      assert ths[t := th][1..] == ths[1..][t - 1 := th];
      TotalUpdate(ths[1..], t - 1, th, k);
    }
  }

  lemma {:induction false} TotalSame(ths: seq<Thread>, ths': seq<Thread>, k: Coin)
    requires |ths| == |ths'| && forall x :: 0 <= x < |ths| ==> Coins(ths[x], k) == Coins(ths'[x], k)
    ensures Total(ths, k) == Total(ths', k)
  {
    if ths != [] {
      TotalSame(ths[1..], ths'[1..], k);
    }
  }

  lemma {:induction false} TotalBounds(ths: seq<Thread>, t: nat, k: Coin)
    requires t < |ths| && forall x :: 0 <= x < |ths| ==> Coins(ths[x], k) >= 0
    ensures 0 <= Coins(ths[t], k) <= Total(ths, k)
  {
    if t == 0 {
      TotalNat(ths[1..], k);
    } else {
      TotalBounds(ths[1..], t - 1, k);
    }
  }

  lemma {:induction false} TotalNat(ths: seq<Thread>, k: Coin)
    requires forall x :: 0 <= x < |ths| ==> Coins(ths[x], k) >= 0
    ensures Total(ths, k) >= 0
  {
    if ths != [] {
      TotalNat(ths[1..], k);
    }
  }

  predicate InTemp(pc: Pc) {
    pc.Hold? && (pc.h.RRemove? || pc.h.RLock? || pc.h.RWake? || pc.h.RUnlink? || pc.h.RUndo?)
  }

  function Worth(c: Client, r: int, k: Coin): int {
    match k
    case Permits => if c.Semaphore? then r else 0
    case Readers => if c.ReadWrite? && r == LOCK_READ then 1 else 0
    case Writers => if c.ReadWrite? && r == LOCK_WRITE then 1 else 0
  }

  /** What the lock holder has deducted for a waiter and not yet settled. */
  function Temp(c: Client, pc: Pc, k: Coin): int {
    if InTemp(pc) then Worth(c, pc.h.r, k) else 0
  }

  /** Everything granted: to threads, and temporarily by the lock holder. */
  function Outstanding(c: Client, s: State, k: Coin): int {
    Total(s.threads, k) + Temp(c, Holder(s), k)
  }

  /** The semaphores whose temporary grants cannot take the 32-bit count past its maximum. */
  predicate Roomy(c: Client) {
    c.Semaphore? ==> 0 <= c.initial <= c.maximum && c.maximum + MAX_REQUEST <= LONG_MAX
  }

  /** The state word against the permits, readers and writers granted, temp permits of them temporarily. */
  predicate Balanced(c: Client, word: int, released: int, permits: int, readers: int, writers: int, temp: int) {
    if c.Semaphore? then
      Roomy(c) ==> word + permits == c.initial + released && 0 <= word && word + temp <= c.maximum + MAX_REQUEST
    else
      || (writers == 0 && word == readers && 0 <= readers <= MAX_READERS)
      || (writers == 1 && readers == 0 && word == WRITING)
  }

  ghost predicate Ledger(c: Client, s: State) {
    && (forall x :: 0 <= x < |s.threads| ==> s.threads[x].readers >= 0 && s.threads[x].writers >= 0)
    && (InTemp(Holder(s)) ==> ValidRequest(c, Holder(s).h.r))
    && Balanced(c, s.word, s.released, Outstanding(c, s, Permits), Outstanding(c, s, Readers), Outstanding(c, s, Writers),
                Temp(c, Holder(s), Permits))
  }

  predicate SameCoins(th: Thread, th': Thread) {
    th'.permits == th.permits && th'.readers == th.readers && th'.writers == th.writers
  }

  /** A step that moves no permits. */
  ghost predicate Neutral(s: State, s': State) {
    && s'.word == s.word && s'.released == s.released && |s'.threads| == |s.threads|
    && (forall x :: 0 <= x < |s.threads| ==> SameCoins(s.threads[x], s'.threads[x]))
    && (InTemp(Holder(s')) <==> InTemp(Holder(s)))
    && (InTemp(Holder(s)) ==> Holder(s').h.r == Holder(s).h.r)
  }

  lemma NeutralKept(c: Client, s: State, s': State)
    requires Ledger(c, s) && Neutral(s, s')
    ensures Ledger(c, s')
  {
    TotalSame(s.threads, s'.threads, Permits);
    TotalSame(s.threads, s'.threads, Readers);
    TotalSame(s.threads, s'.threads, Writers);
  }

  // ---- the arithmetic of the steps that do move permits ----

  lemma BalancedTake(c: Client, word: int, released: int, p: int, r: int, w: int, temp: int, n: int)
    requires Balanced(c, word, released, p, r, w, 0) && ValidRequest(c, n) && CanTake(c, word, n)
    requires temp == 0 || temp == Worth(c, n, Permits)
    ensures Balanced(c, Taken(c, word, n), released, p + Worth(c, n, Permits), r + Worth(c, n, Readers), w + Worth(c, n, Writers), temp)
  {
  }

  /** An acquire by the fast path, while the lock holder may have a temporary grant of its own. */
  lemma BalancedBarge(c: Client, word: int, released: int, p: int, r: int, w: int, temp: int, n: int)
    requires Balanced(c, word, released, p, r, w, temp) && ValidRequest(c, n) && CanTake(c, word, n)
    ensures Balanced(c, Taken(c, word, n), released, p + Worth(c, n, Permits), r + Worth(c, n, Readers), w + Worth(c, n, Writers), temp)
  {
  }

  lemma BalancedUndo(c: Client, word: int, released: int, p: int, r: int, w: int, n: int)
    requires Balanced(c, word, released, p + Worth(c, n, Permits), r + Worth(c, n, Readers), w + Worth(c, n, Writers), Worth(c, n, Permits))
    requires ValidRequest(c, n) && r >= 0 && w >= 0
    ensures Balanced(c, Undone(c, word, n), released, p, r, w, 0)
  {
  }

  lemma Updated(ths: seq<Thread>, t: Tid, th: Thread)
    requires t < |ths|
    ensures Total(ths[t := th], Permits) == Total(ths, Permits) - ths[t].permits + th.permits
    ensures Total(ths[t := th], Readers) == Total(ths, Readers) - ths[t].readers + th.readers
    ensures Total(ths[t := th], Writers) == Total(ths, Writers) - ths[t].writers + th.writers
  {
    TotalUpdate(ths, t, th, Permits);
    TotalUpdate(ths, t, th, Readers);
    TotalUpdate(ths, t, th, Writers);
  }

  lemma AcqCasKept(c: Client, s: State, t: Tid, v: int, b: bool)
    requires Inv(c, s) && Ledger(c, s) && t < |s.threads| && s.threads[t].pc == Try(AcqCas(v, b)) && s.word == v
    ensures Ledger(c, TryStep(c, s, t, AcqCas(v, b)))
  {
    var r := s.threads[t].req;
    var th := Credited(c, s.threads[t], r).(pc := Idle);
    var s' := TryStep(c, s, t, AcqCas(v, b));
    assert s'.threads == s.threads[t := th];
    Updated(s.threads, t, th);
    assert Holder(s') == Holder(s);
    BalancedBarge(c, v, s.released, Outstanding(c, s, Permits), Outstanding(c, s, Readers), Outstanding(c, s, Writers),
                  Temp(c, Holder(s), Permits), r);
  }

  lemma TakeKept(c: Client, s: State, t: Tid, k: After, r: int)
    requires Owned(s) && Ledger(c, s) && t < |s.threads| && s.threads[t].pc == Hold(RTake, k)
    requires ValidRequest(c, r) && CanTake(c, s.word, r)
    ensures Ledger(c, SetPc(SetWord(s, Taken(c, s.word, r)), t, Hold(RRemove(r), k)))
  {
    var th := s.threads[t].(pc := Hold(RRemove(r), k));
    var s' := SetPc(SetWord(s, Taken(c, s.word, r)), t, Hold(RRemove(r), k));
    assert s'.threads == s.threads[t := th];
    Updated(s.threads, t, th);
    assert Holder(s) == Hold(RTake, k) && Holder(s') == th.pc;
    BalancedTake(c, s.word, s.released, Total(s.threads, Permits), Total(s.threads, Readers), Total(s.threads, Writers),
                 Worth(c, r, Permits), r);
  }

  /** The temporary grant becomes the waiter's. */
  lemma WakeKept(c: Client, s: State, t: Tid, x: Tid, r: int, k: After)
    requires Owned(s) && Ledger(c, s) && t < |s.threads| && s.threads[t].pc == Hold(RWake(x, r), k) && x < |s.threads|
    ensures Ledger(c, Wake(c, s, t, x, r, k))
  {
    var s' := Wake(c, s, t, x, r, k);
    var ths := s.threads[x := Credited(c, s.threads[x], r)];
    Updated(s.threads, x, ths[x]);
    assert Holder(s) == Hold(RWake(x, r), k) && !InTemp(Holder(s'));
    forall j: Coin ensures Total(s'.threads, j) == Total(ths, j) {
      TotalSame(ths, s'.threads, j);
    }
    assert Outstanding(c, s', Permits) == Outstanding(c, s, Permits);
    assert Outstanding(c, s', Readers) == Outstanding(c, s, Readers);
    assert Outstanding(c, s', Writers) == Outstanding(c, s, Writers);
  }

  lemma UndoKept(c: Client, s: State, t: Tid, r: int, k: After)
    requires Owned(s) && Ledger(c, s) && t < |s.threads| && s.threads[t].pc == Hold(RUndo(r), k)
    ensures Ledger(c, SetPc(SetWord(s, Undone(c, s.word, r)), t, Hold(RTest, k)))
  {
    var th := s.threads[t].(pc := Hold(RTest, k));
    var s' := SetPc(SetWord(s, Undone(c, s.word, r)), t, Hold(RTest, k));
    assert s'.threads == s.threads[t := th];
    Updated(s.threads, t, th);
    assert Holder(s) == Hold(RUndo(r), k) && Holder(s') == th.pc;
    TotalNat(s.threads, Readers);
    TotalNat(s.threads, Writers);
    BalancedUndo(c, s.word, s.released, Total(s.threads, Permits), Total(s.threads, Readers), Total(s.threads, Writers), r);
  }

  /** A release moves n permits, one reader or one writer from the thread's account to the state word. */
  lemma BalancedRelease(c: Client, word: int, word': int, released: int, n: int, p: int, r: int, w: int, temp: int)
    requires Balanced(c, word, released, p, r, w, temp)
    requires c.Semaphore? ==> temp >= 0 && temp <= MAX_REQUEST && -0x8000_0000 <= n <= LONG_MAX && word' == Wrap32(word + n) && 0 <= word' <= c.maximum
    requires c.ReadWrite? ==> (n == LOCK_READ && r > 0 && word' == word - 1) || (n == LOCK_WRITE && w > 0 && word' == 0)
    ensures c.Semaphore? ==> Balanced(c, word', released + n, p, r, w, temp)
    ensures c.ReadWrite? && n == LOCK_READ ==> Balanced(c, word', released, p, r - 1, w, temp)
    ensures c.ReadWrite? && n == LOCK_WRITE ==> Balanced(c, word', released, p, r, w - 1, temp)
  {
  }

  lemma ReleaseKept(c: Client, s: State, t: Tid, n: int)
    requires Owned(s) && Ledger(c, s) && t < |s.threads| && s.threads[t].pc.Idle?
    ensures Ledger(c, Release(c, s, t, n))
  {
    var s' := Release(c, s, t, n);
    if s' != s {
      TotalBounds(s.threads, t, Readers);
      TotalBounds(s.threads, t, Writers);
      var th := ReleasedThread(c, s, t, n);
      Updated(s.threads, t, th);
      assert Holder(s') == Holder(s);
      BalancedRelease(c, s.word, s'.word, s.released, n, Outstanding(c, s, Permits), Outstanding(c, s, Readers), Outstanding(c, s, Writers),
                      Temp(c, Holder(s), Permits));
    }
  }

  lemma ReleasedThread(c: Client, s: State, t: Tid, n: int) returns (th: Thread)
    requires t < |s.threads| && s.threads[t].pc.Idle? && Release(c, s, t, n) != s
    ensures var s' := Release(c, s, t, n); s'.threads == s.threads[t := th] && s'.lock == s.lock && s'.owner == s.owner && !th.pc.Hold?
    ensures th.permits == s.threads[t].permits
    ensures c.Semaphore? ==> th.readers == s.threads[t].readers && th.writers == s.threads[t].writers
    ensures c.ReadWrite? && n == LOCK_READ ==> th.readers == s.threads[t].readers - 1 && th.writers == s.threads[t].writers
    ensures c.ReadWrite? && n != LOCK_READ ==> th.readers == s.threads[t].readers && th.writers == s.threads[t].writers - 1
  {
    var s' := Release(c, s, t, n);
    th := s'.threads[t];
  }

  // ---- every step ----

  lemma NeutralTry(c: Client, s: State, t: Tid, a: TryPc)
    requires Owned(s) && t < |s.threads| && s.threads[t].pc == Try(a) && !(a.AcqCas? && s.word == a.seen)
    ensures Neutral(s, TryStep(c, s, t, a))
  {
  }

  lemma NeutralCheck(c: Client, s: State, t: Tid, q: CheckPc, k: After)
    requires Owned(s) && t < |s.threads| && s.threads[t].pc == Check(q, k)
    requires q.Unpark? && q.list != [] ==> q.list[0] < |s.threads| && s.threads[q.list[0]].pc == Wait(KWait(false))
    ensures Neutral(s, CheckStep(c, s, t, q, k))
  {
  }

  lemma NeutralWait(c: Client, s: State, t: Tid, w: WaitPc)
    requires Owned(s) && t < |s.threads| && s.threads[t].pc == Wait(w)
    ensures Neutral(s, WaitStep(s, t, w))
  {
  }

  lemma NeutralEntry(c: Client, s: State, t: Tid, h: HoldPc, k: After)
    requires Owned(s) && t < |s.threads| && s.threads[t].pc == Hold(h, k) && !Unlocking(h) && !Releasing(h)
    ensures Neutral(s, EntryStep(c, s, t, h, k))
  {
  }

  lemma NeutralProc(c: Client, s: State, t: Tid, h: HoldPc, k: After)
    requires Owned(s) && t < |s.threads| && s.threads[t].pc == Hold(h, k) && h.Proc?
    ensures Neutral(s, UnlockStep(s, t, h, k))
  {
  }

  lemma NeutralUnlock(c: Client, s: State, t: Tid, h: HoldPc, k: After)
    requires Owned(s) && t < |s.threads| && s.threads[t].pc == Hold(h, k) && Unlocking(h)
    ensures Neutral(s, UnlockStep(s, t, h, k))
  {
    if h.Proc? {
      NeutralProc(c, s, t, h, k);
    }
  }

  lemma NeutralRelease(c: Client, s: State, t: Tid, h: HoldPc, k: After)
    requires Owned(s) && t < |s.threads| && s.threads[t].pc == Hold(h, k) && Releasing(h) && !h.RUndo? && !h.RWake?
    requires h.RTake? ==> s.head != [] && s.head[0] < |s.threads| && !CanTake(c, s.word, s.threads[s.head[0]].req)
    ensures Neutral(s, ReleaseStep(c, s, t, h, k))
  {
  }
}
