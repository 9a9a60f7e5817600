/**
 Whenever the lock is free and the request at the front of the list could be granted,
 some thread is still on its way to IsReleasePending, or inside it with a hint that is
 up to date, so that its check will succeed unless the lock is taken or the word changes.
 After a reader has left at the maximum reader count nothing is claimed.
 */
module LockedQueueOwed {
  import opened LockClients
  import opened LockedQueue
  import opened LockedQueueInv
  import opened LockedQueueLedger

  /** The lock is free and the front of the list can be served. */
  predicate Wanted(c: Client, s: State) {
    s.lock.Free? && !s.leftFull && s.head != [] && CanTake(c, s.word, FrontCode(s))
  }

  /** Thread u will take the lock if nobody else does and neither the hint nor the word changes. */
  predicate Owes(s: State, u: Tid) {
    && u < |s.threads| && s.threads[u].pc.Check?
    && (s.threads[u].pc.q.CState? ==> s.threads[u].pc.q.hint == s.hint)
  }

  ghost predicate DebtOk(c: Client, s: State) {
    Wanted(c, s) ==> exists u: Tid :: Owes(s, u)
  }

  lemma FrontValid(c: Client, s: State)
    requires Inv(c, s) && s.lock.Free? && s.head != []
    ensures s.hint == FrontCode(s) && ValidRequest(c, FrontCode(s)) && FrontCode(s) != 0
    ensures s.head[0] < |s.threads| && FrontCode(s) == s.threads[s.head[0]].req && Framed(s.threads[s.head[0]].pc)
  {
    assert Holder(s) == Idle && s.queue == s.head;
    var x := s.head[0];
    assert x in s.queue && Sound(c, s.threads[x]);
  }

  /** The debt carries over a step of t if t still owes whenever it must. */
  lemma CarryDebt(c: Client, s: State, s': State, t: Tid)
    requires DebtOk(c, s)
    requires Wanted(c, s') && !Owes(s', t) ==> Wanted(c, s) && !Owes(s, t)
    requires Wanted(c, s') ==> forall u :: u != t && Owes(s, u) ==> Owes(s', u)
    ensures DebtOk(c, s')
  {
  }

  /** What a step leaves alone that neither holds the lock nor moves permits. */
  predicate SameFront(s: State, s': State) {
    s'.lock == s.lock && s'.head == s.head && s'.hint == s.hint && s'.word == s.word && s'.leftFull == s.leftFull
  }

  predicate SameChecks(s: State, s': State, t: Tid) {
    && |s'.threads| == |s.threads|
    && forall u :: 0 <= u < |s.threads| && u != t ==>
         (s.threads[u].pc.Check? ==> s'.threads[u].pc == s.threads[u].pc) && s'.threads[u].req == s.threads[u].req
  }

  /** A step that goes on outside the lock, by a thread that owes nothing. */
  lemma FreeDebt(c: Client, s: State, s': State, t: Tid)
    requires Inv(c, s) && DebtOk(c, s) && t < |s.threads| && SameFront(s, s') && SameChecks(s, s', t)
    requires !s.threads[t].pc.Check? && (Framed(s.threads[t].pc) ==> s'.threads[t].req == s.threads[t].req)
    ensures DebtOk(c, s')
  {
    if Wanted(c, s') {
      FrontValid(c, s);
    }
    CarryDebt(c, s, s', t);
  }

  lemma CheckDebt(c: Client, s: State, t: Tid, q: CheckPc, k: After)
    requires Inv(c, s) && DebtOk(c, s) && t < |s.threads| && s.threads[t].pc == Check(q, k)
    requires q.Unpark? && q.list != [] ==> q.list[0] < |s.threads| && s.threads[q.list[0]].pc == Wait(KWait(false))
    ensures DebtOk(c, CheckStep(c, s, t, q, k))
  {
    var s' := CheckStep(c, s, t, q, k);
    if Wanted(c, s') {
      assert s.lock.Free? && SameFront(s, s');
      FrontValid(c, s);
      PendingIsCanTake(c, s.word, FrontCode(s));
      assert FrontCode(s') == FrontCode(s);
    }
    CarryDebt(c, s, s', t);
  }

  /** Taking permits makes no request grantable that was not. */
  lemma TakingNeverHelps(c: Client, word: int, r: int, f: int)
    requires ValidRequest(c, r) && ValidRequest(c, f) && CanTake(c, word, r) && (c.ReadWrite? ==> word >= 0)
    requires CanTake(c, Taken(c, word, r), f)
    ensures CanTake(c, word, f)
  {
  }

  lemma AcqCasDebt(c: Client, s: State, t: Tid, v: int, b: bool)
    requires Inv(c, s) && DebtOk(c, s) && (c.ReadWrite? ==> s.word >= 0)
    requires t < |s.threads| && s.threads[t].pc == Try(AcqCas(v, b)) && s.word == v
    ensures DebtOk(c, TryStep(c, s, t, AcqCas(v, b)))
  {
    var s' := TryStep(c, s, t, AcqCas(v, b));
    if Wanted(c, s') {
      FrontValid(c, s);
      assert FrontCode(s') == FrontCode(s);
      TakingNeverHelps(c, v, s.threads[t].req, FrontCode(s));
    }
    CarryDebt(c, s, s', t);
  }

  /** A reader that leaves other readers behind makes no request grantable that was not. */
  lemma LeavingReadersNeverHelps(c: Client, word: int, f: int)
    requires c.ReadWrite? && ValidRequest(c, f) && word != MAX_READERS && word - 1 != 0
    requires CanTake(c, word - 1, f)
    ensures CanTake(c, word, f)
  {
  }

  lemma ReleaseShape(c: Client, s: State, t: Tid, n: int)
    requires t < |s.threads| && s.threads[t].pc.Idle?
    ensures var s' := Release(c, s, t, n);
      && s'.lock == s.lock && s'.head == s.head && s'.hint == s.hint && SameChecks(s, s', t)
      && (s.leftFull ==> s'.leftFull)
      && (s' == s || s'.threads[t].pc.Check?
          || (c.ReadWrite? && s'.word == s.word - 1 && s'.word != 0 && (s.word == MAX_READERS ==> s'.leftFull)))
      && (s'.threads[t].pc.Check? ==> s'.threads[t].pc.q.CFront?)
  {
  }

  lemma ReleaseDebt(c: Client, s: State, t: Tid, n: int)
    requires Inv(c, s) && DebtOk(c, s) && t < |s.threads| && s.threads[t].pc.Idle?
    ensures DebtOk(c, Release(c, s, t, n))
  {
    var s' := Release(c, s, t, n);
    ReleaseShape(c, s, t, n);
    if s' != s {
      if Wanted(c, s') && !Owes(s', t) {
        FrontValid(c, s);
        assert FrontCode(s') == FrontCode(s);
        LeavingReadersNeverHelps(c, s.word, FrontCode(s));
      }
      CarryDebt(c, s, s', t);
    }
  }
}
