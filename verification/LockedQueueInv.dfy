/**
 The invariant of the locked queue and its preservation by every step. The parts are kept
 separately: who holds the lock (Owned), the concrete list and stack against the abstract
 queue (QueueOk), what the holder's position implies (HolderOk), facts about each thread
 (ThreadsOk) and the published hint (HintOk).
 */
module LockedQueueInv {
  import opened LockClients
  import opened LockedQueue

  ghost predicate Owned(s: State) {
    && (s.lock.Busy? ==> s.owner < |s.threads|)
    && forall t :: 0 <= t < |s.threads| ==> (s.threads[t].pc.Hold? <==> s.lock.Busy? && s.owner == t)
  }

  /** The position of the lock holder, if there is one. */
  function Holder(s: State): Pc {
    if s.lock.Busy? && s.owner < |s.threads| then s.threads[s.owner].pc else Idle
  }

  function Stack(s: State): seq<Block> {
    if s.lock.Busy? then s.lock.stack else []
  }

  /** The acquire blocks of a stack, oldest first. */
  function Arrivals(stack: seq<Block>): seq<Tid> {
    if stack == [] then []
    else Arrivals(stack[1..]) + (if stack[0].Acquire? then [stack[0].who] else [])
  }

  /** The part of the queue that is linked into the list or held by the lock holder. */
  function Near(s: State): seq<Tid> {
    var pc := Holder(s);
    if pc.Hold? && pc.h.Proc? && pc.h.pos <= |s.head|
    then s.head[..pc.h.pos] + Arrivals(pc.h.rem) + s.head[pc.h.pos..]
    else if pc.Hold? && pc.h.EnqInsert? then s.head + [s.owner]
    else s.head
  }

  /** The queue that the list, the holder's position and the stack stand for. */
  function View(s: State): seq<Tid> {
    Near(s) + Arrivals(Stack(s))
  }

  /** True while the holder has taken x's block off the list and not yet settled its fate. */
  predicate Detached(pc: Pc, x: Tid) {
    pc.Hold? && (pc.h.RLock? || pc.h.RUnlink?) && pc.h.x == x
  }

  predicate Waiting(th: Thread) {
    Framed(th.pc) && th.linked && (th.parker.Open? || th.parker.Cancelled?)
  }

  /** The blocks in the abstract queue are exactly the live ones, each once and in order of arrival. */
  ghost predicate Lined(s: State) {
    && (forall x :: x in s.queue ==> x < |s.threads| && s.threads[x].ticket < s.nextTicket)
    && (forall x :: 0 <= x < |s.threads| ==> (x in s.queue <==> Waiting(s.threads[x]) && !Detached(Holder(s), x)))
    && (forall i, j :: 0 <= i < j < |s.queue| && s.queue[i] < |s.threads| && s.queue[j] < |s.threads| ==>
          s.threads[s.queue[i]].ticket < s.threads[s.queue[j]].ticket)
  }

  predicate Known(s: State, blocks: seq<Block>) {
    forall i :: 0 <= i < |blocks| ==> blocks[i].who < |s.threads|
  }

  /** What the holder's position h implies about the state. */
  ghost predicate HolderAt(s: State, t: Tid, h: HoldPc)
    requires t < |s.threads|
  {
    match h
    case Proc(rem, pos, _, _) => rem != [] && pos <= |s.head| && Known(s, rem)
    case RTake => s.head != []
    case RRemove(r) => s.head != [] && s.head[0] < |s.threads| && r == s.threads[s.head[0]].req
    case RLock(x, r) => x < |s.threads| && Waiting(s.threads[x]) && r == s.threads[x].req
    case RWake(x, r) => x < |s.threads| && Framed(s.threads[x].pc) && s.threads[x].parker.Granting? && r == s.threads[x].req
    case RUnlink(x, _) => x < |s.threads| && Waiting(s.threads[x]) && s.threads[x].parker.Cancelled?
    case KZero => s.threads[t].linked ==> t in s.head
    case KRemove => s.threads[t].linked ==> t in s.head
    case UHint(fast, _) => fast ==> s.private == []
    case UCas(fast, _) => (fast ==> s.private == []) && s.hint == FrontCode(s)
    case UClear(fast, _) => fast ==> s.private == []
    case _ => true
  }

  ghost predicate HolderOk(s: State) {
    && Known(s, Stack(s))
    && (Holder(s).Hold? ==> HolderAt(s, s.owner, Holder(s).h))
    && (s.lock.Free? ==> s.hint == FrontCode(s))
  }

  predicate OwnBlock(h: HoldPc) {
    h.EnqInsert? || h.EnqZero? || h.EnqDecide?
  }

  predicate Unlinking(h: HoldPc) {
    h.KZero? || h.KRemove?
  }

  /** The facts about a thread that depend on nobody else. */
  predicate Sound(c: Client, th: Thread) {
    && (Framed(th.pc) || th.pc.Try? ==> ValidRequest(c, th.req))
    && (th.pc == Try(Enq) ==> th.parker.Open?)
    && (Framed(th.pc) && th.parker.Open? ==> th.linked)
    && (th.pc.Try? && !th.pc.a.Enq? && !th.pc.a.AcqRead? ==> CanTake(c, th.pc.a.seen, th.req))
    && (th.pc.Check? ==> !th.pc.k.ToUnlink?)
    && (th.pc.Hold? ==> (th.pc.k.ToUnlink? <==> Unlinking(th.pc.h)))
    && (th.pc.Hold? && OwnBlock(th.pc.h) ==> th.pc.k.ToPark?)
    && (th.pc.Hold? && th.pc.h.EnqInsert? ==> Waiting(th))
    && ((th.pc.Wait? && !th.pc.w.Park?) || (th.pc.Hold? && Unlinking(th.pc.h)) ==> th.parker.Cancelled?)
  }

  ghost predicate ThreadsOk(c: Client, s: State) {
    forall x :: 0 <= x < |s.threads| ==>
      && Sound(c, s.threads[x])
      && (Framed(s.threads[x].pc) && s.threads[x].parker.Granting? ==>
            Holder(s).Hold? && Holder(s).h.RWake? && Holder(s).h.x == x)
  }

  ghost predicate Ordered(s: State) {
    Owned(s) && View(s) == s.queue && Lined(s)
  }

  ghost predicate Placed(c: Client, s: State) {
    HolderOk(s) && ThreadsOk(c, s)
  }

  ghost predicate Inv(c: Client, s: State) {
    Ordered(s) && Placed(c, s)
  }

  // ---- effects shared by several steps ----

  /** The two states have the same lock, lists and hint. */
  predicate SameQueue(s: State, s': State) {
    && s'.lock == s.lock && s'.head == s.head && s'.hint == s.hint && s'.private == s.private
    && s'.owner == s.owner && s'.queue == s.queue && s'.nextTicket == s.nextTicket
    && |s'.threads| == |s.threads|
  }

  predicate OthersSame(s: State, s': State, t: Tid)
  {
    |s'.threads| == |s.threads| &&
    forall x :: 0 <= x < |s.threads| && x != t ==> s'.threads[x] == s.threads[x]
  }

  /** A step by a thread that does not hold the lock, neither before nor after it. */
  ghost predicate OutsideMove(c: Client, s: State, s': State, t: Tid) {
    && t < |s.threads| && SameQueue(s, s') && OthersSame(s, s', t)
    && var th, th' := s.threads[t], s'.threads[t];
    && !th.pc.Hold? && !th'.pc.Hold?
    && (Waiting(th') <==> Waiting(th))
    && (Framed(th.pc) ==> th'.req == th.req && th'.ticket == th.ticket && th'.parker == th.parker)
    && (Framed(th'.pc) && th'.parker.Granting? <==> Framed(th.pc) && th.parker.Granting?)
    && Sound(c, th')
  }

  lemma OutsideOrdered(c: Client, s: State, s': State, t: Tid)
    requires Inv(c, s) && OutsideMove(c, s, s', t)
    ensures Ordered(s')
  {
    hide HolderOk;
    assert Holder(s') == Holder(s);
  }

  lemma OutsidePlaced(c: Client, s: State, s': State, t: Tid)
    requires Inv(c, s) && OutsideMove(c, s, s', t)
    ensures Placed(c, s')
  {
    assert Holder(s') == Holder(s);
  }

  /** A step of the lock holder that leaves the lists, the stack and the other threads alone. */
  ghost predicate InsideMove(c: Client, s: State, s': State, t: Tid) {
    && t < |s.threads| && OthersSame(s, s', t)
    && s'.lock == s.lock && s'.head == s.head && s'.owner == s.owner
    && s'.queue == s.queue && s'.nextTicket == s.nextTicket
    && var th, th' := s.threads[t], s'.threads[t];
    && th.pc.Hold? && th' == th.(pc := th'.pc) && th'.pc.Hold?
    && (Waiting(th') <==> Waiting(th)) && (Framed(th'.pc) ==> Framed(th.pc))
    && !th.pc.h.Proc? && !th'.pc.h.Proc? && !th.pc.h.EnqInsert? && !th'.pc.h.EnqInsert?
    && !th.pc.h.RWake? && (forall x :: Detached(th.pc, x) <==> Detached(th'.pc, x))
    && Sound(c, th') && HolderAt(s', t, th'.pc.h)
  }

  lemma InsideOrdered(c: Client, s: State, s': State, t: Tid)
    requires Inv(c, s) && InsideMove(c, s, s', t)
    ensures Ordered(s')
  {
  }

  lemma InsidePlaced(c: Client, s: State, s': State, t: Tid)
    requires Inv(c, s) && InsideMove(c, s, s', t)
    ensures Placed(c, s')
  {
    hide Lined, View;
    assert t == s.owner && Holder(s') == s'.threads[t].pc;
  }

  // ---- changes to the abstract queue ----

  ghost predicate Increasing(q: seq<Tid>, ths: seq<Thread>) {
    && (forall i :: 0 <= i < |q| ==> q[i] < |ths|)
    && (forall i, j :: 0 <= i < j < |q| ==> ths[q[i]].ticket < ths[q[j]].ticket)
  }

  lemma WithoutIncreasing(q: seq<Tid>, x: Tid, ths: seq<Thread>)
    requires Increasing(q, ths)
    ensures Increasing(Without(q, x), ths)
    ensures forall y :: y in Without(q, x) <==> y in q && y != x
  {
    if q != [] {
      assert Increasing(q[1..], ths);
      WithoutIncreasing(q[1..], x, ths);
      assert forall y :: y in q <==> y == q[0] || y in q[1..];
      if q[0] == x {
        assert forall i :: 0 <= i < |q[1..]| ==> q[1..][i] == q[i + 1];
      } else {
        var w := Without(q[1..], x);
        forall j | 0 <= j < |w| ensures ths[q[0]].ticket < ths[w[j]].ticket {
          assert w[j] in q[1..];
        }
      }
    }
  }

  lemma {:induction false} WithoutInFront(p: seq<Tid>, q: seq<Tid>, x: Tid)
    requires x in p
    ensures Without(p + q, x) == Without(p, x) + q
  {
    var s := p + q;
    assert s[0] == p[0] && s[1..] == p[1..] + q;
    if p[0] != x {
      WithoutInFront(p[1..], q, x);
      assert [p[0]] + (Without(p[1..], x) + q) == [p[0]] + Without(p[1..], x) + q;
    }
  }

  lemma {:induction false} WithoutBehind(p: seq<Tid>, q: seq<Tid>, x: Tid)
    requires x !in p
    ensures Without(p + q, x) == p + Without(q, x)
  {
    var s := p + q;
    if p == [] {
      assert s == q;
    } else {
      assert s[0] == p[0] && s[1..] == p[1..] + q;
      WithoutBehind(p[1..], q, x);
      assert [p[0]] + (p[1..] + Without(q, x)) == p + Without(q, x);
    }
  }

  lemma WithoutAppend(p: seq<Tid>, q: seq<Tid>, x: Tid)
    ensures x in p ==> Without(p + q, x) == Without(p, x) + q
    ensures x !in p ==> Without(p + q, x) == p + Without(q, x)
  {
    if x in p {
      WithoutInFront(p, q, x);
    } else {
      WithoutBehind(p, q, x);
    }
  }

  lemma LinedSame(s: State, s': State)
    requires Lined(s) && |s'.threads| == |s.threads| && s'.queue == s.queue && s'.nextTicket == s.nextTicket
    requires forall y :: 0 <= y < |s.threads| ==> s'.threads[y].ticket == s.threads[y].ticket
    requires forall y :: 0 <= y < |s.threads| ==>
               ((Waiting(s'.threads[y]) && !Detached(Holder(s'), y)) <==> (Waiting(s.threads[y]) && !Detached(Holder(s), y)))
    ensures Lined(s')
  {
  }

  /** The queue gains t at its end, with the highest ticket so far. */
  lemma LinedAppend(s: State, s': State, t: Tid)
    requires Lined(s) && t < |s.threads| && t !in s.queue && OthersSame(s, s', t)
    requires s'.queue == s.queue + [t] && s'.nextTicket == s.nextTicket + 1
    requires s'.threads[t].ticket == s.nextTicket && Waiting(s'.threads[t])
    requires forall x :: Detached(Holder(s), x) <==> Detached(Holder(s'), x)
    requires !Detached(Holder(s), t)
    ensures Lined(s')
  {
    forall x | 0 <= x < |s'.threads|
      ensures x in s'.queue <==> Waiting(s'.threads[x]) && !Detached(Holder(s'), x)
    {
      assert x in s'.queue <==> x in s.queue || x == t;
    }
  }

  /** The queue loses x, which is no longer waiting or is now in the holder's hands. */
  lemma LinedWithout(s: State, s': State, x: Tid)
    requires Lined(s) && |s'.threads| == |s.threads|
    requires s'.queue == Without(s.queue, x) && s'.nextTicket == s.nextTicket
    requires forall y :: 0 <= y < |s.threads| ==> s'.threads[y].ticket == s.threads[y].ticket
    requires forall y :: 0 <= y < |s.threads| && y != x ==>
               ((Waiting(s'.threads[y]) && !Detached(Holder(s'), y)) <==> (Waiting(s.threads[y]) && !Detached(Holder(s), y)))
    requires x < |s.threads| ==> !Waiting(s'.threads[x]) || Detached(Holder(s'), x)
    ensures Lined(s')
  {
    WithoutIncreasing(s.queue, x, s.threads);
    assert Increasing(s'.queue, s'.threads);
  }

  /** What ProcessLockQueue's position becomes after one block. */
  predicate ProcAfter(h: HoldPc, rem: seq<Block>, pos: nat) {
    if |rem| > 1 then h.Proc? && h.rem == rem[1..] && h.pos == pos
    else h.RTest? || h.ULoop?
  }

  /** The near part of the queue after one detached block has been processed. */
  lemma ProcView(s: State, s': State, rem: seq<Block>, pos: nat)
    requires rem != [] && pos <= |s'.head| && Holder(s').Hold? && ProcAfter(Holder(s').h, rem, pos)
    ensures Near(s') == s'.head[..pos] + Arrivals(rem[1..]) + s'.head[pos..]
  {
    if |rem| == 1 {
      assert rem[1..] == [];
      assert Arrivals(rem[1..]) == [];
      assert s'.head == s'.head[..pos] + [] + s'.head[pos..];
    }
  }

  lemma WithoutMiddle(a: seq<Tid>, x: Tid, b: seq<Tid>)
    requires x !in a
    ensures Without(a + ([x] + b), x) == a + b
  {
    WithoutAppend(a, [x] + b, x);
  }

  /** Tickets make the entries of the queue distinct. */
  lemma LinedDistinct(s: State, a: seq<Tid>, x: Tid, b: seq<Tid>)
    requires Lined(s) && s.queue == a + ([x] + b)
    ensures x !in a
  {
    forall i | 0 <= i < |a| ensures a[i] != x {
      assert s.queue[i] == a[i] && s.queue[|a|] == x && s.queue[i] in s.queue && s.queue[|a|] in s.queue;
    }
  }

  lemma Splice(a: seq<Tid>, pos: nat, m: seq<Tid>, x: Tid)
    requires pos <= |a|
    ensures var a' := a[..pos] + [x] + a[pos..]; a'[..pos] + m + a'[pos..] == a[..pos] + (m + [x]) + a[pos..]
  {
    var a' := a[..pos] + [x] + a[pos..];
    assert a'[..pos] == a[..pos];
    assert a'[pos..] == [x] + a[pos..];
  }

  lemma Regroup(u: seq<Tid>, m: seq<Tid>, x: Tid, v: seq<Tid>, w: seq<Tid>)
    ensures u + (m + [x]) + v + w == (u + m) + ([x] + (v + w))
    ensures u + m + v + w == (u + m) + (v + w)
  {
  }

  lemma ProcLockOnlyNear(s: State, s': State, rem: seq<Block>, pos: nat, h: HoldPc, h': HoldPc, k: After)
    requires Holder(s) == Hold(h, k) && Holder(s') == Hold(h', k) && h.Proc? && h.rem == rem && h.pos == pos
    requires rem != [] && pos <= |s.head| && ProcAfter(h', rem, pos)
    requires rem[0].LockOnly? && s'.head == s.head
    ensures Near(s') == Near(s)
  {
    ProcView(s, s', rem, pos);
  }

  lemma ProcInsertNear(s: State, s': State, rem: seq<Block>, pos: nat, h: HoldPc, h': HoldPc, k: After)
    requires Holder(s) == Hold(h, k) && Holder(s') == Hold(h', k) && h.Proc? && h.rem == rem && h.pos == pos
    requires rem != [] && pos <= |s.head| && ProcAfter(h', rem, pos)
    requires rem[0].Acquire? && s'.head == s.head[..pos] + [rem[0].who] + s.head[pos..]
    ensures Near(s') == Near(s)
  {
    ProcView(s, s', rem, pos);
    Splice(s.head, pos, Arrivals(rem[1..]), rem[0].who);
  }

  /** Dropping a detached block takes exactly its owner out of the queue. */
  lemma ProcDropView(s: State, s': State, rem: seq<Block>, pos: nat, h: HoldPc, h': HoldPc, k: After)
    requires Holder(s) == Hold(h, k) && Holder(s') == Hold(h', k) && h.Proc? && h.rem == rem && h.pos == pos
    requires rem != [] && pos <= |s.head| && ProcAfter(h', rem, pos)
    requires rem[0].Acquire? && s'.head == s.head && s'.lock == s.lock && s.lock.Busy?
    requires Lined(s) && View(s) == s.queue
    ensures View(s') == Without(s.queue, rem[0].who)
  {
    ProcView(s, s', rem, pos);
    var x := rem[0].who;
    var u, m, v, w := s.head[..pos], Arrivals(rem[1..]), s.head[pos..], Arrivals(Stack(s));
    Regroup(u, m, x, v, w);
    assert s.queue == (u + m) + ([x] + (v + w));
    LinedDistinct(s, u + m, x, v + w);
    WithoutMiddle(u + m, x, v + w);
  }

  // ---- the other effects ----

  lemma TakeLockOrdered(c: Client, s: State, t: Tid, h: HoldPc, k: After)
    requires Inv(c, s) && t < |s.threads| && s.lock.Free?
    requires (h == CZero && s.threads[t].pc == Check(CLock, k)) || (h == KZero && k == ToUnlink && s.threads[t].pc == Wait(KTry))
    ensures Ordered(TakeLock(s, t, h, k))
  {
    hide HolderOk;
  }

  lemma TakeLockHolder(c: Client, s: State, t: Tid, h: HoldPc, k: After)
    requires Inv(c, s) && t < |s.threads| && s.lock.Free?
    requires (h == CZero && s.threads[t].pc == Check(CLock, k)) || (h == KZero && k == ToUnlink && s.threads[t].pc == Wait(KTry))
    ensures HolderOk(TakeLock(s, t, h, k))
  {
  }

  lemma TakeLockThreads(c: Client, s: State, t: Tid, h: HoldPc, k: After)
    requires Inv(c, s) && t < |s.threads| && s.lock.Free?
    requires (h == CZero && s.threads[t].pc == Check(CLock, k)) || (h == KZero && k == ToUnlink && s.threads[t].pc == Wait(KTry))
    ensures ThreadsOk(c, TakeLock(s, t, h, k))
  {
    hide Lined, View;
  }

  lemma ArriveFreeOrdered(c: Client, s: State, t: Tid)
    requires Inv(c, s) && t < |s.threads|
    requires s.lock.Free? && s.threads[t].pc == Try(Enq)
    ensures Ordered(ArriveFree(s, t))
  {
    hide HolderOk;
    var s' := ArriveFree(s, t);
    assert t !in s.queue;
    assert forall x :: x in s'.queue <==> x in s.queue || x == t;
    LinedAppend(s, s', t);
  }

  lemma ArriveFreePlaced(c: Client, s: State, t: Tid)
    requires Inv(c, s) && t < |s.threads|
    requires s.lock.Free? && s.threads[t].pc == Try(Enq)
    ensures Placed(c, ArriveFree(s, t))
  {
    hide Lined, View;
  }

  lemma ArriveBusyOrdered(c: Client, s: State, t: Tid)
    requires Inv(c, s) && t < |s.threads|
    requires s.lock.Busy? && s.threads[t].pc == Try(Enq)
    ensures Ordered(ArriveBusy(s, t))
  {
    LinedAppend(s, ArriveBusy(s, t), t);
  }

  lemma ArriveBusyPlaced(c: Client, s: State, t: Tid)
    requires Inv(c, s) && t < |s.threads|
    requires s.lock.Busy? && s.threads[t].pc == Try(Enq)
    ensures Placed(c, ArriveBusy(s, t))
  {
    hide Lined, View;
  }

  lemma PushLockOnlyOrdered(c: Client, s: State, t: Tid)
    requires Ordered(s) && t < |s.threads|
    requires s.lock.Busy? && s.threads[t].pc == Wait(KTry)
    ensures Ordered(PushLockOnly(s, t))
  {
    var s' := PushLockOnly(s, t);
    assert Holder(s') == Holder(s);
    assert Arrivals(Stack(s')) == Arrivals(Stack(s));
    LinedSame(s, s');
  }

  lemma PushLockOnlyPlaced(c: Client, s: State, t: Tid)
    requires Inv(c, s) && t < |s.threads|
    requires s.lock.Busy? && s.threads[t].pc == Wait(KTry)
    ensures Placed(c, PushLockOnly(s, t))
  {
    hide Lined, View;
  }

  lemma UnlockOrdered(c: Client, s: State, t: Tid, fast: bool, force: bool, list: seq<Tid>, k: After)
    requires Inv(c, s) && t < |s.threads|
    requires s.lock == Busy([]) && s.threads[t].pc == Hold(UCas(fast, force), k)
    ensures Ordered(Unlock(s, t, list, k))
  {
    hide HolderOk, ThreadsOk;
  }

  lemma UnlockPlaced(c: Client, s: State, t: Tid, fast: bool, force: bool, list: seq<Tid>, k: After)
    requires Inv(c, s) && t < |s.threads|
    requires s.lock == Busy([]) && s.threads[t].pc == Hold(UCas(fast, force), k)
    ensures Placed(c, Unlock(s, t, list, k))
  {
    hide Lined, View;
  }

  lemma DetachStackOrdered(c: Client, s: State, t: Tid, force: bool, k: After)
    requires Inv(c, s) && t < |s.threads|
    requires s.lock.Busy? && s.lock.stack != [] && s.threads[t].pc == Hold(ULoop(force), k)
    ensures Ordered(DetachStack(s, t, force, k))
  {
    hide HolderOk, ThreadsOk;
  }

  lemma DetachStackPlaced(c: Client, s: State, t: Tid, force: bool, k: After)
    requires Inv(c, s) && t < |s.threads|
    requires s.lock.Busy? && s.lock.stack != [] && s.threads[t].pc == Hold(ULoop(force), k)
    ensures Placed(c, DetachStack(s, t, force, k))
  {
    hide Lined, View;
  }

  lemma LinkOwnOrdered(c: Client, s: State, t: Tid, k: After)
    requires Inv(c, s) && t < |s.threads|
    requires s.threads[t].pc == Hold(EnqInsert, k)
    ensures Ordered(LinkOwn(s, t, k))
  {
    hide ThreadsOk;
  }

  lemma LinkOwnPlaced(c: Client, s: State, t: Tid, k: After)
    requires Inv(c, s) && t < |s.threads|
    requires s.threads[t].pc == Hold(EnqInsert, k)
    ensures Placed(c, LinkOwn(s, t, k))
  {
    hide Lined, View;
  }

  lemma UnlinkOwnView(c: Client, s: State, t: Tid, k: After)
    requires Inv(c, s) && t < |s.threads| && s.threads[t].pc == Hold(KRemove, k) && s.threads[t].linked
    ensures Owned(UnlinkOwn(s, t)) && View(UnlinkOwn(s, t)) == UnlinkOwn(s, t).queue
  {
    hide ThreadsOk, Lined, Without;
    var s' := UnlinkOwn(s, t);
    assert Holder(s) == Hold(KRemove, k) && Holder(s') == Hold(RTest, ToReturn);
    WithoutAppend(s.head, Arrivals(Stack(s)), t);
  }

  lemma UnlinkOwnOrdered(c: Client, s: State, t: Tid, k: After)
    requires Inv(c, s) && t < |s.threads|
    requires s.threads[t].pc == Hold(KRemove, k) && s.threads[t].linked
    ensures Ordered(UnlinkOwn(s, t))
  {
    hide ThreadsOk, View, Without;
    var s' := UnlinkOwn(s, t);
    assert Holder(s) == Hold(KRemove, k) && Holder(s') == Hold(RTest, ToReturn);
    UnlinkOwnView(c, s, t, k);
    LinedWithout(s, s', t);
  }

  lemma UnlinkOwnPlaced(c: Client, s: State, t: Tid, k: After)
    requires Inv(c, s) && t < |s.threads|
    requires s.threads[t].pc == Hold(KRemove, k) && s.threads[t].linked
    ensures Placed(c, UnlinkOwn(s, t))
  {
    hide Lined, View;
  }

  lemma TakeFrontOrdered(c: Client, s: State, t: Tid, r: int, k: After)
    requires Inv(c, s) && t < |s.threads|
    requires s.threads[t].pc == Hold(RRemove(r), k)
    ensures Ordered(TakeFront(s, t, r, k))
  {
    hide ThreadsOk, Lined;
    var s' := TakeFront(s, t, r, k);
    var x := s.head[0];
    assert Holder(s) == Hold(RRemove(r), k) && Holder(s') == Hold(RLock(x, r), k);
    assert s.queue[0] == x && x in s.queue;
    assert Without(s.queue, x) == s.queue[1..] == View(s');
    LinedWithout(s, s', x);
  }

  lemma TakeFrontPlaced(c: Client, s: State, t: Tid, r: int, k: After)
    requires Inv(c, s) && t < |s.threads|
    requires s.threads[t].pc == Hold(RRemove(r), k)
    ensures Placed(c, TakeFront(s, t, r, k))
  {
    var s' := TakeFront(s, t, r, k);
    var x := s.head[0];
    assert Holder(s) == Hold(RRemove(r), k) && Holder(s') == Hold(RLock(x, r), k);
    assert s.queue[0] == x && x in s.queue;
    assert Waiting(s.threads[x]);
  }

  lemma GrantOrdered(c: Client, s: State, t: Tid, x: Tid, r: int, k: After)
    requires Inv(c, s) && t < |s.threads|
    requires s.threads[t].pc == Hold(RLock(x, r), k) && s.threads[x].parker.Open?
    ensures Ordered(Grant(s, t, x, r, k))
  {
    hide ThreadsOk;
  }

  lemma GrantPlaced(c: Client, s: State, t: Tid, x: Tid, r: int, k: After)
    requires Inv(c, s) && t < |s.threads|
    requires s.threads[t].pc == Hold(RLock(x, r), k) && s.threads[x].parker.Open?
    ensures Placed(c, Grant(s, t, x, r, k))
  {
    hide Lined, View;
  }

  lemma WakeOrdered(c: Client, s: State, t: Tid, x: Tid, r: int, k: After)
    requires Ordered(s) && HolderOk(s) && t < |s.threads|
    requires s.threads[t].pc == Hold(RWake(x, r), k)
    ensures Ordered(Wake(c, s, t, x, r, k))
  {
    var s' := Wake(c, s, t, x, r, k);
    assert Holder(s) == Hold(RWake(x, r), k) && Holder(s') == Hold(if Exclusive(c, r) then RForce else RTest, k);
    LinedSame(s, s');
  }

  lemma WakePlaced(c: Client, s: State, t: Tid, x: Tid, r: int, k: After)
    requires Inv(c, s) && t < |s.threads|
    requires s.threads[t].pc == Hold(RWake(x, r), k)
    ensures Placed(c, Wake(c, s, t, x, r, k))
  {
    hide Lined, View;
  }

  lemma DropFrontOrdered(c: Client, s: State, t: Tid, x: Tid, r: int, k: After)
    requires Ordered(s) && HolderOk(s) && t < |s.threads|
    requires s.threads[t].pc == Hold(RUnlink(x, r), k)
    ensures Ordered(DropFront(s, t, x, r, k))
  {
  }

  lemma DropFrontPlaced(c: Client, s: State, t: Tid, x: Tid, r: int, k: After)
    requires Inv(c, s) && t < |s.threads|
    requires s.threads[t].pc == Hold(RUnlink(x, r), k)
    ensures Placed(c, DropFront(s, t, x, r, k))
  {
    hide Lined, View;
    var s' := DropFront(s, t, x, r, k);
    assert Holder(s') == Hold(RUndo(r), k);
    assert Sound(c, s'.threads[x]) && Sound(c, s'.threads[t]);
  }

  lemma ProcLockOnlyOrdered(c: Client, s: State, t: Tid, rem: seq<Block>, pos: nat, changed: bool, force: bool, k: After, h: HoldPc)
    requires Ordered(s) && HolderOk(s) && t < |s.threads| && s.threads[t].pc == Hold(Proc(rem, pos, changed, force), k)
    requires rem[0].LockOnly? && ProcAfter(h, rem, pos)
    ensures Ordered(ProcLockOnly(s, t, rem[0].who, h, k))
  {
    var s' := ProcLockOnly(s, t, rem[0].who, h, k);
    var h0 := Proc(rem, pos, changed, force);
    assert Holder(s) == Hold(h0, k) && Holder(s') == Hold(h, k);
    ProcLockOnlyNear(s, s', rem, pos, h0, h, k);
    LinedSame(s, s');
  }

  lemma ProcLockOnlyPlaced(c: Client, s: State, t: Tid, rem: seq<Block>, pos: nat, changed: bool, force: bool, k: After, h: HoldPc)
    requires Inv(c, s) && t < |s.threads| && s.threads[t].pc == Hold(Proc(rem, pos, changed, force), k)
    requires rem[0].LockOnly? && ProcAfter(h, rem, pos)
    ensures Placed(c, ProcLockOnly(s, t, rem[0].who, h, k))
  {
    hide Lined, View;
  }

  lemma ProcInsertOrdered(c: Client, s: State, t: Tid, rem: seq<Block>, pos: nat, changed: bool, force: bool, k: After, h: HoldPc)
    requires Ordered(s) && HolderOk(s) && t < |s.threads| && s.threads[t].pc == Hold(Proc(rem, pos, changed, force), k)
    requires rem[0].Acquire? && s.threads[rem[0].who].parker.Open? && ProcAfter(h, rem, pos)
    ensures Ordered(ProcInsert(s, t, rem[0].who, pos, h, k))
  {
    var s' := ProcInsert(s, t, rem[0].who, pos, h, k);
    var h0 := Proc(rem, pos, changed, force);
    assert Holder(s) == Hold(h0, k) && Holder(s') == Hold(h, k);
    ProcInsertNear(s, s', rem, pos, h0, h, k);
    LinedSame(s, s');
  }

  lemma ProcInsertPlaced(c: Client, s: State, t: Tid, rem: seq<Block>, pos: nat, changed: bool, force: bool, k: After, h: HoldPc)
    requires Inv(c, s) && t < |s.threads| && s.threads[t].pc == Hold(Proc(rem, pos, changed, force), k)
    requires rem[0].Acquire? && s.threads[rem[0].who].parker.Open? && ProcAfter(h, rem, pos)
    ensures Placed(c, ProcInsert(s, t, rem[0].who, pos, h, k))
  {
    hide Lined, View;
  }

  lemma ProcDropLined(c: Client, s: State, t: Tid, rem: seq<Block>, pos: nat, changed: bool, force: bool, k: After, h: HoldPc)
    requires Ordered(s) && HolderOk(s) && t < |s.threads| && s.threads[t].pc == Hold(Proc(rem, pos, changed, force), k)
    requires rem[0].Acquire? && !s.threads[rem[0].who].parker.Open? && ProcAfter(h, rem, pos)
    ensures Lined(ProcDrop(s, t, rem[0].who, h, k))
  {
    var s' := ProcDrop(s, t, rem[0].who, h, k);
    var h0 := Proc(rem, pos, changed, force);
    assert Holder(s) == Hold(h0, k) && Holder(s') == Hold(h, k);
    LinedWithout(s, s', rem[0].who);
  }

  lemma ProcDropOrdered(c: Client, s: State, t: Tid, rem: seq<Block>, pos: nat, changed: bool, force: bool, k: After, h: HoldPc)
    requires Ordered(s) && HolderOk(s) && t < |s.threads| && s.threads[t].pc == Hold(Proc(rem, pos, changed, force), k)
    requires rem[0].Acquire? && !s.threads[rem[0].who].parker.Open? && ProcAfter(h, rem, pos)
    ensures Ordered(ProcDrop(s, t, rem[0].who, h, k))
  {
    var s' := ProcDrop(s, t, rem[0].who, h, k);
    var h0 := Proc(rem, pos, changed, force);
    assert Holder(s) == Hold(h0, k) && Holder(s') == Hold(h, k);
    ProcDropView(s, s', rem, pos, h0, h, k);
    ProcDropLined(c, s, t, rem, pos, changed, force, k, h);
  }

  lemma ProcDropPlaced(c: Client, s: State, t: Tid, rem: seq<Block>, pos: nat, changed: bool, force: bool, k: After, h: HoldPc)
    requires Inv(c, s) && t < |s.threads| && s.threads[t].pc == Hold(Proc(rem, pos, changed, force), k)
    requires rem[0].Acquire? && !s.threads[rem[0].who].parker.Open? && ProcAfter(h, rem, pos)
    ensures Placed(c, ProcDrop(s, t, rem[0].who, h, k))
  {
    hide Lined, View;
    var s' := ProcDrop(s, t, rem[0].who, h, k);
    assert Holder(s) == Hold(Proc(rem, pos, changed, force), k) && Holder(s') == Hold(h, k);
    assert Sound(c, s'.threads[rem[0].who]) && Sound(c, s'.threads[t]);
  }

  lemma CancelOrdered(c: Client, s: State, t: Tid)
    requires Inv(c, s) && t < |s.threads|
    requires Framed(s.threads[t].pc) && s.threads[t].parker.Open?
    ensures Ordered(SetParker(s, t, Cancelled))
  {
    hide HolderOk, ThreadsOk;
  }

  lemma CancelPlaced(c: Client, s: State, t: Tid)
    requires Inv(c, s) && t < |s.threads|
    requires Framed(s.threads[t].pc) && s.threads[t].parker.Open?
    ensures Placed(c, SetParker(s, t, Cancelled))
  {
    hide Lined, View;
    var s' := SetParker(s, t, Cancelled);
    assert Holder(s') == Holder(s);
    assert Sound(c, s'.threads[t]);
    assert FrontCode(s') == FrontCode(s);
  }
}
