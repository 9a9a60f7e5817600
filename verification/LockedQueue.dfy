/**
 The locked queue protocol as a step system. Each step is one access to shared memory by
 one thread: a load, a store, a compare-and-swap or an exchange. A load that only feeds
 the compare-and-swap right after it is merged with it, since a failed one changes nothing
 and is retried.

 The state holds the fields of the queue and of its client, one record per thread, and
 four history variables (owner, queue, nextTicket, leftFull) that no step tests.
 */
module LockedQueue {
  import opened LockClients

  type Tid = nat

  /** An entry of the lock word's stack: an acquire request, or a thread that waits only for the lock. */
  datatype Block = Acquire(who: Tid) | LockOnly(who: Tid)

  /** LOCK_FREE, or the stack of arrivals with the newest first; LOCK_BUSY is the empty stack. */
  datatype LockWord = Free | Busy(stack: seq<Block>)

  /** The parker of an acquire request, initialized with count one. */
  datatype Parker = Open | Granting | Granted | Cancelled

  /**
   What follows the lock holder's work and the check after it: the holder of a queued
   block parks, a releaser or a canceller that is done returns, and a canceller first
   unlinks its block.
   */
  datatype After = ToPark | ToReturn | ToUnlink

  /** TryAcquireInternal, and the enqueue of a failed attempt. */
  datatype TryPc =
    | AcqRead(block: bool)
    | AcqLock(seen: int, block: bool)
    | AcqHead(seen: int, block: bool)
    | AcqCas(seen: int, block: bool)
    | Enq

  /** After an unlock or a release: lock-only waiters to unpark, then IsReleasePending. */
  datatype CheckPc =
    | Unpark(list: seq<Tid>)
    | CFront
    | CState(hint: int)
    | CLock

  /** ParkThreadEx on the request's parker; CancelAcquire and LockLockedQueue. */
  datatype WaitPc =
    | Park
    | KLoop
    | KTry
    | KWait(woken: bool)

  /** Everything between the compare-and-swap to LOCK_BUSY and the one to LOCK_FREE. */
  datatype HoldPc =
    // the holder's own block, and the reset of the fields after taking the lock
    | EnqInsert
    | EnqZero(front: bool)
    | EnqDecide(front: bool)
    | CZero
    | KZero
    | KRemove
    // ReleaseWaitersAndUnlockQueue
    | RTest
    | RTake
    | RRemove(r: int)
    | RLock(x: Tid, r: int)
    | RWake(x: Tid, r: int)
    | RUnlink(x: Tid, r: int)
    | RUndo(r: int)
    | RForce
    // TryUnlockLockedQueue and SlowTryUnlockLockedQueue
    | UTest(force: bool)
    | UHint(fast: bool, force: bool)
    | UCas(fast: bool, force: bool)
    | UClear(fast: bool, force: bool)
    | ULoop(force: bool)
    | Proc(rem: seq<Block>, pos: nat, changed: bool, force: bool)

  /** The next shared access of a thread. */
  datatype Pc = Idle | Try(a: TryPc) | Check(q: CheckPc, k: After) | Wait(w: WaitPc) | Hold(h: HoldPc, k: After)

  /**
   A thread with its one stack-allocated wait block: the request, the parker and whether
   the block is linked (Flink differs from the block itself). The ticket numbers the
   block's arrival; permits, readers and writers count what the thread has been granted.
   */
  datatype Thread = Thread(
    pc: Pc, req: int, parker: Parker, linked: bool, ticket: nat,
    permits: int, readers: int, writers: int)

  datatype State = State(
    word: int,              // State of the semaphore or of the read/write lock
    lock: LockWord,         // LockState
    head: seq<Tid>,         // Head: acquire blocks, by owner
    hint: int,              // FrontRequest
    private: seq<Tid>,      // LockPrivateQueue: lock-only blocks, by owner
    threads: seq<Thread>,
    released: int,          // permits given by successful releases
    owner: Tid,             // the last thread to take the lock
    queue: seq<Tid>,        // the abstract queue: unfinished arrivals in order
    nextTicket: nat,
    leftFull: bool)         // a reader has left when the reader count was at its maximum

  datatype Action =
    | Run                                   // the thread makes its next access
    | StartAcquire(r: int, block: bool)     // an idle thread calls acquire; block is Timeout != 0
    | StartRelease(n: int)                  // an idle thread calls release or exit
    | Cancel                                // a timeout or an alerter cancels the thread's parker
    | Spin                                  // LockLockedQueue spins once more

  function Init(c: Client, n: nat): State {
    State(InitialWord(c), Free, [], 0, [],
          seq(n, i => Thread(Idle, 0, Open, false, 0, 0, 0, 0)), 0, 0, [], 0, false)
  }

  // ---- updates ----

  function SetPc(s: State, t: Tid, pc: Pc): State
    requires t < |s.threads|
  {
    s.(threads := s.threads[t := s.threads[t].(pc := pc)])
  }

  function SetParker(s: State, x: Tid, p: Parker): State
    requires x < |s.threads|
  {
    s.(threads := s.threads[x := s.threads[x].(parker := p)])
  }

  function SetLinked(s: State, x: Tid, linked: bool): State
    requires x < |s.threads|
  {
    s.(threads := s.threads[x := s.threads[x].(linked := linked)])
  }

  function SetWord(s: State, word: int): State {
    s.(word := word)
  }

  function Credited(c: Client, th: Thread, r: int): Thread {
    if c.Semaphore? then th.(permits := th.permits + r)
    else if r == LOCK_READ then th.(readers := th.readers + 1)
    else th.(writers := th.writers + 1)
  }

  function Credit(c: Client, s: State, x: Tid, r: int): State
    requires x < |s.threads|
  {
    s.(threads := s.threads[x := Credited(c, s.threads[x], r)])
  }

  function Without(q: seq<Tid>, x: Tid): seq<Tid> {
    if q == [] then []
    else if q[0] == x then q[1..]
    else [q[0]] + Without(q[1..], x)
  }

  /** The request code that the unlocker publishes for the front of the queue. */
  function FrontCode(s: State): int {
    if s.head == [] || s.head[0] >= |s.threads| then 0 else s.threads[s.head[0]].req
  }

  function Leave(k: After): Pc {
    if k.ToPark? then Wait(Park) else Idle
  }

  // ---- the changes that steps make to the lock and the lists ----

  /** The compare-and-swap on a free lock word has succeeded. */
  function TakeLock(s: State, t: Tid, h: HoldPc, k: After): State
    requires t < |s.threads|
  {
    SetPc(s.(lock := Busy([]), owner := t), t, Hold(h, k))
  }

  /** A wait block becomes visible to other threads, in the list or on the stack. */
  function Arrive(s: State, t: Tid): State
    requires t < |s.threads|
  {
    s.(threads := s.threads[t := s.threads[t].(linked := true, ticket := s.nextTicket)],
       queue := s.queue + [t],
       nextTicket := s.nextTicket + 1)
  }

  function ArriveFree(s: State, t: Tid): State
    requires t < |s.threads|
  {
    TakeLock(Arrive(s, t), t, EnqInsert, ToPark)
  }

  function ArriveBusy(s: State, t: Tid): State
    requires t < |s.threads| && s.lock.Busy?
  {
    SetPc(Arrive(s, t).(lock := Busy([Acquire(t)] + s.lock.stack)), t, Wait(Park))
  }

  function PushLockOnly(s: State, t: Tid): State
    requires t < |s.threads| && s.lock.Busy?
  {
    SetPc(s.(lock := Busy([LockOnly(t)] + s.lock.stack)), t, Wait(KWait(false)))
  }

  function LinkOwn(s: State, t: Tid, k: After): State
    requires t < |s.threads|
  {
    SetPc(s.(head := s.head + [t]), t, Hold(EnqZero(s.head == []), k))
  }

  function UnlinkOwn(s: State, t: Tid): State
    requires t < |s.threads|
  {
    SetPc(s.(head := Without(s.head, t), queue := Without(s.queue, t)), t, Hold(RTest, ToReturn))
  }

  function TakeFront(s: State, t: Tid, r: int, k: After): State
    requires t < |s.threads| && s.head != []
  {
    SetPc(s.(head := s.head[1..], queue := Without(s.queue, s.head[0])), t, Hold(RLock(s.head[0], r), k))
  }

  function Grant(s: State, t: Tid, x: Tid, r: int, k: After): State
    requires t < |s.threads| && x < |s.threads|
  {
    SetPc(SetParker(s, x, Granting), t, Hold(RWake(x, r), k))
  }

  function Wake(c: Client, s: State, t: Tid, x: Tid, r: int, k: After): State
    requires t < |s.threads| && x < |s.threads|
  {
    SetPc(SetParker(Credit(c, s, x, r), x, Granted), t, Hold(if Exclusive(c, r) then RForce else RTest, k))
  }

  function DropFront(s: State, t: Tid, x: Tid, r: int, k: After): State
    requires t < |s.threads| && x < |s.threads|
  {
    SetPc(SetLinked(s, x, false), t, Hold(RUndo(r), k))
  }

  function Unlock(s: State, t: Tid, list: seq<Tid>, k: After): State
    requires t < |s.threads|
  {
    SetPc(s.(lock := Free), t, Check(Unpark(list), k))
  }

  function DetachStack(s: State, t: Tid, force: bool, k: After): State
    requires t < |s.threads| && s.lock.Busy?
  {
    SetPc(s.(lock := Busy([])), t, Hold(Proc(s.lock.stack, |s.head|, false, force), k))
  }

  function ProcLockOnly(s: State, t: Tid, x: Tid, h: HoldPc, k: After): State
    requires t < |s.threads|
  {
    SetPc(s.(private := [x] + s.private), t, Hold(h, k))
  }

  function ProcInsert(s: State, t: Tid, x: Tid, pos: nat, h: HoldPc, k: After): State
    requires t < |s.threads| && pos <= |s.head|
  {
    SetPc(s.(head := s.head[..pos] + [x] + s.head[pos..]), t, Hold(h, k))
  }

  function ProcDrop(s: State, t: Tid, x: Tid, h: HoldPc, k: After): State
    requires t < |s.threads| && x < |s.threads|
  {
    SetPc(SetLinked(s.(queue := Without(s.queue, x)), x, false), t, Hold(h, k))
  }

  function UnparkFirst(s: State, t: Tid, list: seq<Tid>, k: After): State
    requires t < |s.threads| && list != [] && list[0] < |s.threads|
  {
    SetPc(SetPc(s, list[0], Wait(KWait(true))), t, Check(Unpark(list[1..]), k))
  }

  function FailFast(s: State, t: Tid, block: bool): State
    requires t < |s.threads|
  {
    if block then SetPc(SetParker(s, t, Open), t, Try(Enq)) else SetPc(s, t, Idle)
  }

  // ---- steps ----

  function TryStep(c: Client, s: State, t: Tid, a: TryPc): (s': State)
    requires t < |s.threads|
    ensures |s'.threads| == |s.threads| && s'.leftFull == s.leftFull
  {
    var r := s.threads[t].req;
    match a
    case AcqRead(b) =>
      if CanTake(c, s.word, r) then SetPc(s, t, Try(AcqLock(s.word, b))) else FailFast(s, t, b)
    case AcqLock(v, b) =>
      if s.lock.Busy? && s.lock.stack != [] then FailFast(s, t, b) else SetPc(s, t, Try(AcqHead(v, b)))
    case AcqHead(v, b) =>
      if s.head != [] then FailFast(s, t, b) else SetPc(s, t, Try(AcqCas(v, b)))
    case AcqCas(v, b) =>
      if s.word == v
      then SetPc(Credit(c, SetWord(s, Taken(c, v, r)), t, r), t, Idle)
      else SetPc(s, t, Try(AcqRead(b)))
    case Enq =>
      if s.lock.Free?
      then ArriveFree(s, t)
      else ArriveBusy(s, t)
  }

  function CheckStep(c: Client, s: State, t: Tid, q: CheckPc, k: After): (s': State)
    requires t < |s.threads|
    ensures |s'.threads| == |s.threads| && s'.word == s.word && s'.leftFull == s.leftFull
  {
    match q
    case Unpark(list) =>
      if list == [] then SetPc(s, t, Check(CFront, k))
      else if list[0] < |s.threads| then UnparkFirst(s, t, list, k)
      else s
    case CFront =>
      if s.hint == 0 then SetPc(s, t, Leave(k)) else SetPc(s, t, Check(CState(s.hint), k))
    case CState(f) =>
      if Pending(c, s.word, f) then SetPc(s, t, Check(CLock, k)) else SetPc(s, t, Leave(k))
    case CLock =>
      if s.lock.Free? then TakeLock(s, t, CZero, k) else SetPc(s, t, Leave(k))
  }

  function WaitStep(s: State, t: Tid, w: WaitPc): (s': State)
    requires t < |s.threads|
    ensures |s'.threads| == |s.threads| && s'.word == s.word && s'.leftFull == s.leftFull
  {
    var th := s.threads[t];
    match w
    case Park =>
      if th.parker.Granted? then SetPc(s, t, Idle)
      else if th.parker.Cancelled? then SetPc(s, t, Wait(KLoop))
      else s
    case KLoop =>
      if th.linked then SetPc(s, t, Wait(KTry)) else SetPc(s, t, Idle)
    case KTry =>
      if s.lock.Free? then TakeLock(s, t, KZero, ToUnlink)
      else PushLockOnly(s, t)
    case KWait(woken) =>
      if woken then SetPc(s, t, Wait(KLoop)) else s
  }

  function ProcNext(rem: seq<Block>, pos: nat, changed: bool, force: bool): HoldPc
    requires rem != []
  {
    if |rem| > 1 then Proc(rem[1..], pos, changed, force)
    else if changed && !force then RTest
    else ULoop(force)
  }

  /** ProcessLockQueue: one detached block is moved to its list, or dropped if it was cancelled. */
  function ProcStep(s: State, t: Tid, rem: seq<Block>, pos: nat, changed: bool, force: bool, k: After): (s': State)
    requires t < |s.threads|
    ensures |s'.threads| == |s.threads| && s'.word == s.word && s'.leftFull == s.leftFull
  {
    if rem == [] || pos > |s.head| || rem[0].who >= |s.threads| then s
    else
      var x := rem[0].who;
      if rem[0].LockOnly? then
        ProcLockOnly(s, t, x, ProcNext(rem, pos, changed, force), k)
      else if s.threads[x].parker.Open? then
        ProcInsert(s, t, x, pos, ProcNext(rem, pos, true, force), k)
      else
        ProcDrop(s, t, x, ProcNext(rem, pos, changed, force), k)
  }

  predicate Unlocking(h: HoldPc) {
    h.UTest? || h.UHint? || h.UCas? || h.UClear? || h.ULoop? || h.Proc?
  }

  predicate Releasing(h: HoldPc) {
    h.RTest? || h.RTake? || h.RRemove? || h.RLock? || h.RWake? || h.RUnlink? || h.RUndo? || h.RForce?
  }

  /** The holder's own block, and the reset of the fields after taking the lock. */
  function EntryStep(c: Client, s: State, t: Tid, h: HoldPc, k: After): (s': State)
    requires t < |s.threads| && !Unlocking(h) && !Releasing(h)
    ensures |s'.threads| == |s.threads| && s'.word == s.word && s'.leftFull == s.leftFull
  {
    var th := s.threads[t];
    match h
    case EnqInsert => LinkOwn(s, t, k)
    case EnqZero(front) => SetPc(s.(hint := 0, private := []), t, Hold(EnqDecide(front), k))
    case EnqDecide(front) =>
      if !CanTake(c, s.word, th.req) || !front then SetPc(s, t, Hold(UTest(true), k))
      else SetPc(s, t, Hold(RTest, k))
    case CZero => SetPc(s.(hint := 0, private := []), t, Hold(RTest, k))
    case KZero => SetPc(s.(hint := 0, private := []), t, Hold(KRemove, k))
    case KRemove =>
      if th.linked
      then UnlinkOwn(s, t)
      else SetPc(s, t, Hold(RTest, ToReturn))
  }

  /** ReleaseWaitersAndUnlockQueue. */
  function ReleaseStep(c: Client, s: State, t: Tid, h: HoldPc, k: After): (s': State)
    requires t < |s.threads| && Releasing(h)
    ensures |s'.threads| == |s.threads| && s'.leftFull == s.leftFull
  {
    match h
    case RTest =>
      if LoopGuard(c, s.word) && s.head != [] then SetPc(s, t, Hold(RTake, k)) else SetPc(s, t, Hold(RForce, k))
    case RTake =>
      if s.head == [] || s.head[0] >= |s.threads| then s
      else
        var r := s.threads[s.head[0]].req;
        if CanTake(c, s.word, r)
        then SetPc(SetWord(s, Taken(c, s.word, r)), t, Hold(RRemove(r), k))
        else SetPc(s, t, Hold(RForce, k))
    case RRemove(r) =>
      if s.head == [] then s
      else TakeFront(s, t, r, k)
    case RLock(x, r) =>
      if x >= |s.threads| then s
      else if s.threads[x].parker.Open? then Grant(s, t, x, r, k)
      else SetPc(s, t, Hold(RUnlink(x, r), k))
    case RWake(x, r) =>
      if x >= |s.threads| then s
      else Wake(c, s, t, x, r, k)
    case RUnlink(x, r) =>
      if x >= |s.threads| then s else DropFront(s, t, x, r, k)
    case RUndo(r) => SetPc(SetWord(s, Undone(c, s.word, r)), t, Hold(RTest, k))
    case RForce => SetPc(s, t, Hold(UTest(Exhausted(c, s.word)), k))
  }

  /** TryUnlockLockedQueue and SlowTryUnlockLockedQueue. */
  function UnlockStep(s: State, t: Tid, h: HoldPc, k: After): (s': State)
    requires t < |s.threads| && Unlocking(h)
    ensures |s'.threads| == |s.threads| && s'.word == s.word && s'.leftFull == s.leftFull
  {
    match h
    case UTest(force) =>
      if s.lock == Busy([]) && s.private == [] then SetPc(s, t, Hold(UHint(true, force), k))
      else SetPc(s, t, Hold(ULoop(force || s.head != []), k))
    case UHint(fast, force) => SetPc(s.(hint := FrontCode(s)), t, Hold(UCas(fast, force), k))
    case UCas(fast, force) =>
      if s.lock == Busy([])
      then Unlock(s, t, if fast then [] else s.private, k)
      else SetPc(s, t, Hold(UClear(fast, force), k))
    case UClear(fast, force) =>
      SetPc(s.(hint := 0), t, Hold(ULoop(if fast then force || s.head != [] else force), k))
    case ULoop(force) =>
      if s.lock.Free? then s
      else if s.lock.stack == [] then SetPc(s, t, Hold(UHint(false, force), k))
      else DetachStack(s, t, force, k)
    case Proc(rem, pos, changed, force) => ProcStep(s, t, rem, pos, changed, force, k)
  }

  /** The steps of the lock holder. */
  function HoldStep(c: Client, s: State, t: Tid, h: HoldPc, k: After): (s': State)
    requires t < |s.threads|
    ensures |s'.threads| == |s.threads| && s'.leftFull == s.leftFull
  {
    if Unlocking(h) then UnlockStep(s, t, h, k)
    else if Releasing(h) then ReleaseStep(c, s, t, h, k)
    else EntryStep(c, s, t, h, k)
  }

  /** Semaphore release; ExitRead and ExitWrite are called only by a thread that holds the lock. */
  function Release(c: Client, s: State, t: Tid, n: int): (s': State)
    requires t < |s.threads|
    ensures |s'.threads| == |s.threads|
  {
    var th := s.threads[t];
    if c.Semaphore? then
      var word := Wrap32(s.word + n);
      if !(-0x8000_0000 <= n <= LONG_MAX) || word < 0 || word > c.maximum then s
      else SetPc(SetWord(s, word).(released := s.released + n), t, Check(CFront, ToReturn))
    else if n == LOCK_READ && th.readers > 0 then
      var s' := SetWord(s, s.word - 1).(
        leftFull := s.leftFull || s.word == MAX_READERS,
        threads := s.threads[t := th.(readers := th.readers - 1)]);
      if s'.word == 0 then SetPc(s', t, Check(CFront, ToReturn)) else s'
    else if n == LOCK_WRITE && th.writers > 0 then
      SetPc(SetWord(s, 0).(threads := s.threads[t := th.(writers := th.writers - 1)]), t, Check(CFront, ToReturn))
    else s
  }

  /** True of a thread whose wait block has been published and whose acquire call has not given it up. */
  predicate Framed(pc: Pc) {
    pc.Wait? || ((pc.Check? || pc.Hold?) && !pc.k.ToReturn?)
  }

  function Advance(c: Client, s: State, t: Tid): (s': State)
    requires t < |s.threads|
    ensures |s'.threads| == |s.threads| && s'.leftFull == s.leftFull
  {
    match s.threads[t].pc
    case Idle => s
    case Try(a) => TryStep(c, s, t, a)
    case Check(q, k) => CheckStep(c, s, t, q, k)
    case Wait(w) => WaitStep(s, t, w)
    case Hold(h, k) => HoldStep(c, s, t, h, k)
  }

  /** One step of thread t. An action that is not enabled leaves the state as it is. */
  function Do(c: Client, s: State, t: Tid, a: Action): (s': State)
    ensures |s'.threads| == |s.threads|
  {
    if t >= |s.threads| then s
    else
      var th := s.threads[t];
      match a
      case Run => Advance(c, s, t)
      case StartAcquire(r, block) =>
        if th.pc.Idle? && ValidRequest(c, r)
        then s.(threads := s.threads[t := th.(pc := Try(AcqRead(block)), req := r)])
        else s
      case StartRelease(n) => if th.pc.Idle? then Release(c, s, t, n) else s
      case Cancel => if Framed(th.pc) && th.parker.Open? then SetParker(s, t, Cancelled) else s
      case Spin => if th.pc == Wait(KTry) then SetPc(s, t, Wait(KLoop)) else s
  }

  type Schedule = seq<(Tid, Action)>

  /** The state after a schedule of steps, the last one of the sequence being made last. */
  function Exec(c: Client, n: nat, sched: Schedule): (s: State)
    ensures |s.threads| == n
  {
    if sched == [] then Init(c, n)
    else
      var last := sched[|sched| - 1];
      Do(c, Exec(c, n, sched[..|sched| - 1]), last.0, last.1)
  }
}
