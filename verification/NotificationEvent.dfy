/**
 The notification event as a step system. One step is one compare-and-swap or exchange on
 the state word, one read of it, or one visit to a wait block; any number of threads wait,
 set, reset and cancel in any interleaving.
 */
module NotificationEvent {

  type Tid = nat

  /** A waiter's parker: open, locked by a canceller, or locked and released by a setter. */
  datatype Parker = Open | Cancelled | Released

  /** Where a wait block is. The program does not store this; the invariants tie it to the lists. */
  datatype Place = Out | InList | With(owner: Tid)

  /** What follows when a thread has unparked its private list. */
  datatype Then = Finish | SpinUntilUnlinked

  /**
   What a thread does: it enters a wait, is blocked, or takes its cancelled block off
   (test, compare-and-swap of the only block, slow loop); it holds the lock bit and sweeps
   the list, or has seen the set bit as holder; it unparks a private list; it waits for its
   block to be unlinked; it sets or resets the event. A wait with a zero timeout polls.
   */
  datatype Pc = Idle | Entering(poll: bool) | Blocked
              | UnlinkTest | UnlinkCas | UnlinkSlow
              | Sweep(rest: seq<Tid>, live: seq<Tid>) | Deliver(live: seq<Tid>, seen: seq<Tid>)
              | Unpark(list: seq<Tid>, next: Then) | Spin
              | Setting | Resetting

  /** What the last call returned: a wait its success or failure, and a set or reset the state of the event before. */
  datatype Told = Nothing | Success | Failure | Before(wasSet: bool)

  /** A thread with its wait block: unlinked says that the block's link points to itself, epoch when it was inserted. */
  datatype Thread = Thread(pc: Pc, parker: Parker, unlinked: bool, at: Place, epoch: nat, told: Told)

  /** The lock bit; the thread that set it is not part of the word. */
  datatype LockBit = Free | HeldBy(owner: Tid)

  /** The state word, the threads, and the number of successful sets so far. */
  datatype State = State(lock: LockBit, signalled: bool, list: seq<Tid>, threads: seq<Thread>, epoch: nat)

  datatype Action = Run | StartWait(poll: bool) | StartSet | StartReset | Cancel

  function Move(ths: seq<Thread>, xs: seq<Tid>, p: Place): (r: seq<Thread>)
    ensures |r| == |ths|
  {
    seq(|ths|, i requires 0 <= i < |ths| => if i in xs then ths[i].(at := p) else ths[i])
  }

  function To(s: State, t: Tid, pc: Pc): State
    requires t < |s.threads|
  {
    s.(threads := s.threads[t := s.threads[t].(pc := pc)])
  }

  function Start(s: State, t: Tid, pc: Pc): State
    requires t < |s.threads|
  {
    s.(threads := s.threads[t := s.threads[t].(pc := pc, told := Nothing)])
  }

  function Return(s: State, t: Tid, told: Told): State
    requires t < |s.threads|
  {
    s.(threads := s.threads[t := s.threads[t].(pc := Idle, told := told)])
  }

  /** The order in which a list is unparked: if the event spins, the last block, which may spin, comes first. */
  function UnparkOrder(list: seq<Tid>, spins: bool): seq<Tid> {
    if spins && |list| > 1 then [list[|list| - 1]] + list[..|list| - 1] else list
  }

  // ---- waiting ----

  /** A wait ends at once if the event is set or the wait polls; otherwise the block is inserted in front. */
  function Enter(s: State, t: Tid, poll: bool): State
    requires t < |s.threads|
  {
    if s.signalled then Return(s, t, Success)
    else if poll then Return(s, t, Failure)
    else s.(list := [t] + s.list, threads := s.threads[t := Thread(Blocked, Open, false, InList, s.epoch, Nothing)])
  }

  function Wake(s: State, t: Tid): State
    requires t < |s.threads|
  {
    match s.threads[t].parker
    case Open => s
    case Released => Return(s, t, Success)
    case Cancelled => To(s, t, UnlinkTest)
  }

  // ---- unlinking ----

  function Test(s: State, t: Tid): State
    requires t < |s.threads|
  {
    if s.threads[t].unlinked then Return(s, t, Failure)
    else if s.lock.Free? && !s.signalled && s.list == [t] then To(s, t, UnlinkCas)
    else To(s, t, UnlinkSlow)
  }

  /** The compare-and-swap looks at the head alone, and empties the list. */
  function CasAlone(s: State, t: Tid): State
    requires t < |s.threads|
  {
    if s.lock.Free? && !s.signalled && s.list != [] && s.list[0] == t then
      s.(list := [], threads := s.threads[t := s.threads[t].(pc := Idle, at := Out, told := Failure)])
    else To(s, t, UnlinkSlow)
  }

  function TakeLock(s: State, t: Tid): State
    requires t < |s.threads|
  {
    var ths := Move(s.threads, s.list, With(t));
    s.(lock := HeldBy(t), list := [], threads := ths[t := ths[t].(pc := Sweep(s.list, []))])
  }

  function Slow(s: State, t: Tid): State
    requires t < |s.threads|
  {
    if s.threads[t].unlinked then Return(s, t, Failure)
    else if !s.lock.Free? || s.signalled || s.list == [] then s
    else if s.list == [t] then To(s, t, UnlinkCas)
    else TakeLock(s, t)
  }

  /** The holder visits a block: it unlinks one that was cancelled, and keeps the others. */
  function SweepOne(s: State, t: Tid, rest: seq<Tid>, live: seq<Tid>): State
    requires t < |s.threads| && rest != []
  {
    var x := rest[0];
    if x < |s.threads| && s.threads[x].parker != Open then
      var ths := s.threads[x := s.threads[x].(unlinked := true, at := Out)];
      s.(threads := ths[t := ths[t].(pc := Sweep(rest[1..], live))])
    else To(s, t, Sweep(rest[1..], live + [x]))
  }

  /** The holder clears the lock bit and gives the blocks back, unless the event was set. */
  function Unlock(s: State, t: Tid, live: seq<Tid>): State
    requires t < |s.threads|
  {
    if s.signalled then To(s, t, Deliver(live, s.list))
    else
      var ths := Move(s.threads, live, InList);
      s.(lock := Free, list := live + s.list, threads := ths[t := ths[t].(pc := Spin)])
  }

  /** A plain write of the set state; all blocks go to the holder's private list. */
  function WriteSet(s: State, t: Tid, live: seq<Tid>, seen: seq<Tid>, spins: bool): State
    requires t < |s.threads|
  {
    var ths := Move(s.threads, seen, With(t));
    s.(lock := Free, signalled := true, list := [],
       threads := ths[t := ths[t].(pc := Unpark(UnparkOrder(live + seen, spins), SpinUntilUnlinked))])
  }

  /** UnparkListEntry: the owner of the block is released, or finds its block unlinked. */
  function UnparkOne(s: State, t: Tid, list: seq<Tid>, next: Then): State
    requires t < |s.threads| && list != []
  {
    var x := list[0];
    var ths := if x >= |s.threads| then s.threads
               else if s.threads[x].parker == Open then s.threads[x := s.threads[x].(parker := Released, at := Out)]
               else s.threads[x := s.threads[x].(unlinked := true, at := Out)];
    s.(threads := ths[t := ths[t].(pc := Unpark(list[1..], next))])
  }

  function Spun(s: State, t: Tid): State
    requires t < |s.threads|
  {
    if s.threads[t].unlinked then Return(s, t, Failure) else s
  }

  // ---- setting and resetting ----

  function Set(s: State, t: Tid, spins: bool): State
    requires t < |s.threads|
  {
    if s.signalled then Return(s, t, Before(true))
    else if !s.lock.Free? then Return(s, t, Before(false)).(signalled := true, epoch := s.epoch + 1)
    else
      var ths := Move(s.threads, s.list, With(t));
      s.(signalled := true, epoch := s.epoch + 1, list := [],
         threads := ths[t := ths[t].(pc := Unpark(UnparkOrder(s.list, spins), Finish))])
  }

  function Reset(s: State, t: Tid): State
    requires t < |s.threads|
  {
    if !s.signalled then Return(s, t, Before(false))
    else if s.lock.Free? && s.list == [] then Return(s, t, Before(true)).(signalled := false)
    else s
  }

  // ---- one step, and runs ----

  /** The next step of a thread; spins tells whether the event has a spin count. */
  function Step(s: State, t: Tid, spins: bool): State
    requires t < |s.threads|
  {
    match s.threads[t].pc
    case Idle => s
    case Entering(poll) => Enter(s, t, poll)
    case Blocked => Wake(s, t)
    case UnlinkTest => Test(s, t)
    case UnlinkCas => CasAlone(s, t)
    case UnlinkSlow => Slow(s, t)
    case Sweep(rest, live) => if rest != [] then SweepOne(s, t, rest, live) else Unlock(s, t, live)
    case Deliver(live, seen) => WriteSet(s, t, live, seen, spins)
    case Unpark(list, next) =>
      if list != [] then UnparkOne(s, t, list, next)
      else if next.Finish? then Return(s, t, Before(false))
      else To(s, t, Spin)
    case Spin => Spun(s, t)
    case Setting => Set(s, t, spins)
    case Resetting => Reset(s, t)
  }

  function Do(s: State, t: Tid, a: Action, spins: bool): (s': State)
    ensures |s'.threads| == |s.threads|
  {
    if t >= |s.threads| then s
    else match a
      case Run => Step(s, t, spins)
      case StartWait(poll) => if s.threads[t].pc.Idle? then Start(s, t, Entering(poll)) else s
      case StartSet => if s.threads[t].pc.Idle? then Start(s, t, Setting) else s
      case StartReset => if s.threads[t].pc.Idle? then Start(s, t, Resetting) else s
      case Cancel =>
        if s.threads[t].pc.Blocked? && s.threads[t].parker.Open? then
          s.(threads := s.threads[t := s.threads[t].(parker := Cancelled)])
        else s
  }

  function Exec(s: State, run: seq<(Tid, Action)>, spins: bool): State
    decreases |run|
  {
    if run == [] then s else Exec(Do(s, run[0].0, run[0].1, spins), run[1..], spins)
  }

  function Initial(n: nat, isSet: bool): State {
    State(Free, isSet, [], seq(n, _ => Thread(Idle, Released, true, Out, 0, Nothing)), 0)
  }

  // ---- the invariant ----

  /** The blocks in a thread's hands. */
  function Owned(pc: Pc): seq<Tid> {
    match pc
    case Sweep(rest, live) => rest + live
    case Deliver(live, _) => live
    case Unpark(list, _) => list
    case _ => []
  }

  predicate Holding(pc: Pc) {
    pc.Sweep? || pc.Deliver?
  }

  /** The thread has a cancelled block to take off, or has just done so. */
  predicate Unlinking(pc: Pc) {
    pc.UnlinkTest? || pc.UnlinkCas? || pc.UnlinkSlow? || Swept(pc)
  }

  /** The thread has held the lock bit since its block was cancelled. */
  predicate Swept(pc: Pc) {
    Holding(pc) || pc.Spin? || (pc.Unpark? && pc.next.SpinUntilUnlinked?)
  }

  predicate Distinct(xs: seq<Tid>) {
    forall i, j :: 0 <= i < j < |xs| ==> xs[i] != xs[j]
  }

  /** The list holds the blocks that are placed in it, each once. */
  ghost predicate ListOk(s: State) {
    Distinct(s.list) && forall x: Tid :: x in s.list <==> x < |s.threads| && s.threads[x].at.InList?
  }

  /** A thread's hands hold the blocks that are placed there, each once. */
  ghost predicate HandsOk(s: State, u: Tid)
    requires u < |s.threads|
  {
    var own := Owned(s.threads[u].pc);
    Distinct(own) && forall x: Tid :: x in own <==> x < |s.threads| && s.threads[x].at == With(u)
  }

  /** A block is somewhere as long as its thread waits for it to be taken off. */
  predicate LinkOk(th: Thread) {
    && (th.at != Out ==> !th.unlinked && (Unlinking(th.pc) || (th.pc.Blocked? && !th.parker.Released?)))
    && (th.at == Out && (Unlinking(th.pc) || (th.pc.Blocked? && !th.parker.Released?)) ==> th.unlinked && th.parker.Cancelled?)
    && (Unlinking(th.pc) ==> th.parker.Cancelled?)
  }

  predicate OwnerOk(s: State, u: Tid)
    requires u < |s.threads|
  {
    && (Holding(s.threads[u].pc) <==> s.lock == HeldBy(u))
    && (s.threads[u].pc.Deliver? ==> s.signalled && s.list == s.threads[u].pc.seen)
  }

  /** While a thread is about to swap the list for an empty one, nobody stands behind it. */
  ghost predicate TailOk(s: State, t: Tid)
    requires t < |s.threads|
  {
    s.threads[t].pc.UnlinkCas? ==>
      && (t in s.list ==> s.list[|s.list| - 1] == t)
      && (forall u :: 0 <= u < |s.threads| && Holding(s.threads[u].pc) ==> t !in s.threads[u].pc.live)
  }

  /**
   Until the event is set, the blocks in the list or with the holder were inserted since it
   was set last. All others that are linked, or have been released, were inserted before.
   */
  predicate EpochOk(s: State, x: Tid)
    requires x < |s.threads|
  {
    && s.threads[x].epoch <= s.epoch
    && (s.threads[x].at.InList? && !s.signalled ==> s.threads[x].epoch == s.epoch)
    && (s.threads[x].at.InList? && s.signalled ==> s.threads[x].epoch < s.epoch)
    && (s.threads[x].at.With? ==>
          if s.lock == HeldBy(s.threads[x].at.owner) && !s.signalled then s.threads[x].epoch == s.epoch
          else s.threads[x].epoch < s.epoch)
    && (s.threads[x].pc.Blocked? && s.threads[x].parker.Released? ==> s.threads[x].epoch < s.epoch)
  }

  /** A block whose thread has held the lock bit is with the thread itself, to be swept, or with one that unparks. */
  predicate SpinOk(s: State, t: Tid)
    requires t < |s.threads|
  {
    && (s.threads[t].at.With? ==> s.threads[t].at.owner < |s.threads|)
    && (Swept(s.threads[t].pc) ==>
      && !s.threads[t].at.InList?
      && (s.threads[t].at.With? ==> (s.threads[s.threads[t].at.owner].pc.Unpark? || (s.threads[t].at.owner == t && s.threads[t].pc.Sweep?)))
      && (Holding(s.threads[t].pc) ==> t !in s.threads[t].pc.live))
  }

  ghost predicate AllHands(s: State) {
    forall u :: 0 <= u < |s.threads| ==> HandsOk(s, u)
  }

  predicate AllLinks(s: State) {
    forall x :: 0 <= x < |s.threads| ==> LinkOk(s.threads[x])
  }

  predicate AllOwners(s: State) {
    (s.lock.HeldBy? ==> s.lock.owner < |s.threads|) && forall u :: 0 <= u < |s.threads| ==> OwnerOk(s, u)
  }

  ghost predicate AllTails(s: State) {
    forall t :: 0 <= t < |s.threads| ==> TailOk(s, t)
  }

  predicate AllEpochs(s: State) {
    forall x :: 0 <= x < |s.threads| ==> EpochOk(s, x)
  }

  predicate AllSpins(s: State) {
    forall t :: 0 <= t < |s.threads| ==> SpinOk(s, t)
  }

  /** A set event that is not locked has nobody in its list. */
  predicate SetIsEmpty(s: State) {
    s.signalled && s.lock.Free? ==> s.list == []
  }

  ghost predicate Inv(s: State) {
    SetIsEmpty(s) && ListOk(s) && AllHands(s) && AllLinks(s) && AllOwners(s) && AllTails(s) && AllEpochs(s) && AllSpins(s)
  }
}
