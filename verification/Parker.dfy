/**
 The parker and its park spot as a step system: an owner that parks once, and any number of
 other threads that try to lock or cancel the parker and unpark the owner. One step is one
 access to the packed state word, the wait status or the kernel event of the park spot.
 */
module Parker {

  const MAX_LOCKS: int := 0xFFFF

  type Tid = nat
  type Status = int

  /** The wait statuses that the owner gives itself. */
  const WAIT_TIMEOUT: Status := 258
  const WAIT_ALERTED: Status := 257
  const WAIT_FAILED: Status := -1

  /**
   Another thread: it has not come to the parker, has lost, has won and is about to write
   its status, has written it, has seen the wait-in-progress bit, is about to set the park
   spot, or has unparked the owner by clearing the bit or by setting the spot.
   */
  datatype Pc = Idle | Lost | Won | Wrote | Exchange | SetSpot | Cleared | Set

  datatype Thread = Thread(pc: Pc, status: Status)

  /**
   The owner: it spins, has no park spot, has one and is about to clear the bit, is about to
   register with the alerter, waits on the spot, has timed out, waits unconditionally, is
   about to read its status, or has returned. All but the first two have a spot.
   */
  datatype Owner = Spin | NoSpot | Clear | Register | WaitSpot(bounded: bool) | TimedOut | WaitOn | Leave | Returned(status: Status)

  /** Who brought the count to zero; the owner does so by timeout, alert or lack of a spot, or in a callback that interrupts its wait. */
  datatype Winner = Nobody | Other(t: Tid) | Self | Callback(status: Status)

  /**
   The lock count and the wait-in-progress bit share one word. The park spot has an
   auto-reset event and a flag for callbacks on the owner's thread. The winner is not part
   of the program's state.
   */
  datatype State = State(count: nat, inProgress: bool, status: Status, event: bool, flag: bool,
                         owner: Owner, threads: seq<Thread>, winner: Winner)

  /** Steps of the owner carry what its surroundings do: whether a spot can be allocated, an alerter is set, the wait is bounded. */
  datatype Action =
    | TryLock(t: Tid) | TryCancel(t: Tid) | Unpark(t: Tid)
    | SpinOwner | SpinAlerted | Allocate(ok: bool, alertable: bool) | RunOwner(alerted: bool, bounded: bool)
    | Timeout | Interrupt(cancel: bool, result: Status)

  function To(s: State, t: Tid, pc: Pc): State
    requires t < |s.threads|
  {
    s.(threads := s.threads[t := s.threads[t].(pc := pc)])
  }

  // ---- the other threads ----

  /** TryLockParker takes one from the count, and wins with the last one. */
  function TryLockStep(s: State, t: Tid): State
    requires t < |s.threads|
  {
    if s.threads[t].pc != Idle then s
    else if s.count == 0 then To(s, t, Lost)
    else if s.count == 1 then To(s, t, Won).(count := 0, winner := Other(t))
    else To(s, t, Lost).(count := s.count - 1)
  }

  /** TryCancelParker clears the count and keeps the wait-in-progress bit. */
  function TryCancelStep(s: State, t: Tid): State
    requires t < |s.threads|
  {
    if s.threads[t].pc != Idle then s
    else if s.count == 0 then To(s, t, Lost)
    else To(s, t, Won).(count := 0, winner := Other(t))
  }

  /** UnparkThread, access by access. */
  function UnparkStep(s: State, t: Tid): State
    requires t < |s.threads|
  {
    match s.threads[t].pc
    case Won => To(s, t, Wrote).(status := s.threads[t].status)
    case Wrote => To(s, t, if s.inProgress then Exchange else SetSpot)
    case Exchange => To(s, t, if s.inProgress then Cleared else SetSpot).(inProgress := false, count := 0)
    case SetSpot => To(s, t, Set).(event := true)
    case _ => s
  }

  // ---- the owner ----

  /** TryCancelParker by the owner itself. */
  function CancelSelf(s: State): State {
    s.(count := 0, winner := Self)
  }

  function SpinStep(s: State): State {
    if s.owner.Spin? && !s.inProgress then s.(owner := Leave) else s
  }

  function SpinAlertedStep(s: State): State {
    if s.owner.Spin? && s.count != 0 then CancelSelf(s).(owner := Returned(WAIT_ALERTED)) else s
  }

  /** The spinning ends and a park spot is allocated; without one the owner gives up if nobody has locked its parker. */
  function AllocateStep(s: State, ok: bool, alertable: bool): State {
    if !s.owner.Spin? then s
    else if ok then s.(owner := Clear, flag := false)
    else if alertable && s.count != 0 then CancelSelf(s).(owner := Returned(WAIT_FAILED))
    else s.(owner := NoSpot)
  }

  function OwnerStep(s: State, alerted: bool, bounded: bool): State {
    match s.owner
    case NoSpot => if !s.inProgress then s.(owner := Leave) else s
    case Clear => s.(inProgress := false, owner := if s.inProgress then Register else Leave)
    case Register =>
      if !alerted then s.(owner := WaitSpot(bounded))
      else if s.count != 0 then CancelSelf(s).(owner := Returned(WAIT_ALERTED))
      else s.(owner := WaitSpot(false))
    case WaitSpot(_) =>
      if s.flag then s.(owner := Leave)
      else if s.event then s.(event := false, owner := Leave)
      else s
    case TimedOut =>
      if s.count != 0 then CancelSelf(s).(status := WAIT_TIMEOUT, inProgress := false, owner := Leave)
      else s.(owner := WaitOn)
    case WaitOn => if s.event then s.(event := false, owner := Leave) else s
    case Leave => s.(owner := Returned(s.status))
    case _ => s
  }

  /** The wait ends by timeout, which the flag would have prevented. */
  function TimeoutStep(s: State): State {
    if s.owner == WaitSpot(true) && !s.flag then s.(owner := TimedOut) else s
  }

  /** A callback on the owner's thread interrupts its wait, and locks and unparks the parker itself. */
  function InterruptStep(s: State, cancel: bool, result: Status): State {
    if !s.owner.WaitSpot? || s.count == 0 then s
    else if cancel || s.count == 1 then s.(count := 0, status := result, flag := true, winner := Callback(result))
    else s.(count := s.count - 1)
  }

  function Do(s: State, a: Action): (s': State)
    ensures |s'.threads| == |s.threads|
  {
    match a
    case TryLock(t) => if t < |s.threads| then TryLockStep(s, t) else s
    case TryCancel(t) => if t < |s.threads| then TryCancelStep(s, t) else s
    case Unpark(t) => if t < |s.threads| then UnparkStep(s, t) else s
    case SpinOwner => SpinStep(s)
    case SpinAlerted => SpinAlertedStep(s)
    case Allocate(ok, alertable) => AllocateStep(s, ok, alertable)
    case RunOwner(alerted, bounded) => OwnerStep(s, alerted, bounded)
    case Timeout => TimeoutStep(s)
    case Interrupt(cancel, result) => InterruptStep(s, cancel, result)
  }

  function Exec(s: State, run: seq<Action>): (s': State)
    ensures |s'.threads| == |s.threads|
    decreases |run|
  {
    if run == [] then s else Exec(Do(s, run[0]), run[1..])
  }

  /**
   A parker with a count, on a clean spot; each thread brings the status it will unpark
   with. A parker that is set up locked belongs to the first thread from the start.
   */
  function Initial(count: nat, statuses: seq<Status>): State {
    var pc := if count == 0 then Won else Idle;
    State(count, true, 0, false, false, Spin,
          seq(|statuses|, i requires 0 <= i < |statuses| => Thread(if i == 0 then pc else Idle, statuses[i])),
          if count == 0 then Other(0) else Nobody)
  }

  predicate Proper(count: nat, statuses: seq<Status>) {
    count <= MAX_LOCKS && (count == 0 ==> statuses != [])
  }

  // ---- the invariant ----

  /** The thread is the winner. */
  predicate Winning(pc: Pc) {
    pc != Idle && pc != Lost
  }

  /** The owner has not yet cleared the wait-in-progress bit. */
  predicate Early(o: Owner) {
    o.Spin? || o.NoSpot? || o.Clear?
  }

  predicate Waiting(o: Owner) {
    o.Register? || o.WaitSpot? || o.TimedOut? || o.WaitOn?
  }

  predicate ThreadOk(s: State, t: Tid)
    requires t < |s.threads|
  {
    var pc := s.threads[t].pc;
    && (Winning(pc) <==> s.winner == Other(t))
    && ((pc.Wrote? || pc.Exchange? || pc.SetSpot? || pc.Cleared? || pc.Set?) ==> s.status == s.threads[t].status)
    && (pc.Won? || pc.Wrote? || pc.Exchange? ==> !s.event && (Early(s.owner) || Waiting(s.owner)) && (Early(s.owner) <==> s.inProgress))
    && (pc.SetSpot? ==> !s.event && Waiting(s.owner) && !s.inProgress)
    && (pc.Cleared? ==> !s.event && !s.inProgress && !Waiting(s.owner))
    && (pc.Set? ==> !s.inProgress && !Early(s.owner) && (s.event <==> Waiting(s.owner)))
    && ((pc.Cleared? || pc.Set?) && s.owner.Returned? ==> s.owner.status == s.threads[t].status)
  }

  predicate SharedOk(s: State) {
    && (s.count == 0 <==> s.winner != Nobody)
    && (s.winner.Other? ==> s.winner.t < |s.threads|)
    && (s.winner.Nobody? ==> !s.event && !s.flag && !s.owner.Leave? && !s.owner.Returned? && !s.owner.WaitOn? && (Early(s.owner) <==> s.inProgress))
    && (s.flag ==> s.winner.Callback?)
    && (s.winner.Callback? ==> !s.event && !s.inProgress && s.status == s.winner.status
                               && ((s.owner.WaitSpot? && s.flag) || s.owner.Leave? || s.owner == Returned(s.winner.status)))
    && (s.winner.Self? ==> !s.event && ((s.owner == Leave && s.status == WAIT_TIMEOUT)
                           || s.owner == Returned(WAIT_TIMEOUT) || s.owner == Returned(WAIT_ALERTED) || s.owner == Returned(WAIT_FAILED)))
    && (s.owner.WaitOn? ==> s.winner.Other?)
  }

  predicate Inv(s: State) {
    SharedOk(s) && forall t :: 0 <= t < |s.threads| ==> ThreadOk(s, t)
  }

  lemma TryLockKeeps(s: State, t: Tid)
    requires Inv(s) && t < |s.threads|
    ensures Inv(TryLockStep(s, t))
  {
    var s' := TryLockStep(s, t);
    if s.winner.Other? {
      assert ThreadOk(s, s.winner.t);
    }
    forall u | 0 <= u < |s'.threads| ensures ThreadOk(s', u) {
      assert ThreadOk(s, u);
    }
  }

  lemma TryCancelKeeps(s: State, t: Tid)
    requires Inv(s) && t < |s.threads|
    ensures Inv(TryCancelStep(s, t))
  {
    var s' := TryCancelStep(s, t);
    if s.winner.Other? {
      assert ThreadOk(s, s.winner.t);
    }
    forall u | 0 <= u < |s'.threads| ensures ThreadOk(s', u) {
      assert ThreadOk(s, u);
    }
  }

  lemma UnparkKeeps(s: State, t: Tid)
    requires Inv(s) && t < |s.threads|
    ensures Inv(UnparkStep(s, t))
  {
    assert ThreadOk(s, t);
    var s' := UnparkStep(s, t);
    if s.winner.Other? {
      assert ThreadOk(s, s.winner.t);
    }
    forall u | 0 <= u < |s'.threads| ensures ThreadOk(s', u) {
      assert ThreadOk(s, u);
    }
  }

  lemma SpinKeeps(s: State)
    requires Inv(s)
    ensures Inv(SpinStep(s))
  {
    var s' := SpinStep(s);
    if s.winner.Other? {
      assert ThreadOk(s, s.winner.t);
    }
    forall u | 0 <= u < |s'.threads| ensures ThreadOk(s', u) {
      assert ThreadOk(s, u);
    }
  }

  lemma SpinAlertedKeeps(s: State)
    requires Inv(s)
    ensures Inv(SpinAlertedStep(s))
  {
    var s' := SpinAlertedStep(s);
    if s.winner.Other? {
      assert ThreadOk(s, s.winner.t);
    }
    forall u | 0 <= u < |s'.threads| ensures ThreadOk(s', u) {
      assert ThreadOk(s, u);
    }
  }

  lemma AllocateKeeps(s: State, ok: bool, alertable: bool)
    requires Inv(s)
    ensures Inv(AllocateStep(s, ok, alertable))
  {
    var s' := AllocateStep(s, ok, alertable);
    if s.winner.Other? {
      assert ThreadOk(s, s.winner.t);
    }
    forall u | 0 <= u < |s'.threads| ensures ThreadOk(s', u) {
      assert ThreadOk(s, u);
    }
  }

  lemma OwnerKeeps(s: State, alerted: bool, bounded: bool)
    requires Inv(s)
    ensures Inv(OwnerStep(s, alerted, bounded))
  {
    var s' := OwnerStep(s, alerted, bounded);
    if s.winner.Other? {
      assert ThreadOk(s, s.winner.t);
    }
    forall u | 0 <= u < |s'.threads| ensures ThreadOk(s', u) {
      assert ThreadOk(s, u);
    }
  }

  lemma TimeoutKeeps(s: State)
    requires Inv(s)
    ensures Inv(TimeoutStep(s))
  {
    var s' := TimeoutStep(s);
    if s.winner.Other? {
      assert ThreadOk(s, s.winner.t);
    }
    forall u | 0 <= u < |s'.threads| ensures ThreadOk(s', u) {
      assert ThreadOk(s, u);
    }
  }

  lemma InterruptKeeps(s: State, cancel: bool, result: Status)
    requires Inv(s)
    ensures Inv(InterruptStep(s, cancel, result))
  {
    var s' := InterruptStep(s, cancel, result);
    if s.winner.Other? {
      assert ThreadOk(s, s.winner.t);
    }
    forall u | 0 <= u < |s'.threads| ensures ThreadOk(s', u) {
      assert ThreadOk(s, u);
    }
  }

  lemma DoKeeps(s: State, a: Action)
    requires Inv(s)
    ensures Inv(Do(s, a))
  {
    hide Inv;
    match a
    case TryLock(t) =>
      if t < |s.threads| {
        TryLockKeeps(s, t);
      }
    case TryCancel(t) =>
      if t < |s.threads| {
        TryCancelKeeps(s, t);
      }
    case Unpark(t) =>
      if t < |s.threads| {
        UnparkKeeps(s, t);
      }
    case SpinOwner => SpinKeeps(s);
    case SpinAlerted => SpinAlertedKeeps(s);
    case Allocate(ok, alertable) => AllocateKeeps(s, ok, alertable);
    case RunOwner(alerted, bounded) => OwnerKeeps(s, alerted, bounded);
    case Timeout => TimeoutKeeps(s);
    case Interrupt(cancel, result) => InterruptKeeps(s, cancel, result);
  }

  lemma {:induction false} ExecKeeps(s: State, run: seq<Action>)
    requires Inv(s)
    ensures Inv(Exec(s, run))
    decreases |run|
  {
    if run != [] {
      DoKeeps(s, run[0]);
      ExecKeeps(Do(s, run[0]), run[1..]);
    }
  }

  // ---- what holds after every run ----

  function Reached(count: nat, statuses: seq<Status>, run: seq<Action>): (s: State)
    ensures |s.threads| == |statuses|
  {
    Exec(Initial(count, statuses), run)
  }

  /** At most one of the lockers and cancellers wins, and one has won exactly when the count is zero. */
  lemma OneWinner(count: nat, statuses: seq<Status>, run: seq<Action>, t: Tid, u: Tid)
    requires Proper(count, statuses) && t < |statuses| && u < |statuses|
    ensures var s := Reached(count, statuses, run);
      && (Winning(s.threads[t].pc) && Winning(s.threads[u].pc) ==> t == u)
      && (Winning(s.threads[t].pc) ==> s.count == 0 && s.winner == Other(t))
      && (s.count == 0 <==> s.winner != Nobody)
  {
    var s := Reached(count, statuses, run);
    ExecKeeps(Initial(count, statuses), run);
    assert ThreadOk(s, t) && ThreadOk(s, u);
  }

  lemma SameStatus(s: State, a: Action, t: Tid)
    requires t < |s.threads|
    ensures Do(s, a).threads[t].status == s.threads[t].status
  {
  }

  lemma {:induction false} SameStatuses(s: State, run: seq<Action>, t: Tid)
    requires t < |s.threads|
    ensures Exec(s, run).threads[t].status == s.threads[t].status
    decreases |run|
  {
    hide Do;
    if run != [] {
      SameStatus(s, run[0], t);
      SameStatuses(Do(s, run[0]), run[1..], t);
    }
  }

  /** The owner returns the status of the winner: the other thread's, the callback's, or its own. */
  lemma ReturnsWinnersStatus(count: nat, statuses: seq<Status>, run: seq<Action>)
    requires Proper(count, statuses) && Reached(count, statuses, run).owner.Returned?
    ensures var s := Reached(count, statuses, run); var r := s.owner.status;
      match s.winner
      case Nobody => false
      case Other(t) => t < |statuses| && r == statuses[t]
      case Callback(c) => r == c
      case Self => r == WAIT_TIMEOUT || r == WAIT_ALERTED || r == WAIT_FAILED
  {
    var s := Reached(count, statuses, run);
    ExecKeeps(Initial(count, statuses), run);
    if s.winner.Other? {
      assert ThreadOk(s, s.winner.t);
      SameStatuses(Initial(count, statuses), run, s.winner.t);
    }
  }

  /** When the owner has returned, no signal is left on its park spot, and none will come. */
  lemma SpotIsLeftClean(count: nat, statuses: seq<Status>, run: seq<Action>, more: seq<Action>)
    requires Proper(count, statuses) && Reached(count, statuses, run).owner.Returned?
    ensures !Exec(Reached(count, statuses, run), more).event
  {
    ExecKeeps(Initial(count, statuses), run);
    ReturnedStays(Reached(count, statuses, run), more);
    ExecKeeps(Reached(count, statuses, run), more);
    var s := Exec(Reached(count, statuses, run), more);
    if s.winner.Other? {
      assert ThreadOk(s, s.winner.t);
    }
  }

  lemma ReturnedStaysOne(s: State, a: Action)
    requires s.owner.Returned?
    ensures Do(s, a).owner == s.owner
  {
  }

  lemma {:induction false} ReturnedStays(s: State, run: seq<Action>)
    requires s.owner.Returned?
    ensures Exec(s, run).owner == s.owner
    decreases |run|
  {
    hide Do;
    if run != [] {
      ReturnedStaysOne(s, run[0]);
      ReturnedStays(Do(s, run[0]), run[1..]);
    }
  }

  /** The owner cannot go on by itself. */
  predicate Stuck(s: State) {
    match s.owner
    case NoSpot => s.inProgress
    case WaitSpot(_) => !s.event && !s.flag
    case WaitOn => !s.event
    case _ => false
  }

  /**
   No wakeup is lost: an owner that cannot go on either has a parker that nobody has locked,
   or the winner is another thread that is still about to unpark it.
   */
  lemma NoLostWakeup(count: nat, statuses: seq<Status>, run: seq<Action>)
    requires Proper(count, statuses) && Stuck(Reached(count, statuses, run))
    ensures var s := Reached(count, statuses, run);
      || (s.count != 0 && s.winner == Nobody && !s.owner.WaitOn?)
      || (s.winner.Other? && s.winner.t < |statuses| && var pc := s.threads[s.winner.t].pc; pc.Won? || pc.Wrote? || pc.Exchange? || pc.SetSpot?)
  {
    var s := Reached(count, statuses, run);
    ExecKeeps(Initial(count, statuses), run);
    if s.winner.Other? {
      assert ThreadOk(s, s.winner.t);
    }
  }
}
