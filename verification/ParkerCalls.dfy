/**
 Why the owner of a parker returns what it returns, and that it does return.
 */
module ParkerCalls {
  import opened Parker

  // ---- the owner's own statuses ----

  /** What must have happened in a run for the owner to give itself each of its statuses. */
  predicate HasCause(s: State, timedOut: bool, alerted: bool, spotless: bool) {
    && (s.owner.TimedOut? ==> timedOut)
    && (s.winner.Self? ==>
          || (s.owner.Leave? && s.status == WAIT_TIMEOUT && timedOut)
          || (s.owner == Returned(WAIT_TIMEOUT) && timedOut)
          || (s.owner == Returned(WAIT_ALERTED) && alerted)
          || (s.owner == Returned(WAIT_FAILED) && spotless))
  }

  predicate TimesOut(a: Action) {
    a.Timeout?
  }

  predicate Alerts(a: Action) {
    a.SpinAlerted? || (a.RunOwner? && a.alerted)
  }

  predicate LacksSpot(a: Action) {
    a.Allocate? && !a.ok
  }

  lemma CauseStep(s: State, a: Action, timedOut: bool, alerted: bool, spotless: bool)
    requires Inv(s) && HasCause(s, timedOut, alerted, spotless)
    requires (TimesOut(a) ==> timedOut) && (Alerts(a) ==> alerted) && (LacksSpot(a) ==> spotless)
    ensures HasCause(Do(s, a), timedOut, alerted, spotless)
  {
    if a.Unpark? && a.t < |s.threads| {
      assert ThreadOk(s, a.t);
    }
  }

  lemma {:induction false} CauseStays(s: State, run: seq<Action>, timedOut: bool, alerted: bool, spotless: bool)
    requires Inv(s) && HasCause(s, timedOut, alerted, spotless)
    requires forall i :: 0 <= i < |run| ==> (TimesOut(run[i]) ==> timedOut) && (Alerts(run[i]) ==> alerted) && (LacksSpot(run[i]) ==> spotless)
    ensures HasCause(Exec(s, run), timedOut, alerted, spotless)
    decreases |run|
  {
    hide Do, Inv, HasCause;
    if run != [] {
      CauseStep(s, run[0], timedOut, alerted, spotless);
      DoKeeps(s, run[0]);
      CauseStays(Do(s, run[0]), run[1..], timedOut, alerted, spotless);
    }
  }

  /**
   If nobody else has locked the parker, the owner returns a timeout only if its wait timed
   out, an alert only if its alerter was set, and a failure only if it got no park spot.
   */
  lemma OwnStatusHasCause(count: nat, statuses: seq<Status>, run: seq<Action>)
    requires Proper(count, statuses)
    requires Reached(count, statuses, run).owner.Returned? && Reached(count, statuses, run).winner.Self?
    ensures var r := Reached(count, statuses, run).owner.status;
      || (r == WAIT_TIMEOUT && exists i :: 0 <= i < |run| && TimesOut(run[i]))
      || (r == WAIT_ALERTED && exists i :: 0 <= i < |run| && Alerts(run[i]))
      || (r == WAIT_FAILED && exists i :: 0 <= i < |run| && LacksSpot(run[i]))
  {
    CauseStays(Initial(count, statuses), run, exists i :: 0 <= i < |run| && TimesOut(run[i]),
               exists i :: 0 <= i < |run| && Alerts(run[i]), exists i :: 0 <= i < |run| && LacksSpot(run[i]));
  }

  // ---- the owner does return ----

  /** The steps that the owner has left. */
  function OwnerLeft(o: Owner): nat {
    match o
    case Spin => 7
    case NoSpot => 2
    case Clear => 6
    case Register => 5
    case WaitSpot(_) => 4
    case TimedOut => 3
    case WaitOn => 2
    case Leave => 1
    case Returned(_) => 0
  }

  /** The steps that the winner has left to unpark the owner. */
  function WinnerLeft(s: State): nat {
    if s.winner.Other? && s.winner.t < |s.threads| then
      match s.threads[s.winner.t].pc
      case Won => 4
      case Wrote => 3
      case Exchange => 2
      case SetSpot => 1
      case _ => 0
    else 0
  }

  /** Neither a timeout nor an alert, nor any other try to lock the parker. */
  predicate JustRuns(a: Action) {
    a.Unpark? || a.SpinOwner? || a == Allocate(true, true) || a == RunOwner(false, true)
  }

  /** What the owner does next, or the winner if the owner waits for it. */
  function NextAction(s: State): Action {
    if Stuck(s) && s.winner.Other? then Unpark(s.winner.t)
    else if s.owner.Spin? then (if s.inProgress then Allocate(true, true) else SpinOwner)
    else RunOwner(false, true)
  }

  lemma ComesNearer(s: State)
    requires Inv(s) && s.winner != Nobody && !s.owner.Returned?
    ensures var s' := Do(s, NextAction(s));
      Inv(s') && s'.winner == s.winner && OwnerLeft(s'.owner) + WinnerLeft(s') < OwnerLeft(s.owner) + WinnerLeft(s)
  {
    DoKeeps(s, NextAction(s));
    if s.winner.Other? {
      assert ThreadOk(s, s.winner.t);
    }
  }

  lemma {:induction false} Returns(s: State) returns (more: seq<Action>)
    requires Inv(s) && s.winner != Nobody
    ensures forall i :: 0 <= i < |more| ==> JustRuns(more[i])
    ensures Exec(s, more).owner.Returned? && Exec(s, more).winner == s.winner
    decreases OwnerLeft(s.owner) + WinnerLeft(s)
  {
    hide Inv, Do, OwnerLeft, WinnerLeft;
    more := [];
    if !s.owner.Returned? {
      ComesNearer(s);
      var rest := Returns(Do(s, NextAction(s)));
      more := [NextAction(s)] + rest;
      assert more[1..] == rest;
    }
  }

  /** Once somebody has locked the parker, the owner returns if it and the winner just run, whatever it was doing. */
  lemma LockedOwnerReturns(count: nat, statuses: seq<Status>, run: seq<Action>) returns (more: seq<Action>)
    requires Proper(count, statuses) && Reached(count, statuses, run).count == 0
    ensures forall i :: 0 <= i < |more| ==> JustRuns(more[i])
    ensures var s, e := Reached(count, statuses, run), Exec(Reached(count, statuses, run), more);
      e.owner.Returned? && e.winner == s.winner
  {
    ExecKeeps(Initial(count, statuses), run);
    more := Returns(Reached(count, statuses, run));
  }

  /** If nobody has, a bounded wait that times out returns so. */
  lemma TimeoutReturns(count: nat, statuses: seq<Status>, run: seq<Action>)
    requires Proper(count, statuses)
    requires Reached(count, statuses, run).owner == WaitSpot(true) && Reached(count, statuses, run).count != 0
    ensures var s := Do(Reached(count, statuses, run), Timeout);
      Do(Do(s, RunOwner(false, true)), RunOwner(false, true)).owner == Returned(WAIT_TIMEOUT)
  {
    ExecKeeps(Initial(count, statuses), run);
  }

  /** If nobody has locked the parker, an owner that sees its alerter set, or gets no park spot, returns so at once. */
  lemma OwnerGivesUp(count: nat, statuses: seq<Status>, run: seq<Action>, bounded: bool)
    requires Proper(count, statuses) && Reached(count, statuses, run).count != 0
    ensures var s := Reached(count, statuses, run);
      && (s.owner.Spin? ==> Do(s, SpinAlerted).owner == Returned(WAIT_ALERTED) && Do(s, Allocate(false, true)).owner == Returned(WAIT_FAILED))
      && (s.owner.Register? ==> Do(s, RunOwner(true, bounded)).owner == Returned(WAIT_ALERTED))
  {
  }

  /** If somebody has, it waits for as long as it takes. */
  lemma LockedOwnerWaits(count: nat, statuses: seq<Status>, run: seq<Action>, bounded: bool)
    requires Proper(count, statuses) && Reached(count, statuses, run).count == 0
    ensures var s := Reached(count, statuses, run);
      && (s.owner.Spin? ==> Do(s, SpinAlerted) == s && Do(s, Allocate(false, true)).owner == NoSpot)
      && (s.owner.Register? ==> Do(s, RunOwner(true, bounded)).owner == WaitSpot(false))
      && (s.owner.TimedOut? ==> Do(s, RunOwner(true, bounded)).owner == WaitOn)
  {
  }

  // ---- counting locks ----

  /** How many threads have tried to lock the parker. */
  function Tried(ths: seq<Thread>): nat {
    if ths == [] then 0 else Tried(ths[..|ths| - 1]) + if ths[|ths| - 1].pc.Idle? then 0 else 1
  }

  lemma {:induction false} TriedUpdate(ths: seq<Thread>, t: Tid, th: Thread)
    requires t < |ths|
    ensures Tried(ths[t := th]) == Tried(ths) - (if ths[t].pc.Idle? then 0 else 1) + (if th.pc.Idle? then 0 else 1)
  {
    var k := |ths| - 1;
    if t == k {
      assert ths[t := th][..k] == ths[..k];
    } else {
      assert ths[t := th][..k] == ths[..k][t := th];
      TriedUpdate(ths[..k], t, th);
    }
  }

  /** Others only lock the parker, and nobody cancels it. */
  predicate OnlyLocks(a: Action) {
    a.TryLock? || JustRuns(a)
  }

  predicate Counted(s: State, count: nat) {
    && s.count == (if Tried(s.threads) < count then count - Tried(s.threads) else 0)
    && (s.winner.Nobody? || s.winner.Other?) && !s.owner.TimedOut?
  }

  lemma CountedStep(s: State, a: Action, count: nat)
    requires Inv(s) && Counted(s, count) && OnlyLocks(a)
    ensures Counted(Do(s, a), count)
  {
    hide Tried;
    if (a.TryLock? || a.Unpark?) && a.t < |s.threads| {
      var s' := Do(s, a);
      assert ThreadOk(s, a.t);
      TriedUpdate(s.threads, a.t, s'.threads[a.t]);
      assert s'.threads == s.threads[a.t := s'.threads[a.t]];
    }
  }

  lemma {:induction false} CountedStays(s: State, run: seq<Action>, count: nat)
    requires Inv(s) && Counted(s, count) && forall i :: 0 <= i < |run| ==> OnlyLocks(run[i])
    ensures Counted(Exec(s, run), count)
    decreases |run|
  {
    hide Inv, Do, Counted;
    if run != [] {
      CountedStep(s, run[0], count);
      DoKeeps(s, run[0]);
      CountedStays(Do(s, run[0]), run[1..], count);
    }
  }

  lemma {:induction false} NobodyTried(ths: seq<Thread>)
    requires forall i :: 0 <= i < |ths| ==> ths[i].pc.Idle?
    ensures Tried(ths) == 0
  {
    if ths != [] {
      NobodyTried(ths[..|ths| - 1]);
    }
  }

  /** A parker with a count is won by a locker exactly when so many have tried. */
  lemma LastLockerWins(count: nat, statuses: seq<Status>, run: seq<Action>)
    requires 0 < count <= MAX_LOCKS && forall i :: 0 <= i < |run| ==> OnlyLocks(run[i])
    ensures var s := Reached(count, statuses, run);
      s.winner.Other? <==> Tried(s.threads) >= count
  {
    NobodyTried(Initial(count, statuses).threads);
    ExecKeeps(Initial(count, statuses), run);
    CountedStays(Initial(count, statuses), run, count);
  }

  /** Whoever cancels a parker that nobody has locked wins it, whatever its count. */
  lemma CancellerWins(count: nat, statuses: seq<Status>, run: seq<Action>, t: Tid)
    requires Proper(count, statuses) && t < |statuses|
    requires Reached(count, statuses, run).threads[t].pc.Idle? && Reached(count, statuses, run).winner == Nobody
    ensures Do(Reached(count, statuses, run), TryCancel(t)).winner == Other(t)
    ensures Do(Reached(count, statuses, run), TryCancel(t)).threads[t].pc.Won?
  {
    ExecKeeps(Initial(count, statuses), run);
  }

  /** A callback on the owner's thread locks like everybody else, or cancels. */
  lemma CallbackLocks(count: nat, statuses: seq<Status>, run: seq<Action>, cancel: bool, result: Status)
    requires Proper(count, statuses)
    requires Reached(count, statuses, run).owner.WaitSpot? && Reached(count, statuses, run).winner == Nobody
    ensures var s, s' := Reached(count, statuses, run), Do(Reached(count, statuses, run), Interrupt(cancel, result));
      if cancel || s.count == 1 then s'.winner == Callback(result)
      else s'.winner == Nobody && s'.count == s.count - 1 && s'.owner == s.owner
  {
    ExecKeeps(Initial(count, statuses), run);
  }
}
