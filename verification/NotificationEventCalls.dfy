/**
 What calls on the notification event return, and that every operation can end.
 */
module NotificationEventCalls {
  import opened NotificationEvent
  import opened NotificationEventSafety

  // ---- what calls return ----

  /** A wait that entered goes on only as the event tells it to. */
  predicate EntersRight(s: State, s': State, u: Tid)
    requires u < |s.threads| == |s'.threads|
  {
    var th, th' := s.threads[u], s'.threads[u];
    th.pc.Entering? && th'.pc != th.pc ==>
      if s.signalled then th'.pc.Idle? && th'.told.Success?
      else if th.pc.poll then th'.pc.Idle? && th'.told.Failure?
      else th'.pc.Blocked? && th'.parker.Open? && u in s'.list && th'.epoch == s'.epoch
  }

  /** A blocked wait succeeds only after a set, and one that was cancelled fails when its block is off. */
  predicate LeavesRight(s: State, s': State, u: Tid)
    requires u < |s.threads| == |s'.threads|
  {
    var th, th' := s.threads[u], s'.threads[u];
    && (th.pc.Blocked? && th'.pc.Idle? ==> th'.told.Success? && th.epoch < s.epoch && th.parker.Released?)
    && (th.pc.Blocked? && !th'.pc.Blocked? && !th'.pc.Idle? ==> th.parker.Cancelled? && Unlinking(th'.pc))
    && (Unlinking(th.pc) ==> th.parker.Cancelled? && if th'.pc.Idle? then th'.told.Failure? && th'.at.Out? else Unlinking(th'.pc))
  }

  /** A set leaves the event set, and a reset leaves it reset; both return what it was before. */
  predicate SetsRight(s: State, s': State, u: Tid)
    requires u < |s.threads| == |s'.threads|
  {
    var th, th' := s.threads[u], s'.threads[u];
    && (th.pc.Setting? && th'.pc != th.pc ==>
          && s'.signalled && s'.epoch == s.epoch + (if s.signalled then 0 else 1)
          && (th'.pc.Idle? ==> th'.told == Before(s.signalled))
          && (!th'.pc.Idle? ==> !s.signalled && th'.pc.Unpark? && th'.pc.next.Finish?))
    && (th.pc.Unpark? && th.pc.next.Finish? ==>
          if th'.pc.Idle? then th'.told == Before(false) else th'.pc.Unpark? && th'.pc.next.Finish?)
    && (th.pc.Resetting? && th'.pc != th.pc ==> !s'.signalled && th'.pc.Idle? && th'.told == Before(s.signalled))
  }

  lemma StepReturns(s: State, t: Tid, a: Action, spins: bool, u: Tid)
    requires Inv(s) && t < |s.threads| && u < |s.threads|
    ensures var s' := Do(s, t, a, spins);
      && EntersRight(s, s', u) && LeavesRight(s, s', u) && SetsRight(s, s', u)
      && (s'.threads[u].told != s.threads[u].told ==> u == t && (s'.threads[u].pc.Idle? || s'.threads[u].told.Nothing?))
      && (s'.signalled != s.signalled ==> if s'.signalled then s.threads[t].pc.Setting? else s.threads[t].pc.Resetting?)
      && (s'.epoch != s.epoch ==> s.threads[t].pc.Setting?)
      && (s.threads[t].pc.Idle? && (a.StartWait? || a.StartSet? || a.StartReset?) ==>
            s'.threads[t].told.Nothing? && s'.threads[t].pc == (if a.StartWait? then Entering(a.poll) else if a.StartSet? then Setting else Resetting))
  {
    About(s, u);
    if u == t {
      OwnStepReturns(s, t, a, spins);
    } else {
      OtherStepReturns(s, t, a, spins, u);
    }
    EventChanges(s, t, a, spins);
  }

  lemma EventChanges(s: State, t: Tid, a: Action, spins: bool)
    requires Inv(s) && t < |s.threads|
    ensures var s' := Do(s, t, a, spins);
      && (s'.signalled != s.signalled ==> if s'.signalled then s.threads[t].pc.Setting? else s.threads[t].pc.Resetting?)
      && (s'.epoch != s.epoch ==> s.threads[t].pc.Setting?)
  {
    hide ListOk, AllHands, AllLinks, AllTails, AllEpochs, AllSpins, UnparkOrder, Move;
    assert OwnerOk(s, t);
  }

  predicate StepIsRight(s: State, s': State, t: Tid)
    requires t < |s.threads| == |s'.threads|
  {
    && EntersRight(s, s', t) && LeavesRight(s, s', t) && SetsRight(s, s', t)
    && (s'.threads[t].told != s.threads[t].told ==> s'.threads[t].pc.Idle? || s'.threads[t].told.Nothing?)
  }

  lemma WaitStepReturns(s: State, t: Tid, spins: bool)
    requires Inv(s) && t < |s.threads|
    requires s.threads[t].pc.Entering? || s.threads[t].pc.Blocked? || s.threads[t].pc.Spin?
             || s.threads[t].pc.UnlinkTest? || s.threads[t].pc.UnlinkCas? || s.threads[t].pc.UnlinkSlow?
    ensures StepIsRight(s, Step(s, t, spins), t)
  {
    hide ListOk, AllHands, AllOwners, AllTails, AllSpins, AllEpochs, AllLinks, UnparkOrder, SetIsEmpty, HandsOk, TailOk, SpinOk;
    About(s, t);
  }

  lemma HolderStepReturns(s: State, t: Tid, spins: bool)
    requires Inv(s) && t < |s.threads| && (s.threads[t].pc.Sweep? || s.threads[t].pc.Deliver? || s.threads[t].pc.Unpark?)
    ensures StepIsRight(s, Step(s, t, spins), t)
  {
    hide ListOk, AllHands, AllOwners, AllTails, AllSpins, AllEpochs, AllLinks, UnparkOrder, SetIsEmpty, HandsOk, TailOk, SpinOk;
    About(s, t);
    if s.threads[t].pc.Unpark? && s.threads[t].pc.list != [] {
      UnparkStepReturns(s, t, s.threads[t].pc.list, s.threads[t].pc.next);
    }
  }

  lemma UnparkStepReturns(s: State, t: Tid, list: seq<Tid>, next: Then)
    requires Inv(s) && t < |s.threads| && s.threads[t].pc == Unpark(list, next) && list != []
    ensures StepIsRight(s, UnparkOne(s, t, list, next), t)
  {
    hide ListOk, AllHands, AllOwners, AllTails, AllSpins, AllEpochs, AllLinks, UnparkOrder, SetIsEmpty, HandsOk, TailOk, SpinOk;
    About(s, t);
  }

  lemma SetStepReturns(s: State, t: Tid, spins: bool)
    requires Inv(s) && t < |s.threads| && (s.threads[t].pc.Setting? || s.threads[t].pc.Resetting?)
    ensures StepIsRight(s, Step(s, t, spins), t)
  {
    hide ListOk, AllHands, AllOwners, AllTails, AllSpins, AllEpochs, AllLinks, UnparkOrder, SetIsEmpty, HandsOk, TailOk, SpinOk;
    About(s, t);
  }

  lemma OwnStepReturns(s: State, t: Tid, a: Action, spins: bool)
    requires Inv(s) && t < |s.threads|
    ensures StepIsRight(s, Do(s, t, a, spins), t)
  {
    hide Inv, Step, LinkOk;
    About(s, t);
    var pc := s.threads[t].pc;
    if pc.Idle? || !a.Run? {
      IdleStepReturns(s, t, a, spins);
    } else if pc.Sweep? || pc.Deliver? || pc.Unpark? {
      HolderStepReturns(s, t, spins);
    } else if pc.Setting? || pc.Resetting? {
      SetStepReturns(s, t, spins);
    } else {
      WaitStepReturns(s, t, spins);
    }
  }

  lemma IdleStepReturns(s: State, t: Tid, a: Action, spins: bool)
    requires t < |s.threads| && (s.threads[t].pc.Idle? || !a.Run?) && LinkOk(s.threads[t])
    ensures StepIsRight(s, Do(s, t, a, spins), t)
  {
  }

  /** Only the place, the parker and the link of another thread's block may change. */
  predicate SameCall(th: Thread, th': Thread) {
    && th'.pc == th.pc && th'.told == th.told && th'.epoch == th.epoch
    && (th.parker.Cancelled? <==> th'.parker.Cancelled?)
  }

  lemma MovedStays(ths: seq<Thread>, xs: seq<Tid>, p: Place, u: Tid)
    requires u < |ths|
    ensures SameCall(ths[u], Move(ths, xs, p)[u])
  {
  }

  lemma OthersStay(s: State, t: Tid, a: Action, spins: bool, u: Tid)
    requires t < |s.threads| && u < |s.threads| && u != t
    ensures SameCall(s.threads[u], Do(s, t, a, spins).threads[u])
  {
    hide UnparkOrder, Move;
    forall xs, p ensures SameCall(s.threads[u], Move(s.threads, xs, p)[u]) {
      MovedStays(s.threads, xs, p, u);
    }
    if a.Run? {
      match s.threads[t].pc
      case Sweep(rest, live) => OthersStayHeld(s, t, spins, u);
      case Deliver(live, seen) => OthersStayHeld(s, t, spins, u);
      case Unpark(list, next) => OthersStayHeld(s, t, spins, u);
      case _ =>
    }
  }

  lemma OthersStayHeld(s: State, t: Tid, spins: bool, u: Tid)
    requires t < |s.threads| && u < |s.threads| && u != t
    requires s.threads[t].pc.Sweep? || s.threads[t].pc.Deliver? || s.threads[t].pc.Unpark?
    ensures SameCall(s.threads[u], Step(s, t, spins).threads[u])
  {
    hide UnparkOrder, Move;
    forall xs, p ensures SameCall(s.threads[u], Move(s.threads, xs, p)[u]) {
      MovedStays(s.threads, xs, p, u);
    }
  }

  lemma OtherStepReturns(s: State, t: Tid, a: Action, spins: bool, u: Tid)
    requires Inv(s) && t < |s.threads| && u < |s.threads| && u != t
    ensures var th, th' := s.threads[u], Do(s, t, a, spins).threads[u]; th'.pc == th.pc && th'.told == th.told
    ensures StepIsRight(s, Do(s, t, a, spins), u)
  {
    hide Do, ListOk, AllHands, AllOwners, AllTails, AllSpins, AllEpochs;
    OthersStay(s, t, a, spins, u);
    assert LinkOk(s.threads[u]);
  }

  // ---- whole runs ----

  /** The event is not set, was never set, and nobody is about to set it or was told that it is. */
  predicate NeverSet(s: State) {
    !s.signalled && s.epoch == 0 && forall u :: 0 <= u < |s.threads| ==> !s.threads[u].pc.Setting? && !s.threads[u].told.Success?
  }

  lemma NeverSetStep(s: State, t: Tid, a: Action, spins: bool)
    requires Inv(s) && NeverSet(s) && !a.StartSet?
    ensures NeverSet(Do(s, t, a, spins))
  {
    hide Inv, Step, EntersRight, LeavesRight, SetsRight;
    if t < |s.threads| {
      var s' := Do(s, t, a, spins);
      StepReturns(s, t, a, spins, t);
      forall u | 0 <= u < |s.threads| ensures !s'.threads[u].pc.Setting? && !s'.threads[u].told.Success? {
        StepReturns(s, t, a, spins, u);
        if u != t {
          OthersStay(s, t, a, spins, u);
        } else {
          NeverSetOwn(s, t, a, spins);
        }
      }
    }
  }

  lemma NeverSetOwn(s: State, t: Tid, a: Action, spins: bool)
    requires Inv(s) && NeverSet(s) && !a.StartSet? && t < |s.threads|
    requires StepIsRight(s, Do(s, t, a, spins), t)
    ensures !Do(s, t, a, spins).threads[t].pc.Setting? && !Do(s, t, a, spins).threads[t].told.Success?
  {
    hide ListOk, AllHands, AllOwners, AllTails, AllSpins, AllEpochs, AllLinks, UnparkOrder, Move;
    About(s, t);
  }

  lemma {:induction false} NeverSetStays(s: State, run: seq<(Tid, Action)>, spins: bool)
    requires Inv(s) && NeverSet(s) && forall i :: 0 <= i < |run| ==> !run[i].1.StartSet?
    ensures NeverSet(Exec(s, run, spins))
    decreases |run|
  {
    hide Inv, NeverSet, Do;
    if run != [] {
      NeverSetStep(s, run[0].0, run[0].1, spins);
      DoKeeps(s, run[0].0, run[0].1, spins);
      NeverSetStays(Do(s, run[0].0, run[0].1, spins), run[1..], spins);
    }
  }

  /** No wait succeeds on an event that nobody sets. */
  lemma NoSuccessWithoutSet(n: nat, run: seq<(Tid, Action)>, spins: bool)
    requires forall i :: 0 <= i < |run| ==> !run[i].1.StartSet?
    ensures var s := Reached(n, false, run, spins);
      !s.signalled && forall u :: 0 <= u < |s.threads| ==> !s.threads[u].told.Success?
  {
    InitialInv(n, false);
    NeverSetStays(Initial(n, false), run, spins);
  }

  // ---- every operation can end ----

  /** A bound on the steps that a thread has left, for n threads. */
  function Weight(n: nat, th: Thread): nat {
    match th.pc
    case Idle => 0
    case Entering(_) => 1
    case Blocked => if th.parker.Open? then 0 else if th.parker.Released? then 1 else 3 * n + 8
    case UnlinkTest => 3 * n + 7
    case UnlinkCas => 3 * n + 6
    case UnlinkSlow => 3 * n + 5
    case Sweep(rest, _) => |rest| + 2 * n + 4
    case Deliver(_, _) => 2 * n + 3
    case Unpark(list, _) => 2 * |list| + 2
    case Spin => 1
    case Setting => 2 * n + 3
    case Resetting => 1
  }

  function Total(n: nat, ths: seq<Thread>): nat {
    if ths == [] then 0 else Total(n, ths[..|ths| - 1]) + Weight(n, ths[|ths| - 1])
  }

  lemma {:induction false} TotalUpdate(n: nat, ths: seq<Thread>, t: Tid, th: Thread)
    requires t < |ths|
    ensures Total(n, ths[t := th]) == Total(n, ths) - Weight(n, ths[t]) + Weight(n, th)
  {
    var k := |ths| - 1;
    if t == k {
      assert ths[t := th][..k] == ths[..k];
    } else {
      assert ths[t := th][..k] == ths[..k][t := th];
      TotalUpdate(n, ths[..k], t, th);
    }
  }

  lemma {:induction false} TotalSame(n: nat, ths: seq<Thread>, ths': seq<Thread>)
    requires |ths| == |ths'| && forall i :: 0 <= i < |ths| ==> Weight(n, ths[i]) == Weight(n, ths'[i])
    ensures Total(n, ths) == Total(n, ths')
  {
    if ths != [] {
      TotalSame(n, ths[..|ths| - 1], ths'[..|ths| - 1]);
    }
  }

  function Members(xs: seq<Tid>): set<Tid> {
    set x | x in xs
  }

  function Below(n: nat): (r: set<Tid>)
    ensures |r| == n && forall x: Tid :: x in r <==> x < n
  {
    if n == 0 then {} else Below(n - 1) + {n - 1}
  }

  /** There are no more distinct threads than threads. */
  lemma {:induction false} DistinctAreFew(xs: seq<Tid>, n: nat)
    requires Distinct(xs) && forall i :: 0 <= i < |xs| ==> xs[i] < n
    ensures |xs| <= n
  {
    AsManyMembers(xs);
    FewMembers(Members(xs), Below(n));
  }

  lemma {:induction false} AsManyMembers(xs: seq<Tid>)
    requires Distinct(xs)
    ensures |Members(xs)| == |xs|
  {
    if xs != [] {
      AsManyMembers(xs[1..]);
      assert Members(xs) == Members(xs[1..]) + {xs[0]};
    }
  }

  lemma {:induction false} FewMembers(a: set<Tid>, b: set<Tid>)
    requires a <= b
    ensures |a| <= |b|
    decreases |a|
  {
    if a != {} {
      var x :| x in a;
      FewMembers(a - {x}, b - {x});
    }
  }

  lemma ListIsShort(s: State)
    requires ListOk(s)
    ensures |s.list| <= |s.threads|
  {
    PlacedInList(s);
    DistinctAreFew(s.list, |s.threads|);
  }

  lemma HandsAndListAreShort(s: State, t: Tid)
    requires ListOk(s) && AllHands(s) && t < |s.threads|
    ensures |Owned(s.threads[t].pc) + s.list| <= |s.threads|
  {
    PlacedInList(s);
    PlacedInHands(s, t);
    Joined(Owned(s.threads[t].pc), s.list);
    DistinctAreFew(Owned(s.threads[t].pc) + s.list, |s.threads|);
  }

  /** The thread has a step to make that is not a wait for others. */
  predicate CanGo(s: State, t: Tid)
    requires t < |s.threads|
  {
    var th := s.threads[t];
    match th.pc
    case Idle => false
    case Blocked => !th.parker.Open?
    case UnlinkSlow => th.unlinked || (s.lock.Free? && !s.signalled && s.list != [])
    case Spin => th.unlinked
    case Resetting => !s.signalled || (s.lock.Free? && s.list == [])
    case _ => true
  }

  /** The thread goes back to the swap of the only block, which it then makes. */
  predicate SwapsNext(s: State, t: Tid)
    requires t < |s.threads|
  {
    s.threads[t].pc.UnlinkSlow? && !s.threads[t].unlinked && s.lock.Free? && !s.signalled && s.list == [t]
  }

  function TotalOf(s: State): nat {
    Total(|s.threads|, s.threads)
  }

  /** One thread has changed itself, and blocks may have been moved. */
  lemma OneLighter(s: State, s': State, t: Tid)
    requires t < |s.threads| == |s'.threads|
    requires forall u :: 0 <= u < |s.threads| && u != t ==> s'.threads[u].pc == s.threads[u].pc && s'.threads[u].parker == s.threads[u].parker
    requires Weight(|s.threads|, s'.threads[t]) < Weight(|s.threads|, s.threads[t])
    ensures TotalOf(s') < TotalOf(s)
  {
    var n := |s.threads|;
    TotalUpdate(n, s.threads, t, s'.threads[t]);
    TotalSame(n, s.threads[t := s'.threads[t]], s'.threads);
  }

  lemma MovedParkers(ths: seq<Thread>, xs: seq<Tid>, p: Place)
    ensures forall i :: 0 <= i < |ths| ==> Move(ths, xs, p)[i].pc == ths[i].pc && Move(ths, xs, p)[i].parker == ths[i].parker
  {
  }

  lemma WaitStepDown(s: State, t: Tid, spins: bool)
    requires Inv(s) && t < |s.threads| && CanGo(s, t) && !SwapsNext(s, t)
    requires !s.threads[t].pc.Sweep? && !s.threads[t].pc.Deliver? && !s.threads[t].pc.Unpark? && !s.threads[t].pc.Setting?
    ensures TotalOf(Step(s, t, spins)) < TotalOf(s)
  {
    hide AllHands, AllLinks, AllOwners, AllTails, AllEpochs, AllSpins, Move, TotalOf, UnparkOrder;
    ListIsShort(s);
    MovedParkers(s.threads, s.list, With(t));
    OneLighter(s, Step(s, t, spins), t);
  }

  lemma ListStepDown(s: State, t: Tid, spins: bool)
    requires Inv(s) && t < |s.threads|
    requires s.threads[t].pc.Deliver? || s.threads[t].pc.Setting? || (s.threads[t].pc.Sweep? && s.threads[t].pc.rest == [])
    ensures TotalOf(Step(s, t, spins)) < TotalOf(s)
  {
    hide AllLinks, AllOwners, AllTails, AllEpochs, AllSpins, Move, TotalOf;
    assert OwnerOk(s, t) by {
      About(s, t);
    }
    HandsAndListAreShort(s, t);
    MovedParkers(s.threads, s.list, With(t));
    if s.threads[t].pc.Sweep? {
      MovedParkers(s.threads, s.threads[t].pc.live, InList);
    }
    OneLighter(s, Step(s, t, spins), t);
  }

  /** A visit to a block, which may release the block's thread. */
  lemma VisitDown(s: State, t: Tid, x: Tid, th: Thread, pc: Pc)
    requires t < |s.threads| && x < |s.threads|
    requires th.pc == s.threads[x].pc && (th.parker == s.threads[x].parker || (s.threads[x].parker.Open? && th.parker.Released?))
    requires !pc.Blocked? && !s.threads[t].pc.Blocked?
    requires Weight(|s.threads|, s.threads[t].(pc := pc)) + (if th.parker == s.threads[x].parker then 0 else 1) < Weight(|s.threads|, s.threads[t])
    ensures var ths := s.threads[x := th]; Total(|s.threads|, ths[t := ths[t].(pc := pc)]) < TotalOf(s)
  {
    var n, ths := |s.threads|, s.threads[x := th];
    TotalUpdate(n, s.threads, x, th);
    TotalUpdate(n, ths, t, ths[t].(pc := pc));
  }

  lemma SweepDown(s: State, t: Tid, spins: bool)
    requires Inv(s) && t < |s.threads| && s.threads[t].pc.Sweep? && s.threads[t].pc.rest != []
    ensures TotalOf(Step(s, t, spins)) < TotalOf(s)
  {
    hide AllLinks, AllOwners, AllTails, AllEpochs, AllSpins, Total;
    var rest, live := s.threads[t].pc.rest, s.threads[t].pc.live;
    var x := rest[0];
    SweepsOwn(s, t, rest, live);
    if s.threads[x].parker != Open {
      VisitDown(s, t, x, s.threads[x].(unlinked := true, at := Out), Sweep(rest[1..], live));
    } else {
      OneLighter(s, Step(s, t, spins), t);
    }
  }

  lemma UnparkDown(s: State, t: Tid, spins: bool)
    requires Inv(s) && t < |s.threads| && s.threads[t].pc.Unpark?
    ensures TotalOf(Step(s, t, spins)) < TotalOf(s)
  {
    hide AllLinks, AllOwners, AllTails, AllEpochs, AllSpins, Total;
    var list, next := s.threads[t].pc.list, s.threads[t].pc.next;
    if list == [] {
      OneLighter(s, Step(s, t, spins), t);
    } else {
      PlacedInHands(s, t);
      var x := list[0];
      var th := s.threads[x];
      VisitDown(s, t, x, if th.parker == Open then th.(parker := Released, at := Out) else th.(unlinked := true, at := Out), Unpark(list[1..], next));
    }
  }

  /** A thread that can go on brings all operations nearer to their ends, in one step or two. */
  lemma GoesDown(s: State, t: Tid, spins: bool) returns (run: seq<(Tid, Action)>)
    requires Inv(s) && t < |s.threads| && CanGo(s, t)
    ensures run == [(t, Run)] || run == [(t, Run), (t, Run)]
    ensures Inv(Exec(s, run, spins)) && TotalOf(Exec(s, run, spins)) < TotalOf(s) && |Exec(s, run, spins).threads| == |s.threads|
  {
    hide Inv, TotalOf, Step;
    var pc := s.threads[t].pc;
    DoKeeps(s, t, Run, spins);
    run := [(t, Run)];
    ExecOne(s, (t, Run), [], spins);
    if SwapsNext(s, t) {
      SwapDown(s, t, spins);
      var s' := Do(s, t, Run, spins);
      DoKeeps(s', t, Run, spins);
      run := [(t, Run), (t, Run)];
      ExecOne(s, (t, Run), [(t, Run)], spins);
      ExecOne(s', (t, Run), [], spins);
    } else if pc.Sweep? && pc.rest != [] {
      SweepDown(s, t, spins);
    } else if pc.Unpark? {
      UnparkDown(s, t, spins);
    } else if pc.Sweep? || pc.Deliver? || pc.Setting? {
      ListStepDown(s, t, spins);
    } else {
      WaitStepDown(s, t, spins);
    }
  }

  lemma ExecOne(s: State, a: (Tid, Action), rest: seq<(Tid, Action)>, spins: bool)
    ensures Exec(s, [a] + rest, spins) == Exec(Do(s, a.0, a.1, spins), rest, spins)
    ensures Exec(s, [a], spins) == Do(s, a.0, a.1, spins)
  {
    assert ([a] + rest)[1..] == rest;
  }

  lemma SwapDown(s: State, t: Tid, spins: bool)
    requires t < |s.threads| && SwapsNext(s, t)
    ensures var s' := Do(s, t, Run, spins);
      |s'.threads| == |s.threads| && TotalOf(Do(s', t, Run, spins)) < TotalOf(s)
  {
    hide Total;
    var s' := Do(s, t, Run, spins);
    assert s'.threads[t].pc.UnlinkCas?;
    OneLighter(s, Do(s', t, Run, spins), t);
  }

  /** If an operation has not ended, some thread can go on. */
  lemma SomeoneCanGo(s: State) returns (t: Tid)
    requires Inv(s) && !AtRest(s)
    ensures t < |s.threads| && CanGo(s, t)
  {
    t :| 0 <= t < |s.threads| && !(s.threads[t].pc.Idle? || (s.threads[t].pc.Blocked? && s.threads[t].parker.Open?));
    About(s, t);
    if !CanGo(s, t) {
      if s.lock.HeldBy? {
        t := s.lock.owner;
        About(s, t);
      } else {
        PlacedInList(s);
        assert s.threads[t].at.With?;
        HolderUnparks(s, t);
        t := s.threads[t].at.owner;
      }
    }
  }

  lemma {:induction false} ExecConcat(s: State, run: seq<(Tid, Action)>, more: seq<(Tid, Action)>, spins: bool)
    ensures Exec(s, run + more, spins) == Exec(Exec(s, run, spins), more, spins)
    decreases |run|
  {
    if run == [] {
      assert run + more == more;
    } else {
      assert (run + more)[1..] == run[1..] + more;
      ExecConcat(Do(s, run[0].0, run[0].1, spins), run[1..], more, spins);
    }
  }

  /** Nothing happens but that threads go on with what they do. */
  predicate OnlyRuns(run: seq<(Tid, Action)>) {
    forall i :: 0 <= i < |run| ==> run[i].1.Run?
  }

  /** Whatever state the event is in, letting threads run can bring every operation to its end, but for waits that nobody has released. */
  lemma {:induction false} OperationsEnd(s: State, spins: bool) returns (run: seq<(Tid, Action)>)
    requires Inv(s)
    ensures OnlyRuns(run) && AtRest(Exec(s, run, spins))
    decreases TotalOf(s)
  {
    hide Inv, TotalOf, Do, AtRest;
    run := [];
    if !AtRest(s) {
      var t := SomeoneCanGo(s);
      var steps := GoesDown(s, t, spins);
      var rest := OperationsEnd(Exec(s, steps, spins), spins);
      ExecConcat(s, steps, rest, spins);
      run := steps + rest;
    }
  }

  // ---- what ends a blocked wait ----

  /** The waiter has been told of success, or cannot miss the set that thread t is about to make, or one made since it came. */
  predicate SetReaches(s: State, t: Tid, u: Tid) {
    && t < |s.threads| && u < |s.threads|
    && ((s.threads[u].pc.Idle? && s.threads[u].told.Success?)
        || (s.threads[u].pc.Blocked? && !s.threads[u].parker.Cancelled? && (s.threads[t].pc.Setting? || s.threads[u].epoch < s.epoch)))
  }

  lemma SetReachesStep(s: State, w: Tid, spins: bool, t: Tid, u: Tid)
    requires Inv(s) && SetReaches(s, t, u)
    ensures SetReaches(Do(s, w, Run, spins), t, u)
  {
    hide ListOk, AllHands, AllOwners, AllTails, AllSpins, UnparkOrder, Move, EntersRight;
    if w < |s.threads| {
      StepReturns(s, w, Run, spins, u);
      StepReturns(s, w, Run, spins, t);
      About(s, u);
      EpochGrows(s, w, spins);
      if w != u {
        OthersStay(s, w, Run, spins, u);
      }
      if w != t {
        OthersStay(s, w, Run, spins, t);
      }
    }
  }

  lemma EpochGrows(s: State, w: Tid, spins: bool)
    requires w < |s.threads|
    ensures s.epoch <= Do(s, w, Run, spins).epoch
  {
  }

  lemma {:induction false} SetReachesOn(s: State, run: seq<(Tid, Action)>, spins: bool, t: Tid, u: Tid)
    requires Inv(s) && SetReaches(s, t, u) && OnlyRuns(run)
    ensures SetReaches(Exec(s, run, spins), t, u)
    decreases |run|
  {
    hide Inv, SetReaches, Do;
    if run != [] {
      assert run[0].1 == Run;
      SetReachesStep(s, run[0].0, spins, t, u);
      DoKeeps(s, run[0].0, Run, spins);
      SetReachesOn(Do(s, run[0].0, Run, spins), run[1..], spins, t, u);
    }
  }

  /** A set by an idle thread lets a blocked wait return with success, if only the threads run. */
  lemma SetEndsWait(n: nat, isSet: bool, run: seq<(Tid, Action)>, spins: bool, t: Tid, u: Tid) returns (more: seq<(Tid, Action)>)
    requires var s := Reached(n, isSet, run, spins);
      t < |s.threads| && u < |s.threads| && s.threads[t].pc.Idle? && s.threads[u].pc.Blocked? && s.threads[u].parker.Open?
    ensures OnlyRuns(more)
    ensures var s := Exec(Do(Reached(n, isSet, run, spins), t, StartSet, spins), more, spins);
      AtRest(s) && u < |s.threads| && s.threads[u].pc.Idle? && s.threads[u].told.Success?
  {
    hide Inv, Exec;
    var s := Reached(n, isSet, run, spins);
    InitialInv(n, isSet);
    ExecKeeps(Initial(n, isSet), run, spins);
    DoKeeps(s, t, StartSet, spins);
    var s0 := Do(s, t, StartSet, spins);
    more := OperationsEnd(s0, spins);
    SetReachesOn(s0, more, spins, t, u);
    var e := Exec(s0, more, spins);
    ExecKeeps(s0, more, spins);
    if e.threads[u].pc.Blocked? {
      RestingEpoch(e, u);
    }
  }

  lemma RestingEpoch(s: State, u: Tid)
    requires Inv(s) && AtRest(s) && u < |s.threads| && s.threads[u].pc.Blocked?
    ensures s.threads[u].epoch == s.epoch
  {
    RestingHandsAreEmpty(s, u);
    About(s, u);
    PlacedInList(s);
  }

  /** The wait was cancelled, and has failed or will. */
  predicate Failing(s: State, u: Tid) {
    && u < |s.threads|
    && ((s.threads[u].pc.Idle? && s.threads[u].told.Failure?)
        || ((s.threads[u].pc.Blocked? || Unlinking(s.threads[u].pc)) && s.threads[u].parker.Cancelled?))
  }

  lemma FailingStep(s: State, w: Tid, spins: bool, u: Tid)
    requires Inv(s) && Failing(s, u)
    ensures Failing(Do(s, w, Run, spins), u)
  {
    hide ListOk, AllHands, AllOwners, AllTails, AllSpins, AllEpochs, UnparkOrder, Move, EntersRight, SetsRight;
    if w < |s.threads| {
      StepReturns(s, w, Run, spins, u);
      DoKeeps(s, w, Run, spins);
      About(Do(s, w, Run, spins), u);
      if w != u {
        OthersStay(s, w, Run, spins, u);
      }
    }
  }

  lemma {:induction false} FailingOn(s: State, run: seq<(Tid, Action)>, spins: bool, u: Tid)
    requires Inv(s) && Failing(s, u) && OnlyRuns(run)
    ensures Failing(Exec(s, run, spins), u)
    decreases |run|
  {
    hide Inv, Failing, Do;
    if run != [] {
      assert run[0].1 == Run;
      FailingStep(s, run[0].0, spins, u);
      DoKeeps(s, run[0].0, Run, spins);
      FailingOn(Do(s, run[0].0, Run, spins), run[1..], spins, u);
    }
  }

  /** A blocked wait that is cancelled can return, with failure, whatever other threads are doing. */
  lemma CancelEndsWait(n: nat, isSet: bool, run: seq<(Tid, Action)>, spins: bool, u: Tid) returns (more: seq<(Tid, Action)>)
    requires var s := Reached(n, isSet, run, spins); u < |s.threads| && s.threads[u].pc.Blocked? && s.threads[u].parker.Open?
    ensures OnlyRuns(more)
    ensures var s := Exec(Do(Reached(n, isSet, run, spins), u, Cancel, spins), more, spins);
      AtRest(s) && u < |s.threads| && s.threads[u].pc.Idle? && s.threads[u].told.Failure?
  {
    hide Inv, Exec;
    var s := Reached(n, isSet, run, spins);
    InitialInv(n, isSet);
    ExecKeeps(Initial(n, isSet), run, spins);
    DoKeeps(s, u, Cancel, spins);
    var s0 := Do(s, u, Cancel, spins);
    more := OperationsEnd(s0, spins);
    FailingOn(s0, more, spins, u);
  }

  /** Letting threads run can bring every operation to its end, but for waits that nobody has released. */
  lemma EveryOperationCanEnd(n: nat, isSet: bool, run: seq<(Tid, Action)>, spins: bool)
    ensures exists more :: OnlyRuns(more) && AtRest(Exec(Reached(n, isSet, run, spins), more, spins))
  {
    InitialInv(n, isSet);
    ExecKeeps(Initial(n, isSet), run, spins);
    var more := OperationsEnd(Reached(n, isSet, run, spins), spins);
  }
}
