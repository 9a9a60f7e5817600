/**
 What the partners of a barrier return, and that every phase can be completed.
 */
module BarrierProgress {
  import opened Barrier

  /**
   A partner leaves with success only when the event of its phase is set, or by setting it;
   it leaves without only after a timeout, and then nothing is counted for it. A partner
   that has entered arrives, and waits or finishes the phase.
   */
  predicate MovesRight(s: State, s': State, u: Tid)
    requires u < |s.threads| == |s'.threads| && |s'.bufs| == 2
  {
    var th, th' := s.threads[u], s'.threads[u];
    && (!th.pc.Outside? && th'.pc.Outside? && !th.pc.Undo? ==>
          (th.pc.Wait? || th.pc.WaitOn? || th.pc.SetEvent?) && th'.done == th.done + 1 && th.pc.b < 2 && s'.bufs[th.pc.b].event)
    && (th.pc.Undo? ==> th'.done == th.done && (th'.pc.Outside? || th'.pc == WaitOn(th.pc.b) || th' == th))
    && (th'.done != th.done ==> th'.pc.Outside?)
    && (th.pc.Load? && th'.pc != th.pc ==> th'.pc == Arrive(s.current))
    && (th.pc.Arrive? && th'.pc != th.pc ==> On(th'.pc, th.pc.b) && (th'.pc.Wait? || th'.pc.Act?))
  }

  lemma OwnStepReturns(s: State, t: Tid)
    requires Inv(s) && t < |s.threads|
    ensures MovesRight(s, Do(s, t, Run), t) && (Do(s, t, Run).threads[t].pc.Undo? ==> s.threads[t].pc.Undo?)
  {
    hide CurrentOk, OtherOk, NumbersOk, Arrived, Partners;
    assert ThreadOk(s, t);
    if s.threads[t].pc.Arrive? {
      ArriveKeeps(s, t, s.threads[t].pc.b);
    }
  }

  lemma StepReturns(s: State, t: Tid, a: Action, u: Tid)
    requires Inv(s) && t < |s.threads| && u < |s.threads|
    ensures MovesRight(s, Do(s, t, a), u)
    ensures Do(s, t, a).threads[u].pc.Undo? && !s.threads[u].pc.Undo? ==> u == t && a == Timeout && s.threads[u].pc == Wait(Do(s, t, a).threads[u].pc.b)
    ensures u != t ==> Do(s, t, a).threads[u] == s.threads[u]
  {
    hide CurrentOk, OtherOk, NumbersOk, ThreadOk;
    if u != t {
      OthersStay(s, t, a, u);
    } else if a.Run? {
      hide Step;
      OwnStepReturns(s, t);
    }
  }

  lemma OthersStay(s: State, t: Tid, a: Action, u: Tid)
    requires s.current < |s.bufs| == 2 && t < |s.threads| && u < |s.threads| && u != t
    ensures Do(s, t, a).threads[u] == s.threads[u]
  {
    hide Arrived, Partners;
  }

  /** A waiting partner whose event is set returns, and one that times out is about to take its arrival back. */
  lemma WaitEnds(s: State, t: Tid)
    requires Inv(s) && t < |s.threads|
    ensures s.threads[t].pc.Wait? ==> Do(s, t, Timeout).threads[t] == s.threads[t].(pc := Undo(s.threads[t].pc.b))
    ensures (s.threads[t].pc.Wait? || s.threads[t].pc.WaitOn?) && s.threads[t].pc.b < 2 && s.bufs[s.threads[t].pc.b].event ==>
              Do(s, t, Run).threads[t] == Thread(Outside, s.threads[t].done + 1)
  {
  }

  // ---- every phase can be completed ----

  /** The steps that a partner has left to arrive in the phase of buffer c, or, if it only leaves, to be outside. */
  function Weight(leaving: bool, c: nat, pc: Pc): nat {
    if leaving then
      if pc.Outside? then 0 else if pc.Undo? then 2 else 1
    else
      match pc
      case Outside => 3
      case Load => 2
      case Arrive(_) => 1
      case Undo(b) => if b == c then 4 else 5
      case Wait(b) => if b == c then 0 else 4
      case WaitOn(b) => if b == c then 0 else 4
      case SetEvent(_) => 4
      case _ => 0
  }

  function Total(leaving: bool, c: nat, ths: seq<Thread>): nat {
    if ths == [] then 0 else Total(leaving, c, ths[..|ths| - 1]) + Weight(leaving, c, ths[|ths| - 1].pc)
  }

  lemma {:induction false} TotalUpdate(leaving: bool, c: nat, ths: seq<Thread>, t: Tid, th: Thread)
    requires t < |ths|
    ensures Total(leaving, c, ths[t := th]) == Total(leaving, c, ths) - Weight(leaving, c, ths[t].pc) + Weight(leaving, c, th.pc)
  {
    var k := |ths| - 1;
    if t == k {
      assert ths[t := th][..k] == ths[..k];
    } else {
      assert ths[t := th][..k] == ths[..k][t := th];
      TotalUpdate(leaving, c, ths[..k], t, th);
    }
  }

  lemma {:induction false} NoneLeft(leaving: bool, c: nat, ths: seq<Thread>, t: Tid)
    requires t < |ths| && Total(leaving, c, ths) == 0
    ensures Weight(leaving, c, ths[t].pc) == 0
  {
    if t < |ths| - 1 {
      NoneLeft(leaving, c, ths[..|ths| - 1], t);
    }
  }

  lemma {:induction false} SomeLeft(leaving: bool, c: nat, ths: seq<Thread>) returns (t: Tid)
    requires Total(leaving, c, ths) > 0
    ensures t < |ths| && Weight(leaving, c, ths[t].pc) > 0
  {
    t := |ths| - 1;
    if Weight(leaving, c, ths[t].pc) == 0 {
      t := SomeLeft(leaving, c, ths[..|ths| - 1]);
    }
  }

  function Next(s: State, t: Tid): Action
    requires t < |s.threads|
  {
    if s.threads[t].pc.Outside? then Enter else Run
  }

  /** The partner, or the one that it waits for, comes nearer. */
  lemma ComesNearer(s: State, leaving: bool) returns (t: Tid)
    requires Inv(s) && s.finisher.Nobody? && Total(leaving, s.current, s.threads) > 0
    requires leaving ==> forall u :: 0 <= u < |s.threads| ==> s.threads[u].pc.Outside? || On(s.threads[u].pc, Other(s.current))
    ensures t < |s.threads| && (leaving ==> !s.threads[t].pc.Outside?)
    ensures var s' := Do(s, t, Next(s, t));
      && Inv(s') && s'.turn == s.turn && s'.current == s.current && |s'.threads| == |s.threads|
      && Total(leaving, s.current, s'.threads) < Total(leaving, s.current, s.threads)
      && (leaving ==> s'.finisher.Nobody? && (s'.threads[t].pc.Outside? || On(s'.threads[t].pc, Other(s.current))))
      && (forall u :: 0 <= u < |s.threads| && u != t ==> s'.threads[u] == s.threads[u])
  {
    hide Total, NumbersOk;
    t := SomeLeft(leaving, s.current, s.threads);
    assert ThreadOk(s, t);
    if s.setter.By? {
      SetterExists(s);
      t := s.setter.t;
      assert ThreadOk(s, t);
    }
    Moves(s, t, leaving);
    DoKeeps(s, t, Next(s, t));
    var s' := Do(s, t, Next(s, t));
    TotalUpdate(leaving, s.current, s.threads, t, s'.threads[t]);
    assert s'.threads == s.threads[t := s'.threads[t]];
  }

  lemma SetterExists(s: State)
    requires Inv(s) && s.setter.By?
    ensures s.setter.t < |s.threads| && s.threads[s.setter.t].pc == SetEvent(Other(s.current))
  {
    assert ThreadOk(s, s.setter.t);
  }

  lemma Moves(s: State, t: Tid, leaving: bool)
    requires Inv(s) && s.finisher.Nobody? && t < |s.threads| && Weight(leaving, s.current, s.threads[t].pc) > 0
    requires leaving ==> On(s.threads[t].pc, Other(s.current))
    requires s.setter.By? ==> s.setter == By(t)
    ensures var s' := Do(s, t, Next(s, t));
      && s'.turn == s.turn && s'.current == s.current && s'.threads == s.threads[t := s'.threads[t]]
      && Weight(leaving, s.current, s'.threads[t].pc) < Weight(leaving, s.current, s.threads[t].pc)
      && (leaving ==> s'.finisher.Nobody? && (s'.threads[t].pc.Outside? || On(s'.threads[t].pc, Other(s.current))))
  {
    hide Count, NumbersOk;
    assert ThreadOk(s, t);
    CountAll(s.threads, t, s.current);
    CountAll(s.threads, t, Other(s.current));
    if s.threads[t].pc.Undo? {
      UndoTakesBack(s, t, s.threads[t].pc.b);
    }
    if s.threads[t].pc.Arrive? {
      ArriveKeeps(s, t, s.threads[t].pc.b);
    }
  }

  predicate NoTimeouts(run: seq<(Tid, Action)>) {
    forall i :: 0 <= i < |run| ==> !run[i].1.Timeout?
  }

  lemma ExecOne(s: State, a: (Tid, Action), rest: seq<(Tid, Action)>)
    requires s.current < |s.bufs| == 2
    ensures Exec(s, [a] + rest) == Exec(Do(s, a.0, a.1), rest)
  {
    assert ([a] + rest)[1..] == rest;
  }

  lemma {:induction false} ExecConcat(s: State, run: seq<(Tid, Action)>, more: seq<(Tid, Action)>)
    requires s.current < |s.bufs| == 2
    ensures Exec(s, run + more) == Exec(Exec(s, run), more)
    decreases |run|
  {
    if run == [] {
      assert run + more == more;
    } else {
      assert (run + more)[1..] == run[1..] + more;
      ExecConcat(Do(s, run[0].0, run[0].1), run[1..], more);
    }
  }

  /** All partners come to the phase, and the last one is about to finish it. */
  lemma {:induction false} Gather(s: State) returns (run: seq<(Tid, Action)>)
    requires Inv(s)
    ensures NoTimeouts(run)
    ensures var e := Exec(s, run); Inv(e) && e.turn == s.turn && |e.threads| == |s.threads| && e.finisher.By?
    decreases Total(false, s.current, s.threads)
  {
    hide Total, Do;
    run := [];
    if s.finisher.Nobody? {
      if Total(false, s.current, s.threads) == 0 {
        AllArrived(s);
      } else {
        var t := ComesNearer(s, false);
        var rest := Gather(Do(s, t, Next(s, t)));
        ExecOne(s, (t, Next(s, t)), rest);
        run := [(t, Next(s, t))] + rest;
      }
    }
  }

  /** If nobody has a step left to arrive, the phase has its last partner. */
  lemma AllArrived(s: State)
    requires Inv(s) && Total(false, s.current, s.threads) == 0
    ensures s.finisher.By?
  {
    hide Total, Count, NumbersOk;
    forall t | 0 <= t < |s.threads| ensures On(s.threads[t].pc, s.current) {
      NoneLeft(false, s.current, s.threads, t);
      assert ThreadOk(s, t);
    }
    CountFull(s.threads, s.current);
  }

  lemma {:induction false} CountFull(ths: seq<Thread>, b: nat)
    requires forall t :: 0 <= t < |ths| ==> On(ths[t].pc, b)
    ensures Count(ths, b) == |ths|
  {
    if ths != [] {
      CountFull(ths[..|ths| - 1], b);
    }
  }

  /** The steps that are left to finish a phase. */
  function StepsLeft(pc: Pc): nat {
    match pc
    case Act(_) => 5
    case Bump(_) => 4
    case Reinit(_) => 3
    case InitEvent(_) => 2
    case Publish(_) => 1
    case _ => 0
  }

  /** The last partner finishes the phase, and all are on the buffer that the phase had. */
  lemma {:induction false} Finish(s: State) returns (run: seq<(Tid, Action)>)
    requires Inv(s) && s.finisher.By?
    ensures NoTimeouts(run)
    ensures var e := Exec(s, run);
      && Inv(e) && e.turn == s.turn + 1 && |e.threads| == |s.threads| && e.finisher.Nobody?
      && forall t :: 0 <= t < |e.threads| ==> On(e.threads[t].pc, Other(e.current))
    decreases if s.finisher.t < |s.threads| then StepsLeft(s.threads[s.finisher.t].pc) else 0
  {
    hide Count, CurrentOk, OtherOk;
    var t := s.finisher.t;
    assert ThreadOk(s, t);
    DoKeeps(s, t, Run);
    var s' := Do(s, t, Run);
    if s.threads[t].pc.Publish? {
      forall u | 0 <= u < |s.threads| ensures On(s'.threads[u].pc, Other(s'.current)) {
        AllThere(s, t, u);
      }
      run := [(t, Run)];
      ExecOne(s, (t, Run), []);
    } else {
      assert s'.finisher == By(t) && s'.turn == s.turn && StepsLeft(s'.threads[t].pc) < StepsLeft(s.threads[t].pc);
      var rest := Finish(s');
      ExecOne(s, (t, Run), rest);
      run := [(t, Run)] + rest;
    }
  }

  predicate AllOutside(s: State) {
    forall t :: 0 <= t < |s.threads| ==> s.threads[t].pc.Outside?
  }

  /** All partners leave the phase that was finished. */
  lemma {:induction false} Leave(s: State) returns (run: seq<(Tid, Action)>)
    requires Inv(s) && s.finisher.Nobody?
    requires forall t :: 0 <= t < |s.threads| ==> s.threads[t].pc.Outside? || On(s.threads[t].pc, Other(s.current))
    ensures NoTimeouts(run)
    ensures var e := Exec(s, run); Inv(e) && e.turn == s.turn && |e.threads| == |s.threads| && AllOutside(e)
    decreases Total(true, s.current, s.threads)
  {
    hide Total, Do, Inv;
    run := [];
    if Total(true, s.current, s.threads) == 0 {
      forall t | 0 <= t < |s.threads| ensures s.threads[t].pc.Outside? {
        NoneLeft(true, s.current, s.threads, t);
      }
    } else {
      BuffersAreTwo(s);
      var t := ComesNearer(s, true);
      var rest := Leave(Do(s, t, Next(s, t)));
      ExecOne(s, (t, Next(s, t)), rest);
      run := [(t, Next(s, t))] + rest;
    }
  }

  lemma BuffersAreTwo(s: State)
    requires Inv(s)
    ensures s.current < |s.bufs| == 2
  {
  }

  /**
   Whatever has happened, the partners can complete the phase without anybody timing out:
   all return from it with success.
   */
  lemma PhaseCanComplete(n: nat, garbage: Buffer, run: seq<(Tid, Action)>) returns (more: seq<(Tid, Action)>)
    requires 0 < n <= MAX_PARTNERS
    ensures NoTimeouts(more)
    ensures var s, e := Reached(n, garbage, run), Exec(Reached(n, garbage, run), more);
      && e.turn == s.turn + 1 && |e.threads| == n
      && forall t :: 0 <= t < n ==> e.threads[t] == Thread(Outside, e.turn)
  {
    var s := Reached(n, garbage, run);
    InitialInv(n, garbage);
    ExecKeeps(Initial(n, garbage), run);
    var a := Gather(s);
    var b := Finish(Exec(s, a));
    var c := Leave(Exec(Exec(s, a), b));
    ExecConcat(s, a, b);
    ExecConcat(s, a + b, c);
    more := a + b + c;
    var e := Exec(s, more);
    forall t | 0 <= t < n ensures e.threads[t] == Thread(Outside, e.turn) {
      assert ThreadOk(e, t);
    }
  }
}
