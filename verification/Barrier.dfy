/**
 The cyclic barrier as a step system, with a fixed set of partner threads. One step is one
 compare-and-swap, read or write of a shared field. The event of a phase is a flag here;
 it stays set until the phase's buffer is used again.
 */
module Barrier {

  const ARRIVED: int := 0x1_0000
  const MAX_PARTNERS: int := ARRIVED - 1

  type Tid = nat

  /** One of the two phase buffers: the packed word, with partners above and arrivals below, and the event. */
  datatype Buffer = Buffer(word: nat, event: bool)

  /**
   What a partner does: it is outside, or arrives; it waits on the event, undoes its
   arrival after a timeout, or waits unconditionally; as the last to arrive it finishes the
   phase; or its call has failed.
   */
  datatype Pc = Outside | Load | Arrive(b: nat)
              | Wait(b: nat) | Undo(b: nat) | WaitOn(b: nat)
              | Act(b: nat) | Bump(b: nat) | Reinit(b: nat) | InitEvent(b: nat) | Publish(b: nat) | SetEvent(b: nat)
              | Failed

  /** A partner and the number of phases from which it has returned with success. */
  datatype Thread = Thread(pc: Pc, done: nat)

  /**
   The barrier and its partners. Not part of the program's state are turn, the number of
   phases started after the first one, log, the phase numbers at which the action has run,
   and finisher and setter, the threads that finish a phase and set its event.
   */
  datatype State = State(bufs: seq<Buffer>, current: nat, phase: nat, threads: seq<Thread>,
                         turn: nat, log: seq<nat>, finisher: Maybe, setter: Maybe)

  datatype Maybe = Nobody | By(t: Tid)

  datatype Action = Run | Enter | Timeout

  function Partners(word: nat): nat {
    word / ARRIVED
  }

  function Arrived(word: nat): nat {
    word % ARRIVED
  }

  /** A 32-bit decrement. */
  function OneLess(word: nat): nat {
    if word == 0 then 0xFFFF_FFFF else word - 1
  }

  function Other(b: nat): nat {
    if b == 0 then 1 else 0
  }

  function To(s: State, t: Tid, pc: Pc): State
    requires t < |s.threads|
  {
    s.(threads := s.threads[t := s.threads[t].(pc := pc)])
  }

  /** The call returns with success. */
  function Succeed(s: State, t: Tid): State
    requires t < |s.threads|
  {
    s.(threads := s.threads[t := Thread(Outside, s.threads[t].done + 1)])
  }

  function SetWord(s: State, b: nat, word: nat): State
    requires b < |s.bufs|
  {
    s.(bufs := s.bufs[b := s.bufs[b].(word := word)])
  }

  function SetFlag(s: State, b: nat, event: bool): State
    requires b < |s.bufs|
  {
    s.(bufs := s.bufs[b := s.bufs[b].(event := event)])
  }

  // ---- the steps ----

  function ArriveStep(s: State, t: Tid, b: nat): State
    requires t < |s.threads| && b < |s.bufs|
  {
    var word := s.bufs[b].word;
    if Arrived(word) == Partners(word) then To(s, t, Failed)
    else if Arrived(word) + 1 == Partners(word) then To(SetWord(s, b, word + 1), t, Act(b)).(finisher := By(t))
    else To(SetWord(s, b, word + 1), t, Wait(b))
  }

  function WaitStep(s: State, t: Tid, b: nat): State
    requires t < |s.threads| && b < |s.bufs|
  {
    if s.bufs[b].event then Succeed(s, t) else s
  }

  function UndoStep(s: State, t: Tid, b: nat): State
    requires t < |s.threads| && b < |s.bufs|
  {
    var word := s.bufs[b].word;
    if Arrived(word) == Partners(word) then To(s, t, WaitOn(b))
    else To(SetWord(s, b, OneLess(word)), t, Outside)
  }

  /** FinishPhase reads the current buffer and gives the other one the same partners, and no arrivals. */
  function ReinitStep(s: State, t: Tid): State
    requires t < |s.threads| && s.current < |s.bufs| == 2
  {
    To(SetWord(s, Other(s.current), Partners(s.bufs[s.current].word) * ARRIVED), t, InitEvent(s.current))
  }

  function Step(s: State, t: Tid): State
    requires t < |s.threads| && s.current < |s.bufs| == 2
  {
    match s.threads[t].pc
    case Outside => s
    case Load => To(s, t, Arrive(s.current))
    case Arrive(b) => if b < 2 then ArriveStep(s, t, b) else s
    case Wait(b) => if b < 2 then WaitStep(s, t, b) else s
    case Undo(b) => if b < 2 then UndoStep(s, t, b) else s
    case WaitOn(b) => if b < 2 then WaitStep(s, t, b) else s
    case Act(b) => To(s, t, Bump(b)).(log := s.log + [s.phase])
    case Bump(b) => To(s, t, Reinit(b)).(phase := s.phase + 1)
    case Reinit(b) => ReinitStep(s, t)
    case InitEvent(b) => To(SetFlag(s, Other(b), false), t, Publish(b))
    case Publish(b) => To(s, t, SetEvent(b)).(current := Other(b), turn := s.turn + 1, finisher := Nobody, setter := By(t))
    case SetEvent(b) => if b < 2 then Succeed(SetFlag(s, b, true), t).(setter := Nobody) else s
    case Failed => s
  }

  function Do(s: State, t: Tid, a: Action): (s': State)
    requires s.current < |s.bufs| == 2
    ensures |s'.threads| == |s.threads| && |s'.bufs| == 2 && s'.current < 2
  {
    if t >= |s.threads| then s
    else match a
      case Run => Step(s, t)
      case Enter => if s.threads[t].pc.Outside? then To(s, t, Load) else s
      case Timeout => if s.threads[t].pc.Wait? then To(s, t, Undo(s.threads[t].pc.b)) else s
  }

  function Exec(s: State, run: seq<(Tid, Action)>): (s': State)
    requires s.current < |s.bufs| == 2
    ensures |s'.threads| == |s.threads| && |s'.bufs| == 2 && s'.current < 2
    decreases |run|
  {
    if run == [] then s else Exec(Do(s, run[0].0, run[0].1), run[1..])
  }

  /** A barrier for n partners, whose second buffer is not initialised yet. */
  function Initial(n: nat, garbage: Buffer): (s: State)
    ensures s.current < |s.bufs| == 2 && |s.threads| == n
  {
    State([Buffer(n * ARRIVED, false), garbage], 0, 0, seq(n, _ => Thread(Outside, 0)), 0, [], Nobody, Nobody)
  }

  // ---- the invariant ----

  /** The partner has arrived in the phase of buffer b and not left it. */
  predicate On(pc: Pc, b: nat) {
    !pc.Outside? && !pc.Load? && !pc.Arrive? && !pc.Failed? && pc.b == b
  }

  predicate Finishing(pc: Pc) {
    pc.Act? || pc.Bump? || pc.Reinit? || pc.InitEvent? || pc.Publish?
  }

  /** How many partners are on a buffer. */
  function Count(ths: seq<Thread>, b: nat): nat {
    if ths == [] then 0 else Count(ths[..|ths| - 1], b) + if On(ths[|ths| - 1].pc, b) then 1 else 0
  }

  function Upto(n: nat): seq<nat> {
    seq(n, i => i)
  }

  /** The current buffer counts its partners, its event is not set, and all are on it while a thread finishes its phase. */
  predicate CurrentOk(s: State)
    requires s.current < |s.bufs| == 2
  {
    var c := Count(s.threads, s.current);
    && s.bufs[s.current] == Buffer(|s.threads| * ARRIVED + c, false)
    && c <= |s.threads| <= MAX_PARTNERS && |s.threads| > 0
    && (c == |s.threads| <==> s.finisher.By?)
  }

  /** The other buffer is full and its event is set, or about to be, as long as partners are on it. */
  predicate OtherOk(s: State)
    requires s.current < |s.bufs| == 2
  {
    var o := Other(s.current);
    Count(s.threads, o) > 0 ==> s.bufs[o].word == |s.threads| * ARRIVED + |s.threads| && (s.bufs[o].event || s.setter.By?)
  }

  /** Partners are on the current buffer, or on the other one and a phase behind. */
  predicate ThreadOk(s: State, t: Tid)
    requires t < |s.threads| && s.current < |s.bufs| == 2
  {
    var th := s.threads[t];
    && !th.pc.Failed?
    && (th.pc.Outside? || th.pc.Load? || (th.pc.Arrive? && th.pc.b == s.current) || On(th.pc, s.current) ==> th.done == s.turn)
    && (th.pc.Arrive? ==> th.pc.b == s.current)
    && (On(th.pc, Other(s.current)) ==> th.done + 1 == s.turn)
    && (th.pc.Outside? || th.pc.Load? || th.pc.Arrive? || On(th.pc, s.current) || On(th.pc, Other(s.current)))
    && (Finishing(th.pc) <==> s.finisher == By(t))
    && (Finishing(th.pc) ==> th.pc.b == s.current)
    && (th.pc.SetEvent? <==> s.setter == By(t))
    && (th.pc.SetEvent? ==> th.pc.b == Other(s.current))
    && ((th.pc.InitEvent? || th.pc.Publish?) ==> s.bufs[Other(s.current)].word == |s.threads| * ARRIVED)
    && (th.pc.Publish? ==> !s.bufs[Other(s.current)].event)
  }

  /** The phase number and the log of the action follow the phases. */
  predicate NumbersOk(s: State) {
    && s.phase == s.turn + (if Bumped(s) then 1 else 0)
    && s.log == Upto(s.turn + if Acted(s) then 1 else 0)
    && (s.finisher.By? ==> s.finisher.t < |s.threads|) && (s.setter.By? ==> s.setter.t < |s.threads|)
  }

  predicate Bumped(s: State) {
    s.finisher.By? && s.finisher.t < |s.threads|
    && (s.threads[s.finisher.t].pc.Reinit? || s.threads[s.finisher.t].pc.InitEvent? || s.threads[s.finisher.t].pc.Publish?)
  }

  predicate Acted(s: State) {
    Bumped(s) || (s.finisher.By? && s.finisher.t < |s.threads| && s.threads[s.finisher.t].pc.Bump?)
  }

  predicate Inv(s: State) {
    && s.current < |s.bufs| == 2
    && CurrentOk(s) && OtherOk(s) && NumbersOk(s)
    && forall t :: 0 <= t < |s.threads| ==> ThreadOk(s, t)
  }

  // ---- counting ----

  lemma {:induction false} CountOne(ths: seq<Thread>, t: nat, th: Thread, b: nat)
    requires t < |ths|
    ensures Count(ths[t := th], b) == Count(ths, b) - (if On(ths[t].pc, b) then 1 else 0) + (if On(th.pc, b) then 1 else 0)
  {
    var n := |ths| - 1;
    if t == n {
      assert ths[t := th][..n] == ths[..n];
    } else {
      assert ths[t := th][..n] == ths[..n][t := th];
      CountOne(ths[..n], t, th, b);
    }
  }

  lemma {:induction false} CountBound(ths: seq<Thread>, b: nat)
    ensures Count(ths, b) <= |ths|
  {
    if ths != [] {
      CountBound(ths[..|ths| - 1], b);
    }
  }

  /** All are on a buffer if their number says so, and none if it is zero. */
  lemma {:induction false} CountAll(ths: seq<Thread>, t: nat, b: nat)
    requires t < |ths|
    ensures Count(ths, b) == |ths| ==> On(ths[t].pc, b)
    ensures Count(ths, b) == 0 ==> !On(ths[t].pc, b)
  {
    var n := |ths| - 1;
    CountBound(ths[..n], b);
    if t < n {
      CountAll(ths[..n], t, b);
    }
  }

  lemma {:induction false} CountNone(ths: seq<Thread>, b: nat)
    requires forall t :: 0 <= t < |ths| ==> !On(ths[t].pc, b)
    ensures Count(ths, b) == 0
  {
    if ths != [] {
      CountNone(ths[..|ths| - 1], b);
    }
  }

  /** The packed word holds both counters. */
  lemma Unpack(partners: nat, arrived: nat)
    requires arrived < ARRIVED
    ensures Partners(partners * ARRIVED + arrived) == partners && Arrived(partners * ARRIVED + arrived) == arrived
  {
  }

  // ---- every step keeps the invariant ----

  /** A step of a partner that changes neither which buffer it is on nor a buffer. */
  lemma GoOn(s: State, t: Tid, pc: Pc)
    requires Inv(s) && t < |s.threads| && s.finisher != By(t) && s.setter != By(t)
    requires forall b :: On(pc, b) <==> On(s.threads[t].pc, b)
    requires !Finishing(pc) && !pc.SetEvent? && !pc.Failed? && (pc.Arrive? ==> pc.b == s.current)
    requires pc.Outside? || pc.Load? || pc.Arrive? <==> s.threads[t].pc.Outside? || s.threads[t].pc.Load? || s.threads[t].pc.Arrive?
    ensures Inv(To(s, t, pc))
  {
    hide Count;
    var s' := To(s, t, pc);
    CountOne(s.threads, t, s'.threads[t], 0);
    CountOne(s.threads, t, s'.threads[t], 1);
    assert ThreadOk(s, t);
    forall u | 0 <= u < |s'.threads| ensures ThreadOk(s', u) {
      assert ThreadOk(s, u);
    }
  }

  lemma NotFull(s: State, t: Tid)
    requires Inv(s) && t < |s.threads| && !On(s.threads[t].pc, s.current)
    ensures Count(s.threads, s.current) < |s.threads| && s.finisher.Nobody?
  {
    CountAll(s.threads, t, s.current);
  }

  /** A partner that arrives is never told that the phase has all its partners already. */
  lemma ArriveKeeps(s: State, t: Tid, b: nat)
    requires Inv(s) && t < |s.threads| && s.threads[t].pc == Arrive(b)
    ensures b == s.current && Arrived(s.bufs[b].word) < Partners(s.bufs[b].word)
    ensures Inv(ArriveStep(s, t, b))
  {
    hide Count, Partners, Arrived;
    assert ThreadOk(s, t);
    NotFull(s, t);
    var n, c := |s.threads|, Count(s.threads, b);
    Unpack(n, c);
    var s' := ArriveStep(s, t, b);
    CountOne(s.threads, t, s'.threads[t], 0);
    CountOne(s.threads, t, s'.threads[t], 1);
    forall u | 0 <= u < |s'.threads| ensures ThreadOk(s', u) {
      assert ThreadOk(s, u);
    }
  }

  lemma SucceedKeeps(s: State, t: Tid, b: nat)
    requires Inv(s) && t < |s.threads| && On(s.threads[t].pc, b) && b < 2 && s.bufs[b].event
    requires s.threads[t].pc.Wait? || s.threads[t].pc.WaitOn?
    ensures b == Other(s.current) && Inv(Succeed(s, t))
  {
    hide Count;
    var s' := Succeed(s, t);
    assert ThreadOk(s, t);
    CountOne(s.threads, t, s'.threads[t], 0);
    CountOne(s.threads, t, s'.threads[t], 1);
    forall u | 0 <= u < |s'.threads| ensures ThreadOk(s', u) {
      assert ThreadOk(s, u);
    }
  }

  /** A partner that times out takes exactly its own arrival back, unless all partners have arrived, and then it waits for the event. */
  lemma UndoTakesBack(s: State, t: Tid, b: nat)
    requires Inv(s) && t < |s.threads| && s.threads[t].pc == Undo(b)
    ensures b < 2
    ensures var n, c, s' := |s.threads|, Count(s.threads, b), UndoStep(s, t, b); var complete := b != s.current || c == n;
      && s.bufs[b].word == n * ARRIVED + (if complete then n else c)
      && (complete ==> s' == To(s, t, WaitOn(b)) && Count(s'.threads, b) == c)
      && (!complete ==> c > 0 && s' == To(SetWord(s, b, n * ARRIVED + c - 1), t, Outside) && Count(s'.threads, b) == c - 1)
  {
    hide Count, Partners, Arrived, NumbersOk;
    assert ThreadOk(s, t);
    var n, c := |s.threads|, Count(s.threads, b);
    CountAll(s.threads, t, b);
    CountBound(s.threads, b);
    Unpack(n, n);
    Unpack(n, c);
    CountOne(s.threads, t, UndoStep(s, t, b).threads[t], b);
  }

  lemma UndoKeeps(s: State, t: Tid, b: nat)
    requires Inv(s) && t < |s.threads| && s.threads[t].pc == Undo(b)
    ensures b < 2 && Inv(UndoStep(s, t, b))
  {
    hide Count, UndoStep;
    assert ThreadOk(s, t);
    UndoTakesBack(s, t, b);
    if b != s.current || Count(s.threads, b) == |s.threads| {
      GoOn(s, t, WaitOn(b));
    } else {
      LeaveKeeps(s, t);
    }
  }

  /** A partner leaves the current phase, which does not have all partners. */
  lemma LeaveKeeps(s: State, t: Tid)
    requires Inv(s) && t < |s.threads| && On(s.threads[t].pc, s.current) && s.finisher.Nobody? && s.setter != By(t)
    ensures Count(s.threads, s.current) > 0
    ensures Inv(To(SetWord(s, s.current, |s.threads| * ARRIVED + Count(s.threads, s.current) - 1), t, Outside))
  {
    hide Count;
    CountAll(s.threads, t, s.current);
    var s' := To(SetWord(s, s.current, |s.threads| * ARRIVED + Count(s.threads, s.current) - 1), t, Outside);
    CountOne(s.threads, t, s'.threads[t], 0);
    CountOne(s.threads, t, s'.threads[t], 1);
    assert ThreadOk(s, t);
    forall u | 0 <= u < |s'.threads| ensures ThreadOk(s', u) {
      assert ThreadOk(s, u);
    }
  }

  /** While a thread finishes the phase, all partners are on its buffer, and nobody is on the other. */
  lemma AllThere(s: State, t: Tid, u: Tid)
    requires Inv(s) && t < |s.threads| && u < |s.threads| && Finishing(s.threads[t].pc)
    ensures s.threads[t].pc.b == s.current && On(s.threads[u].pc, s.current)
    ensures Count(s.threads, Other(s.current)) == 0 && s.setter.Nobody?
  {
    assert ThreadOk(s, t);
    forall v | 0 <= v < |s.threads| ensures On(s.threads[v].pc, s.current) && !On(s.threads[v].pc, Other(s.current)) {
      CountAll(s.threads, v, s.current);
    }
    CountNone(s.threads, Other(s.current));
    forall v | 0 <= v < |s.threads| ensures s.setter != By(v) {
      assert ThreadOk(s, v);
    }
  }

  lemma FinishKeeps(s: State, t: Tid)
    requires Inv(s) && t < |s.threads|
    requires s.threads[t].pc.Act? || s.threads[t].pc.Bump? || s.threads[t].pc.Reinit? || s.threads[t].pc.InitEvent?
    ensures Inv(Step(s, t))
  {
    hide Count, Partners, Arrived;
    var s' := Step(s, t);
    AllThere(s, t, t);
    assert ThreadOk(s, t);
    Unpack(|s.threads|, |s.threads|);
    CountOne(s.threads, t, s'.threads[t], 0);
    CountOne(s.threads, t, s'.threads[t], 1);
    forall u | 0 <= u < |s'.threads| ensures ThreadOk(s', u) {
      assert ThreadOk(s, u);
    }
  }

  lemma PublishKeeps(s: State, t: Tid)
    requires Inv(s) && t < |s.threads| && s.threads[t].pc.Publish?
    ensures Inv(Step(s, t))
  {
    hide Count, Partners, Arrived;
    var s' := Step(s, t);
    AllThere(s, t, t);
    assert ThreadOk(s, t);
    CountOne(s.threads, t, s'.threads[t], 0);
    CountOne(s.threads, t, s'.threads[t], 1);
    forall u | 0 <= u < |s'.threads| ensures ThreadOk(s', u) {
      assert ThreadOk(s, u);
      AllThere(s, t, u);
    }
  }

  lemma SetEventKeeps(s: State, t: Tid)
    requires Inv(s) && t < |s.threads| && s.threads[t].pc.SetEvent?
    ensures Inv(Step(s, t))
  {
    hide Count, Partners, Arrived;
    var s' := Step(s, t);
    assert ThreadOk(s, t);
    NotFull(s, t);
    CountOne(s.threads, t, s'.threads[t], 0);
    CountOne(s.threads, t, s'.threads[t], 1);
    forall u | 0 <= u < |s'.threads| ensures ThreadOk(s', u) {
      assert ThreadOk(s, u);
    }
  }

  lemma DoKeeps(s: State, t: Tid, a: Action)
    requires Inv(s)
    ensures Inv(Do(s, t, a))
  {
    hide CurrentOk, OtherOk, NumbersOk;
    if t < |s.threads| {
      assert ThreadOk(s, t);
      match a
      case Enter =>
        if s.threads[t].pc.Outside? {
          GoOn(s, t, Load);
        }
      case Timeout =>
        if s.threads[t].pc.Wait? {
          GoOn(s, t, Undo(s.threads[t].pc.b));
        }
      case Run =>
        match s.threads[t].pc {
          case Outside =>
          case Load => GoOn(s, t, Arrive(s.current));
          case Arrive(b) => ArriveKeeps(s, t, b);
          case Wait(b) =>
            if s.bufs[b].event {
              SucceedKeeps(s, t, b);
            }
          case Undo(b) => UndoKeeps(s, t, b);
          case WaitOn(b) =>
            if s.bufs[b].event {
              SucceedKeeps(s, t, b);
            }
          case Act(b) => FinishKeeps(s, t);
          case Bump(b) => FinishKeeps(s, t);
          case Reinit(b) => FinishKeeps(s, t);
          case InitEvent(b) => FinishKeeps(s, t);
          case Publish(b) => PublishKeeps(s, t);
          case SetEvent(b) => SetEventKeeps(s, t);
          case Failed =>
        }
    }
  }

  lemma InitialInv(n: nat, garbage: Buffer)
    requires 0 < n <= MAX_PARTNERS
    ensures Inv(Initial(n, garbage))
  {
    CountNone(Initial(n, garbage).threads, 0);
    CountNone(Initial(n, garbage).threads, 1);
  }

  lemma {:induction false} ExecKeeps(s: State, run: seq<(Tid, Action)>)
    requires Inv(s)
    ensures Inv(Exec(s, run))
    decreases |run|
  {
    if run != [] {
      DoKeeps(s, run[0].0, run[0].1);
      ExecKeeps(Do(s, run[0].0, run[0].1), run[1..]);
    }
  }

  // ---- what holds after every run ----

  /** The state after a run of n partners from a fresh barrier. */
  function Reached(n: nat, garbage: Buffer, run: seq<(Tid, Action)>): (s: State)
    ensures s.current < |s.bufs| == 2 && |s.threads| == n
  {
    Exec(Initial(n, garbage), run)
  }

  /** In how many phases a partner has arrived, where an arrival that was taken back does not count. */
  function Arrivals(th: Thread): nat {
    th.done + if On(th.pc, 0) || On(th.pc, 1) then 1 else 0
  }

  /**
   No partner returns from a phase with success before all have arrived in it, no two are
   more than a phase apart, and the action has run once for each phase somebody returned
   from, in order.
   */
  lemma PhasesInStep(n: nat, garbage: Buffer, run: seq<(Tid, Action)>, t: Tid, u: Tid)
    requires 0 < n <= MAX_PARTNERS && t < n && u < n
    ensures var s := Reached(n, garbage, run);
      && s.threads[t].done <= Arrivals(s.threads[u])
      && s.threads[t].done <= s.threads[u].done + 1
      && s.log == Upto(|s.log|) && s.threads[t].done <= |s.log| <= Arrivals(s.threads[u])
  {
    var s := Reached(n, garbage, run);
    InitialInv(n, garbage);
    ExecKeeps(Initial(n, garbage), run);
    assert ThreadOk(s, t) && ThreadOk(s, u);
    if Acted(s) {
      assert ThreadOk(s, s.finisher.t);
      AllThere(s, s.finisher.t, u);
    }
  }

  /** No partner is ever told that a phase has more arrivals than partners. */
  lemma NoPartnerFails(n: nat, garbage: Buffer, run: seq<(Tid, Action)>, t: Tid)
    requires 0 < n <= MAX_PARTNERS && t < n
    ensures !Reached(n, garbage, run).threads[t].pc.Failed?
  {
    InitialInv(n, garbage);
    ExecKeeps(Initial(n, garbage), run);
    assert ThreadOk(Reached(n, garbage, run), t);
  }

  /** While a phase is finished, all partners are in it; the buffer that is set up again has none, and only one thread finishes. */
  lemma ReusedBufferIsIdle(n: nat, garbage: Buffer, run: seq<(Tid, Action)>, t: Tid, u: Tid)
    requires 0 < n <= MAX_PARTNERS && t < n && u < n && Finishing(Reached(n, garbage, run).threads[t].pc)
    ensures var s := Reached(n, garbage, run); var b := s.threads[t].pc.b;
      b == s.current && On(s.threads[u].pc, b) && !On(s.threads[u].pc, Other(b)) && (Finishing(s.threads[u].pc) ==> u == t)
  {
    var s := Reached(n, garbage, run);
    InitialInv(n, garbage);
    ExecKeeps(Initial(n, garbage), run);
    AllThere(s, t, u);
    CountAll(s.threads, u, Other(s.current));
    assert ThreadOk(s, t) && ThreadOk(s, u);
  }

  /** The packed word of the current phase holds the number of partners and of those that have arrived and not timed out. */
  lemma WordCountsArrivals(n: nat, garbage: Buffer, run: seq<(Tid, Action)>)
    requires 0 < n <= MAX_PARTNERS
    ensures var s := Reached(n, garbage, run); var word := s.bufs[s.current].word;
      Partners(word) == n && Arrived(word) == Count(s.threads, s.current) <= n && word < 0x1_0000_0000
  {
    var s := Reached(n, garbage, run);
    InitialInv(n, garbage);
    ExecKeeps(Initial(n, garbage), run);
    Unpack(n, Count(s.threads, s.current));
  }

  /** A partner that still waits for an earlier phase finds its event set, unless a thread is about to set it. */
  lemma NoPartnerIsLeftBehind(n: nat, garbage: Buffer, run: seq<(Tid, Action)>, t: Tid)
    requires 0 < n <= MAX_PARTNERS && t < n
    requires var s := Reached(n, garbage, run); On(s.threads[t].pc, Other(s.current))
    ensures var s := Reached(n, garbage, run);
      s.bufs[Other(s.current)].event || exists u :: 0 <= u < n && s.threads[u].pc == SetEvent(Other(s.current))
  {
    var s := Reached(n, garbage, run);
    InitialInv(n, garbage);
    ExecKeeps(Initial(n, garbage), run);
    CountAll(s.threads, t, Other(s.current));
    if s.setter.By? {
      assert ThreadOk(s, s.setter.t);
    }
  }
}
