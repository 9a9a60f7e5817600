/**
 The init-once lock as a step system. One step is one exchange, compare-and-swap or read of
 the lock word, or the release of one parker; any number of threads try, initialize, fail
 and complete in any interleaving.
 */
module InitOnceLock {

  type Tid = nat

  /** The end of a chain of parkers: the busy value, or null, which the free lock has too. */
  datatype Base = OnBusy | OnFree

  /** The lock word. An empty chain is the value at its end: a free lock, or a busy one without waiters. */
  datatype Word = Available | Chain(stack: seq<Tid>, base: Base)

  /** What the owner of a parker was released with. */
  datatype Status = Unset | ToInit | ToUse

  /** Where a parker is; the program does not store this. */
  datatype Place = Nowhere | Queued | With(owner: Tid)

  /**
   What a thread does: it tries (spinning), is in the loop that queues its parker, has read
   a free lock there, has failed to take it there, is parked, has the duty to initialize,
   releases a list of parkers after completion, or passes the duty on after a failure.
   */
  datatype Pc = Idle | Try | Slow | TakeFree | PushFree | Parked | Init | Release(list: seq<Tid>) | PassOn(next: Tid)

  /** What the last call told the thread. */
  datatype Told = Nothing | Initialize | Ready

  datatype Thread = Thread(pc: Pc, status: Status, at: Place, told: Told)

  datatype Duty = Nobody | HeldBy(t: Tid)

  /** Not part of the program's state are duty and stranded, which tells that a parker was pushed over a free lock. */
  datatype State = State(word: Word, threads: seq<Thread>, duty: Duty, stranded: bool)

  datatype Action = Run | Start | Complete | Fail

  const FREE: Word := Chain([], OnFree)
  const BUSY: Word := Chain([], OnBusy)

  function To(s: State, t: Tid, pc: Pc): State
    requires t < |s.threads|
  {
    s.(threads := s.threads[t := s.threads[t].(pc := pc)])
  }

  /** The call returns false: the target is ready. */
  function TellReady(s: State, t: Tid): State
    requires t < |s.threads|
  {
    s.(threads := s.threads[t := Thread(Idle, Unset, s.threads[t].at, Ready)])
  }

  /** The call returns true: the thread has to initialize the target. */
  function TellInit(s: State, t: Tid): State
    requires t < |s.threads|
  {
    s.(duty := HeldBy(t), threads := s.threads[t := Thread(Init, Unset, s.threads[t].at, Initialize)])
  }

  /** A thread calls TryInitTarget. */
  function Enter(s: State, t: Tid): State
    requires t < |s.threads|
  {
    s.(threads := s.threads[t := s.threads[t].(pc := Try, told := Nothing)])
  }

  function Take(s: State, t: Tid): State
    requires t < |s.threads|
  {
    TellInit(s.(word := BUSY), t)
  }

  function Push(s: State, t: Tid, stack: seq<Tid>, base: Base): State
    requires t < |s.threads|
  {
    s.(word := Chain([t] + stack, base), threads := s.threads[t := Thread(Parked, Unset, Queued, s.threads[t].told)])
  }

  // ---- the steps of SlowTryInitTarget ----

  function TryStep(s: State, t: Tid): State
    requires t < |s.threads|
  {
    if s.word == FREE then Take(s, t)
    else if s.word.Available? then TellReady(s, t)
    else To(s, t, Slow)
  }

  /** A pass of the loop that queues the parker, up to the swap of a free word if it reads one. */
  function SlowStep(s: State, t: Tid): State
    requires t < |s.threads|
  {
    if s.word.Available? then TellReady(s, t)
    else if s.word == FREE then To(s, t, TakeFree)
    else Push(s, t, s.word.stack, s.word.base)
  }

  function TakeFreeStep(s: State, t: Tid): State
    requires t < |s.threads|
  {
    if s.word == FREE then Take(s, t) else To(s, t, PushFree)
  }

  /** After the failed swap the code goes on with the free word it had read, and may queue its parker over it. */
  function PushFreeStep(s: State, t: Tid): State
    requires t < |s.threads|
  {
    if s.word == FREE then Push(s, t, [], OnFree).(stranded := true)
    else To(s, t, Slow)
  }

  function ParkedStep(s: State, t: Tid): State
    requires t < |s.threads|
  {
    match s.threads[t].status
    case Unset => s
    case ToInit => TellInit(s, t)
    case ToUse => TellReady(s, t)
  }

  // ---- completion and failure ----

  function Move(ths: seq<Thread>, xs: seq<Tid>, p: Place): (r: seq<Thread>)
    ensures |r| == |ths|
  {
    seq(|ths|, i requires 0 <= i < |ths| => if i in xs then ths[i].(at := p) else ths[i])
  }

  function CompleteStep(s: State, t: Tid): State
    requires t < |s.threads|
  {
    var list := if s.word.Chain? then s.word.stack else [];
    var ths := Move(s.threads, list, With(t));
    s.(word := Available, duty := Nobody, threads := ths[t := ths[t].(pc := Release(list))])
  }

  function Unpark(ths: seq<Thread>, x: Tid, status: Status): (r: seq<Thread>)
    ensures |r| == |ths|
  {
    if x < |ths| then ths[x := ths[x].(status := status, at := Nowhere)] else ths
  }

  function ReleaseStep(s: State, t: Tid, list: seq<Tid>): State
    requires t < |s.threads|
  {
    if list == [] then To(s, t, Idle)
    else To(s.(threads := Unpark(s.threads, list[0], ToUse)), t, Release(list[1..]))
  }

  /** A failed initialization frees the lock, or takes the parker that was queued last. */
  function FailStep(s: State, t: Tid): State
    requires t < |s.threads|
  {
    if s.word == BUSY then To(s, t, Idle).(word := FREE, duty := Nobody)
    else if s.word.Available? || s.word.stack == [] then s
    else
      var x := s.word.stack[0];
      var ths := Move(s.threads, [x], With(t));
      s.(word := Chain(s.word.stack[1..], s.word.base), threads := ths[t := ths[t].(pc := PassOn(x))])
  }

  function PassStep(s: State, t: Tid, x: Tid): State
    requires t < |s.threads|
  {
    To(s.(threads := Unpark(s.threads, x, ToInit), duty := HeldBy(x)), t, Idle)
  }

  // ---- one step, and runs ----

  function Step(s: State, t: Tid): State
    requires t < |s.threads|
  {
    match s.threads[t].pc
    case Idle => s
    case Try => TryStep(s, t)
    case Slow => SlowStep(s, t)
    case TakeFree => TakeFreeStep(s, t)
    case PushFree => PushFreeStep(s, t)
    case Parked => ParkedStep(s, t)
    case Init => s
    case Release(list) => ReleaseStep(s, t, list)
    case PassOn(x) => PassStep(s, t, x)
  }

  function Do(s: State, t: Tid, a: Action): (s': State)
    ensures |s'.threads| == |s.threads|
  {
    if t >= |s.threads| then s
    else match a
      case Run => Step(s, t)
      case Start => if s.threads[t].pc.Idle? then Enter(s, t) else s
      case Complete => if s.threads[t].pc.Init? then CompleteStep(s, t) else s
      case Fail => if s.threads[t].pc.Init? then FailStep(s, t) else s
  }

  function Exec(s: State, run: seq<(Tid, Action)>): (s': State)
    ensures |s'.threads| == |s.threads|
    decreases |run|
  {
    if run == [] then s else Exec(Do(s, run[0].0, run[0].1), run[1..])
  }

  function Initial(n: nat): State {
    State(FREE, seq(n, _ => Thread(Idle, Unset, Nowhere, Nothing)), Nobody, false)
  }

  // ---- the invariant ----

  function Stack(w: Word): seq<Tid> {
    if w.Chain? then w.stack else []
  }

  function Owned(pc: Pc): seq<Tid> {
    match pc
    case Release(list) => list
    case PassOn(x) => [x]
    case _ => []
  }

  predicate Distinct(xs: seq<Tid>) {
    forall i, j :: 0 <= i < j < |xs| ==> xs[i] != xs[j]
  }

  predicate HasDuty(th: Thread) {
    th.pc.Init? || th.pc.PassOn? || (th.pc.Parked? && th.status.ToInit?)
  }

  ghost predicate StackOk(s: State) {
    Distinct(Stack(s.word)) && forall x: Tid :: x in Stack(s.word) <==> x < |s.threads| && s.threads[x].at.Queued?
  }

  ghost predicate HandsOk(s: State, u: Tid)
    requires u < |s.threads|
  {
    Distinct(Owned(s.threads[u].pc)) && forall x: Tid :: x in Owned(s.threads[u].pc) <==> x < |s.threads| && s.threads[x].at == With(u)
  }

  /** A parker is somewhere exactly as long as its owner is parked and not released. */
  predicate ThreadOk(s: State, t: Tid)
    requires t < |s.threads|
  {
    var th := s.threads[t];
    && (th.at != Nowhere <==> th.pc.Parked? && th.status.Unset?)
    && (th.at.With? ==> th.at.owner < |s.threads|)
    && (th.status != Unset ==> th.pc.Parked?)
    && (HasDuty(th) <==> s.duty == HeldBy(t))
    && (th.pc.Release? ==> s.word.Available?)
    && (th.told.Ready? || th.status.ToUse? ==> s.word.Available?)
  }

  /** The chain ends in the busy value exactly if somebody has the duty; over a free lock there is nothing, unless it was pushed there. */
  predicate WordOk(s: State) {
    && (s.word.Chain? && s.word.base.OnBusy? <==> s.duty.HeldBy?)
    && (s.duty.HeldBy? ==> s.duty.t < |s.threads|)
    && (s.stranded <==> s.word.Chain? && s.word.base.OnFree? && s.word.stack != [])
  }

  ghost predicate AllHands(s: State) {
    forall u :: 0 <= u < |s.threads| ==> HandsOk(s, u)
  }

  predicate AllThreads(s: State) {
    forall t :: 0 <= t < |s.threads| ==> ThreadOk(s, t)
  }

  ghost predicate Inv(s: State) {
    StackOk(s) && AllHands(s) && AllThreads(s) && WordOk(s)
  }

  // ---- every step keeps the invariant ----

  predicate Waits(s: State, x: Tid) {
    x < |s.threads| && s.threads[x].pc.Parked? && s.threads[x].status.Unset?
  }

  lemma QueuedInStack(s: State)
    requires StackOk(s)
    ensures forall x :: 0 <= x < |s.threads| ==> (x in Stack(s.word) <==> s.threads[x].at.Queued?)
    ensures forall i :: 0 <= i < |Stack(s.word)| ==> Stack(s.word)[i] < |s.threads|
  {
    forall i | 0 <= i < |Stack(s.word)| ensures Stack(s.word)[i] < |s.threads| {
      assert Stack(s.word)[i] in Stack(s.word);
    }
  }

  lemma PlacedInHands(s: State, u: Tid)
    requires AllHands(s) && u < |s.threads|
    ensures forall x :: 0 <= x < |s.threads| ==> (x in Owned(s.threads[u].pc) <==> s.threads[x].at == With(u))
    ensures forall i :: 0 <= i < |Owned(s.threads[u].pc)| ==> Owned(s.threads[u].pc)[i] < |s.threads|
    ensures Distinct(Owned(s.threads[u].pc))
  {
    assert HandsOk(s, u);
    var own := Owned(s.threads[u].pc);
    forall i | 0 <= i < |own| ensures own[i] < |s.threads| {
      assert own[i] in own;
    }
  }

  lemma MovedAt(ths: seq<Thread>, xs: seq<Tid>, p: Place)
    ensures forall i :: 0 <= i < |ths| ==> Move(ths, xs, p)[i] == if i in xs then ths[i].(at := p) else ths[i]
  {
  }

  /** Where parkers are after a thread had its hands and the chain to itself. */
  predicate Rearranged(s: State, s': State, t: Tid) {
    && t < |s.threads| == |s'.threads|
    && (forall u :: 0 <= u < |s.threads| && u != t ==> Owned(s'.threads[u].pc) == Owned(s.threads[u].pc))
    && (forall x :: 0 <= x < |s.threads| ==>
          s'.threads[x].at == if x in Owned(s'.threads[t].pc) then With(t)
                              else if x in Stack(s'.word) then Queued
                              else if s.threads[x].at == With(t) || s.threads[x].at == Queued then Nowhere
                              else s.threads[x].at)
  }

  lemma RearrangedHands(s: State, s': State, t: Tid)
    requires StackOk(s) && AllHands(s) && Rearranged(s, s', t)
    requires Distinct(Stack(s'.word)) && Distinct(Owned(s'.threads[t].pc))
    requires forall x :: x in Stack(s'.word) ==> x !in Owned(s'.threads[t].pc)
    requires forall x :: x in Stack(s'.word) || x in Owned(s'.threads[t].pc) ==>
               x in Stack(s.word) || x in Owned(s.threads[t].pc) || (x == t && s.threads[t].at.Nowhere?)
    ensures StackOk(s') && AllHands(s')
  {
    hide Owned, Distinct, Stack;
    QueuedInStack(s);
    PlacedInHands(s, t);
    forall u | 0 <= u < |s'.threads| ensures HandsOk(s', u) {
      assert HandsOk(s, u) && HandsOk(s, t);
    }
  }

  /** A thread changes without a parker being moved. */
  lemma PlainKeeps(s: State, t: Tid, th: Thread, word: Word, duty: Duty)
    requires Inv(s) && t < |s.threads| && th.at == s.threads[t].at && Owned(th.pc) == Owned(s.threads[t].pc) == []
    requires Stack(word) == Stack(s.word)
    requires var s' := State(word, s.threads[t := th], duty, s.stranded);
      && WordOk(s') && ThreadOk(s', t) && (s.word.Available? ==> word.Available?)
      && (forall u :: 0 <= u < |s.threads| && u != t ==> (duty == HeldBy(u) <==> s.duty == HeldBy(u)))
    ensures Inv(State(word, s.threads[t := th], duty, s.stranded))
  {
    hide Owned, Stack, Distinct;
    var s' := State(word, s.threads[t := th], duty, s.stranded);
    forall u | 0 <= u < |s'.threads| ensures HandsOk(s', u) {
      assert HandsOk(s, u) && HandsOk(s, t);
    }
    forall u | 0 <= u < |s'.threads| ensures ThreadOk(s', u) {
      assert ThreadOk(s, u);
    }
  }

  lemma GoOnKeeps(s: State, t: Tid, pc: Pc)
    requires Inv(s) && t < |s.threads| && Owned(s.threads[t].pc) == [] && s.threads[t].at.Nowhere?
    requires !HasDuty(s.threads[t]) && s.threads[t].status.Unset?
    requires pc.Idle? || pc.Try? || pc.Slow? || pc.TakeFree? || pc.PushFree?
    ensures Inv(To(s, t, pc))
  {
    assert ThreadOk(s, t);
    PlainKeeps(s, t, s.threads[t].(pc := pc), s.word, s.duty);
  }

  lemma TakeKeeps(s: State, t: Tid)
    requires Inv(s) && t < |s.threads| && s.word == FREE && s.threads[t].at.Nowhere? && Owned(s.threads[t].pc) == []
    ensures s.duty.Nobody? && Inv(Take(s, t))
  {
    assert ThreadOk(s, t);
    PlainKeeps(s, t, Thread(Init, Unset, s.threads[t].at, Initialize), BUSY, HeldBy(t));
  }

  lemma ReadyKeeps(s: State, t: Tid)
    requires Inv(s) && t < |s.threads| && s.word.Available? && s.threads[t].at.Nowhere? && Owned(s.threads[t].pc) == []
    ensures Inv(TellReady(s, t))
  {
    assert ThreadOk(s, t);
    PlainKeeps(s, t, Thread(Idle, Unset, s.threads[t].at, Ready), s.word, s.duty);
  }

  lemma PushKeeps(s: State, t: Tid, stack: seq<Tid>, base: Base)
    requires Inv(s) && t < |s.threads| && s.threads[t].at.Nowhere? && Owned(s.threads[t].pc) == [] && !HasDuty(s.threads[t])
    requires s.word == Chain(stack, base)
    ensures Inv(Push(s, t, stack, base).(stranded := base.OnFree?))
  {
    var s' := Push(s, t, stack, base).(stranded := base.OnFree?);
    QueuedInStack(s);
    PlacedInHands(s, t);
    assert t !in stack;
    forall u | 0 <= u < |s'.threads| ensures ThreadOk(s', u) {
      assert ThreadOk(s, u);
    }
    RearrangedHands(s, s', t);
  }

  lemma CompleteKeeps(s: State, t: Tid)
    requires Inv(s) && t < |s.threads| && s.threads[t].pc.Init?
    ensures s.word.Chain? && s.word.base.OnBusy? && Inv(CompleteStep(s, t))
  {
    hide Move;
    var s' := CompleteStep(s, t);
    assert ThreadOk(s, t);
    MovedAt(s.threads, Stack(s.word), With(t));
    QueuedInStack(s);
    PlacedInHands(s, t);
    forall u | 0 <= u < |s'.threads| ensures ThreadOk(s', u) {
      assert ThreadOk(s, u);
    }
    RearrangedHands(s, s', t);
  }

  lemma ReleaseKeeps(s: State, t: Tid, list: seq<Tid>)
    requires Inv(s) && t < |s.threads| && s.threads[t].pc == Release(list) && list != []
    ensures Inv(ReleaseStep(s, t, list))
  {
    var s' := ReleaseStep(s, t, list);
    QueuedInStack(s);
    PlacedInHands(s, t);
    assert ThreadOk(s, t) && ThreadOk(s, list[0]);
    forall u | 0 <= u < |s'.threads| ensures ThreadOk(s', u) {
      assert ThreadOk(s, u);
    }
    RearrangedHands(s, s', t);
  }

  /** A failed initialization frees the lock if nobody waits. */
  lemma FreeKeeps(s: State, t: Tid)
    requires Inv(s) && t < |s.threads| && s.threads[t].pc.Init? && s.word == BUSY
    ensures Inv(FailStep(s, t)) && Do(s, t, Fail) == FailStep(s, t)
    ensures var s' := FailStep(s, t);
      && s'.word == FREE && s'.duty.Nobody? && s'.threads[t].pc.Idle?
      && forall u :: 0 <= u < |s.threads| && u != t ==> s'.threads[u] == s.threads[u] && !HasDuty(s'.threads[u])
  {
    assert ThreadOk(s, t);
    PlainKeeps(s, t, s.threads[t].(pc := Idle), FREE, Nobody);
    forall u | 0 <= u < |s.threads| && u != t ensures !HasDuty(FailStep(s, t).threads[u]) {
      assert ThreadOk(s, u);
    }
  }

  /** It takes one waiter otherwise. */
  lemma PopKeeps(s: State, t: Tid)
    requires Inv(s) && t < |s.threads| && s.threads[t].pc.Init? && s.word != BUSY
    ensures s.word.Chain? && s.word.base.OnBusy? && s.word.stack != [] && Inv(FailStep(s, t))
  {
    hide Move;
    assert ThreadOk(s, t);
    var x, s' := s.word.stack[0], FailStep(s, t);
    MovedAt(s.threads, [x], With(t));
    QueuedInStack(s);
    PlacedInHands(s, t);
    forall u | 0 <= u < |s'.threads| ensures ThreadOk(s', u) {
      assert ThreadOk(s, u);
    }
    RearrangedHands(s, s', t);
  }

  lemma PassKeeps(s: State, t: Tid, x: Tid)
    requires Inv(s) && t < |s.threads| && s.threads[t].pc == PassOn(x)
    ensures Inv(PassStep(s, t, x))
  {
    var s' := PassStep(s, t, x);
    QueuedInStack(s);
    PlacedInHands(s, t);
    assert Owned(s.threads[t].pc)[0] == x;
    assert ThreadOk(s, t) && ThreadOk(s, x);
    forall u | 0 <= u < |s'.threads| ensures ThreadOk(s', u) {
      assert ThreadOk(s, u);
    }
    RearrangedHands(s, s', t);
  }

  /** A failed initialization with waiters takes the one that was queued last; all go on waiting, and the duty stays. */
  lemma PopTakesLast(s: State, t: Tid)
    requires Inv(s) && t < |s.threads| && s.threads[t].pc.Init? && s.word != BUSY
    ensures s.word.Chain? && s.word.stack != []
    ensures var x, s' := s.word.stack[0], Do(s, t, Fail);
      && Inv(s') && Waits(s, x) && s'.threads[t].pc == PassOn(x)
      && s'.word == Chain(s.word.stack[1..], OnBusy)
      && (forall u :: 0 <= u < |s.threads| ==> (Waits(s', u) <==> Waits(s, u)) && (HasDuty(s'.threads[u]) <==> u == t))
  {
    hide StackOk, AllHands, Owned;
    PopKeeps(s, t);
    var x, s' := s.word.stack[0], Do(s, t, Fail);
    MovedAt(s.threads, [x], With(t));
    QueuedInStack(s);
    assert x in Stack(s.word) && ThreadOk(s, x);
    assert ThreadOk(s, t) && ThreadOk(s', t);
    forall u | 0 <= u < |s.threads| ensures (Waits(s', u) <==> Waits(s, u)) && (HasDuty(s'.threads[u]) <==> u == t) {
      assert ThreadOk(s', u);
    }
  }

  /** Whatever happened since, the waiter that was taken gets the duty, alone, and no other waiter is released. */
  lemma PassGivesDuty(s: State, t: Tid, x: Tid)
    requires Inv(s) && t < |s.threads| && s.threads[t].pc == PassOn(x)
    ensures var s' := Do(s, t, Run);
      && Inv(s') && Waits(s, x) && s'.threads[t].pc.Idle? && s'.word == s.word
      && (forall u :: 0 <= u < |s.threads| ==> (Waits(s', u) <==> Waits(s, u) && u != x) && (HasDuty(s'.threads[u]) <==> u == x))
  {
    hide StackOk, AllHands;
    PassKeeps(s, t, x);
    var s' := Do(s, t, Run);
    PlacedInHands(s, t);
    assert Owned(s.threads[t].pc)[0] == x;
    assert ThreadOk(s, x) && ThreadOk(s, t);
    forall u | 0 <= u < |s.threads| ensures (Waits(s', u) <==> Waits(s, u) && u != x) && (HasDuty(s'.threads[u]) <==> u == x) {
      assert ThreadOk(s', u);
    }
  }

  lemma DoKeeps(s: State, t: Tid, a: Action)
    requires Inv(s)
    ensures Inv(Do(s, t, a))
  {
    hide StackOk, AllHands, Move;
    if t < |s.threads| {
      assert ThreadOk(s, t);
      match a
      case Start =>
        if s.threads[t].pc.Idle? {
          PlainKeeps(s, t, s.threads[t].(pc := Try, told := Nothing), s.word, s.duty);
        }
      case Complete =>
        if s.threads[t].pc.Init? {
          CompleteKeeps(s, t);
        }
      case Fail =>
        if s.threads[t].pc.Init? {
          if s.word == BUSY {
            FreeKeeps(s, t);
          } else {
            PopKeeps(s, t);
          }
        }
      case Run => RunKeeps(s, t);
    }
  }

  lemma RunKeeps(s: State, t: Tid)
    requires Inv(s) && t < |s.threads|
    ensures Inv(Step(s, t))
  {
    hide StackOk, AllHands;
    assert ThreadOk(s, t);
    match s.threads[t].pc
    case Idle =>
    case Try =>
      if s.word == FREE {
        TakeKeeps(s, t);
      } else if s.word.Available? {
        ReadyKeeps(s, t);
      } else {
        GoOnKeeps(s, t, Slow);
      }
    case Slow =>
      if s.word.Available? {
        ReadyKeeps(s, t);
      } else if s.word == FREE {
        GoOnKeeps(s, t, TakeFree);
      } else {
        PushKeeps(s, t, s.word.stack, s.word.base);
      }
    case TakeFree =>
      if s.word == FREE {
        TakeKeeps(s, t);
      } else {
        GoOnKeeps(s, t, PushFree);
      }
    case PushFree =>
      if s.word == FREE {
        PushKeeps(s, t, [], OnFree);
      } else {
        GoOnKeeps(s, t, Slow);
      }
    case Parked =>
      match s.threads[t].status {
        case Unset =>
        case ToInit => PlainKeeps(s, t, Thread(Init, Unset, s.threads[t].at, Initialize), s.word, HeldBy(t));
        case ToUse => ReadyKeeps(s, t);
      }
    case Init =>
    case Release(list) =>
      if list == [] {
        GoOnKeeps(s, t, Idle);
      } else {
        ReleaseKeeps(s, t, list);
      }
    case PassOn(x) => PassKeeps(s, t, x);
  }

  lemma {:induction false} ExecKeeps(s: State, run: seq<(Tid, Action)>)
    requires Inv(s)
    ensures Inv(Exec(s, run))
    decreases |run|
  {
    if run != [] {
      DoKeeps(s, run[0].0, run[0].1);
      ExecKeeps(Do(s, run[0].0, run[0].1), run[1..]);
    }
  }

  // ---- what calls return ----

  /** A thread is in a call of TryInitTarget. */
  predicate Calling(pc: Pc) {
    pc.Try? || pc.Slow? || pc.TakeFree? || pc.PushFree? || pc.Parked?
  }

  /**
   A call that returns without the duty says that the target is ready, and it is; one that
   returns with the duty says so, and its thread has the duty; one that goes on has said
   nothing. No step concerns what another call returned.
   */
  lemma CallReturns(s: State, t: Tid, a: Action, u: Tid)
    requires Inv(s) && t < |s.threads| && u < |s.threads|
    ensures var th, th' := s.threads[u], Do(s, t, a).threads[u];
      && (Calling(th.pc) && th'.pc.Idle? ==> th'.told.Ready? && Do(s, t, a).word.Available?)
      && (Calling(th.pc) && !Calling(th'.pc) && !th'.pc.Idle? ==> th'.pc.Init? && th'.told.Initialize? && Do(s, t, a).duty == HeldBy(u))
      && (th'.told != th.told ==> u == t && ((Calling(th.pc) && !Calling(th'.pc)) || (th.pc.Idle? && a.Start? && th'.told.Nothing?)))
  {
    assert ThreadOk(s, t) && ThreadOk(s, u);
    CallReturnsOwn(s, t, a);
    if u != t {
      OthersGoOn(s, t, a, u);
    }
  }

  lemma CallReturnsOwn(s: State, t: Tid, a: Action)
    requires Inv(s) && t < |s.threads|
    ensures var th, th' := s.threads[t], Do(s, t, a).threads[t];
      && (Calling(th.pc) && th'.pc.Idle? ==> th'.told.Ready? && Do(s, t, a).word.Available?)
      && (Calling(th.pc) && !Calling(th'.pc) && !th'.pc.Idle? ==> th'.pc.Init? && th'.told.Initialize? && Do(s, t, a).duty == HeldBy(t))
      && (th'.told != th.told ==> (Calling(th.pc) && !Calling(th'.pc)) || (th.pc.Idle? && a.Start? && th'.told.Nothing?))
  {
    assert ThreadOk(s, t);
    if s.threads[t].pc.PassOn? {
      PlacedInHands(s, t);
      assert Owned(s.threads[t].pc)[0] == s.threads[t].pc.next;
    }
  }

  lemma OthersGoOn(s: State, t: Tid, a: Action, u: Tid)
    requires t < |s.threads| && u < |s.threads| && u != t
    ensures Do(s, t, a).threads[u].pc == s.threads[u].pc && Do(s, t, a).threads[u].told == s.threads[u].told
  {
  }

  // ---- what holds after every run ----

  function Reached(n: nat, run: seq<(Tid, Action)>): (s: State)
    ensures |s.threads| == n
  {
    Exec(Initial(n), run)
  }

  /** At most one thread has the duty to initialize, and somebody has it exactly while the chain ends in the busy value. */
  lemma OneDuty(n: nat, run: seq<(Tid, Action)>, t: Tid, u: Tid)
    requires t < n && u < n
    ensures var s := Reached(n, run);
      && (HasDuty(s.threads[t]) && HasDuty(s.threads[u]) ==> t == u)
      && (s.word.Chain? && s.word.base.OnBusy? <==> exists v :: 0 <= v < n && HasDuty(s.threads[v]))
      && (s.word.Available? || s.word == FREE ==> !HasDuty(s.threads[t]))
  {
    var s := Reached(n, run);
    ExecKeeps(Initial(n), run);
    assert ThreadOk(s, t) && ThreadOk(s, u);
    if s.duty.HeldBy? {
      assert ThreadOk(s, s.duty.t);
      assert HasDuty(s.threads[s.duty.t]);
    }
    forall v | 0 <= v < n && HasDuty(s.threads[v]) ensures s.duty.HeldBy? {
      assert ThreadOk(s, v);
    }
  }

  /** Each waiting parker is in exactly one place, so that it is released exactly once. */
  lemma ReleasedOnce(n: nat, run: seq<(Tid, Action)>, x: Tid, u: Tid, v: Tid)
    requires x < n && u < n && v < n
    ensures var s := Reached(n, run);
      && Distinct(Stack(s.word)) && Distinct(Owned(s.threads[u].pc))
      && !(x in Stack(s.word) && x in Owned(s.threads[u].pc))
      && (x in Owned(s.threads[u].pc) && x in Owned(s.threads[v].pc) ==> u == v)
      && (Waits(s, x) <==> x in Stack(s.word) || exists w :: 0 <= w < n && x in Owned(s.threads[w].pc))
  {
    var s := Reached(n, run);
    ExecKeeps(Initial(n), run);
    QueuedInStack(s);
    PlacedInHands(s, u);
    PlacedInHands(s, v);
    assert ThreadOk(s, x);
    if s.threads[x].at.With? {
      PlacedInHands(s, s.threads[x].at.owner);
    }
    forall w | 0 <= w < n && x in Owned(s.threads[w].pc) ensures s.threads[x].at == With(w) {
      PlacedInHands(s, w);
    }
  }

  /**
   After completion the target stays available, nobody is told to initialize who was not told
   so before, and has not called since, and a waiter is on a list to be released.
   */
  lemma CompletionIsFinal(n: nat, run: seq<(Tid, Action)>, more: seq<(Tid, Action)>, t: Tid)
    requires t < n && Reached(n, run).word.Available?
    ensures var s := Exec(Reached(n, run), more);
      && s.word.Available? && !HasDuty(s.threads[t])
      && (s.threads[t].told.Initialize? ==> Reached(n, run).threads[t].told.Initialize? && NeverStarts(Reached(n, run), more, t))
      && (Waits(s, t) ==> exists u :: 0 <= u < n && s.threads[u].pc.Release? && t in s.threads[u].pc.list)
  {
    ExecKeeps(Initial(n), run);
    AvailableStays(Reached(n, run), more, t);
    ExecKeeps(Reached(n, run), more);
    var s := Exec(Reached(n, run), more);
    assert ThreadOk(s, t);
    QueuedInStack(s);
    if s.threads[t].at.With? {
      PlacedInHands(s, s.threads[t].at.owner);
      assert ThreadOk(s, s.threads[t].at.owner);
    }
  }

  /** Thread t makes no call in a run. */
  predicate NeverStarts(s: State, run: seq<(Tid, Action)>, t: Tid)
    decreases |run|
  {
    run != [] ==>
      && !(run[0] == (t, Start) && t < |s.threads| && s.threads[t].pc.Idle?)
      && NeverStarts(Do(s, run[0].0, run[0].1), run[1..], t)
  }

  lemma {:induction false} AvailableStays(s: State, run: seq<(Tid, Action)>, t: Tid)
    requires Inv(s) && s.word.Available? && t < |s.threads|
    ensures Exec(s, run).word.Available?
    ensures Exec(s, run).threads[t].told.Initialize? ==> s.threads[t].told.Initialize? && NeverStarts(s, run, t)
    decreases |run|
  {
    if run != [] {
      var s' := Do(s, run[0].0, run[0].1);
      DoKeeps(s, run[0].0, run[0].1);
      assert s'.word.Available?;
      NobodyIsTold(s, run[0].0, run[0].1, t);
      AvailableStays(s', run[1..], t);
    }
  }

  lemma NobodyIsTold(s: State, u: Tid, a: Action, t: Tid)
    requires Inv(s) && s.word.Available? && t < |s.threads|
    ensures Do(s, u, a).threads[t].told.Initialize? ==> s.threads[t].told.Initialize? && NeverStarts(s, [(u, a)], t)
  {
    if u < |s.threads| {
      CallReturns(s, u, a, t);
      assert ThreadOk(s, t) && ThreadOk(s, u);
      DoKeeps(s, u, a);
    }
  }

  /** Who is told that the target is ready finds it available. */
  lemma ReadyIsTrue(n: nat, run: seq<(Tid, Action)>, t: Tid)
    requires t < n && Reached(n, run).threads[t].told.Ready?
    ensures Reached(n, run).word.Available?
  {
    ExecKeeps(Initial(n), run);
    assert ThreadOk(Reached(n, run), t);
  }

  // ---- stranded waiters ----

  /** The thread has failed to take the lock it had read as free, and the lock is free again. */
  predicate PushesOverFree(s: State, t: Tid, a: Action) {
    t < |s.threads| && a.Run? && s.threads[t].pc.PushFree? && s.word == FREE
  }

  predicate NeverPushesOverFree(s: State, run: seq<(Tid, Action)>)
    decreases |run|
  {
    run != [] ==>
      !PushesOverFree(s, run[0].0, run[0].1) && NeverPushesOverFree(Do(s, run[0].0, run[0].1), run[1..])
  }

  /** Nobody will ever release this waiter: it is in no hands, and nobody has the duty. */
  predicate Stranded(s: State, x: Tid) {
    Waits(s, x) && forall u :: 0 <= u < |s.threads| ==> !HasDuty(s.threads[u]) && x !in Owned(s.threads[u].pc)
  }

  lemma {:induction false} StrandedFlag(s: State, run: seq<(Tid, Action)>)
    requires Inv(s)
    ensures Exec(s, run).stranded <==> s.stranded || !NeverPushesOverFree(s, run)
    decreases |run|
  {
    if run != [] {
      var s' := Do(s, run[0].0, run[0].1);
      DoKeeps(s, run[0].0, run[0].1);
      if s.stranded {
        StrandedStep(s, run[0].0, run[0].1, s.word.stack[0]);
      }
      assert s'.stranded <==> s.stranded || PushesOverFree(s, run[0].0, run[0].1);
      StrandedFlag(s', run[1..]);
    }
  }

  lemma StrandedStep(s: State, t: Tid, a: Action, x: Tid)
    requires Inv(s) && s.stranded && x in s.word.stack
    ensures Do(s, t, a).stranded && Do(s, t, a).word.Chain? && x in Do(s, t, a).word.stack
  {
    if t < |s.threads| {
      assert ThreadOk(s, t);
    }
  }

  /**
   Exactly when the lock works: some waiter is stranded after a run if and only if, at some
   step of it, a thread that had failed to take the free lock queued its parker over it.
   */
  lemma StrandedIff(n: nat, run: seq<(Tid, Action)>)
    ensures (exists x: Tid :: Stranded(Reached(n, run), x)) <==> !NeverPushesOverFree(Initial(n), run)
  {
    var s := Reached(n, run);
    ExecKeeps(Initial(n), run);
    StrandedFlag(Initial(n), run);
    QueuedInStack(s);
    if s.stranded {
      var x := s.word.stack[0];
      assert x in Stack(s.word) && ThreadOk(s, x);
      forall u | 0 <= u < n ensures !HasDuty(s.threads[u]) && x !in Owned(s.threads[u].pc) {
        assert ThreadOk(s, u);
        PlacedInHands(s, u);
      }
      assert Stranded(s, x);
    }
    forall x: Tid | Stranded(s, x) ensures s.stranded {
      assert ThreadOk(s, x);
      forall u | 0 <= u < n ensures s.duty != HeldBy(u) && (s.threads[x].at == With(u) ==> x in Owned(s.threads[u].pc)) {
        assert ThreadOk(s, u);
        PlacedInHands(s, u);
      }
    }
  }

  /** Once stranded, a waiter stays so whatever happens. */
  lemma {:induction false} StrandedForever(s: State, run: seq<(Tid, Action)>, x: Tid)
    requires Inv(s) && s.stranded && x in s.word.stack
    ensures Waits(Exec(s, run), x)
    decreases |run|
  {
    if run == [] {
      QueuedInStack(s);
      assert x in Stack(s.word) && ThreadOk(s, x);
    } else {
      DoKeeps(s, run[0].0, run[0].1);
      StrandedStep(s, run[0].0, run[0].1, x);
      StrandedForever(Do(s, run[0].0, run[0].1), run[1..], x);
    }
  }

  // ---- every call can end ----

  /** The steps that a thread has left when the target is ready. */
  function Work(th: Thread): nat {
    match th.pc
    case Idle => 0
    case Try => 1
    case Slow => 1
    case PushFree => 2
    case TakeFree => 3
    case Parked => if th.status.Unset? then 2 else 1
    case Release(list) => 1 + |list|
    case _ => 0
  }

  function AllWork(ths: seq<Thread>): nat {
    if ths == [] then 0 else AllWork(ths[..|ths| - 1]) + Work(ths[|ths| - 1])
  }

  lemma {:induction false} WorkUpdate(ths: seq<Thread>, t: Tid, th: Thread)
    requires t < |ths|
    ensures AllWork(ths[t := th]) == AllWork(ths) - Work(ths[t]) + Work(th)
  {
    var n := |ths| - 1;
    if t == n {
      assert ths[t := th][..n] == ths[..n];
    } else {
      assert ths[t := th][..n] == ths[..n][t := th];
      WorkUpdate(ths[..n], t, th);
    }
  }

  /** The thread can go on. */
  predicate Able(s: State, t: Tid) {
    t < |s.threads| && !s.threads[t].pc.Idle? && !Waits(s, t)
  }

  lemma OneGoesOn(s: State, t: Tid)
    requires Inv(s) && s.word.Available? && Able(s, t)
    ensures var s' := Do(s, t, Run);
      Inv(s') && s'.word.Available? && |s'.threads| == |s.threads| && AllWork(s'.threads) < AllWork(s.threads)
  {
    hide AllWork, StackOk, AllHands;
    assert ThreadOk(s, t);
    RunKeeps(s, t);
    var s' := Do(s, t, Run);
    if s.threads[t].pc.Release? && s.threads[t].pc.list != [] {
      var x := s.threads[t].pc.list[0];
      ListedWaits(s, t);
      var ths := s.threads[x := s.threads[x].(status := ToUse, at := Nowhere)];
      WorkUpdate(s.threads, x, ths[x]);
      WorkUpdate(ths, t, s'.threads[t]);
      assert s'.threads == ths[t := s'.threads[t]];
    } else {
      WorkUpdate(s.threads, t, s'.threads[t]);
      assert s'.threads == s.threads[t := s'.threads[t]];
    }
  }

  /** The next thread on a list to be released waits. */
  lemma ListedWaits(s: State, t: Tid)
    requires Inv(s) && t < |s.threads| && s.threads[t].pc.Release? && s.threads[t].pc.list != []
    ensures Waits(s, s.threads[t].pc.list[0]) && s.threads[t].pc.list[0] != t
  {
    PlacedInHands(s, t);
    assert s.threads[t].pc.list[0] in Owned(s.threads[t].pc);
    assert ThreadOk(s, s.threads[t].pc.list[0]);
  }

  predicate AllIdle(s: State) {
    forall t :: 0 <= t < |s.threads| ==> s.threads[t].pc.Idle?
  }

  lemma SomeoneIsAble(s: State) returns (t: Tid)
    requires Inv(s) && s.word.Available? && !AllIdle(s)
    ensures Able(s, t)
  {
    t :| 0 <= t < |s.threads| && !s.threads[t].pc.Idle?;
    if Waits(s, t) {
      assert ThreadOk(s, t);
      QueuedInStack(s);
      var u := s.threads[t].at.owner;
      PlacedInHands(s, u);
      assert ThreadOk(s, u);
      t := u;
    }
  }

  lemma {:induction false} EndAll(s: State) returns (run: seq<(Tid, Action)>)
    requires Inv(s) && s.word.Available?
    ensures Exec(s, run).word.Available? && AllIdle(Exec(s, run))
    decreases AllWork(s.threads)
  {
    if AllIdle(s) {
      run := [];
    } else {
      var t := SomeoneIsAble(s);
      OneGoesOn(s, t);
      var rest := EndAll(Do(s, t, Run));
      run := [(t, Run)] + rest;
      assert run[1..] == rest;
    }
  }

  /** As long as the lock is free, somebody is not about to queue over it: the thread that freed it. */
  predicate SomeoneElse(s: State) {
    s.word == FREE ==> exists u :: 0 <= u < |s.threads| && !s.threads[u].pc.PushFree?
  }

  lemma SomeoneElseStep(s: State, t: Tid, a: Action)
    requires Inv(s) && SomeoneElse(s)
    ensures SomeoneElse(Do(s, t, a))
  {
    var s' := Do(s, t, a);
    if s'.word == FREE && t < |s.threads| {
      assert ThreadOk(s, t);
      if s.word == FREE {
        var u :| 0 <= u < |s.threads| && !s.threads[u].pc.PushFree?;
        FreeGoesOn(s, t, a, u);
      } else {
        assert s'.threads[t].pc.Idle?;
      }
    }
  }

  lemma FreeGoesOn(s: State, t: Tid, a: Action, u: Tid)
    requires Inv(s) && t < |s.threads| && u < |s.threads| && s.word == FREE && Do(s, t, a).word == FREE && !s.threads[u].pc.PushFree?
    ensures !Do(s, t, a).threads[u].pc.PushFree?
  {
    assert ThreadOk(s, t) && ThreadOk(s, u);
    if u != t {
      OthersGoOn(s, t, a, u);
    }
  }

  lemma {:induction false} SomeoneElseStays(s: State, run: seq<(Tid, Action)>)
    requires Inv(s) && SomeoneElse(s)
    ensures SomeoneElse(Exec(s, run))
    decreases |run|
  {
    if run != [] {
      SomeoneElseStep(s, run[0].0, run[0].1);
      DoKeeps(s, run[0].0, run[0].1);
      SomeoneElseStays(Do(s, run[0].0, run[0].1), run[1..]);
    }
  }

  /** A thread that takes a free lock. */
  lemma Takes(s: State, u: Tid) returns (run: seq<(Tid, Action)>)
    requires Inv(s) && s.word == FREE && u < |s.threads| && !s.threads[u].pc.PushFree?
    ensures Exec(s, run).threads[u].pc.Init?
  {
    assert ThreadOk(s, u);
    QueuedInStack(s);
    forall v | 0 <= v < |s.threads| ensures s.threads[u].at != With(v) {
      PlacedInHands(s, v);
      assert ThreadOk(s, v);
    }
    var step, start := (u, Run), (u, Start);
    if s.threads[u].pc.Idle? {
      run := [start, step] + [];
      TwoSteps(s, start, step, []);
    } else if s.threads[u].pc.Slow? {
      run := [step, step] + [];
      TwoSteps(s, step, step, []);
    } else {
      run := [step];
      OneStep(s, step, []);
    }
  }

  /** The thread that has the duty, or gets it, comes to initialize. */
  lemma Initializes(s: State) returns (run: seq<(Tid, Action)>, d: Tid)
    requires Inv(s) && s.duty.HeldBy?
    ensures d < |s.threads| && Exec(s, run).threads[d].pc.Init?
  {
    d := s.duty.t;
    assert ThreadOk(s, d);
    if s.threads[d].pc.Init? {
      run := [];
    } else if s.threads[d].pc.Parked? {
      run := [(d, Run)];
      OneStep(s, (d, Run), []);
    } else {
      var x := s.threads[d].pc.next;
      PassGivesDuty(s, d, x);
      PlacedInHands(s, d);
      assert Owned(s.threads[d].pc)[0] == x && ThreadOk(s, x);
      run := [(d, Run), (x, Run)] + [];
      TwoSteps(s, (d, Run), (x, Run), []);
      d := x;
    }
  }

  lemma OneStep(s: State, a: (Tid, Action), rest: seq<(Tid, Action)>)
    ensures Exec(s, [a] + rest) == Exec(Do(s, a.0, a.1), rest)
    ensures Exec(s, [a]) == Do(s, a.0, a.1)
  {
    assert ([a] + rest)[1..] == rest;
  }

  lemma {:induction false} ExecConcat(s: State, run: seq<(Tid, Action)>, more: seq<(Tid, Action)>)
    ensures Exec(s, run + more) == Exec(Exec(s, run), more)
    decreases |run|
  {
    if run == [] {
      assert run + more == more;
    } else {
      assert (run + more)[1..] == run[1..] + more;
      ExecConcat(Do(s, run[0].0, run[0].1), run[1..], more);
    }
  }

  lemma Completes(s: State) returns (run: seq<(Tid, Action)>)
    requires Inv(s) && !s.stranded && SomeoneElse(s)
    ensures Exec(s, run).word.Available?
  {
    if s.word.Available? {
      run := [];
    } else {
      var d: Tid;
      if s.duty.HeldBy? {
        run, d := Initializes(s);
      } else {
        d :| 0 <= d < |s.threads| && !s.threads[d].pc.PushFree?;
        run := Takes(s, d);
      }
      ExecConcat(s, run, [(d, Complete)]);
      OneStep(Exec(s, run), (d, Complete), []);
      run := run + [(d, Complete)];
    }
  }

  /** Everybody has left, and the target is ready. */
  predicate Done(s: State) {
    s.word.Available? && AllIdle(s)
  }

  /**
   A run can be continued so that the target becomes ready and every call ends if and only
   if no thread has queued its parker over a free lock in it.
   */
  lemma EveryCallCanEndIff(n: nat, run: seq<(Tid, Action)>)
    requires n > 0
    ensures (exists more :: Done(Exec(Reached(n, run), more))) <==> NeverPushesOverFree(Initial(n), run)
  {
    var s := Reached(n, run);
    ExecKeeps(Initial(n), run);
    StrandedFlag(Initial(n), run);
    assert !Initial(n).threads[0].pc.PushFree?;
    SomeoneElseStays(Initial(n), run);
    if s.stranded {
      forall more ensures !Done(Exec(s, more)) {
        StrandedForever(s, more, s.word.stack[0]);
      }
    } else {
      var more := Completes(s);
      ExecKeeps(s, more);
      var last := EndAll(Exec(s, more));
      ExecConcat(s, more, last);
      assert Done(Exec(s, more + last));
    }
  }

  lemma TwoSteps(s: State, a: (Tid, Action), b: (Tid, Action), rest: seq<(Tid, Action)>)
    ensures Exec(s, [a, b] + rest) == Exec(Do(Do(s, a.0, a.1), b.0, b.1), rest)
  {
    var run := [a, b] + rest;
    assert run[0] == a && run[1..] == [b] + rest && run[1..][0] == b && run[1..][1..] == rest;
  }

  lemma NoStepsLeft(s: State)
    ensures Exec(s, []) == s
  {
  }

  lemma SameState(s: State, s': State)
    requires s.word == s'.word && s.duty == s'.duty && s.stranded == s'.stranded
    requires |s.threads| == |s'.threads| == 2 && s.threads[0] == s'.threads[0] && s.threads[1] == s'.threads[1]
    ensures s == s'
  {
    assert s.threads == s'.threads;
  }

  /** The first thread has failed once, and the second has read the free lock. */
  const MIDDLE: State := State(FREE, [Thread(Idle, Unset, Nowhere, Initialize), Thread(TakeFree, Unset, Nowhere, Nothing)], Nobody, false)

  /** The second thread is parked, and nobody has the duty. */
  const END: State :=
    State(Chain([1], OnFree), [Thread(Idle, Unset, Nowhere, Initialize), Thread(Parked, Unset, Queued, Nothing)], Nobody, true)

  lemma ToMiddle(rest: seq<(Tid, Action)>)
    ensures Exec(Initial(2), [(0, Start), (0, Run)] + ([(1, Start), (1, Run)] + ([(0, Fail), (1, Run)] + rest))) == Exec(MIDDLE, rest)
  {
    hide Exec;
    var t0, t1 := Thread(Init, Unset, Nowhere, Initialize), Thread(Idle, Unset, Nowhere, Nothing);
    assert Initial(2).threads == [t1, t1];
    var s1 := State(BUSY, [t0, t1], HeldBy(0), false);
    TwoSteps(Initial(2), (0, Start), (0, Run), [(1, Start), (1, Run)] + ([(0, Fail), (1, Run)] + rest));
    SameState(Do(Do(Initial(2), 0, Start), 0, Run), s1);
    var s2 := State(BUSY, [t0, t1.(pc := Slow)], HeldBy(0), false);
    TwoSteps(s1, (1, Start), (1, Run), [(0, Fail), (1, Run)] + rest);
    SameState(Do(Do(s1, 1, Start), 1, Run), s2);
    TwoSteps(s2, (0, Fail), (1, Run), rest);
    SameState(Do(Do(s2, 0, Fail), 1, Run), MIDDLE);
  }

  lemma ToEnd()
    ensures Exec(MIDDLE, [(0, Start), (0, Run)] + ([(1, Run), (0, Fail)] + ([(1, Run), (1, Run)] + []))) == END
  {
    hide Exec;
    var t0, t1 := Thread(Idle, Unset, Nowhere, Initialize), Thread(TakeFree, Unset, Nowhere, Nothing);
    var s4 := State(BUSY, [t0.(pc := Init), t1], HeldBy(0), false);
    TwoSteps(MIDDLE, (0, Start), (0, Run), [(1, Run), (0, Fail)] + ([(1, Run), (1, Run)] + []));
    SameState(Do(Do(MIDDLE, 0, Start), 0, Run), s4);
    var s5 := State(FREE, [t0, t1.(pc := PushFree)], Nobody, false);
    TwoSteps(s4, (1, Run), (0, Fail), [(1, Run), (1, Run)] + []);
    SameState(Do(Do(s4, 1, Run), 0, Fail), s5);
    TwoSteps(s5, (1, Run), (1, Run), []);
    SameState(Do(Do(s5, 1, Run), 1, Run), END);
    NoStepsLeft(END);
  }

  /** Two threads suffice: the first fails twice, and the second reads the free lock in between. */
  lemma StrandingRun()
    ensures var run := [(0, Start), (0, Run)] + ([(1, Start), (1, Run)] + ([(0, Fail), (1, Run)] + (
                       [(0, Start), (0, Run)] + ([(1, Run), (0, Fail)] + ([(1, Run), (1, Run)] + [])))));
      Stranded(Reached(2, run), 1) && Reached(2, run).threads[0].pc.Idle?
  {
    hide Exec;
    ToMiddle([(0, Start), (0, Run)] + ([(1, Run), (0, Fail)] + ([(1, Run), (1, Run)] + [])));
    ToEnd();
  }
}
