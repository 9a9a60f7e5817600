/**
 Every step of the notification event keeps its invariant.
 */
module NotificationEventSafety {
  import opened NotificationEvent

  // ---- a thread changes its own state only ----

  /** A step that moves no block and touches no bit. */
  predicate Quiet(s: State, s': State, t: Tid) {
    && t < |s.threads| == |s'.threads|
    && s' == s.(threads := s.threads[t := s'.threads[t]])
    && s'.threads[t].at == s.threads[t].at && s'.threads[t].epoch == s.threads[t].epoch
    && Owned(s'.threads[t].pc) == Owned(s.threads[t].pc) == []
    && !Holding(s.threads[t].pc) && !Holding(s'.threads[t].pc)
    && !s'.threads[t].pc.UnlinkCas?
    && (s'.threads[t].pc.Blocked? ==> s.threads[t].pc.Blocked? && !s'.threads[t].parker.Released?)
  }

  lemma QuietKeeps(s: State, s': State, t: Tid)
    requires Inv(s) && Quiet(s, s', t) && LinkOk(s'.threads[t]) && SpinOk(s', t)
    requires s.threads[t].pc.Unpark? ==> forall x :: 0 <= x < |s.threads| ==> s.threads[x].at != With(t)
    ensures Inv(s')
  {
    forall u | 0 <= u < |s'.threads| ensures HandsOk(s', u) {
      assert HandsOk(s, u);
    }
    forall u | 0 <= u < |s'.threads| ensures OwnerOk(s', u) && EpochOk(s', u) {
      assert OwnerOk(s, u) && EpochOk(s, u);
    }
    forall u | 0 <= u < |s'.threads| ensures TailOk(s', u) {
      assert TailOk(s, u);
    }
    forall u | 0 <= u < |s'.threads| ensures SpinOk(s', u) {
      assert SpinOk(s, u);
    }
  }

  /** Before a step, what the invariant says about one thread. */
  lemma About(s: State, t: Tid)
    requires Inv(s) && t < |s.threads|
    ensures HandsOk(s, t) && LinkOk(s.threads[t]) && OwnerOk(s, t) && TailOk(s, t) && EpochOk(s, t) && SpinOk(s, t)
  {
  }

  // ---- a block enters the list ----

  lemma EnterKeeps(s: State, t: Tid)
    requires Inv(s) && t < |s.threads| && s.threads[t].pc == Entering(false) && !s.signalled
    ensures Inv(Enter(s, t, false))
  {
    var s' := Enter(s, t, false);
    About(s, t);
    forall x: Tid ensures x in s'.list <==> x < |s'.threads| && s'.threads[x].at.InList? {
      assert x in s'.list <==> x == t || x in s.list;
    }
    forall u | 0 <= u < |s'.threads| ensures HandsOk(s', u) {
      assert HandsOk(s, u);
    }
    forall u | 0 <= u < |s'.threads| ensures OwnerOk(s', u) && EpochOk(s', u) && LinkOk(s'.threads[u]) {
      About(s, u);
    }
    forall u | 0 <= u < |s'.threads| ensures TailOk(s', u) {
      assert TailOk(s, u);
    }
    forall u | 0 <= u < |s'.threads| ensures SpinOk(s', u) {
      assert SpinOk(s, u);
    }
  }

  /** The swap of the only block for an empty list drops no other block. */
  lemma CasDropsNobody(s: State, t: Tid)
    requires Inv(s) && t < |s.threads| && s.threads[t].pc.UnlinkCas? && s.list != [] && s.list[0] == t
    ensures s.list == [t]
  {
    About(s, t);
    assert s.list[0] in s.list;
  }

  lemma CasKeeps(s: State, t: Tid)
    requires Inv(s) && t < |s.threads| && s.threads[t].pc.UnlinkCas?
    requires s.lock.Free? && !s.signalled && s.list != [] && s.list[0] == t
    ensures Inv(CasAlone(s, t))
  {
    var s' := CasAlone(s, t);
    About(s, t);
    CasDropsNobody(s, t);
    forall x: Tid ensures x in s'.list <==> x < |s'.threads| && s'.threads[x].at.InList? {
      assert x in s.list <==> x == t;
    }
    forall u | 0 <= u < |s'.threads| ensures HandsOk(s', u) {
      assert HandsOk(s, u);
    }
    forall u | 0 <= u < |s'.threads| ensures OwnerOk(s', u) && EpochOk(s', u) && LinkOk(s'.threads[u]) {
      About(s, u);
    }
    forall u | 0 <= u < |s'.threads| ensures TailOk(s', u) && SpinOk(s', u) {
      assert TailOk(s, u) && SpinOk(s, u);
    }
  }

  /** A test that finds the only block. */
  lemma TestKeeps(s: State, t: Tid)
    requires Inv(s) && t < |s.threads| && (s.threads[t].pc.UnlinkTest? || s.threads[t].pc.UnlinkSlow?)
    requires s.lock.Free? && !s.signalled && s.list == [t]
    ensures Inv(To(s, t, UnlinkCas))
  {
    var s' := To(s, t, UnlinkCas);
    About(s, t);
    forall u | 0 <= u < |s'.threads| ensures HandsOk(s', u) && LinkOk(s'.threads[u]) && OwnerOk(s', u) && EpochOk(s', u) && SpinOk(s', u) {
      About(s, u);
    }
    forall u | 0 <= u < |s'.threads| ensures TailOk(s', u) {
      assert TailOk(s, u);
      assert !Holding(s.threads[u].pc) by {
        About(s, u);
      }
    }
  }

  lemma PlacedInList(s: State)
    requires ListOk(s)
    ensures forall x :: 0 <= x < |s.threads| ==> (x in s.list <==> s.threads[x].at.InList?)
    ensures forall i :: 0 <= i < |s.list| ==> s.list[i] < |s.threads|
  {
    forall i | 0 <= i < |s.list| ensures s.list[i] < |s.threads| {
      assert s.list[i] in s.list;
    }
  }

  lemma PlacedInHands(s: State, u: Tid)
    requires AllHands(s) && u < |s.threads|
    ensures forall x :: 0 <= x < |s.threads| ==> (x in Owned(s.threads[u].pc) <==> s.threads[x].at == With(u))
    ensures forall i :: 0 <= i < |Owned(s.threads[u].pc)| ==> Owned(s.threads[u].pc)[i] < |s.threads|
    ensures Distinct(Owned(s.threads[u].pc))
  {
    assert HandsOk(s, u);
    var own := Owned(s.threads[u].pc);
    forall i | 0 <= i < |own| ensures own[i] < |s.threads| {
      assert own[i] in own;
    }
  }

  /** A block in a thread's hands while nobody holds the lock bit is about to be unparked. */
  lemma HolderUnparks(s: State, x: Tid)
    requires AllHands(s) && AllOwners(s) && AllSpins(s) && x < |s.threads| && s.lock.Free? && s.threads[x].at.With?
    ensures s.threads[x].at.owner < |s.threads| && s.threads[s.threads[x].at.owner].pc.Unpark?
  {
    assert SpinOk(s, x);
    assert OwnerOk(s, s.threads[x].at.owner);
    PlacedInHands(s, s.threads[x].at.owner);
  }

  // ---- the whole list is taken ----

  lemma MovedAt(ths: seq<Thread>, xs: seq<Tid>, p: Place)
    ensures forall i :: 0 <= i < |ths| ==> Move(ths, xs, p)[i] == if i in xs then ths[i].(at := p) else ths[i]
  {
  }

  lemma TakeLockHands(s: State, t: Tid)
    requires Inv(s) && t < |s.threads| && s.threads[t].pc.UnlinkSlow?
    ensures ListOk(TakeLock(s, t)) && AllHands(TakeLock(s, t))
  {
    hide AllLinks, AllTails, AllEpochs, AllSpins, AllOwners, Move;
    var s' := TakeLock(s, t);
    MovedAt(s.threads, s.list, With(t));
    assert s.list + [] == s.list;
    forall u | 0 <= u < |s'.threads| ensures HandsOk(s', u) {
      assert HandsOk(s, u);
    }
  }

  lemma TakeLockKeeps(s: State, t: Tid)
    requires Inv(s) && t < |s.threads| && s.threads[t].pc.UnlinkSlow?
    requires s.lock.Free? && !s.signalled && s.list != []
    ensures Inv(TakeLock(s, t))
  {
    hide AllHands, HandsOk, ListOk, Move;
    var s' := TakeLock(s, t);
    TakeLockHands(s, t);
    PlacedInList(s);
    PlacedInHands(s, t);
    MovedAt(s.threads, s.list, With(t));
    forall u | 0 <= u < |s'.threads| ensures LinkOk(s'.threads[u]) && OwnerOk(s', u) && EpochOk(s', u) {
      assert LinkOk(s.threads[u]) && OwnerOk(s, u) && EpochOk(s, u);
    }
    if s.threads[t].at.With? {
      HolderUnparks(s, t);
    }
    forall u | 0 <= u < |s'.threads| ensures TailOk(s', u) && SpinOk(s', u) {
      assert TailOk(s, u) && SpinOk(s, u) && OwnerOk(s, u);
    }
  }

  lemma OrderKeeps(list: seq<Tid>, spins: bool)
    requires Distinct(list)
    ensures Distinct(UnparkOrder(list, spins)) && forall x: Tid :: x in UnparkOrder(list, spins) <==> x in list
  {
    if spins && |list| > 1 {
      var n := |list| - 1;
      var r := UnparkOrder(list, spins);
      forall x: Tid ensures x in r <==> x in list {
        if x in list {
          var i :| 0 <= i < |list| && list[i] == x;
          assert if i == n then r[0] == x else r[i + 1] == x;
        }
      }
    }
  }

  lemma SetHands(s: State, t: Tid, spins: bool)
    requires ListOk(s) && AllHands(s) && t < |s.threads| && s.threads[t].pc.Setting? && s.lock.Free? && !s.signalled
    ensures ListOk(Set(s, t, spins)) && AllHands(Set(s, t, spins))
  {
    hide Move, UnparkOrder;
    var s' := Set(s, t, spins);
    MovedAt(s.threads, s.list, With(t));
    OrderKeeps(s.list, spins);
    forall u | 0 <= u < |s'.threads| ensures HandsOk(s', u) {
      assert HandsOk(s, u);
    }
  }

  /** A set that takes the whole list. */
  lemma SetKeeps(s: State, t: Tid, spins: bool)
    requires Inv(s) && t < |s.threads| && s.threads[t].pc.Setting? && s.lock.Free? && !s.signalled
    ensures Inv(Set(s, t, spins))
  {
    hide AllHands, HandsOk, ListOk, Move, UnparkOrder;
    var s' := Set(s, t, spins);
    SetHands(s, t, spins);
    PlacedInList(s);
    PlacedInHands(s, t);
    MovedAt(s.threads, s.list, With(t));
    forall u | 0 <= u < |s'.threads| ensures LinkOk(s'.threads[u]) && OwnerOk(s', u) && EpochOk(s', u) {
      assert LinkOk(s.threads[u]) && OwnerOk(s, u) && EpochOk(s, u);
    }
    forall u | 0 <= u < |s'.threads| ensures TailOk(s', u) && SpinOk(s', u) {
      assert TailOk(s, u) && SpinOk(s, u) && OwnerOk(s, u);
    }
  }

  /** A set that leaves the blocks to the holder of the lock bit. */
  lemma SetLockedKeeps(s: State, t: Tid, spins: bool)
    requires Inv(s) && t < |s.threads| && s.threads[t].pc.Setting? && s.lock.HeldBy? && !s.signalled
    ensures Inv(Set(s, t, spins))
  {
    var s' := Set(s, t, spins);
    forall u | 0 <= u < |s'.threads| ensures HandsOk(s', u) && LinkOk(s'.threads[u]) && OwnerOk(s', u) && EpochOk(s', u) {
      About(s, u);
    }
    PlacedInHands(s, t);
    forall u | 0 <= u < |s'.threads| ensures TailOk(s', u) && SpinOk(s', u) {
      assert TailOk(s, u) && SpinOk(s, u) && OwnerOk(s, u);
    }
  }

  lemma ResetKeeps(s: State, t: Tid)
    requires Inv(s) && t < |s.threads| && s.threads[t].pc.Resetting? && s.lock.Free? && s.signalled && s.list == []
    ensures Inv(Reset(s, t))
  {
    var s' := Reset(s, t);
    PlacedInHands(s, t);
    forall u | 0 <= u < |s'.threads| ensures HandsOk(s', u) && LinkOk(s'.threads[u]) && OwnerOk(s', u) && EpochOk(s', u) {
      About(s, u);
    }
    forall u | 0 <= u < |s'.threads| ensures TailOk(s', u) && SpinOk(s', u) {
      assert TailOk(s, u) && SpinOk(s, u) && OwnerOk(s, u);
    }
  }

  // ---- sequences without repetition ----

  lemma Joined(a: seq<Tid>, b: seq<Tid>)
    requires Distinct(a) && Distinct(b) && forall x :: x in a ==> x !in b
    ensures Distinct(a + b) && forall x: Tid :: x in a + b <==> x in a || x in b
  {
    forall i, j | 0 <= i < j < |a + b| ensures (a + b)[i] != (a + b)[j] {
      if i < |a| <= j {
        assert a[i] in a && b[j - |a|] in b;
      }
    }
  }

  lemma WithoutFirst(xs: seq<Tid>)
    requires xs != [] && Distinct(xs)
    ensures Distinct(xs[1..]) && forall x: Tid :: x in xs[1..] <==> x in xs && x != xs[0]
  {
  }

  lemma FirstToEnd(xs: seq<Tid>)
    requires xs != [] && Distinct(xs)
    ensures Distinct(xs[1..] + [xs[0]]) && forall x: Tid :: x in xs[1..] + [xs[0]] <==> x in xs
  {
    WithoutFirst(xs);
    Joined(xs[1..], [xs[0]]);
  }

  // ---- the holder at work ----

  predicate Sweeping(s: State, t: Tid, rest: seq<Tid>, live: seq<Tid>) {
    t < |s.threads| && s.threads[t].pc == Sweep(rest, live)
  }

  /** Where blocks are after a thread had its hands and the list of the event to itself. */
  predicate Rearranged(s: State, s': State, t: Tid) {
    && t < |s.threads| == |s'.threads|
    && (forall u :: 0 <= u < |s.threads| && u != t ==> s'.threads[u].pc == s.threads[u].pc)
    && (forall x :: 0 <= x < |s.threads| ==>
          s'.threads[x].at == if x in Owned(s'.threads[t].pc) then With(t)
                              else if x in s'.list then InList
                              else if s.threads[x].at == With(t) || s.threads[x].at == InList then Out
                              else s.threads[x].at)
  }

  lemma RearrangedHands(s: State, s': State, t: Tid)
    requires ListOk(s) && AllHands(s) && Rearranged(s, s', t)
    requires Distinct(s'.list) && Distinct(Owned(s'.threads[t].pc)) && forall x :: x in s'.list ==> x !in Owned(s'.threads[t].pc)
    requires forall x :: x in s'.list || x in Owned(s'.threads[t].pc) ==> x in s.list || x in Owned(s.threads[t].pc)
    ensures ListOk(s') && AllHands(s')
  {
    hide Owned, Distinct;
    PlacedInHands(s, t);
    forall u | 0 <= u < |s'.threads| ensures HandsOk(s', u) {
      assert HandsOk(s, u) && HandsOk(s, t);
    }
  }

  /** A thread only rearranges what is in its hands. */
  lemma SameHands(s: State, t: Tid, pc: Pc)
    requires ListOk(s) && AllHands(s) && t < |s.threads|
    requires Distinct(Owned(pc)) && forall x: Tid :: x in Owned(pc) <==> x in Owned(s.threads[t].pc)
    ensures ListOk(To(s, t, pc)) && AllHands(To(s, t, pc))
  {
    hide Owned, Distinct;
    var s' := To(s, t, pc);
    forall u | 0 <= u < |s'.threads| ensures HandsOk(s', u) {
      assert HandsOk(s, u) && HandsOk(s, t);
    }
  }

  lemma SweepHands(s: State, t: Tid, rest: seq<Tid>, live: seq<Tid>)
    requires ListOk(s) && AllHands(s) && Sweeping(s, t, rest, live) && rest != []
    ensures ListOk(SweepOne(s, t, rest, live)) && AllHands(SweepOne(s, t, rest, live))
  {
    var own, x := rest + live, rest[0];
    PlacedInHands(s, t);
    assert own[0] == x && own[1..] == rest[1..] + live;
    assert x in own;
    if s.threads[x].parker != Open {
      WithoutFirst(own);
      DropHands(s, t, rest, live);
    } else {
      assert rest[1..] + (live + [x]) == own[1..] + [own[0]];
      FirstToEnd(own);
      SameHands(s, t, Sweep(rest[1..], live + [x]));
    }
  }

  lemma DropHands(s: State, t: Tid, rest: seq<Tid>, live: seq<Tid>)
    requires ListOk(s) && AllHands(s) && Sweeping(s, t, rest, live) && rest != []
    requires rest[0] < |s.threads| && s.threads[rest[0]].parker != Open
    requires Distinct(rest[1..] + live) && forall y: Tid :: y in rest[1..] + live <==> y in rest + live && y != rest[0]
    ensures ListOk(SweepOne(s, t, rest, live)) && AllHands(SweepOne(s, t, rest, live))
  {
    hide Distinct;
    var s' := SweepOne(s, t, rest, live);
    PlacedInHands(s, t);
    PlacedInList(s);
    assert (rest + live)[0] == rest[0];
    assert ListOk(s);
    RearrangedHands(s, s', t);
  }

  lemma SweepTails(s: State, t: Tid, rest: seq<Tid>, live: seq<Tid>)
    requires Inv(s) && Sweeping(s, t, rest, live) && rest != []
    ensures AllTails(SweepOne(s, t, rest, live)) && AllSpins(SweepOne(s, t, rest, live))
  {
    hide HandsOk, ListOk, AllHands, Owned, EpochOk;
    var s' := SweepOne(s, t, rest, live);
    SweepsOwn(s, t, rest, live);
    PlacedInList(s);
    forall u | 0 <= u < |s'.threads| ensures TailOk(s', u) && SpinOk(s', u) {
      assert TailOk(s, u) && SpinOk(s, u) && OwnerOk(s, u) && LinkOk(s.threads[u]);
    }
  }

  lemma SweepKeeps(s: State, t: Tid, rest: seq<Tid>, live: seq<Tid>)
    requires Inv(s) && Sweeping(s, t, rest, live) && rest != []
    ensures Inv(SweepOne(s, t, rest, live))
  {
    hide HandsOk, ListOk, AllHands, Owned, AllTails, AllSpins;
    var s' := SweepOne(s, t, rest, live);
    SweepHands(s, t, rest, live);
    SweepsOwn(s, t, rest, live);
    SweepTails(s, t, rest, live);
    forall u | 0 <= u < |s'.threads| ensures LinkOk(s'.threads[u]) && OwnerOk(s', u) && EpochOk(s', u) {
      assert LinkOk(s.threads[u]) && OwnerOk(s, u) && EpochOk(s, u);
    }
  }

  lemma SweepsOwn(s: State, t: Tid, rest: seq<Tid>, live: seq<Tid>)
    requires AllHands(s) && Sweeping(s, t, rest, live)
    ensures rest != [] ==> rest[0] < |s.threads| && s.threads[rest[0]].at == With(t)
    ensures forall x :: x in live ==> x < |s.threads| && s.threads[x].at == With(t)
    ensures rest == [] ==> forall x :: 0 <= x < |s.threads| && s.threads[x].at == With(t) ==> x in live
  {
    PlacedInHands(s, t);
    if rest != [] {
      assert (rest + live)[0] == rest[0];
    }
    forall x | x in live ensures x in rest + live {
      var i :| 0 <= i < |live| && live[i] == x;
      assert (rest + live)[|rest| + i] == x;
    }
  }

  lemma UnlockHands(s: State, t: Tid, live: seq<Tid>)
    requires ListOk(s) && AllHands(s) && Sweeping(s, t, [], live)
    ensures ListOk(Unlock(s, t, live)) && AllHands(Unlock(s, t, live))
  {
    assert [] + live == live;
    PlacedInHands(s, t);
    if s.signalled {
      SameHands(s, t, Deliver(live, s.list));
    } else {
      PlacedInList(s);
      Joined(live, s.list);
      GiveBackHands(s, t, live);
    }
  }

  lemma GiveBackHands(s: State, t: Tid, live: seq<Tid>)
    requires ListOk(s) && AllHands(s) && Sweeping(s, t, [], live) && !s.signalled
    requires Owned(s.threads[t].pc) == live
    requires Distinct(live + s.list) && forall x: Tid :: x in live + s.list <==> x in live || x in s.list
    ensures ListOk(Unlock(s, t, live)) && AllHands(Unlock(s, t, live))
  {
    hide Distinct, Move;
    PlacedInHands(s, t);
    PlacedInList(s);
    MovedAt(s.threads, live, InList);
    assert Distinct([]) by {
      DistinctEmpty();
    }
    RearrangedHands(s, Unlock(s, t, live), t);
  }

  lemma DistinctEmpty()
    ensures Distinct([])
  {
  }

  /** The holder gives the blocks back, or learns that it has to unpark them. */
  lemma UnlockKeeps(s: State, t: Tid, live: seq<Tid>)
    requires Inv(s) && Sweeping(s, t, [], live)
    ensures Inv(Unlock(s, t, live))
  {
    hide HandsOk, ListOk, AllHands, Owned, Move;
    var s' := Unlock(s, t, live);
    UnlockHands(s, t, live);
    SweepsOwn(s, t, [], live);
    MovedAt(s.threads, live, InList);
    forall u | 0 <= u < |s'.threads| ensures LinkOk(s'.threads[u]) && OwnerOk(s', u) && EpochOk(s', u) {
      assert LinkOk(s.threads[u]) && OwnerOk(s, u) && EpochOk(s, u) && OwnerOk(s, t);
    }
    forall u | 0 <= u < |s'.threads| ensures TailOk(s', u) && SpinOk(s', u) {
      assert TailOk(s, u) && SpinOk(s, u) && OwnerOk(s, u) && SpinOk(s, t) && OwnerOk(s, t);
    }
  }

  lemma WriteSetHands(s: State, t: Tid, live: seq<Tid>, seen: seq<Tid>, spins: bool)
    requires ListOk(s) && AllHands(s) && t < |s.threads| && s.threads[t].pc == Deliver(live, seen) && s.list == seen
    ensures ListOk(WriteSet(s, t, live, seen, spins)) && AllHands(WriteSet(s, t, live, seen, spins))
  {
    hide Move, UnparkOrder;
    var s' := WriteSet(s, t, live, seen, spins);
    MovedAt(s.threads, seen, With(t));
    PlacedInHands(s, t);
    PlacedInList(s);
    Joined(live, seen);
    OrderKeeps(live + seen, spins);
    RearrangedHands(s, s', t);
  }

  /** The plain write of the set state loses nothing. */
  lemma WriteSetKeeps(s: State, t: Tid, live: seq<Tid>, seen: seq<Tid>, spins: bool)
    requires Inv(s) && t < |s.threads| && s.threads[t].pc == Deliver(live, seen)
    ensures s.lock == HeldBy(t) && s.signalled && s.list == seen
    ensures Inv(WriteSet(s, t, live, seen, spins))
  {
    hide HandsOk, ListOk, AllHands, Move, UnparkOrder;
    var s' := WriteSet(s, t, live, seen, spins);
    assert OwnerOk(s, t);
    WriteSetHands(s, t, live, seen, spins);
    PlacedInList(s);
    MovedAt(s.threads, seen, With(t));
    forall u | 0 <= u < |s'.threads| ensures LinkOk(s'.threads[u]) && OwnerOk(s', u) && EpochOk(s', u) {
      assert LinkOk(s.threads[u]) && OwnerOk(s, u) && EpochOk(s, u);
    }
    forall u | 0 <= u < |s'.threads| ensures TailOk(s', u) && SpinOk(s', u) {
      assert TailOk(s, u) && SpinOk(s, u) && OwnerOk(s, u);
    }
  }

  lemma UnparkHands(s: State, t: Tid, list: seq<Tid>, next: Then)
    requires ListOk(s) && AllHands(s) && t < |s.threads| && s.threads[t].pc == Unpark(list, next) && list != []
    ensures ListOk(UnparkOne(s, t, list, next)) && AllHands(UnparkOne(s, t, list, next))
  {
    var s' := UnparkOne(s, t, list, next);
    PlacedInHands(s, t);
    WithoutFirst(list);
    PlacedInList(s);
    RearrangedHands(s, s', t);
  }

  lemma UnparkTails(s: State, t: Tid, list: seq<Tid>, next: Then)
    requires Inv(s) && t < |s.threads| && s.threads[t].pc == Unpark(list, next) && list != []
    ensures AllTails(UnparkOne(s, t, list, next)) && AllSpins(UnparkOne(s, t, list, next))
  {
    hide HandsOk, ListOk, AllHands, EpochOk;
    var s' := UnparkOne(s, t, list, next);
    forall u | 0 <= u < |s'.threads| ensures TailOk(s', u) && SpinOk(s', u) {
      assert TailOk(s, u) && SpinOk(s, u) && OwnerOk(s, u);
    }
  }

  lemma UnparkKeeps(s: State, t: Tid, list: seq<Tid>, next: Then)
    requires Inv(s) && t < |s.threads| && s.threads[t].pc == Unpark(list, next) && list != []
    ensures Inv(UnparkOne(s, t, list, next))
  {
    hide HandsOk, ListOk, AllHands, AllTails, AllSpins;
    var s' := UnparkOne(s, t, list, next);
    UnparkHands(s, t, list, next);
    UnparkTails(s, t, list, next);
    PlacedInHands(s, t);
    assert list[0] in list && OwnerOk(s, t);
    assert EpochOk(s, list[0]) && s.threads[list[0]].epoch < s.epoch;
    forall u | 0 <= u < |s'.threads| ensures LinkOk(s'.threads[u]) && OwnerOk(s', u) && EpochOk(s', u) {
      assert LinkOk(s.threads[u]) && OwnerOk(s, u) && EpochOk(s, u);
    }
  }

  // ---- any step, any run ----

  /** A thread with nothing in its hands goes on to a state in which it holds nothing either. */
  lemma PlainKeeps(s: State, t: Tid, pc: Pc)
    requires Inv(s) && t < |s.threads| && LinkOk(s.threads[t].(pc := pc))
    requires Owned(s.threads[t].pc) == [] && Owned(pc) == [] && !Holding(s.threads[t].pc) && !Holding(pc) && !pc.UnlinkCas? && !pc.Unpark? && !pc.Blocked?
    requires pc.Spin? ==> Swept(s.threads[t].pc)
    ensures Inv(To(s, t, pc))
  {
    PlacedInHands(s, t);
    assert SpinOk(s, t);
    QuietKeeps(s, To(s, t, pc), t);
  }

  lemma StartKeeps(s: State, t: Tid, pc: Pc)
    requires Inv(s) && t < |s.threads| && s.threads[t].pc.Idle? && (pc.Entering? || pc.Setting? || pc.Resetting?)
    ensures Inv(Start(s, t, pc))
  {
    assert LinkOk(s.threads[t]) && SpinOk(s, t);
    QuietKeeps(s, Start(s, t, pc), t);
  }

  /** A call returns, with nothing in the thread's hands and its block taken off. */
  lemma ReturnKeeps(s: State, t: Tid, told: Told)
    requires Inv(s) && t < |s.threads| && s.threads[t].at.Out?
    requires Owned(s.threads[t].pc) == [] && !Holding(s.threads[t].pc)
    ensures Inv(Return(s, t, told))
  {
    PlacedInHands(s, t);
    QuietKeeps(s, Return(s, t, told), t);
  }

  lemma UnlinkStepKeeps(s: State, t: Tid, spins: bool)
    requires Inv(s) && t < |s.threads|
    requires s.threads[t].pc.UnlinkTest? || s.threads[t].pc.UnlinkCas? || s.threads[t].pc.UnlinkSlow?
    ensures Inv(Step(s, t, spins))
  {
    hide ListOk, AllHands, AllOwners, AllTails, AllEpochs, AllSpins;
    assert LinkOk(s.threads[t]);
    if s.threads[t].pc.UnlinkCas? {
      if s.lock.Free? && !s.signalled && s.list != [] && s.list[0] == t {
        CasKeeps(s, t);
      } else {
        PlainKeeps(s, t, UnlinkSlow);
      }
    } else if s.threads[t].unlinked {
      ReturnKeeps(s, t, Failure);
    } else if s.lock.Free? && !s.signalled && s.list == [t] {
      TestKeeps(s, t);
    } else if s.threads[t].pc.UnlinkTest? {
      PlainKeeps(s, t, UnlinkSlow);
    } else if s.lock.Free? && !s.signalled && s.list != [] {
      TakeLockKeeps(s, t);
    }
  }

  lemma SetStepKeeps(s: State, t: Tid, spins: bool)
    requires Inv(s) && t < |s.threads| && (s.threads[t].pc.Setting? || s.threads[t].pc.Resetting?)
    ensures Inv(Step(s, t, spins))
  {
    hide ListOk, AllHands, AllOwners, AllTails, AllEpochs, AllSpins;
    assert LinkOk(s.threads[t]);
    if s.threads[t].pc.Setting? {
      if s.signalled {
        ReturnKeeps(s, t, Before(true));
      } else if s.lock.Free? {
        SetKeeps(s, t, spins);
      } else {
        SetLockedKeeps(s, t, spins);
      }
    } else if !s.signalled {
      ReturnKeeps(s, t, Before(false));
    } else if s.lock.Free? && s.list == [] {
      ResetKeeps(s, t);
    }
  }

  lemma StepKeeps(s: State, t: Tid, spins: bool)
    requires Inv(s) && t < |s.threads|
    ensures Inv(Step(s, t, spins))
  {
    hide ListOk, AllHands, AllOwners, AllTails, AllEpochs, AllSpins, Move;
    assert LinkOk(s.threads[t]);
    match s.threads[t].pc
    case Idle =>
    case Entering(poll) =>
      if s.signalled || poll {
        ReturnKeeps(s, t, if s.signalled then Success else Failure);
      } else {
        EnterKeeps(s, t);
      }
    case Blocked =>
      if s.threads[t].parker.Released? {
        ReturnKeeps(s, t, Success);
      } else if s.threads[t].parker.Cancelled? {
        PlainKeeps(s, t, UnlinkTest);
      }
    case UnlinkTest => UnlinkStepKeeps(s, t, spins);
    case UnlinkCas => UnlinkStepKeeps(s, t, spins);
    case UnlinkSlow => UnlinkStepKeeps(s, t, spins);
    case Sweep(rest, live) =>
      if rest != [] {
        SweepKeeps(s, t, rest, live);
      } else {
        UnlockKeeps(s, t, live);
      }
    case Deliver(live, seen) => WriteSetKeeps(s, t, live, seen, spins);
    case Unpark(list, next) =>
      if list != [] {
        UnparkKeeps(s, t, list, next);
      } else if next.Finish? {
        ReturnKeeps(s, t, Before(false));
      } else {
        PlainKeeps(s, t, Spin);
      }
    case Spin =>
      if s.threads[t].unlinked {
        ReturnKeeps(s, t, Failure);
      }
    case Setting => SetStepKeeps(s, t, spins);
    case Resetting => SetStepKeeps(s, t, spins);
  }

  lemma CancelKeeps(s: State, t: Tid)
    requires Inv(s) && t < |s.threads| && s.threads[t].pc.Blocked? && s.threads[t].parker.Open?
    ensures Inv(s.(threads := s.threads[t := s.threads[t].(parker := Cancelled)]))
  {
    var s' := s.(threads := s.threads[t := s.threads[t].(parker := Cancelled)]);
    assert LinkOk(s.threads[t]) && SpinOk(s, t);
    QuietKeeps(s, s', t);
  }

  lemma DoKeeps(s: State, t: Tid, a: Action, spins: bool)
    requires Inv(s)
    ensures Inv(Do(s, t, a, spins))
  {
    hide ListOk, AllHands, AllOwners, AllTails, AllEpochs, AllSpins;
    if t < |s.threads| {
      assert LinkOk(s.threads[t]);
      match a
      case Run => StepKeeps(s, t, spins);
      case StartWait(poll) =>
        if s.threads[t].pc.Idle? {
          StartKeeps(s, t, Entering(poll));
        }
      case StartSet =>
        if s.threads[t].pc.Idle? {
          StartKeeps(s, t, Setting);
        }
      case StartReset =>
        if s.threads[t].pc.Idle? {
          StartKeeps(s, t, Resetting);
        }
      case Cancel =>
        if s.threads[t].pc.Blocked? && s.threads[t].parker.Open? {
          CancelKeeps(s, t);
        }
    }
  }

  lemma InitialInv(n: nat, isSet: bool)
    ensures Inv(Initial(n, isSet))
  {
    var s := Initial(n, isSet);
    forall u | 0 <= u < n ensures HandsOk(s, u) && TailOk(s, u) && SpinOk(s, u) {
    }
  }

  lemma {:induction false} ExecKeeps(s: State, run: seq<(Tid, Action)>, spins: bool)
    requires Inv(s)
    ensures Inv(Exec(s, run, spins))
    decreases |run|
  {
    if run != [] {
      DoKeeps(s, run[0].0, run[0].1, spins);
      ExecKeeps(Do(s, run[0].0, run[0].1, spins), run[1..], spins);
    }
  }

  // ---- what holds after every run ----

  /** The state after a run from a fresh event. */
  function Reached(n: nat, isSet: bool, run: seq<(Tid, Action)>, spins: bool): State {
    Exec(Initial(n, isSet), run, spins)
  }

  /** Someone who has this block will unpark it: with a private list, or as holder of the lock bit of a set event. */
  predicate Promised(s: State, x: Tid)
    requires x < |s.threads|
  {
    || (s.threads[x].at.With? && s.threads[x].at.owner < |s.threads| && s.threads[s.threads[x].at.owner].pc.Unpark?
        && x in s.threads[s.threads[x].at.owner].pc.list)
    || (s.signalled && s.lock.HeldBy? && s.lock.owner < |s.threads|
        && (x in s.list || x in Owned(s.threads[s.lock.owner].pc)))
  }

  /**
   A set loses no waiter: who was in the list before the last set that succeeded, and is
   still blocked, will be unparked by a thread that has the block in its hands.
   */
  lemma SetLosesNobody(n: nat, isSet: bool, run: seq<(Tid, Action)>, spins: bool, x: Tid)
    requires x < |Reached(n, isSet, run, spins).threads|
    requires var s := Reached(n, isSet, run, spins);
      s.threads[x].pc.Blocked? && s.threads[x].parker.Open? && (s.signalled || s.threads[x].epoch < s.epoch)
    ensures Promised(Reached(n, isSet, run, spins), x)
  {
    var s := Reached(n, isSet, run, spins);
    InitialInv(n, isSet);
    ExecKeeps(Initial(n, isSet), run, spins);
    assert LinkOk(s.threads[x]) && EpochOk(s, x) && SpinOk(s, x);
    PlacedInList(s);
    if s.threads[x].at.With? {
      PlacedInHands(s, s.threads[x].at.owner);
      assert OwnerOk(s, s.threads[x].at.owner);
    }
  }

  /** No thread is in the middle of an operation. */
  predicate AtRest(s: State) {
    forall t :: 0 <= t < |s.threads| ==> s.threads[t].pc.Idle? || (s.threads[t].pc.Blocked? && s.threads[t].parker.Open?)
  }

  lemma RestingHandsAreEmpty(s: State, x: Tid)
    requires Inv(s) && AtRest(s) && x < |s.threads|
    ensures s.lock.Free? && !s.threads[x].at.With?
  {
    assert SpinOk(s, x);
    forall u | 0 <= u < |s.threads| ensures s.threads[x].at != With(u) && s.lock != HeldBy(u) {
      assert OwnerOk(s, u);
      PlacedInHands(s, u);
    }
  }

  /** When no thread is in the middle of an operation, blocked threads are in the list of an event that is not set. */
  lemma RestingWaitersAreListed(n: nat, isSet: bool, run: seq<(Tid, Action)>, spins: bool, x: Tid)
    requires AtRest(Reached(n, isSet, run, spins)) && x < |Reached(n, isSet, run, spins).threads|
    ensures var s := Reached(n, isSet, run, spins);
      && s.lock.Free? && (x in s.list <==> s.threads[x].pc.Blocked?)
      && (s.threads[x].pc.Blocked? ==> !s.signalled && s.threads[x].epoch == s.epoch)
  {
    var s := Reached(n, isSet, run, spins);
    InitialInv(n, isSet);
    ExecKeeps(Initial(n, isSet), run, spins);
    RestingHandsAreEmpty(s, x);
    assert LinkOk(s.threads[x]) && EpochOk(s, x);
    PlacedInList(s);
  }

  /** Each block that is linked is in exactly one place, and there once. */
  lemma BlockIsInOnePlace(n: nat, isSet: bool, run: seq<(Tid, Action)>, spins: bool, x: Tid, u: Tid, v: Tid)
    requires var m := |Reached(n, isSet, run, spins).threads|; x < m && u < m && v < m
    ensures var s := Reached(n, isSet, run, spins);
      && Distinct(s.list) && Distinct(Owned(s.threads[u].pc))
      && !(x in s.list && x in Owned(s.threads[u].pc))
      && (x in Owned(s.threads[u].pc) && x in Owned(s.threads[v].pc) ==> u == v)
      && (s.threads[x].pc.Blocked? && s.threads[x].parker.Open? ==> x in s.list || exists w :: 0 <= w < |s.threads| && x in Owned(s.threads[w].pc))
      && (Unlinking(s.threads[x].pc) && !s.threads[x].unlinked ==> x in s.list || exists w :: 0 <= w < |s.threads| && x in Owned(s.threads[w].pc))
  {
    var s := Reached(n, isSet, run, spins);
    InitialInv(n, isSet);
    ExecKeeps(Initial(n, isSet), run, spins);
    PlacedInList(s);
    PlacedInHands(s, u);
    PlacedInHands(s, v);
    assert LinkOk(s.threads[x]) && SpinOk(s, x);
    if s.threads[x].at.With? {
      PlacedInHands(s, s.threads[x].at.owner);
    }
  }

  /** An event that is set and not locked has an empty list, and at most one thread holds the lock bit. */
  lemma SetMeansEmpty(n: nat, isSet: bool, run: seq<(Tid, Action)>, spins: bool, u: Tid, v: Tid)
    requires var m := |Reached(n, isSet, run, spins).threads|; u < m && v < m
    ensures var s := Reached(n, isSet, run, spins);
      && (s.signalled && s.lock.Free? ==> s.list == [])
      && (Holding(s.threads[u].pc) && Holding(s.threads[v].pc) ==> u == v)
      && (s.threads[u].pc.Deliver? ==> s.signalled && s.lock == HeldBy(u) && s.list == s.threads[u].pc.seen)
  {
    var s := Reached(n, isSet, run, spins);
    InitialInv(n, isSet);
    ExecKeeps(Initial(n, isSet), run, spins);
    assert OwnerOk(s, u) && OwnerOk(s, v);
  }

  /** A thread that spins until its block is unlinked does not spin for ever: an unparking thread has the block. */
  lemma SpinnersBlockIsUnparked(n: nat, isSet: bool, run: seq<(Tid, Action)>, spins: bool, x: Tid)
    requires var s := Reached(n, isSet, run, spins); x < |s.threads| && s.threads[x].pc.Spin? && !s.threads[x].unlinked
    ensures var s := Reached(n, isSet, run, spins);
      exists u :: 0 <= u < |s.threads| && s.threads[u].pc.Unpark? && x in s.threads[u].pc.list
  {
    var s := Reached(n, isSet, run, spins);
    InitialInv(n, isSet);
    ExecKeeps(Initial(n, isSet), run, spins);
    assert LinkOk(s.threads[x]) && SpinOk(s, x);
    PlacedInHands(s, s.threads[x].at.owner);
  }

  /** The swap that looks at the head alone never drops another waiter. */
  lemma FastUnlinkDropsNobody(n: nat, isSet: bool, run: seq<(Tid, Action)>, spins: bool, x: Tid)
    requires var s := Reached(n, isSet, run, spins);
      x < |s.threads| && s.threads[x].pc.UnlinkCas? && s.list != [] && s.list[0] == x
    ensures Reached(n, isSet, run, spins).list == [x]
  {
    InitialInv(n, isSet);
    ExecKeeps(Initial(n, isSet), run, spins);
    CasDropsNobody(Reached(n, isSet, run, spins), x);
  }
}
