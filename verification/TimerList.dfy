/**
 The raw timer list: sorted by deadline, each timer storing only its delay behind the one
 before it, and closed by a head whose delay is a sentinel. The base of a list is the
 absolute time that its base time stands for; no method tests it.
 */
module TimerList {
  import opened Deadlines

  class List {
    var timers: seq<Entry>      // from TimerListHead.Next to the last timer
    var headDelay: int          // TimerListHead.Delay
    var fired: seq<Id>          // the chain from FiredListHead
    var purged: set<Id>         // timers whose Next field points to themselves
    var baseTime: int           // ULONG
    var base: int               // the absolute time that baseTime stands for
    ghost var asleep: bool      // the timer thread's parker can be locked: it parks, or is about to
    ghost var plan: int         // the absolute time until which it parks

    ghost predicate Consistent()
      reads this
    {
      && Good(timers, base)
      && Apart(timers, fired, purged)
      && headDelay == SENTINEL
      && 0 <= base && baseTime == base % TICKS
    }

    /** The limit timer is marked as purged, or stands in front since the base time of the last round. */
    ghost predicate LimitPlaced()
      reads this
    {
      && (LIMIT in purged || Listed(timers, LIMIT))
      && LimitFirst(timers) && (Listed(timers, LIMIT) ==> plan == base + MAXIMUM_SLEEP_TIME)
    }

    ghost predicate Valid()
      reads this
    {
      Consistent() && LimitPlaced()
    }

    /** The timer thread sleeps past a deadline. */
    ghost predicate Oversleeps()
      reads this
    {
      asleep && Early(Dues(timers), plan)
    }

    /** The timer thread has not run yet, and its parker cannot be locked before it does. */
    constructor (now: int, clock: int)
      requires 0 <= clock && now == clock % TICKS
      ensures Valid() && timers == [] && fired == [] && purged == {LIMIT} && base == clock && !asleep
    {
      timers, headDelay, fired, purged, baseTime, base := [], SENTINEL, [], {LIMIT}, now, clock;
      asleep, plan := false, clock;
    }

    function Where(): Places
      reads this
    {
      Places(timers, fired, purged)
    }

    /** The loop of AdjustBaseTime. */
    method TakeOffExpired(slide: int, losers: set<Id>)
      requires 0 <= slide
      modifies `timers, `fired, `purged
      ensures Where() == Slid(old(Where()), slide, losers)
    {
      var sliding := slide;
      while sliding != 0 && timers != []
        invariant 0 <= sliding
        invariant Slid(Where(), sliding, losers) == Slid(old(Where()), slide, losers)
        decreases |timers|
      {
        var t := timers[0];
        if t.delay > sliding {
          timers := [t.(delay := t.delay - sliding)] + timers[1..];
          break;
        }
        sliding := sliding - t.delay;
        timers := timers[1..];
        if Wins(t.id, losers) {
          fired := [t.id] + fired;
        } else {
          purged := purged + {t.id};
        }
      }
    }

    /**
     Moves the base time to now. The timers taken off are fired, unless their parker turns
     out to be locked (losers), in which case they are marked as purged.
     */
    method AdjustBaseTime(now: int, clock: int, losers: set<Id>)
      requires Consistent() && base <= clock < base + TICKS && now == clock % TICKS
      modifies `timers, `fired, `purged, `baseTime, `base
      ensures Consistent() && base == clock && (Below(old(timers), old(base)) ==> Below(timers, base))
      ensures Where() == Slid(old(Where()), clock - old(base), losers)
      ensures Adjusted(old(Where()), Where(), old(timers)[..TakenOff(old(timers), clock - old(base))], clock, losers)
    {
      hide Slid, TakenOff, Good, Below, Apart, Adjusted;
      Elapsed(base, clock);
      SlideAdjusts(Where(), base, clock - base, losers);
      TakeOffExpired((now - baseTime) % TICKS, losers);
      baseTime := now;
      base := clock;
    }

    /** The delay of the timer at a position of the circular list, where the last position is the head's. */
    function DelayAt(k: nat): int
      requires k <= |timers|
      reads this
    {
      if k < |timers| then timers[k].delay else headDelay
    }

    /** Takes an amount off the delay at a position. */
    method TakeOffDelay(k: nat, amount: int)
      requires k <= |timers|
      modifies `timers, `headDelay
      ensures k < |old(timers)| ==> timers == old(timers)[k := old(timers)[k].(delay := old(timers)[k].delay - amount)]
      ensures k < |old(timers)| ==> headDelay == old(headDelay)
      ensures k == |old(timers)| ==> timers == old(timers) && headDelay == old(headDelay) - amount
    {
      if k < |timers| {
        timers := timers[k := timers[k].(delay := timers[k].delay - amount)];
      } else {
        headDelay := headDelay - amount;
      }
    }

    /**
     The search for the place of a timer. It ends at the head, unless the delay is the
     sentinel and all others are zero; then it goes once around.
     */
    method FindPlace(e: Entry) returns (k: nat, t: Entry)
      requires 0 <= e.delay <= headDelay == SENTINEL
      requires forall i :: 0 <= i < |timers| ==> timers[i].delay >= 0
      ensures k <= |timers| && 0 <= t.delay < DelayAt(k)
      ensures var r := Inserted(timers, Arriving(timers, e));
        if k == |timers| then r == timers + [t]
        else r == timers[..k] + [t] + timers[k := timers[k].(delay := timers[k].delay - t.delay)][k..]
    {
      hide Inserted;
      ghost var again := false;
      k, t := 0, e;
      while DelayAt(k) <= t.delay
        invariant k <= |timers| && 0 <= t.delay <= e.delay
        invariant !again ==> t == e.(delay := t.delay) && Inserted(timers, e) == timers[..k] + Inserted(timers[k..], t)
        invariant !again && t.delay == SENTINEL ==> forall i :: 0 <= i < k ==> timers[i].delay == 0
        invariant !again && NoDelays(timers) ==> t.delay == e.delay
        invariant again ==> e.delay == SENTINEL && NoDelays(timers) && t == Arriving(timers, e)
        decreases if again then 0 else 1, |timers| - k
      {
        if k < |timers| {
          SearchGoesOn(timers, k, t);
          t := t.(delay := t.delay - timers[k].delay);
          k := k + 1;
        } else {
          t := t.(delay := t.delay - headDelay, deadline := t.deadline - headDelay, late := true);
          k, again := 0, true;
        }
      }
      if again {
        InsertedLast(timers, t);
      } else {
        SearchEnds(timers, k, t);
      }
    }

    /** Inserts a timer at its place, and takes its delay off the timer, or the head, behind it. */
    method Insert(e: Entry)
      requires 0 <= e.delay <= headDelay == SENTINEL
      requires forall i :: 0 <= i < |timers| ==> timers[i].delay >= 0
      modifies `timers, `headDelay
      ensures timers == Inserted(old(timers), Arriving(old(timers), e)) && headDelay == SENTINEL
    {
      hide Inserted, Arriving;
      var k, t := FindPlace(e);
      TakeOffDelay(k, t.delay);
      timers := timers[..k] + [t] + timers[k..];
      headDelay := SENTINEL;
    }

    /**
     Puts a timer into the list. The caller says whether the parker of the timer thread can
     be locked; the thread is woken when it can and the new timer is the first one.
     */
    method SetRawTimerWorker(id: Id, delay: int, parkerOpen: bool) returns (wake: bool)
      requires Valid() && 0 <= delay <= SENTINEL && (parkerOpen ==> asleep)
      requires id != LIMIT && !Listed(timers, id) && id !in fired
      modifies `timers, `headDelay, `purged, `asleep
      ensures Valid() && purged == old(purged) - {id}
      ensures old(Below(timers, base)) && delay < SENTINEL ==> Below(timers, base)
      ensures forall i :: 0 <= i < |timers| && timers[i].id == id ==> timers[i].fireTime == (base + delay) % TICKS
      ensures var at := if delay == SENTINEL && NoDelays(old(timers)) then base else base + delay;
        && Dues(timers) == InsertDue(old(Dues(timers)), Due(id, at))
        && (Oversleeps() <==> asleep && (old(Early(Dues(timers), plan)) || (at < plan && old(Listed(timers, LIMIT)))))
      ensures wake <==> parkerOpen && timers != [] && timers[0].id == id
      ensures (asleep <==> parkerOpen && !wake) && (wake ==> !Listed(timers, LIMIT))
      ensures Listed(timers, LIMIT) <==> old(Listed(timers, LIMIT))
    {
      hide Inserted, Dues, Early, Good, Apart, LimitFirst;
      var e := Entry(id, delay, (baseTime + delay) % TICKS, base + delay, false);
      SetOutcome(timers, base, e, fired, purged, plan);
      DelaysOfGood(timers, base);
      Insert(e);
      purged := purged - {id};
      wake := timers[0].id == id && parkerOpen;
      asleep := parkerOpen && !wake;
    }

    /** Sets a timer to fire after a delay; the delay that serves as sentinel is refused. */
    method SetRawTimer(id: Id, delay: int, now: int, clock: int, losers: set<Id>, parkerOpen: bool) returns (ok: bool, wake: bool)
      requires Valid() && 0 <= delay < TICKS && (parkerOpen ==> asleep)
      requires base <= clock < base + TICKS && now == clock % TICKS
      requires id != LIMIT && !Listed(timers, id) && id !in fired
      modifies this
      ensures Valid() && (ok <==> delay != SENTINEL) && plan == old(plan)
      ensures !ok ==> timers == old(timers) && fired == old(fired) && purged == old(purged)
      ensures !ok ==> base == old(base) && asleep == old(asleep) && !wake
      ensures old(Below(timers, base)) ==> Below(timers, base)
      ensures ok ==> base == clock && (wake <==> parkerOpen && timers != [] && timers[0].id == id) && (asleep <==> parkerOpen && !wake)
      ensures ok && old(Listed(timers, LIMIT)) && old(base) == clock ==> !wake
      ensures ok ==> forall i :: 0 <= i < |timers| && timers[i].id == id ==> timers[i].fireTime == (clock + delay) % TICKS
      ensures ok ==> var slid := Slid(old(Where()), clock - old(base), losers).timers;
        exists gone :: OnTime(old(timers), gone, slid, clock) && fired == Won(gone, losers) + old(fired)
                       && purged == old(purged) + Lost(gone, losers) - {id}
      ensures ok ==> var slid := Slid(old(Where()), clock - old(base), losers).timers;
        && Dues(timers) == InsertDue(Dues(slid), Due(id, clock + delay))
        && (Oversleeps() <==> asleep && (Early(Dues(slid), plan) || old(Hides(clock, clock + delay))))
      ensures ok && parkerOpen && !old(Oversleeps()) ==> (Oversleeps() <==> old(Hides(clock, clock + delay)))
    {
      hide Slid, TakenOff, Dues, Good, Below, OnTime, Early, Won, Lost;
      if delay == SENTINEL {
        return false, false;
      }
      SlideDropsLimit(Where(), base, clock - base, losers);
      SlideAddsNoneEarly(Where(), base, clock - base, losers, plan);
      ghost var gone := timers[..TakenOff(timers, clock - base)];
      AdjustBaseTime(now, clock, losers);
      wake := SetRawTimerWorker(id, delay, parkerOpen);
      ok := true;
    }

    /** The limit timer still stands in front of a timer that is due before its time is over. */
    ghost predicate Hides(clock: int, at: int)
      reads this
    {
      Listed(timers, LIMIT) && clock == base && at < clock + MAXIMUM_SLEEP_TIME
    }

    /** Re-arms a timer a period after the deadline that its fire time stands for. */
    method SetPeriodicRawTimer(id: Id, fireTime: int, last: int, period: int, now: int, clock: int, losers: set<Id>, parkerOpen: bool)
      returns (ok: bool, wake: bool)
      requires Valid() && 0 <= period < TICKS && (parkerOpen ==> asleep)
      requires base <= clock < base + TICKS && now == clock % TICKS
      requires 0 <= last <= clock < last + period + TICKS && fireTime == last % TICKS
      requires id != LIMIT && !Listed(timers, id) && id !in fired
      modifies this
      ensures Valid() && (ok <==> period != SENTINEL) && plan == old(plan)
      ensures !ok ==> timers == old(timers) && fired == old(fired) && purged == old(purged)
      ensures !ok ==> base == old(base) && asleep == old(asleep) && !wake
      ensures old(Below(timers, base)) && clock != last + period + 1 ==> Below(timers, base)
      ensures ok ==> base == clock && (wake <==> parkerOpen && timers != [] && timers[0].id == id) && (asleep <==> parkerOpen && !wake)
      ensures ok && old(Listed(timers, LIMIT)) && old(base) == clock ==> !wake
      ensures ok ==> var slid := Slid(old(Where()), clock - old(base), losers).timers;
        exists gone :: OnTime(old(timers), gone, slid, clock) && fired == Won(gone, losers) + old(fired)
                       && purged == old(purged) + Lost(gone, losers) - {id}
      ensures ok ==> var slid := Slid(old(Where()), clock - old(base), losers).timers;
        var at := RearmDue(last, period, clock, NoDelays(slid));
        && Dues(timers) == InsertDue(Dues(slid), Due(id, at))
        && (forall i :: 0 <= i < |timers| && timers[i].id == id ==>
              timers[i].fireTime == Rearmed(last, period, clock, NoDelays(slid)) % TICKS)
        && (Oversleeps() <==> asleep && (Early(Dues(slid), plan) || old(Hides(clock, at))))
    {
      hide Slid, TakenOff, Dues, Good, Below, OnTime, Early, Won, Lost;
      if period == SENTINEL {
        return false, false;
      }
      SlideDropsLimit(Where(), base, clock - base, losers);
      SlideAddsNoneEarly(Where(), base, clock - base, losers, plan);
      ghost var gone := timers[..TakenOff(timers, clock - base)];
      AdjustBaseTime(now, clock, losers);
      var delay := (fireTime + period - baseTime) % TICKS;
      assert delay == RearmDelay(last, period, clock);
      RearmedAt(last, period, clock, NoDelays(timers));
      hide RearmDelay, Rearmed;
      wake := SetRawTimerWorker(id, delay, parkerOpen);
      ok := true;
    }

    /** Takes the timer at a position out of the list; its delay goes to the timer, or the head, behind it. */
    method Remove(i: nat)
      requires i < |timers|
      modifies `timers, `headDelay
      ensures timers == Unlinked(old(timers), i) && headDelay == SENTINEL
    {
      var t := timers[i];
      TakeOffDelay(i + 1, -t.delay);
      timers := timers[..i] + timers[i + 1..];
      headDelay := SENTINEL;
    }

    /** Unlinks a cancelled timer, which the timer thread may have taken off the list meanwhile. */
    method UnlinkRawTimer(id: Id)
      requires Valid() && id != LIMIT && (Listed(timers, id) || id in purged)
      modifies `timers, `headDelay
      ensures Valid() && !Listed(timers, id) && (old(Below(timers, base)) ==> Below(timers, base))
      ensures Dues(timers) == RemoveDue(old(Dues(timers)), id)
      ensures old(id in purged) ==> timers == old(timers)
    {
      hide Dues, Unlinked;
      if id !in purged {
        var i :| 0 <= i < |timers| && timers[i].id == id;
        UnlinkKeepsGood(timers, base, i);
        UnlinkLists(timers, i);
        UnlinkKeepsDeadlines(timers, base, i);
        Remove(i);
      } else {
        RemoveAbsent(timers, id);
      }
    }

    /** Takes the limit timer off the list, if it is there. */
    method RemoveLimit()
      requires Valid()
      modifies `timers, `headDelay
      ensures Consistent() && !Listed(timers, LIMIT)
      ensures Dues(timers) == old(Dues(timers)) && (old(Below(timers, base)) ==> Below(timers, base))
    {
      hide Dues, Unlinked;
      if LIMIT !in purged {
        var i :| 0 <= i < |timers| && timers[i].id == LIMIT;
        UnlinkKeepsGood(timers, base, i);
        UnlinkLists(timers, i);
        UnlinkKeepsDeadlines(timers, base, i);
        NoLimitDue(timers);
        Remove(i);
      }
    }

    /**
     Computes the time to sleep, and puts the limit timer in front when the first timer is
     further away. The subtraction goes to the limit timer itself, which is the first
     timer by then, so that its delay is zero and the other delays still hold.
     */
    method PlaceLimit() returns (delay: int)
      requires Consistent() && !Listed(timers, LIMIT)
      modifies `timers, `headDelay, `purged, `asleep, `plan
      ensures Valid() && Dues(timers) == old(Dues(timers)) && (old(Below(timers, base)) ==> Below(timers, base))
      ensures 0 <= delay <= MAXIMUM_SLEEP_TIME && asleep && plan == base + delay && !Oversleeps()
      ensures delay < MAXIMUM_SLEEP_TIME ==> Dues(timers) != [] && Dues(timers)[0].at == base + delay
      ensures Listed(timers, LIMIT) <==> Dues(timers) == [] || Dues(timers)[0].at > base + MAXIMUM_SLEEP_TIME
      ensures purged - {LIMIT} == old(purged) - {LIMIT}
    {
      NoNegativeDelay(timers, base);
      SleepIsSafe(timers, base);
      delay := DelayAt(0);
      if delay > MAXIMUM_SLEEP_TIME {
        ghost var was := timers;
        timers := [Entry(LIMIT, MAXIMUM_SLEEP_TIME, 0, base, false)] + timers;
        purged := purged - {LIMIT};
        TakeOffDelay(0, MAXIMUM_SLEEP_TIME);
        headDelay := SENTINEL;
        delay := MAXIMUM_SLEEP_TIME;
        assert timers == [Entry(LIMIT, 0, 0, base, false)] + was;
        LimitInFront(was, base);
      } else {
        assert Listed(timers, timers[0].id);
        purged := purged + {LIMIT};
      }
      asleep, plan := true, base + delay;
    }

    /**
     The part of the timer thread's round that runs under the lock: it gives back the
     batch to fire and the time to sleep.
     */
    method TimerThreadRound(now: int, clock: int, losers: set<Id>) returns (batch: seq<Id>, delay: int)
      requires Valid() && base <= clock < base + TICKS && now == clock % TICKS
      modifies this
      ensures Valid() && base == clock && fired == [] && (old(Below(timers, base)) ==> Below(timers, base))
      ensures 0 <= delay <= MAXIMUM_SLEEP_TIME && asleep && plan == clock + delay && !Oversleeps()
      ensures delay < MAXIMUM_SLEEP_TIME ==> Dues(timers) != [] && Dues(timers)[0].at == clock + delay
      ensures Listed(timers, LIMIT) <==> Dues(timers) == [] || Dues(timers)[0].at > clock + MAXIMUM_SLEEP_TIME
      ensures exists gone :: OnTime(old(timers), gone, timers, clock) && batch == Won(gone, losers) + old(fired)
                             && purged - {LIMIT} == old(purged) + Lost(gone, losers) - {LIMIT}
    {
      hide Slid, TakenOff, Dues, Good, Below, Won, Lost, Early;
      RemoveLimit();
      ghost var gone := timers[..TakenOff(timers, clock - base)];
      AdjustBaseTime(now, clock, losers);
      batch := fired;
      fired := [];
      delay := PlaceLimit();
      assert OnTime(old(timers), gone, timers, clock);
    }
  }

  /** A round with nothing to do, and a timer for 10 ticks set in the same tick: the thread sleeps for 30. */
  method SetBehindLimit(now: int, clock: int) returns (list: List)
    requires 0 <= clock && now == clock % TICKS
    ensures fresh(list) && list.Valid() && list.Oversleeps()
    ensures list.plan == clock + 30 && Dues(list.timers) == [Due(1, clock + 10)]
  {
    hide Slid, TakenOff, Dues, Good, Below, Won, Lost, Early, InsertDue, Apart, LimitFirst, NoDelays;
    list := new List(now, clock);
    assert Dues([]) == [] by {
      OnlyDue(list.Where(), Due(1, 0), 0);
    }
    var batch, delay := list.TimerThreadRound(now, clock, {});
    OnlyDue(list.Where(), Due(1, clock + 10), list.plan);
    if Listed(list.timers, 1) {
      OthersAreDue(list.timers, 1);
    }
    var ok, wake := list.SetRawTimer(1, 10, now, clock, {}, true);
  }
}
