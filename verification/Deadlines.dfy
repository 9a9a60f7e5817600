/**
 The entries of the raw timer list, which store only their distance in 32-bit ticks from
 the one before, against the plain list of absolute deadlines that they stand for.

 Absolute time is a natural number of ticks that never goes back; the code sees it
 modulo 2^32. The deadline of an entry is an absolute time that no method tests.
 */
module Deadlines {

  const TICKS: int := 0x1_0000_0000
  const SENTINEL: int := TICKS - 1
  const MAXIMUM_SLEEP_TIME: int := 30

  type Id = nat

  /** The limit timer has no parker; it only bounds the sleep of the timer thread. */
  const LIMIT: Id := 0

  /**
   A raw timer in the list; delay and fireTime are ULONGs. A timer is late if it was
   re-armed one tick after its deadline while all delays in the list were zero.
   */
  datatype Entry = Entry(id: Id, delay: int, fireTime: int, deadline: int, late: bool)

  /** The entries' delays encode their deadlines, counted from the given base. */
  predicate Spaced(es: seq<Entry>, base: int) {
    es == [] || (es[0].delay == es[0].deadline - base && es[0].delay >= 0 && Spaced(es[1..], es[0].deadline))
  }

  /** No deadline is so far away that a sum of delays could wrap. */
  predicate Near(es: seq<Entry>, base: int) {
    forall i :: 0 <= i < |es| ==> es[i].deadline - base <= SENTINEL
  }

  /** No deadline is so far away that a delay could be taken for the sentinel. */
  predicate Below(es: seq<Entry>, base: int) {
    forall i :: 0 <= i < |es| ==> es[i].deadline - base < SENTINEL
  }

  /** The fire time is the deadline modulo 2^32, or the tick before it for a late timer. */
  predicate Dated(es: seq<Entry>) {
    forall i :: 0 <= i < |es| && es[i].id != LIMIT ==> es[i].fireTime == FireTime(es[i])
  }

  function FireTime(e: Entry): int {
    (e.deadline - if e.late then 1 else 0) % TICKS
  }

  predicate NoDelays(es: seq<Entry>) {
    forall i :: 0 <= i < |es| ==> es[i].delay == 0
  }

  /** The limit timer stands in front, if it is in the list, and has no delay. */
  predicate LimitFirst(es: seq<Entry>) {
    forall i :: 0 <= i < |es| && es[i].id == LIMIT ==> i == 0 && es[i].delay == 0
  }

  predicate Distinct(es: seq<Entry>) {
    forall i, j :: 0 <= i < j < |es| ==> es[i].id != es[j].id
  }

  predicate Good(es: seq<Entry>, base: int) {
    Spaced(es, base) && Near(es, base) && Dated(es) && Distinct(es)
  }

  function DelaySum(es: seq<Entry>): int {
    if es == [] then 0 else es[0].delay + DelaySum(es[1..])
  }

  /** Entry i is due at the base time plus the delays up to and including its own, and no sum of delays wraps. */
  lemma {:induction false} DeadlinesAreSums(es: seq<Entry>, base: int, i: nat)
    requires Spaced(es, base) && i < |es|
    ensures es[i].deadline == base + DelaySum(es[..i + 1])
    ensures Near(es, base) ==> 0 <= DelaySum(es[..i + 1]) < TICKS
    ensures Below(es, base) ==> DelaySum(es[..i + 1]) < SENTINEL
  {
    assert es[..i + 1][1..] == es[1..][..i];
    if i == 0 {
      assert es[..1][1..] == [];
    } else {
      DeadlinesAreSums(es[1..], es[0].deadline, i - 1);
      NotBefore(es, base, i);
    }
  }

  /** The list is sorted by deadline, from the base on. */
  lemma {:induction false} NotBefore(es: seq<Entry>, base: int, j: nat)
    requires Spaced(es, base) && j < |es|
    ensures base <= es[0].deadline <= es[j].deadline
  {
    if j > 0 {
      NotBefore(es[1..], es[0].deadline, j - 1);
    }
  }

  lemma {:induction false} NoNegativeDelay(es: seq<Entry>, base: int)
    requires Spaced(es, base)
    ensures forall i :: 0 <= i < |es| ==> es[i].delay >= 0
  {
    if es != [] {
      NoNegativeDelay(es[1..], es[0].deadline);
      assert forall i :: 1 <= i < |es| ==> es[i] == es[1..][i - 1];
    }
  }

  lemma DelaysOfGood(es: seq<Entry>, base: int)
    requires Good(es, base)
    ensures forall i :: 0 <= i < |es| ==> es[i].delay >= 0
  {
    NoNegativeDelay(es, base);
  }

  lemma {:induction false} SortedByDeadline(es: seq<Entry>, base: int, i: nat, j: nat)
    requires Spaced(es, base) && i <= j < |es|
    ensures es[i].deadline <= es[j].deadline
  {
    if i == 0 {
      NotBefore(es, base, j);
    } else {
      SortedByDeadline(es[1..], es[0].deadline, i - 1, j - 1);
    }
  }

  // ---- the list of deadlines ----

  datatype Due = Due(id: Id, at: int)

  /** The real timers with their absolute deadlines. */
  function Dues(es: seq<Entry>): seq<Due> {
    if es == [] then []
    else if es[0].id == LIMIT then Dues(es[1..])
    else [Due(es[0].id, es[0].deadline)] + Dues(es[1..])
  }

  lemma DuesCons(es: seq<Entry>)
    requires es != []
    ensures es[0].id == LIMIT ==> Dues(es) == Dues(es[1..])
    ensures es[0].id != LIMIT ==> Dues(es) != [] && Dues(es)[0] == Due(es[0].id, es[0].deadline) && Dues(es)[1..] == Dues(es[1..])
  {
  }

  lemma {:induction false} SameDues(es: seq<Entry>, es': seq<Entry>)
    requires |es| == |es'| && forall i :: 0 <= i < |es| ==> es'[i].id == es[i].id && es'[i].deadline == es[i].deadline
    ensures Dues(es) == Dues(es')
  {
    if es != [] {
      SameDues(es[1..], es'[1..]);
    }
  }

  /** Insertion by deadline, after those that are due at the same time. */
  function InsertDue(ds: seq<Due>, d: Due): seq<Due> {
    if ds == [] || ds[0].at > d.at then [d] + ds else [ds[0]] + InsertDue(ds[1..], d)
  }

  function RemoveDue(ds: seq<Due>, id: Id): seq<Due> {
    if ds == [] then []
    else if ds[0].id == id then RemoveDue(ds[1..], id)
    else [ds[0]] + RemoveDue(ds[1..], id)
  }

  // ---- what the methods make of the entries ----

  /** How many entries are taken off when time slides forward. */
  function TakenOff(es: seq<Entry>, sliding: int): (k: nat)
    ensures k <= |es|
  {
    if sliding == 0 || es == [] || es[0].delay > sliding then 0
    else 1 + TakenOff(es[1..], sliding - es[0].delay)
  }

  /** The entries that remain when time slides forward. */
  function Remaining(es: seq<Entry>, sliding: int): seq<Entry> {
    if sliding == 0 || es == [] then es
    else if es[0].delay > sliding then [es[0].(delay := es[0].delay - sliding)] + es[1..]
    else Remaining(es[1..], sliding - es[0].delay)
  }

  /** Whether the timer thread gets to cancel the timer's parker; the limit timer has none. */
  predicate Wins(id: Id, losers: set<Id>) {
    id != LIMIT && id !in losers
  }

  /** The timers taken off whose parkers are cancelled, newest first. */
  function Won(es: seq<Entry>, losers: set<Id>): seq<Id> {
    if es == [] then []
    else if Wins(es[0].id, losers) then Won(es[1..], losers) + [es[0].id]
    else Won(es[1..], losers)
  }

  /** The other timers taken off. */
  function Lost(es: seq<Entry>, losers: set<Id>): set<Id> {
    if es == [] then {}
    else if Wins(es[0].id, losers) then Lost(es[1..], losers)
    else Lost(es[1..], losers) + {es[0].id}
  }

  datatype Places = Places(timers: seq<Entry>, fired: seq<Id>, purged: set<Id>)

  /** Takes the first timer off. */
  function TakeFirst(p: Places, losers: set<Id>): Places
    requires p.timers != []
  {
    var id := p.timers[0].id;
    if Wins(id, losers) then Places(p.timers[1..], [id] + p.fired, p.purged)
    else Places(p.timers[1..], p.fired, p.purged + {id})
  }

  /** What the loop over expired timers comes to. */
  function Slid(p: Places, sliding: int, losers: set<Id>): Places
    decreases |p.timers|
  {
    if sliding == 0 || p.timers == [] then p
    else if p.timers[0].delay > sliding then
      p.(timers := [p.timers[0].(delay := p.timers[0].delay - sliding)] + p.timers[1..])
    else
      Slid(TakeFirst(p, losers), sliding - p.timers[0].delay, losers)
  }

  /** The entries with a new one at its place, which takes its delay off the one that follows it. */
  function Inserted(es: seq<Entry>, e: Entry): seq<Entry> {
    if es == [] then [e]
    else if es[0].delay > e.delay then [e, es[0].(delay := es[0].delay - e.delay)] + es[1..]
    else [es[0]] + Inserted(es[1..], e.(delay := e.delay - es[0].delay))
  }

  /** The entries without the one at index i, whose delay goes to the one that follows it. */
  function Unlinked(es: seq<Entry>, i: nat): seq<Entry>
    requires i < |es|
  {
    if i + 1 == |es| then es[..i]
    else es[..i] + [es[i + 1].(delay := es[i + 1].delay + es[i].delay)] + es[i + 2..]
  }

  // ---- the delta list against the list of deadlines ----

  /** Sliding leaves a suffix of the list, with the same deadlines, counted from the new base. */
  lemma {:induction false} SlideKeepsDeadlines(es: seq<Entry>, base: int, sliding: int)
    requires Spaced(es, base) && sliding >= 0
    ensures var k, rest := TakenOff(es, sliding), Remaining(es, sliding);
      && Spaced(rest, base + sliding) && |rest| == |es| - k
      && (forall i :: 0 <= i < |rest| ==> rest[i] == es[k + i].(delay := rest[i].delay))
  {
    if sliding == 0 || es == [] {
    } else if es[0].delay > sliding {
      assert Remaining(es, sliding)[1..] == es[1..];
    } else {
      var k, rest := TakenOff(es, sliding), Remaining(es, sliding);
      SlideKeepsDeadlines(es[1..], es[0].deadline, sliding - es[0].delay);
      assert rest == Remaining(es[1..], sliding - es[0].delay) && k == 1 + TakenOff(es[1..], sliding - es[0].delay);
      hide Remaining, TakenOff, Spaced;
      forall i | 0 <= i < |rest| ensures rest[i] == es[k + i].(delay := rest[i].delay) {
        assert es[k + i] == es[1..][k - 1 + i];
      }
    }
  }

  lemma {:induction false} TakenOffAreDue(es: seq<Entry>, base: int, sliding: int, i: nat)
    requires Spaced(es, base) && sliding >= 0 && i < TakenOff(es, sliding)
    ensures es[i].deadline <= base + sliding
  {
    if i > 0 {
      TakenOffAreDue(es[1..], es[0].deadline, sliding - es[0].delay, i - 1);
    }
  }

  /** Timers never fire early, and none is left overdue. */
  lemma SlideIsExact(es: seq<Entry>, base: int, sliding: int)
    requires Spaced(es, base) && sliding >= 0
    ensures var k, rest := TakenOff(es, sliding), Remaining(es, sliding);
      && (forall i :: 0 <= i < k ==> es[i].deadline <= base + sliding)
      && (forall i :: 0 <= i < |rest| ==> rest[i].deadline >= base + sliding)
      && Dues(rest) == Dues(es[k..])
  {
    var k, rest := TakenOff(es, sliding), Remaining(es, sliding);
    SlideKeepsDeadlines(es, base, sliding);
    SameDues(es[k..], rest);
    forall i | 0 <= i < k ensures es[i].deadline <= base + sliding {
      TakenOffAreDue(es, base, sliding, i);
    }
    forall i | 0 <= i < |rest| ensures rest[i].deadline >= base + sliding {
      NotBefore(rest, base + sliding, i);
    }
  }

  lemma {:induction false} InsertKeepsDeadlines(es: seq<Entry>, base: int, e: Entry)
    requires Spaced(es, base) && e.delay == e.deadline - base >= 0 && e.id != LIMIT
    ensures Spaced(Inserted(es, e), base)
    ensures Dues(Inserted(es, e)) == InsertDue(Dues(es), Due(e.id, e.deadline))
  {
    if es == [] {
    } else if es[0].delay > e.delay {
      var r := Inserted(es, e);
      assert r[1..][1..] == es[1..];
      assert Dues(r[1..]) == Dues(es);
      FirstDueIsLater(es, base, e.deadline);
    } else {
      InsertKeepsDeadlines(es[1..], es[0].deadline, e.(delay := e.delay - es[0].delay));
      DuesCons(es);
      DuesCons(Inserted(es, e));
      assert Inserted(es, e)[1..] == Inserted(es[1..], e.(delay := e.delay - es[0].delay));
    }
  }

  lemma {:induction false} FirstDueIsLater(es: seq<Entry>, base: int, at: int)
    requires Spaced(es, base) && (es != [] ==> es[0].deadline > at)
    ensures Dues(es) != [] ==> Dues(es)[0].at > at
  {
    if es != [] {
      if |es| > 1 {
        NotBefore(es, base, 1);
      }
      FirstDueIsLater(es[1..], es[0].deadline, at);
    }
  }

  /** The new timer stands after all that are due no later, and before all that are due later. */
  lemma {:induction false} InsertedAt(es: seq<Entry>, base: int, e: Entry) returns (k: nat)
    requires Spaced(es, base) && e.delay == e.deadline - base >= 0
    ensures k <= |es| && |Inserted(es, e)| == |es| + 1 && Inserted(es, e)[k] == e.(delay := Inserted(es, e)[k].delay)
    ensures forall i :: 0 <= i < k ==> Inserted(es, e)[i] == es[i] && es[i].deadline <= e.deadline
    ensures forall i :: k <= i < |es| ==> Inserted(es, e)[i + 1] == es[i].(delay := Inserted(es, e)[i + 1].delay) && es[i].deadline > e.deadline
  {
    if es == [] {
      k := 0;
    } else if es[0].delay > e.delay {
      k := 0;
      forall i | 0 <= i < |es| ensures es[i].deadline > e.deadline {
        NotBefore(es, base, i);
      }
    } else {
      var e' := e.(delay := e.delay - es[0].delay);
      k := InsertedAt(es[1..], es[0].deadline, e');
      k := k + 1;
      var r, r' := Inserted(es, e), Inserted(es[1..], e');
      assert r == [es[0]] + r';
      forall i | 0 <= i < k ensures r[i] == es[i] && es[i].deadline <= e.deadline {
        if i > 0 {
          assert r[i] == r'[i - 1] && es[i] == es[1..][i - 1];
        }
      }
      forall i | k <= i < |es| ensures r[i + 1] == es[i].(delay := r[i + 1].delay) && es[i].deadline > e.deadline {
        assert r[i + 1] == r'[i] && es[i] == es[1..][i - 1];
      }
    }
  }

  lemma {:induction false} UnlinkKeepsDeadlines(es: seq<Entry>, base: int, i: nat)
    requires Spaced(es, base) && i < |es| && Distinct(es)
    ensures Spaced(Unlinked(es, i), base)
    ensures Dues(Unlinked(es, i)) == RemoveDue(Dues(es), es[i].id)
  {
    var r := Unlinked(es, i);
    DuesCons(es);
    if i == 0 {
      assert forall j :: 0 <= j < |es[1..]| ==> es[1..][j].id != es[0].id;
      RemoveAbsent(es[1..], es[0].id);
      if |es| > 1 {
        assert r[1..] == es[1..][1..];
      }
    } else {
      UnlinkKeepsDeadlines(es[1..], es[0].deadline, i - 1);
      assert r[0] == es[0] && es[0].id != es[i].id;
      assert r[1..] == Unlinked(es[1..], i - 1);
      DuesCons(r);
    }
  }

  lemma {:induction false} RemoveAbsent(es: seq<Entry>, id: Id)
    requires forall j :: 0 <= j < |es| ==> es[j].id != id
    ensures RemoveDue(Dues(es), id) == Dues(es)
  {
    if es != [] {
      DuesCons(es);
      RemoveAbsent(es[1..], id);
    }
  }

  // ---- where each timer is ----

  predicate Listed(es: seq<Entry>, id: Id) {
    exists i :: 0 <= i < |es| && es[i].id == id
  }

  predicate NoRepeats(ids: seq<Id>) {
    forall i, j :: 0 <= i < j < |ids| ==> ids[i] != ids[j]
  }

  /** No timer is in two places or twice in one, and the limit timer is never fired. */
  ghost predicate Apart(es: seq<Entry>, fired: seq<Id>, purged: set<Id>) {
    && NoRepeats(fired) && LIMIT !in fired
    && (forall id :: Listed(es, id) ==> id !in fired && id !in purged)
    && (forall id :: id in fired ==> id !in purged)
  }

  /** What a prefix that is gone has done, when its first timer was taken off before the others. */
  lemma FirstOfGone(p: Places, gone: seq<Entry>, losers: set<Id>)
    requires p.timers != [] && gone != [] && gone[0] == p.timers[0]
    ensures Won(gone[1..], losers) + TakeFirst(p, losers).fired == Won(gone, losers) + p.fired
    ensures TakeFirst(p, losers).purged + Lost(gone[1..], losers) == p.purged + Lost(gone, losers)
    ensures TakeFirst(p, losers).timers == p.timers[1..]
  {
  }

  /** The loop takes a prefix off the list, and each timer of it goes to one of the two places. */
  lemma {:induction false} SlidTakesPrefix(p: Places, sliding: int, losers: set<Id>)
    ensures var gone := p.timers[..TakenOff(p.timers, sliding)];
      Slid(p, sliding, losers) == Places(Remaining(p.timers, sliding), Won(gone, losers) + p.fired, p.purged + Lost(gone, losers))
    decreases |p.timers|
  {
    if sliding != 0 && p.timers != [] && p.timers[0].delay <= sliding {
      hide Won, Lost, TakeFirst;
      var gone := p.timers[..TakenOff(p.timers, sliding)];
      FirstOfGone(p, gone, losers);
      SlidTakesPrefix(TakeFirst(p, losers), sliding - p.timers[0].delay, losers);
      assert gone[1..] == p.timers[1..][..TakenOff(p.timers, sliding) - 1];
    }
  }

  /** Each timer taken off is fired exactly once or marked as purged, according to who wins its parker. */
  lemma {:induction false} FiredOrPurged(es: seq<Entry>, losers: set<Id>)
    requires Distinct(es)
    ensures NoRepeats(Won(es, losers))
    ensures forall id :: id in Won(es, losers) <==> Listed(es, id) && Wins(id, losers)
    ensures forall id :: id in Lost(es, losers) <==> Listed(es, id) && !Wins(id, losers)
  {
    if es != [] {
      FiredOrPurged(es[1..], losers);
      assert !Listed(es[1..], es[0].id);
      forall id ensures Listed(es, id) <==> Listed(es[1..], id) || id == es[0].id {
        if Listed(es[1..], id) {
          var i :| 0 <= i < |es[1..]| && es[1..][i].id == id;
          assert es[i + 1].id == id;
        }
      }
    }
  }

  /** Splitting the list at k, with other delays behind k, splits the timers in it. */
  lemma ListedSplit(es: seq<Entry>, k: nat, rest: seq<Entry>)
    requires k <= |es| && |rest| == |es| - k && Distinct(es)
    requires forall i :: 0 <= i < |rest| ==> rest[i].id == es[k + i].id
    ensures forall id :: Listed(es, id) <==> Listed(es[..k], id) || Listed(rest, id)
    ensures forall id :: !(Listed(es[..k], id) && Listed(rest, id))
  {
    forall id | Listed(es[..k], id) ensures Listed(es, id) && !Listed(rest, id) {
      var i :| 0 <= i < k && es[..k][i].id == id;
      assert es[i].id == id;
    }
    forall id | Listed(rest, id) ensures Listed(es, id) {
      var i :| 0 <= i < |rest| && rest[i].id == id;
      assert es[k + i].id == id;
    }
    forall id | Listed(es, id) ensures Listed(es[..k], id) || Listed(rest, id) {
      var i :| 0 <= i < |es| && es[i].id == id;
      if i < k {
        assert es[..k][i].id == id;
      } else {
        assert rest[i - k].id == id;
      }
    }
  }

  lemma AppendFired(won: seq<Id>, fired: seq<Id>)
    requires NoRepeats(won) && NoRepeats(fired) && forall id :: id in won ==> id !in fired
    ensures NoRepeats(won + fired)
  {
    var all := won + fired;
    forall i, j | 0 <= i < j < |all| ensures all[i] != all[j] {
      if i < |won| <= j {
        assert won[i] in won && fired[j - |won|] in fired;
      }
    }
  }

  /** Timers only move from the list to the fired or the purged ones. */
  ghost predicate NoneNew(p: Places, q: Places) {
    && (forall id :: Listed(q.timers, id) ==> Listed(p.timers, id))
    && (forall id :: id in q.fired ==> id in p.fired || Listed(p.timers, id))
    && (forall id :: id in q.purged ==> id in p.purged || Listed(p.timers, id))
  }

  ghost predicate NoneGone(p: Places, q: Places) {
    && (forall id :: Listed(p.timers, id) ==> Listed(q.timers, id) || id in q.fired || id in q.purged)
    && (forall id :: id in p.fired ==> id in q.fired)
    && p.purged <= q.purged
  }

  /** After a slide the encoding holds for the new base, and every timer is still in one place. */
  lemma SlideKeepsPlaces(p: Places, base: int, sliding: int, losers: set<Id>)
    requires Good(p.timers, base) && sliding >= 0 && Apart(p.timers, p.fired, p.purged)
    ensures var q := Slid(p, sliding, losers);
      && Good(q.timers, base + sliding) && Apart(q.timers, q.fired, q.purged)
      && NoneNew(p, q) && NoneGone(p, q) && (Below(p.timers, base) ==> Below(q.timers, base + sliding))
  {
    hide Slid, Won, Lost, Remaining, TakenOff;
    var k, rest := TakenOff(p.timers, sliding), Remaining(p.timers, sliding);
    var gone := p.timers[..k];
    SlideKeepsDeadlines(p.timers, base, sliding);
    SlidTakesPrefix(p, sliding, losers);
    FiredOrPurged(gone, losers);
    ListedSplit(p.timers, k, rest);
    AppendFired(Won(gone, losers), p.fired);
  }

  /** The 32-bit difference of two tick counts is the time between them, if that is less than 2^32. */
  lemma Elapsed(from: int, to: int)
    requires 0 <= from <= to < from + TICKS
    ensures (to % TICKS - from % TICKS) % TICKS == to - from
  {
    assert to % TICKS - from % TICKS == to - from || to % TICKS - from % TICKS == to - from - TICKS;
  }

  /** Dues of a concatenation. */
  lemma {:induction false} DuesConcat(a: seq<Entry>, b: seq<Entry>)
    ensures Dues(a + b) == Dues(a) + Dues(b)
  {
    if a == [] {
      assert a + b == b;
    } else {
      assert (a + b)[0] == a[0] && (a + b)[1..] == a[1..] + b;
      DuesConcat(a[1..], b);
      assert a[0].id != LIMIT ==> Dues(a + b) == [Due(a[0].id, a[0].deadline)] + Dues(a[1..]) + Dues(b);
    }
  }

  lemma {:induction false} DueIsListed(es: seq<Entry>, d: Due) returns (i: nat)
    requires d in Dues(es)
    ensures i < |es| && es[i].id == d.id && es[i].deadline == d.at && d.id != LIMIT
  {
    if es[0].id != LIMIT && d == Due(es[0].id, es[0].deadline) {
      i := 0;
    } else {
      assert d in Dues(es[1..]);
      i := DueIsListed(es[1..], d);
      i := i + 1;
    }
  }

  /** No timer fires early, and none that stays is overdue. */
  ghost predicate OnTime(was: seq<Entry>, gone: seq<Entry>, rest: seq<Entry>, clock: int) {
    && Dues(gone) + Dues(rest) == Dues(was)
    && (forall d :: d in Dues(gone) ==> d.at <= clock)
    && (forall d :: d in Dues(rest) ==> clock <= d.at)
  }

  /** The timers that are gone were fired or purged, according to who won their parkers. */
  ghost predicate Released(p: Places, q: Places, gone: seq<Entry>, losers: set<Id>) {
    q.fired == Won(gone, losers) + p.fired && q.purged == p.purged + Lost(gone, losers)
  }

  /** A slide splits the deadlines into those that have come and those that have not passed. */
  lemma SlideSplitsDues(p: Places, base: int, sliding: int, losers: set<Id>)
    requires Spaced(p.timers, base) && sliding >= 0
    ensures var gone, q := p.timers[..TakenOff(p.timers, sliding)], Slid(p, sliding, losers);
      OnTime(p.timers, gone, q.timers, base + sliding) && Released(p, q, gone, losers)
  {
    var es := p.timers;
    var k, rest := TakenOff(es, sliding), Remaining(es, sliding);
    SlidTakesPrefix(p, sliding, losers);
    SlideIsExact(es, base, sliding);
    DuesConcat(es[..k], es[k..]);
    assert es[..k] + es[k..] == es;
    forall d | d in Dues(es[..k]) ensures d.at <= base + sliding {
      var i := DueIsListed(es[..k], d);
      assert es[i].deadline == d.at;
    }
    forall d | d in Dues(rest) ensures base + sliding <= d.at {
      var i := DueIsListed(rest, d);
    }
  }

  /** The search for the place goes on: the part of the list behind it stays to be searched. */
  lemma SearchGoesOn(es: seq<Entry>, k: nat, e: Entry)
    requires k < |es| && es[k].delay <= e.delay
    ensures es[..k] + Inserted(es[k..], e) == es[..k + 1] + Inserted(es[k + 1..], e.(delay := e.delay - es[k].delay))
  {
    assert es[k..][1..] == es[k + 1..];
    assert es[..k] + [es[k]] == es[..k + 1];
  }

  /** The search ends, at the latest behind the last timer. */
  lemma SearchEnds(es: seq<Entry>, k: nat, e: Entry)
    requires k <= |es| && (k < |es| ==> es[k].delay > e.delay)
    ensures k == |es| ==> es[..k] + Inserted(es[k..], e) == es + [e]
    ensures k < |es| ==> es[..k] + Inserted(es[k..], e) == es[..k] + [e] + es[k := es[k].(delay := es[k].delay - e.delay)][k..]
  {
    if k < |es| {
      assert es[k..][1..] == es[k + 1..];
      assert es[k := es[k].(delay := es[k].delay - e.delay)][k..] == [es[k].(delay := es[k].delay - e.delay)] + es[k + 1..];
    }
  }

  /** Among timers without delay a new one without delay comes last. */
  lemma {:induction false} InsertedLast(es: seq<Entry>, e: Entry)
    requires NoDelays(es) && e.delay == 0
    ensures Inserted(es, e) == es + [e]
  {
    if es != [] {
      InsertedLast(es[1..], e);
      assert es == [es[0]] + es[1..];
    }
  }

  /**
   The new timer as the search finds a place for it. The sentinel itself is passed as a
   delay when all others are zero: the search goes once around, and comes to the end of
   the list with no delay left.
   */
  function Arriving(es: seq<Entry>, e: Entry): Entry {
    if e.delay == SENTINEL && NoDelays(es) then e.(delay := 0, deadline := e.deadline - SENTINEL, late := true) else e
  }

  /** The timer that stands at position i after one was inserted at position k. */
  function ThenAt(es: seq<Entry>, e: Entry, k: nat, i: nat): Entry
    requires k <= |es| && i <= |es|
  {
    if i < k then es[i] else if i == k then e else es[i - 1]
  }

  lemma InsertedEach(es: seq<Entry>, base: int, e: Entry) returns (k: nat)
    requires Spaced(es, base) && e.delay == e.deadline - base >= 0
    ensures k <= |es| && |Inserted(es, e)| == |es| + 1
    ensures forall i :: 0 <= i <= |es| ==> Inserted(es, e)[i] == ThenAt(es, e, k, i).(delay := Inserted(es, e)[i].delay)
  {
    k := InsertedAt(es, base, e);
    forall i | 0 <= i <= |es| ensures Inserted(es, e)[i] == ThenAt(es, e, k, i).(delay := Inserted(es, e)[i].delay) {
      if i > k {
        assert Inserted(es, e)[i - 1 + 1] == es[i - 1].(delay := Inserted(es, e)[i].delay);
      }
    }
  }

  /** Inserting keeps the encoding. */
  lemma SetKeepsGood(es: seq<Entry>, base: int, e: Entry)
    requires Good(es, base) && !Listed(es, e.id) && e.id != LIMIT
    requires 0 <= e.delay == e.deadline - base <= SENTINEL && e.fireTime == FireTime(e)
    ensures Good(Inserted(es, e), base)
    ensures Below(es, base) && e.delay < SENTINEL ==> Below(Inserted(es, e), base)
    ensures forall i :: 0 <= i < |Inserted(es, e)| && Inserted(es, e)[i].id == e.id ==> Inserted(es, e)[i].fireTime == e.fireTime
  {
    hide Inserted;
    InsertKeepsDeadlines(es, base, e);
    var k := InsertedEach(es, base, e);
  }

  /** Inserting puts the new timer, and no other, in the list. */
  lemma SetLists(es: seq<Entry>, base: int, e: Entry)
    requires Spaced(es, base) && e.delay == e.deadline - base >= 0
    ensures forall id :: Listed(Inserted(es, e), id) <==> Listed(es, id) || id == e.id
  {
    hide Inserted, Spaced;
    var k := InsertedEach(es, base, e);
    var r := Inserted(es, e);
    assert r[k].id == e.id;
    forall id | Listed(es, id) ensures Listed(r, id) {
      var i :| 0 <= i < |es| && es[i].id == id;
      assert ThenAt(es, e, k, if i < k then i else i + 1) == es[i];
      assert r[if i < k then i else i + 1].id == id;
    }
  }

  /** Which timer stands at each position after one was unlinked. */
  lemma UnlinkedEach(es: seq<Entry>, i: nat)
    requires i < |es|
    ensures |Unlinked(es, i)| == |es| - 1
    ensures forall j :: 0 <= j < |es| - 1 ==> Unlinked(es, i)[j] == es[if j < i then j else j + 1].(delay := Unlinked(es, i)[j].delay)
    ensures i > 0 && |es| > 1 ==> Unlinked(es, i)[0] == es[0]
  {
  }

  /** Unlinking keeps the encoding. */
  lemma UnlinkKeepsGood(es: seq<Entry>, base: int, i: nat)
    requires Good(es, base) && i < |es|
    ensures Good(Unlinked(es, i), base) && (Below(es, base) ==> Below(Unlinked(es, i), base))
    ensures LimitFirst(es) && es[i].id != LIMIT ==> LimitFirst(Unlinked(es, i))
  {
    hide Unlinked;
    UnlinkKeepsDeadlines(es, base, i);
    UnlinkedEach(es, i);
  }

  /** Unlinking takes one timer, and no other, out of the list. */
  lemma UnlinkLists(es: seq<Entry>, i: nat)
    requires Distinct(es) && i < |es|
    ensures forall id :: Listed(Unlinked(es, i), id) <==> Listed(es, id) && id != es[i].id
  {
    hide Unlinked;
    var r := Unlinked(es, i);
    UnlinkedEach(es, i);
    forall id | Listed(es, id) && id != es[i].id ensures Listed(r, id) {
      var j :| 0 <= j < |es| && es[j].id == id;
      assert r[if j < i then j else j - 1].id == id;
    }
  }

  lemma {:induction false} NoLimitDue(es: seq<Entry>)
    ensures RemoveDue(Dues(es), LIMIT) == Dues(es)
  {
    if es != [] {
      NoLimitDue(es[1..]);
      DuesCons(es);
    }
  }

  /** Nobody is due before the first timer is. */
  lemma SleepIsSafe(es: seq<Entry>, base: int)
    requires Spaced(es, base)
    ensures es != [] ==> forall d :: d in Dues(es) ==> base + es[0].delay <= d.at
  {
    forall d | d in Dues(es) ensures base + es[0].delay <= d.at {
      var i := DueIsListed(es, d);
      NotBefore(es, base, i);
    }
  }

  /** The limit timer has no delay, so that time takes it off the list as soon as it moves. */
  lemma SlideDropsLimit(p: Places, base: int, sliding: int, losers: set<Id>)
    requires Good(p.timers, base) && LimitFirst(p.timers) && sliding >= 0
    ensures var q := Slid(p, sliding, losers);
      LimitFirst(q.timers) && (Listed(q.timers, LIMIT) <==> Listed(p.timers, LIMIT) && sliding == 0)
  {
    var es, k, rest := p.timers, TakenOff(p.timers, sliding), Remaining(p.timers, sliding);
    SlidTakesPrefix(p, sliding, losers);
    SlideKeepsDeadlines(es, base, sliding);
    if sliding > 0 && es != [] && es[0].id == LIMIT {
      assert k >= 1;
    }
  }

  // ---- the planned end of the timer thread's sleep ----

  /** Some timer is due before the given time. */
  predicate Early(ds: seq<Due>, plan: int) {
    exists i :: 0 <= i < |ds| && ds[i].at < plan
  }

  lemma {:induction false} EarlyInsert(ds: seq<Due>, d: Due, plan: int)
    ensures Early(InsertDue(ds, d), plan) <==> Early(ds, plan) || d.at < plan
  {
    var r := InsertDue(ds, d);
    if ds == [] || ds[0].at > d.at {
      assert r[0] == d && r[1..] == ds;
      EarlyCons(r, plan);
    } else {
      EarlyInsert(ds[1..], d, plan);
      assert r[0] == ds[0] && r[1..] == InsertDue(ds[1..], d);
      EarlyCons(r, plan);
      EarlyCons(ds, plan);
    }
  }

  lemma EarlyCons(ds: seq<Due>, plan: int)
    requires ds != []
    ensures Early(ds, plan) <==> ds[0].at < plan || Early(ds[1..], plan)
  {
    if Early(ds, plan) && ds[0].at >= plan {
      var i :| 0 <= i < |ds| && ds[i].at < plan;
      assert ds[1..][i - 1].at < plan;
    }
    if Early(ds[1..], plan) {
      var i :| 0 <= i < |ds[1..]| && ds[1..][i].at < plan;
      assert ds[i + 1].at < plan;
    }
  }

  /**
   What a new timer means for the sleep of the timer thread: it is the first in the list,
   or some timer is due before the planned end exactly if one was before, or if the new
   one is and the limit timer hides it.
   */
  lemma HiddenByLimit(es: seq<Entry>, base: int, e: Entry, plan: int)
    requires Spaced(es, base) && LimitFirst(es) && e.delay == e.deadline - base >= 0 && e.id != LIMIT
    ensures LimitFirst(Inserted(es, e))
    ensures Inserted(es, e) != []
    ensures Inserted(es, e)[0].id == e.id && !Listed(es, e.id) ==> !Listed(es, LIMIT)
    ensures Inserted(es, e)[0].id != e.id ==>
      (Early(Dues(Inserted(es, e)), plan) <==> Early(Dues(es), plan) || (e.deadline < plan && Listed(es, LIMIT)))
  {
    var r := Inserted(es, e);
    var k := InsertedEach(es, base, e);
    InsertKeepsDeadlines(es, base, e);
    EarlyInsert(Dues(es), Due(e.id, e.deadline), plan);
    if es != [] {
      DuesCons(es);
      if es[0].id != LIMIT && es[0].deadline <= e.deadline < plan {
        EarlyCons(Dues(es), plan);
      }
    }
  }

  /** A slide adds no early deadline. */
  lemma SlideAddsNoneEarly(p: Places, base: int, sliding: int, losers: set<Id>, plan: int)
    requires Good(p.timers, base) && sliding >= 0
    ensures Early(Dues(Slid(p, sliding, losers).timers), plan) ==> Early(Dues(p.timers), plan)
  {
    hide Slid, Dues, Spaced, TakenOff;
    SlideSplitsDues(p, base, sliding, losers);
    var ds, rest := Dues(p.timers), Dues(Slid(p, sliding, losers).timers);
    if Early(rest, plan) {
      var i :| 0 <= i < |rest| && rest[i].at < plan;
      assert ds[|ds| - |rest| + i] == rest[i];
    }
  }

  /** Every listed timer other than the limit timer has a deadline. */
  lemma {:induction false} OthersAreDue(es: seq<Entry>, id: Id)
    requires id != LIMIT && Listed(es, id)
    ensures Dues(es) != []
  {
    DuesCons(es);
    if es[0].id == LIMIT {
      var i :| 0 <= i < |es| && es[i].id == id;
      assert es[1..][i - 1].id == id;
      OthersAreDue(es[1..], id);
    }
  }

  /** The first timer to be set in the tick to which the list was slid before. */
  lemma OnlyDue(p: Places, d: Due, plan: int)
    ensures Dues([]) == [] && InsertDue([], d) == [d] && Slid(p, 0, {}) == p
    ensures Early([d], plan) <==> d.at < plan
  {
    assert [d][0] == d;
  }

  /** A limit timer without delay in front of the list changes no deadline. */
  lemma LimitInFront(es: seq<Entry>, base: int)
    requires Good(es, base) && !Listed(es, LIMIT)
    ensures var r := [Entry(LIMIT, 0, 0, base, false)] + es;
      && Good(r, base) && (Below(es, base) ==> Below(r, base)) && LimitFirst(r) && Dues(r) == Dues(es)
      && forall id :: Listed(r, id) <==> Listed(es, id) || id == LIMIT
  {
    var r := [Entry(LIMIT, 0, 0, base, false)] + es;
    assert r[0].id == LIMIT && r[1..] == es;
    assert forall i :: 0 < i < |r| ==> r[i] == es[i - 1];
    forall id | Listed(es, id) ensures Listed(r, id) {
      var i :| 0 <= i < |es| && es[i].id == id;
      assert r[i + 1].id == id;
    }
  }

  /** All that inserting a new timer does to the list, and to the sleep of the timer thread. */
  lemma SetOutcome(es: seq<Entry>, base: int, e: Entry, fired: seq<Id>, purged: set<Id>, plan: int)
    requires Good(es, base) && Apart(es, fired, purged) && LimitFirst(es)
    requires e.id != LIMIT && !Listed(es, e.id) && e.id !in fired
    requires 0 <= e.delay == e.deadline - base <= SENTINEL && e.fireTime == FireTime(e) && !e.late
    ensures var r, a := Inserted(es, Arriving(es, e)), Arriving(es, e);
      && Good(r, base) && Apart(r, fired, purged - {e.id}) && LimitFirst(r) && r != []
      && (Below(es, base) && e.delay < SENTINEL ==> Below(r, base))
      && (forall i :: 0 <= i < |r| && r[i].id == e.id ==> r[i].fireTime == e.fireTime)
      && (Listed(r, LIMIT) <==> Listed(es, LIMIT)) && (r[0].id == e.id ==> !Listed(es, LIMIT))
      && Dues(r) == InsertDue(Dues(es), Due(e.id, a.deadline))
      && (r[0].id != e.id ==> (Early(Dues(r), plan) <==> Early(Dues(es), plan) || (a.deadline < plan && Listed(es, LIMIT))))
  {
    hide Inserted, Dues, Early, Spaced;
    var a := Arriving(es, e);
    SetKeepsGood(es, base, a);
    SetLists(es, base, a);
    InsertKeepsDeadlines(es, base, a);
    HiddenByLimit(es, base, a, plan);
  }

  /** What a slide may do, where the given prefix of the list is gone. */
  ghost predicate Adjusted(p: Places, q: Places, gone: seq<Entry>, clock: int, losers: set<Id>) {
    && OnTime(p.timers, gone, q.timers, clock)
    && Released(p, q, gone, losers)
    && NoneNew(p, q)
    && NoneGone(p, q)
  }

  lemma SlideAdjusts(p: Places, base: int, sliding: int, losers: set<Id>)
    requires Good(p.timers, base) && sliding >= 0 && Apart(p.timers, p.fired, p.purged)
    ensures var q := Slid(p, sliding, losers);
      && Good(q.timers, base + sliding) && Apart(q.timers, q.fired, q.purged)
      && (Below(p.timers, base) ==> Below(q.timers, base + sliding))
      && Adjusted(p, q, p.timers[..TakenOff(p.timers, sliding)], base + sliding, losers)
  {
    SlideSplitsDues(p, base, sliding, losers);
    SlideKeepsPlaces(p, base, sliding, losers);
  }

  // ---- periodic timers ----

  /** The delay that the code computes for a timer whose last deadline is known. */
  function RearmDelay(last: int, period: int, clock: int): int {
    (last % TICKS + period - clock % TICKS) % TICKS
  }

  /** When the timer is due, where idle says that all delays in the list are zero. */
  function RearmDue(last: int, period: int, clock: int, idle: bool): int {
    var delay := RearmDelay(last, period, clock);
    if delay == SENTINEL && idle then clock else clock + delay
  }

  /** The deadline that its fire time stands for, from which the next one is computed. */
  function Rearmed(last: int, period: int, clock: int, idle: bool): int {
    var delay := RearmDelay(last, period, clock);
    if delay == SENTINEL && idle then clock - 1 else clock + delay
  }

  /** The timer keeps its pace if it is re-armed by its next deadline, or a tick later while all delays are zero. */
  predicate InTime(last: int, period: int, clock: int, idle: bool) {
    clock <= last + period || (clock == last + period + 1 && idle)
  }

  /**
   The next deadline is a period later than the last one if the timer is re-armed in time,
   and 2^32 ticks later than that otherwise. A timer that is re-armed a tick late, but in
   time, is due at once.
   */
  lemma RearmedAt(last: int, period: int, clock: int, idle: bool)
    requires 0 <= last <= clock < last + period + TICKS && 0 <= period < SENTINEL
    ensures RearmDelay(last, period, clock) == last + period - clock + (if clock <= last + period then 0 else TICKS)
    ensures RearmDelay(last, period, clock) == SENTINEL <==> clock == last + period + 1
    ensures Rearmed(last, period, clock, idle) == last + period + (if InTime(last, period, clock, idle) then 0 else TICKS)
    ensures RearmDue(last, period, clock, idle) ==
      if clock == last + period + 1 && idle then clock else Rearmed(last, period, clock, idle)
    ensures (clock + RearmDelay(last, period, clock)) % TICKS == Rearmed(last, period, clock, idle) % TICKS
  {
    var x := last % TICKS + period - clock % TICKS;
    var q := last / TICKS - clock / TICKS;
    assert x == last + period - clock - q * TICKS;
    SameModulo(last + period - clock, -q);
    assert (clock + SENTINEL) % TICKS == (clock - 1) % TICKS;
  }

  lemma SameModulo(x: int, q: int)
    requires -TICKS < x < TICKS
    ensures (x + q * TICKS) % TICKS == if x >= 0 then x else x + TICKS
  {
    var y := if x >= 0 then x else x + TICKS;
    var q' := if x >= 0 then q else q - 1;
    assert x + q * TICKS == q' * TICKS + y;
  }

  /** When a timer is re-armed, and whether all delays in the list are zero then. */
  datatype Rearming = Rearming(clock: int, idle: bool)

  /** Re-armings that each come at or after the deadline before them. */
  predicate Plausible(first: int, period: int, rs: seq<Rearming>)
    decreases rs
  {
    rs != [] ==>
      && first <= rs[0].clock < first + period + TICKS
      && Plausible(Rearmed(first, period, rs[0].clock, rs[0].idle), period, rs[1..])
  }

  function DeadlineAfter(first: int, period: int, rs: seq<Rearming>): int
    decreases rs
  {
    if rs == [] then first
    else DeadlineAfter(Rearmed(first, period, rs[0].clock, rs[0].idle), period, rs[1..])
  }

  /** How often the timer was not re-armed in time. */
  function Missed(first: int, period: int, rs: seq<Rearming>): nat
    decreases rs
  {
    if rs == [] then 0
    else
      (if InTime(first, period, rs[0].clock, rs[0].idle) then 0 else 1)
      + Missed(Rearmed(first, period, rs[0].clock, rs[0].idle), period, rs[1..])
  }

  lemma OnePeriodMore(n: nat, period: int)
    ensures (n + 1) * period == n * period + period
  {
  }

  /** A periodic timer does not drift if and only if it was always re-armed in time; each time it was not costs 2^32 ticks. */
  lemma {:induction false} NoDriftIff(first: int, period: int, rs: seq<Rearming>)
    requires 0 <= first && 0 <= period < SENTINEL && Plausible(first, period, rs)
    ensures DeadlineAfter(first, period, rs) == first + |rs| * period + Missed(first, period, rs) * TICKS
    ensures DeadlineAfter(first, period, rs) == first + |rs| * period <==> Missed(first, period, rs) == 0
    decreases rs
  {
    hide Rearmed, InTime;
    if rs != [] {
      RearmedAt(first, period, rs[0].clock, rs[0].idle);
      NoDriftIff(Rearmed(first, period, rs[0].clock, rs[0].idle), period, rs[1..]);
      OnePeriodMore(|rs[1..]|, period);
    }
  }

  // ---- sleeping ----

  /** The time that is left to sleep after the batch was fired; it ends at the planned time or at once. */
  function SleepTime(delay: int, baseTime: int, now: int): int {
    var sliding := (now - baseTime) % TICKS;
    if sliding >= delay then 0 else delay - sliding
  }

  lemma SleepEndsOnTime(delay: int, base: int, clock: int)
    requires 0 <= delay && 0 <= base <= clock < base + TICKS
    ensures var end := clock + SleepTime(delay, base % TICKS, clock % TICKS);
      end == if clock <= base + delay then base + delay else clock
  {
    Elapsed(base, clock);
  }
}
