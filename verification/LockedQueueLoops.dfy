/**
 The two loops of the lock holder as they run when nobody interferes: the one that moves
 the detached stack of arrivals to the list, and the one that serves the list from its
 front. In the step system every pass of them is a step of its own, between which others
 act; here they are loops over the fields they change.
 */
module LockedQueueLoops {
  import opened LockClients
  import opened LockedQueue
  import opened LockedQueueInv

  /** The acquire blocks of a stack whose parkers are not locked, oldest first. */
  function Live(stack: seq<Block>, locked: set<Tid>): seq<Tid> {
    if stack == [] then []
    else if stack[0].Acquire? && stack[0].who !in locked then Live(stack[1..], locked) + [stack[0].who]
    else Live(stack[1..], locked)
  }

  /** The lock-only blocks of a stack, oldest first. */
  function LockOnlyBlocks(stack: seq<Block>): seq<Tid> {
    if stack == [] then []
    else if stack[0].LockOnly? then LockOnlyBlocks(stack[1..]) + [stack[0].who]
    else LockOnlyBlocks(stack[1..])
  }

  /** The acquire blocks of a stack whose parkers are locked. */
  function Dead(stack: seq<Block>, locked: set<Tid>): set<Tid> {
    if stack == [] then {}
    else if stack[0].Acquire? && stack[0].who in locked then Dead(stack[1..], locked) + {stack[0].who}
    else Dead(stack[1..], locked)
  }

  /** Each arrival is live or dead, and live ones keep their order: an older arrival stands further down the stack. */
  lemma {:induction false} LiveInOrder(stack: seq<Block>, locked: set<Tid>, i: nat, j: nat)
    requires i < j < |stack| && stack[i].Acquire? && stack[j].Acquire? && stack[i].who !in locked && stack[j].who !in locked
    ensures exists a, b :: 0 <= a < b < |Live(stack, locked)| && Live(stack, locked)[a] == stack[j].who && Live(stack, locked)[b] == stack[i].who
  {
    var rest := Live(stack[1..], locked);
    if i == 0 {
      var a := LiveHas(stack[1..], locked, j - 1);
      assert Live(stack, locked) == rest + [stack[0].who];
      assert Live(stack, locked)[a] == stack[j].who && Live(stack, locked)[|rest|] == stack[i].who;
    } else {
      LiveInOrder(stack[1..], locked, i - 1, j - 1);
      var a, b :| 0 <= a < b < |rest| && rest[a] == stack[1..][j - 1].who && rest[b] == stack[1..][i - 1].who;
      assert Live(stack, locked)[a] == rest[a] && Live(stack, locked)[b] == rest[b];
    }
  }

  lemma {:induction false} LiveHas(stack: seq<Block>, locked: set<Tid>, i: nat) returns (a: nat)
    requires i < |stack| && stack[i].Acquire? && stack[i].who !in locked
    ensures a < |Live(stack, locked)| && Live(stack, locked)[a] == stack[i].who
  {
    if i == 0 {
      a := |Live(stack[1..], locked)|;
    } else {
      a := LiveHas(stack[1..], locked, i - 1);
    }
  }

  /** The state word after grants to these requests, one after the other. */
  function AfterGrants(c: Client, word: int, rs: seq<int>): int {
    if rs == [] then word else Taken(c, AfterGrants(c, word, rs[..|rs| - 1]), rs[|rs| - 1])
  }

  /** Each of the requests can be granted when its turn comes. */
  predicate Affordable(c: Client, word: int, rs: seq<int>) {
    rs != [] ==>
      Affordable(c, word, rs[..|rs| - 1]) && CanTake(c, AfterGrants(c, word, rs[..|rs| - 1]), rs[|rs| - 1])
  }

  /** Those that were not cancelled. */
  function Uncancelled(xs: seq<Tid>, locked: set<Tid>): seq<Tid> {
    if xs == [] then []
    else if xs[|xs| - 1] in locked then Uncancelled(xs[..|xs| - 1], locked)
    else Uncancelled(xs[..|xs| - 1], locked) + [xs[|xs| - 1]]
  }

  /** Those that were. */
  function Refused(xs: seq<Tid>, locked: set<Tid>): set<Tid> {
    set x | x in xs && x in locked
  }

  function Requests(xs: seq<Tid>, req: seq<int>): seq<int> {
    seq(|xs|, i requires 0 <= i < |xs| => if xs[i] < |req| then req[xs[i]] else 0)
  }

  function Sum(rs: seq<int>): int {
    if rs == [] then 0 else Sum(rs[..|rs| - 1]) + rs[|rs| - 1]
  }

  /** A semaphore pays for its grants in permits. */
  lemma {:induction false} GrantsArePaid(initial: int, maximum: int, word: int, rs: seq<int>)
    ensures AfterGrants(Semaphore(initial, maximum), word, rs) == word - Sum(rs)
  {
    if rs != [] {
      GrantsArePaid(initial, maximum, word, rs[..|rs| - 1]);
    }
  }

  /** Taking back a grant leaves the word as it was. */
  lemma UndoneIsUndone(c: Client, word: int, r: int)
    requires CanTake(c, word, r) && ValidRequest(c, r) && -0x8000_0000 <= word <= LONG_MAX
    ensures Undone(c, Taken(c, word, r), r) == word
  {
  }

  lemma TakenFits(c: Client, word: int, r: int)
    requires 0 <= word <= LONG_MAX && CanTake(c, word, r) && ValidRequest(c, r)
    ensures 0 <= Taken(c, word, r) <= LONG_MAX
  {
  }

  class LockedList {
    const client: Client
    const req: seq<int>         // the request of each thread's wait block
    var word: int               // State of the client
    var head: seq<Tid>          // Head
    var private: seq<Tid>       // LockPrivateQueue
    var unlinked: set<Tid>      // blocks whose link points to themselves

    constructor (c: Client, requests: seq<int>)
      ensures client == c && req == requests && word == InitialWord(c) && head == [] && private == [] && unlinked == {}
    {
      client, req := c, requests;
      word, head, private, unlinked := InitialWord(c), [], [], {};
    }

    /**
     ProcessLockQueue: each block of a detached stack goes behind the position where the
     list ended, which reverses the stack; lock-only blocks go to the private queue.
     */
    method ProcessLockQueue(first: seq<Block>, last: nat, locked: set<Tid>) returns (changed: bool)
      requires last <= |head|
      modifies `head, `private, `unlinked
      ensures head == old(head)[..last] + Live(first, locked) + old(head)[last..]
      ensures private == LockOnlyBlocks(first) + old(private)
      ensures unlinked == old(unlinked) + Dead(first, locked)
      ensures changed <==> Live(first, locked) != []
    {
      hide Live, LockOnlyBlocks, Dead;
      var i := 0;
      changed := false;
      ghost var live: seq<Tid> := [];
      StackEnds(locked);
      while i < |first|
        invariant i <= |first| && |head| == |old(head)| + |live|
        invariant head == old(head)[..last] + live + old(head)[last..]
        invariant Live(first[i..], locked) + live == Live(first, locked)
        invariant LockOnlyBlocks(first[i..]) + private == LockOnlyBlocks(first) + old(private)
        invariant unlinked + Dead(first[i..], locked) == old(unlinked) + Dead(first, locked)
        invariant changed <==> live != []
      {
        StackGoesOn(first[i..], locked);
        assert first[i..][1..] == first[i + 1..];
        var x := first[i].who;
        if first[i].LockOnly? {
          private := [x] + private;
        } else if x !in locked {
          head := head[..last] + [x] + head[last..];
          live := [x] + live;
          changed := true;
        } else {
          unlinked := unlinked + {x};
        }
        i := i + 1;
      }
      assert first[i..] == [];
    }

    /**
     The release loop: the front is served while the word allows it. A grant whose owner
     turns out to be cancelled is taken back, and the loop goes on with the next block.
     */
    method ReleaseWaiters(locked: set<Tid>) returns (woken: seq<Tid>, ghost gone: seq<Tid>)
      requires 0 <= word <= LONG_MAX
      requires forall i :: 0 <= i < |head| ==> head[i] < |req| && ValidRequest(client, req[head[i]])
      modifies `word, `head, `unlinked
      ensures old(head) == gone + head && woken == Uncancelled(gone, locked)
      ensures word == AfterGrants(client, old(word), Requests(woken, req)) && Affordable(client, old(word), Requests(woken, req))
      ensures unlinked == old(unlinked) + Refused(gone, locked)
      ensures || head == [] || !LoopGuard(client, word)
              || (head[0] < |req| && !CanTake(client, word, req[head[0]]))
              || (woken != [] && woken[|woken| - 1] < |req| && Exclusive(client, req[woken[|woken| - 1]]))
    {
      hide AfterGrants, Uncancelled, Requests, Affordable, Refused, Taken, CanTake, ValidRequest, LoopGuard, Undone;
      woken, gone := [], [];
      NoGrants(client, word, req, locked);
      while LoopGuard(client, word) && head != []
        invariant old(head) == gone + head && woken == Uncancelled(gone, locked)
        invariant word == AfterGrants(client, old(word), Requests(woken, req)) && 0 <= word <= LONG_MAX
        invariant Affordable(client, old(word), Requests(woken, req))
        invariant unlinked == old(unlinked) + Refused(gone, locked)
        invariant forall i :: 0 <= i < |head| ==> head[i] < |req| && ValidRequest(client, req[head[i]])
        decreases |head|
      {
        var x := head[0];
        var r := req[x];
        if !CanTake(client, word, r) {
          break;
        }
        ghost var was := word;
        UndoneIsUndone(client, word, r);
        TakenFits(client, word, r);
        word := Taken(client, word, r);
        head := head[1..];
        MoreGone(gone, x, locked);
        gone := gone + [x];
        if x !in locked {
          MoreGrants(client, old(word), woken, x, req);
          woken := woken + [x];
          if Exclusive(client, r) {
            break;
          }
        } else {
          unlinked := unlinked + {x};
          word := Undone(client, word, r);
        }
      }
    }
  }

  lemma StackEnds(locked: set<Tid>)
    ensures Live([], locked) == [] && LockOnlyBlocks([]) == [] && Dead([], locked) == {}
  {
  }

  lemma StackGoesOn(stack: seq<Block>, locked: set<Tid>)
    requires stack != []
    ensures Live(stack, locked) == Live(stack[1..], locked) + if stack[0].Acquire? && stack[0].who !in locked then [stack[0].who] else []
    ensures LockOnlyBlocks(stack) == LockOnlyBlocks(stack[1..]) + if stack[0].LockOnly? then [stack[0].who] else []
    ensures Dead(stack, locked) == Dead(stack[1..], locked) + if stack[0].Acquire? && stack[0].who in locked then {stack[0].who} else {}
  {
  }

  lemma NoGrants(c: Client, word: int, req: seq<int>, locked: set<Tid>)
    ensures AfterGrants(c, word, Requests([], req)) == word && Affordable(c, word, Requests([], req)) && Uncancelled([], locked) == [] && Refused([], locked) == {}
  {
  }

  lemma MoreGone(gone: seq<Tid>, x: Tid, locked: set<Tid>)
    ensures Uncancelled(gone + [x], locked) == Uncancelled(gone, locked) + if x in locked then [] else [x]
    ensures Refused(gone + [x], locked) == Refused(gone, locked) + if x in locked then {x} else {}
  {
    assert (gone + [x])[..|gone|] == gone;
  }

  lemma MoreGrants(c: Client, word: int, woken: seq<Tid>, x: Tid, req: seq<int>)
    requires x < |req|
    ensures AfterGrants(c, word, Requests(woken + [x], req)) == Taken(c, AfterGrants(c, word, Requests(woken, req)), req[x])
    ensures Affordable(c, word, Requests(woken, req)) && CanTake(c, AfterGrants(c, word, Requests(woken, req)), req[x]) ==>
              Affordable(c, word, Requests(woken + [x], req))
  {
    var rs := Requests(woken + [x], req);
    assert rs[..|woken|] == Requests(woken, req);
  }

  // ---- the steps of the holder, made without interruption ----

  /** A thread makes n steps in a row. */
  function Alone(c: Client, s: State, t: Tid, n: nat): State
    requires t < |s.threads|
    decreases n
  {
    if n == 0 then s else Alone(c, Advance(c, s, t), t, n - 1)
  }

  /** The blocks whose parkers are locked. */
  function Locked(s: State): set<Tid> {
    set x | 0 <= x < |s.threads| && !s.threads[x].parker.Open?
  }

  predicate AtProc(s: State, t: Tid, rem: seq<Block>, pos: nat, changed: bool, force: bool, k: After) {
    && t < |s.threads| && s.threads[t].pc == Hold(Proc(rem, pos, changed, force), k)
    && rem != [] && pos <= |s.head| && forall i :: 0 <= i < |rem| ==> rem[i].who < |s.threads|
  }

  /** The holder has put blocks behind position pos of the list and on the private queue, and has come to h. */
  predicate Passed(s: State, e: State, t: Tid, live: seq<Tid>, only: seq<Tid>, pos: nat, h: HoldPc, k: After) {
    && t < |s.threads| == |e.threads| && e.threads[t].pc == Hold(h, k)
    && pos <= |s.head| && e.head == s.head[..pos] + live + s.head[pos..] && e.private == only + s.private
  }

  /** What one step of the holder does to the fields of the loop. */
  lemma ProcStepIsPass(c: Client, s: State, t: Tid, rem: seq<Block>, pos: nat, changed: bool, force: bool, k: After)
    requires AtProc(s, t, rem, pos, changed, force, k)
    ensures var s', x := Advance(c, s, t), rem[0].who; var live := rem[0].Acquire? && x !in Locked(s);
      && Passed(s, s', t, if live then [x] else [], if rem[0].LockOnly? then [x] else [], pos, ProcNext(rem, pos, changed || live, force), k)
      && Locked(s') == Locked(s)
      && (|rem| > 1 ==> AtProc(s', t, rem[1..], pos, changed || live, force, k))
  {
    var s' := Advance(c, s, t);
    assert forall y :: 0 <= y < |s.threads| ==> s'.threads[y].parker == s.threads[y].parker;
    assert s.head[..pos] + [] + s.head[pos..] == s.head;
  }

  lemma PassedOn(s: State, s1: State, e: State, t: Tid, mine: seq<Tid>, own: seq<Tid>, older: seq<Tid>, only: seq<Tid>,
                 pos: nat, h1: HoldPc, h: HoldPc, k: After)
    requires Passed(s, s1, t, mine, own, pos, h1, k) && Passed(s1, e, t, older, only, pos, h, k)
    ensures Passed(s, e, t, older + mine, only + own, pos, h, k)
  {
    Behind(s.head, s1.head, pos, older, mine);
  }

  /** The holder's steps, if nobody interferes, do what the loop does. */
  lemma {:induction false} ProcStepsMatchLoop(c: Client, s: State, t: Tid, rem: seq<Block>, pos: nat, changed: bool, force: bool, k: After)
    requires AtProc(s, t, rem, pos, changed, force, k)
    ensures var live := Live(rem, Locked(s));
      Passed(s, Alone(c, s, t, |rem|), t, live, LockOnlyBlocks(rem), pos, if (changed || live != []) && !force then RTest else ULoop(force), k)
    decreases |rem|
  {
    var locked, rest, s1 := Locked(s), rem[1..], Advance(c, s, t);
    var live1 := rem[0].Acquire? && rem[0].who !in locked;
    var mine, own := if live1 then [rem[0].who] else [], if rem[0].LockOnly? then [rem[0].who] else [];
    assert t < |s.threads|;
    hide Advance, Locked, Live, LockOnlyBlocks, Alone, Passed, AtProc;
    ProcStepIsPass(c, s, t, rem, pos, changed, force, k);
    StackGoesOn(rem, locked);
    AloneOne(c, s, t, |rem|);
    if |rem| > 1 {
      ProcStepsMatchLoop(c, s1, t, rest, pos, changed || live1, force, k);
      PassedOn(s, s1, Alone(c, s, t, |rem|), t, mine, own, Live(rest, locked), LockOnlyBlocks(rest), pos,
               ProcNext(rem, pos, changed || live1, force), if (changed || live1 || Live(rest, locked) != []) && !force then RTest else ULoop(force), k);
    } else {
      assert rest == [];
      StackEnds(locked);
      AloneNone(c, s1, t);
    }
  }

  lemma AloneOne(c: Client, s: State, t: Tid, n: nat)
    requires t < |s.threads| && n > 0
    ensures |Advance(c, s, t).threads| == |s.threads| && Alone(c, s, t, n) == Alone(c, Advance(c, s, t), t, n - 1)
  {
  }

  lemma AloneNone(c: Client, s: State, t: Tid)
    requires t < |s.threads|
    ensures Alone(c, s, t, 0) == s
  {
  }

  lemma Behind(head: seq<Tid>, head': seq<Tid>, pos: nat, older: seq<Tid>, mine: seq<Tid>)
    requires pos <= |head| && head' == head[..pos] + mine + head[pos..]
    ensures pos <= |head'| && head'[..pos] + older + head'[pos..] == head[..pos] + (older + mine) + head[pos..]
  {
  }
}
