/**
 Rings in an array: a number of elements from a head position on, which go on at the start
 of the array when they reach its end.
 */
module Rings {

  /** The elements of a ring from head on. */
  function Ring<T>(a: seq<T>, head: nat, count: nat): (r: seq<T>)
    requires head < |a| && count <= |a|
    ensures |r| == count
  {
    if head + count <= |a| then a[head..head + count] else a[head..] + a[..head + count - |a|]
  }

  /** The position n places after another one. */
  function After(at: nat, n: nat, capacity: nat): nat
    requires at < capacity && n <= capacity
  {
    if at + n < capacity then at + n else at + n - capacity
  }

  lemma AfterIsModulo(at: nat, n: nat, capacity: nat)
    requires at < capacity && n <= capacity
    ensures After(at, n, capacity) == (at + n) % capacity
  {
    var x, q := at + n, (at + n) / capacity;
    assert x == q * capacity + x % capacity;
    assert q < 2 || q * capacity >= 2 * capacity;
    assert q == 0 || q == 1;
  }

  /** The array after elements were copied to a position. */
  function Pasted<T>(a: seq<T>, at: nat, bs: seq<T>): (r: seq<T>)
    requires at + |bs| <= |a|
    ensures |r| == |a|
  {
    a[..at] + bs + a[at + |bs|..]
  }

  lemma NothingPasted<T>(a: seq<T>, at: nat)
    requires at <= |a|
    ensures Pasted(a, at, []) == a
  {
  }

  lemma PasteOneMore<T>(a: seq<T>, at: nat, bs: seq<T>, i: nat)
    requires at + |bs| <= |a| && i < |bs|
    ensures Pasted(a, at, bs[..i])[at + i := bs[i]] == Pasted(a, at, bs[..i + 1])
  {
    assert bs[..i + 1] == bs[..i] + [bs[i]];
  }

  /** The array after elements were copied to the ring, in one or two parts. */
  function PutAt<T>(a: seq<T>, tail: nat, bs: seq<T>): (r: seq<T>)
    requires tail < |a| && |bs| <= |a|
    ensures |r| == |a|
  {
    if |a| - tail >= |bs| then Pasted(a, tail, bs)
    else Pasted(Pasted(a, tail, bs[..|a| - tail]), 0, bs[|a| - tail..])
  }

  /** The place in the array of an element of a ring. */
  lemma RingAt<T>(a: seq<T>, head: nat, count: nat, i: nat)
    requires head < |a| && i < count <= |a|
    ensures Ring(a, head, count)[i] == a[if head + i < |a| then head + i else head + i - |a|]
  {
  }

  lemma PastedEach<T>(a: seq<T>, at: nat, bs: seq<T>, i: nat)
    requires at + |bs| <= |a| && i < |a|
    ensures Pasted(a, at, bs)[i] == if at <= i < at + |bs| then bs[i - at] else a[i]
  {
  }

  /** The array after elements were copied to the ring, place by place. */
  lemma PutAtEach<T>(a: seq<T>, tail: nat, bs: seq<T>, i: nat)
    requires tail < |a| && |bs| <= |a| && i < |a|
    ensures var at := if i >= tail then i - tail else i - tail + |a|;
      PutAt(a, tail, bs)[i] == if at < |bs| then bs[at] else a[i]
  {
    hide Pasted;
    if |a| - tail >= |bs| {
      PastedEach(a, tail, bs, i);
    } else {
      PastedEach(a, tail, bs[..|a| - tail], i);
      PastedEach(Pasted(a, tail, bs[..|a| - tail]), 0, bs[|a| - tail..], i);
    }
  }

  lemma PutAppends<T>(a: seq<T>, head: nat, count: nat, bs: seq<T>)
    requires head < |a| && count + |bs| <= |a|
    ensures var tail := After(head, count, |a|);
      && Ring(PutAt(a, tail, bs), head, count + |bs|) == Ring(a, head, count) + bs
      && After(tail, |bs|, |a|) == After(head, count + |bs|, |a|)
  {
    hide Ring, PutAt;
    var tail := After(head, count, |a|);
    var a' := PutAt(a, tail, bs);
    forall i | 0 <= i < count + |bs|
      ensures Ring(a', head, count + |bs|)[i] == (Ring(a, head, count) + bs)[i]
    {
      RingAt(a', head, count + |bs|, i);
      PutAtEach(a, tail, bs, if head + i < |a| then head + i else head + i - |a|);
      if i < count {
        RingAt(a, head, count, i);
      }
    }
  }

  lemma TakeRemoves<T>(a: seq<T>, head: nat, count: nat, n: nat)
    requires head < |a| && n <= count <= |a|
    ensures var head' := After(head, n, |a|);
      && Ring(a, head', count - n) == Ring(a, head, count)[n..]
      && Ring(a, head, n) == Ring(a, head, count)[..n]
      && After(head', count - n, |a|) == After(head, count, |a|)
  {
    hide Ring;
    var head' := After(head, n, |a|);
    forall i | 0 <= i < count - n ensures Ring(a, head', count - n)[i] == Ring(a, head, count)[n..][i] {
      RingAt(a, head', count - n, i);
      RingAt(a, head, count, n + i);
    }
    forall i | 0 <= i < n ensures Ring(a, head, n)[i] == Ring(a, head, count)[..n][i] {
      RingAt(a, head, n, i);
      RingAt(a, head, count, i);
    }
  }

  function Joined<T>(parts: seq<seq<T>>): seq<T> {
    if parts == [] then [] else parts[0] + Joined(parts[1..])
  }

  /** The used part of the ring, as the dispose callback gets it: in no, one or two parts. */
  function PartsOf<T>(a: seq<T>, head: nat, count: nat): seq<seq<T>>
    requires head < |a| && count <= |a|
  {
    var tillEnd := |a| - head;
    if count == 0 then []
    else if count <= tillEnd then [a[head..head + count]]
    else [a[head..], a[..count - tillEnd]]
  }

  lemma PartsJoin<T>(a: seq<T>, head: nat, count: nat)
    requires head < |a| && count <= |a|
    ensures Joined(PartsOf(a, head, count)) == Ring(a, head, count)
  {
    var parts := PartsOf(a, head, count);
    if |parts| == 2 {
      assert parts[1..] == [parts[1]] && parts[1..][1..] == [];
      assert Joined(parts[1..]) == parts[1];
    } else if |parts| == 1 {
      assert parts[1..] == [];
      assert Joined(parts) == parts[0];
    }
  }

  /** One element at the end of the ring, and one from its start. */
  lemma PutOne<T>(a: seq<T>, head: nat, count: nat, x: T)
    requires head < |a| && count < |a|
    ensures var tail := After(head, count, |a|);
      && Ring(a[tail := x], head, count + 1) == Ring(a, head, count) + [x]
      && After(tail, 1, |a|) == After(head, count + 1, |a|)
  {
    var tail := After(head, count, |a|);
    PutAppends(a, head, count, [x]);
    assert PutAt(a, tail, [x]) == a[tail := x];
  }

  lemma TakeOne<T>(a: seq<T>, head: nat, count: nat)
    requires head < |a| && 0 < count <= |a|
    ensures Ring(a, After(head, 1, |a|), count - 1) == Ring(a, head, count)[1..]
    ensures a[head] == Ring(a, head, count)[0]
    ensures After(After(head, 1, |a|), count - 1, |a|) == After(head, count, |a|)
  {
    TakeRemoves(a, head, count, 1);
    RingAt(a, head, count, 0);
  }
}
