/**
 The two synchronizers that are built on the locked queue and share its protocol: the
 counting semaphore and the read/write lock. Everything the queue protocol asks of a
 client is one of the functions below; the protocol itself is in LockedQueue.dfy.
 */
module LockClients {

  const LONG_MAX: int := 0x7FFF_FFFF
  const MAX_REQUEST: int := 0x3FFF_FFFF
  const WRITING: int := 0x4000_0000
  const MAX_READERS: int := WRITING - 1
  const LOCK_READ: int := 1
  const LOCK_WRITE: int := 2

  /** The initial and maximum counts of a semaphore are those given to its initializer. */
  datatype Client =
    | Semaphore(initial: int, maximum: int)
    | ReadWrite

  /** Two's complement truncation to a 32-bit LONG. */
  function Wrap32(x: int): (r: int)
    ensures -0x8000_0000 <= r <= LONG_MAX
    ensures -0x8000_0000 <= x <= LONG_MAX ==> r == x
    ensures LONG_MAX < x <= LONG_MAX + 0x1_0000_0000 ==> r == x - 0x1_0000_0000
  {
    (x + 0x8000_0000) % 0x1_0000_0000 - 0x8000_0000
  }

  function InitialWord(c: Client): int {
    if c.Semaphore? then c.initial else 0
  }

  /** The argument checks made before an acquire starts. */
  predicate ValidRequest(c: Client, r: int) {
    if c.Semaphore? then 0 < r <= c.maximum && r <= MAX_REQUEST
    else r == LOCK_READ || r == LOCK_WRITE
  }

  /** The test made by the acquire operations, queued or not, on the state word. */
  predicate CanTake(c: Client, word: int, r: int) {
    if c.Semaphore? then word - r >= 0
    else if r == LOCK_READ then word < MAX_READERS
    else word == 0
  }

  function Taken(c: Client, word: int, r: int): int {
    if c.Semaphore? then word - r
    else if r == LOCK_READ then word + 1
    else WRITING
  }

  /** The state word after the lock holder takes back a grant to a cancelled waiter. */
  function Undone(c: Client, word: int, r: int): int {
    if c.Semaphore? then Wrap32(word + r)
    else if r == LOCK_READ then word - 1
    else 0
  }

  /** What IsReleasePending tests between its reads of the hint and of the lock word. */
  predicate Pending(c: Client, word: int, hint: int) {
    if c.Semaphore? then hint <= word
    else word == 0 || (hint == LOCK_READ && word < MAX_READERS)
  }

  /** The guard of the release loop. */
  predicate LoopGuard(c: Client, word: int) {
    if c.Semaphore? then word > 0 else word < MAX_READERS
  }

  /** The ForceUnlock argument passed at the end of the release loop. */
  predicate Exhausted(c: Client, word: int) {
    if c.Semaphore? then word == 0 else word >= MAX_READERS
  }

  /** True if the release loop is left at once after this grant. */
  predicate Exclusive(c: Client, r: int) {
    c.ReadWrite? && r != LOCK_READ
  }

  /** The check of IsReleasePending agrees with the acquire it announces. */
  lemma PendingIsCanTake(c: Client, word: int, r: int)
    requires ValidRequest(c, r)
    ensures Pending(c, word, r) <==> CanTake(c, word, r)
  {
  }
}
