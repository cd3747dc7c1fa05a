/** The order in which timers expire: LocTimerDelegate::ranks and the deadline that
    LocTimer::start computes (gps/utils/LocTimer.cpp). */
module LocTimerRank {

  import opened HeapTree

  const NANOS_PER_SEC := 1_000_000_000

  // A struct timespec, read on the boot-time clock.
  datatype Timespec = Timespec(sec: int, nsec: int)

  predicate Normalized(t: Timespec) {
    0 <= t.nsec < NANOS_PER_SEC
  }

  function Nanos(t: Timespec): int {
    t.sec * NANOS_PER_SEC + t.nsec
  }

  // Conversion of a wider integer to a 32-bit int keeps the low 32 bits.
  function ToInt32(x: int): int {
    (x + 0x8000_0000) % 0x1_0000_0000 - 0x8000_0000
  }

  // Positive when a expires before b.
  function Ranks(a: Timespec, b: Timespec): int {
    var rank := ToInt32(b.sec - a.sec);
    if rank == 0 then ToInt32(b.nsec - a.nsec) else rank
  }

  // Within a span of 2^32 seconds the rank is right exactly when the difference of the
  // seconds fits in an int.
  lemma RanksRightIffSecondsFit(a: Timespec, b: Timespec)
    requires Normalized(a) && Normalized(b) && -0x1_0000_0000 < b.sec - a.sec < 0x1_0000_0000
    ensures (Ranks(a, b) > 0 <==> Nanos(a) < Nanos(b)) <==> -0x8000_0000 <= b.sec - a.sec < 0x8000_0000
  {
    var d := b.sec - a.sec;
    if d >= 0x8000_0000 {
      assert ToInt32(d) == d - 0x1_0000_0000;
    } else if d < -0x8000_0000 {
      assert ToInt32(d) == d + 0x1_0000_0000;
    } else {
      assert ToInt32(d) == d;
      assert ToInt32(b.nsec - a.nsec) == b.nsec - a.nsec;
    }
  }

  // The clock counts from the boot.
  predicate IsInstant(t: Timespec) {
    Normalized(t) && Nanos(t) > 0
  }

  type Instant = t: Timespec | IsInstant(t) witness Timespec(0, 1)

  const WINDOW := 0x8000_0000

  // Any 2^31 seconds will do: ranks only looks at differences.
  predicate InWindow(t: Timespec, base: int) {
    base <= t.sec < base + WINDOW
  }

  lemma RanksIsByDeadline(a: Instant, b: Instant, base: int)
    requires InWindow(a, base) && InWindow(b, base)
    ensures Ranks(a, b) > 0 <==> Nanos(a) < Nanos(b)
  {
    RanksRightIffSecondsFit(a, b);
  }

  // A LocTimerDelegate as the heap sees it: an address and a deadline.
  datatype Timer = Timer(id: nat, when: Instant)

  function TimerRanks(a: Timer, b: Timer): int {
    Ranks(a.when, b.when)
  }

  // The order meant: the earlier deadline ranks higher.
  function ByDeadline(a: Timer, b: Timer): int {
    Nanos(b.when) - Nanos(a.when)
  }

  ghost predicate AllInWindow(t: Tree<Timer>, x: Timer, base: int) {
    InWindow(x.when, base) && forall y | y in Elements(t) :: InWindow(y.when, base)
  }

  // In a window the int arithmetic of ranks never goes wrong, so a heap of timers is the
  // heap that the deadlines ask for.
  lemma HeapIsByDeadline(t: Tree<Timer>, x: Timer, base: int)
    requires AllInWindow(t, x, base)
    ensures Push(TimerRanks, t, x) == Push(ByDeadline, t, x)
    ensures t.Node? ==> Pop(TimerRanks, t) == Pop(ByDeadline, t)
    ensures Remove(TimerRanks, t, x) == Remove(ByDeadline, t, x)
  {
    var within := (y: Timer) => InWindow(y.when, base);
    forall a: Timer, b: Timer | within(a) && within(b)
      ensures OutRanks(TimerRanks, a, b) <==> OutRanks(ByDeadline, a, b)
    {
      RanksIsByDeadline(a.when, b.when, base);
    }
    SameOrderSamePush(TimerRanks, ByDeadline, within, t, x);
    if t.Node? {
      SameOrderSamePop(TimerRanks, ByDeadline, within, t);
    }
    SameOrderSameRemove(TimerRanks, ByDeadline, within, t, x);
  }

  lemma DeadlinesAreTotallyPreordered()
    ensures TotalPreorder(ByDeadline)
  {}

  // Four deadlines more than 2^31 seconds apart: a timer that is in the heap, and that
  // remove does not find.
  lemma RemoveMissesWhenSecondsDoNotFit()
    ensures var a, b, c, d :=
        Timespec(0, 1), Timespec(0x4000_0000, 0), Timespec(0x4000_0000, 1), Timespec(0x8000_0001, 0);
      var t := Push(Ranks, Push(Ranks, Push(Ranks, Push(Ranks, Leaf, a), b), c), d);
      b in Elements(t) && !Remove(Ranks, t, b).found
  {
    var a, b, c, d :=
      Timespec(0, 1), Timespec(0x4000_0000, 0), Timespec(0x4000_0000, 1), Timespec(0x8000_0001, 0);
    assert !OutRanks(Ranks, b, a) && !OutRanks(Ranks, c, a) && !OutRanks(Ranks, a, d);
    assert OutRanks(Ranks, d, a) && OutRanks(Ranks, a, b) && OutRanks(Ranks, b, d);
    var ta, tb, tc := Single(a), Single(b), Single(c);
    assert Push(Ranks, ta, b) == Node(2, a, tb, Leaf);
    assert Push(Ranks, Node(2, a, tb, Leaf), c) == Node(3, a, tb, tc);
    assert Push(Ranks, tb, a) == Node(2, a, tb, Leaf);
    assert Push(Ranks, Node(3, a, tb, tc), d) == Node(4, d, Node(2, a, tb, Leaf), tc);
    assert b in Elements(tb);
    assert b in Elements(Node(2, a, tb, Leaf));
  }

  // ---------- The deadline computed by LocTimer::start ----------

  // The largest unsigned int.
  const UINT32_MAX := 0xFFFF_FFFF

  function FutureTime(now: Instant, timeOutInMs: nat): Instant {
    var sec := now.sec + timeOutInMs / 1000;
    var nsec := now.nsec + timeOutInMs % 1000 * 1_000_000;
    if nsec >= NANOS_PER_SEC then Timespec(sec + nsec / NANOS_PER_SEC, nsec % NANOS_PER_SEC)
    else Timespec(sec, nsec)
  }

  lemma FutureTimeIsExact(now: Instant, timeOutInMs: nat)
    ensures Nanos(FutureTime(now, timeOutInMs)) == Nanos(now) + timeOutInMs * 1_000_000
  {
    assert timeOutInMs == timeOutInMs / 1000 * 1000 + timeOutInMs % 1000;
  }
}
