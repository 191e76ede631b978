/** The brew timer: a running flag and a 31-bit millisecond clock packed into one 32-bit word. */
module BrewTimers {

  const RUNNING_FLAG: nat := 0x8000_0000
  const VALUE_MASK: nat := 0x7fff_ffff
  const WORD32: nat := 0x1_0000_0000

  // ---------------------------------------------------------------- bit operations

  function Pow2(k: nat): (p: nat)
    ensures p > 0
  {
    if k == 0 then 1 else 2 * Pow2(k - 1)
  }

  /** Bitwise conjunction, digit by digit. */
  function And(a: nat, b: nat): nat {
    if a == 0 then 0 else 2 * And(a / 2, b / 2) + (if a % 2 == 1 && b % 2 == 1 then 1 else 0)
  }

  /** Bitwise disjunction, digit by digit. */
  function Or(a: nat, b: nat): nat
    decreases a + b
  {
    if a == 0 && b == 0 then 0 else 2 * Or(a / 2, b / 2) + (if a % 2 == 1 || b % 2 == 1 then 1 else 0)
  }

  /** Unsigned 32-bit subtraction. */
  function Sub32(a: nat, b: nat): nat {
    (a - b) % WORD32
  }

  lemma {:induction false} MaskIsRemainder(w: nat, k: nat)
    ensures And(w, Pow2(k) - 1) == w % Pow2(k)
  {
    if k == 0 {
      AndZero(w);
    } else if w > 0 {
      var p := Pow2(k - 1);
      MaskIsRemainder(w / 2, k - 1);
      HalfRemainder(w, p);
      AndOdd(w, p - 1);
    } else {
      ZeroRemainder(Pow2(k));
    }
  }

  lemma AndOdd(w: nat, m: nat)
    ensures And(w, 2 * m + 1) == 2 * And(w / 2, m) + w % 2
  {
    assert (2 * m + 1) / 2 == m;
  }

  lemma ZeroRemainder(d: nat)
    requires d > 0
    ensures 0 % d == 0
  {
  }

  lemma {:induction false} AndZero(w: nat)
    ensures And(w, 0) == 0
  {
    if w > 0 {
      AndZero(w / 2);
    }
  }

  lemma SmallMultiple(d: int, t: int)
    requires d > 0 && -d < d * t < d
    ensures t == 0
  {
    if t != 0 {
      var u := if t > 0 then t else -t;
      MulAtLeast(d, u);
    }
  }

  lemma MulAtLeast(d: nat, t: int)
    requires t >= 1
    ensures d * t >= d
  {
  }

  lemma RemainderUnique(w: nat, d: nat, q: int, r: nat)
    requires d > 0 && w == d * q + r && r < d
    ensures w % d == r
  {
    var q' := w / d;
    assert w == d * q' + w % d;
    assert d * (q - q') == d * q - d * q';
    SmallMultiple(d, q - q');
  }

  lemma HalfRemainder(w: nat, p: nat)
    requires p > 0
    ensures w % (2 * p) == 2 * (w / 2 % p) + w % 2
  {
    var q, r := w / 2 / p, w / 2 % p;
    assert w / 2 == p * q + r;
    assert (2 * p) * q == 2 * (p * q);
    RemainderUnique(w, 2 * p, q, 2 * r + w % 2);
  }

  lemma {:induction false} FlagTest(w: nat, k: nat)
    requires w < 2 * Pow2(k)
    ensures And(w, Pow2(k)) == if w < Pow2(k) then 0 else Pow2(k)
  {
    if k == 0 {
    } else if w > 0 {
      FlagTest(w / 2, k - 1);
    }
  }

  lemma {:induction false} OrZero(w: nat)
    ensures Or(0, w) == w
  {
    if w > 0 {
      OrZero(w / 2);
    }
  }

  lemma {:induction false} FlagIsAdded(w: nat, k: nat)
    requires w < Pow2(k)
    ensures Or(Pow2(k), w) == Pow2(k) + w
  {
    if k > 0 {
      FlagIsAdded(w / 2, k - 1);
    }
  }

  lemma FlagIsPow2()
    ensures Pow2(31) == RUNNING_FLAG
  {
    assert Pow2(8) == 256;
    assert Pow2(16) == 65536;
    assert Pow2(24) == 0x100_0000;
  }

  /** On 32-bit words: testing the flag is a comparison, masking a remainder, setting the flag an addition. */
  lemma WordOperations(w: nat)
    requires w < WORD32
    ensures And(w, RUNNING_FLAG) == 0 <==> w < RUNNING_FLAG
    ensures And(w, VALUE_MASK) == w % RUNNING_FLAG
    ensures w < RUNNING_FLAG ==> Or(RUNNING_FLAG, w) == RUNNING_FLAG + w
  {
    FlagIsPow2();
    FlagTest(w, 31);
    MaskIsRemainder(w, 31);
    if w < RUNNING_FLAG {
      FlagIsAdded(w, 31);
    }
  }

  // ---------------------------------------------------------------- the word

  /** The clock in milliseconds modulo its 31 bits. */
  function Now(ms: nat): (r: nat)
    ensures r < RUNNING_FLAG
  {
    ms % RUNNING_FLAG
  }

  lemma CastKeepsClock(ms: nat)
    ensures (ms % WORD32) % RUNNING_FLAG == Now(ms)
  {
    var cast := ms % WORD32;
    assert ms == WORD32 * (ms / WORD32) + cast && cast == RUNNING_FLAG * (cast / RUNNING_FLAG) + cast % RUNNING_FLAG;
    RemainderUnique(ms, RUNNING_FLAG, 2 * (ms / WORD32) + cast / RUNNING_FLAG, cast % RUNNING_FLAG);
  }

  predicate Running(w: nat) {
    w >= RUNNING_FLAG
  }

  function StartedWord(ms: nat): nat {
    RUNNING_FLAG + Now(ms)
  }

  /** The time reported for a word; a stop stores it. */
  function Elapsed(w: nat, ms: nat): nat {
    if Running(w) then (Now(ms) - w % RUNNING_FLAG) % WORD32 else w
  }

  /** The masked clock did not wrap between two instants less than one period apart. */
  predicate NoWrap(start: nat, end: nat) {
    Now(start) <= Now(end)
  }

  /** Masked clocks differ by the true distance modulo a period. */
  lemma ClockDistance(start: nat, end: nat)
    ensures var d := (end - start) % RUNNING_FLAG;
            Now(end) - Now(start) == if NoWrap(start, end) then d else d - RUNNING_FLAG
  {
  }

  /** A running timer reports the time since its start modulo a period, plus a period if the clock wrapped. */
  lemma ElapsedValue(start: nat, end: nat)
    ensures var d := (end - start) % RUNNING_FLAG;
            && Elapsed(StartedWord(start), end) == (if NoWrap(start, end) then d else d + RUNNING_FLAG)
            && Elapsed(StartedWord(start), end) % RUNNING_FLAG == d
  {
    ClockDistance(start, end);
  }

  /** The whole word is exact precisely when the masked clock did not wrap; otherwise it is one period too large. */
  lemma ElapsedExactIffNoWrap(start: nat, end: nat)
    requires start <= end < start + RUNNING_FLAG
    ensures Elapsed(StartedWord(start), end) == end - start <==> NoWrap(start, end)
    ensures !NoWrap(start, end) ==> Elapsed(StartedWord(start), end) == end - start + RUNNING_FLAG
  {
    ElapsedValue(start, end);
  }

  /** In any case the low 31 bits of the reported time are the true elapsed time. */
  lemma ElapsedLowBits(start: nat, end: nat)
    requires start <= end < start + RUNNING_FLAG
    ensures Elapsed(StartedWord(start), end) % RUNNING_FLAG == end - start
  {
    ElapsedValue(start, end);
  }

  /** For any two instants, stop clears the running flag precisely when the masked clock did not wrap. */
  lemma StopClearsIffNoWrap(start: nat, end: nat)
    ensures !Running(Elapsed(StartedWord(start), end)) <==> NoWrap(start, end)
  {
  }

  /** A cleared timer keeps the true duration for ever, through later stops as well. */
  lemma StoppedTimeIsKept(start: nat, end: nat, later: nat)
    requires start <= end < start + RUNNING_FLAG && NoWrap(start, end)
    ensures Elapsed(Elapsed(StartedWord(start), end), later) == end - start
  {
    ElapsedValue(start, end);
  }

  /** A stop across a wrap restarts the timer: the word is the one a start at the elapsed duration would leave. */
  lemma WrappedStopRestarts(start: nat, end: nat)
    requires start <= end < start + RUNNING_FLAG && !NoWrap(start, end)
    ensures Elapsed(StartedWord(start), end) == StartedWord(end - start)
  {
    ElapsedValue(start, end);
  }

  /** A concrete wrapped stop: started one millisecond before the clock wraps, stopped two later. */
  lemma WrappedStopExample()
    ensures Running(Elapsed(StartedWord(0x7fff_ffff), 0x8000_0001))
    ensures Elapsed(StartedWord(0x7fff_ffff), 0x8000_0001) == 0x8000_0002
  {
  }

  /** What a timer means: it has run since an instant, or it holds a duration. */
  datatype Phase = Since(start: nat) | Held(duration: nat)

  class BrewTimer {
    var state: nat
    ghost var phase: Phase

    ghost predicate Valid()
      reads this
    {
      match phase
      case Since(start) => state == StartedWord(start)
      case Held(duration) => state == duration < RUNNING_FLAG
    }

    constructor ()
      ensures Valid() && phase == Held(0) && state == 0
    {
      state, phase := 0, Held(0);
    }

    /** The steady clock, cast to 32 bits and masked. */
    static method ReadClock(ms: nat) returns (now: nat)
      ensures now == Now(ms)
    {
      CastKeepsClock(ms);
      WordOperations(ms % WORD32);
      now := And(ms % WORD32, VALUE_MASK);
    }

    /** From now on the timer runs since this instant. */
    method Start(ms: nat)
      modifies this
      ensures Valid() && phase == Since(ms) && state == StartedWord(ms)
    {
      var now := ReadClock(ms);
      WordOperations(now);
      state := Or(RUNNING_FLAG, now);
      phase := Since(ms);
    }

    /**
      A running timer ends up holding the elapsed time modulo a period if the clock did not wrap, and
      running since that duration if it did; a timer that holds a duration keeps it.
     */
    method Stop(ms: nat)
      requires Valid()
      modifies this
      ensures Valid() && state == Elapsed(old(state), ms)
      ensures phase == match old(phase)
              case Held(duration) => Held(duration)
              case Since(start) =>
                var d := (ms - start) % RUNNING_FLAG;
                if NoWrap(start, ms) then Held(d) else Since(d)
    {
      WordOperations(state);
      if And(state, RUNNING_FLAG) == 0 {
        return;
      }
      var now := ReadClock(ms);
      state := Sub32(now, And(state, VALUE_MASK));
      ElapsedValue(phase.start, ms);
      phase := if NoWrap(phase.start, ms) then Held((ms - phase.start) % RUNNING_FLAG)
               else Since((ms - phase.start) % RUNNING_FLAG);
    }

    /** The timer reports zero at any instant, until it is started. */
    method Reset()
      modifies this
      ensures Valid() && phase == Held(0) && state == 0
      ensures forall ms: nat :: Elapsed(state, ms) == 0
    {
      state := 0;
      phase := Held(0);
    }

    /**
      A held duration is reported as it is. A running timer reports the time since its start: modulo a
      period always, and exactly within one period iff the clock did not wrap.
     */
    method ElapsedTime(ms: nat) returns (r: nat)
      requires Valid()
      ensures phase.Held? ==> r == phase.duration
      ensures phase.Since? ==> r % RUNNING_FLAG == (ms - phase.start) % RUNNING_FLAG
      ensures phase.Since? && phase.start <= ms < phase.start + RUNNING_FLAG ==>
                (r == ms - phase.start <==> NoWrap(phase.start, ms))
    {
      WordOperations(state);
      if And(state, RUNNING_FLAG) == 0 {
        return state;
      }
      var now := ReadClock(ms);
      ElapsedValue(phase.start, ms);
      r := Sub32(now, And(state, VALUE_MASK));
    }
  }
}
