/** The beat counter and the on-board LED on bit 4 of PORTE (led.c). */
module Led {
  import opened Bytes

  /** Ticks in one beat cycle: the counter runs 0..498 and wraps. */
  const BeatPeriod: int := 499

  /** Length of the LED "on" window at the start of each beat. */
  const OnWindow: int := 100

  /** Mask of the LED bit (bit 4) of PORTE. */
  const LedBit: bv8 := 0x10

  /** The counter after one `beatStep`: increment, then back to 0 on reaching 499. */
  function NextBeat(b: int): (r: int)
    requires 0 <= b < BeatPeriod
    ensures 0 <= r < BeatPeriod
    ensures r == (b + 1) % BeatPeriod
  {
    if b + 1 == BeatPeriod then 0 else b + 1
  }

  /** The counter after `n` calls of `beatStep`. */
  function Beats(b: int, n: nat): (r: int)
    requires 0 <= b < BeatPeriod
    ensures 0 <= r < BeatPeriod
  {
    if n == 0 then b else NextBeat(Beats(b, n - 1))
  }

  /** After n steps the counter has moved n places round the 499-tick cycle. */
  lemma {:induction false} BeatsIsModular(b: int, n: nat)
    requires 0 <= b < BeatPeriod
    ensures Beats(b, n) == (b + n) % BeatPeriod
  {
    if n == 0 {
      ModOf(b, 0, b);
    } else {
      var m: nat := b + n - 1;
      BeatsIsModular(b, n - 1);
      assert Beats(b, n) == NextBeat(m % BeatPeriod);
      ModStep(m);
    }
  }

  lemma ModStep(m: nat)
    ensures (m % BeatPeriod + 1) % BeatPeriod == (m + 1) % BeatPeriod
  {
    var q, r := m / BeatPeriod, m % BeatPeriod;
    assert m == q * BeatPeriod + r;
    if r + 1 < BeatPeriod {
      ModOf(m + 1, q, r + 1);
    } else {
      ModOf(m + 1, q + 1, 0);
    }
  }

  lemma ModOf(a: int, q: int, r: int)
    requires 0 <= r < BeatPeriod && a == q * BeatPeriod + r
    ensures a % BeatPeriod == r
  {
  }

  /** The counter has period 499: any multiple of 499 steps brings it back. */
  lemma {:induction false} BeatPeriodic(b: int, k: nat)
    requires 0 <= b < BeatPeriod
    ensures Beats(b, k * BeatPeriod) == b
  {
    BeatsIsModular(b, k * BeatPeriod);
    assert (b + k * BeatPeriod) % BeatPeriod == b by {
      ModMultiple(b, k);
    }
  }

  lemma {:induction false} ModMultiple(b: int, k: nat)
    requires 0 <= b < BeatPeriod
    ensures (b + k * BeatPeriod) % BeatPeriod == b
  {
    if k > 0 {
      ModMultiple(b, k - 1);
      assert b + k * BeatPeriod == (b + (k - 1) * BeatPeriod) + BeatPeriod;
    }
  }

  /** PORTE after `ledWrite(on)`: bit 4 set when `on == 1`, cleared otherwise. */
  function WriteLedBit(port: bv8, on: u8): (r: bv8)
    ensures r & 0xEF == port & 0xEF
    ensures (r & LedBit != 0) <==> on == 1
  {
    if on == 1 then port | LedBit else port & 0xEF
  }

  /** The globals of led.c; `port` stands for the PORTE register. */
  class Beat {
    var beatCount: int
    var ledOn: u8
    var port: bv8

    ghost predicate Valid()
      reads this
    {
      0 <= beatCount < BeatPeriod && ledOn <= 1
    }

    constructor ()
      ensures Valid() && beatCount == 0 && ledOn == 0 && port == 0
    {
      beatCount := 0;
      ledOn := 0;
      port := 0;
    }

    /** `ledWrite`: sets or clears bit 4 of PORTE, nothing else, and records it in `ledOn`. */
    method LedWrite(on: u8)
      requires Valid()
      modifies this
      ensures Valid() && beatCount == old(beatCount)
      ensures port == WriteLedBit(old(port), on)
      ensures ledOn == (if on == 1 then 1 else 0)
    {
      if on == 1 {
        port := port | LedBit;
        ledOn := 1;
      } else {
        port := port & 0xEF;
        ledOn := 0;
      }
    }

    /** `beatStep`: advance the counter, then light the LED during the first 100 ticks of the beat. */
    method BeatStep()
      requires Valid()
      modifies this
      ensures Valid()
      ensures beatCount == NextBeat(old(beatCount))
      ensures ledOn == 1 <==> beatCount < OnWindow
      ensures port == WriteLedBit(old(port), ledOn)
    {
      beatCount := beatCount + 1;
      if beatCount == BeatPeriod {
        beatCount := 0;
      }
      if beatCount < OnWindow {
        LedWrite(1);
      } else {
        LedWrite(0);
      }
    }
  }
}
