/** The millisecond clock and the send interval: `unsigned long` is a 32-bit
    unsigned value on the target, so the clock wraps after 2^32 ms and the
    elapsed-time test relies on wrap-around subtraction. */
module Interval {

  const MODULUS: int := 0x1_0000_0000

  /** unsigned long (32 bits). */
  newtype U32 = x: int | 0 <= x < 0x1_0000_0000

  /** The period of the keep-alive message, in milliseconds. */
  const SEND_INTERVAL: U32 := 10000

  /** `a - b` on unsigned long: subtraction modulo 2^32. */
  function Sub(a: U32, b: U32): (r: U32)
    ensures (b as int + r as int) % MODULUS == a as int
    ensures b <= a ==> r == a - b
    ensures a < b ==> r as int == MODULUS - (b as int - a as int)
  {
    ((a as int - b as int) % MODULUS) as U32
  }

  /** The send test of the loop: `currentTime - lastSendTime >= SEND_INTERVAL`. */
  predicate Due(now: U32, last: U32)
    ensures Due(now, last) <==>
      if last <= now then now as int - last as int >= SEND_INTERVAL as int
      else now as int + MODULUS - last as int >= SEND_INTERVAL as int
  {
    Sub(now, last) >= SEND_INTERVAL
  }

  /** What millis() reads after t milliseconds of uptime. */
  function Millis(t: nat): U32
  {
    (t % MODULUS) as U32
  }

  /** Wrap-around subtraction measures true elapsed time whenever less than
      one full clock period has passed, including across a rollover of the
      counter. */
  lemma ElapsedAcrossRollover(t0: nat, t1: nat)
    requires t0 <= t1 < t0 + MODULUS
    ensures Sub(Millis(t1), Millis(t0)) as int == t1 - t0
  {
    var a, b := t1 % MODULUS, t0 % MODULUS;
    var n0, n1 := t0 / MODULUS, t1 / MODULUS;
    assert t0 == n0 * MODULUS + b && t1 == n1 * MODULUS + a;
    if b <= a {
      assert n1 == n0;
    } else {
      assert n1 == n0 + 1;
    }
  }

  /** Hence the send test fires exactly when at least SEND_INTERVAL ms have
      really passed, rollover or not. */
  lemma DueAcrossRollover(t0: nat, t1: nat)
    requires t0 <= t1 < t0 + MODULUS
    ensures Due(Millis(t1), Millis(t0)) <==> t1 - t0 >= SEND_INTERVAL as int
  {
    ElapsedAcrossRollover(t0, t1);
  }

  /** Right after a send (or a connect) at time t, the test does not fire
      again until the clock reads at least SEND_INTERVAL later. */
  lemma NotDueRightAfter(t: U32, d: U32)
    requires d < SEND_INTERVAL
    ensures !Due(Millis(t as int + d as int), t)
  {
    ElapsedAcrossRollover(t as int, t as int + d as int);
    assert Millis(t as int) == t;
  }
}
