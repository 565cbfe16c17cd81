/**
 * The tick counter both task loops keep: a `uint32_t round`, incremented
 * once per pass, with a status check on every 20th value and a publish on
 * every 5th.
 */
module Schedule {

  const UINT32_MODULUS := 0x1_0000_0000
  type uint32 = x: int | 0 <= x < UINT32_MODULUS

  /** How often to check the status, in ticks. */
  const STATUS_CHECK_INTERVAL := 20
  /** How often to publish, in ticks. */
  const PUBLISH_INTERVAL := 5

  /** `round++` on a uint32_t: wraps to 0 after 2^32 - 1. */
  function Next(r: uint32): (n: uint32)
    ensures r < UINT32_MODULUS - 1 ==> n == r + 1
    ensures r == UINT32_MODULUS - 1 ==> n == 0
  {
    (r + 1) % UINT32_MODULUS
  }

  predicate StatusTick(r: uint32) {
    r % STATUS_CHECK_INTERVAL == 0
  }

  predicate PublishTick(r: uint32) {
    r % PUBLISH_INTERVAL == 0
  }

  /** Every status tick is a publish tick. */
  lemma StatusTickIsPublishTick(r: uint32)
    ensures StatusTick(r) ==> PublishTick(r)
  {
  }

  /** An extra `round++` right after a publish tick skips one value.  That
      value is neither a publish nor a status tick, except at the very end
      of the uint32 range: 2^32 - 1 is a multiple of 5, and the value it
      skips is 0, a status tick. */
  lemma {:induction false} ExtraIncrementSkipsNoTick(r: uint32)
    requires PublishTick(r)
    ensures r < UINT32_MODULUS - 1 ==> !PublishTick(Next(r)) && !StatusTick(Next(r))
    ensures r == UINT32_MODULUS - 1 ==> Next(r) == 0 && StatusTick(Next(r))
  {
    if r < UINT32_MODULUS - 1 {
      assert Next(r) == r + 1;
      assert (r + 1) % 5 == 1 by {
        assert r == 5 * (r / 5);
      }
    }
  }

  /** The last status tick before the wrap is 2^32 - 16: from there the next
      status tick (0) comes after 16 increments, not 20. */
  lemma WrapShortensLastCycle()
    ensures StatusTick(UINT32_MODULUS - 16)
    ensures forall r: uint32 :: UINT32_MODULUS - 16 < r ==> !StatusTick(r)
  {
  }

  /** Counting ticks from a status tick, the next one is 20 increments later
      (away from the wrap). */
  lemma {:induction false} StatusTicksTwentyApart(r: uint32, k: nat)
    requires StatusTick(r) && r + k < UINT32_MODULUS
    ensures StatusTick(r + k) <==> k % STATUS_CHECK_INTERVAL == 0
  {
    assert r == 20 * (r / 20);
    assert (r + k) % 20 == k % 20;
  }
}
