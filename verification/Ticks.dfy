/**
 The RTOS tick counter: 32-bit, 100 Hz, compared by unsigned or signed difference.

 States below keep stamps as true tick counts (never wrapped), and every test the firmware makes on
 them goes through the functions of this module, which work on the difference modulo 2^32. A stamp
 and its low 32 bits give the same difference, so each test has exactly the firmware's outcome,
 whatever the uptime.
 */
module Ticks {
  const WORD: int := 0x1_0000_0000
  const HALF: int := 0x8000_0000

  // `now - at` in unsigned 32-bit arithmetic.
  function Since(now: int, at: int): (r: nat)
    ensures r < WORD
    ensures at <= now < at + WORD ==> r == now - at
    ensures now < at <= now + WORD ==> r == now - at + WORD
  {
    WrapOnce(now - at);
    (now - at) % WORD
  }

  lemma WrapOnce(d: int)
    ensures 0 <= d < WORD ==> d % WORD == d
    ensures -WORD <= d < 0 ==> d % WORD == d + WORD
  {
    if -WORD <= d < 0 {
      assert d == WORD * (-1) + (d + WORD);
    }
  }

  // `(int32_t)(now - at)`: the signed difference.
  function Signed(now: int, at: int): (r: int)
    ensures -HALF <= r < HALF
    ensures -HALF <= now - at < HALF ==> r == now - at
  {
    var d := Since(now, at);
    if d < HALF then d else d - WORD
  }

  // `(int32_t)(now - at) >= 0`.
  predicate Due(now: int, at: int) {
    Signed(now, at) >= 0
  }

  // `ticks_ms`: 10 ms a tick, in 32 bits.
  function Ms(t: nat): (r: nat)
    ensures r < WORD
    ensures t * 10 < WORD ==> r == t * 10
  {
    (t * 10) % WORD
  }

  // `pdMS_TO_TICKS`: truncates to whole ticks.
  function FromMs(ms: nat): nat {
    ms / 10
  }

  // A stamp whose 32 bits are 0 means "none".
  predicate Unset(at: int) {
    at % WORD == 0
  }

  // `now ? now : 1`.
  function Stamp(now: nat): (r: nat)
    ensures !Unset(r) && now <= r <= now + 1
    ensures !Unset(now) ==> r == now
  {
    if Unset(now) then now + 1 else now
  }
}
