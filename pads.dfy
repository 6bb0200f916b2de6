/**
 * The pad grid and the timer shared by the Launchpad Pro applications.
 *
 * The firmware numbers the pads 0..99 as `x + 10 * y`: column 0 and 9 and
 * row 0 and 9 are the side buttons, the 8 x 8 pads are the interior.
 */
module Pads {
  /** C's `u8`. */
  type U8 = x: int | 0 <= x < 256

  /** C's `u8` arithmetic: `x - 1` at 0 wraps to 255. */
  function Wrap(n: int): U8
  {
    n % 256
  }

  /** `BUTTON_COUNT`: the length of every pad array. */
  const ButtonCount: nat := 100
  /** `TICK_MS`: the timer callback acts once every this many calls. */
  const TickMs: nat := 500
  /** The event type of a pad press or release (`TYPEPAD` in the firmware's headers). */
  const TypePad: U8 := 0
  /** The brightest LED level (`MAXLED` in the firmware's headers). */
  const MaxLed: U8 := 63

  /** The pad at column x of row y. */
  function Index(x: int, y: int): int
  {
    x + y * 10
  }

  /** Column x of row y is one of the 8 x 8 pads. */
  predicate InGrid(x: int, y: int)
  {
    0 < x < 9 && 0 < y < 9
  }

  /** Pad k is one of the 8 x 8 pads. */
  predicate Interior(k: int)
  {
    0 <= k < ButtonCount && InGrid(k % 10, k / 10)
  }

  /** Column and row can be read back from a pad number. */
  lemma IndexCoordinates(x: int, y: int)
    requires 0 <= x < 10 && 0 <= y < 10
    ensures Index(x, y) % 10 == x && Index(x, y) / 10 == y
    ensures Interior(Index(x, y)) <==> InGrid(x, y)
  {
  }

  /** Column a of row b is a pad of the array. */
  predicate Pad(a: int, b: int)
  {
    0 <= a < 10 && 0 <= b < 10
  }

  /**
   * The scan of both gate simulators, rows 1..8 top to bottom, stands before
   * step x of row y: steps 1..8 visit the row's pads,
   * step 9 finishes the row, and step 10 of a row is step 1 of the next.
   * Step 1 of row 9 is the end of the scan.
   */
  predicate At(x: int, y: int)
  {
    (1 <= x <= 10 && 1 <= y <= 8) || (x == 1 && y == 9)
  }

  /** The number of steps taken when the scan stands at (x, y). */
  function Pos(x: int, y: int): int
  {
    9 * (y - 1) + (x - 1)
  }

  /** Pad (a, b) is one the scan writes at or after step x of row y. */
  predicate Pending(a: int, b: int, x: int, y: int)
  {
    0 < a && 0 < b < 9 && Pos(x, y) <= Pos(a, b)
  }

  /** A C truth value: 1 or 0. */
  function Truth(b: bool): (r: U8)
    ensures r <= 1 && (r == 1 <==> b)
  {
    if b then 1 else 0
  }

  /** C's bitwise `^` on two `u8`s. */
  function BitXor(a: U8, b: U8): U8
  {
    ((a as bv8) ^ (b as bv8)) as int
  }

  // ---------------------------------------------------------------------------
  // The timer: `static u16 ms = TICK_MS; if (++ms >= TICK_MS) { ms = 0; ... }`

  /** One timer call: the new counter and whether the tick fires. */
  function Tick(ms: nat): (r: (nat, bool))
    ensures r.0 < TickMs
    ensures r.1 <==> ms + 1 >= TickMs
    ensures r.1 <==> r.0 == 0
  {
    if ms + 1 >= TickMs then (0, true) else (ms + 1, false)
  }

  /** The counter after n calls. */
  function Counter(n: nat): (ms: nat)
    ensures ms <= TickMs
  {
    if n == 0 then TickMs else Tick(Counter(n - 1)).0
  }

  /** Whether the n-th call (counting from 1) fires the tick. */
  predicate Fires(n: nat)
    requires n >= 1
  {
    Tick(Counter(n - 1)).1
  }

  /** Counting modulo TICK_MS. */
  lemma CountStep(m: nat)
    ensures (m + 1) % TickMs == if m % TickMs + 1 >= TickMs then 0 else m % TickMs + 1
  {
  }

  /** After n >= 1 calls the counter holds the calls since the last tick. */
  lemma {:induction false} CounterAfter(n: nat)
    requires n >= 1
    ensures Counter(n) == (n - 1) % TickMs
  {
    if n > 1 {
      CounterAfter(n - 1);
      CountStep(n - 2);
    }
  }

  /** The first call fires, and then every TICK_MS-th call. */
  lemma TimerSchedule(n: nat)
    requires n >= 1
    ensures Fires(n) <==> (n - 1) % TickMs == 0
  {
    if n > 1 {
      CounterAfter(n - 1);
      CountStep(n - 2);
    }
  }
}
