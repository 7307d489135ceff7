// `solana_clock::Clock` and the two constants the clock-advance helpers of
// the test suites use, with the `i64` arithmetic those helpers rely on.

module SolanaClock {
  import opened Prims
  import opened Wrappers

  /** `DEFAULT_MS_PER_SLOT`. */
  const MS_PER_SLOT: nat := 400
  /** `DEFAULT_SLOTS_PER_EPOCH`. */
  const SLOTS_PER_EPOCH: nat := 432000

  /** `solana_clock::Clock`. */
  datatype Clock = Clock(
    slot: u64,
    epochStartTimestamp: i64,
    epoch: u64,
    leaderScheduleEpoch: u64,
    unixTimestamp: i64)

  /** Whole seconds covered by `n` slots (`n * DEFAULT_MS_PER_SLOT / 1000`, rounded down). */
  function SecondsFor(n: nat): (s: nat)
    ensures s * 1000 <= n * MS_PER_SLOT < s * 1000 + 1000
  {
    n * MS_PER_SLOT / 1000
  }

  /** `i64::checked_add`. */
  function CheckedAdd(a: i64, b: i64): (r: Option<i64>)
    ensures r.Some? <==> I64_MIN <= a + b <= I64_MAX
    ensures r.Some? ==> r.value == a + b
  {
    if I64_MIN <= a + b <= I64_MAX then Some(a + b) else None
  }

  /** `i64::checked_sub`. */
  function CheckedSub(a: i64, b: i64): (r: Option<i64>)
    ensures r.Some? <==> I64_MIN <= a - b <= I64_MAX
    ensures r.Some? ==> r.value == a - b
  {
    if I64_MIN <= a - b <= I64_MAX then Some(a - b) else None
  }

  /** `x as i64` for a `u64`: the bit pattern reinterpreted, so values past `i64::MAX` wrap negative. */
  function AsI64(x: u64): (r: i64)
    ensures x <= I64_MAX ==> r == x
    ensures x > I64_MAX ==> r == x - U64_LIMIT
    ensures (r - x) % U64_LIMIT == 0
  {
    if x <= I64_MAX then x else x - U64_LIMIT
  }

  /** The clock's epoch is the one its slot falls in. */
  predicate EpochMatchesSlot(c: Clock)
  {
    c.epoch == c.slot / SLOTS_PER_EPOCH
  }

  /**
   * The `u64` arithmetic both helpers leave unchecked: the slot sum and
   * the millisecond product. A debug build panics when either overflows.
   */
  predicate SlotArithmeticFits(c: Clock, n: u64)
  {
    c.slot + n <= U64_MAX && n * MS_PER_SLOT <= U64_MAX
  }

  /** Seconds into an epoch never reach `i64::MAX`: at most 172799. */
  lemma SecondsIntoEpochBound(slot: nat)
    ensures SecondsFor(slot % SLOTS_PER_EPOCH) < 172800
  {
  }

  /** With no overflow in the product, the advance in seconds fits an `i64`. */
  lemma SecondsForFitsI64(n: u64)
    requires n * MS_PER_SLOT <= U64_MAX
    ensures SecondsFor(n) <= I64_MAX
  {
  }
}
