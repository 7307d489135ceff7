// The integration suite's `advance_clock`: moves a clock forward by a number
// of slots, reporting `i64` overflow and underflow of the timestamps as
// `ClockAdvanceError` instead of panicking.

module ClockChecked {
  import opened Prims
  import opened Wrappers
  import opened SolanaClock

  datatype ClockAdvanceError =
    | TimeAdvancementTooLarge(seconds: u64)
    | TimestampOverflow(current: i64, addition: i64)
    | TimestampUnderflow(current: i64, subtraction: i64)
    | EpochSecondsTooLarge(seconds: u64)

  /**
   * `advance_clock(clock, n_slots)`. The slot sum and the millisecond
   * product are plain `u64` operations in the source; the caller keeps
   * them from overflowing (`SlotArithmeticFits`).
   */
  function AdvanceClock(clock: Clock, nSlots: u64): (r: Result<Clock, ClockAdvanceError>)
    requires SlotArithmeticFits(clock, nSlots)
    ensures r.Ok? <==> clock.unixTimestamp + SecondsFor(nSlots) <= I64_MAX
                       && ((clock.slot + nSlots) / SLOTS_PER_EPOCH == clock.epoch
                           || clock.unixTimestamp + SecondsFor(nSlots)
                              - SecondsFor((clock.slot + nSlots) % SLOTS_PER_EPOCH) >= I64_MIN)
    ensures clock.unixTimestamp + SecondsFor(nSlots) > I64_MAX
            ==> r == Err(TimestampOverflow(clock.unixTimestamp, SecondsFor(nSlots)))
    ensures r.Err? && clock.unixTimestamp + SecondsFor(nSlots) <= I64_MAX
            ==> r == Err(TimestampUnderflow(clock.unixTimestamp + SecondsFor(nSlots),
                                            SecondsFor((clock.slot + nSlots) % SLOTS_PER_EPOCH)))
    ensures r.Ok? ==> r.value.slot == clock.slot + nSlots && EpochMatchesSlot(r.value)
    ensures r.Ok? ==> r.value.unixTimestamp == clock.unixTimestamp + SecondsFor(nSlots)
    ensures r.Ok? ==> r.value.leaderScheduleEpoch == clock.leaderScheduleEpoch
    ensures r.Ok? && r.value.epoch == clock.epoch ==> r.value.epochStartTimestamp == clock.epochStartTimestamp
    ensures r.Ok? && r.value.epoch != clock.epoch
            ==> r.value.epochStartTimestamp + SecondsFor(r.value.slot % SLOTS_PER_EPOCH) == r.value.unixTimestamp
  {
    var newSlot: u64 := clock.slot + nSlots;
    var newEpoch: u64 := newSlot / SLOTS_PER_EPOCH;
    var seconds: u64 := SecondsFor(nSlots);
    if seconds > I64_MAX then Err(TimeAdvancementTooLarge(seconds))
    else
      match CheckedAdd(clock.unixTimestamp, seconds)
      case None => Err(TimestampOverflow(clock.unixTimestamp, seconds))
      case Some(newTs) =>
        if newEpoch == clock.epoch then
          Ok(Clock(newSlot, clock.epochStartTimestamp, newEpoch, clock.leaderScheduleEpoch, newTs))
        else
          var secondsInto: u64 := SecondsFor(newSlot % SLOTS_PER_EPOCH);
          if secondsInto > I64_MAX then Err(EpochSecondsTooLarge(secondsInto))
          else
            match CheckedSub(newTs, secondsInto)
            case None => Err(TimestampUnderflow(newTs, secondsInto))
            case Some(start) => Ok(Clock(newSlot, start, newEpoch, clock.leaderScheduleEpoch, newTs))
  }

  /** A clock whose epoch matches its slot keeps its epoch-start timestamp exactly when no boundary is crossed. */
  lemma EpochStartKeptWithinEpoch(clock: Clock, nSlots: u64)
    requires SlotArithmeticFits(clock, nSlots) && EpochMatchesSlot(clock)
    requires AdvanceClock(clock, nSlots).Ok?
    ensures AdvanceClock(clock, nSlots).value.epoch >= clock.epoch
    ensures (clock.slot + nSlots) / SLOTS_PER_EPOCH == clock.slot / SLOTS_PER_EPOCH
            ==> AdvanceClock(clock, nSlots).value.epochStartTimestamp == clock.epochStartTimestamp
  {
  }

  /** Advancing never moves the slot, epoch or timestamp backwards. */
  lemma Monotone(clock: Clock, nSlots: u64)
    requires SlotArithmeticFits(clock, nSlots) && EpochMatchesSlot(clock)
    requires AdvanceClock(clock, nSlots).Ok?
    ensures AdvanceClock(clock, nSlots).value.slot >= clock.slot
    ensures AdvanceClock(clock, nSlots).value.epoch >= clock.epoch
    ensures AdvanceClock(clock, nSlots).value.unixTimestamp >= clock.unixTimestamp
  {
  }

  /**
   * Two advances reach the slot and epoch of one advance by the sum; the
   * timestamp lags the single advance by at most one second, lost to the
   * rounding of each step.
   */
  lemma {:induction false} AdvanceTwice(clock: Clock, a: u64, b: u64)
    requires a + b <= U64_MAX && SlotArithmeticFits(clock, a + b)
    requires AdvanceClock(clock, a).Ok?
    requires AdvanceClock(AdvanceClock(clock, a).value, b).Ok?
    requires AdvanceClock(clock, a + b).Ok?
    ensures AdvanceClock(AdvanceClock(clock, a).value, b).value.slot == AdvanceClock(clock, a + b).value.slot
    ensures AdvanceClock(AdvanceClock(clock, a).value, b).value.epoch == AdvanceClock(clock, a + b).value.epoch
    ensures AdvanceClock(AdvanceClock(clock, a).value, b).value.unixTimestamp
            <= AdvanceClock(clock, a + b).value.unixTimestamp
            <= AdvanceClock(AdvanceClock(clock, a).value, b).value.unixTimestamp + 1
  {
    RoundingSplit(a, b);
  }

  /** Rounding each part down loses less than one second against rounding the whole. */
  lemma RoundingSplit(a: nat, b: nat)
    ensures SecondsFor(a) + SecondsFor(b) <= SecondsFor(a + b) <= SecondsFor(a) + SecondsFor(b) + 1
  {
    var sa, sb, s := SecondsFor(a), SecondsFor(b), SecondsFor(a + b);
    assert (a + b) * MS_PER_SLOT == a * MS_PER_SLOT + b * MS_PER_SLOT;
    assert (sa + sb) * 1000 <= s * 1000 + 1000;
    assert s * 1000 < (sa + sb) * 1000 + 2000;
  }

  /** `test_advance_within_epoch`: slot 1000 at 400 s, plus 100 slots. */
  lemma WithinEpochExample()
    ensures AdvanceClock(Clock(1000, 0, 0, 0, 400), 100) == Ok(Clock(1100, 0, 0, 0, 440))
  {
  }

  /** `test_advance_crosses_epoch_boundary`: 100 slots before epoch 1, plus 200 slots. */
  lemma CrossesEpochExample()
    ensures AdvanceClock(Clock(SLOTS_PER_EPOCH - 100, 0, 0, 0, 172800), 200).Ok?
    ensures AdvanceClock(Clock(SLOTS_PER_EPOCH - 100, 0, 0, 0, 172800), 200).value.slot == SLOTS_PER_EPOCH + 100
    ensures AdvanceClock(Clock(SLOTS_PER_EPOCH - 100, 0, 0, 0, 172800), 200).value.epoch == 1
    ensures AdvanceClock(Clock(SLOTS_PER_EPOCH - 100, 0, 0, 0, 172800), 200).value.epochStartTimestamp == 172840
  {
  }
}
