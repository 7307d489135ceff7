// The unit-test suite's `advance_clock`: the same clock advance with plain
// integer arithmetic, which panics in a debug build where the checked
// helper reports an error.

module ClockUnchecked {
  import opened Prims
  import opened Wrappers
  import opened SolanaClock
  import ClockChecked

  /**
   * Every operation of `advance_clock` stays in range: the `u64` slot sum
   * and millisecond product, the `i64` timestamp sum and, when the epoch
   * changes, the `i64` epoch-start difference.
   */
  predicate NoPanic(clock: Clock, nSlots: u64)
  {
    && SlotArithmeticFits(clock, nSlots)
    && clock.unixTimestamp + AsI64(SecondsFor(nSlots)) <= I64_MAX
    && ((clock.slot + nSlots) / SLOTS_PER_EPOCH != clock.epoch
        ==> clock.unixTimestamp + AsI64(SecondsFor(nSlots))
            - AsI64(SecondsFor((clock.slot + nSlots) % SLOTS_PER_EPOCH)) >= I64_MIN)
  }

  /** `advance_clock(clock, n_slots)`, for the inputs on which it does not panic. */
  function AdvanceClock(clock: Clock, nSlots: u64): (c: Clock)
    requires NoPanic(clock, nSlots)
    ensures c.slot == clock.slot + nSlots && EpochMatchesSlot(c)
    ensures c.unixTimestamp == clock.unixTimestamp + SecondsFor(nSlots)
    ensures c.leaderScheduleEpoch == clock.leaderScheduleEpoch
    ensures c.epoch == clock.epoch ==> c.epochStartTimestamp == clock.epochStartTimestamp
    ensures c.epoch != clock.epoch ==> c.epochStartTimestamp + SecondsFor(c.slot % SLOTS_PER_EPOCH) == c.unixTimestamp
  {
    var newSlot: u64 := clock.slot + nSlots;
    var newEpoch: u64 := newSlot / SLOTS_PER_EPOCH;
    var seconds: u64 := SecondsFor(nSlots);
    var newTs: i64 := clock.unixTimestamp + AsI64(seconds);
    var start: i64 :=
      if newEpoch != clock.epoch then newTs - AsI64(SecondsFor(newSlot % SLOTS_PER_EPOCH))
      else clock.epochStartTimestamp;
    Clock(newSlot, start, newEpoch, clock.leaderScheduleEpoch, newTs)
  }

  /**
   * The unchecked helper runs without a panic exactly when the checked one
   * returns `Ok`, and then both produce the same clock.
   */
  lemma AgreesWithChecked(clock: Clock, nSlots: u64)
    requires SlotArithmeticFits(clock, nSlots)
    ensures NoPanic(clock, nSlots) <==> ClockChecked.AdvanceClock(clock, nSlots).Ok?
    ensures NoPanic(clock, nSlots) ==> ClockChecked.AdvanceClock(clock, nSlots) == Ok(AdvanceClock(clock, nSlots))
  {
    SecondsForFitsI64(nSlots);
    SecondsIntoEpochBound(clock.slot + nSlots);
  }

  /** `test_advance_within_epoch`: slot 1000 at 400 s, plus 100 slots. */
  lemma WithinEpochExample()
    ensures NoPanic(Clock(1000, 0, 0, 0, 400), 100)
    ensures AdvanceClock(Clock(1000, 0, 0, 0, 400), 100) == Clock(1100, 0, 0, 0, 440)
  {
  }

  /** `test_advance_crosses_epoch_boundary`: 100 slots before epoch 1, plus 200 slots. */
  lemma CrossesEpochExample()
    ensures NoPanic(Clock(SLOTS_PER_EPOCH - 100, 0, 0, 0, 172800), 200)
    ensures AdvanceClock(Clock(SLOTS_PER_EPOCH - 100, 0, 0, 0, 172800), 200).slot == SLOTS_PER_EPOCH + 100
    ensures AdvanceClock(Clock(SLOTS_PER_EPOCH - 100, 0, 0, 0, 172800), 200).epoch == 1
    ensures AdvanceClock(Clock(SLOTS_PER_EPOCH - 100, 0, 0, 0, 172800), 200).epochStartTimestamp == 172840
  {
  }
}
