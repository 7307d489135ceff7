// Properties that span several counter instructions: what a deactivated
// counter still accepts, and that reactivation restores the record a fresh
// initialization writes.

module CounterLifecycle {
  import opened Prims
  import opened Wrappers
  import opened Host
  import CAD = CounterAccountDiscriminator
  import opened CounterState
  import CounterInitialize
  import CounterIncrement
  import CounterDecrement
  import CounterSetCount
  import CounterDeactivate
  import CounterReactivate

  /**
   * Once deactivated, a counter can be neither initialized again, counted,
   * set nor deactivated again; each attempt fails without a write.
   */
  lemma DeactivatedCounterIsInert(env: Env, programId: Pubkey, owner: AccountView, counter: AccountView,
                                  systemProgram: AccountView, args: seq<u8>)
    requires counter.data == [CAD.ToByte(CAD.DeactivatedAccount)]
    requires LamportsFit(owner, counter)
    ensures CounterInitialize.Run(env, programId, [owner, counter, systemProgram]).Err?
    ensures CounterIncrement.Run(env, programId, [owner, counter]).Err?
    ensures CounterDecrement.Run(env, programId, [owner, counter]).Err?
    ensures CounterSetCount.Run(env, programId, [owner, counter], args).Err?
    ensures CounterDeactivate.Run(env, programId, [owner, counter]).Err?
  {
    assert Deserialize(counter.data).Err?;
  }

  /**
   * Deactivating and then reactivating with the same signer leaves exactly
   * the record `InitializeCounterV1` would have written: the signer as
   * owner, the derived bump and count 0. When rent does not shrink with
   * size, the tombstone keeps at most the 73-byte minimum, so the top-up
   * lands exactly on it.
   */
  lemma DeactivateThenReactivate(env: Env, programId: Pubkey, owner: AccountView, counter: AccountView,
                                 systemProgram: AccountView)
    requires LamportsFit(owner, counter)
    requires CounterDeactivate.Run(env, programId, [owner, counter]).Ok?
    requires systemProgram.key == SystemProgramId()
    requires env.rentMin(CAD.DEACTIVATED_ACCOUNT_SIZE) <= env.rentMin(CAD.COUNTER_V1_SIZE)
    ensures var mid := CounterDeactivate.Run(env, programId, [owner, counter]).value;
            CounterReactivate.ValidateAccounts(env, programId, [mid[0], mid[1], systemProgram]).Ok?
    ensures var mid := CounterDeactivate.Run(env, programId, [owner, counter]).value;
            var r := CounterReactivate.Run(env, programId, [mid[0], mid[1], systemProgram]);
            r.Ok? ==>
              Deserialize(r.value[1].data)
                == Ok(CounterInitialize.FreshCounter(owner.key, env.deriveCounter(programId, owner.key).1))
              && r.value[1].lamports == env.rentMin(CAD.COUNTER_V1_SIZE)
              && r.value[0].lamports + r.value[1].lamports == owner.lamports + counter.lamports
  {
    var mid := CounterDeactivate.Run(env, programId, [owner, counter]).value;
    assert CAD.Check(CAD.DeactivatedAccount, mid[1].data) == Ok(());
    var r := CounterReactivate.Run(env, programId, [mid[0], mid[1], systemProgram]);
    if r.Ok? {
      CounterReactivate.RunReactivates(env, programId, [mid[0], mid[1], systemProgram]);
    }
  }

  /** A reactivated counter is active again: the owner can count it once more. */
  lemma ReactivatedCounterCounts(env: Env, programId: Pubkey, payer: AccountView, counter: AccountView,
                                 systemProgram: AccountView)
    requires CounterReactivate.Run(env, programId, [payer, counter, systemProgram]).Ok?
    requires counter.owner == programId
    ensures var after := CounterReactivate.Run(env, programId, [payer, counter, systemProgram]).value;
            var r := CounterIncrement.Run(env, programId, [payer, after[1]]);
            r.Ok? && Deserialize(r.value[1].data).value.count == 1
  {
    var after := CounterReactivate.Run(env, programId, [payer, counter, systemProgram]).value;
    CounterReactivate.RunReactivates(env, programId, [payer, counter, systemProgram]);
    assert after[1].owner == counter.owner && after[1].key == counter.key && after[1].isWritable;
    CounterIncrement.RunIncrements(env, programId, [payer, after[1]]);
  }
}
