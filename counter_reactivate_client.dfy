// The client builder for `ReactivateCounterV1`: metas for [payer, counter,
// system program], an ordered metadata check, and the one-byte instruction.

module CounterReactivateClient {
  import opened Prims
  import opened Wrappers
  import opened Host
  import opened ClientInstruction
  import CID = CounterInstructionDiscriminator
  import CAD = CounterAccountDiscriminator
  import CounterReactivate

  datatype ReactivateCounterV1IxError =
    | PayerMustBeSigner
    | PayerMustBeWriteable
    | CounterMustBeWriteable
    | CounterAddressMismatch(expected: Pubkey, observed: Pubkey)
    | SystemProgramAddressMismatch(expected: Pubkey, observed: Pubkey)

  datatype ReactivateCounterV1Ix = ReactivateCounterV1Ix(
    programId: Pubkey, payer: AccountMeta, counter: AccountMeta, systemProgram: AccountMeta)

  /** `ReactivateCounterV1Ix::new`: the payer signs and pays, the counter sits at its derived address. */
  function New(env: Env, programId: Pubkey, payer: Pubkey): (ix: ReactivateCounterV1Ix)
    ensures ix.programId == programId && ix.payer == SignerWritable(payer)
    ensures ix.counter == Writable(env.deriveCounter(programId, payer).0)
    ensures ix.systemProgram == SystemProgramMeta()
    ensures Validate(env, ix) == Ok(())
  {
    ReactivateCounterV1Ix(programId, SignerWritable(payer),
                          Writable(env.deriveCounter(programId, payer).0), SystemProgramMeta())
  }

  /** Everything `validate` demands, regardless of the order it checks in. */
  predicate Valid(env: Env, ix: ReactivateCounterV1Ix)
  {
    ix.payer.isSigner && ix.payer.isWritable && ix.counter.isWritable
    && ix.counter.pubkey == env.deriveCounter(ix.programId, ix.payer.pubkey).0
    && ix.systemProgram.pubkey == SystemProgramId()
  }

  /** `ReactivateCounterV1Ix::validate`: here the writable flag is checked before the address. */
  function Validate(env: Env, ix: ReactivateCounterV1Ix): (r: Result<(), ReactivateCounterV1IxError>)
    ensures r.Ok? <==> Valid(env, ix)
    ensures !ix.payer.isSigner ==> r == Err(PayerMustBeSigner)
    ensures ix.payer.isSigner && !ix.payer.isWritable ==> r == Err(PayerMustBeWriteable)
    ensures ix.payer.isSigner && ix.payer.isWritable && !ix.counter.isWritable ==> r == Err(CounterMustBeWriteable)
    ensures ix.payer.isSigner && ix.payer.isWritable && ix.counter.isWritable
            && ix.counter.pubkey != env.deriveCounter(ix.programId, ix.payer.pubkey).0
            ==> r == Err(CounterAddressMismatch(env.deriveCounter(ix.programId, ix.payer.pubkey).0, ix.counter.pubkey))
    ensures ix.payer.isSigner && ix.payer.isWritable && ix.counter.isWritable
            && ix.counter.pubkey == env.deriveCounter(ix.programId, ix.payer.pubkey).0
            && ix.systemProgram.pubkey != SystemProgramId()
            ==> r == Err(SystemProgramAddressMismatch(SystemProgramId(), ix.systemProgram.pubkey))
  {
    if !ix.payer.isSigner then Err(PayerMustBeSigner)
    else if !ix.payer.isWritable then Err(PayerMustBeWriteable)
    else if !ix.counter.isWritable then Err(CounterMustBeWriteable)
    else
      var expected := env.deriveCounter(ix.programId, ix.payer.pubkey).0;
      if ix.counter.pubkey != expected then Err(CounterAddressMismatch(expected, ix.counter.pubkey))
      else if ix.systemProgram.pubkey != SystemProgramId() then
        Err(SystemProgramAddressMismatch(SystemProgramId(), ix.systemProgram.pubkey))
      else Ok(())
  }

  /**
   * `ReactivateCounterV1Ix::to_instruction`: with `validate` set it fails
   * with `validate`'s error; otherwise it always builds [payer, counter,
   * system program] and the lone reactivate tag.
   */
  function ToInstruction(env: Env, ix: ReactivateCounterV1Ix, validate: bool)
    : (r: Result<Instruction, ReactivateCounterV1IxError>)
    ensures r.Ok? <==> !validate || Valid(env, ix)
    ensures r.Err? ==> Err(r.error) == Validate(env, ix)
    ensures r.Ok? ==> r.value.programId == ix.programId
                      && r.value.accounts == [ix.payer, ix.counter, ix.systemProgram]
                      && CID.Parse(r.value.data) == Ok((CID.ReactivateCounterV1, []))
  {
    if validate && Validate(env, ix).Err? then Err(Validate(env, ix).error)
    else
      CID.ParseTagged(CID.ReactivateCounterV1, []);
      Ok(Instruction(ix.programId, [ix.payer, ix.counter, ix.systemProgram], [CID.ToByte(CID.ReactivateCounterV1)]))
  }

  /** `TryFrom<ReactivateCounterV1Ix> for Instruction`: builds only a valid instruction. */
  function TryFrom(env: Env, ix: ReactivateCounterV1Ix): (r: Result<Instruction, ReactivateCounterV1IxError>)
    ensures r.Ok? <==> Valid(env, ix)
    ensures r.Err? ==> Err(r.error) == Validate(env, ix)
    ensures r.Ok? ==> r.value.accounts == [ix.payer, ix.counter, ix.systemProgram]
  {
    ToInstruction(env, ix, true)
  }

  /**
   * A valid instruction, sent for a counter holding the deactivated tag
   * alone, passes the program's account checks and tag parse.
   */
  lemma AcceptedByProgram(env: Env, ix: ReactivateCounterV1Ix, ins: Instruction, states: seq<AccountState>)
    requires TryFrom(env, ix) == Ok(ins) && |states| == 3
    requires CAD.Check(CAD.DeactivatedAccount, states[1].data).Ok?
    ensures CounterReactivate.ValidateAccounts(env, ins.programId, Views(ins.accounts, states)).Ok?
    ensures CID.Parse(ins.data) == Ok((CID.ReactivateCounterV1, []))
  {
  }
}
