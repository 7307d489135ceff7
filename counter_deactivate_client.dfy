// The client builder for `DeactivateCounterV1`: metas for the owner, the
// counter and the system program, an ordered metadata check, and the
// one-byte instruction. The builder as written sends all three metas while
// the program takes exactly two; `ToInstruction` is the two-meta form.

module CounterDeactivateClient {
  import opened Prims
  import opened Wrappers
  import opened Host
  import opened ClientInstruction
  import CID = CounterInstructionDiscriminator
  import CAD = CounterAccountDiscriminator
  import CounterDeactivate

  datatype DeactivateCounterV1IxError =
    | OwnerMustBeSigner
    | OwnerMustBeWritable
    | CounterMustBeWritable
    | CounterAddressMismatch(expected: Pubkey, observed: Pubkey)
    | SystemProgramAddressMismatch(expected: Pubkey, observed: Pubkey)

  datatype DeactivateCounterV1Ix = DeactivateCounterV1Ix(
    programId: Pubkey, owner: AccountMeta, counter: AccountMeta, systemProgram: AccountMeta)

  /** `DeactivateCounterV1Ix::new`: the owner signs and receives, the counter sits at its derived address. */
  function New(env: Env, programId: Pubkey, owner: Pubkey): (ix: DeactivateCounterV1Ix)
    ensures ix.programId == programId && ix.owner == SignerWritable(owner)
    ensures ix.counter == Writable(env.deriveCounter(programId, owner).0)
    ensures ix.systemProgram == SystemProgramMeta()
    ensures Validate(env, ix) == Ok(())
  {
    DeactivateCounterV1Ix(programId, SignerWritable(owner),
                          Writable(env.deriveCounter(programId, owner).0), SystemProgramMeta())
  }

  /** Everything `validate` demands, regardless of the order it checks in. */
  predicate Valid(env: Env, ix: DeactivateCounterV1Ix)
  {
    ix.owner.isSigner && ix.owner.isWritable
    && ix.counter.pubkey == env.deriveCounter(ix.programId, ix.owner.pubkey).0
    && ix.counter.isWritable && ix.systemProgram.pubkey == SystemProgramId()
  }

  /** `DeactivateCounterV1Ix::validate`: the first failing check names the error. */
  function Validate(env: Env, ix: DeactivateCounterV1Ix): (r: Result<(), DeactivateCounterV1IxError>)
    ensures r.Ok? <==> Valid(env, ix)
    ensures !ix.owner.isSigner ==> r == Err(OwnerMustBeSigner)
    ensures ix.owner.isSigner && !ix.owner.isWritable ==> r == Err(OwnerMustBeWritable)
    ensures ix.owner.isSigner && ix.owner.isWritable
            && ix.counter.pubkey != env.deriveCounter(ix.programId, ix.owner.pubkey).0
            ==> r == Err(CounterAddressMismatch(env.deriveCounter(ix.programId, ix.owner.pubkey).0, ix.counter.pubkey))
    ensures ix.owner.isSigner && ix.owner.isWritable
            && ix.counter.pubkey == env.deriveCounter(ix.programId, ix.owner.pubkey).0
            ==> (!ix.counter.isWritable ==> r == Err(CounterMustBeWritable))
                && (ix.counter.isWritable && ix.systemProgram.pubkey != SystemProgramId()
                    ==> r == Err(SystemProgramAddressMismatch(SystemProgramId(), ix.systemProgram.pubkey)))
  {
    if !ix.owner.isSigner then Err(OwnerMustBeSigner)
    else if !ix.owner.isWritable then Err(OwnerMustBeWritable)
    else
      var expected := env.deriveCounter(ix.programId, ix.owner.pubkey).0;
      if ix.counter.pubkey != expected then Err(CounterAddressMismatch(expected, ix.counter.pubkey))
      else if !ix.counter.isWritable then Err(CounterMustBeWritable)
      else if ix.systemProgram.pubkey != SystemProgramId() then
        Err(SystemProgramAddressMismatch(SystemProgramId(), ix.systemProgram.pubkey))
      else Ok(())
  }

  /**
   * `DeactivateCounterV1Ix::to_instruction` as written: the owner, counter
   * and system-program metas, and the deactivate tag.
   */
  function ToInstructionAsWritten(env: Env, ix: DeactivateCounterV1Ix, validate: bool)
    : (r: Result<Instruction, DeactivateCounterV1IxError>)
    ensures r.Ok? <==> !validate || Valid(env, ix)
    ensures r.Err? ==> Err(r.error) == Validate(env, ix)
    ensures r.Ok? ==> r.value.programId == ix.programId
                      && r.value.accounts == [ix.owner, ix.counter, ix.systemProgram]
                      && CID.Parse(r.value.data) == Ok((CID.DeactivateCounterV1, []))
  {
    if validate && Validate(env, ix).Err? then Err(Validate(env, ix).error)
    else
      CID.ParseTagged(CID.DeactivateCounterV1, []);
      Ok(Instruction(ix.programId, [ix.owner, ix.counter, ix.systemProgram], [CID.ToByte(CID.DeactivateCounterV1)]))
  }

  /**
   * `TryFrom<DeactivateCounterV1Ix> for Instruction` as written:
   * `to_instruction(true)`, so a valid builder yields the three metas.
   */
  function TryFromAsWritten(env: Env, ix: DeactivateCounterV1Ix): (r: Result<Instruction, DeactivateCounterV1IxError>)
    ensures r.Ok? <==> Valid(env, ix)
    ensures r.Err? ==> Err(r.error) == Validate(env, ix)
    ensures r.Ok? ==> r.value.accounts == [ix.owner, ix.counter, ix.systemProgram] && |r.value.accounts| == 3
  {
    ToInstructionAsWritten(env, ix, true)
  }

  /**
   * Whatever the accounts hold, the program refuses the three-meta
   * instruction before looking at any of them: it wants exactly two.
   */
  lemma AsWrittenRejectedByProgram(env: Env, ix: DeactivateCounterV1Ix, validate: bool, ins: Instruction,
                                   states: seq<AccountState>)
    requires ToInstructionAsWritten(env, ix, validate) == Ok(ins) && |states| == 3
    ensures CounterDeactivate.ValidateAccounts(env, ins.programId, Views(ins.accounts, states))
            == Err(CounterDeactivate.NotEnoughAccounts(2, 3))
  {
  }

  /** `to_instruction` with the account list the program takes: [owner, counter]. */
  function ToInstruction(env: Env, ix: DeactivateCounterV1Ix, validate: bool)
    : (r: Result<Instruction, DeactivateCounterV1IxError>)
    ensures r.Ok? <==> !validate || Valid(env, ix)
    ensures r.Err? ==> Err(r.error) == Validate(env, ix)
    ensures r.Ok? ==> r.value.programId == ix.programId
                      && r.value.accounts == [ix.owner, ix.counter]
                      && CID.Parse(r.value.data) == Ok((CID.DeactivateCounterV1, []))
  {
    if validate && Validate(env, ix).Err? then Err(Validate(env, ix).error)
    else
      CID.ParseTagged(CID.DeactivateCounterV1, []);
      Ok(Instruction(ix.programId, [ix.owner, ix.counter], [CID.ToByte(CID.DeactivateCounterV1)]))
  }

  /** `TryFrom` with the corrected two-meta `to_instruction`: builds only a valid instruction. */
  function TryFrom(env: Env, ix: DeactivateCounterV1Ix): (r: Result<Instruction, DeactivateCounterV1IxError>)
    ensures r.Ok? <==> Valid(env, ix)
    ensures r.Err? ==> Err(r.error) == Validate(env, ix)
    ensures r.Ok? ==> r.value.accounts == [ix.owner, ix.counter]
  {
    ToInstruction(env, ix, true)
  }

  /**
   * A valid two-meta instruction, sent for an active counter the program
   * owns, passes the program's account checks and tag parse.
   */
  lemma AcceptedByProgram(env: Env, ix: DeactivateCounterV1Ix, ins: Instruction, states: seq<AccountState>)
    requires TryFrom(env, ix) == Ok(ins) && |states| == 2
    requires states[1].owner == ix.programId && CAD.Check(CAD.CounterV1Account, states[1].data).Ok?
    ensures CounterDeactivate.ValidateAccounts(env, ins.programId, Views(ins.accounts, states)).Ok?
    ensures CID.Parse(ins.data) == Ok((CID.DeactivateCounterV1, []))
  {
  }
}
