// The client builder for `InitializeCounterV1`: metas for [payer, counter,
// system program], an ordered metadata check, and the one-byte instruction.

module CounterInitializeClient {
  import opened Prims
  import opened Wrappers
  import opened Host
  import opened ClientInstruction
  import CID = CounterInstructionDiscriminator
  import CounterInitialize

  datatype InitializeCounterV1IxError =
    | PayerMustBeSigner
    | PayerMustBeWritable
    | CounterMustBeWritable
    | CounterAddressMismatch(expected: Pubkey, observed: Pubkey)
    | SystemProgramAddressMismatch(expected: Pubkey, observed: Pubkey)

  datatype InitializeCounterV1Ix = InitializeCounterV1Ix(
    programId: Pubkey, payer: AccountMeta, counter: AccountMeta, systemProgram: AccountMeta)

  /** `InitializeCounterV1Ix::new`: the payer signs and pays, the counter sits at its derived address. */
  function New(env: Env, programId: Pubkey, payer: Pubkey): (ix: InitializeCounterV1Ix)
    ensures ix.programId == programId && ix.payer == SignerWritable(payer)
    ensures ix.counter == Writable(env.deriveCounter(programId, payer).0)
    ensures ix.systemProgram == SystemProgramMeta()
    ensures Validate(env, ix) == Ok(())
  {
    InitializeCounterV1Ix(programId, SignerWritable(payer),
                          Writable(env.deriveCounter(programId, payer).0), SystemProgramMeta())
  }

  /** Everything `validate` demands, regardless of the order it checks in. */
  predicate Valid(env: Env, ix: InitializeCounterV1Ix)
  {
    ix.payer.isSigner && ix.payer.isWritable
    && ix.counter.pubkey == env.deriveCounter(ix.programId, ix.payer.pubkey).0
    && ix.counter.isWritable && ix.systemProgram.pubkey == SystemProgramId()
  }

  /** `InitializeCounterV1Ix::validate`: the first failing check names the error. */
  function Validate(env: Env, ix: InitializeCounterV1Ix): (r: Result<(), InitializeCounterV1IxError>)
    ensures r.Ok? <==> Valid(env, ix)
    ensures !ix.payer.isSigner ==> r == Err(PayerMustBeSigner)
    ensures ix.payer.isSigner && !ix.payer.isWritable ==> r == Err(PayerMustBeWritable)
    ensures ix.payer.isSigner && ix.payer.isWritable
            && ix.counter.pubkey != env.deriveCounter(ix.programId, ix.payer.pubkey).0
            ==> r == Err(CounterAddressMismatch(env.deriveCounter(ix.programId, ix.payer.pubkey).0, ix.counter.pubkey))
    ensures ix.payer.isSigner && ix.payer.isWritable
            && ix.counter.pubkey == env.deriveCounter(ix.programId, ix.payer.pubkey).0
            ==> (!ix.counter.isWritable ==> r == Err(CounterMustBeWritable))
                && (ix.counter.isWritable && ix.systemProgram.pubkey != SystemProgramId()
                    ==> r == Err(SystemProgramAddressMismatch(SystemProgramId(), ix.systemProgram.pubkey)))
  {
    if !ix.payer.isSigner then Err(PayerMustBeSigner)
    else if !ix.payer.isWritable then Err(PayerMustBeWritable)
    else
      var expected := env.deriveCounter(ix.programId, ix.payer.pubkey).0;
      if ix.counter.pubkey != expected then Err(CounterAddressMismatch(expected, ix.counter.pubkey))
      else if !ix.counter.isWritable then Err(CounterMustBeWritable)
      else if ix.systemProgram.pubkey != SystemProgramId() then
        Err(SystemProgramAddressMismatch(SystemProgramId(), ix.systemProgram.pubkey))
      else Ok(())
  }

  /**
   * `InitializeCounterV1Ix::to_instruction`: with `validate` set it fails
   * with `validate`'s error; otherwise it always builds the three metas in
   * order and the lone initialize tag.
   */
  function ToInstruction(env: Env, ix: InitializeCounterV1Ix, validate: bool)
    : (r: Result<Instruction, InitializeCounterV1IxError>)
    ensures r.Ok? <==> !validate || Valid(env, ix)
    ensures r.Err? ==> Err(r.error) == Validate(env, ix)
    ensures r.Ok? ==> r.value.programId == ix.programId
                      && r.value.accounts == [ix.payer, ix.counter, ix.systemProgram]
                      && CID.Parse(r.value.data) == Ok((CID.InitializeCounterV1, []))
  {
    if validate && Validate(env, ix).Err? then Err(Validate(env, ix).error)
    else
      CID.ParseTagged(CID.InitializeCounterV1, []);
      Ok(Instruction(ix.programId, [ix.payer, ix.counter, ix.systemProgram], [CID.ToByte(CID.InitializeCounterV1)]))
  }

  /** `TryFrom<InitializeCounterV1Ix> for Instruction`: builds only a valid instruction. */
  function TryFrom(env: Env, ix: InitializeCounterV1Ix): (r: Result<Instruction, InitializeCounterV1IxError>)
    ensures r.Ok? <==> Valid(env, ix)
    ensures r.Err? ==> Err(r.error) == Validate(env, ix)
    ensures r.Ok? ==> r.value.accounts == [ix.payer, ix.counter, ix.systemProgram]
  {
    ToInstruction(env, ix, true)
  }

  /**
   * A valid instruction, sent for an empty system-owned counter with no
   * lamports, passes the program's own account checks and tag parse.
   */
  lemma AcceptedByProgram(env: Env, ix: InitializeCounterV1Ix, ins: Instruction, states: seq<AccountState>)
    requires TryFrom(env, ix) == Ok(ins) && |states| == 3
    requires |states[1].data| == 0 && states[1].lamports == 0 && states[1].owner == SystemProgramId()
    ensures CounterInitialize.ValidateAccounts(env, ins.programId, Views(ins.accounts, states)).Ok?
    ensures CID.Parse(ins.data) == Ok((CID.InitializeCounterV1, []))
  {
  }
}
