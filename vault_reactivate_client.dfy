// The client builder for `ReactivateVaultV1`: metas for [payer, vault, system program], an ordered
// metadata check, and `build`, which always validates and then writes the
// lone tag byte.

module VaultReactivateClient {
  import opened Prims
  import opened Wrappers
  import opened Host
  import opened ClientInstruction
  import VID = VaultInstructionDiscriminator
  import VAD = VaultAccountDiscriminator
  import VaultReactivate

  datatype ReactivateVaultV1IxError =
    | PayerMustBeSigner
    | PayerMustBeWriteable
    | VaultMustBeWriteable
    | VaultAddressMismatch(expected: Pubkey, observed: Pubkey)
    | SystemProgramAddressMismatch(expected: Pubkey, observed: Pubkey)

  datatype ReactivateVaultV1Ix = ReactivateVaultV1Ix(programId: Pubkey, payer: AccountMeta, vault: AccountMeta, systemProgram: AccountMeta)

  /** `ReactivateVaultV1Ix::new`: the payer signs, the vault sits at its derived address. */
  function New(env: Env, programId: Pubkey, payer: Pubkey): (ix: ReactivateVaultV1Ix)
    ensures ix.programId == programId && ix.payer == SignerWritable(payer)
    ensures ix.vault == Writable(env.deriveVault(programId, payer).0)
    ensures ix.systemProgram == SystemProgramMeta()
    ensures Validate(env, ix) == Ok(())
  {
    ReactivateVaultV1Ix(programId, SignerWritable(payer), Writable(env.deriveVault(programId, payer).0), SystemProgramMeta())
  }

  /** Everything `validate` demands, regardless of the order it checks in. */
  predicate Valid(env: Env, ix: ReactivateVaultV1Ix)
  {
    ix.payer.isSigner && ix.payer.isWritable && ix.vault.isWritable
    && ix.vault.pubkey == env.deriveVault(ix.programId, ix.payer.pubkey).0
    && ix.systemProgram.pubkey == SystemProgramId()
  }

  /** `ReactivateVaultV1Ix::validate`: the first failing check names the error. */
  function Validate(env: Env, ix: ReactivateVaultV1Ix): (r: Result<(), ReactivateVaultV1IxError>)
    ensures r.Ok? <==> Valid(env, ix)
    ensures !ix.payer.isSigner ==> r == Err(PayerMustBeSigner)
    ensures ix.payer.isSigner && !ix.payer.isWritable ==> r == Err(PayerMustBeWriteable)
    ensures ix.payer.isSigner && ix.payer.isWritable && !ix.vault.isWritable ==> r == Err(VaultMustBeWriteable)
    ensures ix.payer.isSigner && ix.payer.isWritable && ix.vault.isWritable
            && ix.vault.pubkey != env.deriveVault(ix.programId, ix.payer.pubkey).0
            ==> r == Err(VaultAddressMismatch(env.deriveVault(ix.programId, ix.payer.pubkey).0, ix.vault.pubkey))
    ensures ix.payer.isSigner && ix.payer.isWritable && ix.vault.isWritable
            && ix.vault.pubkey == env.deriveVault(ix.programId, ix.payer.pubkey).0
            && ix.systemProgram.pubkey != SystemProgramId()
            ==> r == Err(SystemProgramAddressMismatch(SystemProgramId(), ix.systemProgram.pubkey))
  {
    if !ix.payer.isSigner then Err(PayerMustBeSigner)
    else if !ix.payer.isWritable then Err(PayerMustBeWriteable)
    else if !ix.vault.isWritable then Err(VaultMustBeWriteable)
    else
      var expected := env.deriveVault(ix.programId, ix.payer.pubkey).0;
      if ix.vault.pubkey != expected then Err(VaultAddressMismatch(expected, ix.vault.pubkey))
      else if ix.systemProgram.pubkey != SystemProgramId() then
        Err(SystemProgramAddressMismatch(SystemProgramId(), ix.systemProgram.pubkey))
      else Ok(())
  }

  /**
   * `ReactivateVaultV1Ix::build`: fails exactly when `validate` does, with its error;
   * otherwise [payer, vault, system program] in order and the lone tag 5.
   */
  function Build(env: Env, ix: ReactivateVaultV1Ix): (r: Result<Instruction, ReactivateVaultV1IxError>)
    ensures r.Ok? <==> Valid(env, ix)
    ensures r.Err? ==> Err(r.error) == Validate(env, ix)
    ensures r.Ok? ==> r.value.programId == ix.programId && r.value.accounts == [ix.payer, ix.vault, ix.systemProgram]
                      && VID.Parse(r.value.data) == Ok((VID.ReactivateVaultV1, []))
  {
    match Validate(env, ix)
    case Err(e) => Err(e)
    case Ok(_) =>
      VID.ParseTagged(VID.ReactivateVaultV1, []);
      Ok(Instruction(ix.programId, [ix.payer, ix.vault, ix.systemProgram], [VID.ToByte(VID.ReactivateVaultV1)]))
  }

  /**
   * A valid builder's instruction, sent for a vault holding the deactivated tag alone, passes the
   * program's account checks.
   */
  lemma AcceptedByProgram(env: Env, ix: ReactivateVaultV1Ix, ins: Instruction, states: seq<AccountState>)
    requires Build(env, ix) == Ok(ins) && |states| == 3
    requires VAD.Check(VAD.DeactivatedAccount, states[1].data).Ok?
    ensures VaultReactivate.ValidateAccounts(env, ins.programId, Views(ins.accounts, states)).Ok?
    ensures VID.Parse(ins.data) == Ok((VID.ReactivateVaultV1, []))
  {
  }
}
