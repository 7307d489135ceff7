// The client builder for `DeactivateVaultV1`: metas for [owner, vault], an ordered
// metadata check, and `build`, which always validates and then writes the
// lone tag byte.

module VaultDeactivateClient {
  import opened Prims
  import opened Wrappers
  import opened Host
  import opened ClientInstruction
  import VID = VaultInstructionDiscriminator
  import VAD = VaultAccountDiscriminator
  import VaultDeactivate

  datatype DeactivateVaultV1IxError =
    | OwnerMustBeSigner
    | OwnerMustBeWriteable
    | VaultMustBeWriteable
    | VaultAddressMismatch(expected: Pubkey, observed: Pubkey)

  datatype DeactivateVaultV1Ix = DeactivateVaultV1Ix(programId: Pubkey, owner: AccountMeta, vault: AccountMeta)

  /** `DeactivateVaultV1Ix::new`: the owner signs, the vault sits at its derived address. */
  function New(env: Env, programId: Pubkey, owner: Pubkey): (ix: DeactivateVaultV1Ix)
    ensures ix.programId == programId && ix.owner == SignerWritable(owner)
    ensures ix.vault == Writable(env.deriveVault(programId, owner).0)
    ensures Validate(env, ix) == Ok(())
  {
    DeactivateVaultV1Ix(programId, SignerWritable(owner), Writable(env.deriveVault(programId, owner).0))
  }

  /** Everything `validate` demands, regardless of the order it checks in. */
  predicate Valid(env: Env, ix: DeactivateVaultV1Ix)
  {
    ix.owner.isSigner && ix.owner.isWritable && ix.vault.isWritable
    && ix.vault.pubkey == env.deriveVault(ix.programId, ix.owner.pubkey).0
  }

  /** `DeactivateVaultV1Ix::validate`: the first failing check names the error. */
  function Validate(env: Env, ix: DeactivateVaultV1Ix): (r: Result<(), DeactivateVaultV1IxError>)
    ensures r.Ok? <==> Valid(env, ix)
    ensures !ix.owner.isSigner ==> r == Err(OwnerMustBeSigner)
    ensures ix.owner.isSigner && !ix.owner.isWritable ==> r == Err(OwnerMustBeWriteable)
    ensures ix.owner.isSigner && ix.owner.isWritable && !ix.vault.isWritable ==> r == Err(VaultMustBeWriteable)
    ensures ix.owner.isSigner && ix.owner.isWritable && ix.vault.isWritable
            && ix.vault.pubkey != env.deriveVault(ix.programId, ix.owner.pubkey).0
            ==> r == Err(VaultAddressMismatch(env.deriveVault(ix.programId, ix.owner.pubkey).0, ix.vault.pubkey))
  {
    if !ix.owner.isSigner then Err(OwnerMustBeSigner)
    else if !ix.owner.isWritable then Err(OwnerMustBeWriteable)
    else if !ix.vault.isWritable then Err(VaultMustBeWriteable)
    else
      var expected := env.deriveVault(ix.programId, ix.owner.pubkey).0;
      if ix.vault.pubkey != expected then Err(VaultAddressMismatch(expected, ix.vault.pubkey))
      else Ok(())
  }

  /**
   * `DeactivateVaultV1Ix::build`: fails exactly when `validate` does, with its error;
   * otherwise [owner, vault] in order and the lone tag 4.
   */
  function Build(env: Env, ix: DeactivateVaultV1Ix): (r: Result<Instruction, DeactivateVaultV1IxError>)
    ensures r.Ok? <==> Valid(env, ix)
    ensures r.Err? ==> Err(r.error) == Validate(env, ix)
    ensures r.Ok? ==> r.value.programId == ix.programId && r.value.accounts == [ix.owner, ix.vault]
                      && VID.Parse(r.value.data) == Ok((VID.DeactivateVaultV1, []))
  {
    match Validate(env, ix)
    case Err(e) => Err(e)
    case Ok(_) =>
      VID.ParseTagged(VID.DeactivateVaultV1, []);
      Ok(Instruction(ix.programId, [ix.owner, ix.vault], [VID.ToByte(VID.DeactivateVaultV1)]))
  }

  /**
   * A valid builder's instruction, sent for an active vault record, passes the
   * program's account checks.
   */
  lemma AcceptedByProgram(env: Env, ix: DeactivateVaultV1Ix, ins: Instruction, states: seq<AccountState>)
    requires Build(env, ix) == Ok(ins) && |states| == 2
    requires VAD.Check(VAD.VaultV1Account, states[1].data).Ok?
    ensures VaultDeactivate.ValidateAccounts(env, ins.programId, Views(ins.accounts, states)).Ok?
    ensures VID.Parse(ins.data) == Ok((VID.DeactivateVaultV1, []))
  {
  }
}
