// The client builder for `DepositV1`: metas for [owner, vault, system program] and the amount,
// an ordered metadata check, and `build`, which always validates and then
// writes the tag byte followed by the amount's eight little-endian bytes.

module VaultDepositClient {
  import opened Prims
  import opened Wrappers
  import opened Host
  import opened ClientInstruction
  import VID = VaultInstructionDiscriminator
  import VAD = VaultAccountDiscriminator
  import VaultDeposit

  datatype DepositV1IxError =
    | OwnerMustBeSigner
    | OwnerMustBeWriteable
    | VaultMustBeWriteable
    | VaultAddressMismatch(expected: Pubkey, observed: Pubkey)
    | SystemProgramAddressMismatch(expected: Pubkey, observed: Pubkey)

  datatype DepositV1Ix = DepositV1Ix(
    programId: Pubkey, owner: AccountMeta, vault: AccountMeta, systemProgram: AccountMeta, amount: u64)

  /** `DepositV1Ix::new`: the owner signs, the vault sits at its derived address, the amount is kept. */
  function New(env: Env, programId: Pubkey, owner: Pubkey, amount: u64): (ix: DepositV1Ix)
    ensures ix.programId == programId && ix.owner == SignerWritable(owner)
    ensures ix.vault == Writable(env.deriveVault(programId, owner).0)
    ensures ix.systemProgram == SystemProgramMeta()
    ensures ix.amount == amount
    ensures Validate(env, ix) == Ok(())
  {
    DepositV1Ix(programId, SignerWritable(owner), Writable(env.deriveVault(programId, owner).0), SystemProgramMeta(), amount)
  }

  /** Everything `validate` demands, regardless of the order it checks in. */
  predicate Valid(env: Env, ix: DepositV1Ix)
  {
    ix.owner.isSigner && ix.owner.isWritable && ix.vault.isWritable
    && ix.vault.pubkey == env.deriveVault(ix.programId, ix.owner.pubkey).0
    && ix.systemProgram.pubkey == SystemProgramId()
  }

  /** `DepositV1Ix::validate`: the first failing check names the error. */
  function Validate(env: Env, ix: DepositV1Ix): (r: Result<(), DepositV1IxError>)
    ensures r.Ok? <==> Valid(env, ix)
    ensures !ix.owner.isSigner ==> r == Err(OwnerMustBeSigner)
    ensures ix.owner.isSigner && !ix.owner.isWritable ==> r == Err(OwnerMustBeWriteable)
    ensures ix.owner.isSigner && ix.owner.isWritable && !ix.vault.isWritable ==> r == Err(VaultMustBeWriteable)
    ensures ix.owner.isSigner && ix.owner.isWritable && ix.vault.isWritable
            && ix.vault.pubkey != env.deriveVault(ix.programId, ix.owner.pubkey).0
            ==> r == Err(VaultAddressMismatch(env.deriveVault(ix.programId, ix.owner.pubkey).0, ix.vault.pubkey))
    ensures ix.owner.isSigner && ix.owner.isWritable && ix.vault.isWritable
            && ix.vault.pubkey == env.deriveVault(ix.programId, ix.owner.pubkey).0
            && ix.systemProgram.pubkey != SystemProgramId()
            ==> r == Err(SystemProgramAddressMismatch(SystemProgramId(), ix.systemProgram.pubkey))
  {
    if !ix.owner.isSigner then Err(OwnerMustBeSigner)
    else if !ix.owner.isWritable then Err(OwnerMustBeWriteable)
    else if !ix.vault.isWritable then Err(VaultMustBeWriteable)
    else
      var expected := env.deriveVault(ix.programId, ix.owner.pubkey).0;
      if ix.vault.pubkey != expected then Err(VaultAddressMismatch(expected, ix.vault.pubkey))
      else if ix.systemProgram.pubkey != SystemProgramId() then
        Err(SystemProgramAddressMismatch(SystemProgramId(), ix.systemProgram.pubkey))
      else Ok(())
  }

  /** The amount is not part of the metadata check: changing it never changes `validate`'s verdict. */
  lemma AmountDoesNotAffectValidation(env: Env, ix: DepositV1Ix, amount: u64)
    ensures Validate(env, ix.(amount := amount)) == Validate(env, ix)
  {
  }

  /**
   * `DepositV1Ix::build`: fails exactly when `validate` does, with its error;
   * otherwise the metas in order and the data `[2]` followed by the
   * amount, which the program's tag parse and argument parse read back as
   * the same amount.
   */
  method Build(env: Env, ix: DepositV1Ix) returns (r: Result<Instruction, DepositV1IxError>)
    ensures r.Ok? <==> Valid(env, ix)
    ensures r.Err? ==> Err(r.error) == Validate(env, ix)
    ensures r.Ok? ==> r.value.programId == ix.programId && r.value.accounts == [ix.owner, ix.vault, ix.systemProgram]
    ensures r.Ok? ==> r.value.data == [VID.ToByte(VID.DepositV1)] + U64ToLe(ix.amount)
    ensures r.Ok? ==> |r.value.data| == 9
                      && VID.Parse(r.value.data) == Ok((VID.DepositV1, r.value.data[1..]))
                      && VaultDeposit.ParseArgs(r.value.data[1..]) == Ok(VaultDeposit.DepositV1Args(ix.amount))
  {
    var checked := Validate(env, ix);
    if checked.Err? {
      return Err(checked.error);
    }
    var data := [VID.ToByte(VID.DepositV1)];
    data := data + U64ToLe(ix.amount);
    VID.ParseTagged(VID.DepositV1, U64ToLe(ix.amount));
    VaultDeposit.ParseArgsEncoded(ix.amount, []);
    assert data[1..] == U64ToLe(ix.amount) + [];
    return Ok(Instruction(ix.programId, [ix.owner, ix.vault, ix.systemProgram], data));
  }

  /**
   * A valid builder's instruction, sent for an active vault the program
   * owns, passes the program's account checks, and its payload parses to
   * the builder's amount.
   */
  lemma AcceptedByProgram(env: Env, ix: DepositV1Ix, ins: Instruction, states: seq<AccountState>)
    requires Valid(env, ix) && ins.programId == ix.programId && ins.accounts == [ix.owner, ix.vault, ix.systemProgram]
    requires ins.data == [VID.ToByte(VID.DepositV1)] + U64ToLe(ix.amount)
    requires |states| == 3 && states[1].owner == ix.programId
    requires VAD.Check(VAD.VaultV1Account, states[1].data).Ok?
    ensures VaultDeposit.Parse(env, ins.programId, Views(ins.accounts, states), ins.data[1..]).Ok?
    ensures VaultDeposit.Parse(env, ins.programId, Views(ins.accounts, states), ins.data[1..]).value.1
            == VaultDeposit.DepositV1Args(ix.amount)
  {
    assert ins.data[1..] == U64ToLe(ix.amount) + [];
    VaultDeposit.ParseArgsEncoded(ix.amount, []);
  }
}
