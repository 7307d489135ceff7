// The client builder for `WithdrawV1`: metas for [owner, vault] and the amount,
// an ordered metadata check, and `build`, which always validates and then
// writes the tag byte followed by the amount's eight little-endian bytes.

module VaultWithdrawClient {
  import opened Prims
  import opened Wrappers
  import opened Host
  import opened ClientInstruction
  import VID = VaultInstructionDiscriminator
  import VAD = VaultAccountDiscriminator
  import VaultWithdraw

  datatype WithdrawV1IxError =
    | OwnerMustBeSigner
    | OwnerMustBeWriteable
    | VaultMustBeWriteable
    | VaultAddressMismatch(expected: Pubkey, observed: Pubkey)

  datatype WithdrawV1Ix = WithdrawV1Ix(
    programId: Pubkey, owner: AccountMeta, vault: AccountMeta, amount: u64)

  /** `WithdrawV1Ix::new`: the owner signs, the vault sits at its derived address, the amount is kept. */
  function New(env: Env, programId: Pubkey, owner: Pubkey, amount: u64): (ix: WithdrawV1Ix)
    ensures ix.programId == programId && ix.owner == SignerWritable(owner)
    ensures ix.vault == Writable(env.deriveVault(programId, owner).0)
    ensures ix.amount == amount
    ensures Validate(env, ix) == Ok(())
  {
    WithdrawV1Ix(programId, SignerWritable(owner), Writable(env.deriveVault(programId, owner).0), amount)
  }

  /** Everything `validate` demands, regardless of the order it checks in. */
  predicate Valid(env: Env, ix: WithdrawV1Ix)
  {
    ix.owner.isSigner && ix.owner.isWritable && ix.vault.isWritable
    && ix.vault.pubkey == env.deriveVault(ix.programId, ix.owner.pubkey).0
  }

  /** `WithdrawV1Ix::validate`: the first failing check names the error. */
  function Validate(env: Env, ix: WithdrawV1Ix): (r: Result<(), WithdrawV1IxError>)
    ensures r.Ok? <==> Valid(env, ix)
    ensures !ix.owner.isSigner ==> r == Err(OwnerMustBeSigner)
    ensures ix.owner.isSigner && !ix.owner.isWritable ==> r == Err(OwnerMustBeWriteable)
    ensures ix.owner.isSigner && ix.owner.isWritable && !ix.vault.isWritable ==> r == Err(VaultMustBeWriteable)
    ensures ix.owner.isSigner && ix.owner.isWritable && ix.vault.isWritable
            && ix.vault.pubkey != env.deriveVault(ix.programId, ix.owner.pubkey).0
            ==> r == Err(VaultAddressMismatch(env.deriveVault(ix.programId, ix.owner.pubkey).0, ix.vault.pubkey))
  {
    if !ix.owner.isSigner then Err(OwnerMustBeSigner)
    else if !ix.owner.isWritable then Err(OwnerMustBeWriteable)
    else if !ix.vault.isWritable then Err(VaultMustBeWriteable)
    else
      var expected := env.deriveVault(ix.programId, ix.owner.pubkey).0;
      if ix.vault.pubkey != expected then Err(VaultAddressMismatch(expected, ix.vault.pubkey))
      else Ok(())
  }

  /** The amount is not part of the metadata check: changing it never changes `validate`'s verdict. */
  lemma AmountDoesNotAffectValidation(env: Env, ix: WithdrawV1Ix, amount: u64)
    ensures Validate(env, ix.(amount := amount)) == Validate(env, ix)
  {
  }

  /**
   * `WithdrawV1Ix::build`: fails exactly when `validate` does, with its error;
   * otherwise the metas in order and the data `[3]` followed by the
   * amount, which the program's tag parse and argument parse read back as
   * the same amount.
   */
  method Build(env: Env, ix: WithdrawV1Ix) returns (r: Result<Instruction, WithdrawV1IxError>)
    ensures r.Ok? <==> Valid(env, ix)
    ensures r.Err? ==> Err(r.error) == Validate(env, ix)
    ensures r.Ok? ==> r.value.programId == ix.programId && r.value.accounts == [ix.owner, ix.vault]
    ensures r.Ok? ==> r.value.data == [VID.ToByte(VID.WithdrawV1)] + U64ToLe(ix.amount)
    ensures r.Ok? ==> |r.value.data| == 9
                      && VID.Parse(r.value.data) == Ok((VID.WithdrawV1, r.value.data[1..]))
                      && VaultWithdraw.ParseArgs(r.value.data[1..]) == Ok(VaultWithdraw.WithdrawV1Args(ix.amount))
  {
    var checked := Validate(env, ix);
    if checked.Err? {
      return Err(checked.error);
    }
    var data := [VID.ToByte(VID.WithdrawV1)];
    data := data + U64ToLe(ix.amount);
    VID.ParseTagged(VID.WithdrawV1, U64ToLe(ix.amount));
    VaultWithdraw.ParseArgsEncoded(ix.amount, []);
    assert data[1..] == U64ToLe(ix.amount) + [];
    return Ok(Instruction(ix.programId, [ix.owner, ix.vault], data));
  }

  /**
   * A valid builder's instruction, sent for an active vault the program
   * owns, passes the program's account checks, and its payload parses to
   * the builder's amount.
   */
  lemma AcceptedByProgram(env: Env, ix: WithdrawV1Ix, ins: Instruction, states: seq<AccountState>)
    requires Valid(env, ix) && ins.programId == ix.programId && ins.accounts == [ix.owner, ix.vault]
    requires ins.data == [VID.ToByte(VID.WithdrawV1)] + U64ToLe(ix.amount)
    requires |states| == 2 && states[1].owner == ix.programId
    requires VAD.Check(VAD.VaultV1Account, states[1].data).Ok?
    ensures VaultWithdraw.Parse(env, ins.programId, Views(ins.accounts, states), ins.data[1..]).Ok?
    ensures VaultWithdraw.Parse(env, ins.programId, Views(ins.accounts, states), ins.data[1..]).value.1
            == VaultWithdraw.WithdrawV1Args(ix.amount)
  {
    assert ins.data[1..] == U64ToLe(ix.amount) + [];
    VaultWithdraw.ParseArgsEncoded(ix.amount, []);
  }
}
