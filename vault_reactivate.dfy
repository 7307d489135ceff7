// `ReactivateVaultV1`: validate [payer, vault, system program] with the
// deactivated-tag guard, top the vault up to the rent minimum of a full
// record, grow it back to 34 bytes and write the record a new vault of the
// payer would hold. The vault's program owner is not checked.

module VaultReactivate {
  import opened Prims
  import opened Wrappers
  import opened Host
  import VAD = VaultAccountDiscriminator
  import opened VaultState
  import VaultInitialize

  datatype ReactivateVaultV1Error =
    | ProgramError(pe: Host.ProgramError)
    | NotEnoughAccounts(expectedLen: nat, observedLen: nat)
    | PayerMustBeSigner
    | PayerMustBeWriteable
    | VaultMustBeWriteable
    | VaultAddressMismatch(expected: Pubkey, observed: Pubkey)
    | SystemProgramAddressMismatch
    | AccountDiscriminatorError(err: VAD.AccountDiscriminatorError)
    | SerializedSizeMismatch(expectedSize: nat, observedSize: nat)

  datatype ReactivateVaultV1Accounts = ReactivateVaultV1Accounts(
    payer: AccountView, vault: AccountView, vaultBump: u8, systemProgram: AccountView)

  predicate Accepts(env: Env, programId: Pubkey, a: seq<AccountView>)
  {
    |a| == 3 && a[0].isSigner && a[0].isWritable && a[1].isWritable
    && a[1].key == env.deriveVault(programId, a[0].key).0
    && a[2].key == SystemProgramId()
    && VAD.Check(VAD.DeactivatedAccount, a[1].data).Ok?
  }

  /** `ReactivateVaultV1Accounts::try_from`. */
  function ValidateAccounts(env: Env, programId: Pubkey, a: seq<AccountView>)
    : (r: Result<ReactivateVaultV1Accounts, ReactivateVaultV1Error>)
    ensures r.Ok? <==> Accepts(env, programId, a)
    ensures r.Ok? ==> r.value == ReactivateVaultV1Accounts(a[0], a[1], env.deriveVault(programId, a[0].key).1, a[2])
    ensures |a| != 3 ==> r == Err(NotEnoughAccounts(3, |a|))
    ensures |a| == 3 && !a[0].isSigner ==> r == Err(PayerMustBeSigner)
    ensures |a| == 3 && a[0].isSigner && !a[0].isWritable ==> r == Err(PayerMustBeWriteable)
    ensures |a| == 3 && a[0].isSigner && a[0].isWritable && !a[1].isWritable ==> r == Err(VaultMustBeWriteable)
    ensures |a| == 3 && a[0].isSigner && a[0].isWritable && a[1].isWritable
            && a[1].key != env.deriveVault(programId, a[0].key).0
            ==> r == Err(VaultAddressMismatch(env.deriveVault(programId, a[0].key).0, a[1].key))
    ensures |a| == 3 && a[0].isSigner && a[0].isWritable && a[1].isWritable
            && a[1].key == env.deriveVault(programId, a[0].key).0
            ==> (a[2].key != SystemProgramId() ==> r == Err(SystemProgramAddressMismatch))
                && (a[2].key == SystemProgramId() && VAD.Check(VAD.DeactivatedAccount, a[1].data).Err?
                    ==> r == Err(AccountDiscriminatorError(VAD.Check(VAD.DeactivatedAccount, a[1].data).error)))
  {
    if |a| != 3 then Err(NotEnoughAccounts(3, |a|))
    else
      var payer, vault, systemProgram := a[0], a[1], a[2];
      if !payer.isSigner then Err(PayerMustBeSigner)
      else if !payer.isWritable then Err(PayerMustBeWriteable)
      else if !vault.isWritable then Err(VaultMustBeWriteable)
      else
        var (expected, bump) := env.deriveVault(programId, payer.key);
        if vault.key != expected then Err(VaultAddressMismatch(expected, vault.key))
        else if systemProgram.key != SystemProgramId() then Err(SystemProgramAddressMismatch)
        else match VAD.Check(VAD.DeactivatedAccount, vault.data)
          case Err(e) => Err(AccountDiscriminatorError(e))
          case Ok(_) => Ok(ReactivateVaultV1Accounts(payer, vault, bump, systemProgram))
  }

  /** The lamports the payer transfers: the shortfall against a full record's rent minimum. */
  function TopUp(env: Env, vault: AccountView): (n: u64)
    ensures vault.lamports + n >= env.rentMin(VAD.VAULT_V1_SIZE)
    ensures n > 0 ==> vault.lamports + n == env.rentMin(VAD.VAULT_V1_SIZE)
  {
    SaturatingSub(env.rentMin(VAD.VAULT_V1_SIZE), vault.lamports)
  }

  /** The lamport step of `execute`: a transfer only when there is a shortfall. */
  function FundSpec(env: Env, payer: AccountView, vault: AccountView)
    : (r: Result<(AccountView, AccountView), Host.ProgramError>)
    ensures TopUp(env, vault) == 0 ==> r == Ok((payer, vault))
    ensures TopUp(env, vault) > 0 ==> r == TransferSpec(payer, vault, TopUp(env, vault))
  {
    var need := TopUp(env, vault);
    if need > 0 then TransferSpec(payer, vault, need) else Ok((payer, vault))
  }

  /**
   * `ReactivateVaultV1::execute` on the payer and the vault. The encoded
   * record always has 34 bytes, so the only failure is the transfer's.
   */
  function ExecuteSpec(env: Env, payer: AccountView, vault: AccountView, bump: u8)
    : (r: Result<(AccountView, AccountView), ReactivateVaultV1Error>)
    ensures r.Ok? <==> FundSpec(env, payer, vault).Ok?
    ensures r.Err? ==> r == Err(ProgramError(FundSpec(env, payer, vault).error))
    ensures r.Ok? ==> r.value.1.data == Encode(VaultInitialize.FreshVault(payer.key, bump))
    ensures r.Ok? ==> Decode(r.value.1.data) == Ok(VaultInitialize.FreshVault(payer.key, bump))
    ensures r.Ok? ==> r.value.1.lamports >= env.rentMin(VAD.VAULT_V1_SIZE)
    ensures r.Ok? ==> r.value.0.lamports + r.value.1.lamports == payer.lamports + vault.lamports
    ensures r.Ok? ==> r.value.0 == payer.(lamports := r.value.0.lamports)
                      && r.value.1 == vault.(lamports := r.value.1.lamports, data := r.value.1.data)
  {
    match FundSpec(env, payer, vault)
    case Err(pe) => Err(ProgramError(pe))
    case Ok((payer', vault')) =>
      var grown := Resized(vault'.data, VAD.VAULT_V1_SIZE);
      var serialized := Encode(VaultV1(VAD.VaultV1Account, payer.key, bump));
      var observed: nat := |serialized|;
      DecodeEncode(VaultV1(VAD.VaultV1Account, payer.key, bump));
      if observed != VAD.VAULT_V1_SIZE then Err(SerializedSizeMismatch(VAD.VAULT_V1_SIZE, observed))
      else
        assert |grown| == |serialized|;
        Ok((payer', vault'.(data := serialized)))
  }

  function Run(env: Env, programId: Pubkey, accounts: seq<AccountView>)
    : (r: Result<seq<AccountView>, ReactivateVaultV1Error>)
    ensures r.Ok? ==> Accepts(env, programId, accounts) && |r.value| == 3
  {
    match ValidateAccounts(env, programId, accounts)
    case Err(e) => Err(e)
    case Ok(v) =>
      match ExecuteSpec(env, v.payer, v.vault, v.vaultBump)
      case Err(e) => Err(e)
      case Ok((payer', vault')) => Ok([payer', vault', v.systemProgram])
  }

  /**
   * A reactivated vault sits at the payer's derived address, holds the
   * record a fresh initialization by the payer would write, passes the
   * active-vault guard and is rent-exempt; the payer pays only the shortfall.
   */
  lemma RunReactivates(env: Env, programId: Pubkey, accounts: seq<AccountView>)
    requires Run(env, programId, accounts).Ok?
    ensures var after := Run(env, programId, accounts).value;
            var (address, bump) := env.deriveVault(programId, accounts[0].key);
            after[1].key == address
            && after[1].data == [VAD.ToByte(VAD.VaultV1Account)] + accounts[0].key + [bump]
            && VAD.Check(VAD.VaultV1Account, after[1].data) == Ok(())
            && after[1].lamports >= env.rentMin(VAD.VAULT_V1_SIZE)
            && after[0].lamports == accounts[0].lamports - TopUp(env, accounts[1])
            && after[2] == accounts[2]
  {
    if TopUp(env, accounts[1]) == 0 {
      assert FundSpec(env, accounts[0], accounts[1]) == Ok((accounts[0], accounts[1]));
    }
  }

  /** An active vault is not a deactivated one: reactivating it writes nothing. */
  lemma RejectsActiveVault(env: Env, programId: Pubkey, payer: AccountView, vault: AccountView,
                           systemProgram: AccountView, v: VaultV1)
    requires payer.isSigner && payer.isWritable && vault.isWritable
    requires vault.key == env.deriveVault(programId, payer.key).0 && systemProgram.key == SystemProgramId()
    requires v.discriminator == VAD.VaultV1Account && vault.data == Encode(v)
    ensures Run(env, programId, [payer, vault, systemProgram])
            == Err(AccountDiscriminatorError(VAD.DiscriminatorMismatch(VAD.DeactivatedAccount, VAD.VaultV1Account)))
  {
  }

  /** `ReactivateVaultV1::execute`: optional transfer, resize, then the `to_bytes` copy. */
  method Execute(env: Env, payer: Account, vault: Account, bump: u8) returns (r: Result<(), ReactivateVaultV1Error>)
    requires payer != vault
    modifies payer, vault
    ensures Applied2(r, ExecuteSpec(env, old(payer.View()), old(vault.View()), bump),
                     payer, vault, old(payer.View()), old(vault.View()))
  {
    var rentExemptMinimumVault := env.rentMin(VAD.VAULT_V1_SIZE);
    var currentLamports := vault.lamports;
    var additionalLamportsNeeded := SaturatingSub(rentExemptMinimumVault, currentLamports);
    if additionalLamportsNeeded > 0 {
      var transferred := Transfer(payer, vault, additionalLamportsNeeded);
      if transferred.Err? {
        return Err(ProgramError(transferred.error));
      }
    }
    vault.Resize(VAD.VAULT_V1_SIZE);
    var state := new VaultV1Record(VaultV1(VAD.VaultV1Account, payer.key, bump));
    var serialized := state.ToBytes();
    var observed: nat := serialized.Length;
    if observed != VAD.VAULT_V1_SIZE {
      return Err(SerializedSizeMismatch(VAD.VAULT_V1_SIZE, observed));
    }
    vault.data := serialized[..];
    return Ok(());
  }
}
