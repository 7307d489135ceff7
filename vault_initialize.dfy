// `InitializeVaultV1`: validate [payer, vault, system program], then create
// the vault at the payer's derived address and write its 34-byte record.

module VaultInitialize {
  import opened Prims
  import opened Wrappers
  import opened Host
  import VAD = VaultAccountDiscriminator
  import opened VaultState

  datatype InitializeVaultV1Error =
    | ProgramError(pe: Host.ProgramError)
    | NotEnoughAccounts(expectedLen: nat, observedLen: nat)
    | PayerMustBeSigner
    | PayerMustBeWriteable
    | VaultMustBeWriteable
    | VaultAddressMismatch(expected: Pubkey, observed: Pubkey)
    | VaultMustBeEmpty
    | VaultMustHaveZeroLamports
    | VaultMustBeOwnedBySystemProgram
    | SystemProgramAddressMismatch
    | SerializedSizeMismatch(expectedSize: nat, observedSize: nat)

  datatype InitializeVaultV1Accounts = InitializeVaultV1Accounts(
    payer: AccountView, vault: AccountView, vaultBump: u8, systemProgram: AccountView)

  predicate Accepts(env: Env, programId: Pubkey, a: seq<AccountView>)
  {
    |a| == 3 && a[0].isSigner && a[0].isWritable && a[1].isWritable
    && a[1].key == env.deriveVault(programId, a[0].key).0
    && |a[1].data| == 0 && a[1].lamports == 0 && a[1].owner == SystemProgramId()
    && a[2].key == SystemProgramId()
  }

  /** `InitializeVaultV1Accounts::try_from`. */
  function ValidateAccounts(env: Env, programId: Pubkey, a: seq<AccountView>)
    : (r: Result<InitializeVaultV1Accounts, InitializeVaultV1Error>)
    ensures r.Ok? <==> Accepts(env, programId, a)
    ensures r.Ok? ==> r.value == InitializeVaultV1Accounts(a[0], a[1], env.deriveVault(programId, a[0].key).1, a[2])
    ensures |a| != 3 ==> r == Err(NotEnoughAccounts(3, |a|))
    ensures |a| == 3 && !a[0].isSigner ==> r == Err(PayerMustBeSigner)
    ensures |a| == 3 && a[0].isSigner && !a[0].isWritable ==> r == Err(PayerMustBeWriteable)
    ensures |a| == 3 && a[0].isSigner && a[0].isWritable && !a[1].isWritable ==> r == Err(VaultMustBeWriteable)
    ensures |a| == 3 && a[0].isSigner && a[0].isWritable && a[1].isWritable
            && a[1].key != env.deriveVault(programId, a[0].key).0
            ==> r == Err(VaultAddressMismatch(env.deriveVault(programId, a[0].key).0, a[1].key))
    ensures |a| == 3 && a[0].isSigner && a[0].isWritable && a[1].isWritable
            && a[1].key == env.deriveVault(programId, a[0].key).0
            ==> (|a[1].data| != 0 ==> r == Err(VaultMustBeEmpty))
                && (|a[1].data| == 0 && a[1].lamports > 0 ==> r == Err(VaultMustHaveZeroLamports))
                && (|a[1].data| == 0 && a[1].lamports == 0 && a[1].owner != SystemProgramId()
                    ==> r == Err(VaultMustBeOwnedBySystemProgram))
                && ((|a[1].data| == 0 && a[1].lamports == 0 && a[1].owner == SystemProgramId()
                     && a[2].key != SystemProgramId()) ==> r == Err(SystemProgramAddressMismatch))
  {
    if |a| != 3 then Err(NotEnoughAccounts(3, |a|))
    else
      var payer, vault, systemProgram := a[0], a[1], a[2];
      if !payer.isSigner then Err(PayerMustBeSigner)
      else if !payer.isWritable then Err(PayerMustBeWriteable)
      else if !vault.isWritable then Err(VaultMustBeWriteable)
      else
        var (expected, bump) := env.deriveVault(programId, payer.key);
        if vault.key != expected then Err(VaultAddressMismatch(expected, vault.key))
        else if |vault.data| != 0 then Err(VaultMustBeEmpty)
        else if vault.lamports > 0 then Err(VaultMustHaveZeroLamports)
        else if vault.owner != SystemProgramId() then Err(VaultMustBeOwnedBySystemProgram)
        else if systemProgram.key != SystemProgramId() then Err(SystemProgramAddressMismatch)
        else Ok(InitializeVaultV1Accounts(payer, vault, bump, systemProgram))
  }

  /** The record a new vault holds. */
  function FreshVault(owner: Pubkey, bump: u8): VaultV1
  {
    VaultV1(VAD.VaultV1Account, owner, bump)
  }

  /**
   * `InitializeVaultV1::execute` on the payer and the vault. The encoded
   * record always has 34 bytes, so the only failures are the host's.
   */
  function ExecuteSpec(env: Env, programId: Pubkey, payer: AccountView, vault: AccountView, bump: u8)
    : (r: Result<(AccountView, AccountView), InitializeVaultV1Error>)
    ensures r.Ok? <==> CreateAccountSpec(payer, vault, VAD.VAULT_V1_SIZE, programId, env.rentMin(VAD.VAULT_V1_SIZE)).Ok?
    ensures r.Err? ==> r.error.ProgramError?
    ensures r.Ok? ==> Decode(r.value.1.data) == Ok(FreshVault(payer.key, bump))
    ensures r.Ok? ==> r.value.1 == vault.(owner := programId, lamports := r.value.1.lamports,
                                          data := Encode(FreshVault(payer.key, bump)))
    ensures r.Ok? ==> r.value.1.lamports >= env.rentMin(VAD.VAULT_V1_SIZE)
    ensures r.Ok? ==> r.value.0 == payer.(lamports := r.value.0.lamports)
    ensures r.Ok? ==> r.value.0.lamports + r.value.1.lamports == payer.lamports + vault.lamports
  {
    match CreateAccountSpec(payer, vault, VAD.VAULT_V1_SIZE, programId, env.rentMin(VAD.VAULT_V1_SIZE))
    case Err(pe) => Err(ProgramError(pe))
    case Ok((payer', vault')) =>
      var serialized := Encode(FreshVault(payer.key, bump));
      var observed: nat := |serialized|;
      DecodeEncode(FreshVault(payer.key, bump));
      if observed != VAD.VAULT_V1_SIZE then Err(SerializedSizeMismatch(VAD.VAULT_V1_SIZE, observed))
      else Ok((payer', vault'.(data := serialized)))
  }

  function Run(env: Env, programId: Pubkey, accounts: seq<AccountView>)
    : (r: Result<seq<AccountView>, InitializeVaultV1Error>)
    ensures r.Ok? ==> Accepts(env, programId, accounts) && |r.value| == 3
  {
    match ValidateAccounts(env, programId, accounts)
    case Err(e) => Err(e)
    case Ok(v) =>
      match ExecuteSpec(env, programId, v.payer, v.vault, v.vaultBump)
      case Err(e) => Err(e)
      case Ok((payer', vault')) => Ok([payer', vault', v.systemProgram])
  }

  /**
   * A successful initialization leaves a rent-exempt, program-owned vault at
   * the payer's derived address whose bytes are `to_bytes` of tag 1, the
   * payer and the derived bump.
   */
  lemma RunCreatesVault(env: Env, programId: Pubkey, accounts: seq<AccountView>)
    requires Run(env, programId, accounts).Ok?
    ensures var after := Run(env, programId, accounts).value;
            var (address, bump) := env.deriveVault(programId, accounts[0].key);
            after[1].key == address && after[1].owner == programId
            && after[1].data == [1] + accounts[0].key + [bump]
            && VAD.Check(VAD.VaultV1Account, after[1].data) == Ok(())
            && after[1].lamports >= env.rentMin(VAD.VAULT_V1_SIZE)
            && after[0].lamports + after[1].lamports == accounts[0].lamports + accounts[1].lamports
  {
  }

  /** A vault that already holds data, active or deactivated, cannot be initialized again. */
  lemma RejectsExistingVault(env: Env, programId: Pubkey, payer: AccountView, vault: AccountView,
                             systemProgram: AccountView, v: VaultV1)
    requires payer.isSigner && payer.isWritable && vault.isWritable
    requires vault.key == env.deriveVault(programId, payer.key).0
    requires vault.data == Encode(v) || vault.data == [VAD.ToByte(VAD.DeactivatedAccount)]
    ensures Run(env, programId, [payer, vault, systemProgram]) == Err(VaultMustBeEmpty)
  {
  }

  /** `InitializeVaultV1::execute`: create the account, then copy `to_bytes` into it. */
  method Execute(env: Env, programId: Pubkey, payer: Account, vault: Account, bump: u8)
    returns (r: Result<(), InitializeVaultV1Error>)
    requires payer != vault
    modifies payer, vault
    ensures Applied2(r, ExecuteSpec(env, programId, old(payer.View()), old(vault.View()), bump),
                     payer, vault, old(payer.View()), old(vault.View()))
  {
    var created := CreateAccount(env, vault, VAD.VAULT_V1_SIZE, programId, payer);
    if created.Err? {
      return Err(ProgramError(created.error));
    }
    var state := new VaultV1Record(FreshVault(payer.key, bump));
    var serialized := state.ToBytes();
    var observed: nat := serialized.Length;
    if observed != VAD.VAULT_V1_SIZE {
      return Err(SerializedSizeMismatch(VAD.VAULT_V1_SIZE, observed));
    }
    vault.data := serialized[..];
    return Ok(());
  }
}
