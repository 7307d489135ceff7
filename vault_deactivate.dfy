// `DeactivateVaultV1`: validate [owner, vault] with the active-vault tag
// guard, then mark the vault deactivated, shrink it to one byte and return
// every lamport above that size's rent minimum to the owner. Unlike the
// deposit and withdrawal paths, neither the vault's program owner nor the
// owner recorded inside it is checked: the derived address alone binds the
// signer to the vault.

module VaultDeactivate {
  import opened Prims
  import opened Wrappers
  import opened Host
  import VAD = VaultAccountDiscriminator

  datatype DeactivateVaultV1Error =
    | ProgramError(pe: Host.ProgramError)
    | NotEnoughAccounts(expectedLen: nat, observedLen: nat)
    | OwnerMustBeSigner
    | OwnerMustBeWriteable
    | VaultMustBeWriteable
    | VaultAddressMismatch(expected: Pubkey, observed: Pubkey)
    | AccountDiscriminatorError(err: VAD.AccountDiscriminatorError)

  datatype DeactivateVaultV1Accounts = DeactivateVaultV1Accounts(owner: AccountView, vault: AccountView, vaultBump: u8)

  predicate Accepts(env: Env, programId: Pubkey, a: seq<AccountView>)
  {
    |a| == 2 && a[0].isSigner && a[0].isWritable && a[1].isWritable
    && a[1].key == env.deriveVault(programId, a[0].key).0
    && VAD.Check(VAD.VaultV1Account, a[1].data).Ok?
  }

  /** `DeactivateVaultV1Accounts::try_from`. */
  function ValidateAccounts(env: Env, programId: Pubkey, a: seq<AccountView>)
    : (r: Result<DeactivateVaultV1Accounts, DeactivateVaultV1Error>)
    ensures r.Ok? <==> Accepts(env, programId, a)
    ensures r.Ok? ==> r.value == DeactivateVaultV1Accounts(a[0], a[1], env.deriveVault(programId, a[0].key).1)
    ensures |a| != 2 ==> r == Err(NotEnoughAccounts(2, |a|))
    ensures |a| == 2 && !a[0].isSigner ==> r == Err(OwnerMustBeSigner)
    ensures |a| == 2 && a[0].isSigner && !a[0].isWritable ==> r == Err(OwnerMustBeWriteable)
    ensures |a| == 2 && a[0].isSigner && a[0].isWritable && !a[1].isWritable ==> r == Err(VaultMustBeWriteable)
    ensures |a| == 2 && a[0].isSigner && a[0].isWritable && a[1].isWritable
            && a[1].key != env.deriveVault(programId, a[0].key).0
            ==> r == Err(VaultAddressMismatch(env.deriveVault(programId, a[0].key).0, a[1].key))
    ensures |a| == 2 && a[0].isSigner && a[0].isWritable && a[1].isWritable
            && a[1].key == env.deriveVault(programId, a[0].key).0
            && VAD.Check(VAD.VaultV1Account, a[1].data).Err?
            ==> r == Err(AccountDiscriminatorError(VAD.Check(VAD.VaultV1Account, a[1].data).error))
  {
    if |a| != 2 then Err(NotEnoughAccounts(2, |a|))
    else
      var owner, vault := a[0], a[1];
      if !owner.isSigner then Err(OwnerMustBeSigner)
      else if !owner.isWritable then Err(OwnerMustBeWriteable)
      else if !vault.isWritable then Err(VaultMustBeWriteable)
      else
        var (expected, bump) := env.deriveVault(programId, owner.key);
        if vault.key != expected then Err(VaultAddressMismatch(expected, vault.key))
        else match VAD.Check(VAD.VaultV1Account, vault.data)
          case Err(e) => Err(AccountDiscriminatorError(e))
          case Ok(_) => Ok(DeactivateVaultV1Accounts(owner, vault, bump))
  }

  /** The lamports a deactivation moves from the vault to its owner. */
  function Reclaimable(env: Env, vault: AccountView): (n: u64)
    ensures n <= vault.lamports
    ensures vault.lamports - n == (if vault.lamports <= env.rentMin(VAD.DEACTIVATED_ACCOUNT_SIZE)
                                   then vault.lamports else env.rentMin(VAD.DEACTIVATED_ACCOUNT_SIZE))
  {
    SaturatingSub(vault.lamports, env.rentMin(VAD.DEACTIVATED_ACCOUNT_SIZE))
  }

  /**
   * `DeactivateVaultV1::execute` on the owner and the vault. The first byte
   * is overwritten, so the vault must hold at least one byte (the tag guard
   * has established 34); the owner's credit cannot overflow because the two
   * balances together fit the lamport type.
   */
  function ExecuteSpec(env: Env, owner: AccountView, vault: AccountView): (r: (AccountView, AccountView))
    requires |vault.data| > 0
    requires LamportsFit(owner, vault)
    ensures r.1.data == [VAD.ToByte(VAD.DeactivatedAccount)]
            && VAD.Check(VAD.DeactivatedAccount, r.1.data) == Ok(())
    ensures r.1.lamports == (if vault.lamports <= env.rentMin(VAD.DEACTIVATED_ACCOUNT_SIZE)
                            then vault.lamports else env.rentMin(VAD.DEACTIVATED_ACCOUNT_SIZE))
    ensures r.0.lamports + r.1.lamports == owner.lamports + vault.lamports
    ensures r.0 == owner.(lamports := r.0.lamports) && r.1 == vault.(lamports := r.1.lamports, data := r.1.data)
  {
    var marked := vault.data[0 := VAD.ToByte(VAD.DeactivatedAccount)];
    var moved := Reclaimable(env, vault);
    (owner.(lamports := owner.lamports + moved),
     vault.(lamports := vault.lamports - moved, data := Resized(marked, VAD.DEACTIVATED_ACCOUNT_SIZE)))
  }

  function Run(env: Env, programId: Pubkey, accounts: seq<AccountView>)
    : (r: Result<seq<AccountView>, DeactivateVaultV1Error>)
    requires |accounts| == 2 ==> LamportsFit(accounts[0], accounts[1])
    ensures r.Ok? <==> Accepts(env, programId, accounts)
    ensures r.Ok? ==> |r.value| == 2
  {
    match ValidateAccounts(env, programId, accounts)
    case Err(e) => Err(e)
    case Ok(v) =>
      var (owner', vault') := ExecuteSpec(env, v.owner, v.vault);
      Ok([owner', vault'])
  }

  /**
   * Deactivation succeeds for every accepted account list: it leaves the
   * one tag byte and at most that size's rent minimum, and no lamport is
   * created or lost.
   */
  lemma RunDeactivates(env: Env, programId: Pubkey, accounts: seq<AccountView>)
    requires |accounts| == 2 && LamportsFit(accounts[0], accounts[1])
    requires Accepts(env, programId, accounts)
    ensures var after := Run(env, programId, accounts).value;
            after[1].key == accounts[1].key && after[1].owner == accounts[1].owner
            && after[1].data == [VAD.ToByte(VAD.DeactivatedAccount)]
            && after[1].lamports <= env.rentMin(VAD.DEACTIVATED_ACCOUNT_SIZE)
            && after[0].lamports >= accounts[0].lamports
            && after[0].lamports + after[1].lamports == accounts[0].lamports + accounts[1].lamports
  {
  }

  /**
   * The stored owner never matters: a vault whose record names someone else
   * is deactivated for whoever signs for the derived address.
   */
  lemma IgnoresStoredOwner(env: Env, programId: Pubkey, owner: AccountView, vault: AccountView, other: Pubkey, bump: u8)
    requires owner.isSigner && owner.isWritable && vault.isWritable
    requires vault.key == env.deriveVault(programId, owner.key).0 && LamportsFit(owner, vault)
    requires vault.data == [VAD.ToByte(VAD.VaultV1Account)] + other + [bump]
    ensures Run(env, programId, [owner, vault]).Ok?
  {
  }

  /** A deactivated vault is rejected by the tag guard. */
  lemma RejectsDeactivatedVault(env: Env, programId: Pubkey, owner: AccountView, vault: AccountView)
    requires owner.isSigner && owner.isWritable && vault.isWritable
    requires vault.key == env.deriveVault(programId, owner.key).0 && LamportsFit(owner, vault)
    requires vault.data == [VAD.ToByte(VAD.DeactivatedAccount)]
    ensures Run(env, programId, [owner, vault])
            == Err(AccountDiscriminatorError(VAD.DiscriminatorMismatch(VAD.VaultV1Account, VAD.DeactivatedAccount)))
  {
  }

  /** `DeactivateVaultV1::execute`: tag byte, resize, then the lamport move. */
  method Execute(env: Env, owner: Account, vault: Account)
    requires owner != vault
    requires |vault.data| > 0
    requires LamportsFit(owner.View(), vault.View())
    modifies owner, vault
    ensures (owner.View(), vault.View()) == ExecuteSpec(env, old(owner.View()), old(vault.View()))
  {
    vault.data := vault.data[0 := VAD.ToByte(VAD.DeactivatedAccount)];
    var rentExemptMinimum := env.rentMin(VAD.DEACTIVATED_ACCOUNT_SIZE);
    vault.Resize(VAD.DEACTIVATED_ACCOUNT_SIZE);
    var totalLamports := vault.lamports;
    var lamportsToTransfer := SaturatingSub(totalLamports, rentExemptMinimum);
    vault.lamports := vault.lamports - lamportsToTransfer;
    owner.lamports := owner.lamports + lamportsToTransfer;
  }
}
