// Properties of sequences of vault instructions: what initialization
// funds, how deposit and withdrawal undo each other, and how deactivation
// and reactivation bracket a vault's life.

module VaultLifecycle {
  import opened Prims
  import opened Wrappers
  import opened Host
  import VAD = VaultAccountDiscriminator
  import opened VaultState
  import VaultInitialize
  import VaultDeposit
  import VaultWithdraw
  import VaultDeactivate
  import VaultReactivate

  /**
   * A new vault holds exactly the rent minimum, so nothing can be withdrawn
   * from it until something is deposited.
   */
  lemma FreshVaultHasNothingToWithdraw(env: Env, programId: Pubkey, accounts: seq<AccountView>, amount: u64)
    requires VaultInitialize.Run(env, programId, accounts).Ok?
    requires amount > 0
    requires var after := VaultInitialize.Run(env, programId, accounts).value;
             LamportsFit(after[0], after[1])
    ensures var after := VaultInitialize.Run(env, programId, accounts).value;
            after[1].lamports == env.rentMin(VAD.VAULT_V1_SIZE)
            && VaultWithdraw.ExecuteSpec(env, after[0], after[1], amount) == Err(VaultWithdraw.WithdrawV1Error.InsufficientFunds(0, amount))
  {
    var after := VaultInitialize.Run(env, programId, accounts).value;
    VaultInitialize.RunCreatesVault(env, programId, accounts);
    DecodeEncode(VaultInitialize.FreshVault(accounts[0].key, env.deriveVault(programId, accounts[0].key).1));
  }

  /**
   * Withdrawing what was just deposited is accepted for any vault that was
   * rent-exempt before, and puts both balances back where they started.
   */
  lemma WithdrawUndoesDeposit(env: Env, programId: Pubkey, owner: AccountView, vault: AccountView,
                              systemProgram: AccountView, amount: u64)
    requires VaultDeposit.Accepts(env, programId, [owner, vault, systemProgram])
    requires vault.lamports >= env.rentMin(VAD.VAULT_V1_SIZE) && LamportsFit(owner, vault)
    requires VaultDeposit.ExecuteSpec(owner, vault, amount).Ok?
    ensures var (owner', vault') := VaultDeposit.ExecuteSpec(owner, vault, amount).value;
            LamportsFit(owner', vault')
            && VaultWithdraw.Accepts(env, programId, [owner', vault'])
            && VaultWithdraw.ExecuteSpec(env, owner', vault', amount) == Ok((owner, vault))
  {
    var (owner', vault') := VaultDeposit.ExecuteSpec(owner, vault, amount).value;
    assert owner'.lamports + vault'.lamports == owner.lamports + vault.lamports;
  }

  /**
   * Reactivating what its owner just deactivated is accepted once the
   * system program is supplied, and writes the very bytes a first
   * initialization by that owner writes.
   */
  lemma DeactivateThenReactivate(env: Env, programId: Pubkey, owner: AccountView, vault: AccountView,
                                 systemProgram: AccountView)
    requires LamportsFit(owner, vault)
    requires VaultDeactivate.Accepts(env, programId, [owner, vault])
    requires systemProgram.key == SystemProgramId()
    ensures var after := VaultDeactivate.Run(env, programId, [owner, vault]).value;
            var bump := env.deriveVault(programId, owner.key).1;
            VaultReactivate.Accepts(env, programId, [after[0], after[1], systemProgram])
            && (VaultReactivate.Run(env, programId, [after[0], after[1], systemProgram]).Ok? ==>
                VaultReactivate.Run(env, programId, [after[0], after[1], systemProgram]).value[1].data
                == Encode(VaultInitialize.FreshVault(owner.key, bump)))
  {
    var after := VaultDeactivate.Run(env, programId, [owner, vault]).value;
    VaultDeactivate.RunDeactivates(env, programId, [owner, vault]);
    assert after[0].key == owner.key;
  }

  /** A deactivated vault takes no deposit, withdrawal, second deactivation or fresh initialization. */
  lemma DeactivatedVaultIsInert(env: Env, programId: Pubkey, owner: AccountView, vault: AccountView,
                                systemProgram: AccountView, args: seq<u8>)
    requires vault.data == [VAD.ToByte(VAD.DeactivatedAccount)]
    requires LamportsFit(owner, vault)
    ensures VaultDeposit.Run(env, programId, [owner, vault, systemProgram], args).Err?
    ensures VaultWithdraw.Run(env, programId, [owner, vault], args).Err?
    ensures VaultDeactivate.Run(env, programId, [owner, vault]).Err?
    ensures VaultInitialize.Run(env, programId, [owner, vault, systemProgram]).Err?
  {
  }
}
