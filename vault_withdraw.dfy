// `WithdrawV1`: validate [owner, vault], read an eight-byte little-endian
// amount, re-check the stored owner, then move the amount from the vault to
// the owner without taking the vault below its rent minimum.

module VaultWithdraw {
  import opened Prims
  import opened Wrappers
  import opened Host
  import VAD = VaultAccountDiscriminator
  import opened VaultState

  datatype WithdrawV1Error =
    | ProgramError(pe: Host.ProgramError)
    | NotEnoughAccounts(expectedLen: nat, observedLen: nat)
    | OwnerMustBeSigner
    | OwnerMustBeWriteable
    | VaultMustBeWriteable
    | VaultAddressMismatch(expected: Pubkey, observed: Pubkey)
    | VaultMustBeOwnedByProgram
    | AccountDiscriminatorError(err: VAD.AccountDiscriminatorError)
    | InvalidInstructionData
    | OwnerMismatch(expected: Pubkey, observed: Pubkey)
    | InsufficientFunds(available: u64, requested: u64)
    | WouldViolateRentMinimum(available: u64, requested: u64, rentMinimum: u64)

  datatype WithdrawV1Accounts = WithdrawV1Accounts(owner: AccountView, vault: AccountView, vaultBump: u8)

  datatype WithdrawV1Args = WithdrawV1Args(amount: u64)

  /**
   * `WithdrawV1Args::parse`: at least eight bytes, the first eight read as a
   * little-endian `u64`; anything after them is ignored.
   */
  function ParseArgs(data: seq<u8>): (r: Result<WithdrawV1Args, WithdrawV1Error>)
    ensures r.Err? <==> |data| < 8
    ensures r.Err? ==> r.error == InvalidInstructionData
    ensures r.Ok? ==> U64ToLe(r.value.amount) == data[..8]
  {
    if |data| < 8 then Err(InvalidInstructionData)
    else
      U64LeRoundTripBytes(data[0..8]);
      Ok(WithdrawV1Args(U64FromLe(data[0..8])))
  }

  /** The amount a client encodes is the amount parsed, whatever follows it. */
  lemma ParseArgsEncoded(amount: u64, extra: seq<u8>)
    ensures ParseArgs(U64ToLe(amount) + extra) == Ok(WithdrawV1Args(amount))
  {
    var d := U64ToLe(amount) + extra;
    assert d[0..8] == U64ToLe(amount);
    U64LeRoundTrip(amount);
  }

  predicate Accepts(env: Env, programId: Pubkey, a: seq<AccountView>)
  {
    |a| == 2 && a[0].isSigner && a[0].isWritable && a[1].isWritable
    && a[1].key == env.deriveVault(programId, a[0].key).0
    && a[1].owner == programId
    && VAD.Check(VAD.VaultV1Account, a[1].data).Ok?
  }

  /** `WithdrawV1Accounts::try_from`. */
  function ValidateAccounts(env: Env, programId: Pubkey, a: seq<AccountView>)
    : (r: Result<WithdrawV1Accounts, WithdrawV1Error>)
    ensures r.Ok? <==> Accepts(env, programId, a)
    ensures r.Ok? ==> r.value == WithdrawV1Accounts(a[0], a[1], env.deriveVault(programId, a[0].key).1)
    ensures |a| != 2 ==> r == Err(NotEnoughAccounts(2, |a|))
    ensures |a| == 2 && !a[0].isSigner ==> r == Err(OwnerMustBeSigner)
    ensures |a| == 2 && a[0].isSigner && !a[0].isWritable ==> r == Err(OwnerMustBeWriteable)
    ensures |a| == 2 && a[0].isSigner && a[0].isWritable && !a[1].isWritable ==> r == Err(VaultMustBeWriteable)
    ensures |a| == 2 && a[0].isSigner && a[0].isWritable && a[1].isWritable
            && a[1].key != env.deriveVault(programId, a[0].key).0
            ==> r == Err(VaultAddressMismatch(env.deriveVault(programId, a[0].key).0, a[1].key))
    ensures |a| == 2 && a[0].isSigner && a[0].isWritable && a[1].isWritable
            && a[1].key == env.deriveVault(programId, a[0].key).0
            ==> (a[1].owner != programId ==> r == Err(VaultMustBeOwnedByProgram))
                && (a[1].owner == programId && VAD.Check(VAD.VaultV1Account, a[1].data).Err?
                    ==> r == Err(AccountDiscriminatorError(VAD.Check(VAD.VaultV1Account, a[1].data).error)))
  {
    if |a| != 2 then Err(NotEnoughAccounts(2, |a|))
    else
      var owner, vault := a[0], a[1];
      if !owner.isSigner then Err(OwnerMustBeSigner)
      else if !owner.isWritable then Err(OwnerMustBeWriteable)
      else if !vault.isWritable then Err(VaultMustBeWriteable)
      else
        var (expected, bump) := env.deriveVault(programId, owner.key);
        if vault.key != expected then Err(VaultAddressMismatch(expected, vault.key))
        else if vault.owner != programId then Err(VaultMustBeOwnedByProgram)
        else match VAD.Check(VAD.VaultV1Account, vault.data)
          case Err(e) => Err(AccountDiscriminatorError(e))
          case Ok(_) => Ok(WithdrawV1Accounts(owner, vault, bump))
  }

  /** `WithdrawV1::try_from`: the accounts first, then the arguments. */
  function Parse(env: Env, programId: Pubkey, a: seq<AccountView>, args: seq<u8>)
    : (r: Result<(WithdrawV1Accounts, WithdrawV1Args), WithdrawV1Error>)
    ensures ValidateAccounts(env, programId, a).Err? ==> r == Err(ValidateAccounts(env, programId, a).error)
    ensures ValidateAccounts(env, programId, a).Ok? && |args| < 8 ==> r == Err(InvalidInstructionData)
    ensures r.Ok? <==> Accepts(env, programId, a) && |args| >= 8
    ensures r.Ok? ==> U64ToLe(r.value.1.amount) == args[..8]
  {
    match ValidateAccounts(env, programId, a)
    case Err(e) => Err(e)
    case Ok(v) =>
      match ParseArgs(args)
      case Err(e) => Err(e)
      case Ok(x) => Ok((v, x))
  }

  /** What the vault can give up while keeping the rent minimum of a 34-byte account. */
  function Available(env: Env, vault: AccountView): (n: u64)
    ensures vault.lamports >= env.rentMin(VAD.VAULT_V1_SIZE) ==> n == vault.lamports - env.rentMin(VAD.VAULT_V1_SIZE)
    ensures vault.lamports < env.rentMin(VAD.VAULT_V1_SIZE) ==> n == 0
  {
    SaturatingSub(vault.lamports, env.rentMin(VAD.VAULT_V1_SIZE))
  }

  /**
   * `WithdrawV1::execute` on the owner and the vault. The owner's credit
   * cannot overflow because the two balances together fit the lamport type.
   */
  function ExecuteSpec(env: Env, owner: AccountView, vault: AccountView, amount: u64)
    : (r: Result<(AccountView, AccountView), WithdrawV1Error>)
    requires LamportsFit(owner, vault)
    ensures Decode(vault.data).Err? ==> r == Err(ProgramError(InvalidAccountData))
    ensures Decode(vault.data).Ok? && Decode(vault.data).value.owner != owner.key
            ==> r == Err(OwnerMismatch(Decode(vault.data).value.owner, owner.key))
    ensures (Decode(vault.data).Ok? && Decode(vault.data).value.owner == owner.key
             && Available(env, vault) < amount) ==> r == Err(WithdrawV1Error.InsufficientFunds(Available(env, vault), amount))
    ensures r.Ok? <==> Decode(vault.data).Ok? && Decode(vault.data).value.owner == owner.key
                       && amount + env.rentMin(VAD.VAULT_V1_SIZE) <= vault.lamports
    ensures r.Ok? ==> r.value.1 == vault.(lamports := vault.lamports - amount)
                      && r.value.0 == owner.(lamports := owner.lamports + amount)
  {
    match Decode(vault.data)
    case Err(pe) => Err(ProgramError(pe))
    case Ok(state) =>
      if state.owner != owner.key then Err(OwnerMismatch(state.owner, owner.key))
      else
        var rentExemptMinimum := env.rentMin(VAD.VAULT_V1_SIZE);
        var available := SaturatingSub(vault.lamports, rentExemptMinimum);
        if available < amount then Err(WithdrawV1Error.InsufficientFunds(available, amount))
        else
          var remaining := SaturatingSub(vault.lamports, amount);
          if remaining < rentExemptMinimum then Err(WouldViolateRentMinimum(available, amount, rentExemptMinimum))
          else Ok((owner.(lamports := owner.lamports + amount), vault.(lamports := vault.lamports - amount)))
  }

  /**
   * Once the funds check passes, the rent check fails only for a vault that
   * was already below its rent minimum, and then only an amount of 0 got
   * that far.
   */
  lemma RentViolationOnlyBelowMinimum(env: Env, owner: AccountView, vault: AccountView, amount: u64)
    requires LamportsFit(owner, vault)
    requires ExecuteSpec(env, owner, vault, amount).Err?
    requires ExecuteSpec(env, owner, vault, amount).error.WouldViolateRentMinimum?
    ensures vault.lamports < env.rentMin(VAD.VAULT_V1_SIZE) && amount == 0
  {
  }

  function Run(env: Env, programId: Pubkey, accounts: seq<AccountView>, args: seq<u8>)
    : (r: Result<seq<AccountView>, WithdrawV1Error>)
    requires |accounts| == 2 ==> LamportsFit(accounts[0], accounts[1])
    ensures r.Ok? ==> Accepts(env, programId, accounts) && |r.value| == 2
  {
    match Parse(env, programId, accounts, args)
    case Err(e) => Err(e)
    case Ok((v, x)) =>
      match ExecuteSpec(env, v.owner, v.vault, x.amount)
      case Err(e) => Err(e)
      case Ok((owner', vault')) => Ok([owner', vault'])
  }

  /**
   * A withdrawal moves exactly the encoded amount from the vault to its
   * recorded owner, conserves lamports and leaves the vault rent-exempt.
   */
  lemma RunWithdraws(env: Env, programId: Pubkey, accounts: seq<AccountView>, amount: u64, extra: seq<u8>)
    requires |accounts| == 2 && LamportsFit(accounts[0], accounts[1])
    requires Run(env, programId, accounts, U64ToLe(amount) + extra).Ok?
    ensures var after := Run(env, programId, accounts, U64ToLe(amount) + extra).value;
            Decode(accounts[1].data).value.owner == accounts[0].key
            && after[1].lamports == accounts[1].lamports - amount
            && after[0].lamports == accounts[0].lamports + amount
            && after[1].lamports >= env.rentMin(VAD.VAULT_V1_SIZE)
            && after[1].data == accounts[1].data
  {
    ParseArgsEncoded(amount, extra);
  }

  /** `WithdrawV1::execute`: owner check, the two guards, then direct lamport arithmetic. */
  method Execute(env: Env, owner: Account, vault: Account, amount: u64) returns (r: Result<(), WithdrawV1Error>)
    requires owner != vault
    requires LamportsFit(owner.View(), vault.View())
    modifies owner, vault
    ensures Applied2(r, ExecuteSpec(env, old(owner.View()), old(vault.View()), amount),
                     owner, vault, old(owner.View()), old(vault.View()))
  {
    var state := FromBytes(vault.data);
    if state.Err? {
      return Err(ProgramError(state.error));
    }
    if state.value.owner != owner.key {
      return Err(OwnerMismatch(state.value.owner, owner.key));
    }
    var rentExemptMinimum := env.rentMin(VAD.VAULT_V1_SIZE);
    var vaultLamports := vault.lamports;
    var available := SaturatingSub(vaultLamports, rentExemptMinimum);
    if available < amount {
      return Err(WithdrawV1Error.InsufficientFunds(available, amount));
    }
    var remainingAfterWithdraw := SaturatingSub(vaultLamports, amount);
    if remainingAfterWithdraw < rentExemptMinimum {
      return Err(WouldViolateRentMinimum(available, amount, rentExemptMinimum));
    }
    vault.lamports := vault.lamports - amount;
    owner.lamports := owner.lamports + amount;
    return Ok(());
  }
}
