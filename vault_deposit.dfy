// `DepositV1`: validate [owner, vault, system program], read an eight-byte
// little-endian amount, re-check the stored owner, then transfer the amount
// from the owner into the vault.

module VaultDeposit {
  import opened Prims
  import opened Wrappers
  import opened Host
  import VAD = VaultAccountDiscriminator
  import opened VaultState

  datatype DepositV1Error =
    | ProgramError(pe: Host.ProgramError)
    | NotEnoughAccounts(expectedLen: nat, observedLen: nat)
    | OwnerMustBeSigner
    | OwnerMustBeWriteable
    | VaultMustBeWriteable
    | VaultAddressMismatch(expected: Pubkey, observed: Pubkey)
    | VaultMustBeOwnedByProgram
    | SystemProgramAddressMismatch
    | AccountDiscriminatorError(err: VAD.AccountDiscriminatorError)
    | InvalidInstructionData
    | OwnerMismatch(expected: Pubkey, observed: Pubkey)

  datatype DepositV1Accounts = DepositV1Accounts(owner: AccountView, vault: AccountView, systemProgram: AccountView)

  datatype DepositV1Args = DepositV1Args(amount: u64)

  /**
   * `DepositV1Args::parse`: at least eight bytes, the first eight read as a
   * little-endian `u64`; anything after them is ignored.
   */
  function ParseArgs(data: seq<u8>): (r: Result<DepositV1Args, DepositV1Error>)
    ensures r.Err? <==> |data| < 8
    ensures r.Err? ==> r.error == InvalidInstructionData
    ensures r.Ok? ==> U64ToLe(r.value.amount) == data[..8]
  {
    if |data| < 8 then Err(InvalidInstructionData)
    else
      U64LeRoundTripBytes(data[0..8]);
      Ok(DepositV1Args(U64FromLe(data[0..8])))
  }

  /** The amount a client encodes is the amount parsed, whatever follows it. */
  lemma ParseArgsEncoded(amount: u64, extra: seq<u8>)
    ensures ParseArgs(U64ToLe(amount) + extra) == Ok(DepositV1Args(amount))
  {
    var d := U64ToLe(amount) + extra;
    assert d[0..8] == U64ToLe(amount);
    U64LeRoundTrip(amount);
  }

  predicate Accepts(env: Env, programId: Pubkey, a: seq<AccountView>)
  {
    |a| == 3 && a[0].isSigner && a[0].isWritable && a[1].isWritable
    && a[1].key == env.deriveVault(programId, a[0].key).0
    && a[1].owner == programId
    && VAD.Check(VAD.VaultV1Account, a[1].data).Ok?
    && a[2].key == SystemProgramId()
  }

  /** `DepositV1Accounts::try_from`; the system program is checked after the tag guard. */
  function ValidateAccounts(env: Env, programId: Pubkey, a: seq<AccountView>)
    : (r: Result<DepositV1Accounts, DepositV1Error>)
    ensures r.Ok? <==> Accepts(env, programId, a)
    ensures r.Ok? ==> r.value == DepositV1Accounts(a[0], a[1], a[2])
    ensures |a| != 3 ==> r == Err(NotEnoughAccounts(3, |a|))
    ensures |a| == 3 && !a[0].isSigner ==> r == Err(OwnerMustBeSigner)
    ensures |a| == 3 && a[0].isSigner && !a[0].isWritable ==> r == Err(OwnerMustBeWriteable)
    ensures |a| == 3 && a[0].isSigner && a[0].isWritable && !a[1].isWritable ==> r == Err(VaultMustBeWriteable)
    ensures |a| == 3 && a[0].isSigner && a[0].isWritable && a[1].isWritable
            && a[1].key != env.deriveVault(programId, a[0].key).0
            ==> r == Err(VaultAddressMismatch(env.deriveVault(programId, a[0].key).0, a[1].key))
    ensures |a| == 3 && a[0].isSigner && a[0].isWritable && a[1].isWritable
            && a[1].key == env.deriveVault(programId, a[0].key).0
            ==> (a[1].owner != programId ==> r == Err(VaultMustBeOwnedByProgram))
                && (a[1].owner == programId && VAD.Check(VAD.VaultV1Account, a[1].data).Err?
                    ==> r == Err(AccountDiscriminatorError(VAD.Check(VAD.VaultV1Account, a[1].data).error)))
                && ((a[1].owner == programId && VAD.Check(VAD.VaultV1Account, a[1].data).Ok?
                     && a[2].key != SystemProgramId()) ==> r == Err(SystemProgramAddressMismatch))
  {
    if |a| != 3 then Err(NotEnoughAccounts(3, |a|))
    else
      var owner, vault, systemProgram := a[0], a[1], a[2];
      if !owner.isSigner then Err(OwnerMustBeSigner)
      else if !owner.isWritable then Err(OwnerMustBeWriteable)
      else if !vault.isWritable then Err(VaultMustBeWriteable)
      else
        var expected := env.deriveVault(programId, owner.key).0;
        if vault.key != expected then Err(VaultAddressMismatch(expected, vault.key))
        else if vault.owner != programId then Err(VaultMustBeOwnedByProgram)
        else match VAD.Check(VAD.VaultV1Account, vault.data)
          case Err(e) => Err(AccountDiscriminatorError(e))
          case Ok(_) =>
            if systemProgram.key != SystemProgramId() then Err(SystemProgramAddressMismatch)
            else Ok(DepositV1Accounts(owner, vault, systemProgram))
  }

  /** `DepositV1::try_from`: the accounts first, then the arguments. */
  function Parse(env: Env, programId: Pubkey, a: seq<AccountView>, args: seq<u8>)
    : (r: Result<(DepositV1Accounts, DepositV1Args), DepositV1Error>)
    ensures ValidateAccounts(env, programId, a).Err? ==> r == Err(ValidateAccounts(env, programId, a).error)
    ensures ValidateAccounts(env, programId, a).Ok? && |args| < 8 ==> r == Err(InvalidInstructionData)
    ensures r.Ok? <==> Accepts(env, programId, a) && |args| >= 8
    ensures r.Ok? ==> U64ToLe(r.value.1.amount) == args[..8]
  {
    match ValidateAccounts(env, programId, a)
    case Err(e) => Err(e)
    case Ok(v) =>
      match ParseArgs(args)
      case Err(e) => Err(e)
      case Ok(x) => Ok((v, x))
  }

  /** `DepositV1::execute` on the owner and the vault. */
  function ExecuteSpec(owner: AccountView, vault: AccountView, amount: u64)
    : (r: Result<(AccountView, AccountView), DepositV1Error>)
    ensures Decode(vault.data).Err? ==> r == Err(ProgramError(InvalidAccountData))
    ensures Decode(vault.data).Ok? && Decode(vault.data).value.owner != owner.key
            ==> r == Err(OwnerMismatch(Decode(vault.data).value.owner, owner.key))
    ensures Decode(vault.data).Ok? && Decode(vault.data).value.owner == owner.key
            ==> (match TransferSpec(owner, vault, amount)
                 case Ok(v) => r == Ok(v)
                 case Err(pe) => r == Err(ProgramError(pe)))
    ensures r.Ok? ==> r.value.1.lamports == vault.lamports + amount
                      && r.value.0.lamports == owner.lamports - amount
                      && r.value.1.data == vault.data
  {
    match Decode(vault.data)
    case Err(pe) => Err(ProgramError(pe))
    case Ok(state) =>
      if state.owner != owner.key then Err(OwnerMismatch(state.owner, owner.key))
      else match TransferSpec(owner, vault, amount)
        case Err(pe) => Err(ProgramError(pe))
        case Ok(v) => Ok(v)
  }

  function Run(env: Env, programId: Pubkey, accounts: seq<AccountView>, args: seq<u8>)
    : (r: Result<seq<AccountView>, DepositV1Error>)
    ensures r.Ok? ==> Accepts(env, programId, accounts) && |r.value| == 3
  {
    match Parse(env, programId, accounts, args)
    case Err(e) => Err(e)
    case Ok((v, x)) =>
      match ExecuteSpec(v.owner, v.vault, x.amount)
      case Err(e) => Err(e)
      case Ok((owner', vault')) => Ok([owner', vault', v.systemProgram])
  }

  /**
   * A deposit of `amount` by the vault's recorded owner moves exactly that
   * many lamports from the owner to the vault and leaves the record alone.
   */
  lemma RunDeposits(env: Env, programId: Pubkey, accounts: seq<AccountView>, amount: u64, extra: seq<u8>)
    requires Run(env, programId, accounts, U64ToLe(amount) + extra).Ok?
    ensures var after := Run(env, programId, accounts, U64ToLe(amount) + extra).value;
            Decode(accounts[1].data).value.owner == accounts[0].key
            && after[1].lamports == accounts[1].lamports + amount
            && after[0].lamports == accounts[0].lamports - amount
            && after[1].data == accounts[1].data && after[2] == accounts[2]
  {
    ParseArgsEncoded(amount, extra);
  }

  /** An accepted deposit by the recorded owner fails only when the owner cannot pay or the vault would overflow. */
  lemma DepositFailsOnlyForFunds(owner: AccountView, vault: AccountView, amount: u64)
    requires Decode(vault.data).Ok? && Decode(vault.data).value.owner == owner.key
    ensures ExecuteSpec(owner, vault, amount).Err? <==> amount > owner.lamports || vault.lamports + amount > U64_MAX
  {
  }

  /** `DepositV1::execute`: the stored-owner check, then the system transfer. */
  method Execute(owner: Account, vault: Account, amount: u64) returns (r: Result<(), DepositV1Error>)
    requires owner != vault
    modifies owner, vault
    ensures Applied2(r, ExecuteSpec(old(owner.View()), old(vault.View()), amount),
                     owner, vault, old(owner.View()), old(vault.View()))
  {
    var state := FromBytes(vault.data);
    if state.Err? {
      return Err(ProgramError(state.error));
    }
    if state.value.owner != owner.key {
      return Err(OwnerMismatch(state.value.owner, owner.key));
    }
    var transferred := Transfer(owner, vault, amount);
    if transferred.Err? {
      return Err(ProgramError(transferred.error));
    }
    return Ok(());
  }
}
