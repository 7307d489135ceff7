// `process_instruction` of the vault program: split off the tag byte, route
// to the instruction's `try_from` and `execute`, and turn any failure into
// the `ProgramError` the runtime sees. The result is the new account list.

module VaultEntrypoint {
  import opened Prims
  import opened Wrappers
  import opened Host
  import VAD = VaultAccountDiscriminator
  import VID = VaultInstructionDiscriminator
  import opened VaultErrors
  import VaultInitialize
  import VaultDeposit
  import VaultWithdraw
  import VaultDeactivate
  import VaultReactivate

  /**
   * `.map_err(handle_instruction_error)`, generic over the instruction's error type
   * as in the source: a success passes through unchanged, and a failure is
   * lifted into `InstructionError` (`lift`, one of the `From` conversions,
   * which never wrap a host error) and then into `ProgramError`.
   */
  function HandleInstructionError<E>(res: Result<seq<AccountView>, E>, lift: E -> InstructionError)
    : (r: Result<seq<AccountView>, Host.ProgramError>)
    requires res.Err? ==> WellFormed(lift(res.error))
    ensures r.Ok? <==> res.Ok?
    ensures r.Ok? ==> r.value == res.value
    ensures r.Err? ==> r.error == ToProgramError(lift(res.error))
  {
    match res
    case Ok(v) => Ok(v)
    case Err(e) => Err(ToProgramError(lift(e)))
  }

  /**
   * `process_instruction`. A malformed tag fails with the discriminator
   * codes and touches no account; a failing instruction leaves every
   * account as it was (the runtime discards its writes).
   */
  function Process(env: Env, programId: Pubkey, accounts: seq<AccountView>, data: seq<u8>)
    : (r: Result<seq<AccountView>, Host.ProgramError>)
    requires |accounts| == 2 ==> LamportsFit(accounts[0], accounts[1])
    ensures |data| == 0 ==> r == Err(Custom(0x01))
    ensures |data| > 0 && !(1 <= data[0] <= 5) ==> r == Err(Custom(0x02))
    ensures r.Ok? ==> |data| > 0 && |r.value| == |accounts|
  {
    match VID.Parse(data)
    case Err(e) => Err(DiscriminatorErrorToProgramError(e))
    case Ok((d, args)) =>
      match d
      case InitializeVaultV1 => HandleInstructionError(VaultInitialize.Run(env, programId, accounts), LiftInitialize)
      case DepositV1 => HandleInstructionError(VaultDeposit.Run(env, programId, accounts, args), LiftDeposit)
      case WithdrawV1 => HandleInstructionError(VaultWithdraw.Run(env, programId, accounts, args), LiftWithdraw)
      case DeactivateVaultV1 => HandleInstructionError(VaultDeactivate.Run(env, programId, accounts), LiftDeactivate)
      case ReactivateVaultV1 => HandleInstructionError(VaultReactivate.Run(env, programId, accounts), LiftReactivate)
  }

  /** The account conditions of the instruction a tag selects. */
  predicate AcceptedFor(env: Env, programId: Pubkey, d: VID.InstructionDiscriminator, accounts: seq<AccountView>)
  {
    match d
    case InitializeVaultV1 => VaultInitialize.Accepts(env, programId, accounts)
    case DepositV1 => VaultDeposit.Accepts(env, programId, accounts)
    case WithdrawV1 => VaultWithdraw.Accepts(env, programId, accounts)
    case DeactivateVaultV1 => VaultDeactivate.Accepts(env, programId, accounts)
    case ReactivateVaultV1 => VaultReactivate.Accepts(env, programId, accounts)
  }

  /** Nothing executes unless the selected instruction's account checks all pass. */
  lemma ExecutesOnlyAfterValidation(env: Env, programId: Pubkey, accounts: seq<AccountView>, data: seq<u8>)
    requires |accounts| == 2 ==> LamportsFit(accounts[0], accounts[1])
    requires Process(env, programId, accounts, data).Ok?
    ensures 1 <= data[0] <= 5
    ensures AcceptedFor(env, programId, VID.FromByte(data[0]).value, accounts)
  {
  }

  /**
   * A custom code above the discriminator block names the instruction that
   * failed: its block number is the instruction's tag byte.
   */
  lemma ErrorBlockIsTag(env: Env, programId: Pubkey, accounts: seq<AccountView>, data: seq<u8>)
    requires |accounts| == 2 ==> LamportsFit(accounts[0], accounts[1])
    requires |data| > 0 && 1 <= data[0] <= 5
    requires Process(env, programId, accounts, data).Err?
    requires Process(env, programId, accounts, data).error.Custom?
    ensures Block(Process(env, programId, accounts, data).error.code) == data[0] as nat
  {
    var d := VID.FromByte(data[0]).value;
    var args := data[1..];
    match d
    case InitializeVaultV1 =>
      var e := VaultInitialize.Run(env, programId, accounts).error;
      if !e.ProgramError? { CodeNamesInstruction(LiftInitialize(e)); }
    case DepositV1 =>
      var e := VaultDeposit.Run(env, programId, accounts, args).error;
      if !e.ProgramError? { CodeNamesInstruction(LiftDeposit(e)); }
    case WithdrawV1 =>
      var e := VaultWithdraw.Run(env, programId, accounts, args).error;
      if !e.ProgramError? { CodeNamesInstruction(LiftWithdraw(e)); }
    case DeactivateVaultV1 =>
      var e := VaultDeactivate.Run(env, programId, accounts).error;
      CodeNamesInstruction(LiftDeactivate(e));
    case ReactivateVaultV1 =>
      var e := VaultReactivate.Run(env, programId, accounts).error;
      if !e.ProgramError? { CodeNamesInstruction(LiftReactivate(e)); }
  }

  /** A deposit by tag: the vault gains exactly the encoded amount. */
  lemma ProcessDeposit(env: Env, programId: Pubkey, accounts: seq<AccountView>, amount: u64)
    requires |accounts| == 2 ==> LamportsFit(accounts[0], accounts[1])
    requires Process(env, programId, accounts, [VID.ToByte(VID.DepositV1)] + U64ToLe(amount)).Ok?
    ensures var after := Process(env, programId, accounts, [VID.ToByte(VID.DepositV1)] + U64ToLe(amount)).value;
            after[1].lamports == accounts[1].lamports + amount
            && after[0].lamports == accounts[0].lamports - amount
  {
    var data := [VID.ToByte(VID.DepositV1)] + U64ToLe(amount);
    VID.ParseTagged(VID.DepositV1, U64ToLe(amount));
    assert U64ToLe(amount) + [] == U64ToLe(amount);
    VaultDeposit.RunDeposits(env, programId, accounts, amount, []);
  }

  /** A withdrawal by tag: the owner gains exactly the encoded amount and the vault stays rent-exempt. */
  lemma ProcessWithdraw(env: Env, programId: Pubkey, accounts: seq<AccountView>, amount: u64)
    requires |accounts| == 2 ==> LamportsFit(accounts[0], accounts[1])
    requires Process(env, programId, accounts, [VID.ToByte(VID.WithdrawV1)] + U64ToLe(amount)).Ok?
    ensures var after := Process(env, programId, accounts, [VID.ToByte(VID.WithdrawV1)] + U64ToLe(amount)).value;
            after[0].lamports == accounts[0].lamports + amount
            && after[1].lamports == accounts[1].lamports - amount
            && after[1].lamports >= env.rentMin(VAD.VAULT_V1_SIZE)
  {
    VID.ParseTagged(VID.WithdrawV1, U64ToLe(amount));
    assert U64ToLe(amount) + [] == U64ToLe(amount);
    VaultWithdraw.RunWithdraws(env, programId, accounts, amount, []);
  }
}
