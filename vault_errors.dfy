// The vault program's error layer: each instruction's error enum is lifted
// into `InstructionError` (host errors pass through untouched), and
// `InstructionError` becomes `ProgramError::Custom(offset + local code)`,
// one block of 256 codes per instruction.

module VaultErrors {
  import opened Prims
  import opened Wrappers
  import opened Host
  import VAD = VaultAccountDiscriminator
  import VID = VaultInstructionDiscriminator
  import VaultInitialize
  import VaultDeposit
  import VaultWithdraw
  import VaultDeactivate
  import VaultReactivate

  const INSTRUCTION_DISCRIMINATOR_ERROR_OFFSET: u32 := 0x000
  const INITIALIZE_VAULT_V1_OFFSET: u32 := 0x100
  const DEPOSIT_V1_OFFSET: u32 := 0x200
  const WITHDRAW_V1_OFFSET: u32 := 0x300
  const DEACTIVATE_VAULT_V1_OFFSET: u32 := 0x400
  const REACTIVATE_VAULT_V1_OFFSET: u32 := 0x500

  datatype InstructionError =
    | ProgramError(pe: Host.ProgramError)
    | InitializeVaultV1(initializeError: VaultInitialize.InitializeVaultV1Error)
    | DepositV1(depositError: VaultDeposit.DepositV1Error)
    | WithdrawV1(withdrawError: VaultWithdraw.WithdrawV1Error)
    | DeactivateVaultV1(deactivateError: VaultDeactivate.DeactivateVaultV1Error)
    | ReactivateVaultV1(reactivateError: VaultReactivate.ReactivateVaultV1Error)

  /**
   * No instruction variant wraps a host error: the lifts move those to the
   * outer `ProgramError` case, and the code map treats the inner one as
   * unreachable.
   */
  predicate WellFormed(e: InstructionError)
  {
    match e
    case ProgramError(_) => true
    case InitializeVaultV1(x) => !x.ProgramError?
    case DepositV1(x) => !x.ProgramError?
    case WithdrawV1(x) => !x.ProgramError?
    case DeactivateVaultV1(x) => !x.ProgramError?
    case ReactivateVaultV1(x) => !x.ProgramError?
  }

  // ---- Lifts (`From<…Error> for InstructionError`) ----

  function LiftInitialize(e: VaultInitialize.InitializeVaultV1Error): (r: InstructionError)
    ensures WellFormed(r)
    ensures e.ProgramError? ==> r == ProgramError(e.pe)
    ensures !e.ProgramError? ==> r == InitializeVaultV1(e)
  {
    if e.ProgramError? then ProgramError(e.pe) else InitializeVaultV1(e)
  }

  function LiftDeposit(e: VaultDeposit.DepositV1Error): (r: InstructionError)
    ensures WellFormed(r)
    ensures e.ProgramError? ==> r == ProgramError(e.pe)
    ensures !e.ProgramError? ==> r == DepositV1(e)
  {
    if e.ProgramError? then ProgramError(e.pe) else DepositV1(e)
  }

  function LiftWithdraw(e: VaultWithdraw.WithdrawV1Error): (r: InstructionError)
    ensures WellFormed(r)
    ensures e.ProgramError? ==> r == ProgramError(e.pe)
    ensures !e.ProgramError? ==> r == WithdrawV1(e)
  {
    if e.ProgramError? then ProgramError(e.pe) else WithdrawV1(e)
  }

  function LiftDeactivate(e: VaultDeactivate.DeactivateVaultV1Error): (r: InstructionError)
    ensures WellFormed(r)
    ensures e.ProgramError? ==> r == ProgramError(e.pe)
    ensures !e.ProgramError? ==> r == DeactivateVaultV1(e)
  {
    if e.ProgramError? then ProgramError(e.pe) else DeactivateVaultV1(e)
  }

  function LiftReactivate(e: VaultReactivate.ReactivateVaultV1Error): (r: InstructionError)
    ensures WellFormed(r)
    ensures e.ProgramError? ==> r == ProgramError(e.pe)
    ensures !e.ProgramError? ==> r == ReactivateVaultV1(e)
  {
    if e.ProgramError? then ProgramError(e.pe) else ReactivateVaultV1(e)
  }

  // ---- Local codes, one table per instruction ----

  function InitializeLocalCode(e: VaultInitialize.InitializeVaultV1Error): (c: u32)
    requires !e.ProgramError?
    ensures 0x01 <= c <= 0x0a
  {
    match e
    case NotEnoughAccounts(_, _) => 0x01
    case PayerMustBeSigner => 0x02
    case PayerMustBeWriteable => 0x03
    case VaultMustBeWriteable => 0x04
    case VaultAddressMismatch(_, _) => 0x05
    case VaultMustBeEmpty => 0x06
    case VaultMustHaveZeroLamports => 0x07
    case VaultMustBeOwnedBySystemProgram => 0x08
    case SystemProgramAddressMismatch => 0x09
    case SerializedSizeMismatch(_, _) => 0x0a
  }

  /**
   * The deposit table as written: it has no arm for
   * `SystemProgramAddressMismatch`, which `None` stands for here.
   */
  function DepositLocalCodeAsWritten(e: VaultDeposit.DepositV1Error): (c: Option<u32>)
    requires !e.ProgramError?
    ensures c.None? <==> e.SystemProgramAddressMismatch?
    ensures c.Some? ==> 0x01 <= c.value <= 0x09
  {
    match e
    case NotEnoughAccounts(_, _) => Some(0x01)
    case OwnerMustBeSigner => Some(0x02)
    case OwnerMustBeWriteable => Some(0x03)
    case VaultMustBeWriteable => Some(0x04)
    case VaultAddressMismatch(_, _) => Some(0x05)
    case VaultMustBeOwnedByProgram => Some(0x06)
    case AccountDiscriminatorError(_) => Some(0x07)
    case InvalidInstructionData => Some(0x08)
    case OwnerMismatch(_, _) => Some(0x09)
    case SystemProgramAddressMismatch => None
  }

  /**
   * The deposit table completed: every written arm is kept and the missing
   * variant takes the next free code, 0x0a.
   */
  function DepositLocalCode(e: VaultDeposit.DepositV1Error): (c: u32)
    requires !e.ProgramError?
    ensures 0x01 <= c <= 0x0a
    ensures DepositLocalCodeAsWritten(e).Some? ==> c == DepositLocalCodeAsWritten(e).value
    ensures e.SystemProgramAddressMismatch? ==> c == 0x0a
  {
    match DepositLocalCodeAsWritten(e)
    case Some(c) => c
    case None => 0x0a
  }

  /**
   * The gap is reachable: validation of a deposit whose third account is
   * not the system program returns the one error the written table has no
   * code for.
   */
  lemma DepositCodeGapReachable(env: Env, programId: Pubkey, owner: AccountView, vault: AccountView,
                                systemProgram: AccountView)
    requires owner.isSigner && owner.isWritable && vault.isWritable
    requires vault.key == env.deriveVault(programId, owner.key).0 && vault.owner == programId
    requires VAD.Check(VAD.VaultV1Account, vault.data).Ok?
    requires systemProgram.key != SystemProgramId()
    ensures VaultDeposit.ValidateAccounts(env, programId, [owner, vault, systemProgram])
            == Err(VaultDeposit.SystemProgramAddressMismatch)
    ensures DepositLocalCodeAsWritten(VaultDeposit.SystemProgramAddressMismatch).None?
  {
  }

  function WithdrawLocalCode(e: VaultWithdraw.WithdrawV1Error): (c: u32)
    requires !e.ProgramError?
    ensures 0x01 <= c <= 0x0b
  {
    match e
    case NotEnoughAccounts(_, _) => 0x01
    case OwnerMustBeSigner => 0x02
    case OwnerMustBeWriteable => 0x03
    case VaultMustBeWriteable => 0x04
    case VaultAddressMismatch(_, _) => 0x05
    case VaultMustBeOwnedByProgram => 0x06
    case AccountDiscriminatorError(_) => 0x07
    case InvalidInstructionData => 0x08
    case OwnerMismatch(_, _) => 0x09
    case InsufficientFunds(_, _) => 0x0a
    case WouldViolateRentMinimum(_, _, _) => 0x0b
  }

  function DeactivateLocalCode(e: VaultDeactivate.DeactivateVaultV1Error): (c: u32)
    requires !e.ProgramError?
    ensures 0x01 <= c <= 0x06
  {
    match e
    case NotEnoughAccounts(_, _) => 0x01
    case OwnerMustBeSigner => 0x02
    case OwnerMustBeWriteable => 0x03
    case VaultMustBeWriteable => 0x04
    case VaultAddressMismatch(_, _) => 0x05
    case AccountDiscriminatorError(_) => 0x06
  }

  function ReactivateLocalCode(e: VaultReactivate.ReactivateVaultV1Error): (c: u32)
    requires !e.ProgramError?
    ensures 0x01 <= c <= 0x08
  {
    match e
    case NotEnoughAccounts(_, _) => 0x01
    case PayerMustBeSigner => 0x02
    case PayerMustBeWriteable => 0x03
    case VaultMustBeWriteable => 0x04
    case VaultAddressMismatch(_, _) => 0x05
    case SystemProgramAddressMismatch => 0x06
    case AccountDiscriminatorError(_) => 0x07
    case SerializedSizeMismatch(_, _) => 0x08
  }

  /**
   * `From<InstructionError> for ProgramError`, with the completed deposit
   * table: host errors pass through, every other error becomes a custom
   * code inside its instruction's block.
   */
  function ToProgramError(e: InstructionError): (pe: Host.ProgramError)
    requires WellFormed(e)
    ensures e.ProgramError? ==> pe == e.pe
    ensures e.InitializeVaultV1? ==> pe == Custom(INITIALIZE_VAULT_V1_OFFSET + InitializeLocalCode(e.initializeError))
    ensures e.DepositV1? ==> pe == Custom(DEPOSIT_V1_OFFSET + DepositLocalCode(e.depositError))
    ensures e.WithdrawV1? ==> pe == Custom(WITHDRAW_V1_OFFSET + WithdrawLocalCode(e.withdrawError))
    ensures e.DeactivateVaultV1? ==> pe == Custom(DEACTIVATE_VAULT_V1_OFFSET + DeactivateLocalCode(e.deactivateError))
    ensures e.ReactivateVaultV1? ==> pe == Custom(REACTIVATE_VAULT_V1_OFFSET + ReactivateLocalCode(e.reactivateError))
  {
    match e
    case ProgramError(pe) => pe
    case InitializeVaultV1(x) => Custom(INITIALIZE_VAULT_V1_OFFSET + InitializeLocalCode(x))
    case DepositV1(x) => Custom(DEPOSIT_V1_OFFSET + DepositLocalCode(x))
    case WithdrawV1(x) => Custom(WITHDRAW_V1_OFFSET + WithdrawLocalCode(x))
    case DeactivateVaultV1(x) => Custom(DEACTIVATE_VAULT_V1_OFFSET + DeactivateLocalCode(x))
    case ReactivateVaultV1(x) => Custom(REACTIVATE_VAULT_V1_OFFSET + ReactivateLocalCode(x))
  }

  /** `From<InstructionDiscriminatorError> for ProgramError`. */
  function DiscriminatorErrorToProgramError(e: VID.InstructionDiscriminatorError): (pe: Host.ProgramError)
    ensures e.Missing? ==> pe == Custom(0x01)
    ensures e.Invalid? ==> pe == Custom(0x02)
  {
    Custom(INSTRUCTION_DISCRIMINATOR_ERROR_OFFSET + (match e case Missing => 0x01 case Invalid(_) => 0x02))
  }

  /** The instruction whose block a custom code lies in, if any: its offset divided by 256. */
  function Block(code: u32): (b: nat)
    ensures b == code / 0x100
  {
    code / 0x100
  }

  /**
   * Every instruction error lands in its own instruction's block: the
   * block number tells the instruction, and no instruction code collides
   * with the discriminator codes 1 and 2 (block 0).
   */
  lemma CodeNamesInstruction(e: InstructionError)
    requires WellFormed(e) && !e.ProgramError?
    ensures ToProgramError(e).Custom?
    ensures var code := ToProgramError(e).code;
            code % 0x100 != 0
            && (e.InitializeVaultV1? <==> Block(code) == 1)
            && (e.DepositV1? <==> Block(code) == 2)
            && (e.WithdrawV1? <==> Block(code) == 3)
            && (e.DeactivateVaultV1? <==> Block(code) == 4)
            && (e.ReactivateVaultV1? <==> Block(code) == 5)
    ensures forall d: VID.InstructionDiscriminatorError :: ToProgramError(e) != DiscriminatorErrorToProgramError(d)
  {
  }

  // ---- Variants with their payloads cleared ----

  function EraseInitialize(e: VaultInitialize.InitializeVaultV1Error): VaultInitialize.InitializeVaultV1Error
  {
    match e
    case NotEnoughAccounts(_, _) => VaultInitialize.NotEnoughAccounts(0, 0)
    case VaultAddressMismatch(_, _) => VaultInitialize.VaultAddressMismatch(DefaultPubkey(), DefaultPubkey())
    case SerializedSizeMismatch(_, _) => VaultInitialize.SerializedSizeMismatch(0, 0)
    case _ => e
  }

  function EraseDeposit(e: VaultDeposit.DepositV1Error): VaultDeposit.DepositV1Error
  {
    match e
    case NotEnoughAccounts(_, _) => VaultDeposit.NotEnoughAccounts(0, 0)
    case VaultAddressMismatch(_, _) => VaultDeposit.VaultAddressMismatch(DefaultPubkey(), DefaultPubkey())
    case AccountDiscriminatorError(_) => VaultDeposit.AccountDiscriminatorError(VAD.Missing)
    case OwnerMismatch(_, _) => VaultDeposit.OwnerMismatch(DefaultPubkey(), DefaultPubkey())
    case _ => e
  }

  function EraseWithdraw(e: VaultWithdraw.WithdrawV1Error): VaultWithdraw.WithdrawV1Error
  {
    match e
    case NotEnoughAccounts(_, _) => VaultWithdraw.NotEnoughAccounts(0, 0)
    case VaultAddressMismatch(_, _) => VaultWithdraw.VaultAddressMismatch(DefaultPubkey(), DefaultPubkey())
    case AccountDiscriminatorError(_) => VaultWithdraw.AccountDiscriminatorError(VAD.Missing)
    case OwnerMismatch(_, _) => VaultWithdraw.OwnerMismatch(DefaultPubkey(), DefaultPubkey())
    case InsufficientFunds(_, _) => VaultWithdraw.InsufficientFunds(0, 0)
    case WouldViolateRentMinimum(_, _, _) => VaultWithdraw.WouldViolateRentMinimum(0, 0, 0)
    case _ => e
  }

  function EraseDeactivate(e: VaultDeactivate.DeactivateVaultV1Error): VaultDeactivate.DeactivateVaultV1Error
  {
    match e
    case NotEnoughAccounts(_, _) => VaultDeactivate.NotEnoughAccounts(0, 0)
    case VaultAddressMismatch(_, _) => VaultDeactivate.VaultAddressMismatch(DefaultPubkey(), DefaultPubkey())
    case AccountDiscriminatorError(_) => VaultDeactivate.AccountDiscriminatorError(VAD.Missing)
    case _ => e
  }

  function EraseReactivate(e: VaultReactivate.ReactivateVaultV1Error): VaultReactivate.ReactivateVaultV1Error
  {
    match e
    case NotEnoughAccounts(_, _) => VaultReactivate.NotEnoughAccounts(0, 0)
    case VaultAddressMismatch(_, _) => VaultReactivate.VaultAddressMismatch(DefaultPubkey(), DefaultPubkey())
    case AccountDiscriminatorError(_) => VaultReactivate.AccountDiscriminatorError(VAD.Missing)
    case SerializedSizeMismatch(_, _) => VaultReactivate.SerializedSizeMismatch(0, 0)
    case _ => e
  }

  /** Within each table, two errors share a code exactly when they are the same variant. */
  lemma InitializeCodesDistinct(a: VaultInitialize.InitializeVaultV1Error, b: VaultInitialize.InitializeVaultV1Error)
    requires !a.ProgramError? && !b.ProgramError?
    ensures InitializeLocalCode(a) == InitializeLocalCode(b) <==> EraseInitialize(a) == EraseInitialize(b)
  {
  }

  lemma DepositCodesDistinct(a: VaultDeposit.DepositV1Error, b: VaultDeposit.DepositV1Error)
    requires !a.ProgramError? && !b.ProgramError?
    ensures DepositLocalCode(a) == DepositLocalCode(b) <==> EraseDeposit(a) == EraseDeposit(b)
  {
  }

  lemma WithdrawCodesDistinct(a: VaultWithdraw.WithdrawV1Error, b: VaultWithdraw.WithdrawV1Error)
    requires !a.ProgramError? && !b.ProgramError?
    ensures WithdrawLocalCode(a) == WithdrawLocalCode(b) <==> EraseWithdraw(a) == EraseWithdraw(b)
  {
  }

  lemma DeactivateCodesDistinct(a: VaultDeactivate.DeactivateVaultV1Error, b: VaultDeactivate.DeactivateVaultV1Error)
    requires !a.ProgramError? && !b.ProgramError?
    ensures DeactivateLocalCode(a) == DeactivateLocalCode(b) <==> EraseDeactivate(a) == EraseDeactivate(b)
  {
  }

  lemma ReactivateCodesDistinct(a: VaultReactivate.ReactivateVaultV1Error, b: VaultReactivate.ReactivateVaultV1Error)
    requires !a.ProgramError? && !b.ProgramError?
    ensures ReactivateLocalCode(a) == ReactivateLocalCode(b) <==> EraseReactivate(a) == EraseReactivate(b)
  {
  }

  /** Sample codes: a signer failure, the last withdraw code, a passed-through host error, a bad tag. */
  lemma VaultCodeExamples()
    ensures ToProgramError(LiftInitialize(VaultInitialize.PayerMustBeSigner)) == Custom(0x102)
    ensures ToProgramError(LiftWithdraw(VaultWithdraw.WouldViolateRentMinimum(0, 1, 2))) == Custom(0x30b)
    ensures ToProgramError(LiftDeposit(VaultDeposit.ProgramError(InsufficientFunds))) == InsufficientFunds
    ensures DiscriminatorErrorToProgramError(VID.Invalid(6)) == Custom(0x02)
  {
  }
}
