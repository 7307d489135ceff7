// `CounterError`, the counter program's flat error enum, with its custom
// error code and its fixed message.

module CounterErrors {
  import opened Prims
  import opened Host

  datatype CounterError =
    | CounterAddressMismatch
    | CounterMustBeEmpty
    | CounterMustBeOwnedBySystemProgram
    | CounterMustBeWriteable
    | CounterMustHaveZeroLamports
    | InvalidInstructionDiscriminator(byte: u8)
    | NotEnoughAccounts(expectedLen: nat, observedLen: nat)
    | PayerMustBeSigner
    | SerializeError
    | SerializedSizeMismatch(expectedSize: nat, observedSize: nat)
    | SystemProgramAddressMismatch

  /** The variant with its payload cleared: two errors are the same kind iff they erase alike. */
  function Erase(e: CounterError): CounterError
  {
    match e
    case InvalidInstructionDiscriminator(_) => InvalidInstructionDiscriminator(0)
    case NotEnoughAccounts(_, _) => NotEnoughAccounts(0, 0)
    case SerializedSizeMismatch(_, _) => SerializedSizeMismatch(0, 0)
    case _ => e
  }

  /** The code carried by `ProgramError::Custom` for each variant. */
  function Code(e: CounterError): (c: u32)
    ensures 0x1 <= c <= 0xb
  {
    match e
    case CounterAddressMismatch => 0x1
    case CounterMustBeEmpty => 0x2
    case CounterMustBeOwnedBySystemProgram => 0x3
    case CounterMustBeWriteable => 0x4
    case CounterMustHaveZeroLamports => 0x5
    case InvalidInstructionDiscriminator(_) => 0x6
    case NotEnoughAccounts(_, _) => 0x7
    case PayerMustBeSigner => 0x8
    case SerializeError => 0x9
    case SerializedSizeMismatch(_, _) => 0xa
    case SystemProgramAddressMismatch => 0xb
  }

  /** `From<CounterError> for ProgramError`. */
  function ToProgramError(e: CounterError): (pe: ProgramError)
    ensures pe.Custom? && pe.code == Code(e)
  {
    Custom(Code(e))
  }

  /** Two errors share a code exactly when they are the same variant; payloads never matter. */
  lemma CodeIdentifiesVariant(a: CounterError, b: CounterError)
    ensures Code(a) == Code(b) <==> Erase(a) == Erase(b)
  {
  }

  /** `CounterError::as_str`. */
  function Message(e: CounterError): (m: string)
    ensures |m| > 0
  {
    match e
    case CounterAddressMismatch => "Counter address must match"
    case CounterMustBeEmpty => "Counter must be empty"
    case CounterMustBeOwnedBySystemProgram => "Counter must be owned by system program"
    case CounterMustBeWriteable => "Counter must be writable"
    case CounterMustHaveZeroLamports => "Counter must have zero lamports"
    case InvalidInstructionDiscriminator(_) => "Invalid instruction discriminator"
    case NotEnoughAccounts(_, _) => "Not enough accounts"
    case PayerMustBeSigner => "Payer must be a signer"
    case SerializeError => "Serialization error"
    case SerializedSizeMismatch(_, _) => "Serialized size mismatch"
    case SystemProgramAddressMismatch => "System program address must match"
  }

  /** `Display for CounterError`: the text written is `as_str()`. */
  function Display(e: CounterError): (s: string)
    ensures s == Message(e)
  {
    Message(e)
  }

  /** Every variant has its own message, independent of the payload. */
  lemma MessageIdentifiesVariant(a: CounterError, b: CounterError)
    ensures Message(a) == Message(b) <==> Erase(a) == Erase(b)
  {
    if Message(a) == Message(b) {
      assert |Message(a)| == |Message(b)| && Message(a)[0] == Message(b)[0];
    }
  }

  /** The codes the program's own tests expect for the create-counter failures. */
  lemma CreateCounterTestCodes()
    ensures ToProgramError(PayerMustBeSigner) == Custom(0x8)
    ensures ToProgramError(CounterMustBeWriteable) == Custom(0x4)
    ensures ToProgramError(CounterAddressMismatch) == Custom(0x1)
    ensures ToProgramError(SystemProgramAddressMismatch) == Custom(0xb)
    ensures ToProgramError(CounterMustBeEmpty) == Custom(0x2)
    ensures forall b: u8 :: ToProgramError(InvalidInstructionDiscriminator(b)) == Custom(0x6)
    ensures forall n: nat, m: nat :: ToProgramError(NotEnoughAccounts(n, m)) == Custom(0x7)
  {
  }
}
