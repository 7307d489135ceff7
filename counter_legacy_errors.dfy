// The older copy of `CounterError`'s code map and messages, kept by the
// first counter crate; it must agree with the current one.

module CounterLegacyErrors {
  import opened Prims
  import opened Host
  import CE = CounterErrors

  /** The older crate's code table, written with decimal codes 1..11. */
  function LegacyCode(e: CE.CounterError): (c: u32)
    ensures 1 <= c <= 11
  {
    match e
    case CounterAddressMismatch => 1
    case CounterMustBeEmpty => 2
    case CounterMustBeOwnedBySystemProgram => 3
    case CounterMustBeWriteable => 4
    case CounterMustHaveZeroLamports => 5
    case InvalidInstructionDiscriminator(_) => 6
    case NotEnoughAccounts(_, _) => 7
    case PayerMustBeSigner => 8
    case SerializeError => 9
    case SerializedSizeMismatch(_, _) => 10
    case SystemProgramAddressMismatch => 11
  }

  /** The older `From<CounterError> for ProgramError`. */
  function LegacyToProgramError(e: CE.CounterError): (pe: ProgramError)
    ensures pe == Custom(LegacyCode(e))
  {
    Custom(LegacyCode(e))
  }

  /** The older `as_str`. */
  function LegacyMessage(e: CE.CounterError): (m: string)
    ensures |m| > 0
  {
    match e
    case CounterAddressMismatch => "Counter address must match"
    case CounterMustBeEmpty => "Counter must be empty"
    case CounterMustBeOwnedBySystemProgram => "Counter must be owned by system program"
    case CounterMustBeWriteable => "Counter must be writable"
    case CounterMustHaveZeroLamports => "Counter must have zero lamports"
    case InvalidInstructionDiscriminator(_) => "Invalid instruction discriminator"
    case NotEnoughAccounts(_, _) => "Not enough accounts"
    case PayerMustBeSigner => "Payer must be a signer"
    case SerializeError => "Serialization error"
    case SerializedSizeMismatch(_, _) => "Serialized size mismatch"
    case SystemProgramAddressMismatch => "System program address must match"
  }

  /** The older `Display`: the text written is `as_str()`. */
  function LegacyDisplay(e: CE.CounterError): (s: string)
    ensures s == LegacyMessage(e)
  {
    LegacyMessage(e)
  }

  /** Both crates export the same code and the same text for every error. */
  lemma LegacyAgreesWithCurrent(e: CE.CounterError)
    ensures LegacyToProgramError(e) == CE.ToProgramError(e)
    ensures LegacyDisplay(e) == CE.Display(e)
  {
  }

  /** The older codes tell variants apart and ignore payloads. */
  lemma LegacyCodeIdentifiesVariant(a: CE.CounterError, b: CE.CounterError)
    ensures LegacyCode(a) == LegacyCode(b) <==> CE.Erase(a) == CE.Erase(b)
  {
    LegacyAgreesWithCurrent(a);
    LegacyAgreesWithCurrent(b);
    CE.CodeIdentifiesVariant(a, b);
  }
}
