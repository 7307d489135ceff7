// The vault program's instruction tag: the first byte of the instruction
// data selects the operation, the rest is its argument payload.

module VaultInstructionDiscriminator {
  import opened Prims
  import opened Wrappers

  datatype InstructionDiscriminator =
    | InitializeVaultV1
    | DepositV1
    | WithdrawV1
    | DeactivateVaultV1
    | ReactivateVaultV1

  datatype InstructionDiscriminatorError = Missing | Invalid(byte: u8)

  /** `u8::from(InstructionDiscriminator)`. */
  function ToByte(d: InstructionDiscriminator): (b: u8)
    ensures 1 <= b <= 5
  {
    match d
    case InitializeVaultV1 => 1
    case DepositV1 => 2
    case WithdrawV1 => 3
    case DeactivateVaultV1 => 4
    case ReactivateVaultV1 => 5
  }

  /** `InstructionDiscriminator::try_from(&u8)`. */
  function FromByte(b: u8): (r: Result<InstructionDiscriminator, InstructionDiscriminatorError>)
    ensures r.Ok? <==> 1 <= b <= 5
    ensures r.Ok? ==> ToByte(r.value) == b
    ensures r.Err? ==> r.error == Invalid(b)
  {
    match b
    case 1 => Ok(InitializeVaultV1)
    case 2 => Ok(DepositV1)
    case 3 => Ok(WithdrawV1)
    case 4 => Ok(DeactivateVaultV1)
    case 5 => Ok(ReactivateVaultV1)
    case _ => Err(Invalid(b))
  }

  /** Every tag survives the trip through its byte. */
  lemma FromByteToByte(d: InstructionDiscriminator)
    ensures FromByte(ToByte(d)) == Ok(d)
  {
  }

  /** `InstructionDiscriminator::parse`: split off the tag byte, keep the rest untouched. */
  function Parse(data: seq<u8>): (r: Result<(InstructionDiscriminator, seq<u8>), InstructionDiscriminatorError>)
    ensures |data| == 0 ==> r == Err(Missing)
    ensures |data| > 0 && !(1 <= data[0] <= 5) ==> r == Err(Invalid(data[0]))
    ensures r.Ok? <==> |data| > 0 && 1 <= data[0] <= 5
    ensures r.Ok? ==> [ToByte(r.value.0)] + r.value.1 == data
  {
    if |data| == 0 then Err(Missing)
    else match FromByte(data[0])
      case Err(e) => Err(e)
      case Ok(d) => Ok((d, data[1..]))
  }

  /** The tag and payload a client writes are exactly what the program parses. */
  lemma ParseTagged(d: InstructionDiscriminator, payload: seq<u8>)
    ensures Parse([ToByte(d)] + payload) == Ok((d, payload))
  {
    assert ([ToByte(d)] + payload)[1..] == payload;
  }

  /** The unit tests' cases: bytes 6 and 255 are invalid, a lone tag leaves no payload. */
  lemma ParseExamples()
    ensures Parse([]) == Err(Missing)
    ensures Parse([6, 0x42]) == Err(Invalid(6)) && Parse([255, 0x42]) == Err(Invalid(255))
    ensures Parse([1]) == Ok((InitializeVaultV1, []))
    ensures Parse([3, 0x42, 0x43]) == Ok((WithdrawV1, [0x42, 0x43]))
  {
    ParseTagged(InitializeVaultV1, []);
    ParseTagged(WithdrawV1, [0x42, 0x43]);
  }
}
