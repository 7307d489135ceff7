// The counter program's instruction tag: the first byte of the instruction
// data selects the operation, the rest is its argument payload.

module CounterInstructionDiscriminator {
  import opened Prims
  import opened Wrappers

  datatype InstructionDiscriminator =
    | InitializeCounterV1
    | DeactivateCounterV1
    | DecrementCountV1
    | IncrementCountV1
    | SetCountV1
    | ReactivateCounterV1

  datatype InstructionDiscriminatorError = Missing | Invalid(byte: u8)

  /** `u8::from(InstructionDiscriminator)`. */
  function ToByte(d: InstructionDiscriminator): (b: u8)
    ensures 1 <= b <= 6
  {
    match d
    case InitializeCounterV1 => 1
    case DeactivateCounterV1 => 2
    case DecrementCountV1 => 3
    case IncrementCountV1 => 4
    case SetCountV1 => 5
    case ReactivateCounterV1 => 6
  }

  /** `InstructionDiscriminator::try_from(&u8)`. */
  function FromByte(b: u8): (r: Result<InstructionDiscriminator, InstructionDiscriminatorError>)
    ensures r.Ok? <==> 1 <= b <= 6
    ensures r.Ok? ==> ToByte(r.value) == b
    ensures r.Err? ==> r.error == Invalid(b)
  {
    match b
    case 1 => Ok(InitializeCounterV1)
    case 2 => Ok(DeactivateCounterV1)
    case 3 => Ok(DecrementCountV1)
    case 4 => Ok(IncrementCountV1)
    case 5 => Ok(SetCountV1)
    case 6 => Ok(ReactivateCounterV1)
    case _ => Err(Invalid(b))
  }

  /** Every tag survives the trip through its byte. */
  lemma FromByteToByte(d: InstructionDiscriminator)
    ensures FromByte(ToByte(d)) == Ok(d)
  {
  }

  /** `InstructionDiscriminator::parse`: split off the tag byte, keep the rest untouched. */
  function Parse(data: seq<u8>): (r: Result<(InstructionDiscriminator, seq<u8>), InstructionDiscriminatorError>)
    ensures |data| == 0 ==> r == Err(Missing)
    ensures |data| > 0 && !(1 <= data[0] <= 6) ==> r == Err(Invalid(data[0]))
    ensures r.Ok? <==> |data| > 0 && 1 <= data[0] <= 6
    ensures r.Ok? ==> [ToByte(r.value.0)] + r.value.1 == data
  {
    if |data| == 0 then Err(Missing)
    else match FromByte(data[0])
      case Err(e) => Err(e)
      case Ok(d) => Ok((d, data[1..]))
  }

  /** The tag and payload a client writes are exactly what the program parses. */
  lemma ParseTagged(d: InstructionDiscriminator, payload: seq<u8>)
    ensures Parse([ToByte(d)] + payload) == Ok((d, payload))
  {
    assert ([ToByte(d)] + payload)[1..] == payload;
  }

  /** The unit tests' cases: bytes 7 and 255 are invalid, a lone tag leaves no payload. */
  lemma ParseExamples()
    ensures Parse([]) == Err(Missing)
    ensures Parse([7]) == Err(Invalid(7)) && Parse([255]) == Err(Invalid(255))
    ensures Parse([4]) == Ok((IncrementCountV1, []))
    ensures Parse([5, 1, 2]) == Ok((SetCountV1, [1, 2]))
  {
    ParseTagged(IncrementCountV1, []);
    ParseTagged(SetCountV1, [1, 2]);
  }
}
