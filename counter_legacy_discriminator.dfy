// The counter program's older instruction tag (five operations) that
// reports failures as `CounterError::InvalidInstructionDiscriminator`.

module CounterLegacyDiscriminator {
  import opened Prims
  import opened Wrappers
  import opened CounterErrors

  datatype InstructionDiscriminator =
    | InitializeCounterV1
    | DeactivateCounterV1
    | DecrementCountV1
    | IncrementCountV1
    | SetCountV1

  /** `u8::from(InstructionDiscriminator)`. */
  function ToByte(d: InstructionDiscriminator): (b: u8)
    ensures 1 <= b <= 5
  {
    match d
    case InitializeCounterV1 => 1
    case DeactivateCounterV1 => 2
    case DecrementCountV1 => 3
    case IncrementCountV1 => 4
    case SetCountV1 => 5
  }

  /** `InstructionDiscriminator::try_from(&u8)`. */
  function FromByte(b: u8): (r: Result<InstructionDiscriminator, CounterError>)
    ensures r.Ok? <==> 1 <= b <= 5
    ensures r.Ok? ==> ToByte(r.value) == b
    ensures r.Err? ==> r.error == InvalidInstructionDiscriminator(b)
  {
    match b
    case 1 => Ok(InitializeCounterV1)
    case 2 => Ok(DeactivateCounterV1)
    case 3 => Ok(DecrementCountV1)
    case 4 => Ok(IncrementCountV1)
    case 5 => Ok(SetCountV1)
    case _ => Err(InvalidInstructionDiscriminator(b))
  }

  lemma FromByteToByte(d: InstructionDiscriminator)
    ensures FromByte(ToByte(d)) == Ok(d)
  {
  }

  /** `InstructionDiscriminator::parse`; empty input is reported as tag byte 0. */
  function Parse(data: seq<u8>): (r: Result<(InstructionDiscriminator, seq<u8>), CounterError>)
    ensures |data| == 0 ==> r == Err(InvalidInstructionDiscriminator(0))
    ensures |data| > 0 && !(1 <= data[0] <= 5) ==> r == Err(InvalidInstructionDiscriminator(data[0]))
    ensures r.Ok? <==> |data| > 0 && 1 <= data[0] <= 5
    ensures r.Ok? ==> [ToByte(r.value.0)] + r.value.1 == data
  {
    if |data| == 0 then Err(InvalidInstructionDiscriminator(0))
    else match FromByte(data[0])
      case Err(e) => Err(e)
      case Ok(d) => Ok((d, data[1..]))
  }

  /** Empty input is indistinguishable from a leading zero byte, whatever follows it. */
  lemma EmptyLooksLikeZero(rest: seq<u8>)
    ensures Parse([]) == Parse([0] + rest)
  {
  }

  lemma ParseTagged(d: InstructionDiscriminator, payload: seq<u8>)
    ensures Parse([ToByte(d)] + payload) == Ok((d, payload))
  {
    assert ([ToByte(d)] + payload)[1..] == payload;
  }

  /** The unit tests' cases: bytes 0, 6 and 255 are invalid. */
  lemma ParseExamples()
    ensures Parse([0]) == Err(InvalidInstructionDiscriminator(0))
    ensures Parse([6]) == Err(InvalidInstructionDiscriminator(6))
    ensures Parse([255]) == Err(InvalidInstructionDiscriminator(255))
  {
  }
}
