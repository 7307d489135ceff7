// The counter program's account tag: the first byte of every account it
// owns, and the guard that checks that byte and the account length together.

module CounterAccountDiscriminator {
  import opened Prims
  import opened Wrappers

  /** `CounterV1::size()`: tag 1 + owner 32 + bump 1 + count 8 + reserved 31. */
  const COUNTER_V1_SIZE: nat := 73

  /** Length of a deactivated account: the tag byte alone. */
  const DEACTIVATED_ACCOUNT_SIZE: nat := 1

  datatype AccountDiscriminator = CounterV1Account | DeactivatedAccount

  datatype AccountDiscriminatorError =
    | Missing
    | DiscriminatorMismatch(expected: AccountDiscriminator, observed: AccountDiscriminator)
    | SerializedSizeMismatch(expectedSize: nat, observedSize: nat)
    | Invalid(byte: u8)

  /** `u8::from(AccountDiscriminator)`. */
  function ToByte(d: AccountDiscriminator): (b: u8)
    ensures d == CounterV1Account <==> b == 1
    ensures d == DeactivatedAccount <==> b == 255
  {
    match d
    case CounterV1Account => 1
    case DeactivatedAccount => 255
  }

  /** `AccountDiscriminator::try_from(u8)`. */
  function FromByte(b: u8): (r: Result<AccountDiscriminator, AccountDiscriminatorError>)
    ensures r.Ok? <==> b == 1 || b == 255
    ensures r.Ok? ==> ToByte(r.value) == b
    ensures r.Err? ==> r.error == Invalid(b)
  {
    if b == 1 then Ok(CounterV1Account)
    else if b == 255 then Ok(DeactivatedAccount)
    else Err(Invalid(b))
  }

  /** The two conversions are mutually inverse. */
  lemma FromByteToByte(d: AccountDiscriminator)
    ensures FromByte(ToByte(d)) == Ok(d)
  {
  }

  /** `expected_account_size`. */
  function ExpectedAccountSize(d: AccountDiscriminator): (n: nat)
    ensures d == CounterV1Account ==> n == COUNTER_V1_SIZE
    ensures d == DeactivatedAccount ==> n == DEACTIVATED_ACCOUNT_SIZE
  {
    match d
    case CounterV1Account => COUNTER_V1_SIZE
    case DeactivatedAccount => DEACTIVATED_ACCOUNT_SIZE
  }

  /** `AccountDiscriminator::check(expected, data)`. */
  function Check(expected: AccountDiscriminator, data: seq<u8>): (r: Result<(), AccountDiscriminatorError>)
    ensures |data| == 0 ==> r == Err(Missing)
    ensures |data| > 0 && data[0] != 1 && data[0] != 255 ==> r == Err(Invalid(data[0]))
    ensures |data| > 0 && FromByte(data[0]).Ok? && FromByte(data[0]).value != expected
            ==> r == Err(DiscriminatorMismatch(expected, FromByte(data[0]).value))
    ensures |data| > 0 && data[0] == ToByte(expected) && |data| != ExpectedAccountSize(expected)
            ==> r == Err(SerializedSizeMismatch(ExpectedAccountSize(expected), |data|))
    ensures r.Ok? <==> |data| == ExpectedAccountSize(expected) && data[0] == ToByte(expected)
  {
    if |data| == 0 then Err(Missing)
    else match FromByte(data[0])
      case Err(e) => Err(e)
      case Ok(observed) =>
        if observed != expected then Err(DiscriminatorMismatch(expected, observed))
        else if |data| != ExpectedAccountSize(expected) then
          Err(SerializedSizeMismatch(ExpectedAccountSize(expected), |data|))
        else Ok(())
  }

  /** An invalid tag byte is reported whatever the length of the data. */
  lemma InvalidBeforeSize(expected: AccountDiscriminator, data: seq<u8>)
    requires |data| > 0 && data[0] != 1 && data[0] != 255
    ensures Check(expected, data) == Err(Invalid(data[0]))
    ensures forall n :: 1 <= n <= |data| ==> Check(expected, data[..n]) == Err(Invalid(data[0]))
  {
    forall n | 1 <= n <= |data|
      ensures Check(expected, data[..n]) == Err(Invalid(data[0]))
    {
      assert data[..n][0] == data[0];
    }
  }
}
