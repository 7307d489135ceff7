// The vault program's account tag and its guard on the tag byte and the
// exact account length.

module VaultAccountDiscriminator {
  import opened Prims
  import opened Wrappers

  /** `VAULT_V1_SIZE` / `VaultV1::size()`: tag 1 + owner 32 + bump 1. */
  const VAULT_V1_SIZE: nat := 34

  /** Length of a deactivated vault: the tag byte alone. */
  const DEACTIVATED_ACCOUNT_SIZE: nat := 1

  datatype AccountDiscriminator = VaultV1Account | DeactivatedAccount

  datatype AccountDiscriminatorError =
    | Missing
    | DiscriminatorMismatch(expected: AccountDiscriminator, observed: AccountDiscriminator)
    | SerializedSizeMismatch(expectedSize: nat, observedSize: nat)
    | Invalid(byte: u8)

  /** `u8::from(AccountDiscriminator)`. */
  function ToByte(d: AccountDiscriminator): (b: u8)
    ensures d == VaultV1Account <==> b == 1
    ensures d == DeactivatedAccount <==> b == 255
  {
    match d
    case VaultV1Account => 1
    case DeactivatedAccount => 255
  }

  /** `AccountDiscriminator::try_from(u8)`. */
  function FromByte(b: u8): (r: Result<AccountDiscriminator, AccountDiscriminatorError>)
    ensures r.Ok? <==> b == 1 || b == 255
    ensures r.Ok? ==> ToByte(r.value) == b
    ensures r.Err? ==> r.error == Invalid(b)
  {
    if b == 1 then Ok(VaultV1Account)
    else if b == 255 then Ok(DeactivatedAccount)
    else Err(Invalid(b))
  }

  /** The two conversions are mutually inverse. */
  lemma FromByteToByte(d: AccountDiscriminator)
    ensures FromByte(ToByte(d)) == Ok(d)
  {
  }

  /** `expected_account_size`. */
  function ExpectedAccountSize(d: AccountDiscriminator): (n: nat)
    ensures d == VaultV1Account ==> n == VAULT_V1_SIZE
    ensures d == DeactivatedAccount ==> n == DEACTIVATED_ACCOUNT_SIZE
  {
    match d
    case VaultV1Account => VAULT_V1_SIZE
    case DeactivatedAccount => DEACTIVATED_ACCOUNT_SIZE
  }

  /** `AccountDiscriminator::check(expected, data)`. */
  function Check(expected: AccountDiscriminator, data: seq<u8>): (r: Result<(), AccountDiscriminatorError>)
    ensures |data| == 0 ==> r == Err(Missing)
    ensures |data| > 0 && data[0] != 1 && data[0] != 255 ==> r == Err(Invalid(data[0]))
    ensures |data| > 0 && FromByte(data[0]).Ok? && FromByte(data[0]).value != expected
            ==> r == Err(DiscriminatorMismatch(expected, FromByte(data[0]).value))
    ensures |data| > 0 && data[0] == ToByte(expected) && |data| != ExpectedAccountSize(expected)
            ==> r == Err(SerializedSizeMismatch(ExpectedAccountSize(expected), |data|))
    ensures r.Ok? <==> |data| == ExpectedAccountSize(expected) && data[0] == ToByte(expected)
  {
    if |data| == 0 then Err(Missing)
    else match FromByte(data[0])
      case Err(e) => Err(e)
      case Ok(observed) =>
        if observed != expected then Err(DiscriminatorMismatch(expected, observed))
        else if |data| != ExpectedAccountSize(expected) then
          Err(SerializedSizeMismatch(ExpectedAccountSize(expected), |data|))
        else Ok(())
  }

  /** The guard for one tag rejects every buffer the guard for the other tag accepts. */
  lemma TagsExclusive(data: seq<u8>)
    ensures !(Check(VaultV1Account, data).Ok? && Check(DeactivatedAccount, data).Ok?)
    ensures Check(DeactivatedAccount, data).Ok? ==> data == [ToByte(DeactivatedAccount)]
  {
    if Check(DeactivatedAccount, data).Ok? {
      assert data == [data[0]];
    }
  }
}
