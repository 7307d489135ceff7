// The counter account record `CounterV1` and its fixed 73-byte layout
// [tag][owner 32][bump][count u64 little-endian][reserved 31].

module CounterState {
  import opened Prims
  import opened Wrappers
  import opened CounterAccountDiscriminator

  const RESERVED_SIZE: nat := 31

  type Reserved = s: seq<u8> | |s| == 31 witness ZeroBytes(31)

  datatype CounterV1 = CounterV1(
    discriminator: AccountDiscriminator,
    owner: Pubkey,
    bump: u8,
    count: u64,
    reserved: Reserved)

  /** The codec's read failure (`wincode::ReadError`). */
  datatype ReadError = ReadError

  /** `CounterV1::serialize`. */
  function Serialize(c: CounterV1): (r: seq<u8>)
    ensures |r| == COUNTER_V1_SIZE
    ensures r[0] == ToByte(c.discriminator)
    ensures r[1..33] == c.owner && r[33] == c.bump
    ensures U64FromLe(r[34..42]) == c.count && r[42..] == c.reserved
  {
    U64LeRoundTrip(c.count);
    var r := [ToByte(c.discriminator)] + c.owner + [c.bump] + U64ToLe(c.count) + c.reserved;
    assert r[34..42] == U64ToLe(c.count);
    r
  }

  /**
   * `CounterV1::deserialize`: the input must be exactly the 73-byte layout
   * with a known tag byte.
   */
  function Deserialize(src: seq<u8>): (r: Result<CounterV1, ReadError>)
    ensures r.Ok? <==> |src| == COUNTER_V1_SIZE && FromByte(src[0]).Ok?
    ensures r.Ok? ==> Serialize(r.value) == src
  {
    if |src| != COUNTER_V1_SIZE then Err(ReadError)
    else match FromByte(src[0])
      case Err(_) => Err(ReadError)
      case Ok(d) =>
        var c := CounterV1(d, src[1..33], src[33], U64FromLe(src[34..42]), src[42..]);
        U64LeRoundTripBytes(src[34..42]);
        assert Serialize(c) == src by {
          var s := Serialize(c);
          assert s[0] == src[0];
          assert s[1..33] == src[1..33];
          assert s[34..42] == U64ToLe(U64FromLe(src[34..42]));
          assert s == s[..1] + s[1..33] + s[33..34] + s[34..42] + s[42..];
          assert src == src[..1] + src[1..33] + src[33..34] + src[34..42] + src[42..];
        }
        Ok(c)
  }

  /** Deserializing a serialized record gives back every field. */
  lemma DeserializeSerialize(c: CounterV1)
    ensures Deserialize(Serialize(c)) == Ok(c)
  {
    var s := Serialize(c);
    FromByteToByte(c.discriminator);
    assert Deserialize(s).Ok?;
    var d := Deserialize(s).value;
    assert s[42..] == c.reserved;
    assert d == c;
  }

  /** A decoded record is the one that was encoded, so decoding is injective. */
  lemma DeserializeInjective(a: seq<u8>, b: seq<u8>)
    requires Deserialize(a).Ok? && Deserialize(a) == Deserialize(b)
    ensures a == b
  {
  }

  /** `CounterV1::default()`. */
  function Default(): (c: CounterV1)
    ensures c.discriminator == CounterV1Account && c.owner == DefaultPubkey()
    ensures c.bump == 0 && c.count == 0 && c.reserved == ZeroBytes(RESERVED_SIZE)
  {
    CounterV1(CounterV1Account, DefaultPubkey(), 0, 0, ZeroBytes(RESERVED_SIZE))
  }

  /** An encoded active record passes the tag guard for active counters. */
  lemma SerializedPassesCheck(c: CounterV1)
    requires c.discriminator == CounterV1Account
    ensures Check(CounterV1Account, Serialize(c)) == Ok(())
    ensures Check(DeactivatedAccount, Serialize(c)) == Err(DiscriminatorMismatch(DeactivatedAccount, CounterV1Account))
  {
  }
}
