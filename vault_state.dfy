// The vault record `VaultV1` and its hand-written 34-byte layout
// [tag][owner 32][bump].

module VaultState {
  import opened Prims
  import opened Wrappers
  import opened Host
  import opened VaultAccountDiscriminator

  datatype VaultV1 = VaultV1(discriminator: AccountDiscriminator, owner: Pubkey, bump: u8)

  /** The bytes `to_bytes` produces for `v`. */
  function Encode(v: VaultV1): (r: seq<u8>)
    ensures |r| == VAULT_V1_SIZE
    ensures r[0] == ToByte(v.discriminator) && r[1..33] == v.owner && r[33] == v.bump
  {
    [ToByte(v.discriminator)] + v.owner + [v.bump]
  }

  /** The value `from_bytes` decodes from `data`. */
  function Decode(data: seq<u8>): (r: Result<VaultV1, ProgramError>)
    ensures r.Ok? <==> |data| == VAULT_V1_SIZE && FromByte(data[0]).Ok?
    ensures r.Err? ==> r.error == InvalidAccountData
    ensures r.Ok? ==> Encode(r.value) == data
  {
    if |data| != VAULT_V1_SIZE then Err(InvalidAccountData)
    else match FromByte(data[0])
      case Err(_) => Err(InvalidAccountData)
      case Ok(d) =>
        var v := VaultV1(d, data[1..33], data[33]);
        assert Encode(v) == data by {
          assert data == [data[0]] + data[1..33] + [data[33]];
        }
        Ok(v)
  }

  /** Decoding an encoded record gives it back. */
  lemma DecodeEncode(v: VaultV1)
    ensures Decode(Encode(v)) == Ok(v)
  {
    FromByteToByte(v.discriminator);
    var e := Encode(v);
    assert Decode(e).Ok?;
    assert Decode(e).value == v;
  }

  /** Any buffer that decodes is exactly the encoding of what it decodes to. */
  lemma EncodeDecode(data: seq<u8>)
    requires Decode(data).Ok?
    ensures Encode(Decode(data).value) == data
  {
  }

  /** `VaultV1::from_bytes`: length check, tag check, then a copy of the owner bytes. */
  method FromBytes(data: seq<u8>) returns (r: Result<VaultV1, ProgramError>)
    ensures r == Decode(data)
  {
    if |data| != VAULT_V1_SIZE {
      return Err(InvalidAccountData);
    }
    var decoded := FromByte(data[0]);
    if decoded.Err? {
      return Err(InvalidAccountData);
    }
    var owner := new u8[32](_ => 0);
    var i := 0;
    while i < 32
      invariant 0 <= i <= 32
      invariant forall j :: 0 <= j < i ==> owner[j] == data[1 + j]
    {
      owner[i] := data[1 + i];
      i := i + 1;
    }
    assert owner[..] == data[1..33];
    return Ok(VaultV1(decoded.value, owner[..], data[33]));
  }

  /** A mutable `VaultV1` whose owner bytes live in a 32-byte array, as in the source struct. */
  class VaultV1Record {
    var discriminator: AccountDiscriminator
    const owner: array<u8>
    var bump: u8

    predicate Valid()
      reads this
    {
      owner.Length == 32
    }

    function Value(): VaultV1
      requires Valid()
      reads this, owner
    {
      VaultV1(discriminator, owner[..], bump)
    }

    constructor (v: VaultV1)
      ensures Valid() && Value() == v && fresh(owner)
    {
      discriminator := v.discriminator;
      bump := v.bump;
      owner := new u8[32](i requires 0 <= i < 32 => v.owner[i]);
      new;
      assert owner[..] == v.owner;
    }

    /** `VaultV1::owner`: the stored bytes as a key. */
    function Owner(): (k: Pubkey)
      requires Valid()
      reads this, owner
      ensures k == Value().owner
      ensures forall i :: 0 <= i < 32 ==> k[i] == owner[i]
    {
      owner[..]
    }

    /** `VaultV1::set_owner`: overwrites the owner bytes and nothing else. */
    method SetOwner(k: Pubkey)
      requires Valid()
      modifies owner
      ensures Valid() && Value() == old(Value()).(owner := k) && Owner() == k
    {
      var i := 0;
      while i < 32
        invariant 0 <= i <= 32
        invariant forall j :: 0 <= j < i ==> owner[j] == k[j]
      {
        owner[i] := k[i];
        i := i + 1;
      }
      assert owner[..] == k;
    }

    /** `VaultV1::to_bytes`: indexed writes into a fresh zeroed 34-byte array. */
    method ToBytes() returns (bytes: array<u8>)
      requires Valid()
      ensures fresh(bytes) && bytes[..] == Encode(Value())
    {
      bytes := new u8[VAULT_V1_SIZE](_ => 0);
      bytes[0] := ToByte(discriminator);
      var i := 0;
      while i < 32
        invariant 0 <= i <= 32
        invariant bytes[0] == ToByte(discriminator)
        invariant forall j :: 0 <= j < i ==> bytes[1 + j] == owner[j]
      {
        bytes[1 + i] := owner[i];
        i := i + 1;
      }
      bytes[33] := bump;
      assert bytes[..] == Encode(Value()) by {
        assert bytes[1..33] == owner[..];
        assert bytes[..] == [bytes[0]] + bytes[1..33] + [bytes[33]];
      }
    }
  }

  /** After `set_owner`, encoding and decoding report the new owner and keep tag and bump. */
  lemma SetOwnerEncodes(v: VaultV1, k: Pubkey)
    ensures Decode(Encode(v.(owner := k))) == Ok(VaultV1(v.discriminator, k, v.bump))
    ensures Encode(v.(owner := k))[1..33] == k
    ensures Encode(v.(owner := k))[..1] == Encode(v)[..1] && Encode(v.(owner := k))[33] == Encode(v)[33]
  {
    DecodeEncode(v.(owner := k));
  }
}
