// The client builder for `SetCountV1`: metas for [owner, counter] and the
// count to store, by-value setters, an ordered metadata check, and the
// instruction data built as the tag byte followed by the encoded arguments.

module CounterSetCountClient {
  import opened Prims
  import opened Wrappers
  import opened Host
  import opened ClientInstruction
  import CID = CounterInstructionDiscriminator
  import CSC = CounterSetCount

  datatype SetCountV1IxError =
    | OwnerMustBeSigner
    | OwnerMustBeWriteable
    | CounterMustBeWriteable
    | CounterAddressMismatch(expected: Pubkey, observed: Pubkey)
    | SerializationError

  datatype SetCountV1Ix = SetCountV1Ix(programId: Pubkey, owner: AccountMeta, counter: AccountMeta, count: u64)

  /** `SetCountV1Ix::new`: the owner signs, the counter sits at its derived address, the count is kept. */
  function New(env: Env, programId: Pubkey, owner: Pubkey, count: u64): (ix: SetCountV1Ix)
    ensures ix.programId == programId && ix.owner == SignerWritable(owner)
    ensures ix.counter == Writable(env.deriveCounter(programId, owner).0)
    ensures ix.count == count
    ensures Validate(env, ix) == Ok(())
  {
    SetCountV1Ix(programId, SignerWritable(owner), Writable(env.deriveCounter(programId, owner).0), count)
  }

  /** `with_owner`: the owner meta is replaced and nothing else changes. */
  function WithOwner(ix: SetCountV1Ix, owner: AccountMeta): (r: SetCountV1Ix)
    ensures r.owner == owner && r.(owner := ix.owner) == ix
  {
    ix.(owner := owner)
  }

  /** `with_counter`: the counter meta is replaced and nothing else changes. */
  function WithCounter(ix: SetCountV1Ix, counter: AccountMeta): (r: SetCountV1Ix)
    ensures r.counter == counter && r.(counter := ix.counter) == ix
  {
    ix.(counter := counter)
  }

  /** `with_count`: the count is replaced and nothing else changes. */
  function WithCount(ix: SetCountV1Ix, count: u64): (r: SetCountV1Ix)
    ensures r.count == count && r.(count := ix.count) == ix
  {
    ix.(count := count)
  }

  /** The setters touch different fields, so their order does not matter and the last write wins. */
  lemma SettersCommute(ix: SetCountV1Ix, o1: AccountMeta, o2: AccountMeta, c1: AccountMeta, c2: AccountMeta,
                       n1: u64, n2: u64)
    ensures WithCounter(WithOwner(ix, o1), c1) == WithOwner(WithCounter(ix, c1), o1)
    ensures WithCount(WithOwner(ix, o1), n1) == WithOwner(WithCount(ix, n1), o1)
    ensures WithCount(WithCounter(ix, c1), n1) == WithCounter(WithCount(ix, n1), c1)
    ensures WithOwner(WithOwner(ix, o1), o2) == WithOwner(ix, o2)
    ensures WithCounter(WithCounter(ix, c1), c2) == WithCounter(ix, c2)
    ensures WithCount(WithCount(ix, n1), n2) == WithCount(ix, n2)
  {
  }

  /** The count is not part of the metadata check: changing it never changes `validate`'s verdict. */
  lemma CountDoesNotAffectValidation(env: Env, ix: SetCountV1Ix, n: u64)
    ensures Validate(env, WithCount(ix, n)) == Validate(env, ix)
  {
  }

  /** Everything `validate` demands, regardless of the order it checks in. */
  predicate Valid(env: Env, ix: SetCountV1Ix)
  {
    ix.owner.isSigner && ix.owner.isWritable
    && ix.counter.pubkey == env.deriveCounter(ix.programId, ix.owner.pubkey).0
    && ix.counter.isWritable
  }

  /** `SetCountV1Ix::validate`: the first failing check names the error. */
  function Validate(env: Env, ix: SetCountV1Ix): (r: Result<(), SetCountV1IxError>)
    ensures r.Ok? <==> Valid(env, ix)
    ensures !ix.owner.isSigner ==> r == Err(OwnerMustBeSigner)
    ensures ix.owner.isSigner && !ix.owner.isWritable ==> r == Err(OwnerMustBeWriteable)
    ensures ix.owner.isSigner && ix.owner.isWritable
            && ix.counter.pubkey != env.deriveCounter(ix.programId, ix.owner.pubkey).0
            ==> r == Err(CounterAddressMismatch(env.deriveCounter(ix.programId, ix.owner.pubkey).0, ix.counter.pubkey))
    ensures ix.owner.isSigner && ix.owner.isWritable
            && ix.counter.pubkey == env.deriveCounter(ix.programId, ix.owner.pubkey).0
            && !ix.counter.isWritable
            ==> r == Err(CounterMustBeWriteable)
  {
    if !ix.owner.isSigner then Err(OwnerMustBeSigner)
    else if !ix.owner.isWritable then Err(OwnerMustBeWriteable)
    else
      var expected := env.deriveCounter(ix.programId, ix.owner.pubkey).0;
      if ix.counter.pubkey != expected then Err(CounterAddressMismatch(expected, ix.counter.pubkey))
      else if !ix.counter.isWritable then Err(CounterMustBeWriteable)
      else Ok(())
  }

  /** Pointing a fresh builder at any other counter is reported with both addresses. */
  lemma RedirectedCounterRejected(env: Env, programId: Pubkey, owner: Pubkey, n: u64, other: AccountMeta)
    requires other.pubkey != env.deriveCounter(programId, owner).0
    ensures Validate(env, WithCounter(New(env, programId, owner, n), other))
            == Err(CounterAddressMismatch(env.deriveCounter(programId, owner).0, other.pubkey))
  {
  }

  /**
   * `SetCountV1Ix::to_instruction`: with `validate` set it fails with
   * `validate`'s error; otherwise it builds [owner, counter] and the data
   * `[5]` followed by the eight-byte encoding of the count, which the
   * program's tag parse and argument decoder read back as the same count.
   */
  method ToInstruction(env: Env, ix: SetCountV1Ix, validate: bool) returns (r: Result<Instruction, SetCountV1IxError>)
    ensures r.Ok? <==> !validate || Valid(env, ix)
    ensures r.Err? ==> Err(r.error) == Validate(env, ix)
    ensures r.Ok? ==> r.value.programId == ix.programId && r.value.accounts == [ix.owner, ix.counter]
    ensures r.Ok? ==> r.value.data == [CID.ToByte(CID.SetCountV1)] + CSC.SerializeArgs(CSC.SetCountV1Args(ix.count))
    ensures r.Ok? ==> |r.value.data| == 1 + CSC.SET_COUNT_V1_ARGS_SIZE
                      && CID.Parse(r.value.data) == Ok((CID.SetCountV1, r.value.data[1..]))
                      && CSC.DeserializeArgs(r.value.data[1..]) == Ok(CSC.SetCountV1Args(ix.count))
  {
    if validate {
      var checked := Validate(env, ix);
      if checked.Err? {
        return Err(checked.error);
      }
    }
    var args := CSC.SetCountV1Args(ix.count);
    var argsData := CSC.SerializeArgs(args);
    var data := [CID.ToByte(CID.SetCountV1)];
    data := data + argsData;
    CID.ParseTagged(CID.SetCountV1, argsData);
    CSC.ArgsRoundTrip(args, args);
    assert data[1..] == argsData;
    return Ok(Instruction(ix.programId, [ix.owner, ix.counter], data));
  }

  /** `TryFrom<SetCountV1Ix> for Instruction`: builds only a valid instruction. */
  method TryFrom(env: Env, ix: SetCountV1Ix) returns (r: Result<Instruction, SetCountV1IxError>)
    ensures r.Ok? <==> Valid(env, ix)
    ensures r.Err? ==> Err(r.error) == Validate(env, ix)
    ensures r.Ok? ==> r.value.accounts == [ix.owner, ix.counter] && |r.value.data| > 0
                      && CSC.DeserializeArgs(r.value.data[1..]) == Ok(CSC.SetCountV1Args(ix.count))
  {
    r := ToInstruction(env, ix, true);
  }

  /**
   * A valid builder's instruction, sent for a counter the program owns,
   * passes the program's account checks, and its payload decodes to the
   * builder's count.
   */
  lemma AcceptedByProgram(env: Env, ix: SetCountV1Ix, ins: Instruction, states: seq<AccountState>)
    requires Valid(env, ix) && ins.programId == ix.programId && ins.accounts == [ix.owner, ix.counter]
    requires ins.data == [CID.ToByte(CID.SetCountV1)] + CSC.SerializeArgs(CSC.SetCountV1Args(ix.count))
    requires |states| == 2 && states[1].owner == ix.programId
    ensures CSC.Parse(env, ins.programId, Views(ins.accounts, states), ins.data[1..]).Ok?
    ensures CSC.Parse(env, ins.programId, Views(ins.accounts, states), ins.data[1..]).value.1
            == CSC.SetCountV1Args(ix.count)
  {
    var payload := CSC.SerializeArgs(CSC.SetCountV1Args(ix.count));
    assert ins.data[1..] == payload;
    CSC.ArgsRoundTrip(CSC.SetCountV1Args(ix.count), CSC.Parse(env, ins.programId, Views(ins.accounts, states), payload).value.1);
  }
}
