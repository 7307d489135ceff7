// The client builder for `DecrementCountV1`: metas for [owner, counter], by-value
// setters for either meta, an ordered metadata check, and the one-byte
// instruction.

module CounterDecrementClient {
  import opened Prims
  import opened Wrappers
  import opened Host
  import opened ClientInstruction
  import CID = CounterInstructionDiscriminator
  import CounterDecrement

  datatype DecrementCountV1IxError =
    | OwnerMustBeSigner
    | OwnerMustBeWriteable
    | CounterMustBeWriteable
    | CounterAddressMismatch(expected: Pubkey, observed: Pubkey)

  datatype DecrementCountV1Ix = DecrementCountV1Ix(programId: Pubkey, owner: AccountMeta, counter: AccountMeta)

  /** `DecrementCountV1Ix::new`: the owner signs, the counter sits at its derived address. */
  function New(env: Env, programId: Pubkey, owner: Pubkey): (ix: DecrementCountV1Ix)
    ensures ix.programId == programId && ix.owner == SignerWritable(owner)
    ensures ix.counter == Writable(env.deriveCounter(programId, owner).0)
    ensures Validate(env, ix) == Ok(())
  {
    DecrementCountV1Ix(programId, SignerWritable(owner), Writable(env.deriveCounter(programId, owner).0))
  }

  /** `with_owner`: the owner meta is replaced and nothing else changes. */
  function WithOwner(ix: DecrementCountV1Ix, owner: AccountMeta): (r: DecrementCountV1Ix)
    ensures r.owner == owner && r.(owner := ix.owner) == ix
  {
    ix.(owner := owner)
  }

  /** `with_counter`: the counter meta is replaced and nothing else changes. */
  function WithCounter(ix: DecrementCountV1Ix, counter: AccountMeta): (r: DecrementCountV1Ix)
    ensures r.counter == counter && r.(counter := ix.counter) == ix
  {
    ix.(counter := counter)
  }

  /** The two setters touch different fields, so their order does not matter and the last write wins. */
  lemma SettersCommute(ix: DecrementCountV1Ix, o1: AccountMeta, o2: AccountMeta, c1: AccountMeta, c2: AccountMeta)
    ensures WithCounter(WithOwner(ix, o1), c1) == WithOwner(WithCounter(ix, c1), o1)
    ensures WithOwner(WithOwner(ix, o1), o2) == WithOwner(ix, o2)
    ensures WithCounter(WithCounter(ix, c1), c2) == WithCounter(ix, c2)
    ensures WithOwner(ix, ix.owner) == ix && WithCounter(ix, ix.counter) == ix
  {
  }

  /** Everything `validate` demands, regardless of the order it checks in. */
  predicate Valid(env: Env, ix: DecrementCountV1Ix)
  {
    ix.owner.isSigner && ix.owner.isWritable
    && ix.counter.pubkey == env.deriveCounter(ix.programId, ix.owner.pubkey).0
    && ix.counter.isWritable
  }

  /** `DecrementCountV1Ix::validate`: the first failing check names the error. */
  function Validate(env: Env, ix: DecrementCountV1Ix): (r: Result<(), DecrementCountV1IxError>)
    ensures r.Ok? <==> Valid(env, ix)
    ensures !ix.owner.isSigner ==> r == Err(OwnerMustBeSigner)
    ensures ix.owner.isSigner && !ix.owner.isWritable ==> r == Err(OwnerMustBeWriteable)
    ensures ix.owner.isSigner && ix.owner.isWritable
            && ix.counter.pubkey != env.deriveCounter(ix.programId, ix.owner.pubkey).0
            ==> r == Err(CounterAddressMismatch(env.deriveCounter(ix.programId, ix.owner.pubkey).0, ix.counter.pubkey))
    ensures ix.owner.isSigner && ix.owner.isWritable
            && ix.counter.pubkey == env.deriveCounter(ix.programId, ix.owner.pubkey).0
            && !ix.counter.isWritable
            ==> r == Err(CounterMustBeWriteable)
  {
    if !ix.owner.isSigner then Err(OwnerMustBeSigner)
    else if !ix.owner.isWritable then Err(OwnerMustBeWriteable)
    else
      var expected := env.deriveCounter(ix.programId, ix.owner.pubkey).0;
      if ix.counter.pubkey != expected then Err(CounterAddressMismatch(expected, ix.counter.pubkey))
      else if !ix.counter.isWritable then Err(CounterMustBeWriteable)
      else Ok(())
  }

  /** Pointing a fresh builder at any other counter is reported with both addresses. */
  lemma RedirectedCounterRejected(env: Env, programId: Pubkey, owner: Pubkey, other: AccountMeta)
    requires other.pubkey != env.deriveCounter(programId, owner).0
    ensures Validate(env, WithCounter(New(env, programId, owner), other))
            == Err(CounterAddressMismatch(env.deriveCounter(programId, owner).0, other.pubkey))
  {
  }

  /**
   * `DecrementCountV1Ix::to_instruction`: with `validate` set it fails with
   * `validate`'s error; otherwise it always builds [owner, counter] and the
   * lone decrement tag.
   */
  function ToInstruction(env: Env, ix: DecrementCountV1Ix, validate: bool): (r: Result<Instruction, DecrementCountV1IxError>)
    ensures r.Ok? <==> !validate || Valid(env, ix)
    ensures r.Err? ==> Err(r.error) == Validate(env, ix)
    ensures r.Ok? ==> r.value.programId == ix.programId
                      && r.value.accounts == [ix.owner, ix.counter]
                      && CID.Parse(r.value.data) == Ok((CID.DecrementCountV1, []))
  {
    if validate && Validate(env, ix).Err? then Err(Validate(env, ix).error)
    else
      CID.ParseTagged(CID.DecrementCountV1, []);
      Ok(Instruction(ix.programId, [ix.owner, ix.counter], [CID.ToByte(CID.DecrementCountV1)]))
  }

  /** `TryFrom<DecrementCountV1Ix> for Instruction`: builds only a valid instruction. */
  function TryFrom(env: Env, ix: DecrementCountV1Ix): (r: Result<Instruction, DecrementCountV1IxError>)
    ensures r.Ok? <==> Valid(env, ix)
    ensures r.Err? ==> Err(r.error) == Validate(env, ix)
    ensures r.Ok? ==> r.value.accounts == [ix.owner, ix.counter]
  {
    ToInstruction(env, ix, true)
  }

  /**
   * A valid instruction, sent for a counter the program owns, passes the
   * program's account checks and tag parse.
   */
  lemma AcceptedByProgram(env: Env, ix: DecrementCountV1Ix, ins: Instruction, states: seq<AccountState>)
    requires TryFrom(env, ix) == Ok(ins) && |states| == 2
    requires states[1].owner == ix.programId
    ensures CounterDecrement.ValidateAccounts(env, ins.programId, Views(ins.accounts, states)).Ok?
    ensures CID.Parse(ins.data) == Ok((CID.DecrementCountV1, []))
  {
  }
}
