// `IncrementCountV1`: validate [owner, counter] including the active-record
// tag guard, then add one to the stored count, saturating at `u64::MAX`.

module CounterIncrement {
  import opened Prims
  import opened Wrappers
  import opened Host
  import CAD = CounterAccountDiscriminator
  import opened CounterState

  datatype IncrementCountV1Error =
    | ProgramError(pe: Host.ProgramError)
    | NotEnoughAccounts(expectedLen: nat, observedLen: nat)
    | OwnerMustBeSigner
    | CounterMustBeWriteable
    | CounterAddressMismatch(expected: Pubkey, observed: Pubkey)
    | CounterMustBeOwnedByProgram
    | DeserializeError
    | SerializeError
    | SerializedSizeMismatch(expectedSize: nat, observedSize: nat)
    | AccountDiscriminatorError(err: CAD.AccountDiscriminatorError)

  datatype IncrementCountV1Accounts = IncrementCountV1Accounts(owner: AccountView, counter: AccountView)

  predicate Accepts(env: Env, programId: Pubkey, a: seq<AccountView>)
  {
    |a| == 2 && a[0].isSigner && a[1].isWritable
    && a[1].key == env.deriveCounter(programId, a[0].key).0
    && a[1].owner == programId
    && CAD.Check(CAD.CounterV1Account, a[1].data).Ok?
  }

  /** `IncrementCountV1Accounts::try_from`. */
  function ValidateAccounts(env: Env, programId: Pubkey, a: seq<AccountView>)
    : (r: Result<IncrementCountV1Accounts, IncrementCountV1Error>)
    ensures r.Ok? <==> Accepts(env, programId, a)
    ensures r.Ok? ==> r.value == IncrementCountV1Accounts(a[0], a[1])
    ensures |a| != 2 ==> r == Err(NotEnoughAccounts(2, |a|))
    ensures |a| == 2 && !a[0].isSigner ==> r == Err(OwnerMustBeSigner)
    ensures |a| == 2 && a[0].isSigner && !a[1].isWritable ==> r == Err(CounterMustBeWriteable)
    ensures |a| == 2 && a[0].isSigner && a[1].isWritable
            && a[1].key != env.deriveCounter(programId, a[0].key).0
            ==> r == Err(CounterAddressMismatch(env.deriveCounter(programId, a[0].key).0, a[1].key))
    ensures |a| == 2 && a[0].isSigner && a[1].isWritable
            && a[1].key == env.deriveCounter(programId, a[0].key).0
            ==> (a[1].owner != programId ==> r == Err(CounterMustBeOwnedByProgram))
                && (a[1].owner == programId && CAD.Check(CAD.CounterV1Account, a[1].data).Err?
                    ==> r == Err(AccountDiscriminatorError(CAD.Check(CAD.CounterV1Account, a[1].data).error)))
  {
    if |a| != 2 then Err(NotEnoughAccounts(2, |a|))
    else
      var owner, counter := a[0], a[1];
      if !owner.isSigner then Err(OwnerMustBeSigner)
      else if !counter.isWritable then Err(CounterMustBeWriteable)
      else
        var expected := env.deriveCounter(programId, owner.key).0;
        if counter.key != expected then Err(CounterAddressMismatch(expected, counter.key))
        else if counter.owner != programId then Err(CounterMustBeOwnedByProgram)
        else match CAD.Check(CAD.CounterV1Account, counter.data)
          case Err(e) => Err(AccountDiscriminatorError(e))
          case Ok(_) => Ok(IncrementCountV1Accounts(owner, counter))
  }

  /** `IncrementCountV1::execute` on the counter account. */
  function ExecuteSpec(counter: AccountView): (r: Result<AccountView, IncrementCountV1Error>)
    ensures r.Ok? <==> Deserialize(counter.data).Ok?
    ensures r.Err? ==> r.error == DeserializeError
    ensures r.Ok? ==> var before := Deserialize(counter.data).value;
                      Deserialize(r.value.data) == Ok(before.(count := SaturatingAdd(before.count, 1)))
    ensures r.Ok? ==> r.value == counter.(data := r.value.data) && |r.value.data| == |counter.data|
  {
    match Deserialize(counter.data)
    case Err(_) => Err(DeserializeError)
    case Ok(state) =>
      var state' := state.(count := SaturatingAdd(state.count, 1));
      var serialized := Serialize(state');
      var observed: nat := |serialized|;
      DeserializeSerialize(state');
      if observed != CAD.COUNTER_V1_SIZE then Err(SerializedSizeMismatch(CAD.COUNTER_V1_SIZE, observed))
      else Ok(counter.(data := serialized))
  }

  function Run(env: Env, programId: Pubkey, accounts: seq<AccountView>)
    : (r: Result<seq<AccountView>, IncrementCountV1Error>)
    ensures r.Ok? ==> Accepts(env, programId, accounts) && |r.value| == 2
  {
    match ValidateAccounts(env, programId, accounts)
    case Err(e) => Err(e)
    case Ok(v) =>
      match ExecuteSpec(v.counter)
      case Err(e) => Err(e)
      case Ok(counter') => Ok([v.owner, counter'])
  }

  /**
   * An accepted increment always succeeds: the count grows by one below
   * `u64::MAX` and stays at `u64::MAX`; tag, owner, bump and reserved bytes,
   * the lamports and the owner account are untouched.
   */
  lemma RunIncrements(env: Env, programId: Pubkey, accounts: seq<AccountView>)
    requires Accepts(env, programId, accounts)
    ensures Run(env, programId, accounts).Ok?
    ensures var after := Run(env, programId, accounts).value;
            var before := Deserialize(accounts[1].data).value;
            var now := Deserialize(after[1].data).value;
            now.count == (if before.count < U64_MAX then before.count + 1 else U64_MAX)
            && now.owner == before.owner && now.bump == before.bump && now.reserved == before.reserved
            && now.discriminator == CAD.CounterV1Account
            && after[0] == accounts[0] && after[1].lamports == accounts[1].lamports
            && after[1].owner == accounts[1].owner && after[1].key == accounts[1].key
  {
    var d := accounts[1].data;
    assert Deserialize(d).Ok? by { assert |d| == CAD.COUNTER_V1_SIZE && d[0] == 1; }
  }

  /** A deactivated or retagged counter fails the tag guard, so nothing is written. */
  lemma RejectsInactiveCounter(env: Env, programId: Pubkey, owner: AccountView, counter: AccountView)
    requires owner.isSigner && counter.isWritable && counter.owner == programId
    requires counter.key == env.deriveCounter(programId, owner.key).0
    requires |counter.data| > 0 && counter.data[0] != CAD.ToByte(CAD.CounterV1Account)
    ensures Run(env, programId, [owner, counter]).Err?
    ensures Run(env, programId, [owner, counter]).error.AccountDiscriminatorError?
    ensures counter.data == [CAD.ToByte(CAD.DeactivatedAccount)] ==>
              Run(env, programId, [owner, counter])
              == Err(AccountDiscriminatorError(CAD.DiscriminatorMismatch(CAD.CounterV1Account, CAD.DeactivatedAccount)))
  {
  }

  /**
   * There is no stored-owner check: a signer other than the counter's owner
   * is stopped only because the counter is not at the signer's own derived address.
   */
  lemma ForeignSignerRejectedByAddress(env: Env, programId: Pubkey, intruder: AccountView,
                                       counter: AccountView, realOwner: Pubkey)
    requires intruder.isSigner && counter.isWritable
    requires counter.key == env.deriveCounter(programId, realOwner).0
    requires env.deriveCounter(programId, intruder.key).0 != env.deriveCounter(programId, realOwner).0
    ensures Run(env, programId, [intruder, counter])
            == Err(CounterAddressMismatch(env.deriveCounter(programId, intruder.key).0, counter.key))
  {
  }

  /** `IncrementCountV1::execute`, overwriting the counter's buffer in place. */
  method Execute(counter: Account) returns (r: Result<(), IncrementCountV1Error>)
    modifies counter
    ensures Applied1(r, ExecuteSpec(old(counter.View())), counter, old(counter.View()))
  {
    var decoded := Deserialize(counter.data);
    if decoded.Err? {
      return Err(DeserializeError);
    }
    var state := decoded.value;
    state := state.(count := SaturatingAdd(state.count, 1));
    var serialized := Serialize(state);
    var observed: nat := |serialized|;
    if observed != CAD.COUNTER_V1_SIZE {
      return Err(SerializedSizeMismatch(CAD.COUNTER_V1_SIZE, observed));
    }
    counter.data := serialized;
    return Ok(());
  }
}
