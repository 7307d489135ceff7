// `DecrementCountV1`: validate [owner, counter] (no tag guard here), then
// re-check the decoded tag and the stored owner before subtracting one,
// saturating at zero.

module CounterDecrement {
  import opened Prims
  import opened Wrappers
  import opened Host
  import CAD = CounterAccountDiscriminator
  import opened CounterState

  datatype DecrementCountV1Error =
    | ProgramError(pe: Host.ProgramError)
    | NotEnoughAccounts(expectedLen: nat, observedLen: nat)
    | OwnerMustBeSigner
    | CounterMustBeWriteable
    | CounterAddressMismatch
    | CounterMustBeOwnedByProgram
    | DeserializeError
    | SerializeError
    | OwnerMismatch
    | SerializedSizeMismatch(expectedSize: nat, observedSize: nat)

  datatype DecrementCountV1Accounts = DecrementCountV1Accounts(owner: AccountView, counter: AccountView)

  predicate Accepts(env: Env, programId: Pubkey, a: seq<AccountView>)
  {
    |a| == 2 && a[0].isSigner && a[1].isWritable
    && a[1].key == env.deriveCounter(programId, a[0].key).0
    && a[1].owner == programId
  }

  /** `DecrementCountV1Accounts::try_from`. */
  function ValidateAccounts(env: Env, programId: Pubkey, a: seq<AccountView>)
    : (r: Result<DecrementCountV1Accounts, DecrementCountV1Error>)
    ensures r.Ok? <==> Accepts(env, programId, a)
    ensures r.Ok? ==> r.value == DecrementCountV1Accounts(a[0], a[1])
    ensures |a| != 2 ==> r == Err(NotEnoughAccounts(2, |a|))
    ensures |a| == 2 && !a[0].isSigner ==> r == Err(OwnerMustBeSigner)
    ensures |a| == 2 && a[0].isSigner && !a[1].isWritable ==> r == Err(CounterMustBeWriteable)
    ensures |a| == 2 && a[0].isSigner && a[1].isWritable
            && a[1].key != env.deriveCounter(programId, a[0].key).0
            ==> r == Err(CounterAddressMismatch)
    ensures |a| == 2 && a[0].isSigner && a[1].isWritable
            && a[1].key == env.deriveCounter(programId, a[0].key).0 && a[1].owner != programId
            ==> r == Err(CounterMustBeOwnedByProgram)
  {
    if |a| != 2 then Err(NotEnoughAccounts(2, |a|))
    else
      var owner, counter := a[0], a[1];
      if !owner.isSigner then Err(OwnerMustBeSigner)
      else
        var address := env.deriveCounter(programId, owner.key).0;
        if !counter.isWritable then Err(CounterMustBeWriteable)
        else if counter.key != address then Err(CounterAddressMismatch)
        else if counter.owner != programId then Err(CounterMustBeOwnedByProgram)
        else Ok(DecrementCountV1Accounts(owner, counter))
  }

  /** `DecrementCountV1::execute` on the signer and the counter. */
  function ExecuteSpec(owner: AccountView, counter: AccountView): (r: Result<AccountView, DecrementCountV1Error>)
    ensures r.Ok? <==> Deserialize(counter.data).Ok?
                       && Deserialize(counter.data).value.discriminator == CAD.CounterV1Account
                       && Deserialize(counter.data).value.owner == owner.key
    ensures Deserialize(counter.data).Err? ==> r == Err(DeserializeError)
    ensures Deserialize(counter.data).Ok? && Deserialize(counter.data).value.discriminator != CAD.CounterV1Account
            ==> r == Err(DeserializeError)
    ensures (Deserialize(counter.data).Ok? && Deserialize(counter.data).value.discriminator == CAD.CounterV1Account
             && Deserialize(counter.data).value.owner != owner.key) ==> r == Err(OwnerMismatch)
    ensures r.Ok? ==> var before := Deserialize(counter.data).value;
                      Deserialize(r.value.data) == Ok(before.(count := SaturatingSub(before.count, 1)))
    ensures r.Ok? ==> r.value == counter.(data := r.value.data) && |r.value.data| == |counter.data|
  {
    match Deserialize(counter.data)
    case Err(_) => Err(DeserializeError)
    case Ok(state) =>
      if state.discriminator != CAD.CounterV1Account then Err(DeserializeError)
      else if state.owner != owner.key then Err(OwnerMismatch)
      else
        var state' := state.(count := SaturatingSub(state.count, 1));
        var serialized := Serialize(state');
        var observed: nat := |serialized|;
        DeserializeSerialize(state');
        if observed != CAD.COUNTER_V1_SIZE then Err(SerializedSizeMismatch(CAD.COUNTER_V1_SIZE, observed))
        else Ok(counter.(data := serialized))
  }

  function Run(env: Env, programId: Pubkey, accounts: seq<AccountView>)
    : (r: Result<seq<AccountView>, DecrementCountV1Error>)
    ensures r.Ok? ==> Accepts(env, programId, accounts) && |r.value| == 2
  {
    match ValidateAccounts(env, programId, accounts)
    case Err(e) => Err(e)
    case Ok(v) =>
      match ExecuteSpec(v.owner, v.counter)
      case Err(e) => Err(e)
      case Ok(counter') => Ok([v.owner, counter'])
  }

  /**
   * A decrement succeeds exactly on an accepted, active counter that the
   * signer owns; the count drops by one above zero and stays at zero, and
   * only the count changes.
   */
  lemma RunDecrements(env: Env, programId: Pubkey, accounts: seq<AccountView>)
    requires Run(env, programId, accounts).Ok?
    ensures var after := Run(env, programId, accounts).value;
            var before := Deserialize(accounts[1].data).value;
            var now := Deserialize(after[1].data).value;
            before.owner == accounts[0].key && before.discriminator == CAD.CounterV1Account
            && now.count == (if before.count > 0 then before.count - 1 else 0)
            && now == before.(count := now.count)
            && after[0] == accounts[0] && after[1] == accounts[1].(data := after[1].data)
  {
  }

  /** A deactivated counter fails decoding and a valid counter of another owner fails the owner check. */
  lemma RejectsWithoutWriting(env: Env, programId: Pubkey, owner: AccountView, counter: AccountView)
    requires Accepts(env, programId, [owner, counter])
    ensures counter.data == [CAD.ToByte(CAD.DeactivatedAccount)]
            ==> Run(env, programId, [owner, counter]) == Err(DeserializeError)
    ensures Deserialize(counter.data).Ok? && Deserialize(counter.data).value.discriminator == CAD.CounterV1Account
            && Deserialize(counter.data).value.owner != owner.key
            ==> Run(env, programId, [owner, counter]) == Err(OwnerMismatch)
  {
  }

  /** `DecrementCountV1::execute`, overwriting the counter's buffer in place. */
  method Execute(owner: Account, counter: Account) returns (r: Result<(), DecrementCountV1Error>)
    modifies counter
    ensures Applied1(r, ExecuteSpec(old(owner.View()), old(counter.View())), counter, old(counter.View()))
  {
    var decoded := Deserialize(counter.data);
    if decoded.Err? {
      return Err(DeserializeError);
    }
    var state := decoded.value;
    if state.discriminator != CAD.CounterV1Account {
      return Err(DeserializeError);
    }
    if state.owner != owner.key {
      return Err(OwnerMismatch);
    }
    state := state.(count := SaturatingSub(state.count, 1));
    var serialized := Serialize(state);
    var observed: nat := |serialized|;
    if observed != CAD.COUNTER_V1_SIZE {
      return Err(SerializedSizeMismatch(CAD.COUNTER_V1_SIZE, observed));
    }
    counter.data := serialized;
    return Ok(());
  }
}
