// `SetCountV1`: validate [owner, counter] (the owner must also be writable),
// decode the eight-byte argument, then overwrite the stored count.

module CounterSetCount {
  import opened Prims
  import opened Wrappers
  import opened Host
  import CAD = CounterAccountDiscriminator
  import opened CounterState

  /** `SetCountV1Args`: one little-endian `u64`. */
  datatype SetCountV1Args = SetCountV1Args(count: u64)

  const SET_COUNT_V1_ARGS_SIZE: nat := 8

  /** The argument bytes a client writes after the instruction tag. */
  function SerializeArgs(a: SetCountV1Args): (r: seq<u8>)
    ensures |r| == SET_COUNT_V1_ARGS_SIZE && U64FromLe(r) == a.count
  {
    U64LeRoundTrip(a.count);
    U64ToLe(a.count)
  }

  /** `SetCountV1Args::deserialize`: exactly eight bytes. */
  function DeserializeArgs(src: seq<u8>): (r: Result<SetCountV1Args, ReadError>)
    ensures r.Ok? <==> |src| == SET_COUNT_V1_ARGS_SIZE
    ensures r.Ok? ==> SerializeArgs(r.value) == src
  {
    if |src| != SET_COUNT_V1_ARGS_SIZE then Err(ReadError)
    else
      U64LeRoundTripBytes(src);
      Ok(SetCountV1Args(U64FromLe(src)))
  }

  /** The argument codec round-trips and distinct counts have distinct encodings. */
  lemma ArgsRoundTrip(a: SetCountV1Args, b: SetCountV1Args)
    ensures DeserializeArgs(SerializeArgs(a)) == Ok(a)
    ensures SerializeArgs(a) == SerializeArgs(b) ==> a == b
  {
  }

  datatype SetCountV1Error =
    | ProgramError(pe: Host.ProgramError)
    | NotEnoughAccounts(expectedLen: nat, observedLen: nat)
    | OwnerMustBeSigner
    | OwnerMustBeWritable
    | CounterMustBeWriteable
    | CounterAddressMismatch
    | CounterMustBeOwnedByProgram
    | DeserializeError
    | SerializeError
    | OwnerMismatch
    | SerializedSizeMismatch(expectedSize: nat, observedSize: nat)

  datatype SetCountV1Accounts = SetCountV1Accounts(owner: AccountView, counter: AccountView, counterBump: u8)

  predicate Accepts(env: Env, programId: Pubkey, a: seq<AccountView>)
  {
    |a| == 2 && a[0].isSigner && a[0].isWritable && a[1].isWritable
    && a[1].key == env.deriveCounter(programId, a[0].key).0
    && a[1].owner == programId
  }

  /** `SetCountV1Accounts::try_from`. */
  function ValidateAccounts(env: Env, programId: Pubkey, a: seq<AccountView>)
    : (r: Result<SetCountV1Accounts, SetCountV1Error>)
    ensures r.Ok? <==> Accepts(env, programId, a)
    ensures r.Ok? ==> r.value == SetCountV1Accounts(a[0], a[1], env.deriveCounter(programId, a[0].key).1)
    ensures |a| != 2 ==> r == Err(NotEnoughAccounts(2, |a|))
    ensures |a| == 2 && !a[0].isSigner ==> r == Err(OwnerMustBeSigner)
    ensures |a| == 2 && a[0].isSigner && !a[0].isWritable ==> r == Err(OwnerMustBeWritable)
    ensures |a| == 2 && a[0].isSigner && a[0].isWritable && !a[1].isWritable ==> r == Err(CounterMustBeWriteable)
    ensures |a| == 2 && a[0].isSigner && a[0].isWritable && a[1].isWritable
            && a[1].key != env.deriveCounter(programId, a[0].key).0
            ==> r == Err(CounterAddressMismatch)
    ensures |a| == 2 && a[0].isSigner && a[0].isWritable && a[1].isWritable
            && a[1].key == env.deriveCounter(programId, a[0].key).0 && a[1].owner != programId
            ==> r == Err(CounterMustBeOwnedByProgram)
  {
    if |a| != 2 then Err(NotEnoughAccounts(2, |a|))
    else
      var owner, counter := a[0], a[1];
      if !owner.isSigner then Err(OwnerMustBeSigner)
      else if !owner.isWritable then Err(OwnerMustBeWritable)
      else
        var (address, bump) := env.deriveCounter(programId, owner.key);
        if !counter.isWritable then Err(CounterMustBeWriteable)
        else if counter.key != address then Err(CounterAddressMismatch)
        else if counter.owner != programId then Err(CounterMustBeOwnedByProgram)
        else Ok(SetCountV1Accounts(owner, counter, bump))
  }

  /** `SetCountV1::try_from`: the accounts first, then the arguments. */
  function Parse(env: Env, programId: Pubkey, a: seq<AccountView>, args: seq<u8>)
    : (r: Result<(SetCountV1Accounts, SetCountV1Args), SetCountV1Error>)
    ensures ValidateAccounts(env, programId, a).Err? ==> r == Err(ValidateAccounts(env, programId, a).error)
    ensures ValidateAccounts(env, programId, a).Ok? && |args| != SET_COUNT_V1_ARGS_SIZE ==> r == Err(DeserializeError)
    ensures r.Ok? <==> Accepts(env, programId, a) && |args| == SET_COUNT_V1_ARGS_SIZE
    ensures r.Ok? ==> SerializeArgs(r.value.1) == args
  {
    match ValidateAccounts(env, programId, a)
    case Err(e) => Err(e)
    case Ok(v) =>
      match DeserializeArgs(args)
      case Err(_) => Err(DeserializeError)
      case Ok(x) => Ok((v, x))
  }

  /** `SetCountV1::execute` on the signer and the counter. */
  function ExecuteSpec(owner: AccountView, counter: AccountView, args: SetCountV1Args)
    : (r: Result<AccountView, SetCountV1Error>)
    ensures r.Ok? <==> Deserialize(counter.data).Ok?
                       && Deserialize(counter.data).value.discriminator == CAD.CounterV1Account
                       && Deserialize(counter.data).value.owner == owner.key
    ensures Deserialize(counter.data).Err? ==> r == Err(DeserializeError)
    ensures Deserialize(counter.data).Ok? && Deserialize(counter.data).value.discriminator != CAD.CounterV1Account
            ==> r == Err(DeserializeError)
    ensures (Deserialize(counter.data).Ok? && Deserialize(counter.data).value.discriminator == CAD.CounterV1Account
             && Deserialize(counter.data).value.owner != owner.key) ==> r == Err(OwnerMismatch)
    ensures r.Ok? ==> Deserialize(r.value.data) == Ok(Deserialize(counter.data).value.(count := args.count))
    ensures r.Ok? ==> r.value == counter.(data := r.value.data) && |r.value.data| == |counter.data|
  {
    match Deserialize(counter.data)
    case Err(_) => Err(DeserializeError)
    case Ok(state) =>
      if state.discriminator != CAD.CounterV1Account then Err(DeserializeError)
      else if state.owner != owner.key then Err(OwnerMismatch)
      else
        var state' := state.(count := args.count);
        var serialized := Serialize(state');
        var observed: nat := |serialized|;
        DeserializeSerialize(state');
        if observed != CAD.COUNTER_V1_SIZE then Err(SerializedSizeMismatch(CAD.COUNTER_V1_SIZE, observed))
        else Ok(counter.(data := serialized))
  }

  function Run(env: Env, programId: Pubkey, accounts: seq<AccountView>, args: seq<u8>)
    : (r: Result<seq<AccountView>, SetCountV1Error>)
    ensures r.Ok? ==> Accepts(env, programId, accounts) && |args| == SET_COUNT_V1_ARGS_SIZE && |r.value| == 2
  {
    match Parse(env, programId, accounts, args)
    case Err(e) => Err(e)
    case Ok((v, x)) =>
      match ExecuteSpec(v.owner, v.counter, x)
      case Err(e) => Err(e)
      case Ok(counter') => Ok([v.owner, counter'])
  }

  /**
   * A successful set stores exactly the count the client encoded, and every
   * other field of the record is kept.
   */
  lemma RunSetsCount(env: Env, programId: Pubkey, accounts: seq<AccountView>, n: u64)
    requires Run(env, programId, accounts, SerializeArgs(SetCountV1Args(n))).Ok?
    ensures var after := Run(env, programId, accounts, SerializeArgs(SetCountV1Args(n))).value;
            var before := Deserialize(accounts[1].data).value;
            Deserialize(after[1].data) == Ok(before.(count := n))
            && before.owner == accounts[0].key
            && after[0] == accounts[0] && after[1] == accounts[1].(data := after[1].data)
  {
    ArgsRoundTrip(SetCountV1Args(n), SetCountV1Args(n));
  }

  /** Setting the count twice leaves the record of the second set, and setting the stored count changes nothing. */
  lemma SetCountOverwrites(owner: AccountView, counter: AccountView, m: u64, n: u64)
    requires ExecuteSpec(owner, counter, SetCountV1Args(m)).Ok?
    ensures var once := ExecuteSpec(owner, counter, SetCountV1Args(m)).value;
            ExecuteSpec(owner, once, SetCountV1Args(n)) == ExecuteSpec(owner, counter, SetCountV1Args(n))
    ensures ExecuteSpec(owner, counter, SetCountV1Args(Deserialize(counter.data).value.count)) == Ok(counter)
  {
    var before := Deserialize(counter.data).value;
    var once := ExecuteSpec(owner, counter, SetCountV1Args(m)).value;
    DeserializeSerialize(before.(count := n));
    assert before.(count := m).(count := n) == before.(count := n);
    DeserializeSerialize(before);
  }

  /** Bad argument bytes are reported only once the accounts pass. */
  lemma AccountsCheckedBeforeArgs(env: Env, programId: Pubkey, accounts: seq<AccountView>, args: seq<u8>)
    requires |args| != SET_COUNT_V1_ARGS_SIZE
    ensures |accounts| != 2 ==> Run(env, programId, accounts, args) == Err(NotEnoughAccounts(2, |accounts|))
    ensures Accepts(env, programId, accounts) ==> Run(env, programId, accounts, args) == Err(DeserializeError)
  {
  }

  /** `SetCountV1::execute`, overwriting the counter's buffer in place. */
  method Execute(owner: Account, counter: Account, args: SetCountV1Args) returns (r: Result<(), SetCountV1Error>)
    modifies counter
    ensures Applied1(r, ExecuteSpec(old(owner.View()), old(counter.View()), args), counter, old(counter.View()))
  {
    var decoded := Deserialize(counter.data);
    if decoded.Err? {
      return Err(DeserializeError);
    }
    var state := decoded.value;
    if state.discriminator != CAD.CounterV1Account {
      return Err(DeserializeError);
    }
    if state.owner != owner.key {
      return Err(OwnerMismatch);
    }
    state := state.(count := args.count);
    var serialized := Serialize(state);
    var observed: nat := |serialized|;
    if observed != CAD.COUNTER_V1_SIZE {
      return Err(SerializedSizeMismatch(CAD.COUNTER_V1_SIZE, observed));
    }
    counter.data := serialized;
    return Ok(());
  }
}
