// The older `CreateCounterV1`: the same account checks as initialization,
// reported as flat `CounterError`s, and a record built from `Default`.

module CounterCreate {
  import opened Prims
  import opened Wrappers
  import opened Host
  import CAD = CounterAccountDiscriminator
  import opened CounterState
  import opened CounterErrors

  datatype CreateCounterV1Accounts = CreateCounterV1Accounts(
    payer: AccountView, counter: AccountView, counterBump: u8, systemProgram: AccountView)

  predicate Accepts(env: Env, programId: Pubkey, a: seq<AccountView>)
  {
    |a| == 3 && a[0].isSigner && a[1].isWritable
    && a[1].key == env.deriveCounter(programId, a[0].key).0
    && |a[1].data| == 0 && a[1].lamports == 0 && a[1].owner == SystemProgramId()
    && a[2].key == SystemProgramId()
  }

  /** `CreateCounterV1Accounts::try_from`. */
  function ValidateAccounts(env: Env, programId: Pubkey, a: seq<AccountView>)
    : (r: Result<CreateCounterV1Accounts, CounterError>)
    ensures r.Ok? <==> Accepts(env, programId, a)
    ensures r.Ok? ==> r.value == CreateCounterV1Accounts(
                        a[0], a[1], env.deriveCounter(programId, a[0].key).1, a[2])
    ensures |a| != 3 ==> r == Err(NotEnoughAccounts(3, |a|))
    ensures |a| == 3 && !a[0].isSigner ==> r == Err(PayerMustBeSigner)
    ensures |a| == 3 && a[0].isSigner && !a[1].isWritable ==> r == Err(CounterMustBeWriteable)
    ensures |a| == 3 && a[0].isSigner && a[1].isWritable
            && a[1].key != env.deriveCounter(programId, a[0].key).0
            ==> r == Err(CounterAddressMismatch)
    ensures |a| == 3 && a[0].isSigner && a[1].isWritable
            && a[1].key == env.deriveCounter(programId, a[0].key).0
            ==> (|a[1].data| != 0 ==> r == Err(CounterMustBeEmpty))
                && (|a[1].data| == 0 && a[1].lamports > 0 ==> r == Err(CounterMustHaveZeroLamports))
                && ((|a[1].data| == 0 && a[1].lamports == 0 && a[1].owner != SystemProgramId())
                    ==> r == Err(CounterMustBeOwnedBySystemProgram))
                && ((|a[1].data| == 0 && a[1].lamports == 0 && a[1].owner == SystemProgramId()
                     && a[2].key != SystemProgramId()) ==> r == Err(SystemProgramAddressMismatch))
  {
    if |a| != 3 then Err(NotEnoughAccounts(3, |a|))
    else
      var payer, counter, systemProgram := a[0], a[1], a[2];
      if !payer.isSigner then Err(PayerMustBeSigner)
      else
        var (address, bump) := env.deriveCounter(programId, payer.key);
        if !counter.isWritable then Err(CounterMustBeWriteable)
        else if counter.key != address then Err(CounterAddressMismatch)
        else if |counter.data| != 0 then Err(CounterMustBeEmpty)
        else if counter.lamports > 0 then Err(CounterMustHaveZeroLamports)
        else if counter.owner != SystemProgramId() then Err(CounterMustBeOwnedBySystemProgram)
        else if systemProgram.key != SystemProgramId() then Err(SystemProgramAddressMismatch)
        else Ok(CreateCounterV1Accounts(payer, counter, bump, systemProgram))
  }

  /** `CounterV1 { owner, bump, ..Default::default() }`. */
  function InitialState(owner: Pubkey, bump: u8): (c: CounterV1)
    ensures c == Default().(owner := owner, bump := bump)
    ensures c.discriminator == CAD.CounterV1Account && c.count == 0 && c.reserved == ZeroBytes(RESERVED_SIZE)
  {
    Default().(owner := owner, bump := bump)
  }

  /** `CreateCounterV1::execute`; its errors are already `ProgramError`s. */
  function ExecuteSpec(env: Env, programId: Pubkey, payer: AccountView, counter: AccountView, bump: u8)
    : (r: Result<(AccountView, AccountView), Host.ProgramError>)
    ensures r.Ok? <==> CreateAccountSpec(payer, counter, CAD.COUNTER_V1_SIZE, programId, env.rentMin(CAD.COUNTER_V1_SIZE)).Ok?
    ensures r.Err? ==> r == CreateAccountSpec(payer, counter, CAD.COUNTER_V1_SIZE, programId, env.rentMin(CAD.COUNTER_V1_SIZE))
    ensures r.Ok? ==> Deserialize(r.value.1.data) == Ok(InitialState(payer.key, bump))
    ensures r.Ok? ==> r.value.1.owner == programId && r.value.1.key == counter.key
    ensures r.Ok? ==> r.value.1.lamports >= env.rentMin(CAD.COUNTER_V1_SIZE)
    ensures r.Ok? ==> r.value.0.lamports + r.value.1.lamports == payer.lamports + counter.lamports
  {
    match CreateAccountSpec(payer, counter, CAD.COUNTER_V1_SIZE, programId, env.rentMin(CAD.COUNTER_V1_SIZE))
    case Err(pe) => Err(pe)
    case Ok((payer', counter')) =>
      var serialized := Serialize(InitialState(payer.key, bump));
      var observed: nat := |serialized|;
      DeserializeSerialize(InitialState(payer.key, bump));
      if observed != CAD.COUNTER_V1_SIZE then
        Err(ToProgramError(SerializedSizeMismatch(CAD.COUNTER_V1_SIZE, observed)))
      else
        Ok((payer', counter'.(data := serialized)))
  }

  /** The older instruction's `try_from` and `execute`, with validation errors exported as codes. */
  function Run(env: Env, programId: Pubkey, accounts: seq<AccountView>)
    : (r: Result<seq<AccountView>, Host.ProgramError>)
    ensures !Accepts(env, programId, accounts)
            ==> r.Err? && r.error == ToProgramError(ValidateAccounts(env, programId, accounts).error)
  {
    match ValidateAccounts(env, programId, accounts)
    case Err(e) => Err(ToProgramError(e))
    case Ok(v) =>
      match ExecuteSpec(env, programId, v.payer, v.counter, v.counterBump)
      case Err(e) => Err(e)
      case Ok((payer', counter')) => Ok([payer', counter', v.systemProgram])
  }

  /** The record built from `Default` is the fresh record: tag 1, count 0, zeroed reserved bytes. */
  lemma SameRecordAsDefault(owner: Pubkey, bump: u8)
    ensures Serialize(InitialState(owner, bump))
            == Serialize(CounterV1(CAD.CounterV1Account, owner, bump, 0, ZeroBytes(RESERVED_SIZE)))
  {
  }

  /** `CreateCounterV1::execute`, mutating the two accounts in place. */
  method Execute(env: Env, programId: Pubkey, payer: Account, counter: Account, bump: u8)
    returns (r: Result<(), Host.ProgramError>)
    requires payer != counter
    modifies payer, counter
    ensures Applied2(r, ExecuteSpec(env, programId, old(payer.View()), old(counter.View()), bump),
                     payer, counter, old(payer.View()), old(counter.View()))
  {
    r := CreateAccount(env, counter, CAD.COUNTER_V1_SIZE, programId, payer);
    if r.Err? {
      return;
    }
    var serialized := Serialize(InitialState(payer.key, bump));
    var observed: nat := |serialized|;
    if observed != CAD.COUNTER_V1_SIZE {
      return Err(ToProgramError(SerializedSizeMismatch(CAD.COUNTER_V1_SIZE, observed)));
    }
    counter.data := serialized;
    return Ok(());
  }
}
