// `InitializeCounterV1`: validate [payer, counter, system program], then
// create the counter at its derived address and write a fresh record.

module CounterInitialize {
  import opened Prims
  import opened Wrappers
  import opened Host
  import CAD = CounterAccountDiscriminator
  import opened CounterState

  datatype InitializeCounterV1Error =
    | ProgramError(pe: Host.ProgramError)
    | NotEnoughAccounts(expectedLen: nat, observedLen: nat)
    | PayerMustBeSigner
    | CounterMustBeWriteable
    | CounterAddressMismatch(expected: Pubkey, observed: Pubkey)
    | CounterMustBeEmpty
    | CounterMustHaveZeroLamports
    | CounterMustBeOwnedBySystemProgram
    | SystemProgramAddressMismatch
    | DeserializeError
    | SerializeError
    | SerializedSizeMismatch(expectedSize: nat, observedSize: nat)

  /** The validated accounts and the bump of the counter's derived address. */
  datatype InitializeCounterV1Accounts = InitializeCounterV1Accounts(
    payer: AccountView, counter: AccountView, counterBump: u8, systemProgram: AccountView)

  /** Everything a valid account list satisfies, regardless of the order checks run in. */
  predicate Accepts(env: Env, programId: Pubkey, a: seq<AccountView>)
  {
    |a| == 3 && a[0].isSigner && a[1].isWritable
    && a[1].key == env.deriveCounter(programId, a[0].key).0
    && |a[1].data| == 0 && a[1].lamports == 0 && a[1].owner == SystemProgramId()
    && a[2].key == SystemProgramId()
  }

  /** `InitializeCounterV1Accounts::try_from`. */
  function ValidateAccounts(env: Env, programId: Pubkey, a: seq<AccountView>)
    : (r: Result<InitializeCounterV1Accounts, InitializeCounterV1Error>)
    ensures r.Ok? <==> Accepts(env, programId, a)
    ensures r.Ok? ==> r.value == InitializeCounterV1Accounts(
                        a[0], a[1], env.deriveCounter(programId, a[0].key).1, a[2])
    ensures |a| != 3 ==> r == Err(NotEnoughAccounts(3, |a|))
    ensures |a| == 3 && !a[0].isSigner ==> r == Err(PayerMustBeSigner)
    ensures |a| == 3 && a[0].isSigner && !a[1].isWritable ==> r == Err(CounterMustBeWriteable)
    ensures |a| == 3 && a[0].isSigner && a[1].isWritable
            && a[1].key != env.deriveCounter(programId, a[0].key).0
            ==> r == Err(CounterAddressMismatch(env.deriveCounter(programId, a[0].key).0, a[1].key))
    ensures |a| == 3 && a[0].isSigner && a[1].isWritable
            && a[1].key == env.deriveCounter(programId, a[0].key).0
            ==> (|a[1].data| != 0 ==> r == Err(CounterMustBeEmpty))
                && (|a[1].data| == 0 && a[1].lamports > 0 ==> r == Err(CounterMustHaveZeroLamports))
                && (|a[1].data| == 0 && a[1].lamports == 0 && a[1].owner != SystemProgramId()
                    ==> r == Err(CounterMustBeOwnedBySystemProgram))
                && ((|a[1].data| == 0 && a[1].lamports == 0 && a[1].owner == SystemProgramId()
                     && a[2].key != SystemProgramId()) ==> r == Err(SystemProgramAddressMismatch))
  {
    if |a| != 3 then Err(NotEnoughAccounts(3, |a|))
    else
      var payer, counter, systemProgram := a[0], a[1], a[2];
      if !payer.isSigner then Err(PayerMustBeSigner)
      else if !counter.isWritable then Err(CounterMustBeWriteable)
      else
        var (expected, bump) := env.deriveCounter(programId, payer.key);
        if counter.key != expected then Err(CounterAddressMismatch(expected, counter.key))
        else if |counter.data| != 0 then Err(CounterMustBeEmpty)
        else if counter.lamports > 0 then Err(CounterMustHaveZeroLamports)
        else if counter.owner != SystemProgramId() then Err(CounterMustBeOwnedBySystemProgram)
        else if systemProgram.key != SystemProgramId() then Err(SystemProgramAddressMismatch)
        else Ok(InitializeCounterV1Accounts(payer, counter, bump, systemProgram))
  }

  /** The record a new counter starts with. */
  function FreshCounter(owner: Pubkey, bump: u8): CounterV1
  {
    CounterV1(CAD.CounterV1Account, owner, bump, 0, ZeroBytes(RESERVED_SIZE))
  }

  /** `InitializeCounterV1::execute` on the payer and counter. */
  function ExecuteSpec(env: Env, programId: Pubkey, payer: AccountView, counter: AccountView, bump: u8)
    : (r: Result<(AccountView, AccountView), InitializeCounterV1Error>)
    ensures r.Ok? <==> CreateAccountSpec(payer, counter, CAD.COUNTER_V1_SIZE, programId, env.rentMin(CAD.COUNTER_V1_SIZE)).Ok?
    ensures r.Err? ==> r.error.ProgramError?
    ensures r.Ok? ==> Deserialize(r.value.1.data) == Ok(FreshCounter(payer.key, bump))
    ensures r.Ok? ==> r.value.1 == counter.(owner := programId, lamports := r.value.1.lamports,
                                            data := Serialize(FreshCounter(payer.key, bump)))
    ensures r.Ok? ==> r.value.1.lamports >= env.rentMin(CAD.COUNTER_V1_SIZE)
    ensures r.Ok? ==> r.value.0 == payer.(lamports := r.value.0.lamports)
    ensures r.Ok? ==> r.value.0.lamports + r.value.1.lamports == payer.lamports + counter.lamports
  {
    match CreateAccountSpec(payer, counter, CAD.COUNTER_V1_SIZE, programId, env.rentMin(CAD.COUNTER_V1_SIZE))
    case Err(pe) => Err(ProgramError(pe))
    case Ok((payer', counter')) =>
      var serialized := Serialize(FreshCounter(payer.key, bump));
      var observed: nat := |serialized|;
      DeserializeSerialize(FreshCounter(payer.key, bump));
      if observed != CAD.COUNTER_V1_SIZE then
        Err(SerializedSizeMismatch(CAD.COUNTER_V1_SIZE, observed))
      else
        Ok((payer', counter'.(data := serialized)))
  }

  /** `try_from` followed by `execute`; the result is the new account list. */
  function Run(env: Env, programId: Pubkey, accounts: seq<AccountView>)
    : (r: Result<seq<AccountView>, InitializeCounterV1Error>)
    ensures r.Ok? ==> Accepts(env, programId, accounts) && |r.value| == 3
  {
    match ValidateAccounts(env, programId, accounts)
    case Err(e) => Err(e)
    case Ok(v) =>
      match ExecuteSpec(env, programId, v.payer, v.counter, v.counterBump)
      case Err(e) => Err(e)
      case Ok((payer', counter')) => Ok([payer', counter', v.systemProgram])
  }

  /**
   * A successful initialization leaves the counter at the payer's derived
   * address, owned by the program, rent-exempt, and holding tag 1, the payer
   * as owner, the derived bump, count 0 and zeroed reserved bytes.
   */
  lemma RunCreatesCounter(env: Env, programId: Pubkey, accounts: seq<AccountView>)
    requires Run(env, programId, accounts).Ok?
    ensures var after := Run(env, programId, accounts).value;
            var (address, bump) := env.deriveCounter(programId, accounts[0].key);
            after[1].key == address && after[1].owner == programId
            && after[1].lamports >= env.rentMin(CAD.COUNTER_V1_SIZE)
            && Deserialize(after[1].data) == Ok(CounterV1(CAD.CounterV1Account, accounts[0].key, bump, 0, ZeroBytes(RESERVED_SIZE)))
            && after[0].lamports + after[1].lamports == accounts[0].lamports + accounts[1].lamports
            && after[2] == accounts[2]
  {
  }

  /** A counter that already holds data, active or deactivated, cannot be initialized again. */
  lemma RejectsExistingCounter(env: Env, programId: Pubkey, payer: AccountView, counter: AccountView,
                               systemProgram: AccountView, c: CounterV1)
    requires payer.isSigner && counter.isWritable
    requires counter.key == env.deriveCounter(programId, payer.key).0
    requires counter.data == Serialize(c) || counter.data == [CAD.ToByte(CAD.DeactivatedAccount)]
    ensures Run(env, programId, [payer, counter, systemProgram]) == Err(CounterMustBeEmpty)
  {
  }

  /** `InitializeCounterV1::execute`, mutating the two accounts in place. */
  method Execute(env: Env, programId: Pubkey, payer: Account, counter: Account, bump: u8)
    returns (r: Result<(), InitializeCounterV1Error>)
    requires payer != counter
    modifies payer, counter
    ensures Applied2(r, ExecuteSpec(env, programId, old(payer.View()), old(counter.View()), bump),
                     payer, counter, old(payer.View()), old(counter.View()))
  {
    var created := CreateAccount(env, counter, CAD.COUNTER_V1_SIZE, programId, payer);
    if created.Err? {
      return Err(ProgramError(created.error));
    }
    var serialized := Serialize(FreshCounter(payer.key, bump));
    var observed: nat := |serialized|;
    if observed != CAD.COUNTER_V1_SIZE {
      return Err(SerializedSizeMismatch(CAD.COUNTER_V1_SIZE, observed));
    }
    // `copy_from_slice` into the freshly allocated buffer of the same length.
    counter.data := serialized;
    return Ok(());
  }
}
