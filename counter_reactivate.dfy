// `ReactivateCounterV1`: validate [payer, counter, system program] with the
// deactivated-tag guard, top the counter up to the rent minimum of a full
// record, grow it back to 73 bytes and write a record owned by the payer with
// count 0.

module CounterReactivate {
  import opened Prims
  import opened Wrappers
  import opened Host
  import CAD = CounterAccountDiscriminator
  import opened CounterState

  datatype ReactivateCounterV1Error =
    | ProgramError(pe: Host.ProgramError)
    | NotEnoughAccounts(expectedLen: nat, observedLen: nat)
    | PayerMustBeSigner
    | PayerMustBeWriteable
    | CounterMustBeWriteable
    | CounterAddressMismatch(expected: Pubkey, observed: Pubkey)
    | SystemProgramAddressMismatch
    | DeserializeError(readError: ReadError)
    | SerializeError
    | SerializedSizeMismatch(expectedSize: nat, observedSize: nat)
    | AccountDiscriminatorError(err: CAD.AccountDiscriminatorError)

  datatype ReactivateCounterV1Accounts = ReactivateCounterV1Accounts(
    payer: AccountView, counter: AccountView, counterBump: u8, systemProgram: AccountView)

  /** Note that the counter's program owner is not among the conditions. */
  predicate Accepts(env: Env, programId: Pubkey, a: seq<AccountView>)
  {
    |a| == 3 && a[0].isSigner && a[0].isWritable && a[1].isWritable
    && a[1].key == env.deriveCounter(programId, a[0].key).0
    && a[2].key == SystemProgramId()
    && CAD.Check(CAD.DeactivatedAccount, a[1].data).Ok?
  }

  /** `ReactivateCounterV1Accounts::try_from`. */
  function ValidateAccounts(env: Env, programId: Pubkey, a: seq<AccountView>)
    : (r: Result<ReactivateCounterV1Accounts, ReactivateCounterV1Error>)
    ensures r.Ok? <==> Accepts(env, programId, a)
    ensures r.Ok? ==> r.value == ReactivateCounterV1Accounts(
                        a[0], a[1], env.deriveCounter(programId, a[0].key).1, a[2])
    ensures |a| != 3 ==> r == Err(NotEnoughAccounts(3, |a|))
    ensures |a| == 3 && !a[0].isSigner ==> r == Err(PayerMustBeSigner)
    ensures |a| == 3 && a[0].isSigner && !a[0].isWritable ==> r == Err(PayerMustBeWriteable)
    ensures |a| == 3 && a[0].isSigner && a[0].isWritable && !a[1].isWritable ==> r == Err(CounterMustBeWriteable)
    ensures |a| == 3 && a[0].isSigner && a[0].isWritable && a[1].isWritable
            && a[1].key != env.deriveCounter(programId, a[0].key).0
            ==> r == Err(CounterAddressMismatch(env.deriveCounter(programId, a[0].key).0, a[1].key))
    ensures |a| == 3 && a[0].isSigner && a[0].isWritable && a[1].isWritable
            && a[1].key == env.deriveCounter(programId, a[0].key).0
            ==> (a[2].key != SystemProgramId() ==> r == Err(SystemProgramAddressMismatch))
                && (a[2].key == SystemProgramId() && CAD.Check(CAD.DeactivatedAccount, a[1].data).Err?
                    ==> r == Err(AccountDiscriminatorError(CAD.Check(CAD.DeactivatedAccount, a[1].data).error)))
  {
    if |a| != 3 then Err(NotEnoughAccounts(3, |a|))
    else
      var payer, counter, systemProgram := a[0], a[1], a[2];
      if !payer.isSigner then Err(PayerMustBeSigner)
      else if !payer.isWritable then Err(PayerMustBeWriteable)
      else if !counter.isWritable then Err(CounterMustBeWriteable)
      else
        var (expected, bump) := env.deriveCounter(programId, payer.key);
        if counter.key != expected then Err(CounterAddressMismatch(expected, counter.key))
        else if systemProgram.key != SystemProgramId() then Err(SystemProgramAddressMismatch)
        else match CAD.Check(CAD.DeactivatedAccount, counter.data)
          case Err(e) => Err(AccountDiscriminatorError(e))
          case Ok(_) => Ok(ReactivateCounterV1Accounts(payer, counter, bump, systemProgram))
  }

  /** The record a reactivated counter holds; its reserved bytes are zero. */
  function RestoredCounter(payer: Pubkey, bump: u8): (c: CounterV1)
    ensures c.discriminator == CAD.CounterV1Account && c.owner == payer && c.bump == bump && c.count == 0
    ensures c.reserved == ZeroBytes(RESERVED_SIZE)
  {
    CounterV1(CAD.CounterV1Account, payer, bump, 0, ZeroBytes(RESERVED_SIZE))
  }

  /** The lamports the payer transfers: the shortfall against a full record's rent minimum. */
  function TopUp(env: Env, counter: AccountView): (n: u64)
    ensures counter.lamports + n >= env.rentMin(CAD.COUNTER_V1_SIZE)
    ensures n > 0 ==> counter.lamports + n == env.rentMin(CAD.COUNTER_V1_SIZE)
  {
    SaturatingSub(env.rentMin(CAD.COUNTER_V1_SIZE), counter.lamports)
  }

  /** The lamport step of `execute`: a transfer only when there is a shortfall. */
  function FundSpec(env: Env, payer: AccountView, counter: AccountView)
    : (r: Result<(AccountView, AccountView), Host.ProgramError>)
    ensures TopUp(env, counter) == 0 ==> r == Ok((payer, counter))
    ensures TopUp(env, counter) > 0 ==> r == TransferSpec(payer, counter, TopUp(env, counter))
  {
    var need := TopUp(env, counter);
    if need > 0 then TransferSpec(payer, counter, need) else Ok((payer, counter))
  }

  /** `ReactivateCounterV1::execute` on the payer and the counter. */
  function ExecuteSpec(env: Env, payer: AccountView, counter: AccountView, bump: u8)
    : (r: Result<(AccountView, AccountView), ReactivateCounterV1Error>)
    ensures r.Ok? <==> FundSpec(env, payer, counter).Ok?
    ensures r.Err? ==> r == Err(ProgramError(FundSpec(env, payer, counter).error))
    ensures r.Ok? ==> Deserialize(r.value.1.data) == Ok(RestoredCounter(payer.key, bump))
    ensures r.Ok? ==> r.value.1.lamports >= env.rentMin(CAD.COUNTER_V1_SIZE)
    ensures r.Ok? ==> r.value.0.lamports + r.value.1.lamports == payer.lamports + counter.lamports
    ensures r.Ok? ==> r.value.0 == payer.(lamports := r.value.0.lamports)
                      && r.value.1 == counter.(lamports := r.value.1.lamports, data := r.value.1.data)
  {
    match FundSpec(env, payer, counter)
    case Err(pe) => Err(ProgramError(pe))
    case Ok((payer', counter')) =>
      var grown := Resized(counter'.data, CAD.COUNTER_V1_SIZE);
      var serialized := Serialize(RestoredCounter(payer.key, bump));
      var observed: nat := |serialized|;
      DeserializeSerialize(RestoredCounter(payer.key, bump));
      if observed != CAD.COUNTER_V1_SIZE then Err(SerializedSizeMismatch(CAD.COUNTER_V1_SIZE, observed))
      else
        assert |grown| == |serialized|;
        Ok((payer', counter'.(data := serialized)))
  }

  function Run(env: Env, programId: Pubkey, accounts: seq<AccountView>)
    : (r: Result<seq<AccountView>, ReactivateCounterV1Error>)
    ensures r.Ok? ==> Accepts(env, programId, accounts) && |r.value| == 3
  {
    match ValidateAccounts(env, programId, accounts)
    case Err(e) => Err(e)
    case Ok(v) =>
      match ExecuteSpec(env, v.payer, v.counter, v.counterBump)
      case Err(e) => Err(e)
      case Ok((payer', counter')) => Ok([payer', counter', v.systemProgram])
  }

  /**
   * A reactivated counter is an active, rent-exempt record at the payer's
   * derived address, owned by the payer with the derived bump and count 0;
   * the payer pays only the shortfall.
   */
  lemma RunReactivates(env: Env, programId: Pubkey, accounts: seq<AccountView>)
    requires Run(env, programId, accounts).Ok?
    ensures var after := Run(env, programId, accounts).value;
            var (address, bump) := env.deriveCounter(programId, accounts[0].key);
            after[1].key == address
            && Deserialize(after[1].data) == Ok(CounterV1(CAD.CounterV1Account, accounts[0].key, bump, 0, ZeroBytes(RESERVED_SIZE)))
            && CAD.Check(CAD.CounterV1Account, after[1].data) == Ok(())
            && after[1].lamports >= env.rentMin(CAD.COUNTER_V1_SIZE)
            && after[0].lamports == accounts[0].lamports - TopUp(env, accounts[1])
            && after[2] == accounts[2]
  {
    var v := ValidateAccounts(env, programId, accounts).value;
    SerializedPassesCheck(RestoredCounter(accounts[0].key, v.counterBump));
    if TopUp(env, accounts[1]) == 0 {
      assert FundSpec(env, accounts[0], accounts[1]) == Ok((accounts[0], accounts[1]));
    }
  }

  /** An active counter is not a deactivated one: reactivating it writes nothing. */
  lemma RejectsActiveCounter(env: Env, programId: Pubkey, payer: AccountView, counter: AccountView,
                             systemProgram: AccountView, c: CounterV1)
    requires payer.isSigner && payer.isWritable && counter.isWritable
    requires counter.key == env.deriveCounter(programId, payer.key).0 && systemProgram.key == SystemProgramId()
    requires c.discriminator == CAD.CounterV1Account && counter.data == Serialize(c)
    ensures Run(env, programId, [payer, counter, systemProgram])
            == Err(AccountDiscriminatorError(CAD.DiscriminatorMismatch(CAD.DeactivatedAccount, CAD.CounterV1Account)))
  {
    SerializedPassesCheck(c);
  }

  /** `ReactivateCounterV1::execute`: optional transfer, resize, then the record write. */
  method Execute(env: Env, payer: Account, counter: Account, bump: u8) returns (r: Result<(), ReactivateCounterV1Error>)
    requires payer != counter
    modifies payer, counter
    ensures Applied2(r, ExecuteSpec(env, old(payer.View()), old(counter.View()), bump),
                     payer, counter, old(payer.View()), old(counter.View()))
  {
    var rentExemptMinimumCounter := env.rentMin(CAD.COUNTER_V1_SIZE);
    var additionalLamportsNeeded := SaturatingSub(rentExemptMinimumCounter, counter.lamports);
    if additionalLamportsNeeded > 0 {
      var transferred := Transfer(payer, counter, additionalLamportsNeeded);
      if transferred.Err? {
        return Err(ProgramError(transferred.error));
      }
    }
    counter.Resize(CAD.COUNTER_V1_SIZE);
    var serialized := Serialize(RestoredCounter(payer.key, bump));
    var observed: nat := |serialized|;
    if observed != CAD.COUNTER_V1_SIZE {
      return Err(SerializedSizeMismatch(CAD.COUNTER_V1_SIZE, observed));
    }
    counter.data := serialized;
    return Ok(());
  }
}
