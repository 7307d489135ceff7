// `DeactivateCounterV1`: validate [owner, counter] with the active-counter
// tag guard, then shrink the counter to the one deactivated tag byte and
// return every lamport above that size's rent minimum to the owner.

module CounterDeactivate {
  import opened Prims
  import opened Wrappers
  import opened Host
  import CAD = CounterAccountDiscriminator
  import opened CounterState

  datatype DeactivateCounterV1Error =
    | ProgramError(pe: Host.ProgramError)
    | NotEnoughAccounts(expectedLen: nat, observedLen: nat)
    | OwnerMustBeSigner
    | OwnerMustBeWriteable
    | CounterMustBeWriteable
    | CounterAddressMismatch
    | CounterMustBeOwnedByProgram
    | DeserializeError(readError: ReadError)
    | OwnerMismatch
    | AccountDiscriminatorError(err: CAD.AccountDiscriminatorError)

  datatype DeactivateCounterV1Accounts = DeactivateCounterV1Accounts(
    owner: AccountView, counter: AccountView, counterBump: u8)

  predicate Accepts(env: Env, programId: Pubkey, a: seq<AccountView>)
  {
    |a| == 2 && a[0].isSigner && a[0].isWritable && a[1].isWritable
    && a[1].key == env.deriveCounter(programId, a[0].key).0
    && a[1].owner == programId
    && CAD.Check(CAD.CounterV1Account, a[1].data).Ok?
  }

  /** `DeactivateCounterV1Accounts::try_from`. */
  function ValidateAccounts(env: Env, programId: Pubkey, a: seq<AccountView>)
    : (r: Result<DeactivateCounterV1Accounts, DeactivateCounterV1Error>)
    ensures r.Ok? <==> Accepts(env, programId, a)
    ensures r.Ok? ==> r.value == DeactivateCounterV1Accounts(a[0], a[1], env.deriveCounter(programId, a[0].key).1)
    ensures |a| != 2 ==> r == Err(NotEnoughAccounts(2, |a|))
    ensures |a| == 2 && !a[0].isSigner ==> r == Err(OwnerMustBeSigner)
    ensures |a| == 2 && a[0].isSigner && !a[0].isWritable ==> r == Err(OwnerMustBeWriteable)
    ensures |a| == 2 && a[0].isSigner && a[0].isWritable && !a[1].isWritable ==> r == Err(CounterMustBeWriteable)
    ensures |a| == 2 && a[0].isSigner && a[0].isWritable && a[1].isWritable
            && a[1].key != env.deriveCounter(programId, a[0].key).0
            ==> r == Err(CounterAddressMismatch)
    ensures |a| == 2 && a[0].isSigner && a[0].isWritable && a[1].isWritable
            && a[1].key == env.deriveCounter(programId, a[0].key).0
            ==> (a[1].owner != programId ==> r == Err(CounterMustBeOwnedByProgram))
                && (a[1].owner == programId && CAD.Check(CAD.CounterV1Account, a[1].data).Err?
                    ==> r == Err(AccountDiscriminatorError(CAD.Check(CAD.CounterV1Account, a[1].data).error)))
  {
    if |a| != 2 then Err(NotEnoughAccounts(2, |a|))
    else
      var owner, counter := a[0], a[1];
      if !owner.isSigner then Err(OwnerMustBeSigner)
      else if !owner.isWritable then Err(OwnerMustBeWriteable)
      else
        var (address, bump) := env.deriveCounter(programId, owner.key);
        if !counter.isWritable then Err(CounterMustBeWriteable)
        else if counter.key != address then Err(CounterAddressMismatch)
        else if counter.owner != programId then Err(CounterMustBeOwnedByProgram)
        else match CAD.Check(CAD.CounterV1Account, counter.data)
          case Err(e) => Err(AccountDiscriminatorError(e))
          case Ok(_) => Ok(DeactivateCounterV1Accounts(owner, counter, bump))
  }

  /** The lamports a deactivation moves from the counter to its owner. */
  function Reclaimable(env: Env, counter: AccountView): (n: u64)
    ensures n <= counter.lamports
    ensures counter.lamports - n == (if counter.lamports <= env.rentMin(CAD.DEACTIVATED_ACCOUNT_SIZE)
                                     then counter.lamports else env.rentMin(CAD.DEACTIVATED_ACCOUNT_SIZE))
  {
    SaturatingSub(counter.lamports, env.rentMin(CAD.DEACTIVATED_ACCOUNT_SIZE))
  }

  /**
   * `DeactivateCounterV1::execute` on the owner and the counter. The
   * owner's credit cannot overflow because the two balances together fit
   * the lamport type.
   */
  function ExecuteSpec(env: Env, owner: AccountView, counter: AccountView)
    : (r: Result<(AccountView, AccountView), DeactivateCounterV1Error>)
    requires LamportsFit(owner, counter)
    ensures r.Ok? <==> Deserialize(counter.data).Ok? && Deserialize(counter.data).value.owner == owner.key
    ensures Deserialize(counter.data).Err? ==> r == Err(DeserializeError(ReadError))
    ensures Deserialize(counter.data).Ok? && Deserialize(counter.data).value.owner != owner.key
            ==> r == Err(OwnerMismatch)
    ensures r.Ok? ==> r.value.1.data == [CAD.ToByte(CAD.DeactivatedAccount)]
                      && CAD.Check(CAD.DeactivatedAccount, r.value.1.data) == Ok(())
    ensures r.Ok? ==> r.value.1.lamports == (if counter.lamports <= env.rentMin(CAD.DEACTIVATED_ACCOUNT_SIZE)
                                            then counter.lamports else env.rentMin(CAD.DEACTIVATED_ACCOUNT_SIZE))
    ensures r.Ok? ==> r.value.0.lamports + r.value.1.lamports == owner.lamports + counter.lamports
    ensures r.Ok? ==> r.value.0 == owner.(lamports := r.value.0.lamports)
                      && r.value.1 == counter.(lamports := r.value.1.lamports, data := r.value.1.data)
  {
    match Deserialize(counter.data)
    case Err(e) => Err(DeserializeError(e))
    case Ok(state) =>
      if state.owner != owner.key then Err(OwnerMismatch)
      else
        var marked := counter.data[0 := CAD.ToByte(CAD.DeactivatedAccount)];
        var moved := Reclaimable(env, counter);
        Ok((owner.(lamports := owner.lamports + moved),
            counter.(lamports := counter.lamports - moved, data := Resized(marked, CAD.DEACTIVATED_ACCOUNT_SIZE))))
  }

  function Run(env: Env, programId: Pubkey, accounts: seq<AccountView>)
    : (r: Result<seq<AccountView>, DeactivateCounterV1Error>)
    requires |accounts| == 2 ==> LamportsFit(accounts[0], accounts[1])
    ensures r.Ok? ==> Accepts(env, programId, accounts) && |r.value| == 2
  {
    match ValidateAccounts(env, programId, accounts)
    case Err(e) => Err(e)
    case Ok(v) =>
      match ExecuteSpec(env, v.owner, v.counter)
      case Err(e) => Err(e)
      case Ok((owner', counter')) => Ok([owner', counter'])
  }

  /**
   * Deactivation succeeds exactly for the recorded owner of an active
   * counter; it leaves the one tag byte and the rent minimum of that size
   * (or less, if the counter held less), and no lamport is created or lost.
   */
  lemma RunDeactivates(env: Env, programId: Pubkey, accounts: seq<AccountView>)
    requires |accounts| == 2 && LamportsFit(accounts[0], accounts[1])
    ensures Run(env, programId, accounts).Ok?
            <==> Accepts(env, programId, accounts) && Deserialize(accounts[1].data).value.owner == accounts[0].key
    ensures Run(env, programId, accounts).Ok? ==>
            var after := Run(env, programId, accounts).value;
            after[1].data == [CAD.ToByte(CAD.DeactivatedAccount)]
            && after[1].lamports <= env.rentMin(CAD.DEACTIVATED_ACCOUNT_SIZE)
            && after[0].lamports >= accounts[0].lamports
            && after[0].lamports + after[1].lamports == accounts[0].lamports + accounts[1].lamports
  {
    if Accepts(env, programId, accounts) {
      assert CAD.FromByte(accounts[1].data[0]).Ok?;
    }
  }

  /** A counter that is already deactivated is rejected by the tag guard before anything is written. */
  lemma RejectsDeactivatedCounter(env: Env, programId: Pubkey, owner: AccountView, counter: AccountView)
    requires owner.isSigner && owner.isWritable && counter.isWritable
    requires counter.key == env.deriveCounter(programId, owner.key).0 && counter.owner == programId
    requires LamportsFit(owner, counter)
    requires counter.data == [CAD.ToByte(CAD.DeactivatedAccount)]
    ensures Run(env, programId, [owner, counter])
            == Err(AccountDiscriminatorError(CAD.DiscriminatorMismatch(CAD.CounterV1Account, CAD.DeactivatedAccount)))
  {
  }

  /** `DeactivateCounterV1::execute`: tag byte, resize, then the lamport move. */
  method Execute(env: Env, owner: Account, counter: Account) returns (r: Result<(), DeactivateCounterV1Error>)
    requires owner != counter
    requires LamportsFit(owner.View(), counter.View())
    modifies owner, counter
    ensures Applied2(r, ExecuteSpec(env, old(owner.View()), old(counter.View())),
                     owner, counter, old(owner.View()), old(counter.View()))
  {
    var decoded := Deserialize(counter.data);
    if decoded.Err? {
      return Err(DeserializeError(decoded.error));
    }
    if decoded.value.owner != owner.key {
      return Err(OwnerMismatch);
    }
    counter.data := counter.data[0 := CAD.ToByte(CAD.DeactivatedAccount)];
    var rentExemptMinimum := env.rentMin(CAD.DEACTIVATED_ACCOUNT_SIZE);
    counter.Resize(CAD.DEACTIVATED_ACCOUNT_SIZE);
    var moved := SaturatingSub(counter.lamports, rentExemptMinimum);
    counter.lamports := counter.lamports - moved;
    owner.lamports := owner.lamports + moved;
    return Ok(());
  }
}
