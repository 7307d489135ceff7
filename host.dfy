// The Solana runtime as both programs see it: account records, the
// host-provided rent and address-derivation functions, and the system-program
// calls (create-account, transfer) and the account resize the programs invoke.
// Every host call is abstract: its contract is all the model relies on.

module Host {
  import opened Prims
  import opened Wrappers

  /** `pinocchio::program_error::ProgramError`, reduced to the cases the model produces. */
  datatype ProgramError =
    | Custom(code: u32)
    | InvalidAccountData
    /** A system-program debit from an account holding too few lamports. */
    | InsufficientFunds
    /** A system-program create on an account that already holds data or belongs to a program. */
    | AccountAlreadyInUse
    /** A system-program credit that would overflow the recipient's balance. */
    | ArithmeticOverflow

  /** `pinocchio_system::ID`, the all-zero key. */
  function SystemProgramId(): (k: Pubkey)
    ensures k == DefaultPubkey()
  {
    DefaultPubkey()
  }

  /** A snapshot of one `AccountInfo`. */
  datatype AccountView = AccountView(
    key: Pubkey,
    isSigner: bool,
    isWritable: bool,
    owner: Pubkey,
    lamports: u64,
    data: seq<u8>)

  /**
   * The host-provided functions. `rentMin` is `Rent::minimum_balance`;
   * `deriveCounter` and `deriveVault` are the programs' address-derivation
   * functions (`find_counter_address`/`find_counter_v1` and `find_vault_v1`),
   * each mapping (program id, owner) to (address, bump).
   */
  datatype Env = Env(
    rentMin: nat -> u64,
    deriveCounter: (Pubkey, Pubkey) -> (Pubkey, u8),
    deriveVault: (Pubkey, Pubkey) -> (Pubkey, u8))

  /** The two balances sum to a `u64` (total supply fits the lamport type). */
  predicate LamportsFit(a: AccountView, b: AccountView)
  {
    a.lamports + b.lamports <= U64_MAX
  }

  /** `AccountInfo::resize`: keeps the prefix and zero-fills any growth. */
  function Resized(data: seq<u8>, n: nat): (r: seq<u8>)
    ensures |r| == n
    ensures forall i :: 0 <= i < n && i < |data| ==> r[i] == data[i]
    ensures forall i :: |data| <= i < n ==> r[i] == 0
  {
    if n <= |data| then data[..n] else data + ZeroBytes(n - |data|)
  }

  /** A system-program transfer of `amount` lamports. */
  function TransferSpec(from: AccountView, to: AccountView, amount: u64)
    : (r: Result<(AccountView, AccountView), ProgramError>)
    ensures r.Ok? <==> amount <= from.lamports && to.lamports + amount <= U64_MAX
    ensures r.Ok? ==> r.value.0.lamports + r.value.1.lamports == from.lamports + to.lamports
    ensures r.Ok? ==> r.value.1.lamports == to.lamports + amount
    ensures r.Ok? ==> r.value.0 == from.(lamports := r.value.0.lamports)
    ensures r.Ok? ==> r.value.1 == to.(lamports := r.value.1.lamports)
  {
    if from.lamports < amount then Err(InsufficientFunds)
    else if to.lamports + amount > U64_MAX then Err(ArithmeticOverflow)
    else Ok((from.(lamports := from.lamports - amount), to.(lamports := to.lamports + amount)))
  }

  /**
   * `create_account_with_minimum_balance_signed`: funds `acct` up to `rent`
   * from `payer` (nothing when already funded), allocates `space` zero bytes
   * and assigns it to `programOwner`.
   */
  function CreateAccountSpec(payer: AccountView, acct: AccountView, space: nat, programOwner: Pubkey, rent: u64)
    : (r: Result<(AccountView, AccountView), ProgramError>)
    ensures r.Ok? <==> |acct.data| == 0 && acct.owner == SystemProgramId()
                       && SaturatingSub(rent, acct.lamports) <= payer.lamports
    ensures r.Ok? ==> r.value.0.lamports + r.value.1.lamports == payer.lamports + acct.lamports
    ensures r.Ok? ==> r.value.1.lamports >= rent
    ensures r.Ok? ==> r.value.1.lamports == (if acct.lamports < rent then rent else acct.lamports)
    ensures r.Ok? ==> r.value.1.data == ZeroBytes(space) && r.value.1.owner == programOwner
    ensures r.Ok? ==> r.value.0 == payer.(lamports := r.value.0.lamports)
    ensures r.Ok? ==> r.value.1.key == acct.key
  {
    if |acct.data| != 0 || acct.owner != SystemProgramId() then Err(AccountAlreadyInUse)
    else
      var need := SaturatingSub(rent, acct.lamports);
      if payer.lamports < need then Err(InsufficientFunds)
      else Ok((payer.(lamports := payer.lamports - need),
               acct.(lamports := acct.lamports + need, data := ZeroBytes(space), owner := programOwner)))
  }

  /** One `AccountInfo`: the runtime fixes key and flags, the program may change the rest. */
  class Account {
    const key: Pubkey
    const isSigner: bool
    const isWritable: bool
    var owner: Pubkey
    var lamports: u64
    var data: seq<u8>

    constructor (v: AccountView)
      ensures View() == v
    {
      key, isSigner, isWritable := v.key, v.isSigner, v.isWritable;
      owner, lamports, data := v.owner, v.lamports, v.data;
    }

    function View(): AccountView
      reads this
    {
      AccountView(key, isSigner, isWritable, owner, lamports, data)
    }

    /** `AccountInfo::resize`. */
    method Resize(n: nat)
      modifies this
      ensures View() == old(View()).(data := Resized(old(data), n))
    {
      data := Resized(data, n);
    }
  }

  /**
   * The outcome `r` of a call on accounts `a` and `b`, started from `a0` and
   * `b0`, is the one `s` prescribes: on success both accounts hold the new
   * views, on failure the same error and both accounts unchanged.
   */
  predicate Applied2<E(==)>(r: Result<(), E>, s: Result<(AccountView, AccountView), E>,
                        a: Account, b: Account, a0: AccountView, b0: AccountView)
    reads a, b
  {
    match s
    case Ok(v) => r.Ok? && a.View() == v.0 && b.View() == v.1
    case Err(e) => r == Err(e) && a.View() == a0 && b.View() == b0
  }

  /** The one-account form of `Applied2`. */
  predicate Applied1<E(==)>(r: Result<(), E>, s: Result<AccountView, E>, a: Account, a0: AccountView)
    reads a
  {
    match s
    case Ok(v) => r.Ok? && a.View() == v
    case Err(e) => r == Err(e) && a.View() == a0
  }

  /** `Transfer { from, to, lamports }.invoke()`. */
  method Transfer(from: Account, to: Account, amount: u64) returns (r: Result<(), ProgramError>)
    requires from != to
    modifies from, to
    ensures Applied2(r, TransferSpec(old(from.View()), old(to.View()), amount),
                     from, to, old(from.View()), old(to.View()))
  {
    if from.lamports < amount {
      return Err(InsufficientFunds);
    }
    if to.lamports + amount > U64_MAX {
      return Err(ArithmeticOverflow);
    }
    from.lamports := from.lamports - amount;
    to.lamports := to.lamports + amount;
    return Ok(());
  }

  /** `create_account_with_minimum_balance_signed(acct, space, programOwner, payer, ..)`. */
  method CreateAccount(env: Env, acct: Account, space: nat, programOwner: Pubkey, payer: Account)
    returns (r: Result<(), ProgramError>)
    requires payer != acct
    modifies payer, acct
    ensures Applied2(r, CreateAccountSpec(old(payer.View()), old(acct.View()), space, programOwner, env.rentMin(space)),
                     payer, acct, old(payer.View()), old(acct.View()))
  {
    if |acct.data| != 0 || acct.owner != SystemProgramId() {
      return Err(AccountAlreadyInUse);
    }
    var need := SaturatingSub(env.rentMin(space), acct.lamports);
    if payer.lamports < need {
      return Err(InsufficientFunds);
    }
    payer.lamports := payer.lamports - need;
    acct.lamports := acct.lamports + need;
    acct.data := ZeroBytes(space);
    acct.owner := programOwner;
    return Ok(());
  }
}
