// What the client builders produce: `solana_instruction::AccountMeta` and
// `Instruction`, and how the runtime turns an instruction's account metas
// plus the accounts' on-chain state into what the program sees.

module ClientInstruction {
  import opened Prims
  import opened Host

  /** `AccountMeta`: a key and the signer/writable flags the transaction grants it. */
  datatype AccountMeta = AccountMeta(pubkey: Pubkey, isSigner: bool, isWritable: bool)

  /** `Instruction`: target program, ordered account metas and the raw data bytes. */
  datatype Instruction = Instruction(programId: Pubkey, accounts: seq<AccountMeta>, data: seq<u8>)

  /** The on-chain part of an account, which the instruction does not carry. */
  datatype AccountState = AccountState(owner: Pubkey, lamports: u64, data: seq<u8>)

  /** The program's view of one account: key and flags from the meta, the rest from the ledger. */
  function View(m: AccountMeta, s: AccountState): (v: AccountView)
    ensures v.key == m.pubkey && v.isSigner == m.isSigner && v.isWritable == m.isWritable
    ensures v.owner == s.owner && v.lamports == s.lamports && v.data == s.data
  {
    AccountView(m.pubkey, m.isSigner, m.isWritable, s.owner, s.lamports, s.data)
  }

  /** The account list the program receives, position by position. */
  function Views(metas: seq<AccountMeta>, states: seq<AccountState>): (vs: seq<AccountView>)
    requires |metas| == |states|
    ensures |vs| == |metas|
    ensures forall i :: 0 <= i < |vs| ==> vs[i] == View(metas[i], states[i])
  {
    seq(|metas|, i requires 0 <= i < |metas| => View(metas[i], states[i]))
  }

  /** A meta for a signing, writable key (the owner or payer of every builder's `new`). */
  function SignerWritable(k: Pubkey): (m: AccountMeta)
    ensures m.pubkey == k && m.isSigner && m.isWritable
  {
    AccountMeta(k, true, true)
  }

  /** A meta for a writable, non-signing key (the counter or vault of every builder's `new`). */
  function Writable(k: Pubkey): (m: AccountMeta)
    ensures m.pubkey == k && !m.isSigner && m.isWritable
  {
    AccountMeta(k, false, true)
  }

  /** The read-only system-program meta. */
  function SystemProgramMeta(): (m: AccountMeta)
    ensures m.pubkey == SystemProgramId() && !m.isSigner && !m.isWritable
  {
    AccountMeta(SystemProgramId(), false, false)
  }
}
