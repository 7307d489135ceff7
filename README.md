# Pinocchio counter and SOL vault, modelled in Dafny

This project models two Solana programs written with the Pinocchio framework, together with their client-side instruction builders and the clock-advance helpers of the test suites.

- **Counter program.** Each owner has one counter account, at an address derived from the owner's key. The program has seven instruction handlers; the current discriminator tags six of them (1 to 6), the older `discriminator.rs` enum tags five (1 to 5, without reactivation), and `CreateCounterV1` has a tag in neither:
  - `CreateCounterV1` and `InitializeCounterV1` allocate the 73-byte `CounterV1` record through the system program.
  - `IncrementCountV1`, `DecrementCountV1` and `SetCountV1` change the count: increment and decrement saturate at the `u64` bounds, and set-count overwrites the stored value.
  - `DeactivateCounterV1` shrinks the account to a one-byte tombstone and returns the excess rent to the owner.
  - `ReactivateCounterV1` tops the account back up, resizes it and writes a fresh record.
- **Vault program.** Each owner has one 34-byte `VaultV1` account that holds SOL:
  - `InitializeVaultV1` creates it.
  - `DepositV1` moves lamports in through the system program.
  - `WithdrawV1` moves lamports out directly, never below the rent-exempt minimum.
  - `DeactivateVaultV1` and `ReactivateVaultV1` mirror the counter's tombstone lifecycle.
  - The entrypoint dispatches on a one-byte instruction tag. It maps every instruction error to a custom error code, in a block of codes per instruction.
- **Clients.** One builder per instruction:
  - It fills in the account metas.
  - `validate` checks signer and writable flags and the derived address, in a fixed order, and the first failing check names the error.
  - It serialises the instruction.
- **Clock helpers.** `advance_clock` moves a `solana_clock::Clock` forward by a number of slots. There are two versions, one with checked timestamp arithmetic and one with plain arithmetic.

How the model is built:

- Integers are unbounded. The source's `u8`, `u32`, `u64` and `i64` are subset types, and every checked, saturating or wrapping operation is written out explicitly.
- The runtime's accounts are a class `Host.Account`:
  - key, signer and writable flags are constants;
  - owner, lamports and data are fields that the `Execute` methods update in place.
- Account validation is a pure function over snapshots (`AccountView`).
- Each instruction's effect is a pure function `ExecuteSpec`. The imperative `Execute` method is proved against it, and the properties are proved about the function.
- The system-program calls, address derivation and the rent sysvar come from an environment value `Host.Env`.

## Model

| member | source | states |
|---|---|---|
| Prims.U64ToLe | programs/pinocchio_counter_program/src/instructions/set_count_v1.rs:7-11 | a `u64` is written as exactly 8 little-endian bytes, each below 256 |
| Prims.U64LeRoundTrip | programs/pinocchio_counter_program/src/instructions/set_count_v1.rs:19-21 | reading back the 8 bytes of `to_le_bytes` gives the same `u64` |
| Prims.U64LeRoundTripBytes | programs/pinocchio_counter_program/src/instructions/set_count_v1.rs:19-21 | any 8 bytes read as a `u64` and written again are the same bytes |
| Prims.U64FromLe | programs/pinocchio_sol_vault_program/src/instructions/deposit_v1.rs:100-104 | `u64::from_le_bytes` on eight bytes: writing the result back with `to_le_bytes` gives the same bytes (the same read is at withdraw_v1.rs:144-148) |
| Prims.U64ToLeInjective | programs/pinocchio_counter_program/src/instructions/set_count_v1.rs:7-11 | distinct amounts have distinct encodings |
| Prims.LeDecodeEncode | programs/pinocchio_counter_program/src/instructions/set_count_v1.rs:19-21 | little-endian decoding inverts encoding at every width (by induction on the width) |
| Prims.LeEncodeDecode | programs/pinocchio_counter_program/src/instructions/set_count_v1.rs:19-21 | encoding inverts decoding of any byte string (by induction on its length) |
| CounterAccountDiscriminator.ToByte | programs/pinocchio_counter_program/src/account_discriminator.rs:30-37 | the counter tag is byte 1 and the deactivated tag is byte 255, and no other byte |
| CounterAccountDiscriminator.FromByte | programs/pinocchio_counter_program/src/account_discriminator.rs:39-49 | succeeds exactly on bytes 1 and 255, returning the tag whose byte it was; any other byte is `Invalid(byte)` |
| CounterAccountDiscriminator.FromByteToByte | programs/pinocchio_counter_program/src/account_discriminator.rs:30-49 | `try_from(u8::from(d)) == d` for both tags |
| CounterAccountDiscriminator.ExpectedAccountSize | programs/pinocchio_counter_program/src/account_discriminator.rs:90-95 | 73 bytes for a counter account, 1 for a deactivated one |
| CounterAccountDiscriminator.Check | programs/pinocchio_counter_program/src/account_discriminator.rs:62-88 | empty data is `Missing`; an unknown first byte is `Invalid`; another known tag is `DiscriminatorMismatch`; a wrong length is `SerializedSizeMismatch(expected, observed)`; success exactly when the first byte is the expected tag and the length is its size |
| CounterAccountDiscriminator.InvalidBeforeSize | programs/pinocchio_counter_program/src/account_discriminator.rs:66-70 | an unknown tag byte is reported for every length of data, before any size check |
| CounterState.Serialize | programs/pinocchio_counter_program/src/state.rs:40-42 | 73 bytes: the tag, the 32 owner bytes, the bump, the count as 8 little-endian bytes, the 31 reserved bytes (field order of lines 12-18) |
| CounterState.Deserialize | programs/pinocchio_counter_program/src/state.rs:49-51 | succeeds exactly on 73 bytes with a known tag, and then re-serializing the record gives the input back |
| CounterState.DeserializeSerialize | programs/pinocchio_counter_program/src/state.rs:71-92 | deserializing a serialized record gives back every field |
| CounterState.DeserializeInjective | programs/pinocchio_counter_program/src/state.rs:49-51 | two inputs that decode to the same record are the same bytes |
| CounterState.Default | programs/pinocchio_counter_program/src/state.rs:54-64 | the counter tag, the all-zero owner, bump 0, count 0 and zero reserved bytes |
| CounterState.SerializedPassesCheck | programs/pinocchio_counter_program/src/account_discriminator.rs:62-88 | an encoded active record passes the active-account guard and fails the deactivated one with `DiscriminatorMismatch` |
| CounterInstructionDiscriminator.ToByte | programs/pinocchio_counter_program/src/instructions_discriminator.rs:65-76 | every instruction tag is a byte in 1..6 (and `FromByte` maps it back) |
| CounterInstructionDiscriminator.FromByte | programs/pinocchio_counter_program/src/instructions_discriminator.rs:49-63 | succeeds exactly on bytes 1..6, returning the tag whose byte it was; any other byte is `Invalid(byte)` |
| CounterInstructionDiscriminator.FromByteToByte | programs/pinocchio_counter_program/src/instructions_discriminator.rs:49-76 | `try_from(u8::from(d)) == d` for all six tags |
| CounterInstructionDiscriminator.Parse | programs/pinocchio_counter_program/src/instructions_discriminator.rs:40-46 | empty data is `Missing`, an unknown first byte is `Invalid(byte)`; otherwise the tag byte followed by the returned payload is the input |
| CounterInstructionDiscriminator.ParseTagged | programs/pinocchio_counter_program/src/instructions_discriminator.rs:40-46 | a tag byte followed by any payload parses back to that tag and that payload |
| CounterInstructionDiscriminator.ParseExamples | programs/pinocchio_counter_program/src/instructions_discriminator.rs:112-147 | single cases mirroring the unit tests, not a general property: the unit tests' cases: empty is `Missing`, bytes 7 and 255 are invalid, a lone tag leaves an empty payload |
| CounterLegacyDiscriminator.ToByte | programs/pinocchio_counter_program/src/instructions/discriminator.rs:47-57 | every tag of the five-operation enum is a byte in 1..5 |
| CounterLegacyDiscriminator.FromByte | programs/pinocchio_counter_program/src/instructions/discriminator.rs:32-45 | succeeds exactly on bytes 1..5, returning the tag whose byte it was; otherwise `InvalidInstructionDiscriminator(byte)` |
| CounterLegacyDiscriminator.FromByteToByte | programs/pinocchio_counter_program/src/instructions/discriminator.rs:32-57 | `try_from(u8::from(d)) == d` for all five tags |
| CounterLegacyDiscriminator.Parse | programs/pinocchio_counter_program/src/instructions/discriminator.rs:24-29 | empty data is `InvalidInstructionDiscriminator(0)`, an unknown byte is reported as itself; otherwise tag byte plus payload is the input |
| CounterLegacyDiscriminator.EmptyLooksLikeZero | programs/pinocchio_counter_program/src/instructions/discriminator.rs:25-27 | empty data and data starting with byte 0 give the same error |
| CounterLegacyDiscriminator.ParseTagged | programs/pinocchio_counter_program/src/instructions/discriminator.rs:24-29 | a tag byte followed by any payload parses back to that tag and payload |
| CounterLegacyDiscriminator.ParseExamples | programs/pinocchio_counter_program/src/instructions/discriminator.rs:103-117 | single cases mirroring the unit tests, not a general property: the unit tests' cases: bytes 0, 6 and 255 are reported as themselves |
| CounterErrors.Code | programs/pinocchio_counter_program/src/error.rs:43-55 | every variant's custom code lies in 0x1..0xb |
| CounterErrors.ToProgramError | programs/pinocchio_counter_program/src/error.rs:41-59 | every error becomes `ProgramError::Custom` carrying its variant's code |
| CounterErrors.CodeIdentifiesVariant | programs/pinocchio_counter_program/src/error.rs:43-55 | two errors share a code exactly when they are the same variant; payloads never change the code |
| CounterErrors.Message | programs/pinocchio_counter_program/src/error.rs:22-39 | every variant has a non-empty message |
| CounterErrors.Display | programs/pinocchio_counter_program/src/error.rs:61-65 | the displayed text is the variant's `as_str` message |
| CounterErrors.MessageIdentifiesVariant | programs/pinocchio_counter_program/src/error.rs:24-38 | two errors share a message exactly when they are the same variant |
| CounterErrors.CreateCounterTestCodes | tests/pinocchio_counter/initialize_counter_v1.rs:99-268 | single cases mirroring the unit tests, not a general property: the custom codes the create-counter tests expect in the logs: 0x8, 0x4, 0x1, 0xb, 0x2, 0x6 and 0x7 |
| CounterLegacyErrors.LegacyCode | programs/pinocchio_counter/src/error.rs:45-57 | every variant's code in the older crate lies in 1..11 |
| CounterLegacyErrors.LegacyToProgramError | programs/pinocchio_counter/src/error.rs:41-61 | every error becomes `ProgramError::Custom` of its older code |
| CounterLegacyErrors.LegacyMessage | programs/pinocchio_counter/src/error.rs:22-39 | every variant has a non-empty message |
| CounterLegacyErrors.LegacyDisplay | programs/pinocchio_counter/src/error.rs:63-67 | the displayed text is the older `as_str` message |
| CounterLegacyErrors.LegacyAgreesWithCurrent | programs/pinocchio_counter/src/error.rs:41-61 | the older crate produces the same program error and the same text as the current one for every variant |
| CounterLegacyErrors.LegacyCodeIdentifiesVariant | programs/pinocchio_counter/src/error.rs:45-57 | the older codes identify the variant and ignore payloads |
| CounterInitialize.ValidateAccounts | programs/pinocchio_counter_program/src/instructions/initialize_counter_v1.rs:103-154 | succeeds exactly when there are three accounts, the payer signs, the counter is writable, at the payer's derived address, empty, without lamports and system-owned, and the third key is the system program; each failure is the first failing check's error, and success carries the derived bump |
| CounterInitialize.ExecuteSpec | programs/pinocchio_counter_program/src/instructions/initialize_counter_v1.rs:47-86 | fails only when the create-account call fails; on success the counter is program-owned, rent-exempt and decodes to tag 1, payer as owner, the bump, count 0 and zero reserved bytes, and no lamports are created or lost |
| CounterInitialize.Run | programs/pinocchio_counter_program/src/instructions/initialize_counter_v1.rs:89-100 | a successful run had an accepted account list and returns three accounts |
| CounterInitialize.RunCreatesCounter | programs/pinocchio_counter_program/src/instructions/initialize_counter_v1.rs:47-153 | after success the counter sits at the derived address, program-owned and rent-exempt, holds the fresh record, the two balances sum as before and the system program account is untouched |
| CounterInitialize.RejectsExistingCounter | programs/pinocchio_counter_program/src/instructions/initialize_counter_v1.rs:131-133 | a counter already holding an active or a deactivated record fails with `CounterMustBeEmpty` |
| CounterInitialize.Execute | programs/pinocchio_counter_program/src/instructions/initialize_counter_v1.rs:47-86 | mutating the two accounts gives exactly `ExecuteSpec`'s views on success and leaves both unchanged on failure |
| CounterCreate.ValidateAccounts | programs/pinocchio_counter_program/src/instructions/create_counter_v1.rs:89-137 | the same acceptance as initialization, reported as flat `CounterError`s in the order of lines 93-128, with the derived bump on success |
| CounterCreate.InitialState | programs/pinocchio_counter_program/src/instructions/create_counter_v1.rs:48-52 | `Default` with the payer as owner and the derived bump: tag 1, count 0, zero reserved bytes |
| CounterCreate.ExecuteSpec | programs/pinocchio_counter_program/src/instructions/create_counter_v1.rs:32-72 | fails exactly as the create-account call fails, with its error; on success the counter is program-owned, rent-exempt at its own key and decodes to the initial record, with lamports conserved |
| CounterCreate.Run | programs/pinocchio_counter_program/src/instructions/create_counter_v1.rs:75-87 | a rejected account list fails with the custom code of the first failing check |
| CounterCreate.SameRecordAsDefault | programs/pinocchio_counter_program/src/instructions/create_counter_v1.rs:48-52 | the older instruction writes the same bytes as the newer `InitializeCounterV1` |
| CounterCreate.Execute | programs/pinocchio_counter_program/src/instructions/create_counter_v1.rs:32-72 | mutating the two accounts gives exactly `ExecuteSpec`'s views on success and leaves both unchanged on failure |
| CounterIncrement.ValidateAccounts | programs/pinocchio_counter_program/src/instructions/increment_count_v1.rs:80-117 | succeeds exactly when there are two accounts, the owner signs, the counter is writable, at the owner's derived address, program-owned and passes the active-record tag guard; each failure is the first failing check's error, the guard's error wrapped |
| CounterIncrement.ExecuteSpec | programs/pinocchio_counter_program/src/instructions/increment_count_v1.rs:40-63 | fails only on undecodable data; otherwise the stored record is the old one with its count saturating-incremented, and nothing but the data changes, at the same length |
| CounterIncrement.Run | programs/pinocchio_counter_program/src/instructions/increment_count_v1.rs:66-78 | a successful run had an accepted account list and returns two accounts |
| CounterIncrement.RunIncrements | programs/pinocchio_counter_program/src/instructions/increment_count_v1.rs:32-63 | an accepted increment always succeeds; the count becomes count + 1, or stays at `u64::MAX`; every other field, the lamports, owner and key and the owner account are unchanged |
| CounterIncrement.RejectsInactiveCounter | programs/pinocchio_counter_program/src/instructions/increment_count_v1.rs:112-113 | a counter whose first byte is not the active tag is refused by the tag guard, a deactivated one with `DiscriminatorMismatch(CounterV1Account, DeactivatedAccount)` |
| CounterIncrement.ForeignSignerRejectedByAddress | programs/pinocchio_counter_program/src/instructions/increment_count_v1.rs:99-106 | a signer other than the owner is stopped by the address check, because its own derived address differs |
| CounterIncrement.Execute | programs/pinocchio_counter_program/src/instructions/increment_count_v1.rs:40-63 | overwriting the counter's buffer gives exactly `ExecuteSpec`'s view on success and leaves it unchanged on failure |
| Prims.SaturatingAdd | programs/pinocchio_counter_program/src/instructions/increment_count_v1.rs:46 | `saturating_add`: the sum when it fits a `u64`, `u64::MAX` otherwise |
| Prims.SaturatingSub | programs/pinocchio_counter_program/src/instructions/decrement_count_v1.rs:54 | `saturating_sub`: the difference when it is not negative, 0 otherwise |
| Prims.SaturatingIncrement | programs/pinocchio_counter_program/src/instructions/increment_count_v1.rs:32-46 | adding one never lowers the count, gives count + 1 below `u64::MAX` and stays at `u64::MAX` |
| Prims.SaturatingDecrement | programs/pinocchio_counter_program/src/instructions/decrement_count_v1.rs:32-54 | subtracting one never raises the count, gives count - 1 above 0 and stays at 0 |
| Prims.IncrementThenDecrement | programs/pinocchio_counter_program/src/instructions/increment_count_v1.rs:46 | below `u64::MAX`, a decrement undoes an increment |
| CounterDecrement.ValidateAccounts | programs/pinocchio_counter_program/src/instructions/decrement_count_v1.rs:88-119 | succeeds exactly when there are two accounts, the owner signs, the counter is writable, at the owner's derived address and program-owned, with no tag guard; each failure is the first failing check's error |
| CounterDecrement.ExecuteSpec | programs/pinocchio_counter_program/src/instructions/decrement_count_v1.rs:40-71 | succeeds exactly on a decodable active record whose stored owner is the signer; undecodable or deactivated data is `DeserializeError`, another owner `OwnerMismatch`; on success the record's count is saturating-decremented and only the data changes |
| CounterDecrement.Run | programs/pinocchio_counter_program/src/instructions/decrement_count_v1.rs:74-86 | a successful run had an accepted account list and returns two accounts |
| CounterDecrement.RunDecrements | programs/pinocchio_counter_program/src/instructions/decrement_count_v1.rs:32-71 | after success the record was active and owned by the signer, its count is count - 1 or stays 0, every other field and every other account property is unchanged |
| CounterDecrement.RejectsWithoutWriting | programs/pinocchio_counter_program/src/instructions/decrement_count_v1.rs:41-52 | an accepted deactivated counter fails with `DeserializeError`, an active counter of another owner with `OwnerMismatch` |
| CounterDecrement.Execute | programs/pinocchio_counter_program/src/instructions/decrement_count_v1.rs:40-71 | overwriting the counter's buffer gives exactly `ExecuteSpec`'s view on success and leaves it unchanged on failure |
| CounterSetCount.SerializeArgs | programs/pinocchio_counter_program/src/instructions/set_count_v1.rs:7-11 | the argument is eight bytes that read back as the count |
| CounterSetCount.DeserializeArgs | programs/pinocchio_counter_program/src/instructions/set_count_v1.rs:19-21 | succeeds exactly on eight bytes, and the decoded argument re-encodes to the input |
| CounterSetCount.ArgsRoundTrip | programs/pinocchio_counter_program/src/instructions/set_count_v1.rs:7-21 | decoding an encoded argument gives it back, and distinct counts encode differently |
| CounterSetCount.ValidateAccounts | programs/pinocchio_counter_program/src/instructions/set_count_v1.rs:109-148 | succeeds exactly when there are two accounts, the owner signs and is writable, the counter is writable, at the owner's derived address and program-owned; each failure is the first failing check's error |
| CounterSetCount.Parse | programs/pinocchio_counter_program/src/instructions/set_count_v1.rs:93-107 | account errors come first; with accepted accounts, arguments that are not eight bytes are `DeserializeError`; success exactly on accepted accounts and eight argument bytes, which re-encode the decoded count |
| CounterSetCount.ExecuteSpec | programs/pinocchio_counter_program/src/instructions/set_count_v1.rs:59-90 | succeeds exactly on a decodable active record owned by the signer (deactivated data is `DeserializeError`, another owner `OwnerMismatch`); the stored record then holds the new count with every other field kept, and only the data changes |
| CounterSetCount.Run | programs/pinocchio_counter_program/src/instructions/set_count_v1.rs:93-107 | a successful run had accepted accounts and an eight-byte argument, and returns two accounts |
| CounterSetCount.RunSetsCount | programs/pinocchio_counter_program/src/instructions/set_count_v1.rs:52-90 | the stored count after success is exactly the count the client encoded, the signer was the stored owner and nothing else changed |
| CounterSetCount.SetCountOverwrites | programs/pinocchio_counter_program/src/instructions/set_count_v1.rs:73 | a second set gives the same account as setting directly, and setting the stored count leaves the account as it was |
| CounterSetCount.AccountsCheckedBeforeArgs | programs/pinocchio_counter_program/src/instructions/set_count_v1.rs:99-100 | bad argument bytes are reported only once the accounts pass; a wrong account count wins |
| CounterSetCount.Execute | programs/pinocchio_counter_program/src/instructions/set_count_v1.rs:59-90 | overwriting the counter's buffer gives exactly `ExecuteSpec`'s view on success and leaves it unchanged on failure |
| CounterDeactivate.ValidateAccounts | programs/pinocchio_counter_program/src/instructions/deactivate_counter_v1.rs:102-147 | succeeds exactly when there are exactly two accounts, the owner signs and is writable, the counter is writable, at the owner's derived address, program-owned and passes the active-record tag guard; each failure is the first failing check's error |
| CounterDeactivate.Reclaimable | programs/pinocchio_counter_program/src/instructions/deactivate_counter_v1.rs:71-77 | the counter keeps the one-byte rent minimum, or all it has when it holds less, and the rest moves |
| CounterDeactivate.ExecuteSpec | programs/pinocchio_counter_program/src/instructions/deactivate_counter_v1.rs:56-85 | succeeds exactly on a decodable record whose stored owner is the signer; the counter then holds only the deactivated tag (which passes the deactivated guard) and the rent minimum of one byte or less, the owner receives the rest, and nothing else changes |
| CounterDeactivate.Run | programs/pinocchio_counter_program/src/instructions/deactivate_counter_v1.rs:88-100 | a successful run had an accepted account list and returns two accounts |
| CounterDeactivate.RunDeactivates | programs/pinocchio_counter_program/src/instructions/deactivate_counter_v1.rs:40-85 | deactivation succeeds exactly for an accepted counter whose stored owner signs; afterwards the counter is the single tag byte with at most the rent minimum, the owner gained, and the lamport total is unchanged |
| CounterDeactivate.RejectsDeactivatedCounter | programs/pinocchio_counter_program/src/instructions/deactivate_counter_v1.rs:135-136 | an already deactivated counter fails the tag guard with `DiscriminatorMismatch(CounterV1Account, DeactivatedAccount)` |
| CounterDeactivate.Execute | programs/pinocchio_counter_program/src/instructions/deactivate_counter_v1.rs:56-85 | writing the tag, resizing and moving the lamports gives exactly `ExecuteSpec`'s views on success and leaves both accounts unchanged on failure |
| CounterReactivate.ValidateAccounts | programs/pinocchio_counter_program/src/instructions/reactivate_counter_v1.rs:117-163 | succeeds exactly when there are three accounts, the payer signs and is writable, the counter is writable and at the payer's derived address, the third key is the system program and the counter passes the deactivated-record guard; no program-owner check; each failure is the first failing check's error |
| CounterReactivate.RestoredCounter | programs/pinocchio_counter_program/src/instructions/reactivate_counter_v1.rs:77-83 | the active tag, the payer as owner, the derived bump, count 0 and zero reserved bytes |
| CounterReactivate.TopUp | programs/pinocchio_counter_program/src/instructions/reactivate_counter_v1.rs:55-61 | the shortfall against a full record's rent minimum: with it the counter reaches the minimum, and any nonzero top-up lands on it exactly |
| CounterReactivate.FundSpec | programs/pinocchio_counter_program/src/instructions/reactivate_counter_v1.rs:63-71 | no transfer without a shortfall; otherwise exactly the system transfer of the shortfall |
| CounterReactivate.ExecuteSpec | programs/pinocchio_counter_program/src/instructions/reactivate_counter_v1.rs:54-100 | fails only when the top-up transfer fails; on success the counter decodes to the restored record, is rent-exempt for 73 bytes, the lamport total is unchanged and nothing else changes |
| CounterReactivate.Run | programs/pinocchio_counter_program/src/instructions/reactivate_counter_v1.rs:103-115 | a successful run had an accepted account list and returns three accounts |
| CounterReactivate.RunReactivates | programs/pinocchio_counter_program/src/instructions/reactivate_counter_v1.rs:40-100 | after success the counter at the derived address holds an active record owned by the payer with count 0 that passes the active guard, is rent-exempt, and the payer paid exactly the shortfall |
| CounterReactivate.RejectsActiveCounter | programs/pinocchio_counter_program/src/instructions/reactivate_counter_v1.rs:153-154 | an active counter fails the deactivated guard with `DiscriminatorMismatch(DeactivatedAccount, CounterV1Account)` |
| CounterReactivate.Execute | programs/pinocchio_counter_program/src/instructions/reactivate_counter_v1.rs:54-100 | the optional transfer, the resize and the record write give exactly `ExecuteSpec`'s views on success and leave both accounts unchanged on failure |
| CounterLifecycle.DeactivatedCounterIsInert | programs/pinocchio_counter_program/src/account_discriminator.rs:62-88 | a counter holding only the deactivated tag is refused by initialize, increment, decrement, set-count and deactivate alike |
| CounterLifecycle.DeactivateThenReactivate | tests/integration-tests/pinocchio_counter/reactivate_counter_v1.rs:23-149 | after a deactivation the same owner's reactivation passes the account checks, and a successful one leaves exactly the record a fresh initialization writes and, when the one-byte rent minimum does not exceed the 73-byte one, a balance of exactly the 73-byte rent minimum, with the lamport total of the two accounts unchanged |
| CounterLifecycle.ReactivatedCounterCounts | tests/integration-tests/pinocchio_counter/reactivate_counter_v1.rs:151-213 | a reactivated counter the program owns can be incremented again and then holds count 1 |
| CounterInitializeClient.New | clients/rust/pinocchio_counter_client/src/instructions/initialize_counter_v1_ix.rs:35-56 | the payer signs and is writable, the counter meta sits at the payer's derived address, the system program is read-only, and the result passes `validate` |
| CounterInitializeClient.Validate | clients/rust/pinocchio_counter_client/src/instructions/initialize_counter_v1_ix.rs:68-97 | succeeds exactly when every metadata requirement holds; otherwise the first failing check in source order names the error, with expected and observed keys |
| CounterInitializeClient.ToInstruction | clients/rust/pinocchio_counter_client/src/instructions/initialize_counter_v1_ix.rs:105-115 | fails only when validation is requested and fails, with `validate`'s error; otherwise the three metas in order and data that parses as the initialize tag with no payload |
| CounterInitializeClient.TryFrom | clients/rust/pinocchio_counter_client/src/instructions/initialize_counter_v1_ix.rs:118-124 | builds an instruction exactly for valid metadata |
| CounterInitializeClient.AcceptedByProgram | programs/pinocchio_counter_program/src/instructions/initialize_counter_v1.rs:103-154 | a built instruction, sent with an empty system-owned counter account, passes the program's account checks and tag parse |
| CounterDeactivateClient.New | clients/rust/pinocchio_counter_client/src/instructions/deactivate_counter_v1_ix.rs:35-56 | the owner signs and is writable, the counter meta sits at the owner's derived address, and the result passes `validate` |
| CounterDeactivateClient.Validate | clients/rust/pinocchio_counter_client/src/instructions/deactivate_counter_v1_ix.rs:63-92 | succeeds exactly when every metadata requirement holds; otherwise the first failing check in source order (address before writability) names the error |
| CounterDeactivateClient.ToInstructionAsWritten | clients/rust/pinocchio_counter_client/src/instructions/deactivate_counter_v1_ix.rs:99-109 | as written: on success the owner, counter and system-program metas, and the deactivate tag |
| CounterDeactivateClient.AsWrittenRejectedByProgram | programs/pinocchio_counter_program/src/instructions/deactivate_counter_v1.rs:106-111 | whatever the accounts hold, the program refuses the as-written instruction with `NotEnoughAccounts(2, 3)` |
| CounterDeactivateClient.ToInstruction | clients/rust/pinocchio_counter_client/src/instructions/deactivate_counter_v1_ix.rs:99-109 | corrected: the same validation, but only the owner and counter metas, which is what the program takes |
| CounterDeactivateClient.TryFromAsWritten | clients/rust/pinocchio_counter_client/src/instructions/deactivate_counter_v1_ix.rs:112-118 | as written: builds an instruction exactly for valid metadata, fails with `validate`'s error otherwise, and sends the three metas owner, counter and system program |
| CounterDeactivateClient.TryFrom | clients/rust/pinocchio_counter_client/src/instructions/deactivate_counter_v1_ix.rs:112-118 | corrected: builds an instruction exactly for valid metadata, fails with `validate`'s error otherwise, and sends only the owner and counter metas |
| CounterDeactivateClient.AcceptedByProgram | programs/pinocchio_counter_program/src/instructions/deactivate_counter_v1.rs:102-147 | the corrected instruction, sent for an active counter the program owns, passes the program's account checks and tag parse |
| CounterReactivateClient.New | clients/rust/pinocchio_counter_client/src/instructions/reactivate_counter_v1_ix.rs:35-56 | the payer signs and is writable, the counter meta sits at the payer's derived address, and the result passes `validate` |
| CounterReactivateClient.Validate | clients/rust/pinocchio_counter_client/src/instructions/reactivate_counter_v1_ix.rs:63-95 | succeeds exactly when every metadata requirement holds; otherwise the first failing check in source order (writability before address) names the error |
| CounterReactivateClient.ToInstruction | clients/rust/pinocchio_counter_client/src/instructions/reactivate_counter_v1_ix.rs:102-112 | fails only with `validate`'s error when validation is requested; otherwise the three metas and the reactivate tag |
| CounterReactivateClient.TryFrom | clients/rust/pinocchio_counter_client/src/instructions/reactivate_counter_v1_ix.rs:115-121 | builds an instruction exactly for valid metadata |
| CounterReactivateClient.AcceptedByProgram | programs/pinocchio_counter_program/src/instructions/reactivate_counter_v1.rs:117-163 | a built instruction, sent for a deactivated counter, passes the program's account checks and tag parse |
| CounterIncrementClient.New | clients/rust/pinocchio_counter_client/src/instructions/increment_count_v1_ix.rs:47-62 | the owner signs and is writable, the counter meta sits at the owner's derived address, and the result passes `validate` |
| CounterIncrementClient.WithOwner | clients/rust/pinocchio_counter_client/src/instructions/increment_count_v1_ix.rs:66-69 | replaces the owner meta and nothing else |
| CounterIncrementClient.WithCounter | clients/rust/pinocchio_counter_client/src/instructions/increment_count_v1_ix.rs:73-76 | replaces the counter meta and nothing else |
| CounterIncrementClient.SettersCommute | clients/rust/pinocchio_counter_client/src/instructions/increment_count_v1_ix.rs:66-76 | the two setters commute, the last write wins, and setting a field to its own value changes nothing |
| CounterIncrementClient.Validate | clients/rust/pinocchio_counter_client/src/instructions/increment_count_v1_ix.rs:83-105 | succeeds exactly when every metadata requirement holds; otherwise the first failing check in source order names the error |
| CounterIncrementClient.RedirectedCounterRejected | clients/rust/pinocchio_counter_client/src/instructions/increment_count_v1_ix.rs:83-105 | a fresh builder pointed at any other counter fails with the address mismatch naming both keys |
| CounterIncrementClient.ToInstruction | clients/rust/pinocchio_counter_client/src/instructions/increment_count_v1_ix.rs:112-122 | fails only with `validate`'s error when validation is requested; otherwise the owner and counter metas and the tag alone |
| CounterIncrementClient.TryFrom | clients/rust/pinocchio_counter_client/src/instructions/increment_count_v1_ix.rs:125-131 | builds an instruction exactly for valid metadata |
| CounterIncrementClient.AcceptedByProgram | programs/pinocchio_counter_program/src/instructions/increment_count_v1.rs:80-117 | a built instruction, sent for an active counter the program owns, passes the program's account checks and tag parse |
| CounterDecrementClient.New | clients/rust/pinocchio_counter_client/src/instructions/decrement_count_v1_ix.rs:47-62 | the owner signs and is writable, the counter meta sits at the owner's derived address, and the result passes `validate` |
| CounterDecrementClient.WithOwner | clients/rust/pinocchio_counter_client/src/instructions/decrement_count_v1_ix.rs:66-69 | replaces the owner meta and nothing else |
| CounterDecrementClient.WithCounter | clients/rust/pinocchio_counter_client/src/instructions/decrement_count_v1_ix.rs:73-76 | replaces the counter meta and nothing else |
| CounterDecrementClient.SettersCommute | clients/rust/pinocchio_counter_client/src/instructions/decrement_count_v1_ix.rs:66-76 | the two setters commute, the last write wins, and setting a field to its own value changes nothing |
| CounterDecrementClient.Validate | clients/rust/pinocchio_counter_client/src/instructions/decrement_count_v1_ix.rs:83-105 | succeeds exactly when every metadata requirement holds; otherwise the first failing check in source order names the error |
| CounterDecrementClient.RedirectedCounterRejected | clients/rust/pinocchio_counter_client/src/instructions/decrement_count_v1_ix.rs:83-105 | a fresh builder pointed at any other counter fails with the address mismatch naming both keys |
| CounterDecrementClient.ToInstruction | clients/rust/pinocchio_counter_client/src/instructions/decrement_count_v1_ix.rs:112-122 | fails only with `validate`'s error when validation is requested; otherwise the owner and counter metas and the tag alone |
| CounterDecrementClient.TryFrom | clients/rust/pinocchio_counter_client/src/instructions/decrement_count_v1_ix.rs:125-131 | builds an instruction exactly for valid metadata |
| CounterDecrementClient.AcceptedByProgram | programs/pinocchio_counter_program/src/instructions/decrement_count_v1.rs:88-119 | a built instruction, sent for an active counter the program owns, passes the program's account checks and tag parse |
| CounterSetCountClient.New | clients/rust/pinocchio_counter_client/src/instructions/set_count_v1_ix.rs:53-69 | the owner signs and is writable, the counter meta sits at the owner's derived address, the count is kept, and the result passes `validate` |
| CounterSetCountClient.WithOwner | clients/rust/pinocchio_counter_client/src/instructions/set_count_v1_ix.rs:73-76 | replaces the owner meta and nothing else |
| CounterSetCountClient.WithCounter | clients/rust/pinocchio_counter_client/src/instructions/set_count_v1_ix.rs:80-83 | replaces the counter meta and nothing else |
| CounterSetCountClient.WithCount | clients/rust/pinocchio_counter_client/src/instructions/set_count_v1_ix.rs:87-90 | replaces the count and nothing else |
| CounterSetCountClient.SettersCommute | clients/rust/pinocchio_counter_client/src/instructions/set_count_v1_ix.rs:73-90 | the three setters commute pairwise and the last write of each wins |
| CounterSetCountClient.CountDoesNotAffectValidation | clients/rust/pinocchio_counter_client/src/instructions/set_count_v1_ix.rs:97-119 | the count never changes `validate`'s verdict |
| CounterSetCountClient.Validate | clients/rust/pinocchio_counter_client/src/instructions/set_count_v1_ix.rs:97-119 | succeeds exactly when every metadata requirement holds; otherwise the first failing check in source order names the error |
| CounterSetCountClient.RedirectedCounterRejected | clients/rust/pinocchio_counter_client/src/instructions/set_count_v1_ix.rs:97-119 | a fresh builder pointed at any other counter fails with the address mismatch naming both keys |
| CounterSetCountClient.ToInstruction | clients/rust/pinocchio_counter_client/src/instructions/set_count_v1_ix.rs:127-143 | fails only with `validate`'s error when validation is requested; otherwise the owner and counter metas and data of 9 bytes: the set-count tag followed by the count's 8 little-endian bytes |
| CounterSetCountClient.TryFrom | clients/rust/pinocchio_counter_client/src/instructions/set_count_v1_ix.rs:146-152 | builds an instruction exactly for valid metadata |
| CounterSetCountClient.AcceptedByProgram | programs/pinocchio_counter_program/src/instructions/set_count_v1.rs:93-107 | a built instruction, sent for a counter the program owns, passes the program's parse and decodes back to the client's count |
| ClientInstruction.View | clients/rust/pinocchio_counter_client/src/instructions/initialize_counter_v1_ix.rs:105-115 | the program sees the meta's key and flags together with the account's owner, lamports and data |
| ClientInstruction.Views | clients/rust/pinocchio_counter_client/src/instructions/initialize_counter_v1_ix.rs:105-115 | the program's account list has one view per meta, position by position |
| ClientInstruction.SignerWritable | clients/rust/pinocchio_counter_client/src/instructions/initialize_counter_v1_ix.rs:40-44 | a meta for the given key that signs and is writable |
| ClientInstruction.Writable | clients/rust/pinocchio_counter_client/src/instructions/initialize_counter_v1_ix.rs:45-49 | a meta for the given key that is writable and does not sign |
| ClientInstruction.SystemProgramMeta | clients/rust/pinocchio_counter_client/src/instructions/initialize_counter_v1_ix.rs:50-54 | the read-only, non-signing meta for the system program |
| Host.SystemProgramId | programs/pinocchio_counter_program/src/instructions/initialize_counter_v1.rs:143 | the system program's id is the all-zero key |
| Host.Resized | programs/pinocchio_counter_program/src/instructions/reactivate_counter_v1.rs:74 | a resize yields the requested length, keeps the old prefix and zero-fills any growth |
| Host.TransferSpec | programs/pinocchio_counter_program/src/instructions/reactivate_counter_v1.rs:64-71 | succeeds exactly when the sender has the amount and the recipient cannot overflow; the recipient gains the amount, the lamport total is preserved and nothing but the balances changes |
| Host.CreateAccountSpec | programs/pinocchio_counter_program/src/instructions/initialize_counter_v1.rs:54-61 | succeeds exactly when the account is empty, system-owned and the payer covers the shortfall; the account then reaches the rent minimum, holds zeroed space owned by the program, and the lamport total is preserved |
| Host.Account.constructor | programs/pinocchio_counter_program/src/instructions/initialize_counter_v1.rs:103-154 | the new account holds exactly the given view |
| Host.Account.Resize | programs/pinocchio_counter_program/src/instructions/reactivate_counter_v1.rs:74 | only the data changes, to the resized data |
| Host.Transfer | programs/pinocchio_counter_program/src/instructions/reactivate_counter_v1.rs:64-71 | the two accounts end exactly as `TransferSpec` prescribes, unchanged on failure |
| Host.CreateAccount | programs/pinocchio_counter_program/src/instructions/initialize_counter_v1.rs:54-61 | the two accounts end exactly as `CreateAccountSpec` prescribes, unchanged on failure |
| Prims.ZeroBytes | programs/pinocchio_counter_program/src/state.rs:54-64 | a run of the given length holding only zeros |
| Prims.DefaultPubkey | programs/pinocchio_counter_program/src/state.rs:54-64 | the all-zero key |
| Prims.LeEncode | programs/pinocchio_counter_program/src/instructions/set_count_v1.rs:7-11 | an encoding of exactly the requested number of bytes |
| Prims.LeDecode | programs/pinocchio_counter_program/src/instructions/set_count_v1.rs:19-21 | decoding `n` bytes yields a value below 256^n |
| VaultAccountDiscriminator.ToByte | programs/pinocchio_sol_vault_program/src/account_discriminator.rs:24-31 | the vault tag is byte 1 and the deactivated tag byte 255, each exactly |
| VaultAccountDiscriminator.FromByte | programs/pinocchio_sol_vault_program/src/account_discriminator.rs:33-43 | accepts exactly bytes 1 and 255, inverts `ToByte` there, and reports any other byte as `Invalid` of that byte |
| VaultAccountDiscriminator.FromByteToByte | programs/pinocchio_sol_vault_program/src/account_discriminator.rs:24-43 | every tag survives the trip through its byte |
| VaultAccountDiscriminator.ExpectedAccountSize | programs/pinocchio_sol_vault_program/src/account_discriminator.rs:84-89 | 34 bytes for a vault, 1 for a deactivated account |
| VaultAccountDiscriminator.Check | programs/pinocchio_sol_vault_program/src/account_discriminator.rs:56-82 | succeeds exactly when the buffer has the expected tag and that tag's size; otherwise missing, invalid, tag mismatch and size mismatch are reported in that order with expected and observed values |
| VaultAccountDiscriminator.TagsExclusive | programs/pinocchio_sol_vault_program/src/account_discriminator.rs:56-89 | no buffer passes both guards, and the deactivated guard passes only the lone deactivated tag |
| VaultInstructionDiscriminator.ToByte | programs/pinocchio_sol_vault_program/src/instructions_discriminator.rs:50-60 | every instruction's tag is a byte from 1 to 5 |
| VaultInstructionDiscriminator.FromByte | programs/pinocchio_sol_vault_program/src/instructions_discriminator.rs:35-48 | accepts exactly bytes 1 to 5, inverts `ToByte` there, and reports any other byte as `Invalid` of that byte |
| VaultInstructionDiscriminator.FromByteToByte | programs/pinocchio_sol_vault_program/src/instructions_discriminator.rs:35-60 | every instruction survives the trip through its byte |
| VaultInstructionDiscriminator.Parse | programs/pinocchio_sol_vault_program/src/instructions_discriminator.rs:26-32 | empty data is `Missing`, an unknown first byte `Invalid`; otherwise the tag and the untouched rest, which together give back the input |
| VaultInstructionDiscriminator.ParseTagged | programs/pinocchio_sol_vault_program/src/instructions_discriminator.rs:26-32 | a tag byte followed by any payload parses to that tag and that payload |
| VaultInstructionDiscriminator.ParseExamples | programs/pinocchio_sol_vault_program/src/instructions_discriminator.rs:66-130 | single cases mirroring the unit tests, not a general property: the unit tests' inputs: empty data, bytes 6 and 255, a lone tag, a tag with payload |
| VaultState.Encode | programs/pinocchio_sol_vault_program/src/state.rs:55-61 | 34 bytes: the tag, the 32 owner bytes, the bump |
| VaultState.Decode | programs/pinocchio_sol_vault_program/src/state.rs:27-48 | succeeds exactly on 34 bytes with a known tag, fails otherwise with `InvalidAccountData`, and re-encoding a decoded record gives the input back |
| VaultState.DecodeEncode | programs/pinocchio_sol_vault_program/src/state.rs:27-61 | decoding an encoded record gives back every field |
| VaultState.EncodeDecode | programs/pinocchio_sol_vault_program/src/state.rs:27-61 | a buffer that decodes is exactly the encoding of its record |
| VaultState.FromBytes | programs/pinocchio_sol_vault_program/src/state.rs:27-48 | the length check, the tag check and the owner copy loop compute exactly `Decode` |
| VaultState.VaultV1Record.constructor | programs/pinocchio_sol_vault_program/src/state.rs:8-13 | a record whose fields, with the owner in a fresh 32-byte array, hold the given value |
| VaultState.VaultV1Record.Owner | programs/pinocchio_sol_vault_program/src/state.rs:63-67 | the key whose bytes are the stored owner bytes |
| VaultState.VaultV1Record.SetOwner | programs/pinocchio_sol_vault_program/src/state.rs:69-72 | the owner bytes become the new key and tag and bump are kept |
| VaultState.VaultV1Record.ToBytes | programs/pinocchio_sol_vault_program/src/state.rs:55-61 | indexed writes into a fresh zeroed array produce exactly `Encode` of the record |
| VaultState.SetOwnerEncodes | programs/pinocchio_sol_vault_program/src/state.rs:55-72 | after setting the owner, the encoding decodes to the new owner with tag and bump kept, and only bytes 1 to 32 differ |
| VaultErrors.LiftInitialize | programs/pinocchio_sol_vault_program/src/error.rs:164-171 | a wrapped host error moves to the outer host-error case, any other initialize error is wrapped as itself; the result is always well formed |
| VaultErrors.LiftDeposit | programs/pinocchio_sol_vault_program/src/error.rs:155-162 | the same lift for deposit errors |
| VaultErrors.LiftWithdraw | programs/pinocchio_sol_vault_program/src/error.rs:182-189 | the same lift for withdraw errors |
| VaultErrors.LiftDeactivate | programs/pinocchio_sol_vault_program/src/error.rs:146-153 | the same lift for deactivate errors |
| VaultErrors.LiftReactivate | programs/pinocchio_sol_vault_program/src/error.rs:173-180 | the same lift for reactivate errors |
| VaultErrors.InitializeLocalCode | programs/pinocchio_sol_vault_program/src/error.rs:38-54 | every initialize error other than a host error has a local code from 0x01 to 0x0a |
| VaultErrors.DepositLocalCodeAsWritten | programs/pinocchio_sol_vault_program/src/error.rs:56-74 | as written: codes 0x01 to 0x09, and no code exactly for `SystemProgramAddressMismatch` |
| VaultErrors.DepositLocalCode | programs/pinocchio_sol_vault_program/src/error.rs:56-74 | corrected: every written code is kept and `SystemProgramAddressMismatch` takes 0x0a |
| VaultErrors.DepositCodeGapReachable | programs/pinocchio_sol_vault_program/src/instructions/deposit_v1.rs:148-150 | a deposit whose checks pass up to a wrong third account fails validation with exactly the error the written table has no code for |
| VaultErrors.WithdrawLocalCode | programs/pinocchio_sol_vault_program/src/error.rs:77-94 | every withdraw error other than a host error has a local code from 0x01 to 0x0b |
| VaultErrors.DeactivateLocalCode | programs/pinocchio_sol_vault_program/src/error.rs:98-110 | every deactivate error other than a host error has a local code from 0x01 to 0x06 |
| VaultErrors.ReactivateLocalCode | programs/pinocchio_sol_vault_program/src/error.rs:114-128 | every reactivate error other than a host error has a local code from 0x01 to 0x08 |
| VaultErrors.ToProgramError | programs/pinocchio_sol_vault_program/src/error.rs:32-132 | host errors pass through unchanged; each instruction's error becomes `Custom` of its instruction's offset plus its local code |
| VaultErrors.DiscriminatorErrorToProgramError | programs/pinocchio_sol_vault_program/src/error.rs:134-144 | a missing tag is `Custom(0x01)` and an invalid one `Custom(0x02)` |
| VaultErrors.CodeNamesInstruction | programs/pinocchio_sol_vault_program/src/error.rs:13-144 | every instruction error becomes a custom code that is not a multiple of 256, whose block (code / 256) is 1 to 5 exactly for initialize, deposit, withdraw, deactivate and reactivate, and that differs from both tag-error codes |
| VaultErrors.InitializeCodesDistinct | programs/pinocchio_sol_vault_program/src/error.rs:38-54 | two initialize errors share a code exactly when they are the same variant |
| VaultErrors.DepositCodesDistinct | programs/pinocchio_sol_vault_program/src/error.rs:56-74 | with the corrected table, two deposit errors share a code exactly when they are the same variant |
| VaultErrors.WithdrawCodesDistinct | programs/pinocchio_sol_vault_program/src/error.rs:77-94 | two withdraw errors share a code exactly when they are the same variant |
| VaultErrors.DeactivateCodesDistinct | programs/pinocchio_sol_vault_program/src/error.rs:98-110 | two deactivate errors share a code exactly when they are the same variant |
| VaultErrors.ReactivateCodesDistinct | programs/pinocchio_sol_vault_program/src/error.rs:114-128 | two reactivate errors share a code exactly when they are the same variant |
| VaultErrors.VaultCodeExamples | programs/pinocchio_sol_vault_program/src/error.rs:32-144 | single cases mirroring the unit tests, not a general property: sample codes: an initialize signer failure is 0x102, the last withdraw code 0x30b, a host error passes through, a bad tag is 0x02 |
| VaultDeposit.ParseArgs | programs/pinocchio_sol_vault_program/src/instructions/deposit_v1.rs:96-106 | fails with `InvalidInstructionData` exactly on fewer than eight bytes; otherwise the amount whose little-endian bytes are the first eight |
| VaultDeposit.ParseArgsEncoded | programs/pinocchio_sol_vault_program/src/instructions/deposit_v1.rs:96-106 | an encoded amount followed by any bytes parses back to that amount |
| VaultDeposit.ValidateAccounts | programs/pinocchio_sol_vault_program/src/instructions/deposit_v1.rs:109-158 | succeeds exactly when there are three accounts, the owner signs and is writable, the vault is writable, at the owner's derived address, owned by the program and passes the vault tag guard, and the third key is the system program; each failure is the first failing check's error |
| VaultDeposit.Parse | programs/pinocchio_sol_vault_program/src/instructions/deposit_v1.rs:70-84 | an account error wins over an argument error; success exactly when both pass |
| VaultDeposit.ExecuteSpec | programs/pinocchio_sol_vault_program/src/instructions/deposit_v1.rs:42-67 | an undecodable vault is `InvalidAccountData`, a stored owner other than the signer `OwnerMismatch`; otherwise exactly the transfer's outcome, after which the vault gains and the owner loses the amount and the record is untouched |
| VaultDeposit.Run | programs/pinocchio_sol_vault_program/src/instructions/deposit_v1.rs:70-84 | a successful run had an accepted account list and returns three accounts |
| VaultDeposit.RunDeposits | programs/pinocchio_sol_vault_program/src/instructions/deposit_v1.rs:42-67 | a successful deposit of an encoded amount was made by the recorded owner and moves exactly that amount from owner to vault, with the vault record and the system program unchanged |
| VaultDeposit.DepositFailsOnlyForFunds | programs/pinocchio_sol_vault_program/src/instructions/deposit_v1.rs:58-64 | for the recorded owner the deposit fails exactly when the owner cannot pay or the vault balance would overflow |
| VaultDeposit.Execute | programs/pinocchio_sol_vault_program/src/instructions/deposit_v1.rs:42-67 | the decode, the owner check and the transfer leave the two accounts exactly as `ExecuteSpec` prescribes, unchanged on failure |
| VaultWithdraw.ParseArgs | programs/pinocchio_sol_vault_program/src/instructions/withdraw_v1.rs:140-151 | fails with `InvalidInstructionData` exactly on fewer than eight bytes; otherwise the amount whose little-endian bytes are the first eight |
| VaultWithdraw.ParseArgsEncoded | programs/pinocchio_sol_vault_program/src/instructions/withdraw_v1.rs:140-151 | an encoded amount followed by any bytes parses back to that amount |
| VaultWithdraw.ValidateAccounts | programs/pinocchio_sol_vault_program/src/instructions/withdraw_v1.rs:153-198 | succeeds exactly when there are two accounts, the owner signs and is writable, the vault is writable, at the owner's derived address, owned by the program and passes the vault tag guard, keeping the derived bump; each failure is the first failing check's error |
| VaultWithdraw.Parse | programs/pinocchio_sol_vault_program/src/instructions/withdraw_v1.rs:114-128 | an account error wins over an argument error; success exactly when both pass |
| VaultWithdraw.Available | programs/pinocchio_sol_vault_program/src/instructions/withdraw_v1.rs:79-85 | the vault's lamports above the rent minimum of a 34-byte account, or 0 when it is below |
| VaultWithdraw.ExecuteSpec | programs/pinocchio_sol_vault_program/src/instructions/withdraw_v1.rs:63-111 | an undecodable vault is `InvalidAccountData`, a stored owner other than the signer `OwnerMismatch`, an amount above the available balance `InsufficientFunds`; success exactly when the recorded owner withdraws no more than what keeps the rent minimum, and then only the two balances move, by the amount |
| VaultWithdraw.RentViolationOnlyBelowMinimum | programs/pinocchio_sol_vault_program/src/instructions/withdraw_v1.rs:94-102 | the rent-minimum error is reached only by a zero amount from a vault already below its rent minimum |
| VaultWithdraw.Run | programs/pinocchio_sol_vault_program/src/instructions/withdraw_v1.rs:114-128 | a successful run had an accepted account list and returns two accounts |
| VaultWithdraw.RunWithdraws | programs/pinocchio_sol_vault_program/src/instructions/withdraw_v1.rs:63-111 | a successful withdrawal of an encoded amount was made by the recorded owner, moves exactly that amount from vault to owner, leaves the vault rent-exempt and its record untouched |
| VaultWithdraw.Execute | programs/pinocchio_sol_vault_program/src/instructions/withdraw_v1.rs:63-111 | the decode, the owner check, both guards and the direct lamport updates leave the two accounts exactly as `ExecuteSpec` prescribes, unchanged on failure |
| VaultInitialize.ValidateAccounts | programs/pinocchio_sol_vault_program/src/instructions/initialize_vault_v1.rs:102-157 | succeeds exactly when there are three accounts, the payer signs and is writable, the vault is writable, at the payer's derived address, empty, with zero lamports and system-owned, and the third key is the system program, keeping the derived bump; each failure is the first failing check's error |
| VaultInitialize.ExecuteSpec | programs/pinocchio_sol_vault_program/src/instructions/initialize_vault_v1.rs:45-85 | succeeds exactly when the account creation does, and fails only with a host error; on success the vault decodes to a fresh record for the payer and the derived bump, is program-owned and rent-exempt, and the lamport total is preserved |
| VaultInitialize.Run | programs/pinocchio_sol_vault_program/src/instructions/initialize_vault_v1.rs:88-100 | a successful run had an accepted account list and returns three accounts |
| VaultInitialize.RunCreatesVault | programs/pinocchio_sol_vault_program/src/instructions/initialize_vault_v1.rs:45-157 | after success the vault at the derived address is program-owned, holds the bytes of tag 1, the payer and the bump, passes the vault guard, is rent-exempt, and the lamport total is preserved |
| VaultInitialize.RejectsExistingVault | programs/pinocchio_sol_vault_program/src/instructions/initialize_vault_v1.rs:134-136 | a vault already holding a record, active or deactivated, is refused with `VaultMustBeEmpty` |
| VaultInitialize.Execute | programs/pinocchio_sol_vault_program/src/instructions/initialize_vault_v1.rs:45-85 | the account creation, `to_bytes` on a fresh record and the copy leave the two accounts exactly as `ExecuteSpec` prescribes, unchanged on failure |
| VaultDeactivate.ValidateAccounts | programs/pinocchio_sol_vault_program/src/instructions/deactivate_vault_v1.rs:87-128 | succeeds exactly when there are two accounts, the owner signs and is writable, the vault is writable, at the owner's derived address and passes the active-vault tag guard; no program-owner check; each failure is the first failing check's error |
| VaultDeactivate.Reclaimable | programs/pinocchio_sol_vault_program/src/instructions/deactivate_vault_v1.rs:56-62 | never more than the vault holds, and what stays is the vault's balance or the one-byte rent minimum, whichever is smaller |
| VaultDeactivate.ExecuteSpec | programs/pinocchio_sol_vault_program/src/instructions/deactivate_vault_v1.rs:50-70 | the vault holds only the deactivated tag, which passes the deactivated guard, and keeps at most the one-byte rent minimum; the rest goes to the owner, the lamport total is preserved and nothing else changes |
| VaultDeactivate.Run | programs/pinocchio_sol_vault_program/src/instructions/deactivate_vault_v1.rs:73-85 | succeeds exactly for an accepted account list and returns two accounts |
| VaultDeactivate.RunDeactivates | programs/pinocchio_sol_vault_program/src/instructions/deactivate_vault_v1.rs:50-128 | every accepted deactivation leaves the vault's key and program owner, the lone deactivated tag and at most the one-byte rent minimum, never takes from the owner, and preserves the lamport total |
| VaultDeactivate.IgnoresStoredOwner | programs/pinocchio_sol_vault_program/src/instructions/deactivate_vault_v1.rs:87-128 | a vault whose record names another owner is still deactivated for whoever signs for the derived address |
| VaultDeactivate.RejectsDeactivatedVault | programs/pinocchio_sol_vault_program/src/instructions/deactivate_vault_v1.rs:119-120 | a vault holding the lone deactivated tag is refused with the tag mismatch |
| VaultDeactivate.Execute | programs/pinocchio_sol_vault_program/src/instructions/deactivate_vault_v1.rs:50-70 | the tag write, the resize and the direct lamport updates leave the two accounts exactly as `ExecuteSpec` prescribes |
| VaultReactivate.ValidateAccounts | programs/pinocchio_sol_vault_program/src/instructions/reactivate_vault_v1.rs:115-161 | succeeds exactly when there are three accounts, the payer signs and is writable, the vault is writable and at the payer's derived address, the third key is the system program and the vault passes the deactivated-tag guard; no program-owner check; each failure is the first failing check's error |
| VaultReactivate.TopUp | programs/pinocchio_sol_vault_program/src/instructions/reactivate_vault_v1.rs:52-57 | the shortfall against a full record's rent minimum: with it the vault reaches the minimum, and any nonzero top-up lands on it exactly |
| VaultReactivate.FundSpec | programs/pinocchio_sol_vault_program/src/instructions/reactivate_vault_v1.rs:59-67 | no transfer without a shortfall; otherwise exactly the system transfer of the shortfall |
| VaultReactivate.ExecuteSpec | programs/pinocchio_sol_vault_program/src/instructions/reactivate_vault_v1.rs:51-98 | fails only when the top-up transfer fails; on success the vault holds the record a fresh vault of the payer would hold, is rent-exempt, the lamport total is preserved and nothing else changes |
| VaultReactivate.Run | programs/pinocchio_sol_vault_program/src/instructions/reactivate_vault_v1.rs:101-113 | a successful run had an accepted account list and returns three accounts |
| VaultReactivate.RunReactivates | programs/pinocchio_sol_vault_program/src/instructions/reactivate_vault_v1.rs:51-161 | after success the vault at the derived address holds tag 1, the payer and the bump, passes the active guard, is rent-exempt, the payer paid exactly the shortfall and the system program is untouched |
| VaultReactivate.RejectsActiveVault | programs/pinocchio_sol_vault_program/src/instructions/reactivate_vault_v1.rs:151-152 | an active vault fails the deactivated guard with the tag mismatch |
| VaultReactivate.Execute | programs/pinocchio_sol_vault_program/src/instructions/reactivate_vault_v1.rs:51-98 | the optional transfer, the resize and the `to_bytes` copy leave the two accounts exactly as `ExecuteSpec` prescribes, unchanged on failure |
| VaultLifecycle.FreshVaultHasNothingToWithdraw | programs/pinocchio_sol_vault_program/src/instructions/withdraw_v1.rs:79-92 | a newly initialized vault holds exactly the rent minimum, so any positive withdrawal from it fails with `InsufficientFunds(0, amount)` |
| VaultLifecycle.WithdrawUndoesDeposit | tests/integration-tests/pinocchio_sol_vault/withdraw_v1.rs:14-71 | from a rent-exempt vault, withdrawing just what was deposited is accepted and restores both balances |
| VaultLifecycle.DeactivateThenReactivate | tests/integration-tests/pinocchio_sol_vault/reactivate_vault_v1.rs:17-79 | a deactivation by the owner is followed by an accepted reactivation, and a successful one writes the very bytes the owner's first initialization writes |
| VaultLifecycle.DeactivatedVaultIsInert | programs/pinocchio_sol_vault_program/src/account_discriminator.rs:56-82 | a vault holding only the deactivated tag takes no deposit, withdrawal, second deactivation or initialization |
| VaultEntrypoint.HandleInstructionError | programs/pinocchio_sol_vault_program/src/entrypoint.rs:63-68 | `.map_err(handle_instruction_error)` on a handler's result: a success passes through unchanged; a failure becomes the `ProgramError` of the lifted `InstructionError` |
| VaultEntrypoint.Process | programs/pinocchio_sol_vault_program/src/entrypoint.rs:14-68 | empty data fails with `Custom(0x01)` and an unknown tag with `Custom(0x02)`; a success returns as many accounts as it was given |
| VaultEntrypoint.ExecutesOnlyAfterValidation | programs/pinocchio_sol_vault_program/src/entrypoint.rs:19-52 | a successful run had a known tag and passed that instruction's account checks |
| VaultEntrypoint.ErrorBlockIsTag | programs/pinocchio_sol_vault_program/src/entrypoint.rs:19-68 | a custom error from a known tag lies in the block numbered by that tag byte |
| VaultEntrypoint.ProcessDeposit | programs/pinocchio_sol_vault_program/src/entrypoint.rs:29-33 | a successful deposit by tag moves exactly the encoded amount from owner to vault |
| VaultEntrypoint.ProcessWithdraw | programs/pinocchio_sol_vault_program/src/entrypoint.rs:35-39 | a successful withdrawal by tag moves exactly the encoded amount from vault to owner and leaves the vault rent-exempt |
| VaultDepositClient.New | clients/rust/pinocchio_sol_vault_client/src/instructions/deposit_v1_ix.rs:36-58 | the owner signs and is writable, the vault meta sits at the owner's derived address, the system program is read-only, the amount is kept, and the result passes `validate` |
| VaultDepositClient.Validate | clients/rust/pinocchio_sol_vault_client/src/instructions/deposit_v1_ix.rs:65-97 | succeeds exactly when every metadata requirement holds; otherwise the first failing check in source order names the error, with expected and observed keys |
| VaultDepositClient.AmountDoesNotAffectValidation | clients/rust/pinocchio_sol_vault_client/src/instructions/deposit_v1_ix.rs:65-97 | the amount never changes `validate`'s verdict |
| VaultDepositClient.Build | clients/rust/pinocchio_sol_vault_client/src/instructions/deposit_v1_ix.rs:104-115 | fails exactly when `validate` does, with its error; otherwise the three metas in order and 9 data bytes, the deposit tag and the amount, which the program's parses read back as the same amount |
| VaultDepositClient.AcceptedByProgram | programs/pinocchio_sol_vault_program/src/instructions/deposit_v1.rs:70-158 | a built instruction, sent for an active vault the program owns, passes the program's account checks and its payload parses to the builder's amount |
| VaultWithdrawClient.New | clients/rust/pinocchio_sol_vault_client/src/instructions/withdraw_v1_ix.rs:32-49 | the owner signs and is writable, the vault meta sits at the owner's derived address, the amount is kept, and the result passes `validate` |
| VaultWithdrawClient.Validate | clients/rust/pinocchio_sol_vault_client/src/instructions/withdraw_v1_ix.rs:56-79 | succeeds exactly when every metadata requirement holds; otherwise the first failing check in source order names the error |
| VaultWithdrawClient.AmountDoesNotAffectValidation | clients/rust/pinocchio_sol_vault_client/src/instructions/withdraw_v1_ix.rs:56-79 | the amount never changes `validate`'s verdict |
| VaultWithdrawClient.Build | clients/rust/pinocchio_sol_vault_client/src/instructions/withdraw_v1_ix.rs:86-97 | fails exactly when `validate` does, with its error; otherwise the owner and vault metas and 9 data bytes, the withdraw tag and the amount, which the program's parses read back as the same amount |
| VaultWithdrawClient.AcceptedByProgram | programs/pinocchio_sol_vault_program/src/instructions/withdraw_v1.rs:114-198 | a built instruction, sent for an active vault the program owns, passes the program's account checks and its payload parses to the builder's amount |
| VaultDeactivateClient.New | clients/rust/pinocchio_sol_vault_client/src/instructions/deactivate_vault_v1_ix.rs:31-47 | the owner signs and is writable, the vault meta sits at the owner's derived address, and the result passes `validate` |
| VaultDeactivateClient.Validate | clients/rust/pinocchio_sol_vault_client/src/instructions/deactivate_vault_v1_ix.rs:54-77 | succeeds exactly when every metadata requirement holds; otherwise the first failing check in source order names the error |
| VaultDeactivateClient.Build | clients/rust/pinocchio_sol_vault_client/src/instructions/deactivate_vault_v1_ix.rs:84-94 | fails exactly when `validate` does, with its error; otherwise the owner and vault metas and the lone deactivate tag |
| VaultDeactivateClient.AcceptedByProgram | programs/pinocchio_sol_vault_program/src/instructions/deactivate_vault_v1.rs:87-128 | a built instruction, sent for an active vault record, passes the program's account checks and tag parse |
| VaultReactivateClient.New | clients/rust/pinocchio_sol_vault_client/src/instructions/reactivate_vault_v1_ix.rs:35-56 | the payer signs and is writable, the vault meta sits at the payer's derived address, the system program is read-only, and the result passes `validate` |
| VaultReactivateClient.Validate | clients/rust/pinocchio_sol_vault_client/src/instructions/reactivate_vault_v1_ix.rs:63-95 | succeeds exactly when every metadata requirement holds; otherwise the first failing check in source order names the error |
| VaultReactivateClient.Build | clients/rust/pinocchio_sol_vault_client/src/instructions/reactivate_vault_v1_ix.rs:102-112 | fails exactly when `validate` does, with its error; otherwise the three metas in order and the lone reactivate tag |
| VaultReactivateClient.AcceptedByProgram | programs/pinocchio_sol_vault_program/src/instructions/reactivate_vault_v1.rs:115-161 | a built instruction, sent for a vault holding the deactivated tag alone, passes the program's account checks and tag parse |
| SolanaClock.SecondsFor | tests/integration-tests/clock_utils.rs:38-39 | the number of whole seconds that `n` slots of 400 ms cover, rounded down |
| SolanaClock.CheckedAdd | tests/integration-tests/clock_utils.rs:45-51 | `i64::checked_add`: a value exactly when the sum stays in the `i64` range, and then the sum itself |
| SolanaClock.CheckedSub | tests/integration-tests/clock_utils.rs:66-71 | `i64::checked_sub`: a value exactly when the difference stays in the `i64` range, and then the difference itself |
| SolanaClock.AsI64 | tests/clock_utils.rs:17 | reinterprets a `u64` as an `i64`: unchanged up to `i64::MAX`, wrapped by 2^64 beyond it, and always congruent modulo 2^64 |
| SolanaClock.SecondsIntoEpochBound | tests/integration-tests/clock_utils.rs:59-60 | the seconds from the start of an epoch to any slot in it are below 172800, so the `i64` conversion of that value never fails |
| SolanaClock.SecondsForFitsI64 | tests/integration-tests/clock_utils.rs:39-44 | when the millisecond product fits a `u64`, the advance in seconds fits an `i64`, so that conversion never fails |
| ClockChecked.AdvanceClock | tests/integration-tests/clock_utils.rs:34-81 | succeeds exactly when the new timestamp fits an `i64` and, on an epoch change, the new epoch-start timestamp does too; reports overflow and underflow with their operands; on success the slot grows by `n_slots`, the epoch is the new slot's epoch, the timestamp grows by the elapsed seconds, the leader-schedule epoch is kept, and the epoch start is kept within an epoch and otherwise lies the seconds-into-epoch before the new timestamp |
| ClockChecked.EpochStartKeptWithinEpoch | tests/integration-tests/clock_utils.rs:53-55 | for a clock whose epoch matches its slot, the epoch never decreases, and the epoch-start timestamp is kept when no epoch boundary is crossed |
| ClockChecked.Monotone | tests/integration-tests/clock_utils.rs:21-28 | advancing never moves the slot, the epoch or the timestamp backwards |
| ClockChecked.AdvanceTwice | tests/integration-tests/clock_utils.rs:35-39 | two advances reach the same slot and epoch as one advance by the sum, and a timestamp at most one second behind it |
| ClockChecked.RoundingSplit | tests/integration-tests/clock_utils.rs:39 | splitting a number of slots in two loses at most one second to rounding |
| ClockChecked.WithinEpochExample | tests/integration-tests/clock_utils.rs:87-102 | single cases mirroring the unit tests, not a general property: slot 1000 at 400 s, advanced by 100 slots, is slot 1100 at 440 s in epoch 0 with the epoch start kept |
| ClockChecked.CrossesEpochExample | tests/integration-tests/clock_utils.rs:104-120 | single cases mirroring the unit tests, not a general property: 100 slots before epoch 1, advanced by 200 slots, lands in epoch 1 at slot 432100 with a later epoch start, 172840 |
| ClockUnchecked.AdvanceClock | tests/clock_utils.rs:11-37 | on inputs that do not overflow, the slot grows by `n_slots`, the epoch is the new slot's epoch, the timestamp grows by the elapsed seconds, the leader-schedule epoch is kept, and the epoch start is kept within an epoch and otherwise lies the seconds-into-epoch before the new timestamp |
| ClockUnchecked.AgreesWithChecked | tests/clock_utils.rs:11-37 | the plain-arithmetic helper avoids every overflow exactly when the checked helper succeeds, and the two then produce the same clock |
| ClockUnchecked.WithinEpochExample | tests/clock_utils.rs:43-58 | single cases mirroring the unit tests, not a general property: slot 1000 at 400 s, advanced by 100 slots, is slot 1100 at 440 s in epoch 0 with the epoch start kept |
| ClockUnchecked.CrossesEpochExample | tests/clock_utils.rs:60-76 | single cases mirroring the unit tests, not a general property: 100 slots before epoch 1, advanced by 200 slots, lands in epoch 1 at slot 432100 with a later epoch start, 172840 |

## Left out

- Logging (`msg!`) and all other I/O have no effect on any modelled state and are left out.
- Program-derived addresses and rent are abstract functions in `Host.Env`, with no constraint on their results. The only fixed fact is that the system program's id is the all-zero key. The SHA-256 search for a bump seed, the off-curve property of derived addresses and the rent formula are not modelled.
- System-program calls are modelled with the failures that depend on the accounts' balances and state. `Host.TransferSpec` fails with `InsufficientFunds` when the sender lacks the amount and with `ArithmeticOverflow` when the recipient's balance would pass `u64::MAX`. `Host.CreateAccountSpec` fails with `AccountAlreadyInUse` when the account has data or is not system-owned, and with `InsufficientFunds` when the payer cannot cover the shortfall. The instructions pass these errors on.
- Other failures of the system program are not modelled, such as refusing a funding account that is not system-owned or that carries data, or a missing signature on the invocation. Failures of the cross-program invocation itself are not modelled either.
- The runtime's own failures are not modelled: borrow conflicts, a failing `resize` and a failing `Rent::get`. Each would abort the instruction with a `ProgramError`. In the model these operations always succeed.
- The layout of `CounterV1` is modelled as the fixed 73-byte little-endian layout that `wincode` produces for that struct. The serialisation library itself is not part of this model.
- CounterSetCount.DeserializeArgs: accepts exactly eight bytes, on the assumption that `wincode::deserialize` rejects bytes left over after the `u64` count. Neither the source nor this model shows the library's behaviour. If the library ignores trailing bytes, the program also accepts longer argument data, reading its first eight bytes.
- CounterLifecycle.DeactivateThenReactivate: requires that the rent minimum for one byte is at most the minimum for 73 bytes. `Host.Env` leaves rent unconstrained, while the runtime's rent grows with size.
- Aliasing of account infos: every `Execute` method requires distinct `Account` objects. The runtime's duplicate-account handling is not modelled.
- CounterDeactivate.ExecuteSpec: requires `LamportsFit`, meaning the owner's and the counter's balances together fit a `u64`. The source's unchecked `+=` on the owner's lamports would overflow otherwise, and the runtime's total supply keeps that from happening.
- CounterDeactivate.Run: requires `LamportsFit` on a two-account list, for the same reason.
- VaultWithdraw.ExecuteSpec: requires `LamportsFit`, because the owner's credit is an unchecked `+=` in the source.
- VaultWithdraw.Run: requires `LamportsFit` on a two-account list, for the same reason.
- VaultDeactivate.ExecuteSpec: requires `LamportsFit`, because the owner's credit is an unchecked `+=` in the source.
- VaultDeactivate.ExecuteSpec: requires a non-empty data buffer. The source writes `data[0]` and would panic on an empty buffer, which its discriminator check has already excluded.
- VaultDeactivate.Run: requires `LamportsFit` on a two-account list, for the same reason as `ExecuteSpec`.
- VaultEntrypoint.Process: requires `LamportsFit` on a two-account list, because it runs the withdraw and deactivate paths.
- ClockChecked.AdvanceClock: requires that the slot sum and the millisecond product fit a `u64`. The source computes both with plain `+` and `*`, which panic in a debug build. Under that precondition the seconds always fit an `i64`, so `TimeAdvancementTooLarge` and `EpochSecondsTooLarge` can never be returned. The model keeps both branches, and they are unreachable.
- ClockUnchecked.AdvanceClock: requires `NoPanic`, meaning every plain `u64` and `i64` operation of the helper stays in range. A panic is not a value the model can return.
- The transaction builders and the test scaffolding have no write path into the programs' state and are not part of this model:
  - the transaction builders (`*_tx.rs`);
  - the integration-test scaffolding (LiteSVM set-up, fixtures, assertions);
  - the deliberately malicious instruction builders of the security tests.
- Stale files are not part of this model. They do not take part in the deployed programs:
  - the first counter crate's `entrypoint.rs`, a hello-world stub;
  - `programs/pinocchio_counter_program/src/entrypoint.rs`, whose arms other than `CreateCounterV1` are `todo!()` and which names a `DeleteCounterV1` tag that the current discriminator does not have;
  - the `mod.rs` and `lib.rs` re-export lists;
  - the `From` conversions that name error variants which do not exist.

  The first crate's error table and the older five-tag discriminator are modelled (`CounterLegacyErrors`, `CounterLegacyDiscriminator`).
- The set-count client declares `SerializationError`, and the model declares it too, but no code path produces it, so no modelled builder ever returns it.
- `ReactivateCounterV1` builds its `CounterV1` literal (programs/pinocchio_counter_program/src/instructions/reactivate_counter_v1.rs:78-83) with no `reserved` field and no `..Default::default()`, so that file does not build against the `CounterV1` of state.rs. Writing zeros there is a choice of this model. It matches `impl Default for CounterV1` (state.rs:54-64) and the record literal of `InitializeCounterV1` (initialize_counter_v1.rs:63-69), both of which set `reserved: [0; 31]`.
- programs/pinocchio_counter_program/src/state.rs:4-8 declares its own one-variant `AccountDiscriminator { CounterV1 = 1 }`, which clashes with the `AccountDiscriminator` that lib.rs:12 re-exports and with the `AccountDiscriminator::CounterV1Account` that the handlers name (initialize_counter_v1.rs:64, decrement_count_v1.rs:46). The model uses the two-tag enum of account_discriminator.rs, with `CounterV1Account = 1` and `DeactivatedAccount = 255`; the one-variant enum is not part of this model.
- `ReactivateCounterV1`, `ReactivateVaultV1` and `DeactivateVaultV1` do not check that the program owns the account. The model follows the code and does not check either.
- `find_counter_v1_address` is not exported by the client crate's `lib.rs`. Both counter address derivations are modelled by the single function `Env.deriveCounter`.

## Findings

| source | as written | input that shows it | evidently intended | confidence | as-written member | corrected member |
|---|---|---|---|---|---|---|
| programs/pinocchio_sol_vault_program/src/error.rs:56-74 | the local code table for `DepositV1Error` has no arm for `SystemProgramAddressMismatch`, declared at deposit_v1.rs:28 and returned at deposit_v1.rs:148-150, so the `match` is not exhaustive and the crate does not build as written | a deposit whose third account is not the system program, for an otherwise valid owner and vault | that error gets the next free local code, 0x0a, distinct from the nine others | not executed | VaultErrors.DepositCodeGapReachable | VaultErrors.DepositCodesDistinct |
| clients/rust/pinocchio_counter_client/src/instructions/deactivate_counter_v1_ix.rs:99-109 | `to_instruction` sends owner, counter and system program, while the program's account parse at deactivate_counter_v1.rs:106-111 accepts exactly two accounts | any instruction the builder produces, for any account contents: the program answers `NotEnoughAccounts { expected: 2, observed: 3 }`; the integration test `succeeds` at tests/integration-tests/pinocchio_counter/deactivate_counter_v1.rs:19-52 sends exactly these three metas (built with `to_instruction(true)` at deactivate_counter_v1_tx.rs:45) and expects success, which the program text does not allow | the builder sends [owner, counter], which the program accepts for an active counter it owns | not executed | CounterDeactivateClient.AsWrittenRejectedByProgram | CounterDeactivateClient.AcceptedByProgram |
