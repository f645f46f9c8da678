# Energy tokenization ledger

A model of the in-memory token ledger `mockContract` in `tests/energy-tokenization.test.ts`.
The ledger keeps three things:

- an admin identity;
- a producer table that maps an identity to a name and a `verified` flag;
- a balance table that maps an identity to an amount. An absent entry reads as 0.

It offers `isAdmin` and six guarded operations. Each operation either returns an error code and
changes nothing, or changes the state and returns `{ value: true }`. `transferAdmin` reassigns the
admin; the other five update the producer or balance table in place. The codes are 100 for not authorised, 101 for already registered,
102 for not found, 103 for an invalid amount and 104 for an insufficient balance.

The project has five modules:

- `LedgerState` (`ledger_state.dfy`) holds the state as a value and one pure transition per operation. Each transition's contract gives its error cases in the source's order, says that a failed call leaves the state unchanged, and gives the new state after a successful call, with every other entry unchanged.
- `MockContract` (`mock_contract.dfy`) holds the class `Ledger`. Its fields are `admin`, `producers` and `balances`. The source reassigns `admin` and updates the two `Map` objects in place with `Map.set`; the model's methods assign a new map value to `producers` or `balances` instead. Nothing else holds a reference to those maps, so the two cannot be told apart. Each method is proved to take the object from `old(Snapshot())` to exactly the state its transition prescribes, and to keep the invariant that no balance is negative.
- `Supply` (`supply.dfy`) defines the total supply, the sum of all balances. It proves how each balance-changing operation moves that total.
- `Traces` (`traces.dfy`) covers arbitrary sequences of calls. It proves by induction that balances stay non-negative, that producer records are never lost or un-verified, and that the supply changes only through mints, burns and self-transfers.
- `Scenarios` (`scenarios.dfy`) holds the test suite's cases as client methods of `Ledger`, plus one self-transfer case for lines 48-50. Each starts from a fresh ledger and is proved from the method contracts alone.

## Self-transfers

`transferEnergy` reads the recipient's balance before it writes the sender's. When sender and
recipient are the same identity, the second write therefore wins and the balance ends `amount`
higher than it started. The model reproduces this behaviour. `LedgerState.Transfer` states
balance conservation only for distinct parties and states the self-transfer result separately.
`Supply.TransferSupply` shows that a self-transfer raises the total supply by `amount`.
Conservation of the two parties' combined balance therefore holds only when they are distinct.

## Model

| member | source | states |
|---|---|---|
| `LedgerState.Code` | tests/energy-tokenization.test.ts:13-55 | not authorised is 100, already registered 101, not found 102, invalid amount 103, insufficient balance 104, each code naming exactly one error |
| `LedgerState.Initial` | tests/energy-tokenization.test.ts:4-6 | a fresh ledger has admin "STADMIN", no producer records and no balances |
| `LedgerState.BalanceOf` | tests/energy-tokenization.test.ts:31 | a balance read gives the stored amount, or 0 for an identity with no entry; it is never negative in a table without negative entries; every balance read at lines 31, 38, 46 and 48 goes through it |
| `MockContract.Ledger.constructor` | tests/energy-tokenization.test.ts:62-66 | a new ledger has admin "STADMIN", no producers and no balances, and satisfies the invariant |
| `MockContract.Ledger.IsAdmin` | tests/energy-tokenization.test.ts:8-10 | true exactly when the caller is the current admin |
| `LedgerState.Register` | tests/energy-tokenization.test.ts:12-16 | error 101 exactly when the caller is already registered, and then nothing changes; otherwise the caller gets an unverified record under the given name, and no other record, the admin and the balances are unchanged |
| `LedgerState.Verify` | tests/energy-tokenization.test.ts:18-24 | error 100 for a non-admin caller before any lookup; error 102 for an unknown producer; success exactly when the admin names a registered producer, which then becomes verified under the same name while all other records stay the same; a failure changes nothing |
| `LedgerState.Mint` | tests/energy-tokenization.test.ts:26-34 | errors in the order 103 (amount at most 0), 102 (caller not registered), 100 (caller unverified); success exactly when none applies; the caller's balance then grows by exactly the amount (from 0 if absent) and every other balance is unchanged |
| `LedgerState.Burn` | tests/energy-tokenization.test.ts:36-42 | error 103 for amount at most 0, then error 104 when the balance is below the amount; on success the caller's balance drops by exactly the amount, stays at least 0, and every other balance is unchanged |
| `LedgerState.Transfer` | tests/energy-tokenization.test.ts:44-52 | error 103 for amount at most 0, then error 104 when the sender's balance is below the amount; for distinct parties a success moves exactly the amount and conserves their sum; a self-transfer leaves the balance at the old balance plus the amount; no third balance changes |
| `LedgerState.ChangeAdmin` | tests/energy-tokenization.test.ts:54-58 | error 100 exactly when the caller is not the admin, and then nothing changes; on success the admin becomes the new identity and both tables are untouched |
| `MockContract.Ledger.RegisterProducer` | tests/energy-tokenization.test.ts:12-16 | returns the outcome and leaves the object in the state `LedgerState.Register` prescribes; keeps balances non-negative |
| `MockContract.Ledger.VerifyProducer` | tests/energy-tokenization.test.ts:18-24 | returns the outcome and leaves the object in the state `LedgerState.Verify` prescribes; keeps balances non-negative |
| `MockContract.Ledger.MintEnergy` | tests/energy-tokenization.test.ts:26-34 | returns the outcome and leaves the object in the state `LedgerState.Mint` prescribes; keeps balances non-negative |
| `MockContract.Ledger.BurnEnergy` | tests/energy-tokenization.test.ts:36-42 | returns the outcome and leaves the object in the state `LedgerState.Burn` prescribes; keeps balances non-negative |
| `MockContract.Ledger.TransferEnergy` | tests/energy-tokenization.test.ts:44-52 | returns the outcome and leaves the object in the state `LedgerState.Transfer` prescribes, including the self-transfer case; keeps balances non-negative |
| `MockContract.Ledger.TransferAdmin` | tests/energy-tokenization.test.ts:54-58 | returns the outcome and leaves the object in the state `LedgerState.ChangeAdmin` prescribes; keeps balances non-negative |
| `Supply.MintSupply` | tests/energy-tokenization.test.ts:31-32 | a successful mint raises the total supply by exactly the amount |
| `Supply.BurnSupply` | tests/energy-tokenization.test.ts:38-40 | a successful burn lowers the total supply by exactly the amount |
| `Supply.TransferSupply` | tests/energy-tokenization.test.ts:46-50 | a successful transfer between distinct parties conserves the total supply; a self-transfer raises it by the amount |
| `Traces.FailedCallChangesNothing` | tests/energy-tokenization.test.ts:12-58 | any call that returns an error leaves admin, producers and balances exactly as they were |
| `Traces.AdminChangesOnlyByHandOver` | tests/energy-tokenization.test.ts:54-58 | the admin changes only through transferAdmin called by the current admin |
| `Traces.StepKeepsNonNegative` | tests/energy-tokenization.test.ts:26-52 | no single call makes a balance negative |
| `Traces.RunKeepsNonNegative` | tests/energy-tokenization.test.ts:26-52 | no sequence of calls makes a balance negative |
| `Traces.ReachableNonNegative` | tests/energy-tokenization.test.ts:3-58 | every ledger reachable from a fresh one has only non-negative balances and a non-negative total supply |
| `Traces.StepKeepsProducers` | tests/energy-tokenization.test.ts:12-24 | no call deletes or renames a producer record or clears its verified flag |
| `Traces.RunKeepsProducers` | tests/energy-tokenization.test.ts:12-24 | no sequence of calls deletes or renames a producer record or clears its verified flag |
| `Traces.StepSupply` | tests/energy-tokenization.test.ts:26-52 | one call changes the total supply by the amount of a successful mint or self-transfer, minus the amount of a successful burn, and by nothing otherwise |
| `Traces.RunSupply` | tests/energy-tokenization.test.ts:26-52 | a sequence of calls changes the total supply by exactly the sum of those per-call changes |
| `Traces.TransfersConserveSupply` | tests/energy-tokenization.test.ts:44-52 | a sequence made only of transfers between distinct parties conserves the total supply |
| `Scenarios.RegistersNewProducer` | tests/energy-tokenization.test.ts:68-71 | registering "STPROD1" on a fresh ledger succeeds |
| `Scenarios.AdminVerifiesProducer` | tests/energy-tokenization.test.ts:73-77 | the admin's verification of a registered producer succeeds |
| `Scenarios.MintsForVerifiedProducer` | tests/energy-tokenization.test.ts:79-85 | a verified producer mints 100 and then holds 100 |
| `Scenarios.MintFailsUnverified` | tests/energy-tokenization.test.ts:87-91 | an unverified producer's mint fails with code 100 |
| `Scenarios.BurnsTokens` | tests/energy-tokenization.test.ts:93-100 | burning 50 of 100 succeeds and leaves 50 |
| `Scenarios.TransfersBetweenUsers` | tests/energy-tokenization.test.ts:102-110 | transferring 60 of 100 to "STUSER1" succeeds and leaves 40 and 60 |
| `Scenarios.TransfersAdminRole` | tests/energy-tokenization.test.ts:112-116 | the admin's hand-over to "STNEWADMIN" succeeds and makes it the admin |
| `Scenarios.SelfTransferRaisesBalance` | tests/energy-tokenization.test.ts:44-52 | transferring 60 of 100 from "STPROD1" to itself succeeds and leaves 160 |

## Left out

- JavaScript number semantics are not modelled. Amounts are mathematical integers, so fractional amounts, NaN and loss of integer precision above 2^53 cannot occur. A NaN amount would pass the `amount <= 0` guard in the source.
- The `|| 0` coercion also maps other falsy stored values to 0. The model reads only an absent entry as 0. The only other falsy value an integer ledger can store is 0, which reads the same either way.
- Producer records and the two tables are values in the model, not objects. The source sets `verified` on the stored record object itself, and updates the producer and balance `Map` objects in place with `Map.set`. The record is created when the producer registers and is reachable only through the producer table, and the two maps are reachable only through the ledger's fields. So changing them in place and assigning a new value cannot be told apart, and aliasing of these objects is not modelled.
- Producer names are opaque strings. They are stored and never inspected.
- The test runner itself is not modelled: `describe`, `it`, `expect` and the surrounding harness. The `beforeEach` reset is the `Ledger` constructor. Each test case is a `Scenarios` method that starts from a fresh ledger.
- There is no authentication, persistence or concurrency in the source, and none in the model. Identities are compared only for equality.
