# Token ledger runtime module

A model of the `Balances` runtime module of the starter-kit app-chain: a token
ledger that keeps per-account balances under the key `(tokenId, address)`, one
circulating-supply counter capped by a configured total supply, and two
runtime methods. `addBalance` mints up to the cap. `updateBalance` moves an
account to a target balance and settles the difference against a pool account.
A failed `assert` aborts the whole transition and discards all of its writes.

- `uint64.dfy` (module `UInt64`): `Balance` is a natural number below 2^64, with
  checked addition and subtraction that fail instead of wrapping.
- `ledger.dfy` (module `Ledger`): the state as a value, and every transition as a
  function to `Ok(newState)` or `Fail(error)`. Also `Run`, which applies a
  sequence of calls, and the lemmas about all of these.
- `balances.dfy` (module `Runtime`): the class `Balances`. Its fields are
  `totalSupply`, `circulatingSupply` and `balances`. Its methods perform the
  source's reads, checks and writes in order. `Mint`, `Transfer`, `AddBalance`,
  `UpdateBalance` and `UpdateBalanceAsWritten` are each proved equal to the
  `Ledger` function of the same name; `GetBalance` is proved to read the store
  as `Ledger.BalanceOf` does. A failed method leaves the object unchanged.
- `scenarios.dfy` (module `Scenarios`): the repository's test scenarios replayed
  on the class, plus a two-token scenario for the shared supply counter.

The selection in `updateBalance` is modelled twice: once as written
(`UpdateBalanceAsWritten`) and once as intended (`UpdateBalance`); see
"## Findings".

## Model

| member | source | states |
|---|---|---|
| `UInt64.CheckedAdd` | packages/chain/src/runtime/modules/balances.ts:21-23 | the sum exists exactly when it fits in 64 bits, and then it is `a + b` |
| `UInt64.CheckedSub` | packages/chain/src/runtime/modules/balances.ts:46-47 | the difference exists exactly when it does not go below zero |
| `UInt64.AddSubInverse` | packages/chain/src/runtime/modules/balances.ts:43-48 | checked subtraction undoes checked addition, and checked addition undoes checked subtraction |
| `Ledger.Mint` | packages/chain/src/runtime/modules/balances.ts:29 | inherited mint: succeeds iff the balance plus `amount` fits; raises that key by `amount`; no other key changes; otherwise overflow |
| `Ledger.Transfer` | packages/chain/src/runtime/modules/balances.ts:62 | inherited transfer: succeeds iff the sender holds at least `amount` and the receiver does not overflow; insufficient funds is reported exactly when the sender is short; debits the sender, credits the receiver, no other key changes |
| `Ledger.AddBalance` | packages/chain/src/runtime/modules/balances.ts:14-30 | succeeds iff `supply + amount <= totalSupply` and the account does not overflow; supply-cap error when the cap is passed and the new supply fits in 64 bits; arithmetic overflow when it does not; on success, supply and the account each rise by exactly `amount` and no other key changes |
| `Ledger.AddBalanceAtCap` | packages/chain/src/runtime/modules/balances.ts:24-27 | minting exactly up to the cap succeeds, for any cap and even when the account lands exactly on 2^64-1; for a cap below 2^64-1, one unit more fails with the supply-cap error |
| `Ledger.SupplySharedAcrossTokens` | packages/chain/src/runtime/modules/balances.ts:20-28 | minting under one token id uses up the cap for a different token id: the second mint aborts, with the supply-cap error whenever the sum fits in 64 bits |
| `Ledger.Select` | packages/chain/src/runtime/modules/balances.ts:42-60 | on a top-up the diff comes from the pool to the account, otherwise it goes from the account to the pool; either way the account lands on `amount` |
| `Ledger.SelectAsWritten` | packages/chain/src/runtime/modules/balances.ts:43-48 | with both checked differences evaluated eagerly, a selection exists iff `amount == current`; it is then the intended one with diff 0 |
| `Ledger.Settle` | packages/chain/src/runtime/modules/balances.ts:61-62 | running the selected transfer never changes the supply |
| `Ledger.UpdateBalance` | packages/chain/src/runtime/modules/balances.ts:32-63 | target 0 aborts with the invalid-amount error; for a positive target the abort is insufficient funds exactly on a top-up the pool cannot cover, and an arithmetic overflow exactly on a withdrawal that overflows the pool; success iff the side that pays can cover the diff and the side that receives does not overflow; the account ends at `amount`; the pool absorbs the opposite change, so the sum is conserved; supply and other keys unchanged |
| `Ledger.UpdateBalanceAsWritten` | packages/chain/src/runtime/modules/balances.ts:32-63 | target 0 aborts; otherwise succeeds iff `amount` equals the current balance, and then no balance and not the supply changes; every other positive target aborts with an arithmetic error |
| `Ledger.UpdateToCurrentIsNoOp` | packages/chain/src/runtime/modules/balances.ts:41-62 | updating to the current balance succeeds under both readings, with the same result, and leaves every balance as it was |
| `Ledger.AsWrittenRefinesIntended` | packages/chain/src/runtime/modules/balances.ts:43-48 | whenever the code as written succeeds, the intended version gives the same result |
| `Ledger.Step` | packages/chain/src/runtime/modules/balances.ts:14-63 | one transition (state unchanged on abort), for a mint, an update as written or an intended update, keeps `supply <= totalSupply`; neither kind of update ever changes the supply |
| `Ledger.RunKeepsSupplyBound` | packages/chain/src/runtime/modules/balances.ts:24-28 | any sequence of calls, mixing mints with updates as written and intended updates, from a state within the cap stays within the cap |
| `Ledger.RunSupplyMonotone` | packages/chain/src/runtime/modules/balances.ts:20-28 | the circulating supply never decreases along a sequence of calls |
| `Ledger.ReachableSupplyBounded` | packages/chain/src/runtime/modules/balances.ts:12-28 | every state reachable from the zero initial state, by mints and by either reading of the update, satisfies `supply <= totalSupply` |
| `Runtime.OutcomeOf` | packages/chain/src/runtime/modules/balances.ts:24-27 | a transition reports success exactly when it produced a new state, and otherwise reports the abort reason unchanged |
| `Runtime.Balances.constructor` | packages/chain/src/runtime/modules/balances.ts:6-12 | the configured cap is stored, the supply starts at zero and the store starts empty |
| `Runtime.Balances.GetBalance` | packages/chain/src/runtime/modules/balances.ts:41 | returns what `Ledger.BalanceOf` reads: the stored balance, or zero for a key never written |
| `Runtime.Balances.Mint` | packages/chain/src/runtime/modules/balances.ts:29 | does what `Ledger.Mint` says to the store; leaves the supply alone; unchanged on abort |
| `Runtime.Balances.Transfer` | packages/chain/src/runtime/modules/balances.ts:62 | does what `Ledger.Transfer` says to the store; leaves the supply alone; unchanged on abort |
| `Runtime.Balances.AddBalance` | packages/chain/src/runtime/modules/balances.ts:14-30 | writes the supply, then mints; a failed mint rolls the supply back; the result and new state are those of `Ledger.AddBalance`; keeps `supply <= totalSupply` |
| `Runtime.Balances.UpdateBalance` | packages/chain/src/runtime/modules/balances.ts:32-63 | result and new state are those of `Ledger.UpdateBalance`; keeps the cap invariant |
| `Runtime.Balances.UpdateBalanceAsWritten` | packages/chain/src/runtime/modules/balances.ts:32-63 | evaluates both subtractions before selecting; result and new state are those of `Ledger.UpdateBalanceAsWritten` |
| `Scenarios.AddBalanceTest` | packages/chain/test/runtime/modules/balances.test.ts:10-47 | cap 10000, mint 1000 to alice: success, balance 1000, supply 1000 |
| `Scenarios.UpdateBalanceTestAsWritten` | packages/chain/test/runtime/modules/balances.test.ts:78-128 | as written: after 1000/1000, the top-up to 1500 and the withdrawal to 500 abort; the update to 1000 succeeds; balances stay 1000/1000 |
| `Scenarios.UpdateBalanceTest` | packages/chain/test/runtime/modules/balances.test.ts:98-128 | intended: 1000/1000 becomes 1500/500, then 500/1500, then 1000/1000; all three succeed; supply stays 2000 |
| `Scenarios.ZeroTargetTest` | packages/chain/src/runtime/modules/balances.ts:39 | a target of zero aborts with the invalid-amount error and changes nothing |
| `Scenarios.SharedCapTest` | packages/chain/src/runtime/modules/balances.ts:20-28 | 6000 units of token 0, then 5000 units of token 1 under cap 10000: the second call aborts with the supply-cap error and changes nothing |

## Left out

- Aliasing: `Transfer`, `UpdateBalance` and `UpdateBalanceAsWritten` require `from != to` and `address != addressPool`. The module's own code does not define what happens when the two accounts are the same.
- Inherited `mint`, `transfer` and `getBalance`: their code lives in the base library, which is not part of this model. They get minimal contracts: mint is a checked add on one key. Transfer checks the sender's funds first, then the receiver's checked add. getBalance reads zero for an unset key.
- Error messages: abort reasons are the enumeration `Error`, not the source's message strings.
- Trace uniformity: `Provable.if` exists to give the proof system a fixed-shape trace. This property of the circuit is not modelled; only its eager evaluation is.
- `UInt64.Unsafe.fromField`, at balances.ts:61: treated as the identity on in-range values.
- `Field`-based `TokenId` and `PublicKey`: both are modelled as opaque natural numbers.
- Framework plumbing: decorators, async/await and the `State` persistence store become plain fields, with a map that reads zero for missing keys. Block production, signing, transaction submission and the query API are also left out.
- Sum of balances: the model does not state that the balances, summed over every token, equal the circulating supply. That relation is expected only for distinct accounts: a transfer or update from an account to itself is outside the model (see Aliasing above), and under a read-both-then-write order it could create units.

## Findings

| source | as written | input that shows it | evidently intended | confidence | as-written member | corrected member |
|---|---|---|---|---|---|---|
| packages/chain/src/runtime/modules/balances.ts:43-48 | both `amount.sub(currBalance)` and `currBalance.sub(amount)` are evaluated before `Provable.if` selects one, and the checked subtraction that goes below zero aborts the transition | balances 1000/1000, target 1500 (or 500): the update aborts, as the comments at balances.test.ts:103 and :112 record | only the selected difference takes effect, so the account reaches the target and the pool absorbs the opposite change | not executed; corroborated by the test comments | `Runtime.Balances.UpdateBalanceAsWritten`, `Scenarios.UpdateBalanceTestAsWritten` | `Runtime.Balances.UpdateBalance`, `Ledger.UpdateBalance`, `Scenarios.UpdateBalanceTest` |
