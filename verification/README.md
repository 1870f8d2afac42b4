# ERC-20 token ledger in Dafny

A model of the two versions of the ink! token contract in this repository:

- `erc20/lib.rs`, a balance-only ledger: a total supply fixed at construction
  and minted to the deploying account, `total_supply`, `balance_of`, and
  `transfer`, which moves tokens through the private `transform_from_to`.
  Modelled by module `BasicLedger`.
- `erc20/src/lib.rs`, the same ledger plus an (owner, spender) -> allowance map
  (`approve`, `get_allowance`, `transfer_from`) and the `Transfer` / `Approval`
  events. Modelled by module `Erc20`. Its storage keeps the source's three
  fields. The balance move is delegated to `BasicLedger.TransformFromTo`,
  because the two files contain the same `transform_from_to` code.

Every message is a pure function. It takes the old storage and returns a
`Step`: the new storage and the `Result<(), Error>`. In `Erc20` the `Step` also
carries the events emitted, in order; `BasicLedger` emits none. The calling account, which the contract reads from `self.env().caller()`,
is an explicit parameter. `Balance` is a `nat` below 2^128. Storage maps are
Dafny `map`s, read through `Lookup`, which gives 0 for an absent key. As in the
source, `insert` always materialises an entry, including an entry of 0.

Module `Erc20Execution` runs any sequence of messages from deployment. It
proves that in every reachable state:

- the supply is unchanged;
- the balances add up to the supply;
- the unchecked credit `to_balance + value` never exceeds `u128::MAX`;
- a balance key other than the deployer's that no message names, and an
  allowance pair that no `approve` or `transfer_from` names, still read 0.

Module `Erc20Scenarios` restates the unit tests of `erc20/src/lib.rs` as
lemmas, and `BasicLedgerScenarios` does the same for `erc20/lib.rs`. Both use
the test accounts of module `TestAccounts`. The one test left out is
`change_caller`, which exercises only the test host. `Erc20Scenarios` also has
one run in which a failed `transfer_from` burns allowance.

The two deliberate quirks of `erc20/src/lib.rs` are kept as written:

- `approve` fails with `InsufficientBalance` when the caller's current balance
  is below the amount approved.
- `transfer_from` writes the lowered allowance before the balance move. The
  lowered allowance stays when that move fails.

A safer ledger would check the credit and report an error. This code does
not. The model follows the code and writes the addition out as a `u128` wrap
(`WrappingAdd`). `CreditNeverWraps` then proves the wrap cannot happen in a
state where the balances sum to the supply. So a wrap, a panic under overflow checks, or a reported error would all
behave the same in every reachable state.

## Model

| member | source | states |
|---|---|---|
| Primitives.Lookup | erc20/src/lib.rs:49 | a stored key reads its value and an absent key reads 0, without creating an entry |
| Primitives.WrappingAdd | erc20/src/lib.rs:118 | the unchecked `u128` sum equals the true sum when it fits below 2^128 and wraps by exactly 2^128 otherwise |
| BasicLedger.New | erc20/lib.rs:19-29 | the caller holds exactly `total_supply`, every other account reads 0, and the balances sum to the supply |
| BasicLedger.TotalSupply | erc20/lib.rs:33-35 | in a valid state the returned supply is the sum of all balances |
| BasicLedger.BalanceOf | erc20/lib.rs:39-41 | the stored balance, and 0 for an account never written |
| BasicLedger.TransformFromTo | erc20/lib.rs:51-70 | fails with `InsufficientBalance` exactly when `from` holds less than `value`, and then leaves storage unchanged; otherwise debits `from` by `value`, credits `to` by `value` when the sum fits, is net zero when `from == to`, and leaves every other account and the supply unchanged |
| BasicLedger.Transfer | erc20/lib.rs:45-48 | fails exactly when `value` exceeds the caller's balance, with no change; in every state a success debits the caller by exactly `value` (when `to` differs), is net zero for a self-transfer, and leaves every other account and the supply unchanged; in a valid state it also credits `to` by exactly `value` and keeps the balances summing to the supply |
| BasicLedger.CreditNeverWraps | erc20/lib.rs:61-67 | when the balances sum to the supply, the receiver's balance re-read after the debit plus `value` is at most the supply and so below 2^128, including when `from == to` |
| BasicLedger.TransformFromToConserves | erc20/lib.rs:54-67 | a move from a valid state keeps the balances summing to the supply and moves exactly `value` |
| BasicLedger.Run | erc20/lib.rs:16-71 | after any sequence of `transfer` messages the supply is unchanged and a valid state stays valid |
| BasicLedger.ReachableCreditNeverWraps | erc20/lib.rs:19-67 | in every state reachable from construction the balances sum to the constructed supply and the credit cannot overflow |
| BasicLedgerScenarios.NewWorks | erc20/lib.rs:101-105 | deploying with 777 reports a total supply of 777 |
| BasicLedgerScenarios.BalanceWorks | erc20/lib.rs:107-116 | deploying 100 as alice gives supply 100, alice 100 and bob 0 |
| BasicLedgerScenarios.TransferWorks | erc20/lib.rs:127-135 | alice's transfer of 10 to bob succeeds, leaving 90 and 10; a further transfer of 100 fails with `InsufficientBalance` and changes nothing |
| Erc20.New | erc20/src/lib.rs:19-38 | the caller holds exactly `total_supply`, every other balance and every allowance reads 0, the one event is the mint `Transfer{None, Some(caller), total_supply}`, and the balances sum to the supply |
| Erc20.TotalSupply | erc20/src/lib.rs:40-44 | in a valid state the returned supply is the sum of all balances |
| Erc20.BalanceOf | erc20/src/lib.rs:46-50 | the stored balance, and 0 for an account never written |
| Erc20.GetAllowance | erc20/src/lib.rs:74-77 | the stored allowance, and 0 for a pair never written |
| Erc20.Approve | erc20/src/lib.rs:52-72 | fails with `InsufficientBalance` exactly when the caller's current balance is below `value`, and then changes nothing and emits nothing; otherwise sets the (caller, spender) allowance to exactly `value` and emits one `Approval`; balances, supply and every other allowance stay unchanged |
| Erc20.TransformFromTo | erc20/src/lib.rs:103-129 | fails with `InsufficientBalance` exactly when `from` holds less than `value`, with no change and no event; otherwise emits one `Transfer{Some(from), Some(to), value}`; it never touches allowances or the supply, and from a valid state it moves exactly `value` and stays valid |
| Erc20.Transfer | erc20/src/lib.rs:79-84 | fails with `InsufficientBalance` exactly when `value` exceeds the caller's balance, with no change and no event; a success emits `Transfer{Some(caller), Some(to), value}` and debits the caller by exactly `value` (when `to` differs); a self-transfer is net zero, and every other balance, all allowances and the supply stay unchanged, in every state; from a valid state the credit to `to` is exactly `value` |
| Erc20.TransferFrom | erc20/src/lib.rs:87-101 | fails with `InsufficientAllowance` exactly when the (owner, caller) allowance is below `value`, with no change at all; otherwise the allowance drops by exactly `value` whether or not the move then succeeds; the move fails with `InsufficientBalance` exactly when the owner's balance is below `value`, leaving balances unchanged and emitting nothing; no other allowance changes |
| Erc20.TransferFromMovesLikeTransfer | erc20/src/lib.rs:89-101 | when the allowance suffices, `transfer_from` gives the same result, balances and events as a direct `transfer` by the owner |
| Erc20.ApproveOverwrites | erc20/src/lib.rs:61 | a second approval covered by the owner's balance leaves exactly its own amount, whatever the first approval set |
| Erc20Execution.Run | erc20/src/lib.rs:17-130 | after any sequence of `transfer`, `approve` and `transfer_from` messages, successful or not, the supply is unchanged and a valid state stays valid |
| Erc20Execution.SupplyConserved | erc20/src/lib.rs:20-44 | in every state reachable from construction `total_supply()` returns the constructed amount, and the balances sum to it |
| Erc20Execution.ReachableCreditNeverWraps | erc20/src/lib.rs:105-118 | in every reachable state where the debit goes ahead, the receiver's balance re-read after the debit plus `value` is below 2^128 |
| Erc20Execution.UnwrittenKeysStayAbsent | erc20/src/lib.rs:53-118 | a balance or allowance key absent from storage stays absent across messages that do not name it |
| Erc20Execution.NeverWrittenReadsZero | erc20/src/lib.rs:46-77 | in every reachable state, an account other than the deployer that no message named reads balance 0, and a pair that no `approve` or `transfer_from` named reads allowance 0 |
| Erc20Scenarios.NewWorks | erc20/src/lib.rs:211-215 | deploying with 777 reports a total supply of 777 |
| Erc20Scenarios.BalanceWorks | erc20/src/lib.rs:217-226 | deploying 100 as alice gives supply 100, alice 100, bob 0 and the mint event |
| Erc20Scenarios.TransferWorks | erc20/src/lib.rs:237-245 | 10 reaches bob; a further 100 fails with `InsufficientBalance` and changes nothing |
| Erc20Scenarios.AllowanceWorks | erc20/src/lib.rs:247-262 | an allowance never set reads 0; approving 100 reads 100; approving 0 afterwards reads 0 |
| Erc20Scenarios.ApprovalAndTransferWorks | erc20/src/lib.rs:265-289 | alice's approve of 100 succeeds, leaving an allowance of 100 and balances 100 and 0; bob's own approve fails for lack of balance; bob's `transfer_from` of 50 from alice succeeds, leaving alice 50, bob 50 and an allowance of 50 |
| Erc20Scenarios.FailedTransferFromBurnsAllowance | erc20/src/lib.rs:92-100 | after alice approves bob for 100 and spends 60 elsewhere, bob's `transfer_from` of 100 fails with `InsufficientBalance` yet leaves the allowance at 0, with balances unchanged |

## Left out

- `incrementer/lib.rs` is not part of this model. It is a counter with no ledger invariants.
- The ink! host machinery is not modelled: the contract and message macros, the message selectors, and SCALE encoding and decoding of calls and events. The caller is a parameter and events are returned values. `Erc20Execution.Dispatch` routes an already decoded message to its function, and `Erc20Execution.Run` executes messages one at a time as the host does.
- Event topics (`#[ink(topic)]`) are not modelled. Only the field values of each event are kept.
- The host's revert of storage when a message returns `Err` is not modelled. The code is modelled as written, so the allowance written by `transfer_from` stays after a later `InsufficientBalance`.
- The overflow behaviour of the unchecked `u128` addition depends on the build profile: a panic or a wrap. It is modelled as a wrap. `CreditNeverWraps` shows the addition never overflows in a valid state, so the choice does not matter in any reachable state.
- The off-chain test helpers (`default_accounts`, `set_caller`) and the usage notes in doc comments are not modelled. The test accounts alice, bob and charlie (`TestAccounts`) are the accounts whose 32 bytes are all 1, all 2 and all 3.
- BasicLedger.Transfer and Erc20.Transfer state the exact credit to `to`, and the conservation of the sum, only from a valid state. From a state whose balances do not sum to the supply, the credit can wrap. The debit, the net zero of a self-transfer and the unchanged other accounts are stated for every state. `TransformFromTo` states the credit whenever the sum fits below 2^128.
