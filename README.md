# PSP-20 token ledger in Dafny

A model of the ink! smart contract `Psp20` (`lib.rs`). It is a fixed-supply fungible
token modelled on EIP-20 (ERC-20). Its messages are `total_supply`, `balance_of`,
`allowance`, `transfer`, `approve` and `transfer_from`. The contract's storage is a total supply, a
balance table keyed by account and an allowance table keyed by (owner, spender). Both
tables read an absent key as zero. The contract is built from one constructor, three read-only queries and three
mutators. `transfer` and `transfer_from` go through the private primitive
`transfer_from_to`; `approve` writes the allowance table itself.

Files:

- `balance_map.dfy`, module `BalanceMap`:
  - `Balance` is the u128 amount, as a newtype of the range 0 .. 2^128-1.
  - `Get` is the default-zero lookup, the `*_or_zero` helpers of the contract.
  - `Sum` totals a table, with lemmas on how one write changes that total.
- `psp20.dfy`, module `Psp20`:
  - `AccountId` is an opaque value type with equality; it holds no references.
  - `Event` has two constructors, `Transfer(from, to, value)` and `Approval(owner, spender, value)`.
  - `Moved` is the balance table after a successful transfer, written in the contract's write order, with its lemmas.
  - Class `Psp20` holds the contract's storage: `totalSupply`, `balances` and `allowances`.
    It has one more field, `events`, which stands for the host's event log.
    Its invariant `Valid()` is conservation: the balances add up to the total supply.
- `psp20_tests.dfy`, module `Psp20Tests`: the contract's unit tests and the remaining
  end-to-end behaviours, written as client methods. Each returns what its test
  observes. Its postcondition states the outcomes that test asserts after its calls,
  and further outcomes of the same calls.

How the model maps the source:

- The caller identity from `Self::env().caller()` is an explicit `caller` parameter, as
  is the deploying account for the constructor.
- `Self::env().emit_event(..)` appends to `events`.
- The addition `to_balance + value` on u128 is range-checked by the `Balance` newtype.
  The check is discharged from the conservation invariant: after the sender is debited,
  the receiver's balance plus `value` is at most the total supply
  (`ReceiverCannotOverflow`). So the contract never overflows, and no wrap-around or
  panic is modelled.
- Every mutator requires `Valid()` and re-establishes it. The constructor establishes it,
  so this holds of every ledger the contract can reach.
- The queries are functions. They cannot change the state or the event log, and two calls
  with nothing in between return the same value.
- `transfer_from` is modelled as written, not as one atomic step. When the allowance is
  large enough, it reduces the allowance before calling the transfer primitive. When the
  primitive then fails for lack of balance, the call returns `false` and the allowance
  stays reduced. `TransferFrom`'s postcondition states this outcome and
  `FailedTransferFromSpendsAllowance` shows it on concrete values. The model keeps this
  ordering rather than treating `transfer_from` as all-or-nothing.

## Model

| member | source | states |
|---|---|---|
| BalanceMap.Get | lib.rs:140-146 | the stored amount, or zero for a key never written |
| BalanceMap.SumUpdate | lib.rs:156-160 | one insert into a balance table changes the table's total by exactly the new amount minus the old one (zero for an absent key) |
| BalanceMap.EntryAtMostSum | lib.rs:18 | no account's balance (zero when absent) exceeds the total of the table, so under conservation every balance is at most the supply |
| Psp20.Moved | lib.rs:155-160 | the balance table after the sender is debited and then the receiver, read after that write, is credited; only the two accounts involved can gain a key or change their amount |
| Psp20.ReceiverCannotOverflow | lib.rs:155-160 | once the sender's entry is reduced by `value`, the receiver's balance plus `value` is at most the old total, so the u128 addition at line 160 cannot overflow |
| Psp20.MovedConserves | lib.rs:148-169 | a successful transfer leaves the sum of all balances unchanged |
| Psp20.MovedBalances | lib.rs:155-160 | after a successful transfer the sender has `value` less, the receiver `value` more (a net zero for a self-transfer, because the receiver is read after the sender is written), and every other account is unchanged |
| Psp20.Psp20.constructor | lib.rs:51-72 | the supply and the creator's balance are the initial supply, every other balance and every allowance is zero, the log is exactly one Transfer(None, Some(creator), supply), and conservation holds |
| Psp20.Psp20.TotalSupply | lib.rs:78-80 | on a valid ledger, the reported supply is the sum of all balances |
| Psp20.Psp20.BalanceOf | lib.rs:84-86 | the stored balance, or zero when the account was never written (through the or-zero helper at line 140); on a valid ledger never more than the supply |
| Psp20.Psp20.Allowance | lib.rs:90-92 | the stored allowance of the (owner, spender) pair, or zero when that pair was never approved (through the or-zero helper at line 144) |
| Psp20.Psp20.TransferFromTo | lib.rs:148-169 | succeeds exactly when `from` holds at least `value`. On failure, balances and events are unchanged. On success, the balances become `Moved` and exactly one Transfer(Some(from), Some(to), value) is appended. In both cases the supply and the allowances are unchanged and conservation is preserved |
| Psp20.Psp20.Transfer | lib.rs:98-100 | the transfer primitive with `from` = caller: the same outcome, balance effect, event and frame |
| Psp20.Psp20.Approve | lib.rs:107-119 | always returns true. The (caller, spender) allowance becomes `value`, replacing any earlier amount, whatever the caller's balance. Only that pair changes, balances and supply do not, and exactly one Approval(caller, spender, value) is appended |
| Psp20.Psp20.TransferFrom | lib.rs:125-136 | succeeds exactly when both the allowance (from, caller) and `from`'s balance are at least `value`. With too small an allowance nothing changes. Otherwise the allowance is reduced by exactly `value`, also when the balance check then fails, and balances and events follow the transfer primitive |
| Psp20Tests.NewWorks | lib.rs:183-192 | a new ledger of 100 has recorded exactly one event, a Transfer of 100 from none to the creator |
| Psp20Tests.TotalSupplyWorks | lib.rs:196-203 | a new ledger of 100 reports a total supply of 100 |
| Psp20Tests.BalanceOfWorks | lib.rs:206-218 | the creator owns 100 and any other account 0 |
| Psp20Tests.TransferWorks | lib.rs:220-236 | Alice's transfer of 10 to Bob returns true and records a second event, Transfer(Alice, Bob, 10); Bob then owns 10 and Alice 90 |
| Psp20Tests.InvalidTransferShouldFail | lib.rs:238-271 | Bob, who owns nothing, fails to send 10 to Eve; no event is added and Alice, Bob and Eve keep 100, 0 and 0 |
| Psp20Tests.TransferFromWorks | lib.rs:273-313 | Before any approval, the creator Alice, still the default caller, fails to move her own tokens to Eve through `transfer_from`, since she has no allowance from herself. Alice's approval of Bob for 10 returns true and makes two events. Bob's spend of 10 to Eve then returns true and records Transfer(Alice, Eve, 10) as the third event. Eve owns 10, Alice 90, and the allowance is used up |
| Psp20Tests.ApproveOverwrites | lib.rs:102-110 | approving 10 and then 5 leaves an allowance of 5, not 15, and records Approval(alice, bob, 10) and then Approval(alice, bob, 5) as the second and third events |
| Psp20Tests.ApproveBeyondBalance | lib.rs:107-118 | an account that owns nothing can approve 500; the approval succeeds and touches no balance |
| Psp20Tests.TransferFromOverAllowance | lib.rs:128-131 | spending 11 of an allowance of 10 returns false, adds no event and changes neither the balances nor the allowance |
| Psp20Tests.FailedTransferFromSpendsAllowance | lib.rs:133-135 | when the owner holds too little, the spend returns false and moves no tokens, yet the allowance drops from 10 to 0 |
| Psp20Tests.SelfTransfer | lib.rs:155-160 | a transfer of 10 to oneself returns true, keeps all 100 tokens and still records a Transfer event |

## Left out

- The host environment (`Self::env().caller()`, `emit_event`) is not modelled as code. The
  caller is a trusted parameter and events are appended to a field. How the host publishes
  events, and their SCALE encoding, are out of scope.
- ink!'s storage plumbing (`Lazy`, `StorageHashMap`, lib.rs:8 and 16-21) is replaced by
  Dafny maps read through a default-zero lookup. The ledger never removes an entry, and
  neither does the model.
- The `#[ink::contract]` and `#[ink(...)]` attributes, the `cfg` feature flags and message
  dispatch are build and host bindings and are not modelled.
- Test scaffolding is not modelled: `default_accounts`, `push_execution_context` with
  `CallData`, and the event decoding in `assert_transfer_event`. The scenario methods
  take the accounts as parameters and state only the tests' asserted outcomes.
- Rust's u128 wrap-around or overflow panic on `+` and `-` is not modelled. The
  subtractions are guarded by the comparisons just before them. The addition is proved
  never to leave the u128 range on a ledger that satisfies conservation.
- An account's identity is opaque: 32-byte account ids and their hashing are not modelled,
  only equality.
