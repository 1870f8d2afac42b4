/**
 Sequences of messages against one `Erc20` instance, executed one at a time
 to completion as the host does, and the facts that hold in every state
 reachable from deployment: the supply never changes and the balances add up
 to it, the unchecked credit never wraps, and storage keys no message wrote
 still read zero.
 */
module Erc20Execution {
  import opened Primitives
  import BasicLedger
  import opened Erc20

  /** A state-changing message together with the calling account. */
  datatype Call =
    | TransferCall(caller: AccountId, to: AccountId, value: Balance)
    | ApproveCall(caller: AccountId, spender: AccountId, value: Balance)
    | TransferFromCall(caller: AccountId, owner: AccountId, to: AccountId, value: Balance)

  /** Executes one message. */
  function Dispatch(s: Erc20, c: Call): Step
  {
    match c
    case TransferCall(caller, to, value) => Transfer(s, caller, to, value)
    case ApproveCall(caller, spender, value) => Approve(s, caller, spender, value)
    case TransferFromCall(caller, owner, to, value) => TransferFrom(s, caller, owner, to, value)
  }

  /**
   The storage after executing `calls` in order. Whatever they do, and whether
   each succeeds or fails, the supply is fixed and the invariant is kept.
   */
  function Run(s: Erc20, calls: seq<Call>): (r: Erc20)
    ensures r.totalSupply == s.totalSupply
    ensures Valid(s) ==> Valid(r)
    decreases |calls|
  {
    if calls == [] then s
    else Run(Dispatch(s, calls[0]).next, calls[1..])
  }

  /** The storage after deploying with `totalSupply` and then executing `calls`. */
  function Reached(deployer: AccountId, totalSupply: Balance, calls: seq<Call>): Erc20
  {
    Run(New(deployer, totalSupply).contract, calls)
  }

  /**
   In every reachable state `total_supply()` still returns the amount given at
   construction, and it equals the sum of all balances.
   */
  lemma SupplyConserved(deployer: AccountId, totalSupply: Balance, calls: seq<Call>)
    ensures var s := Reached(deployer, totalSupply, calls);
            TotalSupply(s) == totalSupply && Valid(s)
  {
  }

  /**
   The credit `to_balance + value` of `transform_from_to`, with `to_balance`
   re-read after the debit, stays below 2^128 in every reachable state where the
   debit goes ahead, so the unchecked `u128` addition never overflows.
   */
  lemma ReachableCreditNeverWraps(deployer: AccountId, totalSupply: Balance, calls: seq<Call>,
                                  from: AccountId, to: AccountId, value: Balance)
    requires value <= BalanceOf(Reached(deployer, totalSupply, calls), from)
    ensures var s := Reached(deployer, totalSupply, calls);
            Lookup(s.balances[from := BalanceOf(s, from) - value], to) + value < BALANCE_MODULUS
  {
    BasicLedger.CreditNeverWraps(Ledger(Reached(deployer, totalSupply, calls)), from, to, value);
  }

  /** The accounts whose balance entry a message may write. */
  function BalanceWrites(c: Call): set<AccountId>
  {
    match c
    case TransferCall(caller, to, _) => {caller, to}
    case ApproveCall(_, _, _) => {}
    case TransferFromCall(_, owner, to, _) => {owner, to}
  }

  /** The (owner, spender) pairs whose allowance entry a message may write. */
  function AllowanceWrites(c: Call): set<(AccountId, AccountId)>
  {
    match c
    case TransferCall(_, _, _) => {}
    case ApproveCall(caller, spender, _) => {(caller, spender)}
    case TransferFromCall(caller, owner, _, _) => {(owner, caller)}
  }

  /** A key absent from storage stays absent while no message writes it. */
  lemma {:induction false} UnwrittenKeysStayAbsent(s: Erc20, calls: seq<Call>,
                                                   account: AccountId, pair: (AccountId, AccountId))
    requires account !in s.balances && pair !in s.allowances
    requires forall i :: 0 <= i < |calls| ==> account !in BalanceWrites(calls[i])
    requires forall i :: 0 <= i < |calls| ==> pair !in AllowanceWrites(calls[i])
    ensures account !in Run(s, calls).balances && pair !in Run(s, calls).allowances
    decreases |calls|
  {
    if calls != [] {
      var next := Dispatch(s, calls[0]).next;
      assert account !in BalanceWrites(calls[0]) && pair !in AllowanceWrites(calls[0]);
      assert account !in next.balances && pair !in next.allowances;
      UnwrittenKeysStayAbsent(next, calls[1..], account, pair);
    }
  }

  /**
   An account other than the deployer that no message ever named as a
   balance holder reads zero, and so does every (owner, spender) pair that no
   `approve` or `transfer_from` named.
   */
  lemma NeverWrittenReadsZero(deployer: AccountId, totalSupply: Balance, calls: seq<Call>,
                              account: AccountId, owner: AccountId, spender: AccountId)
    requires account != deployer
    requires forall i :: 0 <= i < |calls| ==> account !in BalanceWrites(calls[i])
    requires forall i :: 0 <= i < |calls| ==> (owner, spender) !in AllowanceWrites(calls[i])
    ensures BalanceOf(Reached(deployer, totalSupply, calls), account) == 0
    ensures GetAllowance(Reached(deployer, totalSupply, calls), owner, spender) == 0
  {
    UnwrittenKeysStayAbsent(New(deployer, totalSupply).contract, calls, account, (owner, spender));
  }
}
