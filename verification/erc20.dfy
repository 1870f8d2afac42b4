/**
 The ERC-20-style token contract (`erc20/src/lib.rs`): the balance ledger of
 `BasicLedger` plus an (owner, spender) -> allowance map for delegated spending,
 and the `Transfer` / `Approval` events each state change emits.

 The host's `caller()` is an explicit parameter, and the events a message
 emits are returned with it, in emission order. The storage keeps the source's
 three fields; its restriction to `total_supply` and `balances` is a
 `BasicLedger.Erc20`, and moving balances is delegated to that module's
 `TransformFromTo`, which is the same code in both files.
 */
module Erc20 {
  import opened Primitives
  import MapSum
  import BasicLedger

  datatype Error = InsufficientBalance | InsufficientAllowance

  /** The two event records; `from == None` marks the mint at construction. */
  datatype Event =
    | TransferEvent(from: Option<AccountId>, to: Option<AccountId>, value: Balance)
    | ApprovalEvent(owner: Option<AccountId>, spender: Option<AccountId>, allowance: Balance)

  /** The contract's storage. */
  datatype Erc20 = Erc20(
    totalSupply: Balance,
    balances: map<AccountId, Balance>,
    allowances: map<(AccountId, AccountId), Balance>)

  /** What a state-changing message leaves behind: new storage, result, emitted events. */
  datatype Step = Step(next: Erc20, result: Result<Error>, events: seq<Event>)

  /** What the constructor leaves behind: the storage and the mint event. */
  datatype Deployed = Deployed(contract: Erc20, events: seq<Event>)

  /** The balance part of the storage. */
  function Ledger(s: Erc20): BasicLedger.Erc20
  {
    BasicLedger.Erc20(s.totalSupply, s.balances)
  }

  /** The invariant: the balances add up to the fixed total supply. */
  ghost predicate Valid(s: Erc20)
  {
    BasicLedger.Valid(Ledger(s))
  }

  /**
   The constructor: the caller holds the whole supply, every other balance and
   every allowance reads zero, and a mint `Transfer` from nobody is emitted.
   */
  function New(caller: AccountId, totalSupply: Balance): (r: Deployed)
    ensures r.contract.totalSupply == totalSupply
    ensures BalanceOf(r.contract, caller) == totalSupply
    ensures forall a :: a != caller ==> BalanceOf(r.contract, a) == 0
    ensures forall owner, spender :: GetAllowance(r.contract, owner, spender) == 0
    ensures r.events == [TransferEvent(None, Some(caller), totalSupply)]
    ensures Valid(r.contract)
  {
    var ledger := BasicLedger.New(caller, totalSupply);
    Deployed(
      Erc20(ledger.totalSupply, ledger.balances, map[]),
      [TransferEvent(None, Some(caller), totalSupply)])
  }

  /** The fixed supply; in a valid state it is what the balances add up to. */
  function TotalSupply(s: Erc20): (r: Balance)
    ensures Valid(s) ==> r == MapSum.Sum(s.balances)
  {
    BasicLedger.TotalSupply(Ledger(s))
  }

  /** The balance of `owner`, zero for an account that was never written. */
  function BalanceOf(s: Erc20, owner: AccountId): (r: Balance)
    ensures owner !in s.balances ==> r == 0
    ensures owner in s.balances ==> r == s.balances[owner]
  {
    BasicLedger.BalanceOf(Ledger(s), owner)
  }

  /** What `owner` allows `spender` to move, zero for a pair never written. */
  function GetAllowance(s: Erc20, owner: AccountId, spender: AccountId): (r: Balance)
    ensures (owner, spender) !in s.allowances ==> r == 0
    ensures (owner, spender) in s.allowances ==> r == s.allowances[(owner, spender)]
  {
    Lookup(s.allowances, (owner, spender))
  }

  /**
   The `approve` message. It is gated on the caller's CURRENT balance (unlike
   EIP-20's approve); when that covers `value` it overwrites the allowance,
   whatever it was, and emits `Approval`. Failure changes nothing.
   */
  function Approve(s: Erc20, caller: AccountId, spender: AccountId, value: Balance): (r: Step)
    ensures r.result == Ok || r.result == Err(InsufficientBalance)
    ensures r.result.Err? <==> BalanceOf(s, caller) < value
    ensures r.result.Err? ==> r.next == s && r.events == []
    ensures r.result.Ok? ==> GetAllowance(r.next, caller, spender) == value
    ensures r.result.Ok? ==> r.events == [ApprovalEvent(Some(caller), Some(spender), value)]
    ensures r.next.totalSupply == s.totalSupply && r.next.balances == s.balances
    ensures forall owner, other :: (owner, other) != (caller, spender)
              ==> GetAllowance(r.next, owner, other) == GetAllowance(s, owner, other)
  {
    var ownerBalance := BalanceOf(s, caller);
    if ownerBalance < value then
      Step(s, Err(InsufficientBalance), [])
    else
      Step(
        s.(allowances := s.allowances[(caller, spender) := value]),
        Ok,
        [ApprovalEvent(Some(caller), Some(spender), value)])
  }

  /**
   The private `transform_from_to`: the balance move of `BasicLedger`, plus the
   `Transfer` event on success. Allowances are never touched.
   */
  function TransformFromTo(s: Erc20, from: AccountId, to: AccountId, value: Balance): (r: Step)
    ensures r.result == Ok || r.result == Err(InsufficientBalance)
    ensures r.result.Err? <==> BalanceOf(s, from) < value
    ensures r.result.Err? ==> r.next == s && r.events == []
    ensures r.result.Ok? ==> r.events == [TransferEvent(Some(from), Some(to), value)]
    ensures r.next.totalSupply == s.totalSupply && r.next.allowances == s.allowances
    ensures Valid(s) ==> Valid(r.next)
    ensures Valid(s) && r.result.Ok? ==> BasicLedger.MovedExactly(Ledger(s), Ledger(r.next), from, to, value)
  {
    var moved := BasicLedger.TransformFromTo(Ledger(s), from, to, value);
    BasicLedger.TransformFromToConserves(Ledger(s), from, to, value);
    if moved.result.Err? then
      Step(s, Err(InsufficientBalance), [])
    else
      Step(s.(balances := moved.next.balances), Ok, [TransferEvent(Some(from), Some(to), value)])
  }

  /**
   The `transfer` message: `caller` sends `value` of its own balance to `to`.
   The debit, the net zero of a self-transfer and the untouched other accounts
   hold in every state; the exact credit is stated for valid states, where it
   cannot wrap.
   */
  function Transfer(s: Erc20, caller: AccountId, to: AccountId, value: Balance): (r: Step)
    ensures r.result.Err? <==> value > BalanceOf(s, caller)
    ensures r.result.Err? ==> r.result.error == InsufficientBalance && r.next == s && r.events == []
    ensures r.result.Ok? ==> r.events == [TransferEvent(Some(caller), Some(to), value)]
    ensures r.next.totalSupply == s.totalSupply && r.next.allowances == s.allowances
    ensures r.result.Ok? && caller != to ==> BalanceOf(r.next, caller) == BalanceOf(s, caller) - value
    ensures r.result.Ok? && caller == to ==> BalanceOf(r.next, caller) == BalanceOf(s, caller)
    ensures forall a :: a != caller && a != to ==> BalanceOf(r.next, a) == BalanceOf(s, a)
    ensures Valid(s) ==> Valid(r.next)
    ensures Valid(s) && r.result.Ok? ==> BasicLedger.MovedExactly(Ledger(s), Ledger(r.next), caller, to, value)
  {
    TransformFromTo(s, caller, to, value)
  }

  /**
   The `transfer_from` message: `caller` spends `owner`'s allowance to move
   `value` from `owner` to `to`. The allowance check comes first and a failed
   one changes nothing. Otherwise the allowance is lowered BEFORE the balance
   move is attempted, and the lowered allowance stays even when the move then
   fails for lack of balance.
   */
  function TransferFrom(s: Erc20, caller: AccountId, owner: AccountId, to: AccountId, value: Balance): (r: Step)
    ensures r.result == Err(InsufficientAllowance) <==> GetAllowance(s, owner, caller) < value
    ensures r.result == Err(InsufficientAllowance) ==> r.next == s && r.events == []
    ensures GetAllowance(s, owner, caller) >= value ==>
              && GetAllowance(r.next, owner, caller) == GetAllowance(s, owner, caller) - value
              && (r.result == Err(InsufficientBalance) <==> BalanceOf(s, owner) < value)
    ensures r.result == Err(InsufficientBalance) ==> r.next.balances == s.balances && r.events == []
    ensures r.result.Ok? ==> r.events == [TransferEvent(Some(owner), Some(to), value)]
    ensures r.next.totalSupply == s.totalSupply
    ensures forall o, sp :: (o, sp) != (owner, caller)
              ==> GetAllowance(r.next, o, sp) == GetAllowance(s, o, sp)
    ensures Valid(s) ==> Valid(r.next)
    ensures Valid(s) && r.result.Ok? ==> BasicLedger.MovedExactly(Ledger(s), Ledger(r.next), owner, to, value)
  {
    var allowance := GetAllowance(s, owner, caller);
    if allowance < value then
      Step(s, Err(InsufficientAllowance), [])
    else
      var consumed := s.(allowances := s.allowances[(owner, caller) := allowance - value]);
      TransformFromTo(consumed, owner, to, value)
  }

  /**
   Once the allowance covers `value`, `transfer_from` moves balances, reports
   and emits exactly what a direct `transfer` by `owner` would.
   */
  lemma TransferFromMovesLikeTransfer(s: Erc20, caller: AccountId, owner: AccountId, to: AccountId, value: Balance)
    requires GetAllowance(s, owner, caller) >= value
    ensures var delegated, direct := TransferFrom(s, caller, owner, to, value), Transfer(s, owner, to, value);
            && delegated.result == direct.result
            && delegated.next.balances == direct.next.balances
            && delegated.events == direct.events
  {
  }

  /**
   An approval followed by a second one from the same owner to the same spender
   leaves exactly the second amount, whatever the first was, provided the owner's
   balance covers it.
   */
  lemma ApproveOverwrites(s: Erc20, caller: AccountId, spender: AccountId, first: Balance, second: Balance)
    requires second <= BalanceOf(s, caller)
    ensures var once := Approve(s, caller, spender, first).next;
            GetAllowance(Approve(once, caller, spender, second).next, caller, spender) == second
  {
  }
}
