/**
 The balance-only token contract (`erc20/lib.rs`): a fixed total supply, minted
 to the deploying account, and a map from account to balance whose entries
 move only through `transform_from_to`. There are no allowances and no events.

 The host's `caller()` is an explicit parameter. Every message is a pure
 function from the old storage to the new storage and the message's result.
 */
module BasicLedger {
  import opened Primitives
  import MapSum

  datatype Error = InsufficientBalance

  /** The contract's storage. */
  datatype Erc20 = Erc20(totalSupply: Balance, balances: map<AccountId, Balance>)

  /** What a state-changing message leaves behind: the new storage and its result. */
  datatype Step = Step(next: Erc20, result: Result<Error>)

  /** The ledger invariant: the balances add up to the fixed total supply. */
  ghost predicate Valid(s: Erc20)
  {
    MapSum.Sum(s.balances) == s.totalSupply
  }

  /** The constructor: the caller holds the whole supply, nobody else holds anything. */
  function New(caller: AccountId, totalSupply: Balance): (s: Erc20)
    ensures s.totalSupply == totalSupply
    ensures BalanceOf(s, caller) == totalSupply
    ensures forall a :: a != caller ==> BalanceOf(s, a) == 0
    ensures Valid(s)
  {
    MapSum.SumSingleton(caller, totalSupply);
    Erc20(totalSupply, map[caller := totalSupply])
  }

  /** The fixed supply; in a valid state it is what the balances add up to. */
  function TotalSupply(s: Erc20): (r: Balance)
    ensures Valid(s) ==> r == MapSum.Sum(s.balances)
  {
    s.totalSupply
  }

  /** The balance of `owner`, zero for an account that was never written. */
  function BalanceOf(s: Erc20, owner: AccountId): (r: Balance)
    ensures owner !in s.balances ==> r == 0
    ensures owner in s.balances ==> r == s.balances[owner]
  {
    Lookup(s.balances, owner)
  }

  /**
   Moves `value` from `from` to `to`. The debit is written first and the
   receiver's balance is read afterwards, so when `from == to` the credit
   restores exactly what the debit took. The credit is an unchecked `u128`
   addition, modelled as `WrappingAdd`; `CreditNeverWraps` shows it never wraps
   in a valid state.
   */
  function TransformFromTo(s: Erc20, from: AccountId, to: AccountId, value: Balance): (r: Step)
    ensures r.result.Err? <==> BalanceOf(s, from) < value
    ensures r.result.Err? ==> r.next == s
    ensures r.next.totalSupply == s.totalSupply
    ensures forall a :: a != from && a != to ==> BalanceOf(r.next, a) == BalanceOf(s, a)
    ensures r.result.Ok? && from == to ==> BalanceOf(r.next, from) == BalanceOf(s, from)
    ensures r.result.Ok? && from != to ==> BalanceOf(r.next, from) == BalanceOf(s, from) - value
    ensures r.result.Ok? && from != to && BalanceOf(s, to) + value < BALANCE_MODULUS
            ==> BalanceOf(r.next, to) == BalanceOf(s, to) + value
  {
    var fromBalance := BalanceOf(s, from);
    if fromBalance < value then
      Step(s, Err(InsufficientBalance))
    else
      var debited := s.balances[from := fromBalance - value];
      var toBalance := Lookup(debited, to);
      Step(s.(balances := debited[to := WrappingAdd(toBalance, value)]), Ok)
  }

  /**
   The `transfer` message: `caller` sends `value` to `to`. The debit, the net
   zero of a self-transfer and the untouched other accounts hold in every
   state; in a valid state the credit is exact too and the invariant survives
   the move.
   */
  function Transfer(s: Erc20, caller: AccountId, to: AccountId, value: Balance): (r: Step)
    ensures r.result == Err(InsufficientBalance) <==> value > BalanceOf(s, caller)
    ensures r.result.Err? ==> r.next == s
    ensures r.next.totalSupply == s.totalSupply
    ensures r.result.Ok? && caller != to ==> BalanceOf(r.next, caller) == BalanceOf(s, caller) - value
    ensures r.result.Ok? && caller == to ==> BalanceOf(r.next, caller) == BalanceOf(s, caller)
    ensures forall a :: a != caller && a != to ==> BalanceOf(r.next, a) == BalanceOf(s, a)
    ensures Valid(s) ==> Valid(r.next)
    ensures Valid(s) && r.result.Ok? ==> MovedExactly(s, r.next, caller, to, value)
  {
    TransformFromToConserves(s, caller, to, value);
    TransformFromTo(s, caller, to, value)
  }

  /**
   `next` is `s` with `value` moved from `from` to `to`: the sender is debited,
   the receiver credited, a self-transfer changes nothing, other accounts and
   the supply are untouched.
   */
  ghost predicate MovedExactly(s: Erc20, next: Erc20, from: AccountId, to: AccountId, value: Balance)
  {
    && next.totalSupply == s.totalSupply
    && (from != to ==> BalanceOf(next, from) + value == BalanceOf(s, from))
    && (from != to ==> BalanceOf(next, to) == BalanceOf(s, to) + value)
    && (from == to ==> BalanceOf(next, from) == BalanceOf(s, from))
    && (forall a :: a != from && a != to ==> BalanceOf(next, a) == BalanceOf(s, a))
  }

  /**
   The unchecked addition `to_balance + value` never exceeds `u128::MAX` in a
   valid state: after the debit the balances add up to `total_supply - value`,
   the receiver's re-read balance is one of them, so adding `value` back stays
   within `total_supply`. This also covers `from == to`.
   */
  lemma CreditNeverWraps(s: Erc20, from: AccountId, to: AccountId, value: Balance)
    requires Valid(s)
    requires value <= BalanceOf(s, from)
    ensures Lookup(s.balances[from := BalanceOf(s, from) - value], to) + value <= s.totalSupply
    ensures Lookup(s.balances[from := BalanceOf(s, from) - value], to) + value < BALANCE_MODULUS
  {
    var debited := s.balances[from := BalanceOf(s, from) - value];
    MapSum.SumUpdate(s.balances, from, BalanceOf(s, from) - value);
    if to in debited {
      MapSum.EntryAtMostSum(debited, to);
    }
  }

  /** `transform_from_to` keeps the balances summing to the supply, and moves exactly `value`. */
  lemma TransformFromToConserves(s: Erc20, from: AccountId, to: AccountId, value: Balance)
    ensures Valid(s) ==> Valid(TransformFromTo(s, from, to, value).next)
    ensures Valid(s) && TransformFromTo(s, from, to, value).result.Ok?
            ==> MovedExactly(s, TransformFromTo(s, from, to, value).next, from, to, value)
  {
    var fromBalance := BalanceOf(s, from);
    if Valid(s) && value <= fromBalance {
      var debited := s.balances[from := fromBalance - value];
      var toBalance := Lookup(debited, to);
      CreditNeverWraps(s, from, to, value);
      MapSum.SumUpdate(s.balances, from, fromBalance - value);
      MapSum.SumUpdate(debited, to, toBalance + value);
    }
  }

  /** A `transfer` message as the host delivers it: who calls, to whom, how much. */
  datatype Call = TransferCall(caller: AccountId, to: AccountId, value: Balance)

  /**
   The storage after the host executes `calls` one after another, each to
   completion. Supply is fixed and the invariant holds after every message.
   */
  function Run(s: Erc20, calls: seq<Call>): (r: Erc20)
    ensures r.totalSupply == s.totalSupply
    ensures Valid(s) ==> Valid(r)
    decreases |calls|
  {
    if calls == [] then s
    else
      var c := calls[0];
      Run(Transfer(s, c.caller, c.to, c.value).next, calls[1..])
  }

  /**
   Every state reachable from deployment keeps the balances summing to the
   supply given at construction, so the credit in `transform_from_to` never
   wraps in any reachable state.
   */
  lemma ReachableCreditNeverWraps(deployer: AccountId, totalSupply: Balance, calls: seq<Call>,
                                  from: AccountId, to: AccountId, value: Balance)
    requires value <= BalanceOf(Run(New(deployer, totalSupply), calls), from)
    ensures var s := Run(New(deployer, totalSupply), calls);
            && Valid(s)
            && TotalSupply(s) == totalSupply
            && Lookup(s.balances[from := BalanceOf(s, from) - value], to) + value < BALANCE_MODULUS
  {
    CreditNeverWraps(Run(New(deployer, totalSupply), calls), from, to, value);
  }
}
