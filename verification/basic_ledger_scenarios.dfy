/**
 The unit tests of `erc20/lib.rs` that exercise the contract (all but
 `change_caller`, which only exercises the test host) as lemmas about the
 balance-only model.
 */
module BasicLedgerScenarios {
  import opened Primitives
  import opened TestAccounts
  import opened BasicLedger

  /** `new_works`: deploying with 777 reports a total supply of 777. */
  lemma NewWorks()
    ensures TotalSupply(New(Alice(), 777)) == 777
  {
  }

  /** `balance_works`: alice deploys 100 and holds it all; bob holds nothing. */
  lemma BalanceWorks()
    ensures var s := New(Alice(), 100);
            && TotalSupply(s) == 100
            && BalanceOf(s, Alice()) == 100
            && BalanceOf(s, Bob()) == 0
  {
    DistinctAccounts();
  }

  /**
   `transfer_works`: alice sends bob 10, then fails to send 100 because only
   90 are left, and the failed call changes nothing.
   */
  lemma TransferWorks()
    ensures var first := Transfer(New(Alice(), 100), Alice(), Bob(), 10);
            var second := Transfer(first.next, Alice(), Bob(), 100);
            && first.result == Ok
            && BalanceOf(first.next, Alice()) == 90
            && BalanceOf(first.next, Bob()) == 10
            && second.result == Err(InsufficientBalance)
            && second.next == first.next
  {
    DistinctAccounts();
  }
}
