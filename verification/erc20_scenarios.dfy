/**
 The unit tests of `erc20/src/lib.rs` that exercise the contract (all but
 `change_caller`, which only exercises the test host) as lemmas about the
 model, plus one run that shows the allowance a failed `transfer_from` leaves
 consumed.
 */
module Erc20Scenarios {
  import opened Primitives
  import opened TestAccounts
  import opened Erc20

  /** `new_works`: deploying with 777 reports a total supply of 777. */
  lemma NewWorks()
    ensures TotalSupply(New(Alice(), 777).contract) == 777
  {
  }

  /** `balance_works`: alice deploys 100 and holds it all; bob holds nothing. */
  lemma BalanceWorks()
    ensures var d := New(Alice(), 100);
            && TotalSupply(d.contract) == 100
            && BalanceOf(d.contract, Alice()) == 100
            && BalanceOf(d.contract, Bob()) == 0
            && d.events == [TransferEvent(None, Some(Alice()), 100)]
  {
    DistinctAccounts();
  }

  /** `transfer_works`: 10 reaches bob; a further 100 fails and changes nothing. */
  lemma TransferWorks()
    ensures var first := Transfer(New(Alice(), 100).contract, Alice(), Bob(), 10);
            var second := Transfer(first.next, Alice(), Bob(), 100);
            && first.result == Ok
            && BalanceOf(first.next, Alice()) == 90
            && BalanceOf(first.next, Bob()) == 10
            && second.result == Err(InsufficientBalance)
            && second.next == first.next
  {
    DistinctAccounts();
  }

  /** `allowance_works`: nothing approved reads 0; approving 100 then 0 leaves 0. */
  lemma AllowanceWorks()
    ensures var s := New(Alice(), 100).contract;
            var approved := Approve(s, Alice(), Bob(), 100);
            var reset := Approve(approved.next, Alice(), Bob(), 0);
            && GetAllowance(s, Alice(), Alice()) == 0
            && approved.result == Ok
            && GetAllowance(approved.next, Alice(), Bob()) == 100
            && reset.result == Ok
            && GetAllowance(reset.next, Alice(), Bob()) == 0
  {
  }

  /**
   `approval_and_transfer_works`: alice approves bob for 100; bob's own
   `approve` of 100 fails because bob holds nothing; bob then moves 50 of
   alice's tokens to himself, leaving 50 each and 50 of the allowance.
   */
  lemma ApprovalAndTransferWorks()
    ensures var s := New(Alice(), 100).contract;
            var approved := Approve(s, Alice(), Bob(), 100);
            var bobApproves := Approve(approved.next, Bob(), Bob(), 100);
            var spent := TransferFrom(bobApproves.next, Bob(), Alice(), Bob(), 50);
            && approved.result == Ok
            && GetAllowance(approved.next, Alice(), Bob()) == 100
            && BalanceOf(approved.next, Alice()) == 100
            && BalanceOf(approved.next, Bob()) == 0
            && bobApproves.result == Err(InsufficientBalance)
            && spent.result == Ok
            && BalanceOf(spent.next, Alice()) == 50
            && BalanceOf(spent.next, Bob()) == 50
            && GetAllowance(spent.next, Alice(), Bob()) == 50
  {
    DistinctAccounts();
  }

  /**
   The allowance a failed `transfer_from` burns: alice approves bob for 100,
   then sends 60 to charlie; bob's `transfer_from` of 100 passes the allowance
   check, lowers the allowance to 0, and then fails on alice's balance of 40.
   */
  lemma FailedTransferFromBurnsAllowance()
    ensures var s := New(Alice(), 100).contract;
            var approved := Approve(s, Alice(), Bob(), 100);
            var sent := Transfer(approved.next, Alice(), Charlie(), 60);
            var spent := TransferFrom(sent.next, Bob(), Alice(), Bob(), 100);
            && spent.result == Err(InsufficientBalance)
            && GetAllowance(sent.next, Alice(), Bob()) == 100
            && GetAllowance(spent.next, Alice(), Bob()) == 0
            && spent.next.balances == sent.next.balances
            && spent.events == []
  {
    DistinctAccounts();
  }
}
