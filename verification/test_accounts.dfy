/**
 The accounts the unit tests use: the host's default test accounts alice,
 bob and charlie, whose 32 bytes are all 1, all 2 and all 3.
 */
module TestAccounts {
  import opened Primitives

  function Alice(): AccountId { AccountFromByte(1) }
  function Bob(): AccountId { AccountFromByte(2) }
  function Charlie(): AccountId { AccountFromByte(3) }

  lemma DistinctAccounts()
    ensures Alice() != Bob() && Alice() != Charlie() && Bob() != Charlie()
  {
    assert Alice()[0] != Bob()[0] && Alice()[0] != Charlie()[0] && Bob()[0] != Charlie()[0];
  }
}
