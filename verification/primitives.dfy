/**
 Types shared by both versions of the token contract: account identifiers,
 the 128-bit `Balance`, Rust's `Option`, a unit-valued `Result`, and the
 read of an `ink::storage::Mapping` entry that falls back to zero.
 */
module Primitives {

  /** 2^128: one past the largest value of Rust's `u128`, the width of `Balance`. */
  const BALANCE_MODULUS: nat := 0x1_0000_0000_0000_0000_0000_0000_0000_0000

  /** A token amount: an unsigned 128-bit integer. */
  type Balance = x: nat | x < 0x1_0000_0000_0000_0000_0000_0000_0000_0000

  type Byte = bv8

  /** An account identifier: 32 opaque bytes, compared only for equality. */
  type AccountId = a: seq<Byte> | |a| == 32 witness seq(32, _ => 0)

  /** The account whose 32 bytes all equal `b` (`AccountId::from([b; 32])`). */
  function AccountFromByte(b: Byte): (a: AccountId)
    ensures forall i :: 0 <= i < |a| ==> a[i] == b
  {
    seq(32, _ => b)
  }

  datatype Option<+T> = None | Some(value: T)

  /** `Result<(), E>`: success carries no value. */
  datatype Result<+E> = Ok | Err(error: E)

  /**
   `mapping.get(key).unwrap_or_default()`: the stored amount, or zero when the
   key was never written. Reading never creates an entry.
   */
  function Lookup<K>(m: map<K, Balance>, key: K): (r: Balance)
    ensures key in m ==> r == m[key]
    ensures key !in m ==> r == 0
  {
    if key in m then m[key] else 0
  }

  /**
   `a + b` on `u128` when it is not checked: the sum reduced modulo 2^128.
   (A build with overflow checks would abort instead; both agree whenever the
   sum fits, and in every reachable state of the ledgers below it does.)
   */
  function WrappingAdd(a: Balance, b: Balance): (r: Balance)
    ensures a + b < BALANCE_MODULUS ==> r == a + b
    ensures a + b >= BALANCE_MODULUS ==> r == a + b - BALANCE_MODULUS
  {
    (a + b) % BALANCE_MODULUS
  }
}
