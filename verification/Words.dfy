/** Fixed-width machine words and the wrap-around of C and Go unsigned arithmetic. */
module Words {
  const TWO32: int := 0x1_0000_0000
  const TWO64: int := 0x1_0000_0000_0000_0000

  type U32 = x: int | 0 <= x < TWO32
  type U64 = x: int | 0 <= x < TWO64

  /** `a + b` on 64-bit unsigned words. */
  function Add64(a: U64, b: U64): U64 {
    (a + b) % TWO64
  }

  /** `a - b` on 64-bit unsigned words. */
  function Sub64(a: U64, b: U64): U64 {
    (a - b) % TWO64
  }

  /** A sum is what it should be unless it is too large, and then it loses 2^64. */
  lemma AddCarries(a: U64, b: U64)
    ensures Add64(a, b) == if a + b < TWO64 then a + b else a + b - TWO64
    ensures TWO64 == 18_446_744_073_709_551_616 && TWO32 * TWO32 == TWO64
  {
  }

  /** A difference is what it should be unless it is negative, and then it borrows 2^64. */
  lemma SubBorrows(a: U64, b: U64)
    ensures Sub64(a, b) == if b <= a then a - b else a - b + TWO64
    ensures Add64(Sub64(a, b), b) == a
  {
    if a < b {
      assert a - b == -1 * TWO64 + (a - b + TWO64);
    }
  }

  /** Adding a wrapped difference moves a word by the difference itself. */
  lemma AddSub(x: U64, a: U64, b: U64)
    ensures Add64(x, Sub64(a, b)) == (x + a - b) % TWO64
  {
    SubBorrows(a, b);
    if a < b {
      ShiftUp(x + a - b);
    }
  }

  lemma ShiftUp(n: int)
    ensures (n + TWO64) % TWO64 == n % TWO64
  {
  }

  /** Adding to a wrapped sum wraps to the same word as adding to the sum itself. */
  lemma WrapAdd(sum: nat, b: U64)
    ensures Add64(sum % TWO64, b) == (sum + b) % TWO64
  {
    var q := sum / TWO64;
    assert sum + b == q * TWO64 + (sum % TWO64 + b);
    ModShift(q, sum % TWO64 + b);
  }

  lemma NoWrapSum(a: nat, b: nat)
    requires a + b < TWO64
    ensures (a + b) % TWO64 == a + b && b % TWO64 == b
  {
  }

  lemma ModShift(q: nat, r: nat)
    ensures (q * TWO64 + r) % TWO64 == r % TWO64
  {
    var d, m := r / TWO64, r % TWO64;
    assert q * TWO64 + r == (q + d) * TWO64 + m;
    Uniqueness(q * TWO64 + r, q + d, m);
  }

  lemma Uniqueness(n: nat, q: nat, m: nat)
    requires n == q * TWO64 + m && m < TWO64
    ensures n % TWO64 == m
  {
  }
}
