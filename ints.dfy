/**
 * Fixed-width integers of the Rust program, the generic option and result
 * types, and the string prefix test shared by all modules.
 */
module Ints {

  /** Rust `u8`, `i8` and `i32` as subranges of the mathematical integers. */
  newtype u8 = x: int | 0 <= x < 0x100
  newtype i8 = x: int | -0x80 <= x < 0x80
  newtype i32 = x: int | -0x8000_0000 <= x < 0x8000_0000

  const I32Min: int := -0x8000_0000
  const I32Max: int := 0x7fff_ffff

  /** The bounds as numbers, for proofs that do without definitions. */
  lemma I32Limits()
    ensures I32Min == -0x8000_0000 && I32Max == 0x7fff_ffff
  {
  }

  predicate InI32(x: int) {
    I32Min <= x <= I32Max
  }

  datatype Option<T> = None | Some(value: T)

  datatype Result<T, E> = Ok(value: T) | Err(error: E)

  /** `s` begins with `prefix`. */
  predicate StartsWith(s: string, prefix: string) {
    |prefix| <= |s| && s[..|prefix|] == prefix
  }

  function Abs(x: int): nat {
    if x < 0 then -x else x
  }

  /**
   * Rust's `/` on integers: the quotient rounded toward zero (Dafny's own `/`
   * is Euclidean). The remainder it leaves has the sign of the dividend and is
   * smaller than the divisor in magnitude, and the quotient is never larger
   * than the dividend in magnitude.
   */
  function TruncDiv(a: int, b: int): (q: int)
    requires b != 0
    ensures Abs(a - q * b) < Abs(b)
    ensures a - q * b == 0 || (a - q * b < 0 <==> a < 0)
    ensures Abs(q) <= Abs(a)
  {
    var m: int := Abs(a) / Abs(b);
    var q := if (a < 0) == (b < 0) then m else -m;
    TruncDivFacts(a, b, m, q);
    q
  }

  lemma TruncDivFacts(a: int, b: int, m: int, q: int)
    requires b != 0 && m == Abs(a) / Abs(b)
    requires q == if (a < 0) == (b < 0) then m else -m
    ensures Abs(a - q * b) < Abs(b)
    ensures a - q * b == 0 || (a - q * b < 0 <==> a < 0)
    ensures Abs(q) <= Abs(a)
  {
    var n, d := Abs(a), Abs(b);
    var p := m * d;
    assert n == p + n % d && 0 <= n % d < d;
    MulAtLeast(m, d);
    SignedProduct(a, b, m, q);
    assert q * b == if a < 0 then -p else p;
  }

  lemma SignedProduct(a: int, b: int, m: int, q: int)
    requires b != 0
    requires q == if (a < 0) == (b < 0) then m else -m
    ensures q * b == if a < 0 then -(m * Abs(b)) else m * Abs(b)
  {
    if b < 0 {
      assert Abs(b) == -b;
      assert q * b == (-q) * Abs(b);
    }
  }

  lemma MulAtLeast(q: nat, d: nat)
    requires d >= 1
    ensures q * d >= q
  {
    var k: nat := d - 1;
    assert q * d == q * k + q;
  }
}
