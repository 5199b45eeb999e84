/** Runtime vocabulary shared by the native library and the managed wrapper:
    optional values, results that may carry a thrown exception, 32-bit two's
    complement integers and the truncating integer division of C++ and C#. */
module Clr {

  datatype Option<+T> = None | Some(value: T)

  /** The exceptions the modelled code throws (or, for a native null
      dereference or division by zero, the exception the runtime raises). */
  datatype Exception =
    | ArgumentException
    | ArgumentOutOfRangeException
    | InvalidOperationException
    | OverflowException
    | DivideByZeroException
    | NullReferenceException

  /** The outcome of a call that either returns a value or throws. */
  datatype Outcome<+T> = Ok(value: T) | Throws(error: Exception)

  const Int32Min: int := -0x8000_0000
  const Int32Max: int := 0x7FFF_FFFF

  type Int32 = x: int | Int32Min <= x <= Int32Max

  const TwoTo32: int := 0x1_0000_0000

  /** Unchecked 32-bit arithmetic: the Int32 congruent to x modulo 2^32. */
  function Wrap32(x: int): (r: Int32)
    ensures Int32Min <= x <= Int32Max ==> r == x
    ensures (x - r) % TwoTo32 == 0
  {
    var m := x % TwoTo32;
    if m > Int32Max then m - TwoTo32 else m
  }

  /** An Int32 that differs from x by a multiple of 2^32 is x's wrapped value. */
  lemma Wrap32Unique(x: int, r: Int32, k: int)
    requires x == r + k * TwoTo32
    ensures Wrap32(x) == r
  {
  }

  /** The 32 bits of a signed 32-bit value, as two's complement. */
  function ToBits(x: Int32): bv32
  {
    if x >= 0 then x as bv32 else (x + 0x1_0000_0000) as bv32
  }

  /** The signed 32-bit value whose two's complement bits are b. */
  function FromBits(b: bv32): (r: Int32)
    ensures ToBits(r) == b
  {
    if b as int <= Int32Max then b as int else b as int - 0x1_0000_0000
  }

  /** The magnitude of x. */
  function Abs(x: int): (r: int)
    ensures r >= 0 && (r == x || r == -x)
  {
    if x < 0 then -x else x
  }

  /** Integer division as C++ and C# define it: the quotient is rounded
      toward zero (Dafny's own `/` rounds toward negative infinity for a
      positive divisor). */
  function TruncDiv(a: int, b: int): (q: int)
    requires b != 0
    ensures a >= 0 && b > 0 ==> q == a / b
    ensures (a >= 0) == (b > 0) || a == 0 ==> q >= 0
    ensures (a >= 0) != (b > 0) ==> q <= 0
    ensures a >= 0 ==> 0 <= a - q * b < Abs(b)
    ensures a < 0 ==> -Abs(b) < a - q * b <= 0
  {
    var q := if a >= 0 then (if b > 0 then a / b else -(a / -b))
             else (if b > 0 then -((-a) / b) else (-a) / (-b));
    TruncRemainder(a, b, q);
    q
  }

  /** The remainder left by the truncated quotient has the dividend's sign
      and is smaller in magnitude than the divisor. */
  lemma TruncRemainder(a: int, b: int, q: int)
    requires b != 0
    requires q == if a >= 0 then (if b > 0 then a / b else -(a / -b))
                  else (if b > 0 then -((-a) / b) else (-a) / (-b))
    ensures (a >= 0) == (b > 0) || a == 0 ==> q >= 0
    ensures (a >= 0) != (b > 0) ==> q <= 0
    ensures a >= 0 ==> 0 <= a - q * b < Abs(b)
    ensures a < 0 ==> -Abs(b) < a - q * b <= 0
  {
    if a >= 0 && b > 0 {
      DivRemainder(a, b);
    } else if a >= 0 {
      DivRemainder(a, -b);
      assert q * b == (a / -b) * -b;
    } else if b > 0 {
      DivRemainder(-a, b);
      assert q * b == -(((-a) / b) * b);
    } else {
      DivRemainder(-a, -b);
      assert q * b == -(q * -b);
    }
  }

  /** Dafny's division of a natural number by a positive divisor leaves a
      remainder in [0, c). */
  lemma DivRemainder(a: int, c: int)
    requires a >= 0 && c > 0
    ensures 0 <= a - (a / c) * c < c
  {
  }

  /** Truncating division by a positive divisor is monotone in the dividend. */
  lemma TruncDivMonotone(a: int, a': int, b: int)
    requires a <= a' && b > 0
    ensures TruncDiv(a, b) <= TruncDiv(a', b)
  {
    if a >= 0 {
      assert a / b <= a' / b by {
        DivMonotone(a, a', b);
      }
    } else if a' < 0 {
      DivMonotone(-a', -a, b);
    }
  }

  lemma DivMonotone(a: int, a': int, b: int)
    requires 0 <= a <= a' && b > 0
    ensures a / b <= a' / b
  {
    var q, q' := a / b, a' / b;
    assert q * b <= a;
    assert a' < (q' + 1) * b;
    ProductOrder(q, q' + 1, b);
  }

  lemma ProductOrder(x: int, y: int, b: int)
    requires b > 0 && x * b < y * b
    ensures x < y
  {
  }
}
