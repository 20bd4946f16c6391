/**
 * The `uint` type: a Python `int` subclass whose constructor and arithmetic
 * refuse negative results. It is the declared type of the `page` parameter.
 */
module RestycornTypes {
  import opened Wrappers
  import opened Values

  /** A `uint` value. Being a subset type of `int`, it compares (`<`, `<=`,
      `==`, `!=`, `>`, `>=`) exactly as the underlying integer does. */
  type UInt = nat

  const NegativeMessage := "Value of uint type cannot be negative"

  /** The range check every constructor call ends with. */
  function Checked(i: int): (r: Result<UInt, Exc>)
    ensures r.Success? <==> i >= 0
    ensures r.Success? ==> r.value == i
    ensures r.Failure? ==> r.error == ValueError(NegativeMessage)
  {
    if i < 0 then Failure(ValueError(NegativeMessage)) else Success(i)
  }

  /** `uint(value)`: `int(value)` first, then the range check. */
  function New(value: Value): (r: Result<UInt, Exc>)
    ensures IntOf(value).Failure? ==> r == Failure(IntOf(value).error)
    ensures IntOf(value).Success? ==> (r.Success? <==> IntOf(value).value >= 0)
    ensures r.Success? ==> r.value == IntOf(value).value
    ensures IntOf(value).Success? && r.Failure? ==> r.error == ValueError(NegativeMessage)
  {
    var i :- IntOf(value);
    Checked(i)
  }

  /** `a + b`. */
  function Add(a: UInt, b: int): (r: Result<UInt, Exc>)
    ensures r.Success? <==> a + b >= 0
    ensures r.Success? ==> r.value == a + b
  {
    Checked(a + b)
  }

  /** `a - b`: the difference is re-validated, so it fails exactly when `b > a`. */
  function Sub(a: UInt, b: int): (r: Result<UInt, Exc>)
    ensures r.Failure? <==> b > a
    ensures r.Failure? ==> r.error == ValueError(NegativeMessage)
    ensures r.Success? ==> r.value == a - b
  {
    Checked(a - b)
  }

  /** `a * b`. */
  function Mul(a: UInt, b: int): (r: Result<UInt, Exc>)
    ensures r.Success? ==> r.value == a * b
    ensures b >= 0 ==> r.Success?
  {
    Checked(a * b)
  }

  /** Python's `%` on integers: the remainder takes the sign of the divisor
      (Dafny's own `%` never returns a negative remainder). */
  function FloorMod(a: int, b: int): (r: int)
    requires b != 0
    ensures b > 0 ==> 0 <= r < b
    ensures b < 0 ==> b < r <= 0
    ensures b > 0 ==> r == a % b
    ensures b < 0 ==> (r == 0 <==> a % -b == 0)
  {
    if b > 0 then a % b
    else
      var m := a % -b;
      if m == 0 then 0 else m + b
  }

  /** `a % b`: dividing by zero raises, and a negative divisor gives a
      negative remainder, which the range check refuses. */
  function Mod(a: UInt, b: int): (r: Result<UInt, Exc>)
    ensures b == 0 <==> r == Failure(ZeroDivisionError)
    ensures b > 0 ==> r == Success(a % b)
    ensures b < 0 ==> (r.Success? <==> a % -b == 0)
  {
    if b == 0 then Failure(ZeroDivisionError) else Checked(FloorMod(a, b))
  }

  /** The modulus of Python's integer hash on 64-bit platforms, 2**61 - 1. */
  const HashModulus: nat := 0x1FFF_FFFF_FFFF_FFFF

  /** `hash(i)` for a Python integer. */
  function IntHash(i: int): int {
    if i >= 0 then i % HashModulus
    else
      var h := -((-i) % HashModulus);
      if h == -1 then -2 else h
  }

  /** `hash(u)` of a `uint`: the hash of the underlying integer. */
  function Hash(u: UInt): (h: int)
    ensures h == IntHash(u)
    ensures 0 <= h < HashModulus
    ensures u < HashModulus ==> h == u
  {
    u % HashModulus
  }
}
