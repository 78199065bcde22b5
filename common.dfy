/**
 * Shared vocabulary of the model: optional values, results with an error
 * side, opaque native handles (0 plays the role of VK_NULL_HANDLE / nullptr)
 * and the fixed-width integer arithmetic the C++ code relies on.
 */
module Common {

  datatype Option<T> = None | Some(value: T)

  datatype Result<T, E> = Ok(value: T) | Err(error: E)

  /** An opaque Vulkan or VMA handle; 0 is the null handle. */
  type Handle = nat

  const NULL_HANDLE: Handle := 0

  const U32_MODULUS: int := 0x1_0000_0000

  type u32 = x: int | 0 <= x < 0x1_0000_0000

  type u16 = x: int | 0 <= x < 0x1_0000

  type u8 = x: int | 0 <= x < 0x100

  /** Unsigned 32-bit wrap-around of a mathematical integer. */
  function Wrap32(x: int): (r: u32)
    ensures 0 <= x < U32_MODULUS ==> r == x
    ensures 0 <= x ==> r <= x
    ensures (r - x) % U32_MODULUS == 0
  {
    x % U32_MODULUS
  }

  /** Wrapping each operand first does not change a wrapped sum. */
  lemma Wrap32Add(a: int, b: int)
    ensures Wrap32(Wrap32(a) + Wrap32(b)) == Wrap32(a + b)
  {
    var qa, qb := a / U32_MODULUS, b / U32_MODULUS;
    assert a == qa * U32_MODULUS + Wrap32(a);
    assert b == qb * U32_MODULUS + Wrap32(b);
    assert a + b == (qa + qb) * U32_MODULUS + (Wrap32(a) + Wrap32(b));
    ModOfShift(Wrap32(a) + Wrap32(b), qa + qb);
  }

  lemma Wrap32AddLeft(a: int, b: int)
    ensures Wrap32(Wrap32(a) + b) == Wrap32(a + b)
  {
    var qa := a / U32_MODULUS;
    assert a == qa * U32_MODULUS + Wrap32(a);
    assert a + b == qa * U32_MODULUS + (Wrap32(a) + b);
    ModOfShift(Wrap32(a) + b, qa);
  }

  lemma ModOfShift(x: int, q: int)
    ensures (q * U32_MODULUS + x) % U32_MODULUS == x % U32_MODULUS
  {
  }

  /** The two's-complement reading of a 32-bit pattern (an int32 assignment). */
  function AsInt32(x: u32): (r: int)
    ensures -0x8000_0000 <= r < 0x8000_0000
    ensures (r - x) % U32_MODULUS == 0
  {
    if x < 0x8000_0000 then x else x - U32_MODULUS
  }

  /** C++ integer division, which truncates toward zero (Dafny's `/` is Euclidean). */
  function TruncDiv(a: int, b: int): (q: int)
    requires b > 0
    ensures a >= 0 ==> q == a / b
    ensures a < 0 ==> q == -((-a) / b)
  {
    if a >= 0 then a / b else -((-a) / b)
  }

  function Min(a: int, b: int): int { if a <= b then a else b }

  function Max(a: int, b: int): int { if a >= b then a else b }

  /** std::clamp, defined only when lo <= hi. */
  function Clamp(v: int, lo: int, hi: int): (r: int)
    requires lo <= hi
    ensures lo <= r <= hi
    ensures lo <= v <= hi ==> r == v
  {
    if v < lo then lo else if hi < v then hi else v
  }

  type i32 = x: int | -0x8000_0000 <= x < 0x8000_0000

  /** glm::ivec2. */
  datatype IVec2 = IVec2(x: i32, y: i32)
}
