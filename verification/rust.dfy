/** Rust primitives the host relies on: fixed-width integers on a 64-bit host,
    the `as` casts between them, overflow-checked addition, and `Option`.
    Dafny integers are unbounded, so every width and wrap-around is written out. */
module Rust {

  datatype Option<+T> = None | Some(value: T)

  const I32_MIN: int := -0x8000_0000
  const I32_MAX: int := 0x7fff_ffff
  const U32_MODULUS: int := 0x1_0000_0000
  /** `usize` is 64 bits wide on the host. */
  const USIZE_MODULUS: int := 0x1_0000_0000_0000_0000
  /** No allocation (and so no `Vec` capacity) may exceed `isize::MAX` bytes. */
  const ISIZE_MAX: int := 0x7fff_ffff_ffff_ffff

  type i32 = x: int | I32_MIN <= x <= I32_MAX
  type u32 = x: int | 0 <= x < U32_MODULUS
  type usize = x: int | 0 <= x < USIZE_MODULUS

  /** `x as usize` for an `i32`: sign extension, so a negative handle or length
      turns into a value just below 2^64, far beyond any wasm32 memory. */
  function I32AsUsize(x: i32): (r: usize)
    ensures 0 <= x ==> r == x
    ensures x < 0 ==> r > ISIZE_MAX
    ensures (r - x) % USIZE_MODULUS == 0
  {
    if 0 <= x then x else USIZE_MODULUS + x
  }

  /** `x as u32` for an `i32`: the same 32 bits read as unsigned. */
  function I32AsU32(x: i32): (r: u32)
    ensures 0 <= x ==> r == x
    ensures x < 0 ==> r > I32_MAX
    ensures (r - x) % U32_MODULUS == 0
  {
    if 0 <= x then x else U32_MODULUS + x
  }

  /** `n as i32` for a slice length: keeps the low 32 bits, so a length of
      2^31 bytes or more reaches the guest as a negative number. */
  function LenAsI32(n: nat): (r: i32)
    ensures n <= I32_MAX ==> r == n
    ensures (r - n) % U32_MODULUS == 0
  {
    var low := n % U32_MODULUS;
    if low <= I32_MAX then low else low - U32_MODULUS
  }

  /** `a + b` on `usize` with overflow checks on: `None` is the overflow panic. */
  function CheckedAdd(a: usize, b: nat): (r: Option<usize>)
    ensures r.Some? <==> a + b < USIZE_MODULUS
    ensures r.Some? ==> r.value == a + b
  {
    if a + b < USIZE_MODULUS then Some(a + b) else None
  }

  /** `a + b` on `usize` in a release build: wraps modulo 2^64. */
  function WrappingAdd(a: usize, b: usize): (r: usize)
    ensures r == (a + b) % USIZE_MODULUS
  {
    if a + b < USIZE_MODULUS then a + b else a + b - USIZE_MODULUS
  }
}
