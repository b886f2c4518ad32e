/** Types shared by every part of the model: machine integer widths, the
    library's result codes, an Option wrapper and the wrap-around and
    rounding arithmetic that the driver writes with masks. */
module DkTypes {

  const Two16: nat := 0x1_0000
  const Two32: nat := 0x1_0000_0000
  const Two64: nat := 0x1_0000_0000_0000_0000

  type u16 = x: int | 0 <= x < 0x1_0000
  type u32 = x: int | 0 <= x < 0x1_0000_0000
  type u64 = x: int | 0 <= x < 0x1_0000_0000_0000_0000

  /** DK_GPU_ADDR_INVALID: the all-ones 64-bit address. */
  const GpuAddrInvalid: u64 := 0xFFFF_FFFF_FFFF_FFFF

  /** The DkResult codes this core produces. */
  datatype DkResult =
    | Success
    | Fail
    | OutOfMemory
    | NotImplemented
    | MisalignedSize
    | MisalignedData
    | BadInput
    | BadState

  datatype Option<T> = None | Some(value: T)

  /** Truncation of an unbounded result to 32 bits (C++ `uint32_t` arithmetic). */
  function Wrap32(x: nat): (r: u32)
    ensures r < Two32 && (x < Two32 ==> r == x)
    ensures (x - r) % Two32 == 0
  {
    x % Two32
  }

  /** Truncation of an unbounded result to 64 bits (`DkGpuAddr` arithmetic). */
  function Wrap64(x: nat): (r: u64)
    ensures x < Two64 ==> r == x
    ensures (x - r) % Two64 == 0
  {
    x % Two64
  }

  /** The power-of-two alignments the driver rounds to with masks: GOB rows
      (64 bytes), constant buffers (0x100), memory blocks (0x1000) and scratch
      memory (0x8000). */
  predicate IsAlignment(a: nat)
  {
    a == 64 || a == 0x100 || a == 0x1000 || a == 0x8000
  }

  /** `x & ~(a - 1)`: the largest multiple of `a` that is not above `x`. */
  function AlignDown(x: nat, a: nat): (r: nat)
    requires IsAlignment(a)
    ensures r % a == 0 && r <= x && x < r + a
  {
    x - x % a
  }

  /** `(x + a - 1) & ~(a - 1)` evaluated in 32-bit arithmetic, as the driver does
      for scratch sizes, constant-buffer sizes and GOB-aligned pitches. */
  function AlignUp32(x: u32, a: nat): (r: u32)
    requires IsAlignment(a)
    ensures r % a == 0
  {
    AlignDown(Wrap32(x + a - 1), a)
  }

  /** Without overflow, AlignUp32 is the least multiple of `a` that is at least `x`. */
  lemma AlignUp32IsLeastMultiple(x: u32, a: nat)
    requires IsAlignment(a) && x + a - 1 < Two32
    ensures x <= AlignUp32(x, a) < x + a
    ensures forall m: nat :: x <= m && m % a == 0 ==> AlignUp32(x, a) <= m
  {
    var y := x + a - 1;
    assert AlignUp32(x, a) == AlignDown(y, a) by { assert Wrap32(y) == y; }
    forall m: nat | x <= m && m % a == 0
      ensures y - y % a <= m
    {
      RoundDownBelow(y, m, a);
    }
  }

  /** A multiple of `a` that is above `y - a` is not below `y` rounded down. */
  lemma RoundDownBelow(y: nat, m: nat, a: nat)
    requires a > 0 && y < m + a && m % a == 0
    ensures y - y % a <= m
  {
    var q, k := y / a, m / a;
    assert y - y % a == q * a && m == k * a;
    assert (k + 1) * a == k * a + a;
    if q > k {
      MulMonotone(k + 1, q, a);
      assert false;
    }
    MulMonotone(q, k, a);
  }

  /** The bit-mask forms that the driver writes agree with AlignDown (bit-vector facts). */
  lemma ScratchMaskIsAlignDown(x: bv32)
    ensures x & !0x7FFF == x - x % 0x8000
  {
  }

  lemma ConstbufMaskIsAlignDown(x: bv32)
    ensures x & !0xFF == x - x % 0x100
  {
  }

  lemma GobMaskIsAlignDown(x: bv32)
    ensures x & !63 == x - x % 64
  {
  }

  // Facts about multiplication, division and remainder by a non-constant
  // divisor, each proved from small steps.

  lemma {:induction false} MulMonotone(a: nat, b: nat, n: nat)
    requires a <= b
    ensures a * n <= b * n
  {
    if a < b {
      assert b * n == a * n + (b - a) * n;
    }
  }

  lemma DivBounds(x: nat, d: nat)
    requires d > 0 && d <= x
    ensures (x / d) * d <= x < (x / d + 1) * d && x / d >= 1
  {
    assert (x / d + 1) * d == (x / d) * d + d;
  }

  lemma DivLowerBound(x: nat, k: nat, d: nat)
    requires d > 0 && k * d <= x
    ensures k <= x / d
  {
    if k > x / d {
      MulMonotone(x / d + 1, k, d);
    }
  }

  lemma {:induction false} MulAtLeast(a: int, n: int)
    requires a >= 1 && n > 0
    ensures a * n >= n
  {
    assert a * n == (a - 1) * n + n;
    if a > 1 {
      MulAtLeast(a - 1, n);
    }
  }

  /** Division with remainder is unique. */
  lemma ModUnique(k: int, q: int, n: int, r: int)
    requires n > 0 && 0 <= r < n && k == q * n + r
    ensures k % n == r
  {
    var q', r' := k / n, k % n;
    assert k == q' * n + r';
    if q' > q {
      assert (q' - q) * n == q' * n - q * n;
      MulAtLeast(q' - q, n);
    } else if q' < q {
      assert (q - q') * n == q * n - q' * n;
      MulAtLeast(q - q', n);
    }
  }

  lemma ModSucc(k: nat, n: nat)
    requires n > 0
    ensures (k + 1) % n == if k % n + 1 == n then 0 else k % n + 1
  {
    var q, r := k / n, k % n;
    assert k == q * n + r;
    if r + 1 == n {
      assert k + 1 == (q + 1) * n + 0;
      ModUnique(k + 1, q + 1, n, 0);
    } else {
      ModUnique(k + 1, q, n, r + 1);
    }
  }

  /** A multiple of m is a multiple of every divisor of m. */
  lemma MultipleOfDivisor(x: nat, m: nat, n: nat)
    requires m > 0 && n > 0 && m % n == 0 && x % m == 0
    ensures x % n == 0
  {
    var k, d := x / m, m / n;
    assert x == k * m;
    assert m == d * n;
    assert x == (k * d) * n by {
      assert k * m == k * (d * n);
    }
    ModUnique(x, k * d, n, 0);
  }

  /** An exact division multiplies back. */
  lemma ExactQuotient(x: nat, n: nat)
    requires n > 0 && x % n == 0
    ensures (x / n) * n == x
  {
  }
}
