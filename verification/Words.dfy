/**
 Machine words as numbers: their sizes, powers of two, bitwise and, and the masking
 and wrapping identities the rings and the bit fields rely on.
 */
module Words {

  type u8 = x: nat | x < 0x100
  type u16 = x: nat | x < 0x1_0000
  type u32 = x: nat | x < 0x1_0000_0000
  type u64 = x: nat | x < 0x1_0000_0000_0000_0000

  const U32 := 0x1_0000_0000
  const U64 := 0x1_0000_0000_0000_0000

  // A 64-bit difference read as a signed number.
  function Signed(x: int): int {
    var w := x % U64;
    if w < U64 / 2 then w else w - U64
  }

  // It is the one number congruent to the difference that 64 bits can hold with a sign.
  lemma SignedIs(x: int, y: int)
    requires -0x8000_0000_0000_0000 <= y < 0x8000_0000_0000_0000
    ensures y == Signed(x) <==> (x - y) % U64 == 0
  {
  }

  function Pow2(k: nat): (p: nat)
    ensures p > 0
  {
    if k == 0 then 1 else 2 * Pow2(k - 1)
  }

  // Bitwise and of two unsigned numbers.
  function And(a: nat, b: nat): nat {
    if a == 0 || b == 0 then 0
    else 2 * And(a / 2, b / 2) + (if a % 2 == 1 && b % 2 == 1 then 1 else 0)
  }

  // Masking with one less than a power of two is reduction modulo that power.
  lemma {:induction false} MaskIsMod(x: nat, k: nat)
    ensures And(x, Pow2(k) - 1) == x % Pow2(k)
    decreases k
  {
    if k == 0 {
      assert x % 1 == 0;
    } else {
      var n, half := Pow2(k), Pow2(k - 1);
      MaskIsMod(x / 2, k - 1);
      MaskStep(x, half, n);
    }
  }

  lemma MaskStep(x: nat, half: nat, n: nat)
    requires half > 0 && n == 2 * half
    requires And(x / 2, half - 1) == (x / 2) % half
    ensures And(x, n - 1) == x % n
  {
    AndOdd(x, half - 1);
    hide And;
    HalvedMod(x, half, n);
  }

  lemma AndOdd(x: nat, m: nat)
    ensures And(x, 2 * m + 1) == 2 * And(x / 2, m) + x % 2
  {
    var mask := 2 * m + 1;
    assert mask / 2 == m && mask % 2 == 1;
  }

  lemma HalvedMod(x: nat, half: nat, n: nat)
    requires half > 0 && n == 2 * half
    ensures x % n == 2 * ((x / 2) % half) + x % 2
  {
    var q, r := (x / 2) / half, (x / 2) % half;
    assert x == n * q + (2 * r + x % 2);
    DivModUnique(x, n, q, 2 * r + x % 2);
  }

  lemma ProductSign(n: int, d: int)
    requires n > 0
    ensures d > 0 ==> n * d >= n
    ensures d < 0 ==> n * d <= -n
  {
  }

  lemma DivModUnique(x: int, n: int, q: int, r: int)
    requires n > 0 && 0 <= r < n && x == n * q + r
    ensures x / n == q && x % n == r
  {
    var d := x / n - q;
    assert n * d == r - x % n;
    ProductSign(n, d);
  }

  lemma Pow2Divides(k: nat, m: nat)
    requires k <= m
    ensures Pow2(m) == Pow2(k) * Pow2(m - k)
  {
    if k < m {
      Pow2Divides(k, m - 1);
    }
  }

  lemma ModOfMultiple(x: nat, n: nat, m: nat)
    requires n > 0 && m > 0
    ensures n * m > 0
    ensures (x % (n * m)) % n == x % n
  {
    var q, w := x / (n * m), x % (n * m);
    Regroup(x, n, m, q, w);
    DivModUnique(x, n, m * q + w / n, w % n);
  }

  lemma Regroup(x: nat, n: nat, m: nat, q: nat, w: nat)
    requires n > 0 && x == (n * m) * q + w
    ensures x == n * (m * q + w / n) + w % n
  {
    var d := w / n;
    assert w == n * d + w % n;
    assert n * (m * q + d) == (n * m) * q + n * d;
  }

  // Reducing by a power of two is unaffected by an earlier wrap of the word.
  lemma WrapThenMod(x: nat, k: nat)
    requires k <= 32
    ensures (x % U32) % Pow2(k) == x % Pow2(k)
  {
    Pow2Is32();
    Pow2Divides(k, 32);
    ModOfMultiple(x, Pow2(k), Pow2(32 - k));
  }

  lemma Pow2Is32()
    ensures Pow2(32) == U32
  {
    assert Pow2(8) == 256;
    Pow2Divides(8, 16);
    assert Pow2(16) == 65536;
    Pow2Divides(16, 32);
  }

  // The difference of two wrapped counters is the difference of the counters.
  lemma WrapDistance(p: nat, c: nat)
    requires c <= p < c + U32
    ensures (p % U32 - c % U32) % U32 == p - c
  {
  }

  lemma WrapAdd(p: nat, d: nat)
    ensures (p % U32 + d) % U32 == (p + d) % U32
  {
  }

  lemma FieldWidths()
    ensures Pow2(1) == 2 && Pow2(3) == 8 && Pow2(4) == 16 && Pow2(8) == 0x100 && Pow2(10) == 0x400
    ensures Pow2(16) == 0x1_0000 && Pow2(29) == 0x2000_0000
    ensures Pow2(32) == U32 && Pow2(64) == 0x1_0000_0000_0000_0000
  {
    Pow2Is32();
    Pow2Divides(16, 32);
    Pow2Divides(3, 32);
    Pow2Divides(32, 64);
    assert Pow2(8) == 256;
    Pow2Divides(8, 16);
    assert Pow2(10) == 1024;
  }

  // The powers at which the header fields start.
  lemma FieldShifts()
    ensures Pow2(0) == 1 && Pow2(8) == 0x100 && Pow2(12) == 0x1000 && Pow2(16) == 0x1_0000 && Pow2(17) == 0x2_0000
    ensures Pow2(19) == 0x8_0000 && Pow2(20) == 0x10_0000 && Pow2(23) == 0x80_0000 && Pow2(24) == 0x100_0000
    ensures Pow2(32) == U32 && Pow2(61) == 0x2000_0000_0000_0000
  {
    FieldWidths();
    assert Pow2(12) == 4096 by {
      Pow2Divides(8, 12);
    }
    Pow2Divides(16, 17);
    Pow2Divides(16, 19);
    Pow2Divides(16, 20);
    Pow2Divides(16, 24);
    assert Pow2(24) == 2 * Pow2(23);
    Pow2Divides(29, 61);
  }
}
