// The byte pattern of the DMA round trip (qemu_edu.c, qemu_edu_dma_pattern).

module EduPattern {
  import opened EduDevice

  function PowerOfTwo(n: nat): (p: nat)
    ensures p >= 1
  {
    if n == 0 then 1 else 2 * PowerOfTwo(n - 1)
  }

  /** Bitwise exclusive or of the low `bits` bits. */
  function Xor(a: nat, b: nat, bits: nat): (x: nat)
    ensures x < PowerOfTwo(bits)
    decreases bits
  {
    if bits == 0 then 0
    else (if a % 2 == b % 2 then 0 else 1) + 2 * Xor(a / 2, b / 2, bits - 1)
  }

  function Xor8(a: nat, b: nat): byte
  {
    assert PowerOfTwo(8) == 256 by { assert PowerOfTwo(4) == 16; }
    Xor(a, b, 8)
  }

  /** The low byte of index * 131 ^ length ^ 0xa5. */
  function Pattern(index: nat, length: nat): byte
  {
    Xor8(Xor8(index * 131, length), 0xa5)
  }

  // ---- What the pattern is ----

  predicate Bit(n: nat, k: nat)
  {
    if k == 0 then n % 2 == 1 else Bit(n / 2, k - 1)
  }

  lemma {:induction false} XorBits(a: nat, b: nat, bits: nat, k: nat)
    requires k < bits
    ensures Bit(Xor(a, b, bits), k) <==> Bit(a, k) != Bit(b, k)
    decreases bits
  {
    var rest := Xor(a / 2, b / 2, bits - 1);
    assert Xor(a, b, bits) / 2 == rest;
    if k > 0 {
      XorBits(a / 2, b / 2, bits - 1, k - 1);
    }
  }

  /** The pattern is the exclusive or of its three parts, bit by bit. */
  lemma PatternBits(index: nat, length: nat, k: nat)
    requires k < 8
    ensures Bit(Pattern(index, length), k) <==> ((Bit(index * 131, k) != Bit(length, k)) != Bit(0xa5, k))
  {
    XorBits(index * 131, length, 8, k);
    XorBits(Xor8(index * 131, length), 0xa5, 8, k);
  }

  lemma Multiples(d: int, k: int)
    requires d > 0
    ensures k >= 1 ==> d * k >= d
    ensures k <= -1 ==> d * k <= -d
  {
    assert d * k == d + d * (k - 1) == d * (k + 1) - d;
  }

  lemma RemainderIs(a: int, d: int, q: int, r: int)
    requires 0 <= r < d && a == d * q + r
    ensures a % d == r
  {
    var k := q - a / d;
    assert d * k == a % d - r by { assert d * k == d * q - d * (a / d); }
    Multiples(d, k);
  }

  /** The low bits are the lowest and those of the half. */
  lemma LowBits(a: nat, bits: nat)
    requires bits > 0
    ensures a % PowerOfTwo(bits) == a % 2 + 2 * (a / 2 % PowerOfTwo(bits - 1))
  {
    var p := PowerOfTwo(bits - 1);
    var q, r := a / 2 / p, a / 2 % p;
    assert a == (2 * p) * q + (a % 2 + 2 * r);
    RemainderIs(a, 2 * p, q, a % 2 + 2 * r);
  }

  /** Exclusive or with a fixed number tells exactly the low bits apart. */
  lemma {:induction false} XorTells(a: nat, c: nat, b: nat, bits: nat)
    ensures Xor(a, b, bits) == Xor(c, b, bits) <==> a % PowerOfTwo(bits) == c % PowerOfTwo(bits)
    decreases bits
  {
    if bits > 0 {
      XorTells(a / 2, c / 2, b / 2, bits - 1);
      LowBits(a, bits);
      LowBits(c, bits);
    }
  }

  lemma SameRemainder(x: int, y: int, t: int)
    requires x == y + 256 * t
    ensures x % 256 == y % 256
  {
  }

  /** 43 undoes the odd factor 131. */
  lemma OddFactor(i: nat, j: nat)
    ensures i * 131 % 256 == j * 131 % 256 <==> i % 256 == j % 256
  {
    Undone(i);
    Undone(j);
    SameRemainder(i * 131, i % 256 * 131, 131 * (i / 256));
    SameRemainder(j * 131, j % 256 * 131, 131 * (j / 256));
  }

  lemma Undone(i: nat)
    ensures (i * 131 % 256) * 43 % 256 == i % 256
  {
    var r, q := i * 131 % 256, i * 131 / 256;
    SameRemainder(r * 43, i, 22 * i - 43 * q);
  }

  lemma ByteTells(a: nat, c: nat, b: nat)
    ensures Xor8(a, b) == Xor8(c, b) <==> a % 256 == c % 256
  {
    hide Xor;
    assert PowerOfTwo(8) == 256 by { assert PowerOfTwo(4) == 16; }
    XorTells(a, c, b, 8);
  }

  /** Two indexes have the same byte exactly when they agree modulo 256, so a device that
      misplaces bytes by less is noticed. */
  lemma PatternTells(i: nat, j: nat, length: nat)
    ensures Pattern(i, length) == Pattern(j, length) <==> i % 256 == j % 256
  {
    hide Xor8;
    ByteTells(Xor8(i * 131, length), Xor8(j * 131, length), 0xa5);
    ByteTells(i * 131, j * 131, length);
    OddFactor(i, j);
  }
}
