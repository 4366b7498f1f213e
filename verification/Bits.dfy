/**
 * The bitfield codec of the host driver, over unbounded integers as the
 * host language has them.  A shift left by `k` is a multiplication by 2^k,
 * a shift right is a floor division by 2^k, and `x & ((1 << n) - 1)` is
 * `x % 2^n` (both Dafny's `/` and `%` agree with the host language's
 * floor semantics when the divisor is positive, also for negative `x`).
 * `Bit(v, i)` is bit `i` of the two's-complement representation of `v`;
 * the lemmas below state the codec's meaning bit by bit.
 */
module Bits {

  function Pow2(n: nat): (r: nat)
    ensures r >= 1
  {
    if n == 0 then 1 else 2 * Pow2(n - 1)
  }

  /** Bit `i` of `v`: `(v >> i) & 1`. */
  function Bit(v: int, i: nat): (b: int)
    ensures b == 0 || b == 1
  {
    (v / Pow2(i)) % 2
  }

  /** get_field: `(v & (((1 << size) - 1) << offset)) >> offset`. */
  function GetField(v: int, offset: nat, size: nat): (r: int)
    ensures 0 <= r < Pow2(size)
  {
    (v / Pow2(offset)) % Pow2(size)
  }

  /**
   * set_field: `(v & ~mask) | ((x << offset) & mask)`, that is, `v` with the
   * field's bits taken out and the low `size` bits of `x` put in their place.
   */
  function SetField(v: int, offset: nat, size: nat, x: int): (r: int)
  {
    v - GetField(v, offset, size) * Pow2(offset) + GetField(x, 0, size) * Pow2(offset)
  }

  /** `(hi << k) | lo` for a `lo` that fits in `k` bits. */
  function Concat(hi: int, lo: int, k: nat): (r: int)
    requires 0 <= lo < Pow2(k)
    ensures GetField(r, 0, k) == lo
  {
    ConcatLow(hi, lo, k);
    hi * Pow2(k) + lo
  }

  // ---------------------------------------------------------------------
  // Arithmetic facts about powers of two and floor division.

  lemma {:induction false} Pow2Add(a: nat, b: nat)
    ensures Pow2(a + b) == Pow2(a) * Pow2(b)
  {
    if a > 0 {
      Pow2Add(a - 1, b);
    }
  }

  lemma {:induction false} Pow2Monotone(a: nat, b: nat)
    requires a <= b
    ensures Pow2(a) <= Pow2(b)
  {
    if a < b {
      Pow2Monotone(a, b - 1);
    }
  }

  /** The powers of two the register protocol uses. */
  lemma Pow2Constants()
    ensures Pow2(8) == 0x100 && Pow2(16) == 0x1_0000
    ensures Pow2(31) == 0x8000_0000 && Pow2(32) == 0x1_0000_0000
  {
    Pow2Add(8, 8);
    Pow2Add(16, 16);
    assert Pow2(32) == 2 * Pow2(31);
  }

  /** Division is determined by quotient and remainder. */
  lemma DivModUnique(x: int, d: int, q: int, r: int)
    requires d > 0 && 0 <= r < d && x == q * d + r
    ensures x / d == q && x % d == r
  {
    var q' := x / d;
    var r' := x % d;
    assert q * d + r == q' * d + r';
    if q > q' {
      MulAtLeast(q - q', d);
    } else if q < q' {
      MulAtLeast(q' - q, d);
    }
  }

  lemma MulAtLeast(a: int, d: int)
    requires a >= 1 && d > 0
    ensures a * d >= d
  {
    assert a * d == (a - 1) * d + d;
    assert (a - 1) * d >= 0;
  }

  lemma MulMonotone(x: int, y: int, c: int)
    requires x <= y && c >= 0
    ensures x * c <= y * c
  {
    assert y * c - x * c == (y - x) * c;
  }

  lemma DivDiv(x: int, a: int, b: int)
    requires a > 0 && b > 0
    ensures (x / a) / b == x / (a * b)
    ensures x % (a * b) == ((x / a) % b) * a + x % a
  {
    var q := x / a;
    var r := x % a;
    var q2 := q / b;
    var r2 := q % b;
    assert x == q * a + r;
    assert q == q2 * b + r2;
    assert q * a == q2 * (a * b) + r2 * a by {
      assert (q2 * b + r2) * a == (q2 * b) * a + r2 * a;
      assert (q2 * b) * a == q2 * (a * b);
    }
    MulMonotone(r2, b - 1, a);
    MulMonotone(0, r2, a);
    assert (b - 1) * a == a * b - a;
    DivModUnique(x, a * b, q2, r2 * a + r);
  }

  /** The remainder modulo 2^k of `hi * 2^k + lo` is `lo`. */
  lemma ConcatLow(hi: int, lo: int, k: nat)
    requires 0 <= lo < Pow2(k)
    ensures (hi * Pow2(k) + lo) / Pow2(k) == hi
    ensures (hi * Pow2(k) + lo) % Pow2(k) == lo
  {
    DivModUnique(hi * Pow2(k) + lo, Pow2(k), hi, lo);
  }

  /** An even addend does not change the lowest bit. */
  lemma ParityOfEvenShift(m: int, y: int)
    ensures (2 * m + y) % 2 == y % 2
  {
    DivModUnique(2 * m + y, 2, m + y / 2, y % 2);
  }

  // ---------------------------------------------------------------------
  // The bit-level meaning of the codec.

  /** `(hi * (p * m) + lo) / p` for positive `p`, without powers of two in sight. */
  lemma QuotientOfSum(hi: int, lo: int, p: int, m: int)
    requires p > 0
    ensures (hi * (p * m) + lo) / p == hi * m + lo / p
  {
    var c := hi * (p * m) + lo;
    assert hi * (p * m) == (hi * m) * p;
    assert lo == (lo / p) * p + lo % p;
    assert c == (hi * m + lo / p) * p + lo % p;
    DivModUnique(c, p, hi * m + lo / p, lo % p);
  }

  /** Bits of `(hi << k) | lo`: below `k` they are `lo`'s, from `k` on `hi`'s. */
  lemma {:induction false} ConcatBit(hi: int, lo: int, k: nat, i: nat)
    requires 0 <= lo < Pow2(k)
    ensures Bit(Concat(hi, lo, k), i) == if i < k then Bit(lo, i) else Bit(hi, i - k)
  {
    var c := hi * Pow2(k) + lo;
    assert Concat(hi, lo, k) == c;
    if i < k {
      var p := Pow2(i);
      var h := Pow2(k - i - 1);
      Pow2Add(i, k - i);
      assert Pow2(k - i) == 2 * h;
      assert Pow2(k) == p * (2 * h);
      assert c == hi * (p * (2 * h)) + lo;
      QuotientOfSum(hi, lo, p, 2 * h);
      assert hi * (2 * h) == 2 * (hi * h);
      assert c / p == 2 * (hi * h) + lo / p;
      ParityOfEvenShift(hi * h, lo / p);
      assert Bit(c, i) == (2 * (hi * h) + lo / p) % 2;
    } else {
      Pow2Add(k, i - k);
      DivDiv(c, Pow2(k), Pow2(i - k));
      ConcatLow(hi, lo, k);
      assert c / Pow2(i) == hi / Pow2(i - k);
    }
  }

  /** Bit `i` of a field is bit `offset + i` of the register, and 0 past the field. */
  lemma {:induction false} GetFieldBit(v: int, offset: nat, size: nat, i: nat)
    ensures Bit(GetField(v, offset, size), i) == if i < size then Bit(v, offset + i) else 0
  {
    var w := v / Pow2(offset);
    var f := w % Pow2(size);
    assert w == (w / Pow2(size)) * Pow2(size) + f;
    if i < size {
      ConcatBit(w / Pow2(size), f, size, i);
      Pow2Add(offset, i);
      DivDiv(v, Pow2(offset), Pow2(i));
    } else {
      Pow2Monotone(size, i);
      DivModUnique(f, Pow2(i), 0, f);
    }
  }

  /** `v` splits around a field: `v == ((hi << size | field) << offset) | low`. */
  lemma Split(v: int, offset: nat, size: nat)
    ensures v == ((v / Pow2(offset + size)) * Pow2(size) + GetField(v, offset, size)) * Pow2(offset)
                 + v % Pow2(offset)
  {
    var p := Pow2(offset);
    var q := Pow2(size);
    var w := v / p;
    var hi := w / q;
    assert hi == v / Pow2(offset + size) by {
      Pow2Add(offset, size);
      DivDiv(v, p, q);
    }
    assert GetField(v, offset, size) == w % q;
    DivModParts(w, q);
    DivModParts(v, p);
    Substitute(v, w, p, v % p, hi * q + w % q);
  }

  lemma DivModParts(x: int, d: int)
    requires d > 0
    ensures x == (x / d) * d + x % d
  {
  }

  /** `v == w * p + r` with `w` replaced by an equal expression `e`. */
  lemma Substitute(v: int, w: int, p: int, r: int, e: int)
    requires w == e
    requires v == w * p + r
    ensures v == e * p + r
  {
  }

  /** set_field rebuilds the register from the bits above the field, `x`'s field and the bits below. */
  lemma SetFieldShape(v: int, offset: nat, size: nat, x: int)
    ensures SetField(v, offset, size, x)
         == Concat(Concat(v / Pow2(offset + size), GetField(x, 0, size), size), v % Pow2(offset), offset)
    ensures v
         == Concat(Concat(v / Pow2(offset + size), GetField(v, offset, size), size), v % Pow2(offset), offset)
  {
    var hi := v / Pow2(offset + size);
    var lo := v % Pow2(offset);
    var f := GetField(v, offset, size);
    var g := GetField(x, 0, size);
    var p := Pow2(offset);
    var q := Pow2(size);
    Split(v, offset, size);
    assert v == (hi * q + f) * p + lo;
    assert (hi * q + f) * p == (hi * q + g) * p + f * p - g * p;
    assert SetField(v, offset, size, x) == (hi * q + g) * p + lo;
  }

  /** set_field puts `x`'s low bits into the field and keeps every other bit of `v`. */
  lemma {:induction false} SetFieldBit(v: int, offset: nat, size: nat, x: int, i: nat)
    ensures Bit(SetField(v, offset, size, x), i)
         == if offset <= i < offset + size then Bit(x, i - offset) else Bit(v, i)
  {
    var hi := v / Pow2(offset + size);
    var lo := v % Pow2(offset);
    var f := GetField(v, offset, size);
    var g := GetField(x, 0, size);
    SetFieldShape(v, offset, size, x);
    ConcatBit(Concat(hi, g, size), lo, offset, i);
    ConcatBit(Concat(hi, f, size), lo, offset, i);
    if i >= offset {
      ConcatBit(hi, g, size, i - offset);
      ConcatBit(hi, f, size, i - offset);
      if i < offset + size {
        GetFieldBit(x, 0, size, i - offset);
      }
    }
  }

  /** Field round trip: get_field(set_field(v, o, s, x), o, s) == x & ((1 << s) - 1). */
  lemma {:induction false} GetSetField(v: int, offset: nat, size: nat, x: int)
    ensures GetField(SetField(v, offset, size, x), offset, size) == GetField(x, 0, size)
  {
    var hi := v / Pow2(offset + size);
    var lo := v % Pow2(offset);
    var g := GetField(x, 0, size);
    SetFieldShape(v, offset, size, x);
    ConcatLow(Concat(hi, g, size), lo, offset);
    ConcatLow(hi, g, size);
  }

  /** Writing back the field a register already holds changes nothing. */
  lemma {:induction false} SetGetField(v: int, offset: nat, size: nat)
    ensures SetField(v, offset, size, GetField(v, offset, size)) == v
  {
    var f := GetField(v, offset, size);
    DivModUnique(f, Pow2(size), 0, f);
  }

  /**
   * Two adjacent fields concatenate: `(v >> k) & (2^m - 1)` shifted over the
   * low `k` bits is `v & (2^(k+m) - 1)`.
   */
  lemma {:induction false} ConcatFields(v: int, k: nat, m: nat)
    ensures Concat(GetField(v, k, m), GetField(v, 0, k), k) == GetField(v, 0, k + m)
  {
    Pow2Add(k, m);
    DivDiv(v, Pow2(k), Pow2(m));
  }
}
