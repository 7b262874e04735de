/**
 * The fixed-width integer types of the firmware and its bit macros
 * (types.h). On the PIC target `unsigned char` is 8 bits and
 * `unsigned short` is 16 bits, so the counters of the control loop wrap
 * modulo 2^8 and 2^16; the wrap is written out in Dec8, Dec16 and Inc16.
 *
 * The C bit operators are modelled on non-negative integers: Bit reads one
 * binary digit, and BitAnd, BitOr and BitNot are the bitwise operators
 * `&`, `|` and `~` defined digit by digit from the least significant end.
 */
module Types {

  /** `uint8_t` (unsigned char) */
  type uint8 = x: int | 0 <= x < 0x100

  /** `uint16_t` (unsigned short) */
  type uint16 = x: int | 0 <= x < 0x1_0000

  /** A bit position within a `uint16_t`. */
  type BitIndex = b: nat | b < 16

  /** Post-decrement of a `uint8_t`: the new value, wrapping 0 to 255. */
  function Dec8(x: uint8): (r: uint8)
    ensures (r + 1) % 0x100 == x
    ensures x == 0 <==> r == 0xff
  {
    if x == 0 then 0xff else x - 1
  }

  /** Decrement of a `uint16_t`: the new value, wrapping 0 to 65535. */
  function Dec16(x: uint16): (r: uint16)
    ensures (r + 1) % 0x1_0000 == x
    ensures x == 0 <==> r == 0xffff
  {
    if x == 0 then 0xffff else x - 1
  }

  /** Increment of a `uint16_t`: the new value, wrapping 65535 to 0. */
  function Inc16(x: uint16): (r: uint16)
    ensures (x + 1) % 0x1_0000 == r
    ensures r != x
  {
    if x == 0xffff then 0 else x + 1
  }

  // ---------------------------------------------------------------------
  // Binary digits and the bitwise operators

  /** 2^k, the value of `1 << k` */
  function Pow2(k: nat): (p: nat)
    ensures p >= 1
  {
    if k == 0 then 1 else 2 * Pow2(k - 1)
  }

  /** Binary digit `k` of `a` (digit 0 is the least significant). */
  predicate Bit(a: nat, k: nat) {
    if k == 0 then a % 2 == 1 else Bit(a / 2, k - 1)
  }

  /** `a & b` */
  function BitAnd(a: nat, b: nat): nat {
    if a == 0 || b == 0 then 0
    else 2 * BitAnd(a / 2, b / 2) + (if a % 2 == 1 && b % 2 == 1 then 1 else 0)
  }

  /** `a | b` */
  function BitOr(a: nat, b: nat): nat {
    if a == 0 then b
    else if b == 0 then a
    else 2 * BitOr(a / 2, b / 2) + (if a % 2 == 1 || b % 2 == 1 then 1 else 0)
  }

  /** `~a` in a `w`-bit word */
  function BitNot(a: nat, w: nat): nat {
    if w == 0 then 0 else 2 * BitNot(a / 2, w - 1) + (if a % 2 == 1 then 0 else 1)
  }

  lemma {:induction false} BitOfZero(k: nat)
    ensures !Bit(0, k)
  {
    if k > 0 { BitOfZero(k - 1); }
  }

  lemma {:induction false} BitOfPow2(b: nat, k: nat)
    ensures Bit(Pow2(b), k) <==> k == b
  {
    if b == 0 {
      if k > 0 { BitOfZero(k - 1); }
    } else if k > 0 {
      BitOfPow2(b - 1, k - 1);
    }
  }

  lemma {:induction false} BitOfAnd(a: nat, b: nat, k: nat)
    ensures Bit(BitAnd(a, b), k) <==> Bit(a, k) && Bit(b, k)
    decreases a
  {
    if a == 0 || b == 0 {
      BitOfZero(k);
    } else if k > 0 {
      BitOfAnd(a / 2, b / 2, k - 1);
    }
  }

  lemma {:induction false} BitOfOr(a: nat, b: nat, k: nat)
    ensures Bit(BitOr(a, b), k) <==> Bit(a, k) || Bit(b, k)
    decreases a
  {
    if a == 0 {
      BitOfZero(k);
    } else if b == 0 {
      BitOfZero(k);
    } else if k > 0 {
      BitOfOr(a / 2, b / 2, k - 1);
    }
  }

  lemma {:induction false} BitOfNot(a: nat, w: nat, k: nat)
    ensures Bit(BitNot(a, w), k) <==> k < w && !Bit(a, k)
  {
    if w == 0 {
      BitOfZero(k);
    } else if k > 0 {
      BitOfNot(a / 2, w - 1, k - 1);
    }
  }

  /** A number below 2^w has no set digit at position w or above. */
  lemma {:induction false} BitAbove(a: nat, w: nat, k: nat)
    requires a < Pow2(w) && w <= k
    ensures !Bit(a, k)
  {
    if w == 0 {
      BitOfZero(k);
    } else {
      BitAbove(a / 2, w - 1, k - 1);
    }
  }

  /** Numbers with the same binary digits are equal. */
  lemma {:induction false} BitsDetermine(a: nat, b: nat)
    requires forall k: nat :: Bit(a, k) == Bit(b, k)
    ensures a == b
    decreases a + b
  {
    if a != 0 || b != 0 {
      assert Bit(a, 0) == Bit(b, 0);
      forall k: nat ensures Bit(a / 2, k) == Bit(b / 2, k) {
        assert Bit(a, k + 1) == Bit(b, k + 1);
      }
      BitsDetermine(a / 2, b / 2);
    }
  }

  lemma {:induction false} BitAndBound(a: nat, b: nat)
    ensures BitAnd(a, b) <= a
    decreases a
  {
    if a != 0 && b != 0 { BitAndBound(a / 2, b / 2); }
  }

  lemma {:induction false} BitOrBound(a: nat, b: nat, w: nat)
    requires a < Pow2(w) && b < Pow2(w)
    ensures BitOr(a, b) < Pow2(w)
    decreases a
  {
    if a != 0 && b != 0 { BitOrBound(a / 2, b / 2, w - 1); }
  }

  /** OR-ing a value below 2^k into a multiple of 2^k adds it. */
  lemma {:induction false} BitOrLow(hi: nat, lo: nat, k: nat)
    requires lo < Pow2(k)
    ensures BitOr(hi * Pow2(k), lo) == hi * Pow2(k) + lo
  {
    if k > 0 && hi != 0 && lo != 0 {
      var h := hi * Pow2(k - 1);
      assert hi * Pow2(k) == 2 * h;
      BitOrLow(hi, lo / 2, k - 1);
    }
  }

  lemma Pow2Of16()
    ensures Pow2(8) == 0x100 && Pow2(16) == 0x1_0000
    ensures Pow2(11) == 0x800 && Pow2(12) == 0x1000 && Pow2(15) == 0x8000
  {
    assert Pow2(1) == 2 && Pow2(2) == 4 && Pow2(3) == 8 && Pow2(4) == 16;
    assert Pow2(5) == 32 && Pow2(6) == 64 && Pow2(7) == 128 && Pow2(8) == 256;
    assert Pow2(9) == 512 && Pow2(10) == 1024 && Pow2(11) == 2048 && Pow2(12) == 4096;
    assert Pow2(13) == 8192 && Pow2(14) == 16384 && Pow2(15) == 32768;
  }

  lemma MulAtLeast(x: int, d: int)
    requires x >= 1 && d > 0
    ensures x * d >= d
  {
  }

  /** Euclidean division is unique: a quotient and remainder in range are `/` and `%`. */
  lemma ModUnique(a: int, d: int, q: int, r: int)
    requires d > 0 && 0 <= r < d && a == q * d + r
    ensures a % d == r && a / d == q
  {
    var q', r' := a / d, a % d;
    assert a == q' * d + r';
    assert (q - q') * d == r' - r;
    if q > q' {
      MulAtLeast(q - q', d);
    } else if q < q' {
      MulAtLeast(q' - q, d);
    }
  }

  lemma {:induction false} PowMonotone(a: nat, b: nat)
    requires a <= b
    ensures Pow2(a) <= Pow2(b)
    decreases b
  {
    if a < b { PowMonotone(a, b - 1); }
  }

  // ---------------------------------------------------------------------
  // The macros of types.h

  /** `testbit(var, bit)`: the value of `var & (1 << bit)`. */
  function TestBit(v: uint16, b: BitIndex): (r: uint16)
    ensures r != 0 <==> Bit(v, b)
  {
    BitAndBound(v, Pow2(b));
    TestBitMeaning(v, b);
    BitAnd(v, Pow2(b))
  }

  lemma TestBitMeaning(v: nat, b: nat)
    ensures BitAnd(v, Pow2(b)) != 0 <==> Bit(v, b)
  {
    BitOfAnd(v, Pow2(b), b);
    BitOfPow2(b, b);
    if BitAnd(v, Pow2(b)) == 0 {
      BitOfZero(b);
    }
  }

  /** `setbit(var, bit)`: the value `var` holds after `var |= 1 << bit`. */
  function SetBit(v: uint16, b: BitIndex): (r: uint16)
    ensures forall k: nat :: Bit(r, k) <==> k == b || Bit(v, k)
  {
    Pow2Of16();
    PowMonotone(b + 1, 16);
    BitOrBound(v, Pow2(b), 16);
    SetBitDigits(v, b);
    BitOr(v, Pow2(b))
  }

  lemma SetBitDigits(v: nat, b: nat)
    ensures forall k: nat :: Bit(BitOr(v, Pow2(b)), k) <==> k == b || Bit(v, k)
  {
    forall k: nat ensures Bit(BitOr(v, Pow2(b)), k) <==> k == b || Bit(v, k) {
      BitOfOr(v, Pow2(b), k);
      BitOfPow2(b, k);
    }
  }

  /** `clrbit(var, bit)`: the value `var` holds after `var &= ~(1 << bit)`. */
  function ClrBit(v: uint16, b: BitIndex): (r: uint16)
    ensures forall k: nat :: Bit(r, k) <==> k != b && Bit(v, k)
  {
    BitAndBound(v, BitNot(Pow2(b), 16));
    ClrBitDigits(v, b);
    BitAnd(v, BitNot(Pow2(b), 16))
  }

  lemma ClrBitDigits(v: uint16, b: BitIndex)
    ensures forall k: nat :: Bit(BitAnd(v, BitNot(Pow2(b), 16)), k) <==> k != b && Bit(v, k)
  {
    Pow2Of16();
    forall k: nat ensures Bit(BitAnd(v, BitNot(Pow2(b), 16)), k) <==> k != b && Bit(v, k) {
      BitOfAnd(v, BitNot(Pow2(b), 16), k);
      BitOfNot(Pow2(b), 16, k);
      BitOfPow2(b, k);
      if 16 <= k { BitAbove(v, 16, k); }
    }
  }

  /** A `uint16_t` variable that `setbit` and `clrbit` update in place. */
  class Word {
    var value: uint16

    constructor (v: uint16)
      ensures value == v
    {
      value := v;
    }

    /** The statement `setbit(var, bit)`: bit `b` becomes 1, every other bit is kept. */
    method Set(b: BitIndex)
      modifies this
      ensures value == SetBit(old(value), b)
      ensures forall k: nat :: Bit(value, k) <==> k == b || Bit(old(value), k)
    {
      value := SetBit(value, b);
    }

    /** The statement `clrbit(var, bit)`: bit `b` becomes 0, every other bit is kept. */
    method Clear(b: BitIndex)
      modifies this
      ensures value == ClrBit(old(value), b)
      ensures forall k: nat :: Bit(value, k) <==> k != b && Bit(old(value), k)
    {
      value := ClrBit(value, b);
    }
  }

  /** Setting a bit twice is setting it once; so is clearing it. */
  lemma SetBitIdempotent(v: uint16, b: BitIndex)
    ensures SetBit(SetBit(v, b), b) == SetBit(v, b)
  {
    BitsDetermine(SetBit(SetBit(v, b), b), SetBit(v, b));
  }

  lemma ClrBitIdempotent(v: uint16, b: BitIndex)
    ensures ClrBit(ClrBit(v, b), b) == ClrBit(v, b)
  {
    BitsDetermine(ClrBit(ClrBit(v, b), b), ClrBit(v, b));
  }

  /** Setting a bit that is already set, or clearing a clear one, changes nothing. */
  lemma SetBitWhenSet(v: uint16, b: BitIndex)
    requires Bit(v, b)
    ensures SetBit(v, b) == v
  {
    BitsDetermine(SetBit(v, b), v);
  }

  lemma ClrBitWhenClear(v: uint16, b: BitIndex)
    requires !Bit(v, b)
    ensures ClrBit(v, b) == v
  {
    BitsDetermine(ClrBit(v, b), v);
  }

  /** Clearing a bit undoes setting it when it was clear, and vice versa. */
  lemma SetClrRoundTrip(v: uint16, b: BitIndex)
    ensures !Bit(v, b) ==> ClrBit(SetBit(v, b), b) == v
    ensures Bit(v, b) ==> SetBit(ClrBit(v, b), b) == v
  {
    if Bit(v, b) {
      BitsDetermine(SetBit(ClrBit(v, b), b), v);
    } else {
      BitsDetermine(ClrBit(SetBit(v, b), b), v);
    }
  }
}
