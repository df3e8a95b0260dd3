/**
 * Values shared by every backend module: the byte type, the failure-compatible
 * wrappers, and the pieces of the backend module root (src/backend/mod.rs) that
 * the CPU modules use: the key count, the quirk options and the two timers.
 */
module Types {

  /** An unsigned 8-bit value (Rust `u8`). */
  newtype u8 = x: int | 0 <= x < 0x100

  datatype Option<+T> = None | Some(value: T)

  datatype Result<+T, +E> = Ok(value: T) | Err(error: E)

  function Pow2(n: nat): (p: nat)
    ensures p >= 1
  {
    if n == 0 then 1 else 2 * Pow2(n - 1)
  }

  /** The three ways two bits combine. */
  datatype BitOp = And | Or | Xor

  function Apply(op: BitOp, p: bool, q: bool): bool
  {
    match op
    case And => p && q
    case Or => p || q
    case Xor => p != q
  }

  /** The low n bits of a and b combined bit by bit, least significant first. */
  function Bitwise(op: BitOp, a: nat, b: nat, n: nat): (r: nat)
    ensures r < Pow2(n)
  {
    if n == 0 then 0
    else 2 * Bitwise(op, a / 2, b / 2, n - 1) + (if Apply(op, a % 2 == 1, b % 2 == 1) then 1 else 0)
  }

  /** Bitwise operations on bytes (Rust `&`, `|`, `^` on `u8`). */
  function BitAnd(a: u8, b: u8): u8
  {
    Bitwise(And, a as nat, b as nat, 8) as u8
  }

  function BitOr(a: u8, b: u8): u8
  {
    Bitwise(Or, a as nat, b as nat, 8) as u8
  }

  function BitXor(a: u8, b: u8): u8
  {
    Bitwise(Xor, a as nat, b as nat, 8) as u8
  }

  /** Masking with b keeps only bits set in b: the result is at most b, and masking
      it again changes nothing. */
  lemma {:induction false} AndMasks(a: nat, b: nat, n: nat)
    ensures Bitwise(And, a, b, n) <= b
    ensures Bitwise(And, Bitwise(And, a, b, n), b, n) == Bitwise(And, a, b, n)
  {
    if n > 0 {
      var r, r' := Bitwise(And, a, b, n), Bitwise(And, a / 2, b / 2, n - 1);
      AndMasks(a / 2, b / 2, n - 1);
      assert r / 2 == r' && (r % 2 == 1 ==> b % 2 == 1);
    }
  }

  /** `v & mask` has no bit outside mask and is at most mask. */
  lemma MaskedByte(v: u8, mask: u8)
    ensures BitAnd(BitAnd(v, mask), mask) == BitAnd(v, mask)
    ensures BitAnd(v, mask) <= mask
  {
    AndMasks(v as nat, mask as nat, 8);
  }

  /** Masking with zero clears every bit. */
  lemma {:induction false} AndZero(a: nat, n: nat)
    ensures Bitwise(And, a, 0, n) == 0
  {
    if n > 0 { AndZero(a / 2, n - 1); }
  }

  /** Quotient and remainder are the only pair that recompose the dividend. */
  lemma DivModUnique(a: nat, d: nat, q: nat, r: nat)
    requires d > 0 && a == d * q + r && r < d
    ensures a / d == q && a % d == r
  {
    var q', r' := a / d, a % d;
    assert a == d * q' + r';
    if q > q' {
      var k := q - q';
      assert d * q == d * q' + d * k;
      MulAtLeast(d, k);
    } else if q < q' {
      var k := q' - q;
      assert d * q' == d * q + d * k;
      MulAtLeast(d, k);
    }
  }

  lemma MulAtLeast(d: nat, k: nat)
    requires k >= 1
    ensures d * k >= d
  {
  }

  /** Dividing by 2p is halving and then dividing by p. */
  lemma Halves(a: nat, p: nat)
    requires p >= 1
    ensures a % (2 * p) == 2 * ((a / 2) % p) + a % 2
    ensures a / (2 * p) == (a / 2) / p
  {
    var q, r := a / 2, a % 2;
    var s, t := q / p, q % p;
    assert q == p * s + t;
    assert a == (2 * p) * s + (2 * t + r);
    DivModUnique(a, 2 * p, s, 2 * t + r);
  }

  /** Masking with the k low bits keeps the remainder by 2^k. */
  lemma {:induction false} LowBits(a: nat, k: nat, n: nat)
    requires k <= n
    ensures Bitwise(And, a, Pow2(k) - 1, n) == a % Pow2(k)
  {
    if k == 0 {
      AndZero(a, n);
    } else {
      var p := Pow2(k - 1);
      assert Pow2(k) - 1 == 2 * (p - 1) + 1;
      assert (Pow2(k) - 1) / 2 == p - 1 && (Pow2(k) - 1) % 2 == 1;
      LowBits(a / 2, k - 1, n - 1);
      assert Bitwise(And, a, Pow2(k) - 1, n) == 2 * ((a / 2) % p) + a % 2;
      Halves(a, p);
    }
  }

  /** Masking with bit k alone keeps that bit. */
  lemma {:induction false} SingleBit(a: nat, k: nat, n: nat)
    requires k < n
    ensures Bitwise(And, a, Pow2(k), n) == (a / Pow2(k)) % 2 * Pow2(k)
  {
    if k == 0 {
      AndZero(a / 2, n - 1);
    } else {
      var p := Pow2(k - 1);
      assert Pow2(k) == 2 * p;
      assert Pow2(k) / 2 == p && Pow2(k) % 2 == 0;
      SingleBit(a / 2, k - 1, n - 1);
      assert Bitwise(And, a, Pow2(k), n) == 2 * ((a / 2 / p) % 2 * p);
      Halves(a, p);
    }
  }
  /** On a byte, `& 0x0F` keeps the low nibble and `& 0x10` tests bit 4. */
  lemma NibbleMasks(v: u8)
    ensures BitAnd(v, 0x0F) as int == v as int % 0x10
    ensures BitAnd(v, 0x10) == 0 <==> (v as int / 0x10) % 2 == 0
  {
    assert Pow2(4) == 0x10;
    LowBits(v as nat, 4, 8);
    SingleBit(v as nat, 4, 8);
  }

  /** Number of keys on the hexadecimal keypad (0-F). */
  const KEY_COUNT: nat := 16

  /** The bundled font: the sixteen 5-byte low-resolution characters followed by
      the ten 10-byte high-resolution digits. Its bytes are not part of this model. */
  type FontData = s: seq<u8> | |s| == 180 witness seq(180, _ => 0)

  const BACKEND_FONT: FontData

  /** The four quirk toggles consulted by `execute`. */
  datatype Options = Options(
    copyAndShift: bool,      // 8XY6/8XYE shift VY (copied into VX) instead of VX
    incrementAddress: bool,  // FX55/FX65 advance I past the block they copied
    quirkyJump: bool,        // BNNN adds VX instead of V0
    resetFlag: bool          // 8XY1/8XY2/8XY3 clear VF
  )

  /** The delay and sound counters. */
  datatype Timers = Timers(delay: u8, sound: u8)

  /** `u8::saturating_sub(1)`. */
  function SaturatingDecrement(t: u8): (r: u8)
    ensures t == 0 ==> r == 0
    ensures t > 0 ==> r as int == t as int - 1
  {
    if t == 0 then 0 else t - 1
  }

  /** Both timers decremented once, each stopping at zero. */
  function Decremented(t: Timers): Timers
  {
    Timers(SaturatingDecrement(t.delay), SaturatingDecrement(t.sound))
  }
}
