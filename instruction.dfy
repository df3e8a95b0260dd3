/**
 * A CHIP-8 instruction: one big-endian 16-bit word, split by shifts and masks
 * into the operator code (bits 12-15) and the operand fields X (bits 8-11),
 * Y (bits 4-7), N (bits 0-3), NN (bits 0-7) and NNN (bits 0-11).
 */
module Instructions {
  import opened Types
  import Hex

  /** An unsigned 16-bit value (Rust `u16`). */
  newtype u16 = x: int | 0 <= x < 0x1_0000

  datatype Instruction = Instruction(value: u16) {

    /** `u16::from_be_bytes([hi, lo])`: the first byte is the high one. */
    static function New(hi: u8, lo: u8): (ins: Instruction)
      ensures ins.Bytes() == (hi, lo)
    {
      Instruction((hi as int * 0x100 + lo as int) as u16)
    }

    /** `value >> 12` (the shift and the masks below act on an unsigned word, so
        each is a quotient or remainder by a power of two). */
    function OperatorCode(): (op: u8)
      ensures op < 16
    {
      (value as int / 0x1000) as u8
    }

    /** `value & 0x000F` */
    function OperandN(): (n: u8)
      ensures n < 16
    {
      (value as int % 0x10) as u8
    }

    /** `value & 0x00FF` */
    function OperandNN(): (nn: u8)
      ensures nn == Bytes().1
    {
      (value as int % 0x100) as u8
    }

    /** `value & 0x0FFF` */
    function OperandNNN(): (nnn: nat)
      ensures nnn < 0x1000
    {
      value as int % 0x1000
    }

    /** `(value & 0x0F00) >> 8` */
    function OperandX(): (x: nat)
      ensures x < 16
    {
      value as int % 0x1000 / 0x100
    }

    /** `(value & 0x00F0) >> 4` */
    function OperandY(): (y: nat)
      ensures y < 16
    {
      value as int % 0x100 / 0x10
    }

    /** The two bytes the word is stored as, high byte first. */
    function Bytes(): (u8, u8)
    {
      ((value as int / 0x100) as u8, (value as int % 0x100) as u8)
    }

    /** Format specifier `04X`: the word as exactly four upper-case hexadecimal digits. */
    function ToString(): (s: string)
      ensures |s| == 4 && Hex.AllDigits(s, true) && Hex.Parse(s) == value as nat
    {
      Hex.FormatLength(value as nat, 4, true);
      Hex.PaddedValue(value as nat, 4, true);
      Hex.Padded(value as nat, 4, true)
    }
  }

  /** The fields are in range and recompose the word. */
  lemma Recompose(ins: Instruction)
    ensures ins.OperatorCode() < 16 && ins.OperandX() < 16 && ins.OperandY() < 16
    ensures ins.OperandN() < 16 && ins.OperandNNN() < 0x1000
    ensures ins.OperandNN() as int == ins.OperandY() * 0x10 + ins.OperandN() as int
    ensures ins.OperandNNN() == ins.OperandX() * 0x100 + ins.OperandNN() as int
    ensures ins.value as int == ins.OperatorCode() as int * 0x1000 + ins.OperandNNN()
  {
    var v := ins.value as int;
    assert v % 0x100 == (v % 0x1000) % 0x100 by { ModMod(v, 0x10, 0x100); }
    assert ins.OperandN() as int == (v % 0x100) % 0x10 by { ModMod(v, 0x10, 0x10); }
  }

  /** Reducing modulo b*m and then modulo m is reducing modulo m. */
  lemma ModMod(v: nat, b: nat, m: nat)
    requires b > 0 && m > 0
    ensures (v % (b * m)) % m == v % m
  {
    var q := v / (b * m);
    assert v == q * (b * m) + v % (b * m);
    assert q * (b * m) == (q * b) * m;
    ModMultiple(v % (b * m), q * b, m);
  }

  lemma {:induction false} ModMultiple(r: nat, k: nat, m: nat)
    requires m > 0
    ensures (k * m + r) % m == r % m
  {
    var a := k * m + r;
    var q := k + r / m;
    assert a == q * m + r % m by {
      assert r == (r / m) * m + r % m;
      assert q * m == k * m + (r / m) * m;
    }
    DivModUnique(a, m, q, r % m);
  }

  /** Building a word from two bytes and splitting it again gives back the bytes,
      and splitting then building gives back the word. */
  lemma BytesRoundTrip(hi: u8, lo: u8, ins: Instruction)
    ensures Instruction.New(hi, lo).Bytes() == (hi, lo)
    ensures Instruction.New(ins.Bytes().0, ins.Bytes().1) == ins
  {
  }

  /** Decoding a word built from two bytes gives back the nibbles of those bytes. */
  lemma NewFields(hi: u8, lo: u8)
    ensures var ins := Instruction.New(hi, lo);
      && ins.OperatorCode() as int == hi as int / 0x10
      && ins.OperandX() == hi as int % 0x10
      && ins.OperandY() == lo as int / 0x10
      && ins.OperandN() as int == lo as int % 0x10
      && ins.OperandNN() == lo
  {
    var h, l := hi as int, lo as int;
    var v := h * 0x100 + l;
    var w := (h % 0x10) * 0x100 + l;
    assert h == 0x10 * (h / 0x10) + h % 0x10;
    assert v == 0x1000 * (h / 0x10) + w;
    DivModUnique(v, 0x1000, h / 0x10, w);
    DivModUnique(w, 0x100, h % 0x10, l);
    DivModUnique(v, 0x100, h, l);
    assert l == 0x10 * (l / 0x10) + l % 0x10;
    DivModUnique(v, 0x10, h * 0x10 + l / 0x10, l % 0x10);
  }
}
