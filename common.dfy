/** Machine words and the optional/result wrappers shared by every module. */
module Common {

  /** A Rust `u8`. Bit-vector arithmetic wraps modulo 256, as `wrapping_add` does. */
  type Byte = bv8
  /** A Rust `u16`. */
  type Word = bv16
  /** A Rust `u32`. */
  type Dword = bv32

  /** A 16-bit bus address, used as an index into 64 KiB memories. */
  type Addr = a: int | 0 <= a < 0x1_0000

  datatype Option<+T> = None | Some(value: T)

  datatype Result<+T, +E> = Ok(value: T) | Err(error: E)

  /** High byte of a 16-bit word, `(w >> 8) as u8`. */
  function Hi(w: Word): Byte { (w >> 8) as Byte }

  /** Low byte of a 16-bit word, `(w & 0xFF) as u8`. */
  function Lo(w: Word): Byte { (w & 0xFF) as Byte }

  /** `(hi as u16) << 8 | lo as u16`. */
  function Join(hi: Byte, lo: Byte): Word { ((hi as Word) << 8) | (lo as Word) }

  lemma JoinSplit(w: Word)
    ensures Join(Hi(w), Lo(w)) == w
  {
  }

  lemma SplitJoin(hi: Byte, lo: Byte)
    ensures Hi(Join(hi, lo)) == hi && Lo(Join(hi, lo)) == lo
  {
  }

  /** The byte holding `v`, built by counting up from zero. */
  ghost function ByteOf(v: nat): (b: Byte)
    requires v < 256
    ensures b as int == v
  {
    if v == 0 then 0 else ByteOf(v - 1) + 1
  }

  /** An `as u8` cast of a value below 256 loses nothing. */
  lemma ByteRoundTrip(v: nat)
    requires v < 256
    ensures (v as Byte) as int == v
  {
    var b := ByteOf(v);
    assert (b as int) as Byte == b;
  }

  /** The numeric value of a big-endian byte pair. */
  lemma JoinValue(hi: Byte, lo: Byte)
    ensures Join(hi, lo) as int == hi as int * 0x100 + lo as int
  {
    var w := ((hi as Word) << 8) | (lo as Word);
    ShiftOrValue(hi, lo);
    assert Join(hi, lo) == w;
  }

  lemma ShiftOrValue(hi: Byte, lo: Byte)
    ensures (((hi as Word) << 8) | (lo as Word)) as int == hi as int * 0x100 + lo as int
  {
  }

  /** A value below 65536 as a 16-bit word, an `as u16` cast that loses nothing. */
  function WordFrom(v: nat): Word
    requires v < 0x1_0000
  {
    Join((v / 0x100) as Byte, (v % 0x100) as Byte)
  }

  lemma WordFromValue(v: nat)
    requires v < 0x1_0000
    ensures WordFrom(v) as int == v
  {
    ByteRoundTrip(v / 0x100);
    ByteRoundTrip(v % 0x100);
    JoinValue((v / 0x100) as Byte, (v % 0x100) as Byte);
  }

  /** Quotient and remainder are unique: `a == q*b + r` with `0 <= r < b` fixes both. */
  lemma DivModUnique(a: int, b: int, q: int, r: int)
    requires b > 0 && 0 <= r < b && a == q * b + r
    ensures q == a / b && r == a % b
  {
    var q', r' := a / b, a % b;
    if q < q' {
      MulDiff(q' - q, q, b);
    } else if q' < q {
      MulDiff(q - q', q', b);
    }
  }

  lemma MulDiff(k: int, q: int, b: int)
    requires k >= 1 && b > 0
    ensures (q + k) * b >= q * b + b
  {
    assert (q + k) * b == q * b + k * b;
    assert k * b >= b;
  }

  function Min(a: int, b: int): int { if a <= b then a else b }

  function Max(a: int, b: int): int { if a >= b then a else b }

  /** Rust's `saturating_sub` on unsigned integers. */
  function SatSub(a: nat, b: nat): nat { if a >= b then a - b else 0 }

  /** Bits 16-23 of a 32-bit value. */
  function Bits16To23(x: nat): Byte
  {
    ((x / 0x1_0000) % 0x100) as Byte
  }
}
