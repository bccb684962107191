/** Fixed-width integers and the little-endian byte layouts that the WAVE
    container uses for its header fields (`u16::from_le_bytes`,
    `u32::from_le_bytes`). */
module Binary {

  type Byte = x: int | 0 <= x < 0x100
  type u16 = x: int | 0 <= x < 0x1_0000
  type u32 = x: int | 0 <= x < 0x1_0000_0000
  type i16 = x: int | -0x8000 <= x < 0x8000

  function Min(a: nat, b: nat): nat { if a <= b then a else b }

  /** The unsigned value of two bytes, least significant first. */
  function Le16(b: seq<Byte>): (v: u16)
    requires |b| == 2
    ensures v % 0x100 == b[0] && v / 0x100 == b[1]
  {
    b[0] as int + 0x100 * (b[1] as int)
  }

  /** The unsigned value of four bytes, least significant first. */
  function Le32(b: seq<Byte>): (v: u32)
    requires |b| == 4
    ensures v % 0x1_0000 == b[0] as int + 0x100 * (b[1] as int)
    ensures v / 0x1_0000 == b[2] as int + 0x100 * (b[3] as int)
  {
    b[0] as int + 0x100 * (b[1] as int) + 0x1_0000 * (b[2] as int) + 0x100_0000 * (b[3] as int)
  }

  /** `Le16` of the two bytes of `s` from offset `i`, read in place. */
  function Le16At(s: seq<Byte>, i: nat): u16
    requires i + 2 <= |s|
  {
    s[i] as int + 0x100 * (s[i + 1] as int)
  }

  /** Reading in place is reading the two-byte slice. */
  lemma Le16AtSlice(s: seq<Byte>, i: nat)
    requires i + 2 <= |s|
    ensures Le16At(s, i) == Le16(s[i..i + 2])
  {
    var b := s[i..i + 2];
    assert b[0] == s[i] && b[1] == s[i + 1];
  }

  /** `Le32` of the four bytes of `s` from offset `i`, read in place. */
  function Le32At(s: seq<Byte>, i: nat): u32
    requires i + 4 <= |s|
  {
    s[i] as int + 0x100 * (s[i + 1] as int) + 0x1_0000 * (s[i + 2] as int) + 0x100_0000 * (s[i + 3] as int)
  }

  /** Reading in place is reading the four-byte slice. */
  lemma Le32AtSlice(s: seq<Byte>, i: nat)
    requires i + 4 <= |s|
    ensures Le32At(s, i) == Le32(s[i..i + 4])
  {
    var b := s[i..i + 4];
    assert b[0] == s[i] && b[1] == s[i + 1] && b[2] == s[i + 2] && b[3] == s[i + 3];
  }

  /** The little-endian layout of a 16-bit value: reading it back gives the value. */
  function U16Le(v: u16): (b: seq<Byte>)
    ensures |b| == 2 && Le16(b) == v
  {
    [v % 0x100, v / 0x100]
  }

  /** The little-endian layout of a 32-bit value: reading it back gives the value. */
  function U32Le(v: u32): (b: seq<Byte>)
    ensures |b| == 4 && Le32(b) == v
  {
    var lo, hi := v % 0x1_0000, v / 0x1_0000;
    var b := U16Le(lo) + U16Le(hi);
    assert b[..2] == U16Le(lo) && b[2..] == U16Le(hi);
    Le32Halves(b);
    b
  }

  /** The four-byte value is the two-byte value of each half, the upper
      half shifted by 16 bits. */
  lemma Le32Halves(b: seq<Byte>)
    requires |b| == 4
    ensures Le32(b) == Le16(b[..2]) + 0x1_0000 * Le16(b[2..])
  {
  }

  /** Two bytes are recovered from their little-endian value: `Le16` is injective. */
  lemma Le16Bytes(b: seq<Byte>)
    requires |b| == 2
    ensures U16Le(Le16(b)) == b
  {
    var v := Le16(b);
    assert v % 0x100 == b[0] && v / 0x100 == b[1];
  }

  /** Four bytes are recovered from their little-endian value: `Le32` is injective. */
  lemma Le32Bytes(b: seq<Byte>)
    requires |b| == 4
    ensures U32Le(Le32(b)) == b
  {
    var v := Le32(b);
    Le32Halves(b);
    assert v % 0x1_0000 == Le16(b[..2]) && v / 0x1_0000 == Le16(b[2..]);
    Le16Bytes(b[..2]);
    Le16Bytes(b[2..]);
    assert b == b[..2] + b[2..];
  }
}
