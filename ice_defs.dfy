/** Fixed-width integer types and constants shared by the Subzero model.
    In the code generator these come from IceDefs.h: SizeT is uint32_t,
    RelocOffsetT is int32_t, InstNumberT is int32_t and relocations are
    four bytes wide (the 32-bit targets). */
module IceDefs {

  newtype int8 = x: int | -0x80 <= x < 0x80
  newtype int32 = x: int | -0x8000_0000 <= x < 0x8000_0000
  newtype uint32 = x: int | 0 <= x < 0x1_0000_0000
  newtype uint64 = x: int | 0 <= x < 0x1_0000_0000_0000_0000

  /** Byte counts and indices of the code generator. */
  type SizeT = uint32

  const SizeTModulus: int := 0x1_0000_0000

  /** Size in bytes of a relocated address. */
  const RelocAddrSize: SizeT := 4

  /** The implicit conversion of an unbounded count to SizeT: keep the
      low 32 bits. */
  function WrapSizeT(n: int): (r: SizeT)
    ensures (r as int - n) % SizeTModulus == 0
    ensures 0 <= n < SizeTModulus ==> r as int == n
  {
    (n % SizeTModulus) as SizeT
  }

  /** `static_cast<int8_t>` of a 64-bit unsigned value: the low eight bits,
      read as a two's-complement byte. */
  function TruncateToInt8(v: uint64): (r: int8)
    ensures (r as int - v as int) % 0x100 == 0
    ensures v < 0x80 ==> r as int == v as int
  {
    var low := v as int % 0x100;
    if low < 0x80 then low as int8 else (low - 0x100) as int8
  }
}
