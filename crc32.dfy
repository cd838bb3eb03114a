/** CRC-32 as section 5.5 of the PNG Specification (ISO/IEC 15948:2003)
    defines it: the polynomial of ISO 3309 and ITU-T V.42, processed least
    significant bit first, with the register preset to all ones and the
    final value complemented. This is the parameter set named
    `CRC_32_ISO_HDLC` in the `crc` crate (not CRC-32C, Castagnoli). */
module Crc32 {
  import opened Bytes

  /** x^32 + x^26 + x^23 + x^22 + x^16 + x^12 + x^11 + x^10 + x^8 + x^7
      + x^5 + x^4 + x^2 + x + 1, bit-reversed. */
  const Polynomial: bv32 := 0xEDB8_8320
  const Preset: bv32 := 0xFFFF_FFFF
  const FinalXor: bv32 := 0xFFFF_FFFF

  /** One shift of the register: divide by the polynomial when the bit
      shifted out is set. */
  function ShiftBit(c: bv32): bv32 {
    if c & 1 == 1 then (c >> 1) ^ Polynomial else c >> 1
  }

  function ShiftBits(c: bv32, k: nat): bv32
    decreases k
  {
    if k == 0 then c else ShiftBits(ShiftBit(c), k - 1)
  }

  /** Feeds one byte into the register, low bit first. */
  function UpdateByte(c: bv32, b: u8): bv32 {
    ShiftBits(c ^ (b as int as bv32), 8)
  }

  /** Feeds a byte sequence into the register, first byte first. */
  function Update(c: bv32, s: seq<u8>): bv32
    decreases |s|
  {
    if |s| == 0 then c else Update(UpdateByte(c, s[0]), s[1..])
  }

  /** The CRC-32 of `s`. */
  function Checksum(s: seq<u8>): u32 {
    (Update(Preset, s) ^ FinalXor) as int as u32
  }

  /** The register can be fed in pieces: the checksum of a concatenation is
      the checksum of the second part continued from the register the first
      part left. */
  lemma {:induction false} UpdateAppend(c: bv32, a: seq<u8>, b: seq<u8>)
    ensures Update(c, a + b) == Update(Update(c, a), b)
    decreases |a|
  {
    if |a| == 0 {
      assert a + b == b;
    } else {
      assert (a + b)[1..] == a[1..] + b;
      UpdateAppend(UpdateByte(c, a[0]), a[1..], b);
    }
  }

  /** The check value of the CRC-32/ISO-HDLC parameter set: the CRC of the
      ASCII digits "123456789" is 0xCBF43926. */
  lemma CheckValue()
    ensures Checksum([49, 50, 51, 52, 53, 54, 55, 56, 57]) == 0xCBF4_3926
  {
    calc {
      Update(Preset, [49, 50, 51, 52, 53, 54, 55, 56, 57]);
      { assert UpdateByte(0xFFFF_FFFF, 49) == 0x7C23_1048; }
      Update(0x7C23_1048, [50, 51, 52, 53, 54, 55, 56, 57]);
      { assert UpdateByte(0x7C23_1048, 50) == 0xB0AC_BB32; }
      Update(0xB0AC_BB32, [51, 52, 53, 54, 55, 56, 57]);
      { assert UpdateByte(0xB0AC_BB32, 51) == 0x77B7_9C2D; }
      Update(0x77B7_9C2D, [52, 53, 54, 55, 56, 57]);
      { assert UpdateByte(0x77B7_9C2D, 52) == 0x641C_1F5C; }
      Update(0x641C_1F5C, [53, 54, 55, 56, 57]);
      { CheckValueTail(); }
      0x340B_C6D9;
    }
  }

  /** The last five steps of `CheckValue`. */
  lemma CheckValueTail()
    ensures Update(0x641C_1F5C, [53, 54, 55, 56, 57]) == 0x340B_C6D9
  {
    calc {
      Update(0x641C_1F5C, [53, 54, 55, 56, 57]);
      { assert UpdateByte(0x641C_1F5C, 53) == 0x340A_C5E3; }
      Update(0x340A_C5E3, [54, 55, 56, 57]);
      { assert UpdateByte(0x340A_C5E3, 54) == 0xF68D_2C9E; }
      Update(0xF68D_2C9E, [55, 56, 57]);
      { assert UpdateByte(0xF68D_2C9E, 55) == 0xAFFC_9660; }
      Update(0xAFFC_9660, [56, 57]);
      { assert UpdateByte(0xAFFC_9660, 56) == 0x651F_2550; }
      Update(0x651F_2550, [57]);
      { assert UpdateByte(0x651F_2550, 57) == 0x340B_C6D9; }
      Update(0x340B_C6D9, []);
    }
  }

  /** The CRC every PNG file ends with: that of the type code "IEND" of the
      empty end-of-image chunk, 0xAE426082. */
  lemma IendValue()
    ensures Checksum([73, 69, 78, 68]) == 0xAE42_6082
  {
    calc {
      Update(Preset, [73, 69, 78, 68]);
      { assert UpdateByte(0xFFFF_FFFF, 73) == 0x22FD_E946; }
      Update(0x22FD_E946, [69, 78, 68]);
      { assert UpdateByte(0x22FD_E946, 69) == 0x992B_AC53; }
      Update(0x992B_AC53, [78, 68]);
      { assert UpdateByte(0x992B_AC53, 78) == 0x639F_4775; }
      Update(0x639F_4775, [68]);
      { assert UpdateByte(0x639F_4775, 68) == 0x51BD_9F7D; }
      Update(0x51BD_9F7D, []);
    }
  }
}
