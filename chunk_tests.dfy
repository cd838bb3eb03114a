/** The scenario of the unit tests in `src/chunk.rs`: a chunk of type "RuSt"
    carrying a 42-byte message, its record with the correct stored CRC, and
    the same record with a stored CRC one less. */
module ChunkTests {
  import opened Bytes
  import opened Results
  import opened ChunkTypes
  import opened Crc32
  import opened Chunks

  /** `ChunkType::from_str("RuSt")`, made here by the strict constructor, on
      which it succeeds (`ChunkTypes.RustScenario`). */
  function TestType(): (t: ChunkType)
    ensures t.bytes == [82, 117, 83, 116] && t.IsValid()
  {
    TryFromBytes([82, 117, 83, 116]).value
  }

  /** `"This is where your secret message will be!".as_bytes()`, written
      as the bytes of its six-character runs. */
  function TestMessage(): (m: seq<u8>)
    ensures |m| == 42
  {
    Ascii("This i") +
    Ascii("s wher") +
    Ascii("e your") +
    Ascii(" secre") +
    Ascii("t mess") +
    Ascii("age wi") +
    Ascii("ll be!")
  }

  // The message's bytes in runs of six: `MessageFrom<i>` is the message
  // from byte i on.

  const MessageFrom0: seq<u8> := [84, 104, 105, 115, 32, 105] + MessageFrom6
  const MessageFrom6: seq<u8> := [115, 32, 119, 104, 101, 114] + MessageFrom12
  const MessageFrom12: seq<u8> := [101, 32, 121, 111, 117, 114] + MessageFrom18
  const MessageFrom18: seq<u8> := [32, 115, 101, 99, 114, 101] + MessageFrom24
  const MessageFrom24: seq<u8> := [116, 32, 109, 101, 115, 115] + MessageFrom30
  const MessageFrom30: seq<u8> := [97, 103, 101, 32, 119, 105] + MessageFrom36
  const MessageFrom36: seq<u8> := [108, 108, 32, 98, 101, 33]

  /** Six ASCII characters are read as the six bytes of the same values. */
  lemma AsciiRun(s: string, b: seq<u8>)
    requires |s| == |b| == 6
    requires s[0] as int == b[0] as int && s[1] as int == b[1] as int && s[2] as int == b[2] as int
    requires s[3] as int == b[3] as int && s[4] as int == b[4] as int && s[5] as int == b[5] as int
    requires forall i | 0 <= i < 6 :: b[i] < 0x80
    ensures Ascii(s) == b
  {
  }

  /** The message's bytes are the runs held by the constants above. */
  lemma TestMessageBytes()
    ensures TestMessage() == MessageFrom0
  {
    AsciiRun("This i", [84, 104, 105, 115, 32, 105]);
    AsciiRun("s wher", [115, 32, 119, 104, 101, 114]);
    AsciiRun("e your", [101, 32, 121, 111, 117, 114]);
    AsciiRun(" secre", [32, 115, 101, 99, 114, 101]);
    AsciiRun("t mess", [116, 32, 109, 101, 115, 115]);
    AsciiRun("age wi", [97, 103, 101, 32, 119, 105]);
    AsciiRun("ll be!", [108, 108, 32, 98, 101, 33]);
  }

  // The CRC register after the type code and after each run of the message.

  /** Feeding the type code. */
  lemma TestCrcStep0()
    ensures Update(0xFFFF_FFFF, [82, 117, 83, 116]) == 0x2B7B_F6C3
  {
    calc {
      Update(0xFFFF_FFFF, [82, 117, 83, 116]);
      { assert UpdateByte(0xFFFF_FFFF, 82) == 0xA898_20AA; }
      Update(0xA898_20AA, [117, 83, 116]);
      { assert UpdateByte(0xA898_20AA, 117) == 0x16C4_5765; }
      Update(0x16C4_5765, [83, 116]);
      { assert UpdateByte(0x16C4_5765, 83) == 0xCFAC_51CE; }
      Update(0xCFAC_51CE, [116]);
      { assert UpdateByte(0xCFAC_51CE, 116) == 0x2B7B_F6C3; }
      Update(0x2B7B_F6C3, []);
    }
  }

  /** Feeding "This i". */
  lemma TestCrcStep1()
    ensures Update(0x2B7B_F6C3, [84, 104, 105, 115, 32, 105]) == 0x5700_A2C8
  {
    calc {
      Update(0x2B7B_F6C3, [84, 104, 105, 115, 32, 105]);
      { assert UpdateByte(0x2B7B_F6C3, 84) == 0x6E40_7D11; }
      Update(0x6E40_7D11, [104, 105, 115, 32, 105]);
      { assert UpdateByte(0x6E40_7D11, 104) == 0x29B7_89E5; }
      Update(0x29B7_89E5, [105, 115, 32, 105]);
      { assert UpdateByte(0x29B7_89E5, 105) == 0xE427_7882; }
      Update(0xE427_7882, [115, 32, 105]);
      { assert UpdateByte(0xE427_7882, 115) == 0xCA5E_E5F2; }
      Update(0xCA5E_E5F2, [32, 105]);
      { assert UpdateByte(0xCA5E_E5F2, 32) == 0x6817_ED1D; }
      Update(0x6817_ED1D, [105]);
      { assert UpdateByte(0x6817_ED1D, 105) == 0x5700_A2C8; }
      Update(0x5700_A2C8, []);
    }
  }

  /** Feeding "s wher". */
  lemma TestCrcStep2()
    ensures Update(0x5700_A2C8, [115, 32, 119, 104, 101, 114]) == 0xC475_B53E
  {
    calc {
      Update(0x5700_A2C8, [115, 32, 119, 104, 101, 114]);
      { assert UpdateByte(0x5700_A2C8, 115) == 0x5CE4_6AA6; }
      Update(0x5CE4_6AA6, [32, 119, 104, 101, 114]);
      { assert UpdateByte(0x5CE4_6AA6, 32) == 0x0487_C27F; }
      Update(0x0487_C27F, [119, 104, 101, 114]);
      { assert UpdateByte(0x0487_C27F, 119) == 0x0EDF_0FF0; }
      Update(0x0EDF_0FF0, [104, 101, 114]);
      { assert UpdateByte(0x0EDF_0FF0, 104) == 0xFEDA_C479; }
      Update(0xFEDA_C479, [101, 114]);
      { assert UpdateByte(0xFEDA_C479, 101) == 0x14FF_868B; }
      Update(0x14FF_868B, [114]);
      { assert UpdateByte(0x14FF_868B, 114) == 0xC475_B53E; }
      Update(0xC475_B53E, []);
    }
  }

  /** Feeding "e your". */
  lemma TestCrcStep3()
    ensures Update(0xC475_B53E, [101, 32, 121, 111, 117, 114]) == 0x0C17_C0CE
  {
    calc {
      Update(0xC475_B53E, [101, 32, 121, 111, 117, 114]);
      { assert UpdateByte(0xC475_B53E, 101) == 0xFC7D_FDC9; }
      Update(0xFC7D_FDC9, [32, 121, 111, 117, 114]);
      { assert UpdateByte(0xFC7D_FDC9, 32) == 0xD92A_2721; }
      Update(0xD92A_2721, [121, 111, 117, 114]);
      { assert UpdateByte(0xD92A_2721, 121) == 0x6569_F3E1; }
      Update(0x6569_F3E1, [111, 117, 114]);
      { assert UpdateByte(0x6569_F3E1, 111) == 0x0A65_C7D4; }
      Update(0x0A65_C7D4, [117, 114]);
      { assert UpdateByte(0x0A65_C7D4, 117) == 0xA1DB_F6B9; }
      Update(0xA1DB_F6B9, [114]);
      { assert UpdateByte(0xA1DB_F6B9, 114) == 0x0C17_C0CE; }
      Update(0x0C17_C0CE, []);
    }
  }

  /** Feeding " secre". */
  lemma TestCrcStep4()
    ensures Update(0x0C17_C0CE, [32, 115, 101, 99, 114, 101]) == 0xD945_629F
  {
    calc {
      Update(0x0C17_C0CE, [32, 115, 101, 99, 114, 101]);
      { assert UpdateByte(0x0C17_C0CE, 32) == 0x47BE_D8BF; }
      Update(0x47BE_D8BF, [115, 101, 99, 114, 101]);
      { assert UpdateByte(0x47BE_D8BF, 115) == 0x9295_3043; }
      Update(0x9295_3043, [101, 99, 114, 101]);
      { assert UpdateByte(0x9295_3043, 101) == 0xD29F_10CD; }
      Update(0xD29F_10CD, [99, 114, 101]);
      { assert UpdateByte(0xD29F_10CD, 99) == 0x31BC_11FF; }
      Update(0x31BC_11FF, [114, 101]);
      { assert UpdateByte(0x31BC_11FF, 114) == 0x9338_438C; }
      Update(0x9338_438C, [101]);
      { assert UpdateByte(0x9338_438C, 101) == 0xD945_629F; }
      Update(0xD945_629F, []);
    }
  }

  /** Feeding "t mess". */
  lemma TestCrcStep5()
    ensures Update(0xD945_629F, [116, 32, 109, 101, 115, 115]) == 0x3A6C_6A7E
  {
    calc {
      Update(0xD945_629F, [116, 32, 109, 101, 115, 115]);
      { assert UpdateByte(0xD945_629F, 116) == 0x3701_7E92; }
      Update(0x3701_7E92, [32, 109, 101, 115, 115]);
      { assert UpdateByte(0x3701_7E92, 32) == 0x2558_D3DE; }
      Update(0x2558_D3DE, [109, 101, 115, 115]);
      { assert UpdateByte(0x2558_D3DE, 109) == 0x524D_BAE5; }
      Update(0x524D_BAE5, [101, 115, 115]);
      { assert UpdateByte(0x524D_BAE5, 101) == 0xEDEA_CE9A; }
      Update(0xEDEA_CE9A, [115, 115]);
      { assert UpdateByte(0xEDEA_CE9A, 115) == 0xD93B_B012; }
      Update(0xD93B_B012, [115]);
      { assert UpdateByte(0xD93B_B012, 115) == 0x3A6C_6A7E; }
      Update(0x3A6C_6A7E, []);
    }
  }

  /** Feeding "age wi". */
  lemma TestCrcStep6()
    ensures Update(0x3A6C_6A7E, [97, 103, 101, 32, 119, 105]) == 0x32B9_2B1E
  {
    calc {
      Update(0x3A6C_6A7E, [97, 103, 101, 32, 119, 105]);
      { assert UpdateByte(0x3A6C_6A7E, 97) == 0x8D32_619F; }
      Update(0x8D32_619F, [103, 101, 32, 119, 105]);
      { assert UpdateByte(0x8D32_619F, 103) == 0xB3EB_484F; }
      Update(0xB3EB_484F, [101, 32, 119, 105]);
      { assert UpdateByte(0xB3EB_484F, 101) == 0xDB08_229E; }
      Update(0xDB08_229E, [32, 119, 105]);
      { assert UpdateByte(0xDB08_229E, 32) == 0x2C02_96A9; }
      Update(0x2C02_96A9, [119, 105]);
      { assert UpdateByte(0x2C02_96A9, 119) == 0x6147_FD45; }
      Update(0x6147_FD45, [105]);
      { assert UpdateByte(0x6147_FD45, 105) == 0x32B9_2B1E; }
      Update(0x32B9_2B1E, []);
    }
  }

  /** Feeding "ll be!". */
  lemma TestCrcStep7()
    ensures Update(0x32B9_2B1E, [108, 108, 32, 98, 101, 33]) == 0x542E_27B1
  {
    calc {
      Update(0x32B9_2B1E, [108, 108, 32, 98, 101, 33]);
      { assert UpdateByte(0x32B9_2B1E, 108) == 0xBE39_A93B; }
      Update(0xBE39_A93B, [108, 32, 98, 101, 33]);
      { assert UpdateByte(0xBE39_A93B, 108) == 0xF5B1_FDFE; }
      Update(0xF5B1_FDFE, [32, 98, 101, 33]);
      { assert UpdateByte(0xF5B1_FDFE, 32) == 0x619E_4E2E; }
      Update(0x619E_4E2E, [98, 101, 33]);
      { assert UpdateByte(0x619E_4E2E, 98) == 0x7F0B_93F5; }
      Update(0x7F0B_93F5, [101, 33]);
      { assert UpdateByte(0x7F0B_93F5, 101) == 0xF070_98D7; }
      Update(0xF070_98D7, [33]);
      { assert UpdateByte(0xF070_98D7, 33) == 0x542E_27B1; }
      Update(0x542E_27B1, []);
    }
  }

  /** The register after the type code and the whole message. */
  lemma TestCrcRegister()
    ensures Update(Preset, [82, 117, 83, 116] + MessageFrom0) == 0x542E_27B1
  {
    calc {
      Update(Preset, [82, 117, 83, 116] + MessageFrom0);
      { TestCrcStep0(); UpdateAppend(0xFFFF_FFFF, [82, 117, 83, 116], MessageFrom0); }
      Update(0x2B7B_F6C3, MessageFrom0);
      { TestCrcStep1(); UpdateAppend(0x2B7B_F6C3, [84, 104, 105, 115, 32, 105], MessageFrom6); }
      Update(0x5700_A2C8, MessageFrom6);
      { TestCrcStep2(); UpdateAppend(0x5700_A2C8, [115, 32, 119, 104, 101, 114], MessageFrom12); }
      Update(0xC475_B53E, MessageFrom12);
      { TestCrcStep3(); UpdateAppend(0xC475_B53E, [101, 32, 121, 111, 117, 114], MessageFrom18); }
      Update(0x0C17_C0CE, MessageFrom18);
      { TestCrcStep4(); UpdateAppend(0x0C17_C0CE, [32, 115, 101, 99, 114, 101], MessageFrom24); }
      Update(0xD945_629F, MessageFrom24);
      { TestCrcStep5(); UpdateAppend(0xD945_629F, [116, 32, 109, 101, 115, 115], MessageFrom30); }
      Update(0x3A6C_6A7E, MessageFrom30);
      { TestCrcStep6(); UpdateAppend(0x3A6C_6A7E, [97, 103, 101, 32, 119, 105], MessageFrom36); }
      Update(0x32B9_2B1E, MessageFrom36);
      { TestCrcStep7(); UpdateAppend(0x32B9_2B1E, [108, 108, 32, 98, 101, 33], []); }
      Update(0x542E_27B1, []);
    }
  }

  /** The CRC of the test chunk is 2882656334, the value the tests expect. */
  lemma TestChunkCrc()
    ensures Chunk(TestType(), TestMessage()).Crc() == 2882656334
  {
    TestMessageBytes();
    TestCrcRegister();
  }

  /** The bytes the tests assemble: length 42, "RuSt", the message, and a
      stored CRC. */
  function TestRecord(crc: u32): seq<u8> {
    ToBeBytes(42) + TestType().bytes + TestMessage() + ToBeBytes(crc)
  }

  /** The record with the stored CRC 2882656334 parses to the test chunk:
      its length is 42, its type renders as "RuSt", its data is the message,
      and its CRC is that value. */
  lemma TestRecordParses()
    ensures Chunk(TestType(), TestMessage()).Length() == 42
    ensures Render(TestType()) == Ascii("RuSt")
    ensures Chunk(TestType(), TestMessage()).Crc() == 2882656334
    ensures Parse(TestRecord(2882656334)) == Ok(Chunk(TestType(), TestMessage()))
  {
    RustScenario();
    TestChunkCrc();
    ParseAsBytes(Chunk(TestType(), TestMessage()));
  }

  /** The same record with the stored CRC 2882656333 is refused with
      `CrcMismatch`. */
  lemma TestRecordWrongCrc()
    ensures Parse(TestRecord(2882656333)) == Err(CrcMismatch)
  {
    TestChunkCrc();
    ParseRejectsWrongCrc(Chunk(TestType(), TestMessage()), 2882656333);
  }

  /** A chunk typed "Rust" (accepted by `from_str`, reserved bit set) does
      not parse back from its own bytes. */
  lemma RustTypedChunkDoesNotParse(data: seq<u8>)
    ensures FromStr(Ascii("Rust")).Ok?
    ensures Parse(Chunk(FromStr(Ascii("Rust")).value, data).AsBytes()) == Err(ChunkError.InvalidChunkType)
  {
    InvalidScenarios();
    ParseAsBytesInvalidType(Chunk(FromStr(Ascii("Rust")).value, data));
  }
}
