/** The 4-byte chunk type code and its property bits, following the naming
    convention of section 5.4 of the PNG Specification: bit 5 of each byte,
    the ASCII case bit, carries one property. */
module ChunkTypes {
  import opened Bytes
  import opened Results

  predicate IsAsciiUpper(b: u8) { 0x41 <= b <= 0x5A }
  predicate IsAsciiLower(b: u8) { 0x61 <= b <= 0x7A }

  /** Rust's `u8::is_ascii_alphabetic`. */
  predicate IsAsciiAlphabetic(b: u8) { IsAsciiUpper(b) || IsAsciiLower(b) }

  /** `b >> 5 & 1`: bit 5 of the byte, counting from the least significant bit 0. */
  function CaseBit(b: u8): int {
    b as int / 32 % 2
  }

  /** For a letter, bit 5 is set exactly when the letter is lower case. */
  lemma CaseBitOfLetter(b: u8)
    requires IsAsciiAlphabetic(b)
    ensures CaseBit(b) == 1 <==> IsAsciiLower(b)
    ensures CaseBit(b) == 0 <==> IsAsciiUpper(b)
  {
  }

  type TypeBytes = s: seq<u8> | |s| == 4 witness [0, 0, 0, 0]

  /** The source keeps the four bytes in a private field and makes values
      only through its two constructors, modelled by `TryFromBytes` and
      `FromStr` below. The model follows that as a convention: its own
      values are all made by one of the two. */
  datatype ChunkType = ChunkType(bytes: TypeBytes) {

    /** Ancillary bit (byte 0) clear. */
    predicate IsCritical() { CaseBit(bytes[0]) == 0 }

    /** Private bit (byte 1) clear. */
    predicate IsPublic() { CaseBit(bytes[1]) == 0 }

    /** Reserved bit (byte 2) clear, as this version of PNG requires. */
    predicate IsReservedBitValid() { CaseBit(bytes[2]) == 0 }

    /** Safe-to-copy bit (byte 3) set. */
    predicate IsSafeToCopy() { CaseBit(bytes[3]) == 1 }

    predicate IsValid() { IsAlphanumeric() && IsReservedBitValid() }

    /** Despite its name, the source tests `is_ascii_alphabetic` on each byte. */
    predicate IsAlphanumeric() { forall i | 0 <= i < 4 :: IsAsciiAlphabetic(bytes[i]) }
  }

  datatype InvalidChunkType = InvalidChunkType

  datatype ChunkTypeError = InvalidLength | NotAlphanumeric

  /** `ChunkType::try_from([u8; 4])`, the strict constructor: accepts four
      ASCII letters whose third is upper case, and keeps them as given. */
  function TryFromBytes(b: TypeBytes): (r: Result<ChunkType, InvalidChunkType>)
    ensures r.Ok? <==> (forall i | 0 <= i < 4 :: IsAsciiAlphabetic(b[i])) && IsAsciiUpper(b[2])
    ensures r.Ok? ==> r.value.bytes == b && r.value.IsValid()
    ensures r.Err? ==> r.error == InvalidChunkType
  {
    var chunkType := ChunkType(b);
    if chunkType.IsValid() then Ok(chunkType) else Err(InvalidChunkType)
  }

  /** `ChunkType::from_str`, the lenient constructor, on the UTF-8 bytes of
      the string: exactly four bytes, all ASCII letters, kept as given. The
      reserved bit is not checked. */
  function FromStr(s: seq<u8>): (r: Result<ChunkType, ChunkTypeError>)
    ensures r == Err(InvalidLength) <==> |s| != 4
    ensures r == Err(NotAlphanumeric) <==> |s| == 4 && exists i | 0 <= i < 4 :: !IsAsciiAlphabetic(s[i])
    ensures r.Ok? ==> r.value.bytes == s && r.value.IsAlphanumeric()
  {
    if |s| != 4 then Err(InvalidLength)
    else
      var chunkType := ChunkType(s);
      if chunkType.IsAlphanumeric() then Ok(chunkType) else Err(NotAlphanumeric)
  }

  /** The `Display` text of a type: its four bytes read as UTF-8, given here
      as the text's bytes. Four ASCII bytes are always valid UTF-8, so the
      `unwrap` in the source cannot fail on them. */
  function Render(t: ChunkType): seq<u8>
    requires forall i | 0 <= i < 4 :: t.bytes[i] < 0x80
  {
    t.bytes
  }

  /** Each flag is a letter-case test: critical iff the first letter is upper
      case, public iff the second is, reserved bit valid iff the third is,
      safe to copy iff the fourth is lower case. */
  lemma FlagsAreLetterCase(t: ChunkType)
    requires t.IsAlphanumeric()
    ensures t.IsCritical() <==> IsAsciiUpper(t.bytes[0])
    ensures t.IsPublic() <==> IsAsciiUpper(t.bytes[1])
    ensures t.IsReservedBitValid() <==> IsAsciiUpper(t.bytes[2])
    ensures t.IsSafeToCopy() <==> IsAsciiLower(t.bytes[3])
  {
    CaseBitOfLetter(t.bytes[0]);
    CaseBitOfLetter(t.bytes[1]);
    CaseBitOfLetter(t.bytes[2]);
    CaseBitOfLetter(t.bytes[3]);
  }

  /** The two constructors agree wherever the strict one succeeds, and the
      strict one rejects exactly what the lenient one accepts with the
      reserved bit set. */
  lemma StrictAndLenientConstructors(b: TypeBytes)
    ensures TryFromBytes(b).Ok? <==> FromStr(b).Ok? && FromStr(b).value.IsReservedBitValid()
    ensures TryFromBytes(b).Ok? ==> FromStr(b) == Ok(TryFromBytes(b).value)
  {
  }

  /** A value built by either constructor is four ASCII letters, which is
      what `Render` needs. */
  lemma ConstructedTypesAreAscii(t: ChunkType)
    requires t.IsAlphanumeric()
    ensures forall i | 0 <= i < 4 :: t.bytes[i] < 0x80
  {
  }

  /** Rendering a parsed type gives back the string it was parsed from, and
      parsing a rendered type gives back the type. */
  lemma RenderRoundTrip(s: seq<u8>, t: ChunkType)
    requires t.IsAlphanumeric()
    ensures FromStr(s) == Ok(t) ==> Render(t) == s
    ensures FromStr(Render(t)) == Ok(t)
  {
  }

  // The scenarios of the source's unit tests.

  /** "RuSt" through both constructors: the same bytes 82, 117, 83, 116. */
  lemma RustScenario()
    ensures TryFromBytes([82, 117, 83, 116]).Ok?
    ensures TryFromBytes([82, 117, 83, 116]).value.bytes == [82, 117, 83, 116]
    ensures FromStr(Ascii("RuSt")) == Ok(TryFromBytes([82, 117, 83, 116]).value)
    ensures Render(FromStr(Ascii("RuSt")).value) == Ascii("RuSt")
  {
    assert Ascii("RuSt") == [82, 117, 83, 116];
  }

  /** The flag tests on "RuSt": critical, not public, reserved-bit valid,
      safe to copy, and valid. */
  lemma FlagScenarios()
    ensures FromStr(Ascii("RuSt")).Ok?
    ensures var t := FromStr(Ascii("RuSt")).value;
      t.IsCritical() && !t.IsPublic() && t.IsReservedBitValid() && t.IsSafeToCopy() && t.IsValid()
  {
    assert Ascii("RuSt") == [82, 117, 83, 116];
  }

  /** The flag tests that change one letter's case: "ruSt" is not critical,
      "RUSt" is public, "RuST" is not safe to copy. */
  lemma CaseChangeScenarios()
    ensures FromStr(Ascii("ruSt")).Ok? && !FromStr(Ascii("ruSt")).value.IsCritical()
    ensures FromStr(Ascii("RUSt")).Ok? && FromStr(Ascii("RUSt")).value.IsPublic()
    ensures FromStr(Ascii("RuST")).Ok? && !FromStr(Ascii("RuST")).value.IsSafeToCopy()
  {
    assert Ascii("ruSt") == [114, 117, 83, 116];
    assert Ascii("RUSt") == [82, 85, 83, 116];
    assert Ascii("RuST") == [82, 117, 83, 84];
  }

  /** "Rust" passes the lenient constructor but has the reserved bit set, so
      it is not valid and the strict constructor refuses it; "Ru1t" has a
      digit and the lenient constructor refuses it. */
  lemma InvalidScenarios()
    ensures FromStr(Ascii("Rust")).Ok?
    ensures !FromStr(Ascii("Rust")).value.IsReservedBitValid()
    ensures !FromStr(Ascii("Rust")).value.IsValid()
    ensures TryFromBytes([82, 117, 115, 116]) == Err(InvalidChunkType)
    ensures FromStr(Ascii("Ru1t")) == Err(NotAlphanumeric)
  {
    assert Ascii("Rust") == [82, 117, 115, 116];
    assert Ascii("Ru1t") == [82, 117, 49, 116];
    assert !IsAsciiAlphabetic(Ascii("Ru1t")[2]);
  }
}
