# pngme chunk codec, in Dafny

A model of the chunk layer of `pngme`, a tool that hides a message in a PNG
file as an extra chunk. It covers the two files that define a chunk:

- `src/chunk_type.rs`: the 4-byte chunk type code. Bit 5 of each byte (the
  ASCII case bit) carries one property: critical, public, reserved-bit-valid
  or safe-to-copy, as in section 5.4 of the PNG Specification (W3C Second
  Edition, ISO/IEC 15948:2003). There are two constructors. The strict one
  (`TryFrom<[u8; 4]>`) wants four ASCII letters with the reserved bit clear.
  The lenient one (`FromStr`) wants four bytes that are ASCII letters.
- `src/chunk.rs`: a chunk is a type code and a data payload. `as_bytes`
  writes the layout of section 5.3 of the PNG Specification: big-endian
  length, type, data, big-endian CRC. `TryFrom<&[u8]>` reads it back and can
  fail in three ways: `IO` (input too short), `InvalidChunkType` and
  `CrcMismatch`. The CRC is CRC-32 as section 5.5 of the PNG Specification
  defines it (`CRC_32_ISO_HDLC` in the `crc` crate, even though the constant
  holding it is named `CASTAGNOLI`).

Files, one module each:

- `results.dfy` (`Results`): `Result` with `Ok` and `Err`.
- `bytes.dfy` (`Bytes`): `u8`, `u32`, the `as u32` truncation, and
  `to_be_bytes` / `from_be_bytes`.
- `crc32.dfy` (`Crc32`): a bitwise CRC-32 (reflected polynomial 0xEDB88320,
  preset and final XOR 0xFFFFFFFF).
- `chunk_type.dfy` (`ChunkTypes`): the type code, its flags and both
  constructors.
- `chunk.dfy` (`Chunks`): the chunk, its serialisation, and the parser.
- `chunk_tests.dfy` (`ChunkTests`): the scenario of the unit tests in
  `src/chunk.rs`, including the CRC of the test chunk, worked out byte by byte.

The parser is written the way the source writes it. `Chunks.TryFrom` is a
method that advances a cursor through four `read_exact` calls. It reads into
a 4-byte array buffer and into a data array of the announced length. It is
proved equal to `Chunks.Parse`, a pure function that reads each field at its
position. The lemmas are stated about `Parse`.

Conventions:

- A Rust `&str` is modelled by its UTF-8 bytes (`seq<u8>`).
- The `Display` text of a type code is also given as bytes.
- `Chunk::new` is the datatype constructor `Chunk(chunkType, data)`.
- The accessors `bytes()`, `chunk_type()` and `data()` are the datatype's fields.

## Model

| member | source | states |
|---|---|---|
| `Bytes.TruncateToU32` | src/chunk.rs:16-18 | `n as u32` is below `n`, congruent to it modulo 2^32, and equal to it when it fits |
| `Bytes.ToBeBytes` | src/chunk.rs:39-46 | four bytes whose big-endian positional value is the number |
| `Bytes.FromBeBytes` | src/chunk.rs:71 | `u32::from_be_bytes`: the big-endian value of a 4-byte field; no contract of its own, its meaning is stated by `Bytes.FromToBeBytes` and `Bytes.ToFromBeBytes` |
| `Bytes.BeValueOfBeBytes` | src/chunk.rs:39-46 | reading back the low `k` big-endian bytes of a number below 256^k gives the number |
| `Bytes.BeBytesOfBeValue` | src/chunk.rs:70-71 | writing the value of a byte string back in as many bytes gives the same string |
| `Bytes.FromToBeBytes` | src/chunk.rs:39-46 | decoding the big-endian bytes of a number gives the number back |
| `Bytes.ToFromBeBytes` | src/chunk.rs:70-71 | encoding a decoded 4-byte field gives the same four bytes back |
| `Crc32.Checksum` | src/chunk.rs:30-31 | CRC-32/ISO-HDLC of a byte string; no contract of its own, its value is pinned by `Crc32.CheckValue`, `Crc32.IendValue` and `ChunkTests.TestChunkCrc` |
| `Crc32.UpdateAppend` | src/chunk.rs:28-32 | CRC of a concatenation = the register after the first part, run on the second part |
| `Crc32.CheckValue` | src/chunk.rs:30 | the CRC of "123456789" is 0xCBF43926, the check value of CRC-32/ISO-HDLC |
| `Crc32.IendValue` | src/chunk.rs:30 | the CRC of the type code "IEND" is 0xAE426082, as in every PNG file |
| `ChunkTypes.CaseBitOfLetter` | src/chunk_type.rs:15-32 | for an ASCII letter, bit 5 is set iff the letter is lower case |
| `ChunkTypes.ChunkType.IsCritical` | src/chunk_type.rs:15-17 | bit 5 of byte 0 clear; `ChunkTypes.FlagsAreLetterCase` states it is "byte 0 upper case" |
| `ChunkTypes.ChunkType.IsPublic` | src/chunk_type.rs:20-22 | bit 5 of byte 1 clear; `ChunkTypes.FlagsAreLetterCase` states it is "byte 1 upper case" |
| `ChunkTypes.ChunkType.IsReservedBitValid` | src/chunk_type.rs:25-27 | bit 5 of byte 2 clear; `ChunkTypes.FlagsAreLetterCase` states it is "byte 2 upper case" |
| `ChunkTypes.ChunkType.IsSafeToCopy` | src/chunk_type.rs:30-32 | bit 5 of byte 3 set; `ChunkTypes.FlagsAreLetterCase` states it is "byte 3 lower case" |
| `ChunkTypes.ChunkType.IsValid` | src/chunk_type.rs:35-37 | all four bytes letters and the reserved bit clear; `ChunkTypes.TryFromBytes` accepts exactly these |
| `ChunkTypes.ChunkType.IsAlphanumeric` | src/chunk_type.rs:39-41 | every byte is an ASCII letter (not digits, despite the name); `ChunkTypes.FromStr` accepts exactly these 4-byte strings |
| `ChunkTypes.TryFromBytes` | src/chunk_type.rs:34-57 | Ok iff all four bytes are ASCII letters and the third is upper case; keeps the bytes unchanged; the result is valid; otherwise `InvalidChunkType` |
| `ChunkTypes.FromStr` | src/chunk_type.rs:68-82 | `InvalidLength` iff the string is not 4 bytes; `NotAlphanumeric` iff it is 4 bytes and one is not a letter; otherwise Ok with exactly those bytes |
| `ChunkTypes.FlagsAreLetterCase` | src/chunk_type.rs:15-32 | on letters: critical iff byte 0 upper case, public iff byte 1 upper, reserved bit valid iff byte 2 upper, safe to copy iff byte 3 lower |
| `ChunkTypes.StrictAndLenientConstructors` | src/chunk_type.rs:48-82 | the strict constructor succeeds iff the lenient one does with the reserved bit clear, and then both give the same type |
| `ChunkTypes.Render` | src/chunk_type.rs:84-88 | the `Display` text of a type; no contract of its own, `ChunkTypes.RenderRoundTrip` states that it inverts `from_str` |
| `ChunkTypes.ConstructedTypesAreAscii` | src/chunk_type.rs:84-88 | a type made by either constructor is four ASCII bytes, so the `unwrap` in `Display` cannot fail |
| `ChunkTypes.RenderRoundTrip` | src/chunk_type.rs:84-88 | rendering a type parsed from `s` gives `s`; parsing a rendered type gives the type back |
| `ChunkTypes.RustScenario` | src/chunk_type.rs:96-109 | `try_from([82,117,83,116])` succeeds with those bytes, equals `from_str("RuSt")`, and renders as "RuSt" |
| `ChunkTypes.FlagScenarios` | src/chunk_type.rs:111-163 | RuSt is critical, not public, reserved-bit valid, safe to copy, and valid |
| `ChunkTypes.CaseChangeScenarios` | src/chunk_type.rs:117-157 | ruSt is not critical; RUSt is public; RuST is not safe to copy |
| `ChunkTypes.InvalidScenarios` | src/chunk_type.rs:141-172 | "Rust" is accepted by `from_str` but has the reserved bit set, is not valid and is refused by `try_from`; "Ru1t" is `NotAlphanumeric` |
| `Chunks.Chunk.Length` | src/chunk.rs:16-18 | the length is the number of data bytes whenever that is below 2^32 |
| `Chunks.Chunk.Crc` | src/chunk.rs:28-32 | the CRC of type ++ data; no contract of its own, `Chunks.AsBytesLayout` places it in the record and `ChunkTests.TestChunkCrc` gives its value on the test chunk |
| `Chunks.Chunk.AsBytes` | src/chunk.rs:38-49 | the serialised chunk is 12 bytes longer than its data |
| `Chunks.AsBytesLayout` | src/chunk.rs:28-49 | bytes 0-3 decode to the data length mod 2^32, bytes 4-7 are the type, then the data, then the CRC of type ++ data |
| `Chunks.ReadExact` | src/chunk.rs:70-82 | `read_exact` fills the buffer with the next bytes and advances the cursor, or fails iff fewer bytes remain |
| `Chunks.Parse` | src/chunk.rs:65-88 | the field-by-field reading `try_from` performs; no contract of its own, `Chunks.TryFrom` is proved equal to it and `Chunks.ParseOk`, `Chunks.ParseShortInput` and `Chunks.ParseCrcMismatch` state what it accepts and refuses |
| `Chunks.TryFrom` | src/chunk.rs:62-88 | the cursor-and-buffer parser returns exactly `Parse(bytes)` |
| `Chunks.ParseAsBytes` | src/chunk.rs:38-88 | round trip: a chunk with a valid type and under 2^32 data bytes parses back from its own bytes |
| `Chunks.ParseAsBytesInvalidType` | src/chunk.rs:73-75 | the bytes of a chunk whose type is not valid parse to `InvalidChunkType` |
| `Chunks.ParseIgnoresTrailing` | src/chunk.rs:65-88 | when parsing did not run out of input, appending bytes does not change the result |
| `Chunks.InputBeginningWithChunkParses` | src/chunk.rs:65-88 | any input that begins with the bytes of a valid chunk parses to that chunk |
| `Chunks.ParseOk` | src/chunk.rs:65-88 | parsing yields `c` iff `c` is valid, its data is under 2^32 bytes and the input starts with `c.AsBytes()` |
| `Chunks.ParseShortInput` | src/chunk.rs:69-82 | `IO` iff under 8 bytes, or a valid type followed by fewer than L + 4 bytes |
| `Chunks.ParseInvalidTypeFirst` | src/chunk.rs:73-79 | an invalid type is reported from the first 8 bytes alone, whatever follows |
| `Chunks.ParseCrcMismatch` | src/chunk.rs:81-87 | `CrcMismatch` iff all fields are present, the type is valid, and the stored CRC differs from the CRC of input bytes 4 .. 8+L (the length field is excluded) |
| `Chunks.ParseRejectsWrongCrc` | src/chunk.rs:83-87 | a valid chunk's record carrying any CRC but its own is refused with `CrcMismatch` |
| `ChunkTests.TestChunkCrc` | src/chunk.rs:127-136 | the chunk of type "RuSt" and the 42-byte message has CRC 2882656334 |
| `ChunkTests.TestRecordParses` | src/chunk.rs:164-189 | the record with stored CRC 2882656334 parses to that chunk: length 42, type rendering "RuSt", the message as data, CRC 2882656334 |
| `ChunkTests.TestRecordWrongCrc` | src/chunk.rs:191-210 | the same record with stored CRC 2882656333 is refused with `CrcMismatch` |
| `ChunkTests.RustTypedChunkDoesNotParse` | src/chunk_type.rs:165-169 | a chunk typed `from_str("Rust")` does not parse back from its bytes: `InvalidChunkType` |

## Left out

- The `crc` crate (src/chunk.rs:2, 30-31) is not modelled. `Crc32` is a bitwise definition of CRC-32 of its own, checked against the standard check value, the IEND value and the CRC the unit tests expect of their test chunk.
- `ChunkTypes.Render`: requires four ASCII bytes. The source's `from_utf8(..).unwrap()` accepts any valid UTF-8 and panics otherwise. The model does not model UTF-8 or the panic. Every value the two constructors make meets the requirement.
- `ChunkTypes.FromStr`: takes the string's UTF-8 bytes. The model does not require those bytes to be valid UTF-8, as a Rust `&str` always is.
- `Chunks.ParseAsBytes`: holds only for data under 2^32 bytes. `as_bytes` writes `len as u32`, which truncates longer data (`Chunks.AsBytesLayout` states the truncation).
- `Chunk::data_as_string` (src/chunk.rs:34-36): UTF-8 validation by the standard library; not modelled. The tests' comparison of the data with the message text (src/chunk.rs:150-156, 182-187) is stated on bytes instead: `ChunkTests.TestRecordParses` gives the message bytes as the parsed data.
- The `Display` impl of `Chunk` (src/chunk.rs:91-101): text formatting only.
- `BufReader` (src/chunk.rs:66): reads are modelled as bounds checks on the remaining input.
- The eager allocation of `length` bytes (src/chunk.rs:78): `TryFrom` allocates the data array before the short-read check, as the source does, but the model has no memory limit, so exhausting memory on a huge announced length is not captured.
- Checksum sensitivity to corrupted type or data bytes: the model proves only that a wrong stored CRC is refused. It does not prove that every single-bit change to the type or data changes CRC-32.
- The `Png` container (`mod png`, src/main.rs:3): its source file is not part of this model.
- `src/main.rs`: command-line parsing, file I/O and printing; not modelled.
