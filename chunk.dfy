/** A chunk record and its byte layout, section 5.3 of the PNG
    Specification: a big-endian 4-byte length, the 4-byte type code, the
    data, and a big-endian 4-byte CRC of type code and data. */
module Chunks {
  import opened Bytes
  import opened Results
  import opened ChunkTypes
  import opened Crc32

  /** `Chunk::new(chunk_type, data)` is this constructor: it stores both
      verbatim and checks nothing. */
  datatype Chunk = Chunk(chunkType: ChunkType, data: seq<u8>) {

    /** `data.len() as u32`. */
    function Length(): (r: u32)
      ensures |data| < U32Modulus ==> r as int == |data|
    {
      TruncateToU32(|data|)
    }

    /** The CRC of the type code followed by the data. */
    function Crc(): u32 {
      Checksum(chunkType.bytes + data)
    }

    /** `as_bytes`: the chunk as it appears in a file. */
    function AsBytes(): (r: seq<u8>)
      ensures |r| == 12 + |data|
    {
      ToBeBytes(Length()) + chunkType.bytes + data + ToBeBytes(Crc())
    }
  }

  /** The typed failures of `Chunk::try_from(&[u8])`. */
  datatype ChunkError = IO | CrcMismatch | InvalidChunkType

  /** What `Chunk::try_from(&[u8])` returns, field by field: the length
      (bytes 0-3), the type code (4-7), `L` bytes of data, the stored CRC
      (the next four). Anything after the CRC is not read. */
  function Parse(bytes: seq<u8>): Result<Chunk, ChunkError> {
    if |bytes| < 8 then Err(IO)
    else
      var length := FromBeBytes(bytes[0..4]) as int;
      match TryFromBytes(bytes[4..8])
      case Err(_) => Err(ChunkError.InvalidChunkType)
      case Ok(chunkType) =>
        if |bytes| < 12 + length then Err(IO)
        else
          var chunk := Chunk(chunkType, bytes[8..8 + length]);
          if chunk.Crc() == FromBeBytes(bytes[8 + length..12 + length]) then Ok(chunk)
          else Err(CrcMismatch)
  }

  /** `read_exact` on a reader that has consumed `pos` bytes of `src`:
      fills all of `buf` with the next bytes, or fails when fewer remain. */
  method ReadExact(src: seq<u8>, pos: nat, buf: array<u8>) returns (ok: bool, next: nat)
    requires pos <= |src|
    modifies buf
    ensures ok <==> pos + buf.Length <= |src|
    ensures ok ==> next == pos + buf.Length && buf[..] == src[pos..next]
    ensures !ok ==> next == pos && unchanged(buf)
  {
    if pos + buf.Length <= |src| {
      forall i | 0 <= i < buf.Length {
        buf[i] := src[pos + i];
      }
      ok, next := true, pos + buf.Length;
    } else {
      ok, next := false, pos;
    }
  }

  /** `Chunk::try_from(&[u8])`: four reads through a cursor into a 4-byte
      buffer and a data buffer of the announced length, then the CRC check. */
  method TryFrom(bytes: seq<u8>) returns (r: Result<Chunk, ChunkError>)
    ensures r == Parse(bytes)
  {
    var pos: nat := 0;
    var buffer := new u8[4];
    var ok: bool;

    ok, pos := ReadExact(bytes, pos, buffer);
    if !ok {
      return Err(IO);
    }
    var length := FromBeBytes(buffer[..]);

    ok, pos := ReadExact(bytes, pos, buffer);
    if !ok {
      return Err(IO);
    }
    var typeResult := TryFromBytes(buffer[..]);
    if typeResult.Err? {
      return Err(ChunkError.InvalidChunkType);
    }
    var chunkType := typeResult.value;

    var data := new u8[length as int];
    ok, pos := ReadExact(bytes, pos, data);
    if !ok {
      return Err(IO);
    }

    ok, pos := ReadExact(bytes, pos, buffer);
    if !ok {
      return Err(IO);
    }
    var crc := FromBeBytes(buffer[..]);

    var chunk := Chunk(chunkType, data[..]);
    if chunk.Crc() == crc {
      r := Ok(chunk);
    } else {
      r := Err(CrcMismatch);
    }
  }

  /** Where `as_bytes` puts each field: the length (the data's size modulo
      2^32), the type code, the data, and the CRC of type code and data. */
  lemma AsBytesLayout(c: Chunk)
    ensures var r, n := c.AsBytes(), |c.data|;
      && FromBeBytes(r[0..4]) as int == n % U32Modulus
      && r[4..8] == c.chunkType.bytes
      && r[8..8 + n] == c.data
      && FromBeBytes(r[8 + n..12 + n]) == Checksum(c.chunkType.bytes + c.data)
  {
    FieldsOfRecord(ToBeBytes(c.Length()), c.chunkType.bytes, c.data, ToBeBytes(c.Crc()));
    FromToBeBytes(c.Length());
    FromToBeBytes(c.Crc());
  }

  /** Where the four fields of a record sit. */
  lemma FieldsOfRecord(length: seq<u8>, chunkType: seq<u8>, data: seq<u8>, crc: seq<u8>)
    requires |length| == 4 && |chunkType| == 4 && |crc| == 4
    ensures var r, n := length + chunkType + data + crc, |data|;
      && r[0..4] == length
      && r[4..8] == chunkType
      && r[8..8 + n] == data
      && r[8 + n..12 + n] == crc
  {
  }

  /** Round trip: a chunk with a valid type and fewer than 2^32 data bytes
      parses back from its own bytes. */
  lemma ParseAsBytes(c: Chunk)
    requires c.chunkType.IsValid()
    requires |c.data| < U32Modulus
    ensures Parse(c.AsBytes()) == Ok(c)
  {
    AsBytesLayout(c);
  }

  /** A chunk whose type is not valid (as `from_str` can make) does not
      survive the round trip: parsing its bytes reports the type. */
  lemma ParseAsBytesInvalidType(c: Chunk)
    requires !c.chunkType.IsValid()
    ensures Parse(c.AsBytes()) == Err(ChunkError.InvalidChunkType)
  {
    AsBytesLayout(c);
  }

  /** Parsing ignores whatever follows the CRC: once the input is long enough
      for the fields it reads, more input changes nothing. */
  lemma ParseIgnoresTrailing(bytes: seq<u8>, rest: seq<u8>)
    requires Parse(bytes) != Err(IO)
    ensures Parse(bytes + rest) == Parse(bytes)
  {
    var all := bytes + rest;
    SliceOfPrefix(bytes, rest, 0, 4);
    SliceOfPrefix(bytes, rest, 4, 8);
    var length := FromBeBytes(bytes[0..4]) as int;
    if TryFromBytes(bytes[4..8]).Ok? {
      SliceOfPrefix(bytes, rest, 8, 8 + length);
      SliceOfPrefix(bytes, rest, 8 + length, 12 + length);
    }
  }

  lemma SliceOfPrefix(a: seq<u8>, b: seq<u8>, i: nat, j: nat)
    requires i <= j <= |a|
    ensures (a + b)[i..j] == a[i..j]
  {
  }

  /** What parses is a valid chunk whose bytes begin the input. */
  lemma ParsedChunkBeginsInput(bytes: seq<u8>, c: Chunk)
    requires Parse(bytes) == Ok(c)
    ensures c.chunkType.IsValid() && |c.data| < U32Modulus
    ensures 12 + |c.data| <= |bytes| && bytes[..12 + |c.data|] == c.AsBytes()
  {
    ParsedType(bytes, c);
    ParsedData(bytes, c);
    ParsedNumbers(bytes, c);
    RecordFields(bytes, |c.data|);
  }

  /** The type field of a record that parsed to `c` is `c`'s valid type. */
  lemma ParsedType(bytes: seq<u8>, c: Chunk)
    requires Parse(bytes) == Ok(c)
    ensures 8 <= |bytes| && bytes[4..8] == c.chunkType.bytes && c.chunkType.IsValid()
  {
  }

  /** The length field of a record that parsed to `c` is the size of `c`'s
      data, and the data field is that data. */
  lemma ParsedData(bytes: seq<u8>, c: Chunk)
    requires Parse(bytes) == Ok(c)
    ensures 12 + |c.data| <= |bytes|
    ensures FromBeBytes(bytes[0..4]) as int == |c.data|
    ensures bytes[8..8 + |c.data|] == c.data
  {
  }

  /** The stored CRC of a record that parsed to `c` is `c`'s CRC. */
  lemma ParsedCrc(bytes: seq<u8>, c: Chunk)
    requires Parse(bytes) == Ok(c)
    ensures 12 + |c.data| <= |bytes|
    ensures FromBeBytes(bytes[8 + |c.data|..12 + |c.data|]) == c.Crc()
  {
  }

  /** The length and CRC fields of a record that parsed to `c` are the
      encodings of `c`'s length and CRC. */
  lemma ParsedNumbers(bytes: seq<u8>, c: Chunk)
    requires Parse(bytes) == Ok(c)
    ensures var n := |c.data|;
      && 12 + n <= |bytes|
      && bytes[0..4] == ToBeBytes(c.Length())
      && bytes[8 + n..12 + n] == ToBeBytes(c.Crc())
  {
    ParsedData(bytes, c);
    ParsedCrc(bytes, c);
    var n := |c.data|;
    assert c.Length() == FromBeBytes(bytes[0..4]);
    ToFromBeBytes(bytes[0..4]);
    ToFromBeBytes(bytes[8 + n..12 + n]);
  }

  /** A record of `n` data bytes is the concatenation of its four fields. */
  lemma RecordFields(bytes: seq<u8>, n: nat)
    requires 12 + n <= |bytes|
    ensures bytes[..12 + n] == bytes[0..4] + bytes[4..8] + bytes[8..8 + n] + bytes[8 + n..12 + n]
  {
  }

  /** An input that begins with the bytes of a valid chunk parses to it. */
  lemma InputBeginningWithChunkParses(bytes: seq<u8>, c: Chunk)
    requires c.chunkType.IsValid() && |c.data| < U32Modulus
    requires 12 + |c.data| <= |bytes| && bytes[..12 + |c.data|] == c.AsBytes()
    ensures Parse(bytes) == Ok(c)
  {
    var n := |c.data|;
    ParseAsBytes(c);
    ParseIgnoresTrailing(bytes[..12 + n], bytes[12 + n..]);
    assert bytes[..12 + n] + bytes[12 + n..] == bytes;
  }

  /** Parsing succeeds with `c` exactly when `c` has a valid type, fewer
      than 2^32 data bytes, and the input begins with `c.AsBytes()`. */
  lemma ParseOk(bytes: seq<u8>, c: Chunk)
    ensures Parse(bytes) == Ok(c) <==>
      && c.chunkType.IsValid()
      && |c.data| < U32Modulus
      && 12 + |c.data| <= |bytes|
      && bytes[..12 + |c.data|] == c.AsBytes()
  {
    if Parse(bytes) == Ok(c) {
      ParsedChunkBeginsInput(bytes, c);
    }
    if && c.chunkType.IsValid() && |c.data| < U32Modulus && 12 + |c.data| <= |bytes|
       && bytes[..12 + |c.data|] == c.AsBytes()
    {
      InputBeginningWithChunkParses(bytes, c);
    }
  }

  /** Short input: `IO` exactly when the length or the type field is cut
      short, or, past a valid type, the data or the CRC field is. */
  lemma ParseShortInput(bytes: seq<u8>)
    ensures Parse(bytes) == Err(IO) <==>
      || |bytes| < 8
      || (TryFromBytes(bytes[4..8]).Ok? && |bytes| < 12 + FromBeBytes(bytes[0..4]) as int)
  {
  }

  /** An invalid type is reported as soon as the type field is read, before
      the data: whatever follows byte 8, even nothing, gives the same error. */
  lemma ParseInvalidTypeFirst(bytes: seq<u8>, rest: seq<u8>)
    requires |bytes| == 8
    requires TryFromBytes(bytes[4..8]).Err?
    ensures Parse(bytes) == Err(ChunkError.InvalidChunkType)
    ensures Parse(bytes + rest) == Err(ChunkError.InvalidChunkType)
  {
    assert (bytes + rest)[4..8] == bytes[4..8];
  }

  /** `CrcMismatch` exactly when every field was read and the stored CRC is
      not the CRC of bytes 4 to 8 + L of the input, the type code and the
      data: the length field is not covered. */
  lemma ParseCrcMismatch(bytes: seq<u8>)
    ensures Parse(bytes) == Err(CrcMismatch) <==>
      && 8 <= |bytes|
      && TryFromBytes(bytes[4..8]).Ok?
      && var length := FromBeBytes(bytes[0..4]) as int;
      && 12 + length <= |bytes|
      && Checksum(bytes[4..8 + length]) != FromBeBytes(bytes[8 + length..12 + length])
  {
    if 8 <= |bytes| {
      var length := FromBeBytes(bytes[0..4]) as int;
      if 12 + length <= |bytes| {
        assert bytes[4..8 + length] == bytes[4..8] + bytes[8..8 + length];
      }
    }
  }

  /** A record whose stored CRC is any value but the right one is refused
      with `CrcMismatch`, and no chunk comes back. */
  lemma ParseRejectsWrongCrc(c: Chunk, crc: u32)
    requires c.chunkType.IsValid()
    requires |c.data| < U32Modulus
    requires crc != c.Crc()
    ensures Parse(ToBeBytes(c.Length()) + c.chunkType.bytes + c.data + ToBeBytes(crc)) == Err(CrcMismatch)
  {
    var bytes := ToBeBytes(c.Length()) + c.chunkType.bytes + c.data + ToBeBytes(crc);
    var n := |c.data|;
    assert bytes[0..4] == ToBeBytes(c.Length());
    assert bytes[4..8] == c.chunkType.bytes;
    assert bytes[8..8 + n] == c.data;
    assert bytes[8 + n..12 + n] == ToBeBytes(crc);
    FromToBeBytes(c.Length());
    FromToBeBytes(crc);
  }
}
