/** ByteStreamFactory: the in-memory stream source over a byte array, and the
    read of one unit's bytes that both part performers build on it. */
module ByteStreams {
  import opened Common
  import opened Streams

  datatype ByteStreamFactory = ByteStreamFactory(data: seq<byte>)

  /** What newStreamWithOffset yields: a stream over `contents`, or the
      IOException "offset is bigger than data.length". */
  datatype OpenResult = Opened(contents: seq<byte>) | OffsetTooLarge

  function SizeOfStream(f: ByteStreamFactory): int
  {
    |f.data|
  }

  function LastModifyTime(f: ByteStreamFactory): int
  {
    0
  }

  /** newStreamWithOffset exactly as written: the stream is built over the
      array starting at index 0, with length |data| - offset. */
  function NewStreamWithOffsetAsWritten(f: ByteStreamFactory, offset: nat): OpenResult
  {
    if offset >= |f.data| then OffsetTooLarge else Opened(f.data[..|f.data| - offset])
  }

  /** newStreamWithOffset as its name and its callers mean it: the stream
      holds the bytes of the array from `offset` on. It fails exactly when
      the offset is not inside the array. */
  function NewStreamWithOffset(f: ByteStreamFactory, offset: nat): (r: OpenResult)
    ensures r.OffsetTooLarge? <==> offset >= SizeOfStream(f)
    ensures r.Opened? ==> |r.contents| == SizeOfStream(f) - offset
    ensures r.Opened? ==> forall k :: 0 <= k < |r.contents| ==> r.contents[k] == f.data[offset + k]
  {
    if offset >= |f.data| then OffsetTooLarge else Opened(f.data[offset..])
  }

  /** Both versions fail on the same offsets, have the same length, and agree
      at offset 0; as written, a stream opened inside the array always starts
      with the array's first byte, whatever the offset. */
  lemma AsWrittenStartsAtIndexZero(f: ByteStreamFactory, offset: nat)
    ensures NewStreamWithOffsetAsWritten(f, offset).OffsetTooLarge? <==> NewStreamWithOffset(f, offset).OffsetTooLarge?
    ensures NewStreamWithOffsetAsWritten(f, offset).Opened? ==>
      |NewStreamWithOffsetAsWritten(f, offset).contents| == |NewStreamWithOffset(f, offset).contents| &&
      NewStreamWithOffsetAsWritten(f, offset).contents[0] == f.data[0]
    ensures offset == 0 ==> NewStreamWithOffsetAsWritten(f, offset) == NewStreamWithOffset(f, offset)
  {
  }

  /** The array [7, 9] opened at offset 1: as written the stream yields [7],
      while the byte at offset 1 is 9. */
  lemma AsWrittenReadsWrongBytes()
    ensures NewStreamWithOffsetAsWritten(ByteStreamFactory([7, 9]), 1) == Opened([7])
    ensures NewStreamWithOffset(ByteStreamFactory([7, 9]), 1) == Opened([9])
  {
    assert [7, 9][..1] == [7 as byte];
    assert [7, 9][1..] == [9 as byte];
  }

  /** The decimal digits of n, as String.valueOf(long) writes a non-negative value. */
  function DecimalString(n: nat): string
  {
    if n < 10 then [DigitChar(n)] else DecimalString(n / 10) + [DigitChar(n % 10)]
  }

  function DigitChar(d: nat): char
    requires d < 10
  {
    ('0' as int + d) as char
  }

  /** The value of a string of decimal digits. */
  function ParseDecimal(s: string): int
  {
    if s == [] then 0 else 10 * ParseDecimal(s[..|s| - 1]) + (s[|s| - 1] as int - '0' as int)
  }

  /** Reading the decimal string back gives the number: DecimalString is
      one-to-one. */
  lemma {:induction false} DecimalRoundTrip(n: nat)
    ensures ParseDecimal(DecimalString(n)) == n
    ensures DecimalString(n) != [] && forall i :: 0 <= i < |DecimalString(n)| ==> '0' <= DecimalString(n)[i] <= '9'
  {
    if n >= 10 {
      DecimalRoundTrip(n / 10);
      var s := DecimalString(n);
      assert s[..|s| - 1] == DecimalString(n / 10);
    }
  }

  /** identity(): the decimal string of a checksum of the array. Crc32 is not
      part of this model and is passed in as `checksum`. */
  function Identity(checksum: seq<byte> -> nat, f: ByteStreamFactory): string
  {
    DecimalString(checksum(f.data))
  }

  /** Two factories have the same identity exactly when their arrays have the
      same checksum; in particular equal arrays have equal identities. */
  lemma IdentityMatchesChecksum(checksum: seq<byte> -> nat, f: ByteStreamFactory, g: ByteStreamFactory)
    ensures Identity(checksum, f) == Identity(checksum, g) <==> checksum(f.data) == checksum(g.data)
  {
    DecimalRoundTrip(checksum(f.data));
    DecimalRoundTrip(checksum(g.data));
  }

  /** The StreamInfo the core reads of a ByteStreamFactory. */
  function Info(checksum: seq<byte> -> nat, f: ByteStreamFactory): StreamInfo
  {
    StreamInfo(SizeOfStream(f), LastModifyTime(f), Identity(checksum, f))
  }

  /** The bytes getDataWithChunk / getUploadData return for a unit at
      absolute `offset` of `size` bytes: none without a factory or when the
      stream cannot be opened, otherwise what StreamUtils.read makes of the
      opened stream. */
  function UnitBytes(factory: Option<ByteStreamFactory>, offset: nat, size: nat): Option<seq<byte>>
  {
    if factory.None? then None
    else match NewStreamWithOffset(factory.value, offset)
      case OffsetTooLarge => None
      case Opened(contents) => Some(Filled(contents, size))
  }

  /** A unit that lies inside the array reads back exactly its own bytes. */
  lemma UnitBytesInside(f: ByteStreamFactory, offset: nat, size: nat)
    requires offset < offset + size <= |f.data|
    ensures UnitBytes(Some(f), offset, size) == Some(f.data[offset..offset + size])
  {
    assert f.data[offset..][..size] == f.data[offset..offset + size];
  }

  /** Opens the stream at `offset` and reads `size` bytes from it with
      StreamUtils.read; the stream delivers at most `burst` bytes per call. */
  method ReadUnit(factory: Option<ByteStreamFactory>, offset: nat, size: nat, burst: nat) returns (data: Option<seq<byte>>)
    requires burst > 0
    ensures data == UnitBytes(factory, offset, size)
  {
    if factory.None? {
      return None;
    }
    var result := NewStreamWithOffset(factory.value, offset);
    if result.OffsetTooLarge? {
      return None;
    }
    var stream := new InputStream(result.contents, burst);
    var buffer := ReadFully(stream, size);
    data := Some(buffer[..]);
  }
}
