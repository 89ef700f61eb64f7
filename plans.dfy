/** The chunk plan records both part performers work on: UploadData (a chunk
    or a part), UploadBlock, and the file infos of the two protocols. The
    classes UploadFileInfoPartV1 and UploadFileInfoPartV2 are not part of
    this model; these records carry only the fields the performers touch,
    and the default layouts are reconstructions of those classes'
    constructors: units that tile the stream in order. */
module Plans {
  import opened Common
  import opened ByteStreams

  /** One unit: a chunk of a block (V1) or a part (V2). `offset` is relative
      to its block for a chunk and absolute for a part. `payload` is the byte
      buffer held only while the unit is being sent. */
  datatype UploadData = UploadData(
    offset: nat,
    size: nat,
    index: nat,
    isUploading: bool,
    isCompleted: bool,
    etag: Option<string>,
    payload: Option<seq<byte>>)

  /** A unit that is neither being sent nor done. */
  predicate IsPending(d: UploadData)
  {
    !d.isUploading && !d.isCompleted
  }

  /** UploadData.isFirstData(): the first chunk of its block. */
  predicate IsFirstData(d: UploadData)
  {
    d.index == 0
  }

  /** A block of the legacy protocol with the latest context token the server
      returned for it. */
  datatype UploadBlock = UploadBlock(
    offset: nat,
    size: nat,
    index: nat,
    context: Option<string>,
    chunks: seq<UploadData>)

  /** UploadFileInfoPartV1: the stream's size and modification time and its blocks. */
  datatype FileInfoV1 = FileInfoV1(size: nat, modifyTime: int, blocks: seq<UploadBlock>)

  /** UploadFileInfoPartV2: the parts and the server session (id and expiry). */
  datatype FileInfoV2 = FileInfoV2(
    size: nat,
    dataSize: nat,
    modifyTime: int,
    uploadId: Option<string>,
    expireAt: Option<int>,
    parts: seq<UploadData>)

  function Fresh(offset: nat, size: nat, index: nat): UploadData
  {
    UploadData(offset, size, index, false, false, None, None)
  }

  /** Pending units of at most `unit` bytes covering [from, total), numbered
      from `index` on. */
  function Split(total: nat, unit: nat, from: nat, index: nat): seq<UploadData>
    requires unit > 0 && from <= total
    decreases total - from
  {
    if from == total then []
    else
      var size := Min(unit, total - from);
      [Fresh(from, size, index)] + Split(total, unit, from + size, index + 1)
  }

  /** Blocks of BlockSize bytes covering [from, total), each split into chunks
      of `chunkSize` bytes. */
  function SplitBlocks(total: nat, chunkSize: nat, from: nat, index: nat): seq<UploadBlock>
    requires chunkSize > 0 && from <= total
    decreases total - from
  {
    if from == total then []
    else
      var size := Min(BlockSize, total - from);
      [UploadBlock(from, size, index, None, Split(size, chunkSize, 0, 0))] + SplitBlocks(total, chunkSize, from + size, index + 1)
  }

  /** new UploadFileInfoPartV1(size, BlockSize, chunkSize, modifyTime). */
  function DefaultFileInfoV1(info: StreamInfo, chunkSize: nat): FileInfoV1
    requires info.size >= 0 && chunkSize > 0
  {
    FileInfoV1(info.size, info.lastModified, SplitBlocks(info.size, chunkSize, 0, 0))
  }

  /** new UploadFileInfoPartV2(size, dataSize, modifyTime); parts are numbered
      from 1, as the part protocol numbers them. */
  function DefaultFileInfoV2(info: StreamInfo, dataSize: nat): FileInfoV2
    requires info.size >= 0 && dataSize > 0
  {
    FileInfoV2(info.size, dataSize, info.lastModified, None, None, Split(info.size, dataSize, 0, 1))
  }

  /** nextUploadData: the first pending unit, if any. */
  function FirstPending(chunks: seq<UploadData>): (r: Option<nat>)
    ensures r.Some? ==> r.value < |chunks| && IsPending(chunks[r.value]) &&
                        forall k :: 0 <= k < r.value ==> !IsPending(chunks[k])
    ensures r.None? ==> forall k :: 0 <= k < |chunks| ==> !IsPending(chunks[k])
  {
    if chunks == [] then None
    else if IsPending(chunks[0]) then Some(0)
    else match FirstPending(chunks[1..])
      case None => None
      case Some(k) => Some(k + 1)
  }

  /** Number of completed units. */
  function CompletedIn(chunks: seq<UploadData>): nat
  {
    if chunks == [] then 0 else (if chunks[0].isCompleted then 1 else 0) + CompletedIn(chunks[1..])
  }

  lemma {:induction false} CompletedInUpdate(chunks: seq<UploadData>, c: nat, d: UploadData)
    requires c < |chunks|
    ensures CompletedIn(chunks[c := d]) + (if chunks[c].isCompleted then 1 else 0) ==
      CompletedIn(chunks) + (if d.isCompleted then 1 else 0)
  {
    if c > 0 {
      assert chunks[c := d][1..] == chunks[1..][c - 1 := d];
      CompletedInUpdate(chunks[1..], c - 1, d);
    } else {
      assert chunks[c := d][1..] == chunks[1..];
    }
  }

  /** `units` cover [from, to) in order, without gaps or overlaps, and none is empty. */
  predicate Tiles(units: seq<UploadData>, from: nat, to: nat)
    ensures Tiles(units, from, to) ==> from <= to && forall k :: 0 <= k < |units| ==>
      from <= units[k].offset && units[k].offset + units[k].size <= to
  {
    if units == [] then from == to
    else units[0].offset == from && units[0].size > 0 && Tiles(units[1..], from + units[0].size, to)
  }

  /** The same for blocks, whose chunks tile each block from 0. */
  predicate TilesBlocks(blocks: seq<UploadBlock>, from: nat, to: nat)
  {
    if blocks == [] then from == to
    else
      blocks[0].offset == from && blocks[0].size > 0 && Tiles(blocks[0].chunks, 0, blocks[0].size) &&
      TilesBlocks(blocks[1..], from + blocks[0].size, to)
  }

  /** Every split tiles its range, is pending, and numbers its units in order. */
  lemma {:induction false} SplitTiles(total: nat, unit: nat, from: nat, index: nat)
    requires unit > 0 && from <= total
    ensures Tiles(Split(total, unit, from, index), from, total)
    ensures forall k :: 0 <= k < |Split(total, unit, from, index)| ==>
      Split(total, unit, from, index)[k].index == index + k && IsPending(Split(total, unit, from, index)[k]) &&
      Split(total, unit, from, index)[k].size <= unit
    decreases total - from
  {
    if from < total {
      var size := Min(unit, total - from);
      SplitTiles(total, unit, from + size, index + 1);
    }
  }

  lemma {:induction false} SplitBlocksTile(total: nat, chunkSize: nat, from: nat, index: nat)
    requires chunkSize > 0 && from <= total
    ensures TilesBlocks(SplitBlocks(total, chunkSize, from, index), from, total)
    ensures forall k :: 0 <= k < |SplitBlocks(total, chunkSize, from, index)| ==>
      SplitBlocks(total, chunkSize, from, index)[k].context.None? &&
      SplitBlocks(total, chunkSize, from, index)[k].size <= BlockSize
    decreases total - from
  {
    if from < total {
      var size := Min(BlockSize, total - from);
      SplitTiles(size, chunkSize, 0, 0);
      SplitBlocksTile(total, chunkSize, from + size, index + 1);
    }
  }

  /** The default plans tile the whole stream: the V1 blocks cover
      [0, size) and each block's chunks cover the block; the V2 parts cover
      [0, size) and are numbered 1, 2, 3, ... */
  lemma DefaultPlansTile(info: StreamInfo, chunkSize: nat)
    requires info.size >= 0 && chunkSize > 0
    ensures TilesBlocks(DefaultFileInfoV1(info, chunkSize).blocks, 0, info.size)
    ensures Tiles(DefaultFileInfoV2(info, chunkSize).parts, 0, info.size)
    ensures forall k :: 0 <= k < |DefaultFileInfoV2(info, chunkSize).parts| ==>
      DefaultFileInfoV2(info, chunkSize).parts[k].index == k + 1
  {
    SplitBlocksTile(info.size, chunkSize, 0, 0);
    SplitTiles(info.size, chunkSize, 0, 1);
  }

  /** A stream one byte shorter than a block, cut into block-sized chunks (as
      with concurrent resume), is one block of one chunk, and that chunk is
      the block's first, so it goes through make-block. */
  lemma OneBlockShortOfFull(info: StreamInfo)
    requires info.size == BlockSize - 1
    ensures |DefaultFileInfoV1(info, BlockSize).blocks| == 1
    ensures |DefaultFileInfoV1(info, BlockSize).blocks[0].chunks| == 1
    ensures IsFirstData(DefaultFileInfoV1(info, BlockSize).blocks[0].chunks[0])
  {
    var size := Min(BlockSize, info.size);
    assert SplitBlocks(info.size, BlockSize, size, 1) == [];
    assert Split(size, BlockSize, size, 1) == [];
  }

  /** The bytes the performers read for `units`, one unit at a time at its
      absolute offset (`base` plus its own), put end to end; none as soon as
      one read fails. */
  function ReadAll(f: ByteStreamFactory, units: seq<UploadData>, base: nat): Option<seq<byte>>
  {
    if units == [] then Some([])
    else
      match UnitBytes(Some(f), base + units[0].offset, units[0].size)
      case None => None
      case Some(head) =>
        match ReadAll(f, units[1..], base)
        case None => None
        case Some(tail) => Some(head + tail)
  }

  /** Reading every unit of a tiling of [from, to) inside the array gives
      back exactly the array's bytes [base + from, base + to). */
  lemma {:induction false} ReadBackTiling(f: ByteStreamFactory, units: seq<UploadData>, base: nat, from: nat, to: nat)
    requires Tiles(units, from, to) && base + to <= |f.data|
    ensures ReadAll(f, units, base) == Some(f.data[base + from..base + to])
  {
    if units != [] {
      var size := units[0].size;
      assert units[0].offset == from && size > 0 && Tiles(units[1..], from + size, to);
      ReadBackTiling(f, units[1..], base, from + size, to);
      UnitBytesInside(f, base + from, size);
      assert UnitBytes(Some(f), base + units[0].offset, size) == Some(f.data[base + from..base + from + size]);
      assert f.data[base + from..base + to] ==
        f.data[base + from..base + from + size] + f.data[base + from + size..base + to];
    } else {
      assert f.data[base + from..base + to] == [];
    }
  }

  /** The bytes read for every chunk of every block, each chunk at absolute
      offset block.offset + chunk.offset, put end to end. */
  function ReadAllBlocks(f: ByteStreamFactory, blocks: seq<UploadBlock>): Option<seq<byte>>
  {
    if blocks == [] then Some([])
    else
      match ReadAll(f, blocks[0].chunks, blocks[0].offset)
      case None => None
      case Some(head) =>
        match ReadAllBlocks(f, blocks[1..])
        case None => None
        case Some(tail) => Some(head + tail)
  }

  lemma {:induction false} ReadBackBlocks(f: ByteStreamFactory, blocks: seq<UploadBlock>, from: nat, to: nat)
    requires TilesBlocks(blocks, from, to) && to <= |f.data|
    ensures from <= to
    ensures ReadAllBlocks(f, blocks) == Some(f.data[from..to])
  {
    if blocks != [] {
      var b := blocks[0];
      assert b.offset == from && Tiles(b.chunks, 0, b.size) && TilesBlocks(blocks[1..], from + b.size, to);
      ReadBackBlocks(f, blocks[1..], from + b.size, to);
      ReadBackTiling(f, b.chunks, b.offset, 0, b.size);
      assert f.data[from..to] == f.data[from..from + b.size] + f.data[from + b.size..to];
    } else {
      assert f.data[from..to] == [];
    }
  }

  /** Every chunk of the default V1 plan of an in-memory stream, read at
      block offset plus chunk offset, gives the array back in order. */
  lemma DefaultChunksReadBack(f: ByteStreamFactory, checksum: seq<byte> -> nat, chunkSize: nat)
    requires chunkSize > 0
    ensures ReadAllBlocks(f, DefaultFileInfoV1(Info(checksum, f), chunkSize).blocks) == Some(f.data)
  {
    SplitBlocksTile(|f.data|, chunkSize, 0, 0);
    ReadBackBlocks(f, DefaultFileInfoV1(Info(checksum, f), chunkSize).blocks, 0, |f.data|);
    assert f.data[0..|f.data|] == f.data;
  }

  /** Every part of the default V2 plan of an in-memory stream reads back as
      its own slice of the array, and the parts put end to end are the whole
      array. */
  lemma DefaultPartsReadBack(f: ByteStreamFactory, checksum: seq<byte> -> nat, dataSize: nat)
    requires dataSize > 0
    ensures ReadAll(f, DefaultFileInfoV2(Info(checksum, f), dataSize).parts, 0) == Some(f.data)
  {
    SplitTiles(|f.data|, dataSize, 0, 1);
    ReadBackTiling(f, DefaultFileInfoV2(Info(checksum, f), dataSize).parts, 0, 0, |f.data|);
    assert f.data[0..|f.data|] == f.data;
  }

  /** With the factory as written, the second part of a two-byte array cut
      into one-byte parts reads back the first byte instead of its own. */
  lemma AsWrittenSecondPartWrong()
    ensures Split(2, 1, 0, 1)[1].offset == 1
    ensures NewStreamWithOffsetAsWritten(ByteStreamFactory([7, 9]), Split(2, 1, 0, 1)[1].offset) == Opened([7])
    ensures UnitBytes(Some(ByteStreamFactory([7, 9])), Split(2, 1, 0, 1)[1].offset, 1) == Some([9])
  {
    AsWrittenReadsWrongBytes();
    assert Split(2, 1, 0, 1)[1] == Fresh(1, 1, 2);
    UnitBytesInside(ByteStreamFactory([7, 9]), 1, 1);
    assert [7 as byte, 9][1..2] == [9];
  }
}
