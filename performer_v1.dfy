/** PartsUploadPerformerV1: the legacy block/chunk protocol. The first chunk of
    a block is sent with make-block, every later chunk with upload-chunk
    carrying the block's latest context token. */
module PerformerV1 {
  import opened Common
  import opened ByteStreams
  import opened Plans

  /** The wire operation a chunk is sent with. */
  datatype ChunkRequest =
    | MakeBlock(blockOffset: nat, blockSize: nat, payload: seq<byte>)
    | UploadChunk(context: Option<string>, blockOffset: nat, payload: seq<byte>, chunkOffset: nat)

  /** What uploadNextData does before any response: it either finishes at
      once, telling its handler `isEnd` and the response, or sends `request`
      for chunk `chunk` of block `block`. */
  datatype Dispatch =
    | Finished(isEnd: bool, info: ResponseInfo)
    | Send(block: nat, chunk: nat, request: ChunkRequest)

  /** The finishing make-file request: total size, file name and the block
      contexts, or none when there are no blocks. */
  datatype MakeFileRequest = MakeFile(size: nat, fileName: string, contexts: Option<seq<Option<string>>>)

  /** getUploadChunkSize: the whole block when concurrent resume is on, the
      configured chunk size otherwise. */
  function UploadChunkSize(config: Configuration): nat
  {
    if config.useConcurrentResumeUpload then BlockSize else config.chunkSize
  }

  /** getDefaultUploadFileInfo: 4 MiB blocks cut into chunks of
      UploadChunkSize. */
  function DefaultUploadFileInfo(info: StreamInfo, config: Configuration): FileInfoV1
    requires info.size >= 0 && config.chunkSize > 0
  {
    DefaultFileInfoV1(info, UploadChunkSize(config))
  }

  /** The default plan keeps the stream's size and time, its blocks tile the
      stream and are at most 4 MiB each, every chunk is at most the upload
      chunk size (the configured chunk size without concurrent resume), and
      with concurrent resume every block is a single chunk. */
  lemma DefaultUploadFileInfoShape(info: StreamInfo, config: Configuration)
    requires info.size >= 0 && config.chunkSize > 0
    ensures var r := DefaultUploadFileInfo(info, config);
      r.size == info.size && r.modifyTime == info.lastModified &&
      TilesBlocks(r.blocks, 0, info.size) &&
      (forall b :: 0 <= b < |r.blocks| ==> r.blocks[b].size <= BlockSize && r.blocks[b].context.None?) &&
      (forall b, c :: 0 <= b < |r.blocks| && 0 <= c < |r.blocks[b].chunks| ==>
         r.blocks[b].chunks[c].size <= UploadChunkSize(config)) &&
      (!config.useConcurrentResumeUpload ==>
         forall b, c :: 0 <= b < |r.blocks| && 0 <= c < |r.blocks[b].chunks| ==> r.blocks[b].chunks[c].size <= config.chunkSize) &&
      (config.useConcurrentResumeUpload ==> forall b :: 0 <= b < |r.blocks| ==> |r.blocks[b].chunks| == 1)
  {
    var r := DefaultUploadFileInfo(info, config);
    SplitBlocksTile(info.size, UploadChunkSize(config), 0, 0);
    SplitBlocksChunks(info.size, UploadChunkSize(config), 0, 0);
    forall b | 0 <= b < |r.blocks|
      ensures forall c :: 0 <= c < |r.blocks[b].chunks| ==> r.blocks[b].chunks[c].size <= UploadChunkSize(config)
    {
      SplitTiles(r.blocks[b].size, UploadChunkSize(config), 0, 0);
    }
    if config.useConcurrentResumeUpload {
      SplitBlocksChunks(info.size, BlockSize, 0, 0);
      forall b | 0 <= b < |r.blocks| ensures |r.blocks[b].chunks| == 1 {
        OneChunkPerBlock(r.blocks, 0, info.size, b);
      }
    }
  }

  lemma {:induction false} SplitBlocksChunks(total: nat, chunkSize: nat, from: nat, index: nat)
    requires chunkSize > 0 && from <= total
    ensures forall k :: 0 <= k < |SplitBlocks(total, chunkSize, from, index)| ==>
      SplitBlocks(total, chunkSize, from, index)[k].chunks == Split(SplitBlocks(total, chunkSize, from, index)[k].size, chunkSize, 0, 0)
    decreases total - from
  {
    if from < total {
      SplitBlocksChunks(total, chunkSize, from + Min(BlockSize, total - from), index + 1);
    }
  }

  /** When chunks are block-sized, every block of a tiling whose blocks are
      at most a block long is a single chunk. */
  lemma {:induction false} OneChunkPerBlock(blocks: seq<UploadBlock>, from: nat, to: nat, b: nat)
    requires TilesBlocks(blocks, from, to) && b < |blocks|
    requires forall k :: 0 <= k < |blocks| ==> blocks[k].size <= BlockSize && blocks[k].chunks == Split(blocks[k].size, BlockSize, 0, 0)
    ensures |blocks[b].chunks| == 1
  {
    if b == 0 {
      var size := blocks[0].size;
      assert size > 0;
      assert Split(size, BlockSize, size, 1) == [];
    } else {
      OneChunkPerBlock(blocks[1..], from + blocks[0].size, to, b - 1);
    }
  }

  /** nextUploadBlock / nextUploadData: the first block that still has a
      pending chunk, and that block's first pending chunk. */
  function NextChunk(blocks: seq<UploadBlock>): (r: Option<(nat, nat)>)
    ensures r.Some? ==> (r.value.0 < |blocks| && r.value.1 < |blocks[r.value.0].chunks| &&
                         IsPending(blocks[r.value.0].chunks[r.value.1]) &&
                         FirstPending(blocks[r.value.0].chunks) == Some(r.value.1) &&
                         forall b :: 0 <= b < r.value.0 ==> FirstPending(blocks[b].chunks).None?)
    ensures r.None? ==> forall b, c :: 0 <= b < |blocks| && 0 <= c < |blocks[b].chunks| ==> !IsPending(blocks[b].chunks[c])
  {
    if blocks == [] then None
    else match FirstPending(blocks[0].chunks)
      case Some(c) => Some((0, c))
      case None =>
        match NextChunk(blocks[1..])
        case None => None
        case Some(p) => Some((p.0 + 1, p.1))
  }

  /** The plan with one chunk replaced. */
  function SetChunk(blocks: seq<UploadBlock>, b: nat, c: nat, d: UploadData): seq<UploadBlock>
    requires b < |blocks| && c < |blocks[b].chunks|
  {
    blocks[b := blocks[b].(chunks := blocks[b].chunks[c := d])]
  }

  lemma SetChunkTwice(blocks: seq<UploadBlock>, b: nat, c: nat, d1: UploadData, d2: UploadData)
    requires b < |blocks| && c < |blocks[b].chunks|
    ensures SetChunk(SetChunk(blocks, b, c, d1), b, c, d2) == SetChunk(blocks, b, c, d2)
  {
    assert blocks[b].chunks[c := d1][c := d2] == blocks[b].chunks[c := d2];
  }

  /** The request for chunk `d` of block `blk`: make-block with the block's
      offset and size for its first chunk, upload-chunk with the block's
      context, its offset and the chunk's offset for any other. */
  function RequestFor(blk: UploadBlock, d: UploadData, payload: seq<byte>): (r: ChunkRequest)
    ensures r.MakeBlock? <==> IsFirstData(d)
    ensures r.blockOffset == blk.offset && r.payload == payload
    ensures r.MakeBlock? ==> r.blockSize == blk.size
    ensures r.UploadChunk? ==> r.context == blk.context && r.chunkOffset == d.offset
  {
    if IsFirstData(d) then MakeBlock(blk.offset, blk.size, payload)
    else UploadChunk(blk.context, blk.offset, payload, d.offset)
  }

  /** The plan after the response to chunk (b, c): the payload is dropped;
      on an OK response with a context the block takes that context and the
      chunk is completed, otherwise the chunk goes back to idle. */
  function AfterResponse(blocks: seq<UploadBlock>, b: nat, c: nat, info: ResponseInfo, ctx: Option<string>): seq<UploadBlock>
    requires b < |blocks| && c < |blocks[b].chunks|
  {
    var d := blocks[b].chunks[c];
    if info.isOK && ctx.Some? then
      var blk := blocks[b].(context := ctx, chunks := blocks[b].chunks[c := d.(payload := None, isUploading := false, isCompleted := true)]);
      blocks[b := blk]
    else
      SetChunk(blocks, b, c, d.(payload := None, isUploading := false, isCompleted := false))
  }

  /** Number of completed chunks in the plan. */
  function Completed(blocks: seq<UploadBlock>): nat
  {
    if blocks == [] then 0 else CompletedIn(blocks[0].chunks) + Completed(blocks[1..])
  }

  lemma {:induction false} CompletedUpdate(blocks: seq<UploadBlock>, b: nat, blk: UploadBlock)
    requires b < |blocks|
    ensures Completed(blocks[b := blk]) + CompletedIn(blocks[b].chunks) == Completed(blocks) + CompletedIn(blk.chunks)
  {
    if b > 0 {
      assert blocks[b := blk][1..] == blocks[1..][b - 1 := blk];
      CompletedUpdate(blocks[1..], b - 1, blk);
    } else {
      assert blocks[b := blk][1..] == blocks[1..];
    }
  }

  /** The response to a chunk that was being sent: it is completed and its
      block's context becomes the returned one exactly when the response is
      OK and carries a context; then one more chunk counts as completed.
      Otherwise the chunk is idle again, the context is kept and the count
      does not move. Either way the payload is dropped and no other chunk or
      block changes. */
  lemma ResponseOutcome(blocks: seq<UploadBlock>, b: nat, c: nat, info: ResponseInfo, ctx: Option<string>)
    requires b < |blocks| && c < |blocks[b].chunks|
    requires blocks[b].chunks[c].isUploading && !blocks[b].chunks[c].isCompleted
    ensures var r := AfterResponse(blocks, b, c, info, ctx);
      |r| == |blocks| && |r[b].chunks| == |blocks[b].chunks| &&
      r[b].chunks[c].payload.None? && !r[b].chunks[c].isUploading &&
      (r[b].chunks[c].isCompleted <==> info.isOK && ctx.Some?) &&
      (r[b].context == if info.isOK && ctx.Some? then ctx else blocks[b].context) &&
      Completed(r) == Completed(blocks) + (if info.isOK && ctx.Some? then 1 else 0) &&
      (forall k :: 0 <= k < |blocks| && k != b ==> r[k] == blocks[k]) &&
      (forall k :: 0 <= k < |blocks[b].chunks| && k != c ==> r[b].chunks[k] == blocks[b].chunks[k])
  {
    var d := blocks[b].chunks[c];
    var ok := info.isOK && ctx.Some?;
    var d' := d.(payload := None, isUploading := false, isCompleted := ok);
    var blk := blocks[b].(context := if ok then ctx else blocks[b].context, chunks := blocks[b].chunks[c := d']);
    assert AfterResponse(blocks, b, c, info, ctx) == blocks[b := blk];
    CompletedInUpdate(blocks[b].chunks, c, d');
    CompletedUpdate(blocks, b, blk);
  }

  /** completeUpload: make-file with the total size, the file name and the
      blocks' contexts in block order, or no contexts for an empty plan. */
  function CompleteRequest(info: FileInfoV1, fileName: string): (r: MakeFileRequest)
    ensures r.size == info.size && r.fileName == fileName
    ensures r.contexts.None? <==> |info.blocks| == 0
    ensures r.contexts.Some? ==> |r.contexts.value| == |info.blocks| &&
                                 forall k :: 0 <= k < |info.blocks| ==> r.contexts.value[k] == info.blocks[k].context
  {
    var contexts := seq(|info.blocks|, k requires 0 <= k < |info.blocks| => info.blocks[k].context);
    MakeFile(info.size, fileName, if |contexts| > 0 then Some(contexts) else None)
  }

  /** serverInit: the legacy protocol needs no session, so it succeeds at
      once without any request. */
  function ServerInit(): (r: ResponseInfo)
    ensures r.isOK && r.status == Http(200)
  {
    SuccessResponse()
  }

  class PartsUploadPerformerV1 {
    const config: Configuration
    const fileName: string
    const factory: Option<ByteStreamFactory>
    var fileInfo: FileInfoV1

    constructor (config: Configuration, fileName: string, factory: Option<ByteStreamFactory>, fileInfo: FileInfoV1)
      ensures this.config == config && this.fileName == fileName && this.factory == factory
      ensures this.fileInfo == fileInfo
    {
      this.config := config;
      this.fileName := fileName;
      this.factory := factory;
      this.fileInfo := fileInfo;
    }

    /** getDataWithChunk: the chunk's bytes, read from absolute offset
        block.offset + chunk.offset. */
    method GetDataWithChunk(d: UploadData, blk: UploadBlock, burst: nat) returns (data: Option<seq<byte>>)
      requires burst > 0
      ensures data == UnitBytes(factory, blk.offset + d.offset, d.size)
    {
      data := ReadUnit(factory, d.offset + blk.offset, d.size, burst);
    }

    /** uploadNextData up to the request: picks the next pending chunk and
        marks it uploading; with no chunk left it ends with an interior
        error, and when the chunk's bytes cannot be read it resets the chunk
        and ends with a local IO error. Otherwise the chunk holds its bytes
        and the request is make-block or upload-chunk. */
    method UploadNextData(burst: nat) returns (r: Dispatch)
      requires burst > 0
      modifies this`fileInfo
      ensures fileInfo.size == old(fileInfo.size) && fileInfo.modifyTime == old(fileInfo.modifyTime)
      ensures match NextChunk(old(fileInfo.blocks))
        case None =>
          r == Finished(true, LocalError(SdkInteriorError)) && fileInfo == old(fileInfo)
        case Some(p) =>
          var blk := old(fileInfo.blocks)[p.0];
          var d := blk.chunks[p.1];
          match UnitBytes(factory, blk.offset + d.offset, d.size)
          case None =>
            r == Finished(true, LocalError(LocalIOError)) &&
            fileInfo.blocks == SetChunk(old(fileInfo.blocks), p.0, p.1, d.(isUploading := false, isCompleted := false, payload := None))
          case Some(bytes) =>
            r == Send(p.0, p.1, RequestFor(blk, d, bytes)) &&
            fileInfo.blocks == SetChunk(old(fileInfo.blocks), p.0, p.1, d.(isUploading := true, isCompleted := false, payload := Some(bytes)))
    {
      var next := NextChunk(fileInfo.blocks);
      if next.None? {
        return Finished(true, LocalError(SdkInteriorError));
      }
      var b, c := next.value.0, next.value.1;
      var blk := fileInfo.blocks[b];
      var d := blk.chunks[c].(isUploading := true, isCompleted := false);
      fileInfo := fileInfo.(blocks := SetChunk(fileInfo.blocks, b, c, d));
      var data := GetDataWithChunk(d, blk, burst);
      if data.None? {
        SetChunkTwice(old(fileInfo.blocks), b, c, d, d.(isUploading := false, isCompleted := false, payload := None));
        d := d.(isUploading := false, isCompleted := false, payload := None);
        fileInfo := fileInfo.(blocks := SetChunk(fileInfo.blocks, b, c, d));
        return Finished(true, LocalError(LocalIOError));
      }
      SetChunkTwice(old(fileInfo.blocks), b, c, d, d.(payload := data));
      d := d.(payload := data);
      fileInfo := fileInfo.(blocks := SetChunk(fileInfo.blocks, b, c, d));
      r := Send(b, c, RequestFor(blk, d, data.value));
    }

    /** The completion handler of a chunk's request; it always tells its own
        handler isEnd = false. */
    method OnChunkResponse(b: nat, c: nat, info: ResponseInfo, ctx: Option<string>) returns (isEnd: bool)
      requires b < |fileInfo.blocks| && c < |fileInfo.blocks[b].chunks|
      modifies this`fileInfo
      ensures !isEnd
      ensures fileInfo == old(fileInfo).(blocks := AfterResponse(old(fileInfo.blocks), b, c, info, ctx))
    {
      var d := fileInfo.blocks[b].chunks[c].(payload := None);
      if info.isOK && ctx.Some? {
        d := d.(isUploading := false, isCompleted := true);
        var blk := fileInfo.blocks[b].(context := ctx, chunks := fileInfo.blocks[b].chunks[c := d]);
        fileInfo := fileInfo.(blocks := fileInfo.blocks[b := blk]);
      } else {
        d := d.(isUploading := false, isCompleted := false);
        fileInfo := fileInfo.(blocks := SetChunk(fileInfo.blocks, b, c, d));
      }
      isEnd := false;
    }

    /** completeUpload's make-file request. */
    method CompleteUpload() returns (r: MakeFileRequest)
      ensures r == CompleteRequest(fileInfo, fileName)
    {
      r := CompleteRequest(fileInfo, fileName);
    }
  }
}
