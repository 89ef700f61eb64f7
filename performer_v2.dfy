/** PartsUploadPerformerV2: the part protocol. An init request opens an
    upload session (skipped when the restored plan is still valid), each part
    is sent with the session id and its part number, and a part counts as
    done only when the server returns both its etag and its md5. */
module PerformerV2 {
  import opened Common
  import opened ByteStreams
  import opened Plans

  /** serverInit before any response: either the plan is still valid and the
      handler is told `info` at once, or the init request is sent. */
  datatype InitDispatch = AlreadyValid(info: ResponseInfo) | SendInit

  /** The upload-part request: the session id, the part number and its bytes. */
  datatype PartRequest = UploadPart(uploadId: Option<string>, partIndex: nat, payload: seq<byte>)

  /** uploadNextData before any response: it finishes at once, telling its
      handler `isEnd` and the response, or sends `request` for part `part`. */
  datatype Dispatch =
    | Finished(isEnd: bool, info: ResponseInfo)
    | Send(part: nat, request: PartRequest)

  /** One entry of the complete-parts list: a part number and its etag. */
  datatype PartInfo = PartInfo(partNumber: nat, etag: Option<string>)

  /** The complete-parts request: file name, session id and the part list. */
  datatype CompletePartsRequest = CompleteParts(fileName: string, uploadId: Option<string>, parts: seq<PartInfo>)

  /** getDefaultUploadFileInfo: parts of config.chunkSize bytes. */
  function DefaultUploadFileInfo(info: StreamInfo, config: Configuration): FileInfoV2
    requires info.size >= 0 && config.chunkSize > 0
  {
    DefaultFileInfoV2(info, config.chunkSize)
  }

  /** The default plan keeps the stream's size and time, has no session yet,
      and its parts tile the stream, are pending, are at most chunkSize bytes
      and are numbered 1, 2, 3, ... */
  lemma DefaultUploadFileInfoShape(info: StreamInfo, config: Configuration)
    requires info.size >= 0 && config.chunkSize > 0
    ensures var r := DefaultUploadFileInfo(info, config);
      r.size == info.size && r.modifyTime == info.lastModified && r.dataSize == config.chunkSize &&
      r.uploadId.None? && r.expireAt.None? &&
      Tiles(r.parts, 0, info.size) &&
      forall k :: 0 <= k < |r.parts| ==>
        r.parts[k].index == k + 1 && IsPending(r.parts[k]) && r.parts[k].size <= config.chunkSize
  {
    SplitTiles(info.size, config.chunkSize, 0, 1);
  }

  /** The file info after the init response: the session id and expiry are
      taken only from an OK response that carries both. */
  function AfterInitResponse(fi: FileInfoV2, info: ResponseInfo, uploadId: Option<string>, expireAt: Option<int>): FileInfoV2
  {
    if info.isOK && uploadId.Some? && expireAt.Some? then fi.(uploadId := uploadId, expireAt := expireAt)
    else fi
  }

  /** The init response changes the session exactly when it is OK and carries
      both an id and an expiry; the parts, sizes and time never change. */
  lemma InitResponseOutcome(fi: FileInfoV2, info: ResponseInfo, uploadId: Option<string>, expireAt: Option<int>)
    ensures var r := AfterInitResponse(fi, info, uploadId, expireAt);
      r.parts == fi.parts && r.size == fi.size && r.dataSize == fi.dataSize && r.modifyTime == fi.modifyTime &&
      (info.isOK && uploadId.Some? && expireAt.Some? ==> r.uploadId == uploadId && r.expireAt == expireAt) &&
      (!(info.isOK && uploadId.Some? && expireAt.Some?) ==> r == fi)
  {
  }

  /** The plan with one part replaced. */
  function SetPart(fi: FileInfoV2, p: nat, d: UploadData): FileInfoV2
    requires p < |fi.parts|
  {
    fi.(parts := fi.parts[p := d])
  }

  /** The parts after the response to part `p`: the payload is dropped; on an
      OK response with both etag and md5 the part takes the etag and is
      completed, otherwise it goes back to idle with its etag kept. */
  function AfterPartResponse(parts: seq<UploadData>, p: nat, info: ResponseInfo, etag: Option<string>, md5: Option<string>): seq<UploadData>
    requires p < |parts|
  {
    var d := parts[p].(payload := None);
    if info.isOK && etag.Some? && md5.Some? then parts[p := d.(etag := etag, isUploading := false, isCompleted := true)]
    else parts[p := d.(isUploading := false, isCompleted := false)]
  }

  /** The response to a part being sent: it is completed with the returned
      etag exactly when the response is OK and carries both etag and md5, and
      then one more part counts as completed; otherwise it is idle again and
      the count does not move. The payload is always dropped, and no other
      part changes. */
  lemma PartResponseOutcome(parts: seq<UploadData>, p: nat, info: ResponseInfo, etag: Option<string>, md5: Option<string>)
    requires p < |parts| && parts[p].isUploading && !parts[p].isCompleted
    ensures var r := AfterPartResponse(parts, p, info, etag, md5);
      |r| == |parts| && r[p].payload.None? && !r[p].isUploading &&
      r[p].offset == parts[p].offset && r[p].size == parts[p].size && r[p].index == parts[p].index &&
      (r[p].isCompleted <==> info.isOK && etag.Some? && md5.Some?) &&
      (r[p].etag == if info.isOK && etag.Some? && md5.Some? then etag else parts[p].etag) &&
      CompletedIn(r) == CompletedIn(parts) + (if info.isOK && etag.Some? && md5.Some? then 1 else 0) &&
      (forall k :: 0 <= k < |parts| && k != p ==> r[k] == parts[k])
  {
    CompletedInUpdate(parts, p, AfterPartResponse(parts, p, info, etag, md5)[p]);
  }

  /** Sending the first pending part and getting a successful answer moves
      the upload forward: the next part picked, if any, comes after it. */
  lemma SuccessfulPartAdvances(parts: seq<UploadData>, info: ResponseInfo, etag: string, md5: string)
    requires FirstPending(parts).Some? && info.isOK
    ensures var p := FirstPending(parts).value;
      var r := AfterPartResponse(parts[p := parts[p].(isUploading := true)], p, info, Some(etag), Some(md5));
      FirstPending(r).None? || FirstPending(r).value > p
  {
    var p := FirstPending(parts).value;
    var r := AfterPartResponse(parts[p := parts[p].(isUploading := true)], p, info, Some(etag), Some(md5));
    assert !IsPending(r[p]);
  }

  /** getPartInfoArray: every part's number and etag, in plan order. */
  function PartInfoArray(parts: seq<UploadData>): (r: seq<PartInfo>)
    ensures |r| == |parts|
    ensures forall k :: 0 <= k < |parts| ==> r[k] == PartInfo(parts[k].index, parts[k].etag)
  {
    if parts == [] then [] else [PartInfo(parts[0].index, parts[0].etag)] + PartInfoArray(parts[1..])
  }

  /** completeUpload: the complete-parts request with the file name, the
      session id and the part list. */
  function CompleteRequest(fi: FileInfoV2, fileName: string): (r: CompletePartsRequest)
    ensures r.fileName == fileName && r.uploadId == fi.uploadId
    ensures |r.parts| == |fi.parts|
    ensures forall k :: 0 <= k < |fi.parts| ==> r.parts[k].partNumber == fi.parts[k].index && r.parts[k].etag == fi.parts[k].etag
  {
    CompleteParts(fileName, fi.uploadId, PartInfoArray(fi.parts))
  }

  /** For the default plan the complete-parts list numbers the parts 1, 2, 3,
      ... in strictly ascending order, as the part protocol requires. */
  lemma DefaultPartNumbersAscend(info: StreamInfo, config: Configuration, fileName: string)
    requires info.size >= 0 && config.chunkSize > 0
    ensures var parts := CompleteRequest(DefaultUploadFileInfo(info, config), fileName).parts;
      (forall k :: 0 <= k < |parts| ==> parts[k].partNumber == k + 1) &&
      (forall i, j :: 0 <= i < j < |parts| ==> parts[i].partNumber < parts[j].partNumber)
  {
    DefaultUploadFileInfoShape(info, config);
  }

  class PartsUploadPerformerV2 {
    const config: Configuration
    const fileName: string
    const factory: Option<ByteStreamFactory>
    var fileInfo: FileInfoV2

    constructor (config: Configuration, fileName: string, factory: Option<ByteStreamFactory>, fileInfo: FileInfoV2)
      ensures this.config == config && this.fileName == fileName && this.factory == factory
      ensures this.fileInfo == fileInfo
    {
      this.config := config;
      this.fileName := fileName;
      this.factory := factory;
      this.fileInfo := fileInfo;
    }

    /** serverInit: a plan that `isValid` accepts needs no init request and
        succeeds at once; any other plan sends the init request. */
    method ServerInit(isValid: FileInfoV2 -> bool) returns (r: InitDispatch)
      ensures r.AlreadyValid? <==> isValid(fileInfo)
      ensures r.AlreadyValid? ==> r.info.isOK && r.info.status == Http(200)
    {
      if isValid(fileInfo) {
        return AlreadyValid(SuccessResponse());
      }
      return SendInit;
    }

    /** The completion handler of the init request; it always passes the
        response on to its own handler. */
    method OnInitResponse(info: ResponseInfo, uploadId: Option<string>, expireAt: Option<int>) returns (passed: ResponseInfo)
      modifies this`fileInfo
      ensures passed == info
      ensures fileInfo == AfterInitResponse(old(fileInfo), info, uploadId, expireAt)
    {
      if info.isOK && uploadId.Some? && expireAt.Some? {
        fileInfo := fileInfo.(uploadId := uploadId, expireAt := expireAt);
      }
      passed := info;
    }

    /** getUploadData: the part's bytes, read from its own offset. */
    method GetUploadData(d: UploadData, burst: nat) returns (data: Option<seq<byte>>)
      requires burst > 0
      ensures data == UnitBytes(factory, d.offset, d.size)
    {
      data := ReadUnit(factory, d.offset, d.size, burst);
    }

    /** uploadNextData up to the request: picks the first pending part and
        marks it uploading; with no part left it ends with an interior error,
        and when the part's bytes cannot be read it resets the part and ends
        with a local IO error. Otherwise the part holds its bytes and the
        upload-part request carries the session id and the part number. */
    method UploadNextData(burst: nat) returns (r: Dispatch)
      requires burst > 0
      modifies this`fileInfo
      ensures match FirstPending(old(fileInfo.parts))
        case None =>
          r == Finished(true, LocalError(SdkInteriorError)) && fileInfo == old(fileInfo)
        case Some(p) =>
          var d := old(fileInfo.parts)[p];
          match UnitBytes(factory, d.offset, d.size)
          case None =>
            r == Finished(true, LocalError(LocalIOError)) &&
            fileInfo == SetPart(old(fileInfo), p, d.(isUploading := false, isCompleted := false, payload := None))
          case Some(bytes) =>
            r == Send(p, UploadPart(old(fileInfo.uploadId), d.index, bytes)) &&
            fileInfo == SetPart(old(fileInfo), p, d.(isUploading := true, isCompleted := false, payload := Some(bytes)))
    {
      var next := FirstPending(fileInfo.parts);
      if next.None? {
        return Finished(true, LocalError(SdkInteriorError));
      }
      var p := next.value;
      var d := fileInfo.parts[p].(isUploading := true, isCompleted := false);
      fileInfo := SetPart(fileInfo, p, d);
      var data := GetUploadData(d, burst);
      d := d.(payload := data);
      if data.None? {
        d := d.(isUploading := false, isCompleted := false);
        fileInfo := SetPart(fileInfo, p, d);
        assert fileInfo.parts == old(fileInfo.parts)[p := d];
        return Finished(true, LocalError(LocalIOError));
      }
      fileInfo := SetPart(fileInfo, p, d);
      assert fileInfo.parts == old(fileInfo.parts)[p := d];
      r := Send(p, UploadPart(fileInfo.uploadId, d.index, data.value));
    }

    /** The completion handler of an upload-part request; it always tells its
        own handler isEnd = false. */
    method OnPartResponse(p: nat, info: ResponseInfo, etag: Option<string>, md5: Option<string>) returns (isEnd: bool)
      requires p < |fileInfo.parts|
      modifies this`fileInfo
      ensures !isEnd
      ensures fileInfo == old(fileInfo).(parts := AfterPartResponse(old(fileInfo.parts), p, info, etag, md5))
    {
      var d := fileInfo.parts[p].(payload := None);
      if info.isOK && etag.Some? && md5.Some? {
        d := d.(etag := etag, isUploading := false, isCompleted := true);
      } else {
        d := d.(isUploading := false, isCompleted := false);
      }
      fileInfo := SetPart(fileInfo, p, d);
      isEnd := false;
    }

    /** completeUpload's complete-parts request. */
    method CompleteUpload() returns (r: CompletePartsRequest)
      ensures r == CompleteRequest(fileInfo, fileName)
    {
      r := CompleteParts(fileName, fileInfo.uploadId, PartInfoArray(fileInfo.parts));
    }
  }
}
