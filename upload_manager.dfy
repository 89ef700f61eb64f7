/** UploadManager: the public entry points. They check the input and the
    token, report those errors to the completion handler without starting
    anything, choose the recorder key, and route a file to a form upload or
    to a resumable upload. */
module Manager {
  import opened Common
  import opened Streams

  /** What a file handed to put(File) looks like: its name, its length and
      the bytes a single read of it delivers (None when opening or reading it
      fails). */
  datatype FileData = FileData(name: string, length: nat, read: Option<seq<byte>>)

  /** The input given to checkAndNotifyError: none (null), a byte array, a
      file, or a file path (any other object). */
  datatype Input = NoInput | Bytes(data: seq<byte>) | File(file: FileData) | Path(path: string)

  /** checkAndNotifyError's outcome: it throws, it reports `info` to the
      handler and returns true, or it returns false. */
  datatype CheckResult = ThrowsNullPointer | Reported(info: ResponseInfo) | Passed

  /** What an entry point does: report `info` through completeAction and
      start nothing, throw, or start a form, parts or concurrent upload. */
  datatype Outcome =
    | Throws
    | Notified(info: ResponseInfo)
    | StartForm(data: seq<byte>, fileName: Option<string>, key: Option<string>)
    | StartParts(fileName: Option<string>, key: Option<string>, recorderKey: Option<string>)
    | StartConcurrent(key: Option<string>, recorderKey: Option<string>)

  function ZeroSizeError(): ResponseInfo { LocalError(ZeroSize) }

  function InvalidTokenError(): ResponseInfo { LocalError(InvalidToken) }

  /** Whether the input counts as empty: null, an empty array or a file of
      length 0. A path is never empty here. */
  predicate IsEmptyInput(input: Input)
  {
    input.NoInput? || (input.Bytes? && |input.data| == 0) || (input.File? && input.file.length == 0)
  }

  predicate IsEmptyToken(token: Option<string>)
  {
    token.None? || |token.value| == 0
  }

  /** checkAndNotifyError. */
  function CheckAndNotifyError(hasHandler: bool, token: Option<string>, input: Input): CheckResult
  {
    if !hasHandler then ThrowsNullPointer
    else if IsEmptyInput(input) then Reported(ZeroSizeError())
    else if IsEmptyToken(token) then Reported(InvalidTokenError())
    else Passed
  }

  /** Without a handler it throws; otherwise the input is checked before the
      token: an empty input is a zero-size error whatever the token, an
      empty token is reported only for a non-empty input, and it reports
      exactly when one of the two is empty. */
  lemma CheckOrder(hasHandler: bool, token: Option<string>, input: Input)
    ensures CheckAndNotifyError(hasHandler, token, input).ThrowsNullPointer? <==> !hasHandler
    ensures hasHandler ==>
      (CheckAndNotifyError(hasHandler, token, input) == Reported(ZeroSizeError()) <==> IsEmptyInput(input))
    ensures hasHandler ==>
      (CheckAndNotifyError(hasHandler, token, input) == Reported(InvalidTokenError()) <==> !IsEmptyInput(input) && IsEmptyToken(token))
    ensures hasHandler ==>
      (CheckAndNotifyError(hasHandler, token, input).Reported? <==> IsEmptyInput(input) || IsEmptyToken(token))
  {
  }

  /** The recorder key: generated from the key and the stream only when both
      a recorder and a key generator are configured, the key otherwise. */
  function RecorderKey(config: Configuration, key: Option<string>, stream: StreamInfo): Option<string>
  {
    if config.hasRecorder && config.keyGen.Some? then Some(config.keyGen.value(key, stream)) else key
  }

  /** put(IStreamFactory, key, fileName, token, …): a stream of size 0 or
      below is a zero-size error before the token is looked at; a token that
      does not parse or is not valid (`tokenValid`) is an invalid-token
      error; otherwise a parts upload starts. */
  function PutStream(config: Configuration, stream: StreamInfo, key: Option<string>, fileName: Option<string>,
                     token: Option<string>, tokenValid: Option<string> -> bool): Outcome
  {
    if stream.size <= 0 then Notified(ZeroSizeError())
    else if !tokenValid(token) then Notified(InvalidTokenError())
    else StartParts(fileName, key, RecorderKey(config, key, stream))
  }

  lemma PutStreamChecks(config: Configuration, stream: StreamInfo, key: Option<string>, fileName: Option<string>,
                        token: Option<string>, tokenValid: Option<string> -> bool)
    ensures PutStream(config, stream, key, fileName, token, tokenValid) == Notified(ZeroSizeError()) <==> stream.size <= 0
    ensures PutStream(config, stream, key, fileName, token, tokenValid) == Notified(InvalidTokenError()) <==>
      stream.size > 0 && !tokenValid(token)
    ensures PutStream(config, stream, key, fileName, token, tokenValid).StartParts? <==> stream.size > 0 && tokenValid(token)
    ensures var r := PutStream(config, stream, key, fileName, token, tokenValid);
      r.StartParts? ==>
        (r.fileName == fileName && r.key == key &&
         (!(config.hasRecorder && config.keyGen.Some?) ==> r.recorderKey == key) &&
         (config.hasRecorder && config.keyGen.Some? ==> r.recorderKey == Some(config.keyGen.value(key, stream))))
  {
  }

  /** putData: an invalid token is reported and nothing starts; otherwise a
      form upload of the bytes starts. */
  function PutData(data: seq<byte>, fileName: Option<string>, key: Option<string>,
                   token: Option<string>, tokenValid: Option<string> -> bool): (r: Outcome)
    ensures r.StartForm? <==> tokenValid(token)
    ensures !tokenValid(token) ==> r == Notified(InvalidTokenError())
    ensures r.StartForm? ==> r.data == data && r.fileName == fileName && r.key == key
  {
    if !tokenValid(token) then Notified(InvalidTokenError()) else StartForm(data, fileName, key)
  }

  /** What a FileStreamFactory tells of a file. Its time and identity are not
      part of this model and are passed in. */
  function FileStream(file: FileData, lastModified: int, identity: string): StreamInfo
  {
    StreamInfo(file.length, lastModified, identity)
  }

  /** putFile: after the token check, a file no longer than putThreshold is
      read whole and sent by a form upload under its own name (a failed read
      is a local IO error); a longer one goes to the concurrent resumable
      upload when that is configured and to the sequential parts upload
      under the file's name otherwise. */
  function PutFile(config: Configuration, file: FileData, lastModified: int, identity: string, key: Option<string>,
                   token: Option<string>, tokenValid: Option<string> -> bool): Outcome
  {
    if !tokenValid(token) then Notified(InvalidTokenError())
    else if file.length <= config.putThreshold then
      if file.read.None? then Notified(LocalError(LocalIOError))
      else PutData(Filled(file.read.value, file.length), Some(file.name), key, token, tokenValid)
    else
      var recorderKey := RecorderKey(config, key, FileStream(file, lastModified, identity));
      if config.useConcurrentResumeUpload then StartConcurrent(key, recorderKey)
      else StartParts(Some(file.name), key, recorderKey)
  }

  /** A file at or below the threshold never goes to a resumable upload; it
      goes to a form upload, under its name and the key, of a buffer of
      exactly its length holding the bytes read (zero-filled past a short
      read), or to a local IO error when it cannot be read. */
  lemma SmallFileGoesToForm(config: Configuration, file: FileData, lastModified: int, identity: string, key: Option<string>,
                            token: Option<string>, tokenValid: Option<string> -> bool)
    requires tokenValid(token) && file.length <= config.putThreshold
    ensures var r := PutFile(config, file, lastModified, identity, key, token, tokenValid);
      !r.StartParts? && !r.StartConcurrent? &&
      (file.read.None? ==> r == Notified(LocalError(LocalIOError))) &&
      (file.read.Some? ==> r == StartForm(Filled(file.read.value, file.length), Some(file.name), key) &&
                           |r.data| == file.length)
  {
    if file.read.Some? {
      FilledShape(file.read.value, file.length);
    }
  }

  /** A file above the threshold goes to the concurrent resumable upload
      exactly when it is configured and to the parts upload otherwise, never
      to a form upload; either carries the key, and the recorder key is the
      generated one exactly when a recorder and a key generator are both
      configured. */
  lemma LargeFileGoesResumable(config: Configuration, file: FileData, lastModified: int, identity: string, key: Option<string>,
                               token: Option<string>, tokenValid: Option<string> -> bool)
    requires tokenValid(token) && file.length > config.putThreshold
    ensures var r := PutFile(config, file, lastModified, identity, key, token, tokenValid);
      (r.StartConcurrent? <==> config.useConcurrentResumeUpload) &&
      (r.StartParts? <==> !config.useConcurrentResumeUpload) &&
      (r.StartParts? ==> r.fileName == Some(file.name)) &&
      ((r.StartParts? || r.StartConcurrent?) ==>
         (r.key == key &&
          (!(config.hasRecorder && config.keyGen.Some?) ==> r.recorderKey == key) &&
          (config.hasRecorder && config.keyGen.Some? ==>
             r.recorderKey == Some(config.keyGen.value(key, FileStream(file, lastModified, identity))))))
  {
  }

  /** put(byte[], …). */
  function PutBytes(data: Option<seq<byte>>, key: Option<string>, token: Option<string>, hasHandler: bool,
                    tokenValid: Option<string> -> bool): Outcome
  {
    var input := if data.None? then NoInput else Bytes(data.value);
    match CheckAndNotifyError(hasHandler, token, input)
    case ThrowsNullPointer => Throws
    case Reported(info) => Notified(info)
    case Passed => PutData(data.value, None, key, token, tokenValid)
  }

  /** put(File, …). */
  function PutFileEntry(config: Configuration, file: Option<FileData>, lastModified: int, identity: string,
                        key: Option<string>, token: Option<string>, hasHandler: bool,
                        tokenValid: Option<string> -> bool): Outcome
  {
    var input := if file.None? then NoInput else File(file.value);
    match CheckAndNotifyError(hasHandler, token, input)
    case ThrowsNullPointer => Throws
    case Reported(info) => Notified(info)
    case Passed => PutFile(config, file.value, lastModified, identity, key, token, tokenValid)
  }

  /** put(String filePath, …): the path is checked (it only has to be
      present), then the file it names goes through put(File). */
  function PutPath(config: Configuration, path: Option<string>, file: FileData, lastModified: int, identity: string,
                   key: Option<string>, token: Option<string>, hasHandler: bool,
                   tokenValid: Option<string> -> bool): Outcome
  {
    var input := if path.None? then NoInput else Path(path.value);
    match CheckAndNotifyError(hasHandler, token, input)
    case ThrowsNullPointer => Throws
    case Reported(info) => Notified(info)
    case Passed => PutFileEntry(config, Some(file), lastModified, identity, key, token, hasHandler, tokenValid)
  }

  /** An empty array is a zero-size error whatever the token, and nothing
      starts; a non-empty array with a valid token always starts a form
      upload of exactly those bytes. */
  lemma PutBytesChecks(data: Option<seq<byte>>, key: Option<string>, token: Option<string>,
                       tokenValid: Option<string> -> bool)
    ensures data.None? || data == Some([]) ==> PutBytes(data, key, token, true, tokenValid) == Notified(ZeroSizeError())
    ensures data.Some? && data.value != [] && !IsEmptyToken(token) && tokenValid(token) ==>
      PutBytes(data, key, token, true, tokenValid) == StartForm(data.value, None, key)
    ensures PutBytes(data, key, token, false, tokenValid) == Throws
  {
  }

  /** The two file entry points agree except on an empty file with an empty
      token: put(File) checks the file's length first and reports zero size,
      while put(String) checks only that a path was given and reports the
      token. */
  lemma PathAndFileEntryOrder(config: Configuration, file: FileData, lastModified: int, identity: string,
                              key: Option<string>, token: Option<string>, tokenValid: Option<string> -> bool, path: string)
    ensures file.length == 0 && IsEmptyToken(token) ==>
      PutPath(config, Some(path), file, lastModified, identity, key, token, true, tokenValid) == Notified(InvalidTokenError()) &&
      PutFileEntry(config, Some(file), lastModified, identity, key, token, true, tokenValid) == Notified(ZeroSizeError())
    ensures !(file.length == 0 && IsEmptyToken(token)) ==>
      PutPath(config, Some(path), file, lastModified, identity, key, token, true, tokenValid) ==
      PutFileEntry(config, Some(file), lastModified, identity, key, token, true, tokenValid)
  {
  }

  /** The handler calls a synchronous put sees: the one report when the
      checks or the token fail, otherwise whatever the started upload
      delivers (`delivered`). */
  function SyncCalls(outcome: Outcome, delivered: seq<Option<ResponseInfo>>): seq<Option<ResponseInfo>>
  {
    if outcome.Notified? then [Some(outcome.info)] else delivered
  }

  /** What syncPut returns for the handler calls `calls`: the wait is a
      one-shot latch released by the first call, so the result is what that
      call delivered, or null when it delivered none (or none came). */
  function FirstCall(calls: seq<Option<ResponseInfo>>): (r: Option<ResponseInfo>)
    ensures r.Some? <==> |calls| > 0 && calls[0].Some?
    ensures r.Some? ==> r == calls[0]
  {
    if |calls| > 0 then calls[0] else None
  }

  /** Handler calls after the first one do not change what syncPut returns. */
  lemma LaterCallsIgnored(calls: seq<Option<ResponseInfo>>, later: seq<Option<ResponseInfo>>)
    requires |calls| > 0
    ensures FirstCall(calls + later) == FirstCall(calls)
  {
    assert (calls + later)[0] == calls[0];
  }

  /** syncPut's collecting handler and its result: the first handler call
      adds its response to the list when it carries one and releases the
      wait; the list's head (or null) is returned. */
  method SyncPut(outcome: Outcome, delivered: seq<Option<ResponseInfo>>) returns (r: Option<ResponseInfo>)
    ensures r == FirstCall(SyncCalls(outcome, delivered))
    ensures outcome.Notified? ==> r == Some(outcome.info)
  {
    var calls := SyncCalls(outcome, delivered);
    var responseInfos: seq<ResponseInfo> := [];
    if |calls| > 0 && calls[0].Some? {
      responseInfos := responseInfos + [calls[0].value];
    }
    if |responseInfos| > 0 {
      r := Some(responseInfos[0]);
    } else {
      r := None;
    }
  }

  /** syncPut(byte[], …). */
  method SyncPutBytes(data: Option<seq<byte>>, key: Option<string>, token: Option<string>,
                      tokenValid: Option<string> -> bool, delivered: seq<Option<ResponseInfo>>) returns (r: Option<ResponseInfo>)
    ensures r == FirstCall(SyncCalls(PutBytes(data, key, token, true, tokenValid), delivered))
    ensures data.None? || data == Some([]) ==> r == Some(ZeroSizeError())
  {
    r := SyncPut(PutBytes(data, key, token, true, tokenValid), delivered);
  }
}
