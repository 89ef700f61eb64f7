/** Types shared by the upload engine: bytes, optional values, response
    classification and the configuration the core reads. */
module Common {

  newtype byte = x: int | 0 <= x < 256

  datatype Option<+T> = None | Some(value: T)

  /** 4 MiB, the block size of the legacy block/chunk protocol. */
  const BlockSize: nat := 4 * 1024 * 1024

  /** The status a ResponseInfo carries. The numeric codes of ResponseInfo are
      not part of this model; each class of status the core produces or tests
      is a constructor, and a status received from a server is `Http(code)`. */
  datatype Status =
    | Http(code: int)
    | NetworkError
    | Cancelled
    | UnknownHost
    | NetworkConnectionLost
    | TimedOut
    | CannotConnectToHost
    | NetworkProtocolError
    | NetworkSSLError
    | ParseError
    | InvalidArgument
    | ZeroSize
    | InvalidToken
    | LocalIOError
    | SdkInteriorError
    | PrepareFailed(code: int)

  /** The result of one wire operation as the upload engine sees it. Whether a
      response is OK and whether it may be retried are decided by ResponseInfo
      itself, which is not part of this model, so both are carried as flags. */
  datatype ResponseInfo = ResponseInfo(status: Status, isOK: bool, couldRetry: bool)

  /** ResponseInfo.successResponse(). */
  function SuccessResponse(): ResponseInfo
  {
    ResponseInfo(Http(200), true, false)
  }

  /** An error the SDK reports without reaching a server (zero size, invalid
      token, local IO, interior error): never OK and never retried. */
  function LocalError(s: Status): ResponseInfo
  {
    ResponseInfo(s, false, false)
  }

  /** What the core reads of an IStreamFactory besides its bytes: its size,
      its modification time and its identity string. */
  datatype StreamInfo = StreamInfo(size: int, lastModified: int, identity: string)

  /** KeyGenerator.gen: the record key for a server key and a stream. */
  type KeyGenerator = (Option<string>, StreamInfo) -> string

  /** The fields of Configuration that the core reads. `chunkSize` is the
      configured unit size; `hasRecorder` says whether `config.recorder` is set
      and `hasZone` whether `config.zone` is. */
  datatype Configuration = Configuration(
    chunkSize: nat,
    putThreshold: int,
    useConcurrentResumeUpload: bool,
    allowBackupHost: bool,
    hasRecorder: bool,
    keyGen: Option<KeyGenerator>,
    hasZone: bool)

  function Min(a: int, b: int): int
  {
    if a <= b then a else b
  }

  function Zeros(n: nat): (z: seq<byte>)
    ensures |z| == n && forall i :: 0 <= i < n ==> z[i] == 0
  {
    if n == 0 then [] else Zeros(n - 1) + [0]
  }
}
