# Qiniu Android SDK upload core, modelled in Dafny

This project models the core of the Qiniu Android SDK's object-upload library:

- **UploadManager**: the public `put` and `syncPut` entry points. They check the input and the token, choose a recorder key and route the upload. Small files go to a form upload. Larger files and streams go to a resumable parts upload, or to a concurrent one when that is configured.
- **BaseUpload**: the region machinery shared by every upload task. It filters the zone's regions to the valid ones, keeps a cursor into them and switches to the next region when an error response allows it. It also folds per-region request metrics into the task metrics and calls the completion handler once.
- **PartsUploadPerformerV1**: the legacy resumable protocol. A file is cut into 4 MiB blocks and each block into chunks. The first chunk of a block goes out as make-block and the later ones as upload-chunk with the block's context. A final make-file lists the block contexts.
- **PartsUploadPerformerV2**: the multipart protocol. An init call opens an upload session. Numbered parts are uploaded, and a complete call lists every part number with its etag.
- **StreamUtils** and **ByteStreamFactory**: skipping and reading a stream to fill a chunk, and the in-memory stream factory.
- **SystemHttpClient**, a narrow slice:
  - building the request;
  - classifying a transport failure into a status;
  - decoding a response's headers and body;
  - the rule that the completion handler is called at most once per request.

## How it is modelled

- Pure logic becomes functions and lemmas. The default plans, the selection of the next pending unit, the bookkeeping after a response, the finishing requests, the error classifier and the body decoding are all modelled this way.
- Objects whose fields the source updates are classes whose methods name what they modify:
  - `BaseUpload`;
  - both performers;
  - `SystemHttpClient`;
  - the Java `InputStream` the stream helpers use.
- Loops in the source are `while` loops with invariants:
  - the fill loop of `StreamUtils.read`;
  - the skip loop of `safeSkip`;
  - the header loop of `handleResponse`;
  - the read of a chunk's bytes.
- Collaborators whose code is not part of this model are passed in as function parameters:
  - token parsing and validity (`tokenValid`);
  - the resume-record validity test (`isValid`);
  - region equality (`isEqual`);
  - UTF-8 decoding (`decode`);
  - the JSON parser (`parse`);
  - the CRC32 checksum (`checksum`);
  - the recorder key generator (`keyGen`).
- Asynchronous hand-offs are modelled as one atomic step. This covers `AsyncRun`, the okhttp callbacks and `Wait`. A server's reply is an input to the method that handles it.
- `ResponseInfo` is a status plus the two flags the core reads, `isOK` and `couldRetry`. Statuses are symbolic constructors, not numeric codes.

Places where the code does something other than what its names suggest, and what the model does about them:

- `BaseUpload.insertRegionAtFirst` puts the region at index 0 of the whole list and leaves the cursor index where it is (`Regions.InsertKeepsCursor`). So the new region becomes the target region, not the next region to try, and the current region after the insert is the one just before the old current region (the inserted one when the cursor is at 0).
- `ByteStreamFactory.newStreamWithOffset` does not start at the offset (see Findings). The rest of the model reads chunks through the corrected `ByteStreams.NewStreamWithOffset`.
- `SystemHttpClient.handleResponse` never takes its JSON branch, because of a reference comparison (see Findings). `HttpClient.SystemHttpClient.HandleResponse` and `HttpClient.SystemHttpClient.SendRequest` use the corrected body handling, `HttpClient.BodyOutcomeOf`. So for an application/json response they deliver `{}` for an empty body and a parse error for a malformed one, which the code as written never does. The as-written behaviour is `HttpClient.BodyOutcomeAsWritten`.

## Model

| member | source | states |
|---|---|---|
| Streams.InputStream.Skip | library/src/main/java/com/qiniu/android/storage/stream/utils/StreamUtils.java:14 | skip never goes back and never passes the end: it advances by `SkipCount`, at most the bytes left. |
| Streams.InputStream.Read | library/src/main/java/com/qiniu/android/storage/stream/utils/StreamUtils.java:25-28 | a read copies the next `count` stream bytes into the buffer at `off` and leaves the rest of the buffer unchanged. It returns -1 exactly when no bytes are left. |
| Streams.InputStream.Close | library/src/main/java/com/qiniu/android/storage/stream/utils/StreamUtils.java:30 | the stream is closed afterwards. |
| Streams.ReadFully | library/src/main/java/com/qiniu/android/storage/stream/utils/StreamUtils.java:22-32 | read returns a fresh buffer of exactly `len` bytes: the stream's next bytes, zero-padded when the stream ends early. The stream advances by min(len, bytes left) and is closed. |
| Streams.FilledShape | library/src/main/java/com/qiniu/android/storage/stream/utils/StreamUtils.java:24-31 | the filled buffer has length `len`. Its prefix is the stream's bytes and every position past the end of the stream is 0. |
| Streams.SafeSkip | library/src/main/java/com/qiniu/android/storage/stream/utils/StreamUtils.java:8-20 | corrected safeSkip: it succeeds iff the offset is within the stream. Then it moved exactly `offset` bytes, or none for a non-positive offset. Otherwise it ends with an unexpected EOF at the end of the stream. |
| Streams.SkipPastEndNeverFinishes | library/src/main/java/com/qiniu/android/storage/stream/utils/StreamUtils.java:12-19 | as written: when the offset passes the end, the remaining count never reaches 0, however many rounds run (Findings). |
| Streams.SkipWithinStreamFinishes | library/src/main/java/com/qiniu/android/storage/stream/utils/StreamUtils.java:12-19 | as written: an offset within the stream is skipped completely within `offset` rounds. |
| ByteStreams.NewStreamWithOffset | library/src/main/java/com/qiniu/android/storage/stream/impl/ByteStreamFactory.java:29-34 | corrected: the call fails iff offset >= size. Otherwise the stream holds exactly the bytes from the offset to the end. |
| ByteStreams.AsWrittenStartsAtIndexZero | library/src/main/java/com/qiniu/android/storage/stream/impl/ByteStreamFactory.java:30-33 | as written: the guard agrees with the corrected one, but the stream holds the first size-offset bytes. The two agree only at offset 0. |
| ByteStreams.AsWrittenReadsWrongBytes | library/src/main/java/com/qiniu/android/storage/stream/impl/ByteStreamFactory.java:33 | as written, data [7, 9] at offset 1 yields [7]. The corrected version yields [9]. |
| ByteStreams.DecimalRoundTrip | library/src/main/java/com/qiniu/android/storage/stream/impl/ByteStreamFactory.java:38 | the identity's decimal rendering of the CRC32 value is all digits, non-empty, and parses back to the value. |
| ByteStreams.IdentityMatchesChecksum | library/src/main/java/com/qiniu/android/storage/stream/impl/ByteStreamFactory.java:37-39 | two byte factories have the same identity iff their data has the same CRC32. |
| ByteStreams.UnitBytesInside | library/src/main/java/com/qiniu/android/storage/PartsUploadPerformerV2.java:175-192 | a unit that lies inside the data reads back exactly `data[offset..offset+size]`. |
| ByteStreams.ReadUnit | library/src/main/java/com/qiniu/android/storage/PartsUploadPerformerV1.java:191-208 | reading a unit through a fresh stream gives `UnitBytes`. That is none when the factory is missing or the stream cannot be opened, and the unit's bytes, zero-padded past the end, otherwise. |
| Plans.FirstPending | library/src/main/java/com/qiniu/android/storage/PartsUploadPerformerV2.java:87-94 | the next unit to upload is the first one neither completed nor uploading. None means every unit is completed or in flight. |
| Plans.SplitTiles | library/src/main/java/com/qiniu/android/storage/PartsUploadPerformerV2.java:43-45 | cutting [from, total) into units of `unit` bytes yields contiguous, non-empty, pending units of at most `unit` bytes that cover the range exactly, numbered consecutively. |
| Plans.SplitBlocksTile | library/src/main/java/com/qiniu/android/storage/PartsUploadPerformerV1.java:43-46 | the default V1 blocks are contiguous and cover the stream. Each block is at most 4 MiB and its chunks tile the block from offset 0. |
| Plans.DefaultPlansTile | library/src/main/java/com/qiniu/android/storage/PartsUploadPerformerV2.java:43-45 | both default plans cover the whole stream without gap or overlap. V2 part numbers start at 1. |
| Plans.OneBlockShortOfFull | library/src/main/java/com/qiniu/android/storage/PartsUploadPerformerV1.java:210-216 | with chunks as large as a block (the chunk size under concurrent resume), a stream one byte short of 4 MiB is a single block with a single chunk, and that chunk is sent with make-block. |
| Plans.ReadBackTiling | library/src/main/java/com/qiniu/android/storage/PartsUploadPerformerV2.java:182-185 | reading every unit of a tiling in order gives back exactly the covered bytes. |
| Plans.ReadBackBlocks | library/src/main/java/com/qiniu/android/storage/PartsUploadPerformerV1.java:196-203 | reading every chunk of every block in plan order gives back exactly the covered bytes. |
| Plans.DefaultChunksReadBack | library/src/main/java/com/qiniu/android/storage/PartsUploadPerformerV1.java:191-208 | the chunks of the default V1 plan, read in order, concatenate to the whole file. |
| Plans.DefaultPartsReadBack | library/src/main/java/com/qiniu/android/storage/PartsUploadPerformerV2.java:175-192 | the parts of the default V2 plan, read in order, concatenate to the whole file. |
| Plans.AsWrittenSecondPartWrong | library/src/main/java/com/qiniu/android/storage/stream/impl/ByteStreamFactory.java:33 | with the factory as written, the second one-byte part of [7, 9] would read [7] instead of [9]. |
| PerformerV1.DefaultUploadFileInfoShape | library/src/main/java/com/qiniu/android/storage/PartsUploadPerformerV1.java:43-46 | the default V1 plan keeps the stream's size and time. Its blocks tile the stream, are at most 4 MiB each and have no context. Every chunk is at most getUploadChunkSize: the configured chunk size without concurrent resume, and one whole block per chunk with it. |
| PerformerV1.OneChunkPerBlock | library/src/main/java/com/qiniu/android/storage/PartsUploadPerformerV1.java:210-216 | when the chunk size is the block size, every block of at most 4 MiB is one chunk. |
| PerformerV1.NextChunk | library/src/main/java/com/qiniu/android/storage/PartsUploadPerformerV1.java:60-69 | the chosen (block, chunk) is in range and pending. None means no chunk anywhere is pending. |
| PerformerV1.RequestFor | library/src/main/java/com/qiniu/android/storage/PartsUploadPerformerV1.java:127-189 | a block's first chunk goes out with make-block, carrying the block's offset and size. Any other chunk goes out with upload-chunk, carrying the block's context, the block's offset and the chunk's offset. Both carry the chunk's bytes. |
| PerformerV1.ResponseOutcome | library/src/main/java/com/qiniu/android/storage/PartsUploadPerformerV1.java:100-124 | a chunk response completes the chunk and sets the block's context iff it is OK with a context. Only then does the completed count grow, by one. Either way the payload is dropped and nothing else changes. |
| PerformerV1.CompleteRequest | library/src/main/java/com/qiniu/android/storage/PartsUploadPerformerV1.java:137-149 | make-file carries the file's size and name and the block contexts in block order. There are no contexts iff there are no blocks. |
| PerformerV1.ServerInit | library/src/main/java/com/qiniu/android/storage/PartsUploadPerformerV1.java:48-52 | the legacy protocol's init succeeds at once with an OK response. |
| PerformerV1.PartsUploadPerformerV1.GetDataWithChunk | library/src/main/java/com/qiniu/android/storage/PartsUploadPerformerV1.java:191-208 | a chunk's bytes are read from the block's offset plus the chunk's offset. |
| PerformerV1.PartsUploadPerformerV1.UploadNextData | library/src/main/java/com/qiniu/android/storage/PartsUploadPerformerV1.java:54-134 | with no pending chunk: an SDK-interior error and no change. If the read fails: a local IO error, with the chunk idle and without data. Otherwise the chunk is marked uploading with its bytes, and the make-block or upload-chunk request is sent. |
| PerformerV1.PartsUploadPerformerV1.OnChunkResponse | library/src/main/java/com/qiniu/android/storage/PartsUploadPerformerV1.java:100-124 | the plan becomes `AfterResponse` of the old plan, and the handler is told isEnd = false. |
| PerformerV1.PartsUploadPerformerV1.CompleteUpload | library/src/main/java/com/qiniu/android/storage/PartsUploadPerformerV1.java:137-156 | sends the make-file request of the current plan. |
| PerformerV2.DefaultUploadFileInfoShape | library/src/main/java/com/qiniu/android/storage/PartsUploadPerformerV2.java:43-45 | the default V2 plan has no session, keeps the stream's size and time, and its parts tile the stream. The parts are numbered 1, 2, … and are pending, each at most chunkSize bytes. |
| PerformerV2.InitResponseOutcome | library/src/main/java/com/qiniu/android/storage/PartsUploadPerformerV2.java:58-80 | an init response stores uploadId and expireAt only when it is OK and carries both. Otherwise the plan is unchanged. |
| PerformerV2.PartResponseOutcome | library/src/main/java/com/qiniu/android/storage/PartsUploadPerformerV2.java:127-155 | a part response completes the part and stores its etag iff it is OK with both an etag and an md5. Only then does the completed count grow, by one. The payload is dropped and no other part changes. |
| PerformerV2.SuccessfulPartAdvances | library/src/main/java/com/qiniu/android/storage/PartsUploadPerformerV2.java:87-155 | after a successful response to the chosen part, the next choice is a later part, or none. |
| PerformerV2.PartInfoArray | library/src/main/java/com/qiniu/android/storage/PartsUploadPerformerV2.java:162 | one (part number, etag) entry per part, in plan order. |
| PerformerV2.CompleteRequest | library/src/main/java/com/qiniu/android/storage/PartsUploadPerformerV2.java:159-173 | complete-parts carries the file name, the session's uploadId and every part's number and etag in plan order. |
| PerformerV2.DefaultPartNumbersAscend | library/src/main/java/com/qiniu/android/storage/PartsUploadPerformerV2.java:159-173 | for the default plan the completion lists part numbers 1..n in strictly ascending order. |
| PerformerV2.PartsUploadPerformerV2.ServerInit | library/src/main/java/com/qiniu/android/storage/PartsUploadPerformerV2.java:48-81 | a still-valid session is reused with an OK response and no request. Otherwise init-parts is sent. |
| PerformerV2.PartsUploadPerformerV2.OnInitResponse | library/src/main/java/com/qiniu/android/storage/PartsUploadPerformerV2.java:58-80 | the plan becomes `AfterInitResponse`, and the response is passed on unchanged. |
| PerformerV2.PartsUploadPerformerV2.GetUploadData | library/src/main/java/com/qiniu/android/storage/PartsUploadPerformerV2.java:175-192 | a part's bytes are read from its own offset. |
| PerformerV2.PartsUploadPerformerV2.UploadNextData | library/src/main/java/com/qiniu/android/storage/PartsUploadPerformerV2.java:84-156 | with no pending part: an SDK-interior error and no change. If the read fails: a local IO error, with the part idle and without data. Otherwise the part is uploading with its bytes, and upload-part is sent with the session's uploadId and the part number. |
| PerformerV2.PartsUploadPerformerV2.OnPartResponse | library/src/main/java/com/qiniu/android/storage/PartsUploadPerformerV2.java:127-155 | the parts become `AfterPartResponse` of the old parts, and the handler is told isEnd = false. |
| PerformerV2.PartsUploadPerformerV2.CompleteUpload | library/src/main/java/com/qiniu/android/storage/PartsUploadPerformerV2.java:159-173 | sends the complete-parts request of the current plan. |
| Regions.ValidRegionsAppend | library/src/main/java/com/qiniu/android/storage/BaseUpload.java:153-161 | filtering regions for validity distributes over concatenation. |
| Regions.ValidRegionsMembers | library/src/main/java/com/qiniu/android/storage/BaseUpload.java:153-161 | the kept regions are exactly the valid zone regions, and there are no more of them than zone regions. |
| Regions.SwitchTimesStopsAtLast | library/src/main/java/com/qiniu/android/storage/BaseUpload.java:183-196 | n switches move the cursor to min(index + n, last region): switching never runs past the list. |
| Regions.CurrentRegion | library/src/main/java/com/qiniu/android/storage/BaseUpload.java:216-227 | the current region exists iff there are regions and the cursor is in range. It is then the region under the cursor. |
| Regions.TargetRegion | library/src/main/java/com/qiniu/android/storage/BaseUpload.java:208-214 | the target region exists iff the list is non-empty. It is then the first region. |
| Regions.InsertAtFirstIdempotent | library/src/main/java/com/qiniu/android/storage/BaseUpload.java:166-181 | inserting the same region twice is the same as inserting it once. |
| Regions.InsertKeepsCursor | library/src/main/java/com/qiniu/android/storage/BaseUpload.java:166-181 | a new region becomes the target, and every old region moves up by one index. |
| Regions.AddFlowsCollectsAll | library/src/main/java/com/qiniu/android/storage/BaseUpload.java:235-244 | adding flows keeps every request of every present flow, in order. The result is absent iff nothing was present. |
| Regions.BaseUpload.constructor | library/src/main/java/com/qiniu/android/storage/BaseUpload.java:38-83 | a new task has no regions, the cursor at 0, empty task metrics and no completion yet. |
| Regions.BaseUpload.SetupRegions | library/src/main/java/com/qiniu/android/storage/BaseUpload.java:143-164 | without a zone or zone regions it fails and changes nothing. Otherwise the regions become the valid ones and are recorded in the task metrics, and it succeeds iff one is valid. |
| Regions.BaseUpload.PrepareToUpload | library/src/main/java/com/qiniu/android/storage/BaseUpload.java:108-114 | returns 0 iff a valid region exists, -1 otherwise. On 0 the regions are the valid zone regions and the target is the first of them. The cursor is not touched, so while it is at 0 the current region is the target. |
| Regions.BaseUpload.SwitchRegion | library/src/main/java/com/qiniu/android/storage/BaseUpload.java:183-196 | it switches iff a next region exists, and only then moves the cursor, by one, staying in range. |
| Regions.BaseUpload.GetCurrentRegion | library/src/main/java/com/qiniu/android/storage/BaseUpload.java:216-227 | returns `CurrentRegion` of the state. |
| Regions.BaseUpload.GetTargetRegion | library/src/main/java/com/qiniu/android/storage/BaseUpload.java:208-214 | returns `TargetRegion` of the state. |
| Regions.BaseUpload.InsertRegionAtFirst | library/src/main/java/com/qiniu/android/storage/BaseUpload.java:166-181 | a null region changes nothing. Otherwise the list becomes `InsertAtFirst` of the old list. The task metrics share that list since `setupRegions`, so when a region is actually inserted their regions become the new list too. |
| Regions.BaseUpload.AddRegionRequestMetricsOfOneFlow | library/src/main/java/com/qiniu/android/storage/BaseUpload.java:235-244 | the current region's metrics absorb the flow's metrics. |
| Regions.BaseUpload.SwitchRegionAndUpload | library/src/main/java/com/qiniu/android/storage/BaseUpload.java:118-128 | the region metrics are folded into the task and reset. The upload restarts iff a next region exists. |
| Regions.BaseUpload.SwitchRegionAndUploadIfNeededWithErrorResponse | library/src/main/java/com/qiniu/android/storage/BaseUpload.java:198-206 | when the error response does not allow a switch, nothing changes. When it does, the region metrics are folded into the task metrics and cleared, even if no next region exists. It switches iff a next region exists, and only then moves the cursor by one and restarts the upload. |
| Regions.BaseUpload.CompleteAction | library/src/main/java/com/qiniu/android/storage/BaseUpload.java:130-141 | the handler, if there is one, gets the response, the key and the folded task metrics once. The metrics are then dropped. |
| Regions.BaseUpload.Run | library/src/main/java/com/qiniu/android/storage/BaseUpload.java:87-106 | the query's metrics are folded into the task metrics first. The upload starts iff the query code is 0 and a valid region exists; then the regions are the valid ones and the task metrics record them. Otherwise the handler gets the query response, or a prepare failure with code -1, and both metrics are dropped. |
| Manager.CheckOrder | library/src/main/java/com/qiniu/android/storage/UploadManager.java:345-369 | no handler throws. With a handler, empty input reports zero size before the token is checked, a missing token reports an invalid token, and anything else passes. |
| Manager.PutStreamChecks | library/src/main/java/com/qiniu/android/storage/UploadManager.java:122-158 | a stream upload reports zero size iff the size is <= 0. It reports an invalid token iff the size is positive and the token is invalid. Otherwise it starts a parts upload with the given file name and key. Its recorder key is the generated one when a recorder and a key generator are both configured, and the key otherwise. |
| Manager.PutData | library/src/main/java/com/qiniu/android/storage/UploadManager.java:257-281 | a form upload of exactly the given data, name and key starts iff the token is valid. Otherwise an invalid-token error is reported. |
| Manager.SmallFileGoesToForm | library/src/main/java/com/qiniu/android/storage/UploadManager.java:298-322 | a file within the put threshold never goes to a resumable upload. It is sent by form upload under its name and the key, as a buffer of exactly its length holding the bytes read, zero-filled past a short read. A read failure reports a local IO error. |
| Manager.LargeFileGoesResumable | library/src/main/java/com/qiniu/android/storage/UploadManager.java:324-342 | a file over the threshold goes to the concurrent resumable upload iff that is configured, and to the parts upload under its name otherwise. Either carries the key. The recorder key is generated from the key and the file stream when a recorder and a key generator are both configured, and is the key otherwise. |
| Manager.PutBytesChecks | library/src/main/java/com/qiniu/android/storage/UploadManager.java:62-71 | null or empty data reports zero size. Data with a valid token starts a form upload with no file name. No handler throws. |
| Manager.PathAndFileEntryOrder | library/src/main/java/com/qiniu/android/storage/UploadManager.java:82-112 | put(path) and put(file) agree except for an empty file with an empty token. There the path entry reports the token and the file entry reports the size. |
| Manager.LaterCallsIgnored | library/src/main/java/com/qiniu/android/storage/UploadManager.java:192-198 | handler calls after the first do not change what syncPut returns, because the wait is released by the first call. |
| Manager.SyncPut | library/src/main/java/com/qiniu/android/storage/UploadManager.java:170-199 | a synchronous put returns what the first handler call delivered, or null when that call carried no response. A failed check returns that error. |
| Manager.SyncPutBytes | library/src/main/java/com/qiniu/android/storage/UploadManager.java:170-199 | syncPut(byte[]) returns what the first handler call of the byte put delivered. For null or empty data that is the zero-size error. |
| HttpClient.RequestBuilderDispatch | library/src/main/java/com/qiniu/android/http/request/httpclient/SystemHttpClient.java:209-257 | GET and HEAD build a body-less request, and POST and PUT build one with the body. An empty body gets no media type, a present Content-Type header sets it, and the default is octet-stream. Any other method or a null request builds nothing. |
| HttpClient.FirstMatchIsFirst | library/src/main/java/com/qiniu/android/http/request/httpclient/SystemHttpClient.java:479-500 | the first-match rule list gives the status of the first rule that holds, or the default when none holds. |
| HttpClient.ClassifierIsFirstMatch | library/src/main/java/com/qiniu/android/http/request/httpclient/SystemHttpClient.java:479-500 | getStatusCodeByException is the first match of its eight rules, in source order, with network error as the default. |
| HttpClient.ClassifierCases | library/src/main/java/com/qiniu/android/http/request/httpclient/SystemHttpClient.java:479-500 | for each status, the exact condition under which an exception gets it. For example, cancelled iff the message contains "Canceled" or the exception is a cancellation. |
| HttpClient.CanceledMessageWins | library/src/main/java/com/qiniu/android/http/request/httpclient/SystemHttpClient.java:482-483 | a message starting with "Canceled" is classified as cancelled whatever the exception's class. |
| HttpClient.CancelledOverride | library/src/main/java/com/qiniu/android/http/request/httpclient/SystemHttpClient.java:96-104 | a cancelled call reports cancelled with "user cancelled". Otherwise it reports the classifier's status, so cancelled is reported iff one of the three cancel conditions holds. |
| HttpClient.ResponseContentType | library/src/main/java/com/qiniu/android/http/request/httpclient/SystemHttpClient.java:471-477 | the content type is empty iff the body has no media type. Otherwise it is "type/subtype", a string built at run time rather than a literal. |
| HttpClient.BuildJsonResp | library/src/main/java/com/qiniu/android/http/request/httpclient/SystemHttpClient.java:502-509 | an empty body decodes to the empty JSON object. Any other body gives the parser's result, including its failure. |
| HttpClient.AsWrittenNeverBuildsJson | library/src/main/java/com/qiniu/android/http/request/httpclient/SystemHttpClient.java:427-444 | as written, the content type is always a different reference from the literal, so the status is always the HTTP code (Findings). |
| HttpClient.AsWrittenDropsEmptyJsonObject | library/src/main/java/com/qiniu/android/http/request/httpclient/SystemHttpClient.java:429-444 | as written, an empty application/json body gives no JSON object. The corrected version gives {}. |
| HttpClient.BodyOutcomeCases | library/src/main/java/com/qiniu/android/http/request/httpclient/SystemHttpClient.java:418-444 | corrected body handling: a missing body reports the response message. JSON bodies give {}, the parsed object or a parse error. Other bodies keep the HTTP status and report no error. |
| HttpClient.Lower | library/src/main/java/com/qiniu/android/http/request/httpclient/SystemHttpClient.java:413 | lower-casing keeps the length and maps each character through the ASCII lower-case map. |
| HttpClient.HeaderMapContents | library/src/main/java/com/qiniu/android/http/request/httpclient/SystemHttpClient.java:410-416 | the header map's keys are exactly the lower-cased header names. A name's value is that of its last occurrence. |
| HttpClient.SystemHttpClient.ReleaseResource | library/src/main/java/com/qiniu/android/http/request/httpclient/SystemHttpClient.java:462-469 | every per-request reference is cleared. |
| HttpClient.SystemHttpClient.HandleError | library/src/main/java/com/qiniu/android/http/request/httpclient/SystemHttpClient.java:385-399 | with no open request it does nothing. Otherwise the handler gets the status and message with no headers or body, once, and the resources are released. |
| HttpClient.SystemHttpClient.HandleResponse | library/src/main/java/com/qiniu/android/http/request/httpclient/SystemHttpClient.java:401-460 | with no open request it does nothing. Otherwise the handler gets the decoded status, the header map, the JSON and the error, once, and the resources are released. |
| HttpClient.SystemHttpClient.SendRequest | library/src/main/java/com/qiniu/android/http/request/httpclient/SystemHttpClient.java:67-134 | each request completes exactly once and closes. An unbuildable request gives invalid argument, a transport failure gives the classified status, and a response gives the decoded status and headers. |
| HttpClient.SystemHttpClient.CompleteTwice | library/src/main/java/com/qiniu/android/http/request/httpclient/SystemHttpClient.java:385-406 | when an error and a response both arrive, only the first reaches the handler. |

## Left out

- The okhttp client wiring (`createHttpClient`, DNS, connection pool, proxy, timeouts, interceptors, event listener timings): this is library configuration with no logic to prove.
- The HTTP protocol version string recorded in the metrics: it is informational only.
- Progress reporting (`notifyProgress`, request progress callbacks): progress carries no state the core depends on.
- Threading, `AsyncRun`, `Wait` and `synchronized`: each hand-off is one atomic step. Interleavings are not modelled.
- The resume recorder (`recordUploadInfo`, reading and writing records): persistence is I/O. Resume validity is the `isValid` parameter.
- Quality reporting (`reportQuality`) and logging: side channels with no effect on the upload.
- `FileStreamFactory` and `UriStreamFactory`: they only open files or content URIs and call `safeSkip`, which is modelled.
- `UploadFileInfoPartV1` and `UploadFileInfoPartV2` are not part of this model. Their default layouts are reconstructions of those classes' constructors: 4 MiB blocks cut into chunks for V1, and parts numbered from 1 for V2. Their unit selection is taken to be the first pending unit. `allBlocksContexts` and `getPartInfoArray` are modelled as the list in plan order.
- Token parsing (`UpToken.parse`, `isValid`) is the `tokenValid` parameter. CRC32 is the `checksum` parameter. JSON parsing is the `parse` parameter.
- `UploadDomainRegion.setupRegionData` is not part of this model. Regions arrive already built, each with its validity flag.
- `ResponseInfo` numeric codes, messages and the exact `isOK` and `couldRetry` rules are abstract. `isOK` and `couldRetry` are flags, and `SwitchWanted` reads `couldRetry`.
- Metrics merging inside `UploadTaskMetrics` and `UploadRegionRequestMetrics` is modelled as appending request lists.
- `HttpClient.Lower`: only ASCII letters are lower-cased. Java's locale-dependent `toLowerCase` is not modelled.
- Java `int` and `long` widths: offsets and sizes are unbounded naturals. The `(int)` cast of a file length over 2 GiB is not modelled.
- A null completion handler or a null response body object in `SystemHttpClient`: the model always has both.
- `cancel()` on the HTTP client: cancellation enters only through the `isCanceled` flag of a failed transport.
- V2 `serverInit` with no file info: the model always has a plan.
- `setupRegions` with a null configuration: `UploadManager` always passes its non-null configuration.
- HTTP method names: the request class is not part of this model, so the method strings are taken to be "GET", "HEAD", "POST" and "PUT".
- Manager.SyncPut: it is modelled as seeing only the first handler call, which releases the one-shot wait. A second call racing in before the list is read is not modelled. The source blocks forever when no call ever comes; the model returns null there.
- Regions.BaseUpload.InsertRegionAtFirst, Regions.BaseUpload.SetupRegions, Regions.BaseUpload.PrepareToUpload, Regions.BaseUpload.SwitchRegionAndUpload, Regions.BaseUpload.SwitchRegionAndUploadIfNeededWithErrorResponse, Regions.BaseUpload.Run: the null-pointer exceptions of the source are excluded by preconditions and not modelled. They are:
  - a non-null region inserted while the region list is still null (BaseUpload.java:172);
  - setting up regions after `completeAction` has dropped the task metrics (BaseUpload.java:162);
  - folding region metrics after `completeAction` has dropped the task metrics (BaseUpload.java:120);
  - running without a configured zone, whose pre-query is called unconditionally (BaseUpload.java:88).
- PerformerV2.PartsUploadPerformerV2.GetUploadData: with no stream factory the model reports a local IO error through `UnitBytes`. The source has no null check there and would throw at `synchronized (factory)`. The performer is never built without a factory.
- The IOException that `response.body().bytes()` may throw: the body is either present or absent, and an absent body reports the response message.

## Findings

| source | as written | input that shows it | evidently intended | confidence | as-written member | corrected member |
|---|---|---|---|---|---|---|
| library/src/main/java/com/qiniu/android/storage/stream/impl/ByteStreamFactory.java:33 | the stream is built over `data[0 .. len-offset)` | data [7, 9] at offset 1 yields [7], so every chunk or part after the first would carry the wrong bytes | a stream over `data[offset ..)`, yielding [9] | high; not executed | ByteStreams.AsWrittenReadsWrongBytes | ByteStreams.NewStreamWithOffset |
| library/src/main/java/com/qiniu/android/storage/stream/utils/StreamUtils.java:15 | the loop ends only when `skip` returns a negative count | a stream with no bytes left, offset 1, whose `skip` returns 0 at end of stream (the default `InputStream.skip`, as for the content streams of `UriStreamFactory`): the loop never ends and the end-of-stream error is never raised. `FileInputStream.skip` may move past the end and return the full count, so there the loop ends | treat a zero-byte skip at end of stream as unexpected EOF | medium; not executed | Streams.SkipPastEndNeverFinishes | Streams.SafeSkip |
| library/src/main/java/com/qiniu/android/http/request/httpclient/SystemHttpClient.java:429 | the content type is compared to the literal with `!=`, a reference comparison, so the JSON branch is never taken | a 200 response with content type application/json and an empty body yields no JSON object, and a malformed JSON body never yields a parse error | a string comparison (`equals`), so JSON bodies go through `buildJsonResp` | high; not executed | HttpClient.AsWrittenDropsEmptyJsonObject | HttpClient.BodyOutcomeOf |
