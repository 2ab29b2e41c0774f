# s3-upload-streams: the Uploader, modelled in Dafny

`index.js` exports one class, `Uploader`. It runs several S3 multipart uploads at once. Each
upload is fed by a readable stream, and one counter caps how many part requests are in flight
across all uploads. This project models the class's bookkeeping. That bookkeeping has three
pieces of state:

- the session registry `uploadInternalStorage`: key, part offset, part promises, upload handle,
  stream and metadata of each upload;
- the readiness set `readableUploads`;
- the in-flight counter `activeRequestsCount`.

The model also covers what `completeUpload` and `abortUpload` send to the store and when they
delete a session.

Modules, one file each:

- `wrappers.dfy`, module `Wrappers`: `Option` and `Result`.
- `part_lists.dfy`, module `PartLists`: part results and `_.sortBy(parts, ['PartNumber'])`. The
  sort is modelled as a stable insertion sort, proved sorted, a permutation and stable.
- `sessions.dfy`, module `Sessions`: covers
  - the session record;
  - the validation in `startUpload`;
  - the drain loop of `tryUploadPart` as a function `Drain` on values;
  - `Promise.all` over a session's promises, as `SettleParts` and `SettleSession`.
- `finalizer.dfy`, module `Finalizer`: the request and the result of `completeUpload` and
  `abortUpload` for one session, given the store's answers.
- `scheduler.dfy`, module `Scheduler`: the three pieces of state as one value `Registry`, with
  two step functions and the lemmas about them:
  - `DrainStep` is one call of `tryUploadPart`;
  - `FinishStep` is the settling of one part upload.
- `uploader.dfy`, module `Uploads`: `class Uploader`, where
  - the three pieces of state are fields;
  - the event handlers are methods;
  - the loop of `tryUploadPart` is a `while` loop;
  - each method is proved to do what the functions above describe.

  The class invariant `Valid` says:
  - the counter equals the number of part promises still in flight plus the number of parts
    whose upload failed (the source never takes those back);
  - the counter never exceeds `max(0, concurrency + 1)`;
  - every part read from a stream is numbered `partOffset + index + 1`.

Behaviour of the code worth noting:

- `startUpload` checks that `Key` is present (`hasOwnProperty`), not that it is non-empty.
- The cap check is `activeRequestsCount <= concurency`. One pass can therefore bring the counter to
  `concurency + 1`. With a cap of 2, three buffered chunks are all read in one pass.
- The part number is `partOffset + partPromises.length + 1`, and the seeded resume parts count
  in that length. Resuming with `Offset = 5` and five parts numbers the next chunk 11, not 6.
- The counter goes down only when a part upload succeeds. A failed part keeps its slot forever.
- `partUploaded` is emitted with the session id, the parameter of `tryUploadPart`. The
  store's upload id is bound only inside the earlier `then` callback. The only listener ignores
  the argument.
- The `partUploaded` listener runs a scheduling pass synchronously inside the part's `then`
  callback, after the counter went down. When that pass throws, `{ETag, PartNumber}` is never
  returned and the part's promise rejects. The pass throws when it picks an id that was
  finalized but is still ready, or a session without a stream, while the counter is within the
  cap. Every later `Promise.all` over that session's parts then rejects.
- Finalization deletes the session but leaves its id in `readableUploads`.
- `abortAll` calls `completeUpload` (see Findings).

## Model

| member | source | states |
|---|---|---|
| `Sessions.NewSession` | index.js:38-66 | Fails with `MissingKey` iff `Key` is absent. Fails with `MissingUploadId` iff `Key` is present and the resume parameters lack `UploadId`. Otherwise the record has the key, offset `Offset` (or 0), the given parts as resolved promises in order (or none), the stream and the metadata. Its upload handle is the given `UploadId` when resuming, else still being created. |
| `Uploads.Uploader.StartUpload` | index.js:38-86 | On a validation error, nothing is registered and nothing is requested. On success, exactly the new session is added under the fresh id, and `createMultipartUpload` is requested for `Key` exactly when not resuming. The readiness set and the counter are unchanged and the class invariant holds. |
| `Uploads.Uploader.CreateSettled` | index.js:78-82 | The settling of `createUploadPromise` changes only that session's upload handle: created with the store's `UploadId`, or failed. |
| `Uploads.Uploader.constructor` | index.js:9-18 | A new Uploader has no sessions, an empty readiness set and a zero counter. |
| `Uploads.Uploader.StreamReceives` | index.js:68-72 | New chunks on a session's stream are queued behind the unread ones. The `readable` listener then raises `_newDataAvailable` for that session. |
| `Uploads.Uploader.NewDataAvailable` | index.js:19-23 | Adds the id to the readiness set, then runs one `_tryUploadPart` pass from that state. |
| `Uploads.Uploader.ScheduleNext` | index.js:30-35 | With no ready session, nothing changes. Otherwise some ready session is picked and the state becomes exactly what `DrainStep` gives for it. |
| `Scheduler.ScheduledTouchesOnlyPicked` | index.js:30-35 | A scheduling pass leaves every session it did not pick unchanged, both its record and its readiness. |
| `Uploads.Uploader.TryUploadPart` | index.js:170-207 | The `while` loop and the readiness update leave exactly the state `DrainStep` describes, and keep the class invariant. |
| `Uploads.Uploader.ReadPart` | index.js:176-200 | One turn of the loop after the cap check passed. If the stream is empty, nothing changes. Otherwise the next chunk becomes a pending part numbered `partOffset + partPromises.length + 1`, appended to the list, and the counter goes up by one. |
| `Sessions.ReadChunkDrains` | index.js:175-183 | A read after a passing cap check is the first turn of `Drain`, and keeps the part numbering. |
| `Sessions.DrainConsumesPrefix` | index.js:175-180 | A pass reads a prefix of the stream. The counter goes up by exactly the number of chunks read. |
| `Sessions.DrainAppendsNumberedParts` | index.js:181-183 | A pass appends one pending part per chunk read, in stream order, numbered consecutively from `partOffset + partPromises.length + 1`. Earlier parts are untouched. |
| `Sessions.NumberedChunksAt` | index.js:181 | The k-th chunk of a pass gets number `first + k`. |
| `Sessions.DrainStops` | index.js:173-206 | The last read returned null iff the counter ended within the cap, and then the stream is empty. The counter ends at most `max(initial, cap + 1)`. When the first cap check fails, nothing changes and `data` stays `true`. |
| `Sessions.AppendKeepsNumbering` | index.js:181-183 | Appending the next numbered part keeps every read part numbered `partOffset + index + 1`. |
| `Sessions.DrainKeepsNumbering` | index.js:181-183 | A whole pass keeps every read part numbered `partOffset + index + 1`. |
| `Sessions.NumberedPartsDistinct` | index.js:181-183 | Two parts read from one session's stream have strictly increasing, hence distinct, numbers. |
| `Scheduler.DrainStepReadiness` | index.js:203-206 | After a pass that did not throw, the id is still ready iff it was ready and the counter ended above the cap. So it leaves the set exactly when the last read returned null. No other id's readiness changes. A pass that throws changes nothing. A pass whose first cap check fails changes nothing. |
| `Scheduler.DrainStepCounter` | index.js:175-180 | A pass only raises the counter, and never past `max(initial, cap + 1)`. |
| `Scheduler.DrainStepParts` | index.js:174-201 | A pass changes only the drained session. It reads a prefix of its stream and appends exactly those chunks as parts numbered on from `partOffset + partPromises.length + 1`. The counter grows by the number of chunks read. Key, offset, handle and metadata stay the same. |
| `Scheduler.StaleReadyIdThrows` | index.js:174-177 | A pass on an id that is still ready but no longer registered changes nothing. It throws iff the counter is within the cap. |
| `Scheduler.CapCheckAdmitsOneExtra` | index.js:175-180 | With cap 2 and three buffered chunks, one pass reads all three, numbered 1, 2 and 3. The counter reaches 3 and the session stays ready. |
| `Scheduler.ResumeNumbersAfterOffsetAndSeeds` | index.js:181 | Resuming with `Offset = 5` and five seeded parts numbers the next chunk 11. |
| `Scheduler.FinishStep` | index.js:195-198 | Settling an in-flight part changes only that entry: `{ETag, PartNumber}` with the same number on success, rejected on failure. The counter goes down by one iff the upload succeeded. Readiness and every other session stay the same. |
| `Uploads.Uploader.FinishPart` | index.js:195-199 | On success, `partUploaded` carries the session id, and its listener runs one scheduling pass from `FinishStep`'s state. If that pass does not throw, the state is the pass's. If it throws, the state is `ThrowStep`'s: the part rejected, with the counter already lowered. On failure, nothing is emitted, the state is `FinishStep`'s, and the part's slot in the counter is never given back. |
| `Scheduler.ThrowStep` | index.js:195-199 | When the `partUploaded` listener throws, only that part's entry changes. It becomes rejected with the same number, the counter is one lower, and the numbering is kept. |
| `Scheduler.ThrowRejectsSession` | index.js:92-99 | After such a throw, `Promise.all` over the session's parts rejects, and so does the wait over its handle and parts. |
| `Uploads.Uploader.RejectPart` | index.js:195-199 | The part's promise rejects after all: the state is `RejectStep`'s, and the class invariant holds. |
| `Uploads.Uploader.AwsUploadId` | index.js:88-90 | Returns the session's upload handle, or `UnknownSession` for an unregistered id. |
| `Sessions.SettleParts` | index.js:92-94 | `Promise.all` over the part promises rejects iff some part failed. It is pending iff none failed and some is in flight. Otherwise it resolves to the part results in submission order. |
| `Uploads.Uploader.AwsParts` | index.js:92-94 | `awsParts` is exactly `SettleParts` of the session's parts, or `UnknownSession`. So it rejects iff some part failed, and when it resolves, the results are the parts in submission order. |
| `Sessions.SettleSession` | index.js:97-99 | `Promise.all` over the handle and the parts rejects iff the handle or some part rejected. It resolves iff the handle was created and every part resolved, and then no part is in flight and the value is the handle with the parts in order. |
| `PartLists.InsertByNumber` | index.js:103 | Inserting into a sorted list keeps it sorted and adds exactly the inserted part. |
| `PartLists.SortByPartNumber` | index.js:103 | The completion list is sorted by part number and is a permutation of the settled parts. |
| `PartLists.InsertKeepsEqualNumbersInOrder` | index.js:103 | Insertion puts the new part before every part of the same number. |
| `PartLists.SortKeepsEqualNumbersInOrder` | index.js:103 | The sort is stable: parts of one number keep their submission order. |
| `PartLists.SortIsStable` | index.js:103 | Stability for every part number at once. |
| `Finalizer.CompleteOutcome` | index.js:96-133 | `completeMultipartUpload` is sent iff `Promise.all` resolved, with the session's key and handle. The result succeeds iff it was sent and both the completion and the head request succeeded. It then carries location, bucket and key from the completion, the session's metadata and the fetched size. Otherwise the error is pending, rejected or remote. |
| `Finalizer.CompleteSendsSortedParts` | index.js:100-111 | The parts sent on completion are sorted by part number, a permutation of the settled parts, and in submission order among equal numbers. |
| `Finalizer.AbortOutcome` | index.js:135-157 | `abortMultipartUpload` is sent iff `Promise.all` resolved, with the key, the handle and the parts in submission order. It succeeds iff that request succeeded, and returns the store's answer. |
| `Uploads.Uploader.CompleteUpload` | index.js:96-133 | The outcome is `CompleteOutcome` of the session, or `UnknownSession`. The session is deleted iff the whole chain succeeded. Its id stays in the readiness set, and the counter is unchanged. |
| `Uploads.Uploader.AbortUpload` | index.js:135-157 | The outcome is `AbortOutcome` of the session, or `UnknownSession`. The session is deleted iff the abort succeeded. |
| `Uploads.Uploader.Delete` | index.js:128 | Deleting a session whose promises all resolved removes only that session and keeps the in-flight accounting. |
| `Uploads.Uploader.CompleteAll` | index.js:159-162 | Every session registered at the call gets exactly its `CompleteOutcome`. Exactly the successful ones are deleted, and the rest are unchanged. |
| `Uploads.Uploader.AbortAll` | index.js:164-167 | As written: every registered session gets `CompleteOutcome`, not `AbortOutcome`, and the completed ones are deleted. |
| `Uploads.AbortAllCompletesSettledSessions` | index.js:164-167 | On a fully resolved session, `abortAll` as written completes the object, sending the sorted completion list. An abort would have sent the abort request. |
| `Uploads.Uploader.AbortAllIntended` | index.js:164-167 | Corrected `abortAll`: every registered session gets exactly its `AbortOutcome`. Exactly the aborted ones are deleted. |

## Left out

- The store calls (`createMultipartUpload`, `uploadPart`, `completeMultipartUpload`,
  `headObject`, `abortMultipartUpload`) are network I/O. Their answers are parameters, and
  `None` stands for a failed request. `bucket` and the pass-through fields of `s3Params` are not
  modelled, nor is `_.merge`.
- Promise timing is not modelled. Each settlement is an explicit step: `CreateSettled` for the
  handle and `FinishPart` for one part upload. A part can only succeed after its handle was
  created, which is `FinishPart`'s precondition. A finalization is one atomic step: it either
  sends its request (when `Promise.all` has resolved) or returns `PartsPending` or
  `PartsRejected` and changes nothing. A finalization that would still be waiting is not
  suspended.
- EventEmitter dispatch is modelled as direct method calls, in the order the handlers run.
- `readable.read(partSize)` and Node's stream buffering are modelled as a queue of chunks. `read`
  returns the next chunk or null. `partSize` does not appear.
- One stream object shared by two sessions is not modelled, because each session holds its
  stream by value.
- `uuid.v4()` is the `id` parameter of `StartUpload`. That method requires the id to be new,
  which is what uuid uniqueness provides.
- `_.sample` is a nondeterministic choice of any ready id (`:|`).
- `complateAll` and `abortAll` run their chains one after the other. The interleaving of the
  concurrent chains and the aggregate promise that fails when one fails are not modelled. The
  per-session outcomes are.
- The result field `etag` of `completeUpload` is not modelled. It reads `response.Etag`, a field
  the store's reply does not have (its tag is `ETag`), so it is always undefined.
- A `Key` that is present but undefined is not distinguished from a present key. Validation
  checks presence only.
- The same holds for `UploadId`. `hasOwnProperty('UploadId')` lets a present but undefined id
  through, and the handle then resolves to undefined. `PartialParams.uploadId` is an `Option`,
  so the model cannot express that case.
- TypeErrors thrown by `completeUpload`, `abortUpload`, `awsParts` and `awsUploadId` on an
  unregistered id are modelled as the error `UnknownSession`.
- Integer widths are not modelled: the counter and part numbers are unbounded integers.

## Findings

| source | as written | input that shows it | evidently intended | confidence | as-written member | corrected member |
|---|---|---|---|---|---|---|
| index.js:164-167 | `abortAll` maps every registered id to `completeUpload` | any registered session whose handle and parts all resolved: `abortAll` sends `completeMultipartUpload` with the sorted parts and deletes the session as completed | `abortUpload` on every registered session, sending `abortMultipartUpload` | high; not executed | `Uploads.Uploader.AbortAll`, `Uploads.AbortAllCompletesSettledSessions` | `Uploads.Uploader.AbortAllIntended` |
