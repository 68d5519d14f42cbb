# Recording server: chunk accumulation and the processing ladder

This project models the core of a socket.io recording server (`server.js`).
The server does two things that carry state or rules:

- **Chunk accumulation.** Every `video-chunks` event pushes its chunk onto one
  process-wide list, `recordedChunks`. It then overwrites
  `temp_upload/<filename>` with the concatenation of the whole list. The list is
  shared by every connection and every file name. The model keeps it that way:
  chunks sent under another file name since the last reset end up in the file too
  (`InterleavedRecordings`).
- **The `process-video` ladder.** The handler empties the list and reads the file
  back. Then it issues a fixed series of gated calls:
  1. the begin-processing POST;
  2. the S3 put;
  3. for the PRO plan only: `fs.stat`, then Whisper transcription if the file is
     below 25000000 bytes, then the chat completion and the transcribe POST if
     the transcript is non-empty;
  4. the complete POST;
  5. the unlink of the local file.

The external services appear only as the outcome values the handler tests
(`Processing.Outcomes`). The ladder is a pure function `Processing.Ladder` from
those outcomes to the calls issued. It returns two chains. `main` is the awaited
line: begin, upload, complete, unlink. `enrichment` is the `fs.stat` callback
chain. It forks off after the upload and is not awaited, so the model states no
order between the two chains. It only states the orders the code forces: each
chain is a prefix of its full chain, and the enrichment chain exists only after
the upload.

`RecordingServer.Server` is the stateful part. It is a class with the chunk list
`chunks: seq<seq<byte>>` and the local file system `files: map<string, seq<byte>>`.
Its invariant `Valid` says that while the list is non-empty, the file written by
the latest chunk event holds exactly the concatenation of the list.

Behaviour the model keeps exactly as the code has it:

- The chunk buffer is global, not per session.
- A zero-chunk `process-video` does not fail; the file is read back as it is.
- A non-200 *body* status on the complete response does not stop the unlink. Only
  the *HTTP* status of that response decides it.
- There is no failure state and no retry.

## Model

| member | source | states |
|---|---|---|
| `Chunks.ConcatSnoc` | server.js:50-56 | pushing a chunk appends exactly its bytes to the end of the assembled buffer |
| `Chunks.ConcatLength` | server.js:52-56 | the assembled buffer is as long as the sum of the chunk lengths |
| `Chunks.ConcatChunkAt` | server.js:52-56 | every chunk appears unchanged in the buffer, right after the bytes of the chunks before it (in-order concatenation) |
| `Processing.Ladder` | server.js:68-155 | the awaited calls form a prefix of begin, upload, complete, unlink; the stat callback chain is a prefix of stat, Whisper, chat, transcribe POST; that chain only runs once begin and upload have been issued |
| `Processing.IssuesIffGate` | server.js:74-151 | each call is issued if and only if its own gate holds (begin always; upload iff begin body status is 200; complete iff begin and upload are 200; unlink iff additionally the complete HTTP status is 200; stat, Whisper, chat and transcribe POST under the PRO, size and truthiness tests) |
| `Processing.NoCallTwice` | server.js:68-155 | no call is issued twice and the two chains share no call |
| `Processing.BeginFailureStops` | server.js:74-78 | a begin body status other than 200 issues nothing after the begin POST: no upload, transcription, summary, transcribe POST, complete POST or unlink |
| `Processing.CompleteIffUploaded` | server.js:90-154 | the complete POST is issued iff begin and upload both report 200; a non-200 upload issues nothing after the upload |
| `Processing.UploadPrecedesRest` | server.js:69-93 | any call other than begin and the upload is issued only after begin and then the upload |
| `Processing.NoTranscriptionWithoutGate` | server.js:96-101 | a non-PRO plan, a failed stat or a size of 25000000 or more issues no transcription, chat completion or transcribe POST, and the complete POST still follows a successful upload |
| `Processing.EmptyTranscriptSkipsSummary` | server.js:107-130 | an empty or failed transcript issues no chat completion and no transcribe POST, and the complete POST still follows a successful upload |
| `Processing.TranscribeStatusIgnored` | server.js:125-129 | the transcribe response status changes no call |
| `Processing.UnlinkIffCompleteHttpOk` | server.js:136-151 | the file is unlinked iff the upload succeeded and the complete response's HTTP status is 200; the complete body status changes no call |
| `RecordingServer.PathOfInjective` | server.js:49 | distinct file names give distinct paths under `temp_upload/` |
| `RecordingServer.Server.constructor` | server.js:41 | the chunk list starts empty; the disk holds whatever it held before the server started |
| `RecordingServer.Server.OnVideoChunk` | server.js:46-62 | the chunk is appended at the end of the list and earlier chunks are unchanged; `temp_upload/<filename>` is replaced by the concatenation of the whole list; a read of `temp_upload/<filename>` now gives that concatenation and a read of any other file name gives what it gave before; the invariant is kept |
| `RecordingServer.Server.OnProcessVideo` | server.js:64-156 | the list is empty afterwards, whatever the file name; the upload body is the file as read before processing; the calls are those of the ladder; when the list was non-empty and the latest chunk came under this file name, the upload body is exactly the concatenation of the chunks sent since the last reset; after an unlink a read of the file fails, otherwise it still gives the uploaded body; reads of other file names are unchanged |
| `RecordingServer.InterleavedRecordings` | server.js:41-62 | on any starting disk, chunks sent under file name `a` and then `b` with no reset in between both land in `b`'s file, in order |
| `RecordingServer.FreePlanRecording` | server.js:46-151 | three chunks then processing on a free plan, on any starting disk: the upload carries the three chunks in order; the calls are exactly begin, upload, complete and unlink; the file is gone |
| `RecordingServer.ProPlanCompleteRejected` | server.js:96-151 | a PRO recording whose stat reports 1000000 bytes and whose transcript is non-empty runs the whole enrichment chain; a non-200 complete HTTP status keeps the file on disk |

## Left out

- Transport and bootstrap: socket.io connection and disconnect handlers, Express, CORS, `server.listen` and dotenv (server.js:13-39, 43-44, 158-165). They hold no logic.
- The S3, OpenAI and axios clients. Each call is represented only by its outcome. The prompt text and the generated title and summary are opaque and not modelled.
- Thrown errors. A rejected axios call (non-2xx), a throwing S3 send or a throwing OpenAI call is represented by the outcome that issues the same calls: a status other than 200, `TranscriptionError`, or `completionOk == false`. A non-number or missing status is likewise any integer other than 200, and a missing plan is any string other than `"PRO"`.
- The process crash that Node may cause on an unhandled promise rejection. It is not modelled.
- Timing across asynchronous steps. The `fs.stat` callback races with the complete POST and the unlink, and the Whisper read stream races with the unlink. The stat size is an input outcome, not derived from the file.
- Concurrent events. Each chunk event is applied atomically. The model does not cover a second event landing during the `await` on the Blob, or a write still in flight when `process-video` reads the file.
- Stream and Blob mechanics, the transient empty file created by `createWriteStream` before the write finishes, and the codec type.
- The ignored `fs.readFile` error (server.js:68). A missing file is read as `ReadError`, and the upload outcome stays an input.
- Path handling. File names are plain keys; `..` or `/` in a file name is not resolved.
- File-system failures other than a missing file on read. A failing write stream (for example a missing `temp_upload/` directory, server.js:49, 59) and a failing `fs.unlink` (server.js:148-150) are not modelled: writes and unlinks always succeed.
- Logging via `console.log`. The log-only branches appear only as statuses that change no call.
