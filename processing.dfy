/** The decision ladder of the `process-video` handler: given what every external
    service answered, which calls the handler issues. The services themselves
    (the recording backend, S3, Whisper, the chat model, the file system) are
    represented only by the outcome values the handler tests. */
module Processing {

  /** The status the handler compares responses against, with `===`. */
  const Ok: int := 200

  /** The plan name that unlocks transcription. */
  const ProPlan: string := "PRO"

  /** Whisper's upload limit: transcription only for files strictly below it. */
  const WhisperLimit: nat := 25000000

  /** The callback result of `fs.stat` on the uploaded file. */
  datatype StatResult = StatError | StatOk(size: nat)

  /** What the Whisper transcription call gave back: a thrown error, or text. */
  datatype Transcription = TranscriptionError | Transcript(text: string)

  /** Everything the handler learns from the outside world. A status that is not
      a number, or a call that throws, is represented by a status other than 200
      (`=== 200` fails alike). */
  datatype Outcomes = Outcomes(
    beginStatus: int,          // `status` in the begin-processing response body
    plan: string,              // `plan` in the begin-processing response body
    uploadStatus: int,         // `$metadata.httpStatusCode` of the S3 put
    stat: StatResult,          // `fs.stat` of the local file
    transcription: Transcription,
    completionOk: bool,        // the chat completion returned a choice
    transcribeStatus: int,     // `status` in the transcribe response body
    completeBodyStatus: int,   // `status` in the complete response body
    completeHttpStatus: int    // HTTP status of the complete response
  )

  /** The external calls the handler can issue. */
  datatype Action =
    | BeginPost       // POST /recording/<user>/processing
    | S3Put           // PutObjectCommand with the file as body
    | Stat            // fs.stat of temp_upload/<filename>
    | Whisper         // audio transcription
    | ChatCompletion  // title and summary generation
    | TranscribePost  // POST /recording/<user>/transcribe
    | CompletePost    // POST /recording/<user>/complete
    | Unlink          // fs.unlink of temp_upload/<filename>

  /** The calls issued, as two chains. `main` is the awaited line of the handler;
      `enrichment` is the `fs.stat` callback, which forks off after the S3 put and
      runs concurrently with the rest of `main`. Within a chain every call awaits
      the one before it; across the chains no order is forced. */
  datatype Dispatch = Dispatch(main: seq<Action>, enrichment: seq<Action>)

  /** The awaited line when every gate passes. */
  const MainChain: seq<Action> := [BeginPost, S3Put, CompletePost, Unlink]

  /** The `fs.stat` callback chain when every gate passes. */
  const EnrichmentChain: seq<Action> := [Stat, Whisper, ChatCompletion, TranscribePost]

  predicate Issues(d: Dispatch, a: Action)
  {
    a in d.main || a in d.enrichment
  }

  /** JavaScript truthiness of the transcription result. */
  predicate Truthy(t: Transcription)
  {
    t.Transcript? && t.text != ""
  }

  /** The `fs.stat` callback chain, once the plan is PRO. */
  function Enrichment(o: Outcomes): seq<Action>
  {
    if o.stat.StatError? || o.stat.size >= WhisperLimit then [Stat]
    else if !Truthy(o.transcription) then [Stat, Whisper]
    else if !o.completionOk then [Stat, Whisper, ChatCompletion]
    else EnrichmentChain
  }

  /** The handler body after the file has been read. */
  function Ladder(o: Outcomes): (d: Dispatch)
    ensures d.main <= MainChain && |d.main| >= 1
    ensures d.enrichment <= EnrichmentChain
    ensures d.enrichment != [] ==> |d.main| >= 3
  {
    if o.beginStatus != Ok then Dispatch([BeginPost], [])
    else if o.uploadStatus != Ok then Dispatch([BeginPost, S3Put], [])
    else
      var enrichment := if o.plan == ProPlan then Enrichment(o) else [];
      if o.completeHttpStatus == Ok then Dispatch(MainChain, enrichment)
      else Dispatch([BeginPost, S3Put, CompletePost], enrichment)
  }

  /** Both the begin response and the S3 put reported 200. */
  predicate Uploaded(o: Outcomes)
  {
    o.beginStatus == Ok && o.uploadStatus == Ok
  }

  /** The conditions under which Whisper is asked for a transcript. */
  predicate TranscriptionRequested(o: Outcomes)
  {
    Uploaded(o) && o.plan == ProPlan && o.stat.StatOk? && o.stat.size < WhisperLimit
  }

  /** The gate of each call, stated call by call. */
  predicate Gate(a: Action, o: Outcomes)
  {
    match a
    case BeginPost => true
    case S3Put => o.beginStatus == Ok
    case Stat => Uploaded(o) && o.plan == ProPlan
    case Whisper => TranscriptionRequested(o)
    case ChatCompletion => TranscriptionRequested(o) && Truthy(o.transcription)
    case TranscribePost => TranscriptionRequested(o) && Truthy(o.transcription) && o.completionOk
    case CompletePost => Uploaded(o)
    case Unlink => Uploaded(o) && o.completeHttpStatus == Ok
  }

  /** The ladder issues a call exactly when that call's gate holds. */
  lemma IssuesIffGate(o: Outcomes, a: Action)
    ensures Issues(Ladder(o), a) <==> Gate(a, o)
  {
  }

  /** A call is issued at most once. */
  lemma NoCallTwice(o: Outcomes)
    ensures forall i, j :: 0 <= i < j < |Ladder(o).main| ==> Ladder(o).main[i] != Ladder(o).main[j]
    ensures forall i, j :: 0 <= i < j < |Ladder(o).enrichment| ==>
      Ladder(o).enrichment[i] != Ladder(o).enrichment[j]
    ensures forall a :: a in Ladder(o).main ==> a !in Ladder(o).enrichment
  {
  }

  /** A begin response whose body status is not 200 stops everything. */
  lemma BeginFailureStops(o: Outcomes)
    requires o.beginStatus != Ok
    ensures Ladder(o) == Dispatch([BeginPost], [])
  {
  }

  /** The complete call is made exactly when begin and upload both reported 200;
      a failed upload issues nothing after it. */
  lemma CompleteIffUploaded(o: Outcomes)
    ensures Issues(Ladder(o), CompletePost) <==> Uploaded(o)
    ensures o.beginStatus == Ok && o.uploadStatus != Ok ==> Ladder(o) == Dispatch([BeginPost, S3Put], [])
  {
  }

  /** Every call other than begin and the upload comes after both of them. */
  lemma UploadPrecedesRest(o: Outcomes, a: Action)
    requires Issues(Ladder(o), a) && a != BeginPost && a != S3Put
    ensures Ladder(o).main[..2] == [BeginPost, S3Put]
  {
  }

  /** A free plan, a failed stat, or a file of 25000000 bytes or more never leads
      to transcription, summary or the transcribe call, while completion still
      happens after a successful upload. */
  lemma NoTranscriptionWithoutGate(o: Outcomes)
    requires o.plan != ProPlan || o.stat.StatError? || o.stat.size >= WhisperLimit
    ensures !Issues(Ladder(o), Whisper)
    ensures !Issues(Ladder(o), ChatCompletion)
    ensures !Issues(Ladder(o), TranscribePost)
    ensures Uploaded(o) ==> Issues(Ladder(o), CompletePost)
  {
  }

  /** An empty or failed transcript skips the summary and the transcribe call but
      not the complete call. */
  lemma EmptyTranscriptSkipsSummary(o: Outcomes)
    requires !Truthy(o.transcription)
    ensures !Issues(Ladder(o), ChatCompletion)
    ensures !Issues(Ladder(o), TranscribePost)
    ensures Uploaded(o) ==> Issues(Ladder(o), CompletePost)
  {
  }

  /** The transcribe response is only logged: its status changes nothing. */
  lemma TranscribeStatusIgnored(o: Outcomes, status: int)
    ensures Ladder(o.(transcribeStatus := status)) == Ladder(o)
  {
  }

  /** The local file is removed exactly when the complete response's HTTP status is
      200 (after a successful upload); the body status of that response is only
      logged and changes nothing. */
  lemma UnlinkIffCompleteHttpOk(o: Outcomes, bodyStatus: int)
    ensures Issues(Ladder(o), Unlink) <==> Uploaded(o) && o.completeHttpStatus == Ok
    ensures Ladder(o.(completeBodyStatus := bodyStatus)) == Ladder(o)
  {
  }
}
