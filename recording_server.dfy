/** The socket handlers of the recording server: one process-wide chunk list that
    every `video-chunks` event appends to and rewrites a file from, and the
    `process-video` handler that empties the list, reads the file back and runs
    the processing ladder. */
module RecordingServer {
  import opened Chunks
  import opened Processing

  /** The directory every recording is written to. */
  const UploadDir: string := "temp_upload/"

  /** The local path of a recording, `temp_upload/<filename>`. */
  function PathOf(filename: string): string
  {
    UploadDir + filename
  }

  /** Different file names give different paths. */
  lemma PathOfInjective(a: string, b: string)
    ensures PathOf(a) == PathOf(b) <==> a == b
  {
    if PathOf(a) == PathOf(b) {
      assert a == PathOf(a)[|UploadDir|..];
      assert b == PathOf(b)[|UploadDir|..];
    }
  }

  /** The callback result of `fs.readFile`. */
  datatype FileRead = ReadError | ReadOk(data: seq<byte>)

  class Server {
    /** `recordedChunks`: shared by every connection and every file name. */
    var chunks: seq<seq<byte>>
    /** The local file system, from path to contents. */
    var files: map<string, seq<byte>>
    /** The file name of the most recent chunk event. */
    ghost var lastWritten: string

    /** While the chunk list is non-empty, the file named by the most recent chunk
        event holds exactly the concatenation of the list. */
    ghost predicate Valid()
      reads this
    {
      chunks != [] ==> PathOf(lastWritten) in files && files[PathOf(lastWritten)] == Concat(chunks)
    }

    /** A server starting on a disk that already holds `disk`. */
    constructor (disk: map<string, seq<byte>>)
      ensures Valid()
      ensures chunks == [] && files == disk
    {
      chunks := [];
      files := disk;
      lastWritten := "";
    }

    /** What `fs.readFile` of `temp_upload/<filename>` gives now. */
    function ReadFile(filename: string): FileRead
      reads this
    {
      if PathOf(filename) in files then ReadOk(files[PathOf(filename)]) else ReadError
    }

    /** The `video-chunks` handler: push the chunk onto the shared list and
        overwrite `temp_upload/<filename>` with the whole list, whatever file
        names the earlier chunks were sent under. */
    method OnVideoChunk(filename: string, chunk: seq<byte>)
      requires Valid()
      modifies this
      ensures Valid()
      ensures chunks == old(chunks) + [chunk]
      ensures files == old(files)[PathOf(filename) := Concat(chunks)]
      ensures files[PathOf(filename)] == Concat(old(chunks)) + chunk
      ensures lastWritten == filename
      ensures ReadFile(filename) == ReadOk(Concat(chunks))
      ensures forall g :: g != filename ==> ReadFile(g) == old(ReadFile(g))
    {
      chunks := chunks + [chunk];
      var buffer := Concat(chunks);
      ConcatSnoc(old(chunks), chunk);
      files := files[PathOf(filename) := buffer];
      lastWritten := filename;
      forall g | g != filename
        ensures ReadFile(g) == old(ReadFile(g))
      {
        PathOfInjective(g, filename);
      }
    }

    /** The `process-video` handler: empty the shared list, read the file back,
        run the ladder on the services' outcomes and, when the ladder unlinks,
        remove the file. `body` is what the S3 put carries. */
    method OnProcessVideo(filename: string, o: Outcomes) returns (body: FileRead, d: Dispatch)
      requires Valid()
      modifies this
      ensures Valid()
      ensures chunks == []
      ensures body == old(ReadFile(filename))
      ensures d == Ladder(o)
      ensures files == if Issues(d, Unlink) then old(files) - {PathOf(filename)} else old(files)
      ensures old(chunks) != [] && filename == old(lastWritten) ==> body == ReadOk(Concat(old(chunks)))
      ensures ReadFile(filename) == if Issues(d, Unlink) then ReadError else body
      ensures forall g :: g != filename ==> ReadFile(g) == old(ReadFile(g))
    {
      chunks := [];
      body := ReadFile(filename);
      d := Ladder(o);
      if Unlink in d.main {
        files := files - {PathOf(filename)};
      }
      forall g | g != filename
        ensures ReadFile(g) == old(ReadFile(g))
      {
        PathOfInjective(g, filename);
      }
    }
  }

  /** Two recordings streamed under different file names before either is
      processed, on any starting disk: the second file holds the bytes of both, because the chunk list
      is shared. */
  method InterleavedRecordings(disk: map<string, seq<byte>>, first: seq<byte>, second: seq<byte>)
    returns (stored: FileRead)
    ensures stored == ReadOk(first + second)
  {
    var server := new Server(disk);
    server.OnVideoChunk("a.webm", first);
    server.OnVideoChunk("b.webm", second);
    assert Concat([first]) == first + Concat([]);
    stored := server.ReadFile("b.webm");
  }

  /** A free-plan recording of three chunks, on any starting disk: the upload carries the three chunks
      in order, the calls are begin, upload and complete, the local file is
      removed and the chunk list is left empty. */
  method FreePlanRecording(disk: map<string, seq<byte>>, c1: seq<byte>, c2: seq<byte>, c3: seq<byte>, o: Outcomes)
    returns (body: FileRead, d: Dispatch, left: FileRead)
    requires Uploaded(o) && o.plan != ProPlan && o.completeHttpStatus == Ok
    ensures body == ReadOk(c1 + c2 + c3)
    ensures d == Dispatch([BeginPost, S3Put, CompletePost, Unlink], [])
    ensures left == ReadError
  {
    var server := new Server(disk);
    server.OnVideoChunk("rec.webm", c1);
    server.OnVideoChunk("rec.webm", c2);
    server.OnVideoChunk("rec.webm", c3);
    assert Concat([c1]) == c1 + Concat([]);
    body, d := server.OnProcessVideo("rec.webm", o);
    left := server.ReadFile("rec.webm");
  }

  /** A PRO recording that is uploaded but whose complete call comes back with an
      HTTP status other than 200: enrichment runs, the file stays on disk. */
  method ProPlanCompleteRejected(disk: map<string, seq<byte>>, chunk: seq<byte>, o: Outcomes) returns (d: Dispatch, left: FileRead)
    requires Uploaded(o) && o.plan == ProPlan && o.completeHttpStatus != Ok
    requires o.stat == StatOk(1000000) && o.transcription == Transcript("hello") && o.completionOk
    ensures d == Dispatch([BeginPost, S3Put, CompletePost], EnrichmentChain)
    ensures left == ReadOk(chunk)
  {
    var server := new Server(disk);
    server.OnVideoChunk("rec.webm", chunk);
    assert Concat([chunk]) == chunk + Concat([]);
    var body;
    body, d := server.OnProcessVideo("rec.webm", o);
    left := server.ReadFile("rec.webm");
  }
}
