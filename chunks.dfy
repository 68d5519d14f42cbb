/** Raw recording bytes and the concatenation of a list of chunks, which is what
    the server writes to disk after every `video-chunks` event (a Blob built from
    the whole chunk list). */
module Chunks {

  /** One byte of media data. */
  newtype byte = b: int | 0 <= b < 0x100

  /** The in-order concatenation of every chunk. */
  function Concat(chunks: seq<seq<byte>>): seq<byte>
  {
    if chunks == [] then [] else chunks[0] + Concat(chunks[1..])
  }

  /** The sum of the chunk lengths. */
  function TotalLength(chunks: seq<seq<byte>>): nat
  {
    if chunks == [] then 0 else |chunks[0]| + TotalLength(chunks[1..])
  }

  /** Appending one chunk to the list appends its bytes to the concatenation. */
  lemma {:induction false} ConcatSnoc(chunks: seq<seq<byte>>, chunk: seq<byte>)
    ensures Concat(chunks + [chunk]) == Concat(chunks) + chunk
  {
    if chunks == [] {
      assert [] + [chunk] == [chunk];
      assert Concat([chunk]) == chunk + Concat([]);
    } else {
      assert (chunks + [chunk])[0] == chunks[0];
      assert (chunks + [chunk])[1..] == chunks[1..] + [chunk];
      ConcatSnoc(chunks[1..], chunk);
    }
  }

  /** The assembled file is exactly as long as all its chunks together. */
  lemma {:induction false} ConcatLength(chunks: seq<seq<byte>>)
    ensures |Concat(chunks)| == TotalLength(chunks)
  {
    if chunks != [] {
      ConcatLength(chunks[1..]);
    }
  }

  /** Chunk `i` sits, unchanged, right after the bytes of the chunks before it:
      the concatenation keeps every chunk and keeps their order. */
  lemma {:induction false} ConcatChunkAt(chunks: seq<seq<byte>>, i: nat)
    requires i < |chunks|
    ensures TotalLength(chunks[..i]) + |chunks[i]| <= |Concat(chunks)|
    ensures Concat(chunks)[TotalLength(chunks[..i])..TotalLength(chunks[..i]) + |chunks[i]|] == chunks[i]
  {
    ConcatLength(chunks[1..]);
    if i == 0 {
      assert chunks[..0] == [];
    } else {
      var rest := chunks[1..];
      ConcatChunkAt(rest, i - 1);
      assert chunks[..i][0] == chunks[0];
      assert chunks[..i][1..] == rest[..i - 1];
      var off := TotalLength(rest[..i - 1]);
      assert TotalLength(chunks[..i]) == |chunks[0]| + off;
      assert rest[i - 1] == chunks[i];
      assert Concat(chunks) == chunks[0] + Concat(rest);
      assert Concat(chunks)[|chunks[0]| + off..|chunks[0]| + off + |chunks[i]|]
          == Concat(rest)[off..off + |chunks[i]|];
    }
  }
}
