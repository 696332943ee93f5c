/**
 * Byte strings and the multipart framing of one stream part
 * (camera_service.py:157-158): every JPEG the stream yields is wrapped as
 * "--frame\r\nContent-Type: image/jpeg\r\n\r\n" + jpeg + "\r\n".
 */
module Multipart {
  import opened Wrappers

  newtype byte = x: int | 0 <= x < 256
  type Bytes = seq<byte>

  /** The byte of an ASCII character (b'...' literals hold only ASCII). */
  function Byte(c: char): (b: byte)
    ensures c as int < 256 ==> b as int == c as int
  {
    (c as int % 256) as byte
  }

  /** The bytes of an ASCII text, one per character. */
  function AsciiBytes(s: string): (b: Bytes)
    ensures |b| == |s|
    ensures forall i :: 0 <= i < |s| ==> b[i] == Byte(s[i])
  {
    seq(|s|, i requires 0 <= i < |s| => Byte(s[i]))
  }

  /** Everything in front of the JPEG bytes of one part. */
  const PartHeader: Bytes := AsciiBytes("--frame\r\nContent-Type: image/jpeg\r\n\r\n")
  /** The line break that closes one part. */
  const PartTrailer: Bytes := AsciiBytes("\r\n")

  /** One part of the multipart stream carrying `jpeg`. */
  function Chunk(jpeg: Bytes): (c: Bytes)
    ensures |c| == |jpeg| + 39
    ensures c[..37] == PartHeader && c[|c| - 2..] == PartTrailer
    ensures c[37..|c| - 2] == jpeg
  {
    PartHeader + jpeg + PartTrailer
  }

  /** The JPEG bytes a well-framed part carries, or None for anything else. */
  function ParseChunk(c: Bytes): (r: Option<Bytes>)
    ensures r.Some? ==> |r.value| + 39 == |c|
  {
    if |c| >= 39 && c[..37] == PartHeader && c[|c| - 2..] == PartTrailer
    then Some(c[37..|c| - 2])
    else None
  }

  /** Parsing a framed part gives back exactly the JPEG that was framed. */
  lemma ParseChunkOfChunk(jpeg: Bytes)
    ensures ParseChunk(Chunk(jpeg)) == Some(jpeg)
  {
  }

  /** Conversely, anything that parses is the framing of what it parsed to. */
  lemma ChunkOfParseChunk(c: Bytes, jpeg: Bytes)
    requires ParseChunk(c) == Some(jpeg)
    ensures Chunk(jpeg) == c
  {
    assert c == c[..37] + c[37..|c| - 2] + c[|c| - 2..];
  }

  /** Two different images never yield the same part. */
  lemma ChunkInjective(a: Bytes, b: Bytes)
    requires Chunk(a) == Chunk(b)
    ensures a == b
  {
    ParseChunkOfChunk(a);
    ParseChunkOfChunk(b);
  }
}
